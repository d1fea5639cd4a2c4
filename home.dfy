/**
 * The home page each kind of browser screen opens (`goHome`), built from
 * the URL constants of the settings.
 */
module Home {

  /** The three kinds of browser screen. */
  datatype BrowserType = BlockMed | RegisterFile | AccessFile

  /** The app's build configurations, which choose the BlockMed base URL. */
  datatype BuildConfiguration = Debug | Beta | Release

  const DappsBrowserURL := "http://www.blockmed.ai"
  const RegisterFilePath := "file-register"
  const AccessFilePath := "file-access"

  /** `BlockMedConstants.blockMedBaseURL` under each build configuration. */
  function BlockMedBaseURL(config: BuildConfiguration): (base: string)
    ensures |base| > 0 && base[|base| - 1] == '/'
  {
    match config
    case Debug => "https://ipfs-dev.blcksync.info/"
    case Beta => "https://ipfs-dev.blcksync.info/"
    case Release => "https://ipfs.blcksync.info/"
  }

  /** The URL text `goHome` loads for a screen of type `t`, given the base URL. */
  function HomeURL(t: BrowserType, base: string): (url: string)
    ensures t == BlockMed ==> url == DappsBrowserURL
    ensures t == RegisterFile ==> base <= url && url[|base|..] == RegisterFilePath
    ensures t == AccessFile ==> base <= url && url[|base|..] == AccessFilePath
  {
    match t
    case BlockMed => DappsBrowserURL
    case RegisterFile => base + RegisterFilePath
    case AccessFile => base + AccessFilePath
  }

  /**
   * Whatever the base URL, the three screens open three different pages:
   * the last characters of the three URLs differ.
   */
  lemma HomeURLInjective(t1: BrowserType, t2: BrowserType, base: string)
    ensures HomeURL(t1, base) == HomeURL(t2, base) <==> t1 == t2
  {
  }

  /** Debug and beta builds share one base URL; release builds use another. */
  lemma DebugAndBetaShareBase()
    ensures BlockMedBaseURL(Debug) == BlockMedBaseURL(Beta) != BlockMedBaseURL(Release)
  {
  }

  /** The pages a release build opens. */
  lemma ReleaseHomeURLs()
    ensures HomeURL(RegisterFile, BlockMedBaseURL(Release)) == "https://ipfs.blcksync.info/file-register"
    ensures HomeURL(AccessFile, BlockMedBaseURL(Release)) == "https://ipfs.blcksync.info/file-access"
  {
  }
}
