/** The tabs of the app's main tab bar and their equality. */
module Tabs {
  import opened Wrappers

  /** A URL, represented by its text. */
  type URL = string

  /** What the wallet tab is asked to do when it is shown. */
  datatype WalletAction = NoAction | AddToken(address: string)

  datatype Tab =
    | Browser(browserURL: Option<URL>)
    | MobileApp(mobileAppURL: Option<URL>)
    | Wallet(action: WalletAction)
    | Settings
  {
    /** The tab's position in the tab bar. */
    function Index(): (i: nat)
      ensures i <= 3
      ensures i == 0 <==> Browser?
      ensures i == 1 <==> MobileApp?
      ensures i == 2 <==> Wallet?
      ensures i == 3 <==> Settings?
    {
      match this
      case Browser(_) => 0
      case MobileApp(_) => 1
      case Wallet(_) => 2
      case Settings => 3
    }
  }

  predicate SameCase(a: Tab, b: Tab) {
    (a.Browser? && b.Browser?) || (a.MobileApp? && b.MobileApp?) ||
    (a.Wallet? && b.Wallet?) || (a.Settings? && b.Settings?)
  }

  /**
   * The tabs' `==`: the URLs of two browser or two mobile-app tabs are
   * compared, with no URL equal only to no URL; two wallet tabs are equal
   * whatever their actions. So it is structural equality except that the
   * wallet action is ignored.
   */
  function Equal(lhs: Tab, rhs: Tab): (r: bool)
    ensures r <==> lhs == rhs || (lhs.Wallet? && rhs.Wallet?)
  {
    match (lhs, rhs)
    case (Browser(l), Browser(r)) => l == r
    case (MobileApp(l), MobileApp(r)) => l == r
    case (Wallet(_), Wallet(_)) => true
    case (Settings, Settings) => true
    case (_, _) => false
  }

  /** Two tabs hold the same index exactly when they are of the same case. */
  lemma IndexInjective(a: Tab, b: Tab)
    ensures a.Index() == b.Index() <==> SameCase(a, b)
  {
  }

  lemma EqualBrowser(l: Option<URL>, r: Option<URL>)
    ensures Equal(Browser(l), Browser(r)) <==> l == r
    ensures Equal(MobileApp(l), MobileApp(r)) <==> l == r
  {
  }

  lemma EqualWalletIgnoresAction(x: WalletAction, y: WalletAction)
    ensures Equal(Wallet(x), Wallet(y))
    ensures Equal(Settings, Settings)
  {
  }

  lemma EqualOnlyWithinCase(a: Tab, b: Tab)
    ensures Equal(a, b) ==> SameCase(a, b)
    ensures Equal(a, b) ==> a.Index() == b.Index()
  {
  }

  /** `==` is an equivalence relation. */
  lemma EqualIsEquivalence(a: Tab, b: Tab, c: Tab)
    ensures Equal(a, a)
    ensures Equal(a, b) <==> Equal(b, a)
    ensures Equal(a, b) && Equal(b, c) ==> Equal(a, c)
  {
  }
}
