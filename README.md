# BlockMed DApp browser: the JavaScript-bridge callback table

This project models the part of the wallet's in-app DApp browser that carries logic.

- **The pending-callback table of `BrowserViewController`.** The page's "access file" and "register file" buttons send a payload through the JavaScript bridge. The payload is a table from a transaction id to request fields such as `type` and `hashId`. The payload's first key is registered with its entry, unless that key is already pending. When a `transactionConfirmed` notification arrives for a pending non-empty id whose entry has a `type`, the entry is removed and exactly one bridge call goes back into the page:
  - `FileListItemFetchKeyForIPFS-<hashId>` with `{"ipfsMetadataHash": id}` for `accessFile`;
  - `FileRegisterCompleted` with the same parameters for `registerFile`;
  - a call named `""` with `{"": ""}` for any other type.
- **`notifyFinish`.** It builds the `executeCallback(<id>, <error or null>, <result or null>)` script it hands to the web view.
- **`goHome`.** It chooses the home page of each kind of browser screen.
- **`Tabs`.** These are the tab-bar cases, with their index and their hand-written equality. That equality ignores the wallet tab's action.

Modules:
- `Bridge` is the table as values: `Register`, `Confirm` and `CompletionCall`, plus lemmas about them.
- `Browser` holds the class `BrowserViewController`. Its `jsBridgeHandler` map field is updated in place. Its two logs stand for `bridge.callHandler` and `webView.evaluateJavaScript`. Its methods are proved against the `Bridge` functions.
- `Scripts` holds the `notifyFinish` script. `Decimal` renders a Swift `Int` the way `"\(n)"` does.
- `Home` holds `goHome`'s mapping and the URL constants. `Tabs` holds the tabs.
- `Wrappers` holds `Option`.

An entry of an unrecognised type is still removed, and a call named `""` with `{"": ""}` is sent (`Trust/Browser/ViewControllers/BrowserViewController.swift:382-395`); `Bridge.ConfirmOtherType` states it.

Registration accepts the empty id, but a confirmation for the empty id does nothing. An entry registered under `""` therefore stays pending for as long as the screen lives; `Bridge.EmptyIdStaysPending` states it.

`notifyFinish` puts the result and the error text between double quotes without escaping them, and the model keeps to that. `Scripts.NotifyScriptInjective` shows that two different (id, outcome) pairs never give the same script text. This says nothing about what the page does with that text. A `"` inside the result or the error text closes the string literal early, so that text can inject script into the page. For example, a failure report for the same callback can run before the success is reported.

## Model

| member | source | states |
|---|---|---|
| `Browser.BrowserViewController.constructor` | Trust/Browser/ViewControllers/BrowserViewController.swift:58-59 | a new screen starts with no pending request, has sent no bridge call, and has had no `notifyFinish` script evaluated |
| `Browser.BrowserViewController.SetJsBridgeHandlerEvent` | Trust/Browser/ViewControllers/BrowserViewController.swift:305-312 | a nil payload, a non-table payload or an empty table leaves the table unchanged; otherwise some one key of the payload is registered with its own entry, first write wins, and nothing else of the payload is read |
| `Browser.BrowserViewController.HandleBridgeMessage` | Trust/Browser/ViewControllers/BrowserViewController.swift:277-303 | the access-file and register-file handlers register the payload; every registered handler answers the page's callback with `<name> callback`; the download handler and unknown names leave the table alone |
| `Browser.BrowserViewController.TransactionConfirmed` | Trust/Browser/ViewControllers/BrowserViewController.swift:377-401 | the new table is `Confirm`'s table, and the bridge log grows by exactly the call `Confirm` sends, or not at all |
| `Browser.BrowserViewController.NotifyFinish` | Trust/Browser/ViewControllers/BrowserViewController.swift:157-167 | exactly one script is handed to the web view: `NotifyScript(callbackID, value)` |
| `Browser.RegisterAndConfirmTwice` | Trust/Browser/ViewControllers/BrowserViewController.swift:297-312 | registering an id twice and confirming it twice sends exactly one `FileRegisterCompleted` call with `{"ipfsMetadataHash": id}` and leaves nothing pending |
| `Bridge.Register` | Trust/Browser/ViewControllers/BrowserViewController.swift:309-310 | an already pending key leaves the table unchanged; a new key is added with its value; every other entry keeps its value |
| `Bridge.RegisterFirstWriteWins` | Trust/Browser/ViewControllers/BrowserViewController.swift:309-310 | a second registration under the same key keeps the first value |
| `Bridge.CompletionCall` | Trust/Browser/ViewControllers/BrowserViewController.swift:382-393 | the call name is empty exactly when the type is neither `accessFile` nor `registerFile`; known types send `{"ipfsMetadataHash": txID}` and other types send `{"": ""}` |
| `Bridge.Confirm` | Trust/Browser/ViewControllers/BrowserViewController.swift:379-399 | with no string id, an empty id, an id that is not pending, or an entry without `type`: the table is unchanged and nothing is sent; otherwise only that id is removed, every other entry is kept, and exactly its completion call is sent |
| `Bridge.ConfirmAccessFile` | Trust/Browser/ViewControllers/BrowserViewController.swift:385-387 | an `accessFile` entry sends `FileListItemFetchKeyForIPFS-` followed by its `hashId`, or by nothing when there is none, with `{"ipfsMetadataHash": txID}` |
| `Bridge.ConfirmRegisterFile` | Trust/Browser/ViewControllers/BrowserViewController.swift:388-390 | a `registerFile` entry sends `FileRegisterCompleted` with `{"ipfsMetadataHash": txID}` |
| `Bridge.ConfirmOtherType` | Trust/Browser/ViewControllers/BrowserViewController.swift:391-395 | an entry of any other type is still removed, and a call named `""` with `{"": ""}` is sent |
| `Bridge.ConfirmTwiceIsNoOp` | Trust/Browser/ViewControllers/BrowserViewController.swift:378-381 | a second confirmation of the same id changes nothing and sends nothing |
| `Bridge.RegisterThenConfirm` | Trust/Browser/ViewControllers/BrowserViewController.swift:305-312 | a typed request registered under a fresh non-empty id and then confirmed restores the original table and sends exactly its completion call |
| `Bridge.EmptyIdStaysPending` | Trust/Browser/ViewControllers/BrowserViewController.swift:305-310 | an entry registered under the empty id is never confirmed, so it stays pending |
| `Bridge.ConfirmFrame` | Trust/Browser/ViewControllers/BrowserViewController.swift:394 | confirming one id neither adds, removes nor changes any other pending entry |
| `Scripts.NotifyScript` | Trust/Browser/ViewControllers/BrowserViewController.swift:158-165 | the script starts with `executeCallback(` and ends with `)` |
| `Scripts.SuccessScript` | Trust/Browser/ViewControllers/BrowserViewController.swift:160-161 | on success the script is `executeCallback(<id>, null, "<value>")` |
| `Scripts.FailureScript` | Trust/Browser/ViewControllers/BrowserViewController.swift:162-163 | on failure the script is `executeCallback(<id>, "<error>", null)` |
| `Scripts.NotifyScriptInjective` | Trust/Browser/ViewControllers/BrowserViewController.swift:157-165 | two scripts are equal exactly when their callback ids and outcomes are equal |
| `Decimal.NatToDecimal` | Trust/Browser/ViewControllers/BrowserViewController.swift:161 | the rendering of a natural number is a non-empty string of digits, a single digit below ten, with a leading `0` only for zero |
| `Decimal.IntToDecimal` | Trust/Browser/ViewControllers/BrowserViewController.swift:161-163 | the rendering of the callback id is non-empty and starts with `-` exactly for negative ids; after that optional sign come only digits, without leading zeros, and they denote the id's magnitude |
| `Decimal.DecimalRoundTrip` | Trust/Browser/ViewControllers/BrowserViewController.swift:161 | reading a rendered natural number back as digits gives the number |
| `Decimal.IntToDecimalInjective` | Trust/Browser/ViewControllers/BrowserViewController.swift:161-163 | different ids are rendered differently |
| `Home.HomeURL` | Trust/Browser/ViewControllers/BrowserViewController.swift:169-178 | `blockMed` opens `http://www.blockmed.ai`; `registerFile` opens the base URL followed by `file-register`; `accessFile` opens the base URL followed by `file-access` |
| `Home.HomeURLInjective` | Trust/Settings/Types/Constants.swift:23-25 | for every base URL, the three screen types open three different pages |
| `Home.BlockMedBaseURL` | Trust/Settings/Types/Constants.swift:34-43 | every build configuration's base URL is non-empty and ends with `/` |
| `Home.DebugAndBetaShareBase` | Trust/Settings/Types/Constants.swift:36-42 | debug and beta builds use the same base URL, and release builds use a different one |
| `Home.ReleaseHomeURLs` | Trust/Settings/Types/Constants.swift:24-25 | a release build opens `https://ipfs.blcksync.info/file-register` and `https://ipfs.blcksync.info/file-access` |
| `Tabs.Tab.Index` | Trust/Core/Types/Tabs.swift:17-24 | the index lies in 0..3 and is 0, 1, 2 and 3 exactly for browser, mobile app, wallet and settings |
| `Tabs.IndexInjective` | Trust/Core/Types/Tabs.swift:17-24 | two tabs have the same index exactly when they are of the same case |
| `Tabs.Equal` | Trust/Core/Types/Tabs.swift:27-43 | two tabs are equal exactly when they are structurally equal or both are wallet tabs |
| `Tabs.EqualBrowser` | Trust/Core/Types/Tabs.swift:30-33 | two browser tabs, or two mobile-app tabs, are equal exactly when their optional URLs are equal, with no URL equal only to no URL |
| `Tabs.EqualWalletIgnoresAction` | Trust/Core/Types/Tabs.swift:34-36 | two wallet tabs are equal whatever their actions, and settings equals settings |
| `Tabs.EqualOnlyWithinCase` | Trust/Core/Types/Tabs.swift:37-41 | tabs of different cases are never equal, so equal tabs have the same index |
| `Tabs.EqualIsEquivalence` | Trust/Core/Types/Tabs.swift:27-43 | `==` is reflexive, symmetric and transitive |

## Left out

- I/O and foreign libraries. `WebViewJavascriptBridge.callHandler` is modelled as an append to `sentCalls`. `webView.evaluateJavaScript` is modelled as an append to `evaluatedScripts`. The handlers' reply is the value returned by `HandleBridgeMessage`; whether the page supplied a callback at all is the page's business. The response callback of `callHandler` only logs, so it is left out.
- `NotificationCenter` is a process-wide bus. The notification is modelled as a direct call to `TransactionConfirmed`, with the notification object given as `Some(text)` when it is a string and `None` otherwise.
- Transaction ids, payload keys and type names are compared as sequences of Unicode scalar values. Swift compares `String` values, and hashes dictionary keys, up to canonical equivalence. So two ids that differ only in Unicode normalisation (`"e\u{301}"` and `"\u{E9}"`) are one key in the source but two keys in the model.
- `data.keys.first` reads a Swift dictionary, whose order is unspecified. The model picks an arbitrary key of a non-empty payload. It therefore does not say which key a given dictionary yields.
- `Browser.BrowserViewController.HandleBridgeMessage`: the download-file handler's `URL(string:)` parsing and its `shouldOpenCustomWeb` delegate call are Foundation and UIKit behaviour, so they are not modelled. The model keeps only that handler's reply. What the bridge library does with a message for an unknown handler name lies inside that library; the model changes nothing and gives no reply.
- `Home.HomeURL` stops at the URL text. `URL(string:)` parsing, the cache policy, hiding the error view, loading the page and updating the navigation bar's text field are UIKit and Foundation behaviour (`BrowserViewController.swift:180-185`).
- A URL in `Tabs` is represented by its text. Foundation's `URL` equality is taken to be equality of that text, and the wallet action's `Address` is also represented by its text.
- `evaluatedScripts` records only the scripts `notifyFinish` sends. The initializer's `injectUserAgent` also evaluates a script (`navigator.userAgent`); it is left out with the other presentation code.
- `Scripts.NotifyScriptInjective` is about the script text only. How JavaScript parses a script whose result or error text contains an unescaped `"` is not modelled.
- `DappResult` reduces `DappCallback` and `DAppError` to the text Swift interpolates for them. Those two types are not part of this model.
- The application's dispatch of decoded `DappAction` commands, `TokensDataStore` and `Transfer` (`BrowserViewController.swift:357-366`) depends on code that is not part of this model.
- View layout, progress-bar and navigation-bar updates, key-value observation, user-agent injection, `handleError`, and the navigation and error-view delegates are presentation only.
- `CustomWebCoordinator.swift` and `CustomWebViewController.swift` are controller boilerplate with no behaviour to state.
- Swift's `Int` is 64 bits wide, while the model's callback id is an unbounded integer. Every 64-bit value renders the same way in both, so nothing is lost.
