/**
 * `BrowserViewController`'s bridge state: the pending-callback table that
 * the page's file-access and file-register buttons fill and
 * `transactionConfirmed` drains, and the calls and scripts it sends back
 * into the page. The web view and the JavaScript bridge are reduced to the
 * logs of what is sent to them.
 */
module Browser {
  import opened Wrappers
  import opened Bridge
  import opened Scripts

  /** The `data` a bridge handler receives (`Any?`). */
  datatype BridgeData =
    | StringTable(table: map<string, map<string, string>>)  // a `[String: [String: String]]`
    | OtherValue                                            // nil or any other value

  const FileListItemAccessButton := "FileListItemAccessButtonDidTap"
  const FileListItemDownloadFileButton := "FileListItemDownloadFileButtonDidTap"
  const FileRegisterButton := "FileRegisterButtonDidTap"

  /** The handler names registered with the bridge. */
  predicate IsRegisteredHandler(name: string) {
    name == FileListItemAccessButton || name == FileListItemDownloadFileButton || name == FileRegisterButton
  }

  class BrowserViewController {
    /** Pending requests by transaction id. */
    var jsBridgeHandler: HandlerTable
    /** Every `bridge.callHandler` made so far, oldest first. */
    var sentCalls: seq<BridgeCall>
    /** The scripts `notifyFinish` has given to `webView.evaluateJavaScript`, oldest first. */
    var evaluatedScripts: seq<string>

    constructor ()
      ensures jsBridgeHandler == map[] && sentCalls == [] && evaluatedScripts == []
    {
      jsBridgeHandler := map[];
      sentCalls := [];
      evaluatedScripts := [];
    }

    /**
     * `setJsBridgeHandlerEvent`: a string table payload registers its first
     * key (in the dictionary's own, unspecified, order) with that key's
     * entry; nothing else of the payload is read. Any other payload, or an
     * empty table, changes nothing.
     */
    method SetJsBridgeHandlerEvent(data: BridgeData)
      modifies this`jsBridgeHandler
      ensures data.OtherValue? || data.table == map[] ==> jsBridgeHandler == old(jsBridgeHandler)
      ensures data.StringTable? && data.table != map[] ==>
        exists key :: key in data.table && jsBridgeHandler == Register(old(jsBridgeHandler), key, data.table[key])
    {
      if data.StringTable? && data.table != map[] {
        var key :| key in data.table;
        var value := data.table[key];
        if key !in jsBridgeHandler {
          jsBridgeHandler := jsBridgeHandler[key := value];
        }
      }
    }

    /**
     * A message from the page to one of the bridge handlers. The two button
     * handlers register the payload; each registered handler answers the
     * page's callback, when the page supplied one, with `<name> callback`.
     */
    method HandleBridgeMessage(name: string, data: BridgeData) returns (reply: Option<string>)
      modifies this`jsBridgeHandler
      ensures reply == if IsRegisteredHandler(name) then Some(name + " callback") else None
      ensures name == FileListItemAccessButton || name == FileRegisterButton ==>
        (data.OtherValue? || data.table == map[] ==> jsBridgeHandler == old(jsBridgeHandler))
      ensures name == FileListItemAccessButton || name == FileRegisterButton ==>
        (data.StringTable? && data.table != map[] ==>
          exists key :: key in data.table && jsBridgeHandler == Register(old(jsBridgeHandler), key, data.table[key]))
      ensures name != FileListItemAccessButton && name != FileRegisterButton ==>
        jsBridgeHandler == old(jsBridgeHandler)
    {
      reply := None;
      if name == FileListItemAccessButton || name == FileRegisterButton {
        SetJsBridgeHandlerEvent(data);
        reply := Some(name + " callback");
      } else if name == FileListItemDownloadFileButton {
        reply := Some(name + " callback");
      }
    }

    /**
     * The `transactionConfirmed` notification, whose object is `txID`
     * when it is a string. It is the table step `Confirm` and appends the
     * call `Confirm` sends, if any, to the bridge log.
     */
    method TransactionConfirmed(txID: Option<string>)
      modifies this`jsBridgeHandler, this`sentCalls
      ensures jsBridgeHandler == Confirm(old(jsBridgeHandler), txID).table
      ensures sentCalls == old(sentCalls) + match Confirm(old(jsBridgeHandler), txID).sent
        case Some(c) => [c]
        case None => []
    {
      if txID.Some? && txID.value != "" && txID.value in jsBridgeHandler && TypeField in jsBridgeHandler[txID.value] {
        var id := txID.value;
        var value := jsBridgeHandler[id];
        var kind := value[TypeField];
        var eventKey := "";
        var params := map["" := ""];
        if kind == AccessFileType {
          eventKey := FetchKeyEventPrefix + Lookup(value, HashIdField, "");
          params := map[MetadataHashParam := id];
        } else if kind == RegisterFileType {
          eventKey := RegisterCompletedEvent;
          params := map[MetadataHashParam := id];
        }
        jsBridgeHandler := jsBridgeHandler - {id};
        sentCalls := sentCalls + [BridgeCall(eventKey, params)];
      }
    }

    /** `notifyFinish`: hands the page the script reporting `value` for `callbackID`. */
    method NotifyFinish(callbackID: int, value: DappResult)
      modifies this`evaluatedScripts
      ensures evaluatedScripts == old(evaluatedScripts) + [NotifyScript(callbackID, value)]
    {
      evaluatedScripts := evaluatedScripts + [NotifyScript(callbackID, value)];
    }
  }

  /**
   * A file registration whose button is tapped twice and whose transaction
   * is confirmed twice: the page hears of the completion exactly once, and
   * nothing is left pending.
   */
  method RegisterAndConfirmTwice(txID: string) returns (calls: seq<BridgeCall>, pending: HandlerTable)
    requires txID != ""
    ensures calls == [BridgeCall(RegisterCompletedEvent, map[MetadataHashParam := txID])]
    ensures pending == map[]
  {
    var browser := new BrowserViewController();
    var first := map[TypeField := RegisterFileType];
    var second := map[TypeField := AccessFileType, HashIdField := "h"];
    var reply := browser.HandleBridgeMessage(FileRegisterButton, StringTable(map[txID := first]));
    reply := browser.HandleBridgeMessage(FileRegisterButton, StringTable(map[txID := second]));
    assert browser.jsBridgeHandler == map[txID := first];
    browser.TransactionConfirmed(Some(txID));
    browser.TransactionConfirmed(Some(txID));
    calls, pending := browser.sentCalls, browser.jsBridgeHandler;
  }
}
