/**
 * The pending-callback table of the JavaScript bridge, as values: what
 * registering a pending request and confirming a transaction do to the
 * table, and which bridge call a confirmation sends back to the page.
 */
module Bridge {
  import opened Wrappers

  /** The fields the page sent with a request (`type`, `hashId`, ...). */
  type Entry = map<string, string>

  /** Pending requests by transaction id: `jsBridgeHandler`. */
  type HandlerTable = map<string, Entry>

  /** One `bridge.callHandler(name, data: params)` into the page. */
  datatype BridgeCall = BridgeCall(handlerName: string, params: map<string, string>)

  const TypeField := "type"
  const HashIdField := "hashId"
  const AccessFileType := "accessFile"
  const RegisterFileType := "registerFile"
  const FetchKeyEventPrefix := "FileListItemFetchKeyForIPFS-"
  const RegisterCompletedEvent := "FileRegisterCompleted"
  const MetadataHashParam := "ipfsMetadataHash"

  predicate KnownType(entry: Entry)
    requires TypeField in entry
  {
    entry[TypeField] == AccessFileType || entry[TypeField] == RegisterFileType
  }

  /**
   * Registering `value` under `key`: the first registration of a key wins,
   * a later one under the same key is dropped.
   */
  function Register(table: HandlerTable, key: string, value: Entry): (t: HandlerTable)
    ensures key in table ==> t == table
    ensures key !in table ==> t.Keys == table.Keys + {key} && t[key] == value
    ensures forall k :: k in table ==> k in t && t[k] == table[k]
  {
    if key in table then table else table[key := value]
  }

  /** The call that confirming the transaction `txID` of `entry` sends to the page. */
  function CompletionCall(entry: Entry, txID: string): (c: BridgeCall)
    requires TypeField in entry
    ensures KnownType(entry) <==> c.handlerName != ""
    ensures KnownType(entry) ==> c.params == map[MetadataHashParam := txID]
    ensures !KnownType(entry) ==> c.params == map["" := ""]
  {
    var kind := entry[TypeField];
    if kind == AccessFileType then
      BridgeCall(FetchKeyEventPrefix + Lookup(entry, HashIdField, ""), map[MetadataHashParam := txID])
    else if kind == RegisterFileType then
      BridgeCall(RegisterCompletedEvent, map[MetadataHashParam := txID])
    else
      BridgeCall("", map["" := ""])
  }

  /** Whether a confirmation for `txID` finds a pending request it can complete. */
  predicate Completes(table: HandlerTable, txID: Option<string>) {
    txID.Some? && txID.value != "" && txID.value in table && TypeField in table[txID.value]
  }

  /** The table after a confirmation, and the call it sends (if any). */
  datatype Confirmation = Confirmation(table: HandlerTable, sent: Option<BridgeCall>)

  /** What a `transactionConfirmed` notification carrying `txID` does. */
  function Confirm(table: HandlerTable, txID: Option<string>): (r: Confirmation)
    ensures !Completes(table, txID) ==> r == Confirmation(table, None)
    ensures Completes(table, txID) ==>
      && r.table.Keys == table.Keys - {txID.value}
      && (forall k :: k in r.table ==> r.table[k] == table[k])
      && r.sent == Some(CompletionCall(table[txID.value], txID.value))
  {
    if Completes(table, txID) then
      Confirmation(table - {txID.value}, Some(CompletionCall(table[txID.value], txID.value)))
    else
      Confirmation(table, None)
  }

  /** Registering a key twice keeps the first value. */
  lemma RegisterFirstWriteWins(table: HandlerTable, key: string, first: Entry, second: Entry)
    ensures Register(Register(table, key, first), key, second) == Register(table, key, first)
    ensures key !in table ==> Register(Register(table, key, first), key, second)[key] == first
  {
  }

  /** Confirming a file-access request asks the page to fetch the file's key. */
  lemma ConfirmAccessFile(table: HandlerTable, txID: string)
    requires txID != "" && txID in table
    requires TypeField in table[txID] && table[txID][TypeField] == AccessFileType
    ensures Confirm(table, Some(txID)).sent ==
      Some(BridgeCall(FetchKeyEventPrefix + Lookup(table[txID], HashIdField, ""), map[MetadataHashParam := txID]))
  {
  }

  /** Confirming a file registration tells the page the registration completed. */
  lemma ConfirmRegisterFile(table: HandlerTable, txID: string)
    requires txID != "" && txID in table
    requires TypeField in table[txID] && table[txID][TypeField] == RegisterFileType
    ensures Confirm(table, Some(txID)).sent == Some(BridgeCall(RegisterCompletedEvent, map[MetadataHashParam := txID]))
  {
  }

  /** Confirming a request of any other type still removes it and sends an empty call. */
  lemma ConfirmOtherType(table: HandlerTable, txID: string)
    requires txID != "" && txID in table
    requires TypeField in table[txID] && !KnownType(table[txID])
    ensures Confirm(table, Some(txID)) == Confirmation(table - {txID}, Some(BridgeCall("", map["" := ""])))
  {
  }

  /** A second confirmation of the same transaction does nothing. */
  lemma ConfirmTwiceIsNoOp(table: HandlerTable, txID: Option<string>)
    ensures Confirm(Confirm(table, txID).table, txID) == Confirmation(Confirm(table, txID).table, None)
  {
  }

  /**
   * A typed request registered under a fresh, non-empty id and then
   * confirmed leaves the table as it was and sends exactly its completion call.
   */
  lemma RegisterThenConfirm(table: HandlerTable, txID: string, entry: Entry)
    requires txID != "" && txID !in table && TypeField in entry
    ensures Confirm(Register(table, txID, entry), Some(txID))
         == Confirmation(table, Some(CompletionCall(entry, txID)))
  {
  }

  /**
   * Registration accepts the empty id but confirmation refuses it, so a
   * request registered under `""` stays pending for good.
   */
  lemma EmptyIdStaysPending(table: HandlerTable, entry: Entry)
    ensures Confirm(Register(table, "", entry), Some("")) == Confirmation(Register(table, "", entry), None)
    ensures "" in Confirm(Register(table, "", entry), Some("")).table
  {
  }

  /** Confirming one transaction leaves every other pending request alone. */
  lemma ConfirmFrame(table: HandlerTable, txID: Option<string>, other: string)
    requires txID.Some? ==> other != txID.value
    ensures other in Confirm(table, txID).table <==> other in table
    ensures other in table ==> Confirm(table, txID).table[other] == table[other]
  {
  }
}
