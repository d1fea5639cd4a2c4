/**
 * The JavaScript that `BrowserViewController.notifyFinish` hands to the
 * web view: a call of the page's `executeCallback(id, error, result)`.
 */
module Scripts {
  import opened Decimal

  /**
   * `Result<DappCallback, DAppError>`, each side reduced to the text Swift
   * interpolates into the script: `result.value.object` on success and the
   * error's own description on failure.
   */
  datatype DappResult = Success(value: string) | Failure(error: string)

  const Prefix := "executeCallback("

  /** What follows the callback id: the error slot and the result slot. */
  function Slots(value: DappResult): (t: string)
    ensures |t| >= 8 && t[0] == ','
  {
    match value
    case Success(v) => ", null, \"" + v + "\")"
    case Failure(e) => ", \"" + e + "\", null)"
  }

  /** The script `notifyFinish(callbackID, value)` evaluates. */
  function NotifyScript(callbackID: int, value: DappResult): (s: string)
    ensures Prefix <= s && s[|s| - 1] == ')'
  {
    Prefix + IntToDecimal(callbackID) + Slots(value)
  }

  /** On success the error slot is `null` and the result is quoted. */
  lemma SuccessScript(callbackID: int, v: string)
    ensures NotifyScript(callbackID, Success(v))
         == "executeCallback(" + IntToDecimal(callbackID) + ", null, \"" + v + "\")"
  {
  }

  /** On failure the error is quoted and the result slot is `null`. */
  lemma FailureScript(callbackID: int, e: string)
    ensures NotifyScript(callbackID, Failure(e))
         == "executeCallback(" + IntToDecimal(callbackID) + ", \"" + e + "\", null)"
  {
  }

  predicate NoComma(s: string) {
    forall k :: 0 <= k < |s| ==> s[k] != ','
  }

  /** Two strings that each start with a comma-free part followed by a comma split alike. */
  lemma SplitAtComma(a: string, x: string, b: string, y: string)
    requires NoComma(a) && NoComma(b)
    requires |x| > 0 && x[0] == ',' && |y| > 0 && y[0] == ','
    requires a + x == b + y
    ensures a == b && x == y
  {
    assert a == (a + x)[..|a|];
    assert b == (b + y)[..|b|];
  }

  /** The slots determine the outcome. */
  lemma SlotsInjective(r1: DappResult, r2: DappResult)
    ensures Slots(r1) == Slots(r2) <==> r1 == r2
  {
    if Slots(r1) == Slots(r2) {
      var t := Slots(r1);
      match r1
      case Success(v1) =>
        assert t[2] == 'n';
        assert v1 == t[9..|t| - 2];
      case Failure(e1) =>
        assert t[2] == '"';
        assert e1 == t[3..|t| - 8];
    }
  }

  /**
   * The script text determines the callback id and the outcome it was built
   * from. This is a statement about the text only: the result and error are
   * not escaped, so what the page does when it evaluates the text is not
   * covered here.
   */
  lemma NotifyScriptInjective(id1: int, r1: DappResult, id2: int, r2: DappResult)
    ensures NotifyScript(id1, r1) == NotifyScript(id2, r2) <==> id1 == id2 && r1 == r2
  {
    if NotifyScript(id1, r1) == NotifyScript(id2, r2) {
      var d1, t1 := IntToDecimal(id1), Slots(r1);
      var d2, t2 := IntToDecimal(id2), Slots(r2);
      assert d1 + t1 == d2 + t2 by {
        assert d1 + t1 == NotifyScript(id1, r1)[|Prefix|..];
        assert d2 + t2 == NotifyScript(id2, r2)[|Prefix|..];
      }
      SplitAtComma(d1, t1, d2, t2);
      IntToDecimalInjective(id1, id2);
      SlotsInjective(r1, r2);
    }
  }
}
