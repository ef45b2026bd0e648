/** Turning a failed call into the message shown to the user: the revert
    reason a contract gave, when the error text carries one in the form
    `execution reverted: "reason"`, and a fixed fallback otherwise. */
module ErrorUtils {
  import opened Common

  /** The literal part of the pattern, up to and including the opening quote. */
  const RevertPrefix: string := "execution reverted: \""

  const UnknownError: string := "Unknown error occurred"

  /** The pattern `execution reverted: "([^"]+)"` matches `s` starting at `i`,
      its closing quote at `j`: the captured reason is `s[i + |RevertPrefix|..j]`,
      at least one character long and free of quotes. */
  ghost predicate RevertAt(s: string, i: int, j: int)
  {
    && 0 <= i
    && i + |RevertPrefix| < j < |s|
    && s[i..i + |RevertPrefix|] == RevertPrefix
    && s[j] == '"'
    && forall k :: i + |RevertPrefix| <= k < j ==> s[k] != '"'
  }

  ghost predicate HasRevertReason(s: string)
  {
    exists i, j :: RevertAt(s, i, j)
  }

  /** `r` is the reason captured by the leftmost match of the pattern in `s`. */
  ghost predicate LeftmostRevertReason(s: string, r: string)
  {
    exists i, j ::
      && RevertAt(s, i, j)
      && r == s[i + |RevertPrefix|..j]
      && forall i', j' :: 0 <= i' < i ==> !RevertAt(s, i', j')
  }

  /** `r` occurs in `s` as the contiguous slice starting at `i`. */
  ghost predicate OccursAt(s: string, r: string, i: int)
  {
    0 <= i <= |s| - |r| && s[i..i + |r|] == r
  }

  /** Search for the leftmost match starting at or after `from`; on success
      the start of the match and the index of its closing quote. */
  function FindRevert(s: string, from: nat): (r: Option<(nat, nat)>)
    requires from <= |s|
    ensures r.Some? ==> from <= r.value.0 && RevertAt(s, r.value.0, r.value.1)
    ensures r.Some? ==> forall i, j :: from <= i < r.value.0 ==> !RevertAt(s, i, j)
    ensures r.None? ==> forall i, j :: from <= i ==> !RevertAt(s, i, j)
    decreases |s| - from
  {
    if |s| <= from + |RevertPrefix| then
      None
    else
      var close := IndexOf(s, '"', from + |RevertPrefix|);
      if s[from..from + |RevertPrefix|] == RevertPrefix && from + |RevertPrefix| < close < |s| then
        Some((from, close))
      else
        FindRevert(s, from + 1)
  }

  /** The message surfaced for a failed call whose `toString()` is `errorText`. */
  function GetErrorMessage(errorText: string): (r: string)
    ensures |r| > 0
    ensures !HasRevertReason(errorText) ==> r == UnknownError
    ensures HasRevertReason(errorText) ==> LeftmostRevertReason(errorText, r)
    ensures HasRevertReason(errorText) ==> '"' !in r && exists i :: OccursAt(errorText, r, i)
  {
    match FindRevert(errorText, 0)
    case Some((i, j)) =>
      var r := errorText[i + |RevertPrefix|..j];
      assert OccursAt(errorText, r, i + |RevertPrefix|);
      r
    case None => UnknownError
  }

  /** The pattern fixes the reason uniquely: there is one leftmost match and
      its closing quote is the first quote after the prefix. */
  lemma RevertReasonUnique(s: string, r1: string, r2: string)
    requires LeftmostRevertReason(s, r1) && LeftmostRevertReason(s, r2)
    ensures r1 == r2
  {
    var i1, j1 :| RevertAt(s, i1, j1) && r1 == s[i1 + |RevertPrefix|..j1]
      && forall i', j' :: 0 <= i' < i1 ==> !RevertAt(s, i', j');
    var i2, j2 :| RevertAt(s, i2, j2) && r2 == s[i2 + |RevertPrefix|..j2]
      && forall i', j' :: 0 <= i' < i2 ==> !RevertAt(s, i', j');
    assert i1 == i2;
    assert j1 == j2;
  }

  /** The reason is exactly the captured text, so GetErrorMessage returns the
      leftmost reason whenever there is one. */
  lemma GetErrorMessageIsLeftmostReason(errorText: string, reason: string)
    requires LeftmostRevertReason(errorText, reason)
    ensures GetErrorMessage(errorText) == reason
  {
    assert HasRevertReason(errorText);
    RevertReasonUnique(errorText, GetErrorMessage(errorText), reason);
  }

  /** A plain `Error` thrown with no revert reason in its text, such as
      `Error: Provider not found`, is reported as the fallback. */
  lemma ProviderNotFoundIsUnknown()
    ensures GetErrorMessage("Error: Provider not found") == UnknownError
  {
    var s := "Error: Provider not found";
    forall i, j ensures !RevertAt(s, i, j) {
      if 0 <= i < 3 {
        assert s[i] != RevertPrefix[0];
      }
    }
  }
}
