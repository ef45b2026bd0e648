/** Shared vocabulary: optional values, the outcome of a call into the wallet
    or the chain, and a few facts about strings. */
module Common {

  /** An Ethereum address or account as the wallet hands it over: a string. */
  type Address = string

  datatype Option<+T> = None | Some(value: T)

  /** A JavaScript exception as a `catch` block sees it: the numeric `code`
      a wallet attaches to its errors (absent on plain `Error`s) and the text
      that `error.toString()` yields. */
  datatype Thrown = Thrown(code: Option<int>, text: string)

  /** What an awaited call produces: a value, or the exception it threw. */
  datatype Result<+T> = Ok(value: T) | Fail(error: Thrown)

  /** JavaScript truthiness of the `account` cell (`string | null`): null and
      the empty string are both falsy. */
  function HasAccount(account: Option<Address>): (r: bool)
    ensures account == None ==> !r
    ensures account == Some("") ==> !r
    ensures r <==> account.Some? && |account.value| > 0
  {
    account.Some? && account.value != ""
  }

  /** The first index at or after `from` where `c` occurs in `s`, or `|s|`
      when there is none. */
  function IndexOf(s: string, c: char, from: nat): (r: nat)
    requires from <= |s|
    ensures from <= r <= |s|
    ensures r < |s| ==> s[r] == c
    ensures forall k :: from <= k < r ==> s[k] != c
    decreases |s| - from
  {
    if from == |s| || s[from] == c then from else IndexOf(s, c, from + 1)
  }
}
