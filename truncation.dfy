/** The truncation rule of the short message (graylog/utils.js). */
module Truncation {

  /** The default of the `num` parameter. */
  const DEFAULT_LIMIT: nat := 50

  /** The marker appended to a cut string. */
  const ELLIPSIS: string := "..."

  function Min(a: nat, b: nat): nat {
    if a <= b then a else b
  }

  /** `truncateString(str, num)`: `str` itself when it is at most `num` characters
      long, otherwise its first `num` characters followed by the ellipsis. */
  function TruncateString(str: string, num: nat): (r: string)
    ensures Min(|str|, num) <= |r| <= num + |ELLIPSIS|
    ensures r[..Min(|str|, num)] == str[..Min(|str|, num)]
  {
    if |str| <= num then str else str[..num] + ELLIPSIS
  }

  lemma ShortUnchanged(str: string, num: nat)
    requires |str| <= num
    ensures TruncateString(str, num) == str
  {
  }

  lemma LongCut(str: string, num: nat)
    requires |str| > num
    ensures TruncateString(str, num) == str[..num] + "..."
  {
  }

  /** The result reaches `num + 3` characters exactly when the input was cut. */
  lemma LengthExact(str: string, num: nat)
    ensures |TruncateString(str, num)| == num + 3 <==> |str| > num
    ensures |str| <= num ==> |TruncateString(str, num)| == |str|
  {
  }

  /** Truncating an already truncated string with the same limit changes nothing. */
  lemma Idempotent(str: string, num: nat)
    ensures TruncateString(TruncateString(str, num), num) == TruncateString(str, num)
  {
    if |str| > num {
      var r := TruncateString(str, num);
      assert r[..num] == str[..num];
    }
  }
}
