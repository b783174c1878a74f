/** Canonical decimal text of a non-negative integer: the `str(event.user_id)`,
    `str(event.group_id)` and `len(uids)` conversions of the plugin. The gate
    looks an event's ids up in the lists as this text; the lists themselves
    hold whatever tokens passed `is_number`, and only canonical ones can match. */
module Decimal {

  predicate IsDigit(c: char) {
    '0' <= c <= '9'
  }

  /** A non-empty run of ASCII digits. */
  predicate IsDecimal(s: string) {
    |s| > 0 && forall i :: 0 <= i < |s| ==> IsDigit(s[i])
  }

  function DigitChar(d: nat): (c: char)
    requires d < 10
    ensures IsDigit(c) && c as int - '0' as int == d
  {
    ('0' as int + d) as char
  }

  /** str(n) for n >= 0: digits, no leading zero. */
  function Str(n: nat): (s: string)
    ensures IsDecimal(s)
    ensures s[0] == '0' ==> n == 0
    ensures n < 10 <==> |s| == 1
    decreases n
  {
    if n < 10 then [DigitChar(n)] else Str(n / 10) + [DigitChar(n % 10)]
  }

  function DigitValue(c: char): (d: nat)
    requires IsDigit(c)
    ensures d < 10
  {
    c as int - '0' as int
  }

  /** The value of a run of digits (the inverse of Str). */
  function Value(s: string): (n: nat)
    requires forall i :: 0 <= i < |s| ==> IsDigit(s[i])
    decreases |s|
  {
    if s == [] then 0 else Value(s[..|s| - 1]) * 10 + DigitValue(s[|s| - 1])
  }

  lemma {:induction false} ValueOfStr(n: nat)
    ensures Value(Str(n)) == n
    decreases n
  {
    var s := Str(n);
    if n < 10 {
      assert s[..0] == [];
    } else {
      ValueOfStr(n / 10);
      assert s[..|s| - 1] == Str(n / 10);
    }
  }

  /** Distinct ids never share a key in the block-lists. */
  lemma StrInjective(m: nat, n: nat)
    ensures Str(m) == Str(n) <==> m == n
  {
    ValueOfStr(m);
    ValueOfStr(n);
  }
}
