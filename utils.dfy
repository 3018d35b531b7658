/** Small shared vocabulary: optional values, results, decimal digits and joining. */
module Utils {

  datatype Option<+T> = None | Some(value: T)

  datatype Result<+T, +E> = Ok(value: T) | Err(error: E)

  predicate IsDigit(c: char) {
    '0' <= c <= '9'
  }

  predicate AllDigits(s: string) {
    forall i :: 0 <= i < |s| ==> IsDigit(s[i])
  }

  function DigitChar(d: nat): (c: char)
    requires d < 10
    ensures IsDigit(c) && c as int - '0' as int == d
  {
    (('0' as int) + d) as char
  }

  /** The value of a string of decimal digits, most significant first (Python's int(s)
      and C++'s to_string read and write this form). */
  function DigitsValue(s: string): nat
    requires AllDigits(s)
  {
    if |s| == 0 then 0
    else DigitsValue(s[..|s| - 1]) * 10 + (s[|s| - 1] as int - '0' as int)
  }

  /** Decimal rendering of a natural number without leading zeros. */
  function NatToString(n: nat): (s: string)
    ensures |s| > 0 && AllDigits(s)
    ensures n > 0 ==> s[0] != '0'
    decreases n
  {
    if n < 10 then [DigitChar(n)] else NatToString(n / 10) + [DigitChar(n % 10)]
  }

  /** Reading back a rendered number gives the number. */
  lemma {:induction false} NatToStringRoundTrip(n: nat)
    ensures DigitsValue(NatToString(n)) == n
    decreases n
  {
    if n >= 10 {
      var s := NatToString(n);
      assert s[..|s| - 1] == NatToString(n / 10);
      NatToStringRoundTrip(n / 10);
    }
  }

  /** Different numbers render differently. */
  lemma NatToStringInjective(a: nat, b: nat)
    ensures NatToString(a) == NatToString(b) ==> a == b
  {
    if NatToString(a) == NatToString(b) {
      NatToStringRoundTrip(a);
      NatToStringRoundTrip(b);
    }
  }

  /** `parts` separated by `sep` (the ", " joins of the code generator and of list printing). */
  function Join(parts: seq<string>, sep: string): (r: string)
    ensures |parts| == 0 ==> r == ""
    ensures |parts| == 1 ==> r == parts[0]
  {
    if |parts| == 0 then ""
    else if |parts| == 1 then parts[0]
    else Join(parts[..|parts| - 1], sep) + sep + parts[|parts| - 1]
  }

  /** Joining one more part adds a separator unless it is the first. */
  lemma JoinSnoc(parts: seq<string>, x: string, sep: string)
    ensures Join(parts + [x], sep) == if parts == [] then x else Join(parts, sep) + sep + x
  {
    if parts != [] {
      assert (parts + [x])[..|parts|] == parts;
    }
  }

  /** One step of a joining loop: a separator unless it is the first part, then the part. */
  lemma JoinStep(parts: seq<string>, i: nat, joined: string, sep: string)
    requires i < |parts| && joined == Join(parts[..i], sep)
    ensures (if i > 0 then joined + sep else joined) + parts[i] == Join(parts[..i + 1], sep)
  {
    JoinSnoc(parts[..i], parts[i], sep);
    assert parts[..i + 1] == parts[..i] + [parts[i]];
  }

  /** `s` repeated `n` times. */
  function Repeat(s: string, n: nat): (r: string)
    ensures |r| == |s| * n
  {
    if n == 0 then "" else Repeat(s, n - 1) + s
  }

  /** A slice taken inside the middle part of a concatenation is a slice of that part. */
  lemma SliceOfMiddle(s: string, a: string, b: string, c: string, at: nat, lo: nat, len: nat)
    requires s == a + b + c && at == |a| + lo && lo + len <= |b|
    ensures at + len <= |s| && s[at..at + len] == b[lo..lo + len]
  {
    assert forall k :: lo <= k < lo + len ==> s[|a| + k] == b[k];
  }
}
