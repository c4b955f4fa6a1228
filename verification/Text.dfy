/** Go strings as byte sequences, with the ASCII part of the string functions the service uses. */
module Text {
  import opened Model

  type Byte = b: int | 0 <= b < 256

  type Bytes = seq<Byte>

  function TrimLeft(s: Bytes, cut: set<Byte>): Bytes {
    if s != [] && s[0] in cut then TrimLeft(s[1..], cut) else s
  }

  function TrimRight(s: Bytes, cut: set<Byte>): Bytes {
    if s != [] && s[|s| - 1] in cut then TrimRight(s[..|s| - 1], cut) else s
  }

  function Trim(s: Bytes, cut: set<Byte>): Bytes {
    TrimRight(TrimLeft(s, cut), cut)
  }

  /** \t \n \v \f \r and space. */
  const WHITESPACE: set<Byte> := {9, 10, 11, 12, 13, 32}

  /** Space and \t. */
  const OPTIONAL_WHITESPACE: set<Byte> := {32, 9}

  function LowerByte(b: Byte): Byte {
    if 65 <= b <= 90 then b + 32 else b
  }

  function UpperByte(b: Byte): Byte {
    if 97 <= b <= 122 then b - 32 else b
  }

  function ToLower(s: Bytes): Bytes {
    seq(|s|, i requires 0 <= i < |s| => LowerByte(s[i]))
  }

  function ToUpper(s: Bytes): Bytes {
    seq(|s|, i requires 0 <= i < |s| => UpperByte(s[i]))
  }

  /** Neither end is in `cut`. */
  predicate Trimmed(s: Bytes, cut: set<Byte>) {
    s == [] || (s[0] !in cut && s[|s| - 1] !in cut)
  }

  lemma TrimLeftTrims(s: Bytes, cut: set<Byte>)
    ensures TrimLeft(s, cut) == [] || TrimLeft(s, cut)[0] !in cut
  {
  }

  lemma {:induction false} TrimRightTrims(s: Bytes, cut: set<Byte>)
    ensures TrimRight(s, cut) == [] || TrimRight(s, cut)[|TrimRight(s, cut)| - 1] !in cut
    ensures TrimRight(s, cut) <= s
  {
    if s != [] && s[|s| - 1] in cut {
      TrimRightTrims(s[..|s| - 1], cut);
    }
  }

  lemma TrimTrims(s: Bytes, cut: set<Byte>)
    ensures Trimmed(Trim(s, cut), cut)
  {
    TrimLeftTrims(s, cut);
    TrimRightTrims(TrimLeft(s, cut), cut);
  }

  lemma TrimmedStays(s: Bytes, cut: set<Byte>)
    requires Trimmed(s, cut)
    ensures Trim(s, cut) == s
  {
  }

  predicate AllIn(s: Bytes, cut: set<Byte>) {
    forall i :: 0 <= i < |s| ==> s[i] in cut
  }

  lemma {:induction false} TrimLeftPadding(left: Bytes, s: Bytes, cut: set<Byte>)
    requires AllIn(left, cut) && s != [] && s[0] !in cut
    ensures TrimLeft(left + s, cut) == s
  {
    if left == [] {
      assert left + s == s;
    } else {
      assert (left + s)[1..] == left[1..] + s;
      TrimLeftPadding(left[1..], s, cut);
    }
  }

  lemma {:induction false} TrimRightPadding(s: Bytes, right: Bytes, cut: set<Byte>)
    requires AllIn(right, cut) && s != [] && s[|s| - 1] !in cut
    ensures TrimRight(s + right, cut) == s
  {
    if right == [] {
      assert s + right == s;
    } else {
      var last := |right| - 1;
      assert (s + right)[..|s + right| - 1] == s + right[..last];
      TrimRightPadding(s, right[..last], cut);
    }
  }

  /** Whatever padding is put around trimmed text, trimming takes exactly it away. */
  lemma TrimPadding(left: Bytes, s: Bytes, right: Bytes, cut: set<Byte>)
    requires AllIn(left, cut) && AllIn(right, cut) && s != [] && Trimmed(s, cut)
    ensures Trim(left + s + right, cut) == s
  {
    assert left + s + right == left + (s + right);
    TrimLeftPadding(left, s + right, cut);
    TrimRightPadding(s, right, cut);
  }

  // ----- Decimal numbers

  const MAX_INT64: int := 0x7fff_ffff_ffff_ffff

  predicate IsDigit(b: Byte) {
    48 <= b <= 57
  }

  predicate AllDigits(s: Bytes) {
    forall i :: 0 <= i < |s| ==> IsDigit(s[i])
  }

  function DecimalValue(digits: Bytes): nat
    requires AllDigits(digits)
  {
    if digits == [] then 0
    else
      var last := |digits| - 1;
      10 * DecimalValue(digits[..last]) + (digits[last] - 48)
  }

  /** strconv.ParseInt(s, 10, 64). */
  function ParseInt64(s: Bytes): Option<int> {
    var signed := s != [] && (s[0] == 43 || s[0] == 45);
    var digits := if signed then s[1..] else s;
    if digits == [] || !AllDigits(digits) then None
    else
      var value: int := DecimalValue(digits);
      if signed && s[0] == 45 then (if value <= MAX_INT64 + 1 then Some(-value) else None)
      else (if value <= MAX_INT64 then Some(value) else None)
  }

  function Digits(n: nat): Bytes {
    if n < 10 then [48 + n] else Digits(n / 10) + [48 + n % 10]
  }

  function Chars(s: Bytes): string {
    seq(|s|, i requires 0 <= i < |s| => s[i] as char)
  }

  /** strconv.FormatInt(v, 10). */
  function FormatInt(v: int): Bytes {
    if v < 0 then [45] + Digits(-v) else Digits(v)
  }

  lemma {:induction false} DigitsRoundTrip(n: nat)
    ensures Digits(n) != [] && AllDigits(Digits(n)) && DecimalValue(Digits(n)) == n
  {
    if n >= 10 {
      DigitsRoundTrip(n / 10);
      assert Digits(n)[..|Digits(n)| - 1] == Digits(n / 10);
    } else {
      assert [48 + n][..0] == [];
    }
  }

  /** Every 64-bit number is read back from its own text. */
  lemma FormatRoundTrip(v: int)
    ensures ParseInt64(FormatInt(v)) == if -MAX_INT64 - 1 <= v <= MAX_INT64 then Some(v) else None
  {
    DigitsRoundTrip(if v < 0 then -v else v);
    if v < 0 {
      assert FormatInt(v)[1..] == Digits(-v);
    }
  }
}
