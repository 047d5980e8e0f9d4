/** The keyset cursor codec: a `(height, idx)` pair of 64-bit integers as `"height:idx"`. */
module Cursor {
  import opened Model

  const I64_LIMIT := 0x8000_0000_0000_0000

  type I64 = x: int | -I64_LIMIT <= x < I64_LIMIT

  /** The position a page ends at. */
  datatype Key = Key(height: I64, idx: I64)

  predicate IsDigit(c: char) {
    '0' <= c <= '9'
  }

  function DigitChar(d: nat): char
    requires d < 10
  {
    ('0' as int + d) as char
  }

  /** Decimal digits, without leading zeros. */
  function Digits(n: nat): string {
    if n < 10 then [DigitChar(n)] else Digits(n / 10) + [DigitChar(n % 10)]
  }

  function FormatInt(x: int): string {
    if x < 0 then "-" + Digits(-x) else Digits(x)
  }

  /** The number a run of digits stands for. */
  function NatOf(s: string): Option<nat> {
    if s == [] then Some(0)
    else
      var front, last := NatOf(s[..|s| - 1]), s[|s| - 1];
      if front.Some? && IsDigit(last) then Some(10 * front.value + (last as int - '0' as int)) else None
  }

  /** An integer with an optional sign and at least one digit, if it fits in 64 bits. */
  function ParseInt(s: string): Option<I64> {
    var negative := s != [] && s[0] == '-';
    var digits := if s != [] && (s[0] == '-' || s[0] == '+') then s[1..] else s;
    if digits == [] || NatOf(digits).None? then None
    else
      var n: int := NatOf(digits).value;
      var x := if negative then -n else n;
      if -I64_LIMIT <= x < I64_LIMIT then Some(x) else None
  }

  /** Splits at the first colon. */
  function SplitColon(s: string): Option<(string, string)> {
    if s == [] then None
    else if s[0] == ':' then Some(([], s[1..]))
    else
      var rest := SplitColon(s[1..]);
      if rest.Some? then Some(([s[0]] + rest.value.0, rest.value.1)) else None
  }

  function FormatCursor(k: Key): string {
    FormatInt(k.height) + ":" + FormatInt(k.idx)
  }

  function ParseCursor(s: string): Result<Key, string> {
    var parts := SplitColon(s);
    if parts.None? then Err("bad cursor")
    else
      var h, i := ParseInt(parts.value.0), ParseInt(parts.value.1);
      if h.Some? && i.Some? then Ok(Key(h.value, i.value)) else Err("bad cursor")
  }

  // ---------------------------------------------------------------- round trip

  lemma {:induction false} DigitsReadBack(n: nat)
    ensures NatOf(Digits(n)) == Some(n) && Digits(n) != []
    ensures forall i :: 0 <= i < |Digits(n)| ==> IsDigit(Digits(n)[i])
  {
    var s := Digits(n);
    if n >= 10 {
      DigitsReadBack(n / 10);
      assert s[..|s| - 1] == Digits(n / 10);
    } else {
      assert s[..0] == [];
    }
  }

  lemma IntReadsBack(x: I64)
    ensures ParseInt(FormatInt(x)) == Some(x)
    ensures forall i :: 0 <= i < |FormatInt(x)| ==> FormatInt(x)[i] != ':'
  {
    var s, n: int := FormatInt(x), x;
    if n < 0 {
      DigitsReadBack(-n);
      assert s[1..] == Digits(-n);
    } else {
      DigitsReadBack(x);
      assert IsDigit(s[0]);
    }
  }

  lemma {:induction false} SplitFindsColon(a: string, b: string)
    requires forall i :: 0 <= i < |a| ==> a[i] != ':'
    ensures SplitColon(a + ":" + b) == Some((a, b))
  {
    var s := a + ":" + b;
    if a == [] {
      assert s[1..] == b;
    } else {
      SplitFindsColon(a[1..], b);
      assert s[1..] == a[1..] + ":" + b;
      assert [a[0]] + a[1..] == a;
    }
  }

  /** Parsing a formatted cursor gives back the pair, for every pair of 64-bit integers. */
  lemma CursorRoundTrip(k: Key)
    ensures ParseCursor(FormatCursor(k)) == Ok(k)
  {
    IntReadsBack(k.height);
    IntReadsBack(k.idx);
    SplitFindsColon(FormatInt(k.height), FormatInt(k.idx));
  }

  /** So different pairs have different cursors. */
  lemma CursorsAreDistinct(k: Key, j: Key)
    requires FormatCursor(k) == FormatCursor(j)
    ensures k == j
  {
    CursorRoundTrip(k);
    CursorRoundTrip(j);
  }

  /** The text itself: both numbers in decimal, the height first. */
  lemma CursorText()
    ensures FormatCursor(Key(1205, 7)) == "1205:7" && FormatCursor(Key(0, -30)) == "0:-30"
  {
    assert Digits(1205) == Digits(120) + "5" == Digits(12) + "05" == "1205";
    assert Digits(30) == "30";
  }

  lemma SignedText(digits: string, n: nat)
    requires digits != [] && IsDigit(digits[0]) && NatOf(digits) == Some(n)
    ensures n < I64_LIMIT ==> ParseInt("+" + digits) == Some(n)
    ensures n >= I64_LIMIT ==> ParseInt(digits).None?
    ensures n > I64_LIMIT ==> ParseInt("-" + digits).None?
  {
    assert ("+" + digits)[1..] == digits && ("-" + digits)[1..] == digits;
  }

  /** A plus sign is accepted; a number that does not fit in 64 bits is not. */
  lemma SignsAndLimits(n: nat)
    ensures n < I64_LIMIT ==> ParseInt("+" + Digits(n)) == Some(n)
    ensures n >= I64_LIMIT ==> ParseInt(Digits(n)).None?
    ensures n > I64_LIMIT ==> ParseInt("-" + Digits(n)).None?
  {
    DigitsReadBack(n);
    SignedText(Digits(n), n);
  }

  /** No colon, a number missing or a second colon: not a cursor. */
  lemma NotCursors()
    ensures ParseCursor("5").Err? && ParseCursor("5:").Err? && ParseCursor(":5").Err? && ParseCursor("-:1").Err?
    ensures ParseCursor("1:2:3").Err? && ParseCursor("1: 2").Err?
  {
    assert ParseInt("2:3").None? && ParseInt(" 2").None?;
  }
}
