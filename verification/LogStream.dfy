/** base/LogStream.cpp: integers written into a fixed buffer, digits first in the wrong order, then reversed
    in place. */
module LogStreams {
  import opened CInt

  // ---- Numerals ----

  const DIGITS := "0123456789ABCDEF"

  function Digit(d: nat): char
    requires d < 16
  {
    DIGITS[d]
  }

  predicate Base(b: nat) {
    b == 10 || b == 16
  }

  /** The canonical numeral of `n`. */
  function Numeral(n: nat, b: nat): (s: string)
    requires Base(b)
    ensures |s| > 0
    decreases n
  {
    (if n < b then "" else Numeral(n / b, b)) + [Digit(n % b)]
  }

  function IntText(v: int): (s: string)
    ensures |s| > 0
  {
    if v < 0 then "-" + Numeral(-v, 10) else Numeral(v, 10)
  }

  /** The digit a character stands for, or 16. */
  function DigitOf(ch: char): (d: nat)
    ensures d <= 16
  {
    if '0' <= ch <= '9' then ch as nat - '0' as nat
    else if 'A' <= ch <= 'F' then ch as nat - 'A' as nat + 10
    else 16
  }

  predicate IsNumeral(s: string, b: nat) {
    |s| > 0 && forall i :: 0 <= i < |s| ==> DigitOf(s[i]) < b
  }

  function NumeralValue(s: string, b: nat): nat {
    if |s| == 0 then 0 else NumeralValue(s[..|s| - 1], b) * b + DigitOf(s[|s| - 1])
  }

  /** Reads a decimal text back. */
  function ParseInt(s: string): int {
    if |s| > 0 && s[0] == '-' then 0 - NumeralValue(s[1..], 10) else NumeralValue(s, 10)
  }

  /** No leading zero but in "0" itself. */
  predicate Canonical(s: string, b: nat) {
    IsNumeral(s, b) && (s[0] == '0' ==> |s| == 1)
  }

  predicate CanonicalInt(s: string) {
    |s| > 0 && (if s[0] == '-' then Canonical(s[1..], 10) && s[1] != '0' else Canonical(s, 10))
  }

  lemma DigitRoundTrip(d: nat)
    requires d < 16
    ensures DigitOf(Digit(d)) == d
  {
  }

  lemma DigitIsItself(ch: char)
    requires DigitOf(ch) < 16
    ensures Digit(DigitOf(ch)) == ch
  {
  }

  lemma NumeralStep(n: nat, b: nat)
    requires Base(b)
    ensures Numeral(n, b) == (if n < b then "" else Numeral(n / b, b)) + [Digit(n % b)]
    ensures DigitOf(Digit(n % b)) == n % b
  {
    DigitRoundTrip(n % b);
  }

  lemma ValueSnoc(front: string, ch: char, b: nat)
    ensures NumeralValue(front + [ch], b) == NumeralValue(front, b) * b + DigitOf(ch)
  {
    assert (front + [ch])[..|front|] == front;
  }

  lemma CanonicalSnoc(front: string, ch: char, b: nat)
    requires Canonical(front, b) && front[0] != '0' && DigitOf(ch) < b
    ensures Canonical(front + [ch], b) && (front + [ch])[0] == front[0]
  {
    hide Digit, DigitOf;
  }

  lemma DivMod(q: nat, d: nat, b: nat)
    requires Base(b) && d < b
    ensures (q * b + d) / b == q && (q * b + d) % b == d
  {
    if b == 10 {
      assert (q * 10 + d) / 10 == q;
    } else {
      assert (q * 16 + d) / 16 == q;
    }
  }

  lemma MulDiv(n: nat, b: nat)
    requires Base(b)
    ensures n / b * b + n % b == n && (n >= b ==> 0 < n / b < n)
  {
    if b == 10 {
      assert n / 10 * 10 + n % 10 == n;
    } else {
      assert n / 16 * 16 + n % 16 == n;
    }
  }

  lemma {:induction false} NumeralRoundTrip(n: nat, b: nat)
    requires Base(b)
    ensures NumeralValue(Numeral(n, b), b) == n && Canonical(Numeral(n, b), b)
    ensures n > 0 ==> Numeral(n, b)[0] != '0'
    decreases n
  {
    NumeralStep(n, b);
    MulDiv(n, b);
    hide Digit, Numeral, NumeralValue;
    if n < b {
      OneDigit(n, b);
    } else {
      hide Digit, Canonical, DigitOf;
      NumeralRoundTrip(n / b, b);
      ValueSnoc(Numeral(n / b, b), Digit(n % b), b);
      CanonicalSnoc(Numeral(n / b, b), Digit(n % b), b);
    }
  }

  lemma OneDigit(d: nat, b: nat)
    requires Base(b) && d < b
    ensures NumeralValue([Digit(d)], b) == d && Canonical([Digit(d)], b) && (d > 0 ==> Digit(d) != '0')
    ensures d % b == d
  {
    DigitRoundTrip(d);
    var none: string := "";
    ValueSnoc(none, Digit(d), b);
    assert none + [Digit(d)] == [Digit(d)];
  }

  lemma CanonicalFront(front: string, ch: char, b: nat)
    requires Canonical(front + [ch], b) && front != ""
    ensures Canonical(front, b) && front[0] != '0' && DigitOf(ch) < b
  {
    hide Digit, DigitOf;
    var s := front + [ch];
    assert s[|front|] == ch && s[0] == front[0];
    forall i | 0 <= i < |front|
      ensures DigitOf(front[i]) < b
    {
      assert s[i] == front[i];
    }
  }

  lemma ValueOne(ch: char, b: nat)
    ensures NumeralValue([ch], b) == DigitOf(ch)
  {
    var none: string := "";
    assert none + [ch] == [ch] && NumeralValue(none, b) == 0;
    ValueSnoc(none, ch, b);
    hide NumeralValue, DigitOf;
  }

  lemma UniqueOne(ch: char, b: nat)
    requires Base(b) && DigitOf(ch) < b
    ensures Numeral(NumeralValue([ch], b), b) == [ch] && (ch != '0' ==> NumeralValue([ch], b) > 0)
  {
    ValueOne(ch, b);
    DigitIsItself(ch);
    ZeroDigit(ch);
    hide DigitOf, NumeralValue, Numeral, Digit;
    NumeralStep(DigitOf(ch), b);
    DivMod(0, DigitOf(ch), b);
  }

  lemma ValueMore(front: string, ch: char, b: nat)
    requires Base(b) && DigitOf(ch) < b && NumeralValue(front, b) > 0
    ensures var v := NumeralValue(front + [ch], b);
      v >= b && v / b == NumeralValue(front, b) && v % b == DigitOf(ch)
  {
    ValueSnoc(front, ch, b);
    hide DigitOf, NumeralValue;
    DivMod(NumeralValue(front, b), DigitOf(ch), b);
    AtLeastBase(NumeralValue(front, b), DigitOf(ch), b);
  }

  lemma UniqueMore(front: string, ch: char, b: nat)
    requires Base(b) && DigitOf(ch) < b && NumeralValue(front, b) > 0 && Numeral(NumeralValue(front, b), b) == front
    ensures var v := NumeralValue(front + [ch], b); v > 0 && Numeral(v, b) == front + [ch]
  {
    DigitIsItself(ch);
    hide DigitOf, NumeralValue, Numeral, Digit;
    ValueMore(front, ch, b);
    NumeralStep(NumeralValue(front + [ch], b), b);
  }

  lemma AtLeastBase(n: nat, d: nat, b: nat)
    requires Base(b) && n > 0
    ensures n * b + d >= b
  {
  }

  lemma {:induction false} NumeralUnique(s: string, b: nat)
    requires Base(b) && Canonical(s, b)
    ensures Numeral(NumeralValue(s, b), b) == s
    ensures s[0] != '0' ==> NumeralValue(s, b) > 0
    decreases |s|
  {
    var front, ch := s[..|s| - 1], s[|s| - 1];
    assert s == front + [ch] && DigitOf(ch) < b;
    hide Digit, DigitOf, NumeralValue, Numeral;
    if front == "" {
      assert s == [ch];
      UniqueOne(ch, b);
    } else {
      CanonicalFront(front, ch, b);
      hide Canonical;
      NumeralUnique(front, b);
      UniqueMore(front, ch, b);
    }
  }

  lemma ZeroDigit(ch: char)
    ensures DigitOf(ch) == 0 <==> ch == '0'
  {
  }

  /** Every integer is read back from its text, which is its only canonical text. */
  lemma IntRoundTrip(v: int)
    ensures ParseInt(IntText(v)) == v && CanonicalInt(IntText(v))
  {
    NumeralRoundTrip(if v < 0 then -v else v, 10);
    hide Numeral, NumeralValue, DigitOf;
    if v < 0 {
      assert IntText(v)[1..] == Numeral(-v, 10);
    } else {
      NoSign(Numeral(v, 10));
    }
  }

  lemma NoSign(s: string)
    requires IsNumeral(s, 10)
    ensures s[0] != '-'
  {
    assert DigitOf(s[0]) < 10;
  }

  lemma IntTextUnique(s: string)
    requires CanonicalInt(s)
    ensures IntText(ParseInt(s)) == s
  {
    hide Numeral, NumeralValue, DigitOf;
    if s[0] == '-' {
      NumeralUnique(s[1..], 10);
      assert s == "-" + s[1..];
    } else {
      NumeralUnique(s, 10);
    }
  }

  function Pow(b: nat, k: nat): nat {
    if k == 0 then 1 else b * Pow(b, k - 1)
  }

  /** A numeral has as many digits as its value needs. */
  lemma {:induction false} NumeralLengthIff(n: nat, b: nat, k: nat)
    requires Base(b) && k > 0
    ensures |Numeral(n, b)| <= k <==> n < Pow(b, k)
    decreases k
  {
    if k == 1 {
      assert Pow(b, 1) == b;
    } else if n >= b {
      NumeralLengthIff(n / b, b, k - 1);
    } else {
      PowAtLeast(b, k);
    }
  }

  lemma {:induction false} PowAtLeast(b: nat, k: nat)
    requires Base(b) && k > 0
    ensures Pow(b, k) >= b
  {
    if k > 1 {
      PowAtLeast(b, k - 1);
    }
  }

  const INT64_MIN := -0x8000_0000_0000_0000
  const UINT64_MAX := 0xFFFF_FFFF_FFFF_FFFF

  /** Twenty characters are enough for every 64-bit integer, and the most negative needs them. */
  lemma LongestInt(v: int)
    requires INT64_MIN <= v <= UINT64_MAX
    ensures |IntText(v)| <= 20 == |IntText(INT64_MIN)|
  {
    Pow10();
    hide Pow, Numeral;
    NumeralLengthIff(-INT64_MIN, 10, 18);
    NumeralLengthIff(-INT64_MIN, 10, 19);
    if v < 0 {
      NumeralLengthIff(-v, 10, 19);
    } else {
      NumeralLengthIff(v, 10, 20);
    }
  }

  lemma Pow10()
    ensures Pow(10, 18) == 1_000_000_000_000_000_000
    ensures Pow(10, 19) == 10_000_000_000_000_000_000
    ensures Pow(10, 20) == 100_000_000_000_000_000_000
  {
    assert Pow(10, 6) == 1_000_000;
    assert Pow(10, 12) == 1_000_000_000_000;
  }

  lemma LongestHex(n: nat)
    requires n <= UINT64_MAX
    ensures |Numeral(n, 16)| <= 16
  {
    assert Pow(16, 8) == 0x1_0000_0000;
    assert Pow(16, 16) == 0x1_0000_0000_0000_0000;
    NumeralLengthIff(n, 16, 16);
  }

  // ---- Digits written lowest first, then reversed ----

  function LowestFirst(n: nat, b: nat): (s: string)
    requires Base(b)
    decreases n
  {
    [Digit(n % b)] + (if n < b then "" else LowestFirst(n / b, b))
  }

  function Reversed(s: string): (r: string)
    ensures |r| == |s|
  {
    if |s| == 0 then "" else Reversed(s[1..]) + [s[0]]
  }

  lemma {:induction false} ReversedAt(s: string, k: nat)
    requires k < |s|
    ensures Reversed(s)[k] == s[|s| - 1 - k]
  {
    if k < |s| - 1 {
      ReversedAt(s[1..], k);
    }
  }

  lemma {:induction false} LowestFirstReversed(n: nat, b: nat)
    requires Base(b)
    ensures Reversed(LowestFirst(n, b)) == Numeral(n, b)
    decreases n
  {
    hide Digit;
    var s := LowestFirst(n, b);
    if n < b {
      assert s[1..] == "";
      assert Reversed(s[1..]) == "";
    } else {
      LowestFirstReversed(n / b, b);
      assert s[1..] == LowestFirst(n / b, b);
    }
  }

  lemma {:induction false} ReversedSnoc(s: string, ch: char)
    ensures Reversed(s + [ch]) == [ch] + Reversed(s)
  {
    if |s| == 0 {
      assert s + [ch] == [ch] && [ch][1..] == "";
      assert Reversed([ch]) == Reversed("") + [ch];
    } else {
      ReversedSnoc(s[1..], ch);
      assert (s + [ch])[1..] == s[1..] + [ch];
    }
  }

  /** std::reverse on `buf[lo..hi]`. */
  method ReverseInPlace(buf: array<char>, lo: nat, hi: nat)
    requires lo <= hi <= buf.Length
    modifies buf
    ensures buf[lo..hi] == Reversed(old(buf[lo..hi]))
    ensures forall k :: 0 <= k < buf.Length && !(lo <= k < hi) ==> buf[k] == old(buf[k])
  {
    hide Reversed;
    ghost var was := buf[lo..hi];
    var i, j := lo, hi;
    while i + 1 < j
      invariant lo <= i <= j <= hi && i - lo == hi - j
      invariant forall k :: lo <= k < i || j <= k < hi ==> buf[k] == was[hi - 1 - k]
      invariant forall k :: i <= k < j ==> buf[k] == was[k - lo]
      invariant forall k :: 0 <= k < buf.Length && !(lo <= k < hi) ==> buf[k] == old(buf[k])
      decreases j - i
    {
      j := j - 1;
      buf[i], buf[j] := buf[j], buf[i];
      i := i + 1;
    }
    forall k | 0 <= k < hi - lo
      ensures buf[lo..hi][k] == Reversed(was)[k]
    {
      ReversedAt(was, k);
      assert buf[lo + k] == was[hi - lo - 1 - k];
    }
  }

  /** The digits of a number on either side of zero: remainders of C++ have the sign of the dividend. */
  const MIRRORED := "9876543210123456789"
  const ZERO := 9

  function Abs(i: int): nat {
    if i < 0 then -i else i
  }

  lemma MirroredDigit(i: int)
    ensures MIRRORED[ZERO + Rem(i, 10)] == Digit(Abs(i) % 10)
    ensures Abs(Quot(i, 10)) == Abs(i) / 10
  {
  }

  /** The text of `value` as convert leaves it before reversing. */
  lemma TextReversed(value: int)
    ensures IntText(value) == Reversed(LowestFirst(Abs(value), 10) + (if value < 0 then "-" else ""))
  {
    LowestFirstReversed(Abs(value), 10);
    ReversedSnoc(LowestFirst(Abs(value), 10), '-');
    hide LowestFirst, Numeral, Reversed;
    assert LowestFirst(Abs(value), 10) + "" == LowestFirst(Abs(value), 10);
  }

  /** The digits of `value`, lowest first, from `start` on. */
  method PutDigits(buf: array<char>, start: nat, value: int) returns (p: nat)
    requires start + |LowestFirst(Abs(value), 10)| <= buf.Length
    modifies buf
    ensures p == start + |LowestFirst(Abs(value), 10)| && buf[start..p] == LowestFirst(Abs(value), 10)
    ensures forall k :: 0 <= k < buf.Length && !(start <= k < p) ==> buf[k] == old(buf[k])
  {
    hide LowestFirst, Digit, Quot, Rem;
    var i := value;
    p := start;
    while true
      invariant start <= p && p + |LowestFirst(Abs(i), 10)| <= buf.Length
      invariant buf[start..p] + LowestFirst(Abs(i), 10) == LowestFirst(Abs(value), 10)
      invariant forall k :: 0 <= k < buf.Length && !(start <= k < p) ==> buf[k] == old(buf[k])
      decreases Abs(i)
    {
      ghost var done := buf[start..p];
      ghost var n := Abs(i);
      LowestStep(n, 10);
      MirroredDigit(i);
      var lsd := Rem(i, 10);
      i := Quot(i, 10);
      buf[p] := MIRRORED[ZERO + lsd];
      p := p + 1;
      assert buf[start..p] == done + [Digit(n % 10)];
      Regroup(done, Digit(n % 10), LowestFirst(n / 10, 10));
      if i == 0 {
        break;
      }
    }
  }

  lemma Regroup(done: string, ch: char, rest: string)
    ensures done + ([ch] + rest) == done + [ch] + rest
  {
  }

  lemma LowestStep(n: nat, b: nat)
    requires Base(b)
    ensures LowestFirst(n, b) == [Digit(n % b)] + (if n / b == 0 then "" else LowestFirst(n / b, b))
  {
    hide Digit;
    if b == 10 {
      assert n / 10 == 0 <==> n < 10;
    } else {
      assert n / 16 == 0 <==> n < 16;
    }
  }

  method Convert(buf: array<char>, start: nat, value: int) returns (len: nat)
    requires start + |IntText(value)| < buf.Length
    modifies buf
    ensures len == |IntText(value)|
    ensures buf[start..start + len] == IntText(value) && buf[start + len] == '\0'
    ensures forall k :: 0 <= k < buf.Length && !(start <= k <= start + len) ==> buf[k] == old(buf[k])
  {
    TextReversed(value);
    hide IntText, LowestFirst, Reversed;
    var p := PutDigits(buf, start, value);
    if value < 0 {
      buf[p] := '-';
      p := p + 1;
    }
    buf[p] := '\0';
    assert buf[start..p] == LowestFirst(Abs(value), 10) + (if value < 0 then "-" else "");
    ReverseInPlace(buf, start, p);
    len := p - start;
  }

  method PutHexDigits(buf: array<char>, start: nat, value: nat) returns (p: nat)
    requires start + |LowestFirst(value, 16)| <= buf.Length
    modifies buf
    ensures p == start + |LowestFirst(value, 16)| && buf[start..p] == LowestFirst(value, 16)
    ensures forall k :: 0 <= k < buf.Length && !(start <= k < p) ==> buf[k] == old(buf[k])
  {
    hide LowestFirst, Digit;
    var i := value;
    p := start;
    while true
      invariant start <= p && p + |LowestFirst(i, 16)| <= buf.Length
      invariant buf[start..p] + LowestFirst(i, 16) == LowestFirst(value, 16)
      invariant forall k :: 0 <= k < buf.Length && !(start <= k < p) ==> buf[k] == old(buf[k])
      decreases i
    {
      ghost var done := buf[start..p];
      LowestStep(i, 16);
      Regroup(done, Digit(i % 16), LowestFirst(i / 16, 16));
      var lsd := i % 16;
      i := i / 16;
      buf[p] := Digit(lsd);
      p := p + 1;
      assert buf[start..p] == done + [Digit(lsd)];
      if i == 0 {
        break;
      }
    }
  }

  method ConvertHex(buf: array<char>, start: nat, value: nat) returns (len: nat)
    requires start + |Numeral(value, 16)| < buf.Length
    modifies buf
    ensures len == |Numeral(value, 16)|
    ensures buf[start..start + len] == Numeral(value, 16) && buf[start + len] == '\0'
    ensures forall k :: 0 <= k < buf.Length && !(start <= k <= start + len) ==> buf[k] == old(buf[k])
  {
    LowestFirstReversed(value, 16);
    hide Numeral, LowestFirst, Reversed;
    var p := PutHexDigits(buf, start, value);
    buf[p] := '\0';
    assert buf[start..p] == LowestFirst(value, 16);
    ReverseInPlace(buf, start, p);
    len := p - start;
  }

  // ---- The stream ----

  const SMALL_BUFFER := 4000
  const MAX_NUMERIC_SIZE := 32

  /** What a number adds to a stream holding `text`. */
  function Formatted(text: string, v: int): string {
    if SMALL_BUFFER - |text| >= MAX_NUMERIC_SIZE then text + IntText(v) else text
  }

  function FormattedAll(text: string, vs: seq<int>): string
    decreases |vs|
  {
    if |vs| == 0 then text else FormattedAll(Formatted(text, vs[0]), vs[1..])
  }

  function Joined(vs: seq<int>): string {
    if |vs| == 0 then "" else IntText(vs[0]) + Joined(vs[1..])
  }

  /** Numbers written one after another leave a prefix of them, each whole; the first one dropped is the end. */
  lemma {:induction false} WholePrefix(text: string, vs: seq<int>) returns (k: nat)
    ensures k <= |vs| && FormattedAll(text, vs) == text + Joined(vs[..k])
    ensures k < |vs| ==> SMALL_BUFFER - |text + Joined(vs[..k])| < MAX_NUMERIC_SIZE
    ensures forall j :: 0 <= j < k ==> SMALL_BUFFER - |text + Joined(vs[..j])| >= MAX_NUMERIC_SIZE
    decreases |vs|
  {
    hide IntText;
    if |vs| == 0 {
      k := 0;
    } else if SMALL_BUFFER - |text| >= MAX_NUMERIC_SIZE {
      var rest := vs[1..];
      var l := WholePrefix(text + IntText(vs[0]), rest);
      k := l + 1;
      forall j | 0 < j <= k
        ensures text + Joined(vs[..j]) == text + IntText(vs[0]) + Joined(rest[..j - 1])
      {
        assert vs[..j][1..] == rest[..j - 1];
      }
    } else {
      k := 0;
      FullStays(text, vs);
    }
  }

  lemma {:induction false} FullStays(text: string, vs: seq<int>)
    requires SMALL_BUFFER - |text| < MAX_NUMERIC_SIZE
    ensures FormattedAll(text, vs) == text
  {
    if |vs| > 0 {
      FullStays(text, vs[1..]);
    }
  }

  /** LogStream with its FixedBuffer; `cur` is cur_ - data_. */
  class LogStream {
    const data: array<char>
    var cur: nat

    ghost predicate Valid()
      reads this
    {
      data.Length == SMALL_BUFFER && cur < SMALL_BUFFER
    }

    ghost function Text(): string
      reads this, data
      requires Valid()
    {
      data[..cur]
    }

    constructor ()
      ensures Valid() && fresh(data) && Text() == ""
    {
      data := new char[SMALL_BUFFER](_ => '\0');
      cur := 0;
    }

    function Avail(): int
      reads this
    {
      data.Length - cur
    }

    /** All of `buf` or, when that would leave no room for the terminating zero, none of it. */
    method Append(buf: string)
      requires Valid()
      modifies `cur, data
      ensures Valid()
      ensures Text() == old(Text()) + (if |buf| < old(Avail()) then buf else "")
    {
      if Avail() > |buf| {
        forall k | 0 <= k < |buf| {
          data[cur + k] := buf[k];
        }
        cur := cur + |buf|;
        assert data[..cur] == old(data[..cur]) + buf;
      }
    }

    /** operator<< for an integer of at most 64 bits: its whole text, or nothing when fewer than 32 characters are
        left. Text and terminating zero stay inside the buffer. */
    method FormatInteger(v: int)
      requires Valid() && INT64_MIN <= v <= UINT64_MAX
      modifies `cur, data
      ensures Valid()
      ensures Text() == Formatted(old(Text()), v)
      ensures old(Avail()) >= MAX_NUMERIC_SIZE ==> data[cur] == '\0'
    {
      hide IntText, Numeral;
      assert |IntText(v)| <= 20 by {
        LongestInt(v);
      }
      if Avail() >= MAX_NUMERIC_SIZE {
        var len := Convert(data, cur, v);
        assert data[..cur] == old(data[..cur]);
        cur := cur + len;
        assert data[..cur] == data[..old(cur)] + data[old(cur)..cur];
      }
    }

    /** operator<< for a pointer. */
    method FormatPointer(v: nat)
      requires Valid() && v <= UINT64_MAX
      modifies `cur, data
      ensures Valid()
      ensures Text() == old(Text()) + (if old(Avail()) >= MAX_NUMERIC_SIZE then "0x" + Numeral(v, 16) else "")
      ensures old(Avail()) >= MAX_NUMERIC_SIZE ==> data[cur] == '\0'
    {
      hide Numeral;
      LongestHex(v);
      if Avail() >= MAX_NUMERIC_SIZE {
        data[cur] := '0';
        data[cur + 1] := 'x';
        var len := ConvertHex(data, cur + 2, v);
        cur := cur + len + 2;
        assert data[..cur] == old(data[..cur]) + ("0x" + data[old(cur) + 2..cur]);
      }
    }
  }
}
