/** Addresses as text: sixteen hexadecimal digits in angle brackets, with the
    leftmost longest run of zeros replaced by a colon. */
module AddressText {
  import opened Options

  function Pow16(n: nat): (p: nat)
    ensures p >= 1
  {
    if n == 0 then 1 else 16 * Pow16(n - 1)
  }

  predicate IsDigits(ds: seq<nat>) {
    forall i :: 0 <= i < |ds| ==> ds[i] < 16
  }

  /** The number written by these digits. */
  function Value(ds: seq<nat>): nat {
    if ds == [] then 0 else 16 * Value(ds[..|ds| - 1]) + ds[|ds| - 1]
  }

  function Zeros(n: nat): seq<nat> {
    seq(n, _ => 0)
  }

  /** The last `n` hexadecimal digits of `u`. */
  function DigitsOf(u: nat, n: nat): (ds: seq<nat>)
    ensures |ds| == n && IsDigits(ds)
  {
    if n == 0 then [] else DigitsOf(u / 16, n - 1) + [u % 16]
  }

  // ---------------------------------------------------------------------------
  // Arithmetic
  // ---------------------------------------------------------------------------

  lemma {:induction false} ValueOfDigits(u: nat, n: nat)
    requires u < Pow16(n)
    ensures Value(DigitsOf(u, n)) == u
    decreases n
  {
    if n > 0 {
      ValueOfDigits(u / 16, n - 1);
      assert DigitsOf(u, n)[..n - 1] == DigitsOf(u / 16, n - 1);
    }
  }

  lemma {:induction false} ValueBound(ds: seq<nat>)
    requires IsDigits(ds)
    ensures Value(ds) < Pow16(|ds|)
    decreases |ds|
  {
    if ds != [] { ValueBound(ds[..|ds| - 1]); }
  }

  lemma Sixteenfold(p: nat, q: nat)
    ensures (16 * p) * q == 16 * (p * q)
  {
  }

  lemma {:induction false} PowSum(a: nat, b: nat)
    ensures Pow16(a) * Pow16(b) == Pow16(a + b)
    decreases a
  {
    if a > 0 {
      PowSum(a - 1, b);
      Sixteenfold(Pow16(a - 1), Pow16(b));
    }
  }

  lemma SixteenTimes(v: nat, p: nat)
    ensures 16 * (v * p) == v * (16 * p)
  {
  }

  lemma {:induction false} ValueShifted(ds: seq<nat>, n: nat)
    ensures Value(ds + Zeros(n)) == Value(ds) * Pow16(n)
    decreases n
  {
    if n == 0 {
      assert ds + Zeros(0) == ds;
    } else {
      ValueShifted(ds, n - 1);
      assert (ds + Zeros(n))[..|ds| + n - 1] == ds + Zeros(n - 1);
      SixteenTimes(Value(ds), Pow16(n - 1));
    }
  }

  lemma Divides(x: nat, y: nat, q: nat, r: nat)
    requires x == q * y + r && r < y
    ensures x / y == q && x % y == r
  {
    var d: int := x / y - q;
    var width: int := y;
    assert x == (x / y) * y + x % y;
    assert d * width == r - x % y;
    assert d >= 1 ==> d * width >= width;
    assert d <= -1 ==> d * width <= -width;
  }

  /** Scaling both operands scales the remainder only. */
  lemma Scaled(a: nat, b: nat, c: nat)
    requires b > 0 && c > 0
    ensures b * c > 0 && (a * c) / (b * c) == a / b && (a * c) % (b * c) == (a % b) * c
  {
    var q, r := a / b, a % b;
    assert a == q * b + r;
    assert a * c == q * (b * c) + r * c by {
      assert (q * b + r) * c == q * b * c + r * c;
      assert q * b * c == q * (b * c);
    }
    assert r * c < b * c;
    assert b * c > 0;
    Divides(a * c, b * c, q, r * c);
  }

  lemma SplitDivision(u: nat, p: nat)
    requires p > 0
    ensures (u / 16) / p == u / (16 * p)
    ensures (u % (16 * p)) / 16 == (u / 16) % p && (u % (16 * p)) % 16 == u % 16
  {
    var v, d := u / 16, u % 16;
    var q, r := v / p, v % p;
    assert v == q * p + r && u == 16 * v + d;
    assert u == q * (16 * p) + (16 * r + d) by {
      assert 16 * (q * p) == q * (16 * p);
    }
    assert 16 * r + d < 16 * p;
    Divides(u, 16 * p, q, 16 * r + d);
  }

  /** The digits of `u` start with its highest one. */
  lemma {:induction false} TopDigit(u: nat, n: nat)
    requires n > 0 && u < Pow16(n)
    ensures DigitsOf(u, n) == [u / Pow16(n - 1)] + DigitsOf(u % Pow16(n - 1), n - 1)
    decreases n
  {
    if n == 1 {
      assert Pow16(0) == 1 && u / 1 == u && u % 1 == 0;
      assert DigitsOf(u, 1) == DigitsOf(u / 16, 0) + [u % 16];
    } else {
      var p := Pow16(n - 2);
      TopDigit(u / 16, n - 1);
      SplitDivision(u, p);
    }
  }

  // ---------------------------------------------------------------------------
  // Digits
  // ---------------------------------------------------------------------------

  /** An address has 16 hexadecimal digits. The number is fixed by its type: a literal
      would make the verifier compute the whole power in every proof. */
  type Width = n: nat | 2 * n == 32 witness 16

  const WIDTH: Width

  /** A shift to the left by `n` hexadecimal digits in a word of `w` digits. */
  function Shifted(w: nat, u: nat, n: nat): nat {
    (u * Pow16(n)) % Pow16(w)
  }

  lemma ShiftTop(w: nat, rest: nat, i: nat)
    requires i < w
    ensures (rest * Pow16(i)) / Pow16(w - 1) == rest / Pow16(w - 1 - i)
    ensures Shifted(w, rest * Pow16(i), 1) == (rest % Pow16(w - 1 - i)) * Pow16(i + 1)
  {
    var p, q := Pow16(i), Pow16(w - 1 - i);
    PowSum(w - 1 - i, i);
    Scaled(rest, q, p);
    PowSum(w - 1 - i, i + 1);
    Scaled(rest, q, Pow16(i + 1));
    assert rest * p * 16 == rest * (16 * p);
    assert Pow16(1) == 16;
  }

  /** The word holds `rest` in its highest digits, `i` digits further up. */
  ghost predicate Holds(w: nat, cur: nat, rest: nat, i: nat) {
    i <= w && rest < Pow16(w - i) && cur == rest * Pow16(i)
  }

  /** One shift takes the highest digit off. */
  lemma ShiftDigit(w: nat, cur: nat, rest: nat, i: nat)
    requires i < w && Holds(w, cur, rest, i)
    ensures Holds(w, Shifted(w, cur, 1), rest % Pow16(w - 1 - i), i + 1)
    ensures DigitsOf(rest, w - i) == [cur / Pow16(w - 1)] + DigitsOf(rest % Pow16(w - 1 - i), w - (i + 1))
  {
    ShiftTop(w, rest, i);
    TopDigit(rest, w - i);
  }

  /** The word after `i` shifts by one digit. */
  function Word(w: nat, u: nat, i: nat): nat {
    if i == 0 then u else Shifted(w, Word(w, u, i - 1), 1)
  }

  /** After `i` shifts the word holds the digits that are left. */
  lemma {:induction false} WordHolds(w: nat, u: nat, i: nat) returns (rest: nat)
    requires i <= w && u < Pow16(w)
    ensures Holds(w, Word(w, u, i), rest, i) && DigitsOf(u, w)[i..] == DigitsOf(rest, w - i)
    decreases i
  {
    if i == 0 {
      rest := u;
    } else {
      var before := WordHolds(w, u, i - 1);
      ShiftDigit(w, Word(w, u, i - 1), before, i - 1);
      rest := before % Pow16(w - i);
      assert DigitsOf(u, w)[i..] == DigitsOf(u, w)[i - 1..][1..];
    }
  }

  lemma WordDigit(w: nat, u: nat, i: nat)
    requires i < w && u < Pow16(w)
    ensures Word(w, u, i) / Pow16(w - 1) == DigitsOf(u, w)[i]
  {
    var rest := WordHolds(w, u, i);
    ShiftDigit(w, Word(w, u, i), rest, i);
    assert DigitsOf(u, w)[i..][0] == DigitsOf(u, w)[i];
  }

  /** Takes the highest digit off, once for every digit of the word. */
  method Digits(w: nat, u: nat) returns (out: seq<nat>)
    requires w > 0 && u < Pow16(w)
    ensures out == DigitsOf(u, w)
  {
    out := [];
    var cur := u;
    for i := 0 to w
      invariant cur == Word(w, u, i) && out == DigitsOf(u, w)[..i]
    {
      WordDigit(w, u, i);
      out := out + [cur / Pow16(w - 1)];
      cur := Shifted(w, cur, 1);
    }
  }

  // ---------------------------------------------------------------------------
  // Printing
  // ---------------------------------------------------------------------------

  predicate IsRun(ds: seq<nat>, start: nat, len: nat) {
    start + len <= |ds| && forall i :: start <= i < start + len ==> ds[i] == 0
  }

  /** The leftmost of the longest runs of zeros. */
  ghost predicate IsLongestRun(ds: seq<nat>, start: nat, len: nat) {
    && IsRun(ds, start, len)
    && forall s: nat, l: nat :: IsRun(ds, s, l) ==> l <= len && (l == len && len > 0 ==> start <= s)
  }

  /** The runs that end before a position, or at it. */
  ghost predicate BestBefore(ds: seq<nat>, n: nat, start: nat, len: nat) {
    forall s: nat, l: nat :: IsRun(ds, s, l) && s + l <= n ==> l <= len && (l == len && len > 0 ==> start <= s)
  }

  /** Runs that end in the current run begin in it. */
  lemma RunsEndHere(ds: seq<nat>, thisStart: nat, thisLen: nat, start: nat, len: nat, n: nat)
    requires thisStart + thisLen == n <= |ds| && IsRun(ds, thisStart, thisLen)
    requires thisStart > 0 ==> ds[thisStart - 1] != 0
    requires forall s: nat, l: nat :: IsRun(ds, s, l) && s + l <= thisStart ==> l <= len && (l == len && len > 0 ==> start <= s)
    requires start + len <= thisStart
    ensures if thisLen > len then BestBefore(ds, n, thisStart, thisLen) else BestBefore(ds, n, start, len)
  {
    forall s: nat, l: nat | IsRun(ds, s, l) && thisStart < s + l <= n ensures l == 0 || s >= thisStart {
      if thisStart > 0 {
        var before := ds[thisStart - 1];
        assert l > 0 && s < thisStart ==> before == 0;
      }
    }
  }

  method LongestRun(ds: seq<nat>) returns (start: nat, len: nat)
    ensures IsLongestRun(ds, start, len)
  {
    var thisStart, thisLen := 0, 0;
    start, len := 0, 0;
    for i := 0 to |ds|
      invariant thisStart + thisLen == i && IsRun(ds, thisStart, thisLen)
      invariant thisStart > 0 ==> ds[thisStart - 1] != 0
      invariant IsRun(ds, start, len) && start + len <= thisStart
      invariant forall s: nat, l: nat :: IsRun(ds, s, l) && s + l <= thisStart ==> l <= len && (l == len && len > 0 ==> start <= s)
    {
      var digit := ds[i];
      if digit == 0 {
        thisLen := thisLen + 1;
      } else {
        RunsEndHere(ds, thisStart, thisLen, start, len, i);
        if thisLen > len { start, len := thisStart, thisLen; }
        thisStart, thisLen := i + 1, 0;
        assert BestBefore(ds, i, start, len);
        forall s: nat, l: nat | IsRun(ds, s, l) && s + l <= thisStart ensures l <= len && (l == len && len > 0 ==> start <= s) {
          assert s + l == i + 1 && l > 0 ==> digit == 0;
        }
      }
    }
    RunsEndHere(ds, thisStart, thisLen, start, len, |ds|);
    if thisLen > len { start, len := thisStart, thisLen; }
    assert BestBefore(ds, |ds|, start, len);
  }

  const HEX: string := "0123456789abcdef"

  function HexChar(d: nat): char
    requires d < 16
  {
    HEX[d]
  }

  function Hex(ds: seq<nat>): (s: string)
    requires IsDigits(ds)
    ensures |s| == |ds|
  {
    seq(|ds|, i requires 0 <= i < |ds| => HexChar(ds[i]))
  }

  /** The text of sixteen digits, given the run to be replaced. */
  function Text(ds: seq<nat>, start: nat, len: nat): string
    requires IsDigits(ds) && start + len <= |ds|
  {
    if len > 1 then "<" + (Hex(ds[..start]) + ":" + Hex(ds[start + len..])) + ">"
    else "<" + (Hex(ds[..start]) + Hex(ds[start..])) + ">"
  }

  // ---------------------------------------------------------------------------
  // Parsing
  // ---------------------------------------------------------------------------

  function HexValue(c: char): (d: Option<nat>)
    ensures d.Some? ==> d.value < 16
  {
    if '0' <= c <= '9' then Some((c - '0') as int)
    else if 'a' <= c <= 'f' then Some((c - 'a') as int + 10)
    else if 'A' <= c <= 'F' then Some((c - 'A') as int + 10)
    else None
  }

  /** One more character: the colon stands for a gap of `gap` zeros and one more, and a
      second colon is an error. */
  function ReadOne(before: Option<seq<nat>>, seen: bool, c: char, gap: nat): Option<seq<nat>> {
    if before.None? then None
    else if c == ':' then (if seen then None else Some(before.value + Zeros(gap + 1)))
    else if HexValue(c).None? then None
    else Some(before.value + [HexValue(c).value])
  }

  /** The digits a text stands for. */
  function Read(inner: string, gap: nat): Option<seq<nat>> {
    if inner == [] then Some([])
    else
      var n := |inner| - 1;
      ReadOne(Read(inner[..n], gap), ':' in inner[..n], inner[n], gap)
  }

  /** What a text means as an address. */
  function Meaning(s: string): Option<nat> {
    if |s| < 2 || s[0] != '<' || s[|s| - 1] != '>' || |s| > WIDTH + 2 then None
    else
      var digits := Read(s[1..|s| - 1], WIDTH + 2 - |s|);
      if digits.None? then None else Some(Value(digits.value))
  }

  lemma ReadMore(inner: string, i: nat, gap: nat)
    requires i < |inner|
    ensures Read(inner[..i + 1], gap) == ReadOne(Read(inner[..i], gap), ':' in inner[..i], inner[i], gap)
    ensures ':' in inner[..i + 1] <==> ':' in inner[..i] || inner[i] == ':'
  {
    assert inner[..i + 1][..i] == inner[..i];
    assert inner[..i + 1] == inner[..i] + [inner[i]];
  }

  /** What was read of `inner[..i]`: each character one digit, the colon `gap` more. */
  ghost predicate Measured(inner: string, i: nat, gap: nat)
    requires i <= |inner|
  {
    Read(inner[..i], gap).Some? ==>
      && IsDigits(Read(inner[..i], gap).value)
      && |Read(inner[..i], gap).value| == i + (if ':' in inner[..i] then gap else 0)
  }

  lemma {:induction false} ReadLength(inner: string, i: nat, gap: nat)
    requires i <= |inner|
    ensures Measured(inner, i, gap)
    decreases i
  {
    if i > 0 {
      ReadLength(inner, i - 1, gap);
      ReadMore(inner, i - 1, gap);
    }
  }

  lemma {:induction false} ReadFails(inner: string, gap: nat, n: nat)
    requires n <= |inner| && Read(inner[..n], gap).None?
    ensures Read(inner, gap).None?
    decreases |inner| - n
  {
    if n < |inner| {
      ReadMore(inner, n, gap);
      ReadFails(inner, gap, n + 1);
    } else {
      assert inner[..n] == inner;
    }
  }

  lemma {:induction false} PowMonotone(a: nat, b: nat)
    requires a <= b
    ensures Pow16(a) <= Pow16(b)
    decreases b
  {
    if a < b { PowMonotone(a, b - 1); }
  }

  /** A shift that keeps all digits within sixteen loses nothing. */
  lemma ShiftIsExact(w: nat, ds: seq<nat>, n: nat)
    requires IsDigits(ds) && |ds| + n <= w
    ensures Shifted(w, Value(ds), n) == Value(ds + Zeros(n))
  {
    var shifted := Value(ds + Zeros(n));
    assert shifted < Pow16(w) by {
      ValueBound(ds + Zeros(n));
      PowMonotone(|ds| + n, w);
    }
    ValueShifted(ds, n);
    Divides(shifted, Pow16(w), 0, shifted);
  }

  lemma ShiftInDigit(w: nat, ds: seq<nat>, d: nat)
    requires IsDigits(ds) && |ds| < w
    ensures Shifted(w, Value(ds), 1) + d == Value(ds + [d])
  {
    ShiftIsExact(w, ds, 1);
    assert (ds + Zeros(1))[..|ds|] == ds && (ds + [d])[..|ds|] == ds;
  }

  lemma ShiftInGap(w: nat, ds: seq<nat>, gap: nat)
    requires IsDigits(ds) && |ds| + 1 + gap <= w
    ensures Shifted(w, Shifted(w, Value(ds), 1), gap) == Value(ds + Zeros(gap + 1))
  {
    ShiftIsExact(w, ds, 1);
    ShiftIsExact(w, ds + Zeros(1), gap);
    assert ds + Zeros(1) + Zeros(gap) == ds + Zeros(gap + 1);
  }

  /** The digits read so far leave room for the rest. */
  lemma RoomLeft(w: nat, inner: string, i: nat)
    requires i < |inner| <= w && Read(inner[..i], w - |inner|).Some?
    ensures
      var ds := Read(inner[..i], w - |inner|).value;
      && IsDigits(ds)
      && |ds| < w
      && (':' !in inner[..i] ==> |ds| + 1 + (w - |inner|) <= w)
  {
    ReadLength(inner, i, w - |inner|);
  }

  /** The state of the loop after `i` characters. */
  ghost predicate ReadSoFar(inner: string, i: nat, gap: nat, out: nat, gapLeft: bool) {
    && i <= |inner|
    && Read(inner[..i], gap).Some? && out == Value(Read(inner[..i], gap).value)
    && (gapLeft <==> ':' !in inner[..i])
  }

  lemma ColonIsRead(w: nat, inner: string, i: nat, out: nat)
    requires |inner| <= w && ReadSoFar(inner, i, w - |inner|, out, true) && i < |inner| && inner[i] == ':'
    ensures ReadSoFar(inner, i + 1, w - |inner|, Shifted(w, Shifted(w, out, 1), w - |inner|), false)
  {
    RoomLeft(w, inner, i);
    ReadMore(inner, i, w - |inner|);
    ShiftInGap(w, Read(inner[..i], w - |inner|).value, w - |inner|);
  }

  lemma DigitIsRead(w: nat, inner: string, i: nat, out: nat, gapLeft: bool)
    requires |inner| <= w && ReadSoFar(inner, i, w - |inner|, out, gapLeft) && i < |inner|
    requires inner[i] != ':' && HexValue(inner[i]).Some?
    ensures ReadSoFar(inner, i + 1, w - |inner|, Shifted(w, out, 1) + HexValue(inner[i]).value, gapLeft)
  {
    RoomLeft(w, inner, i);
    ReadMore(inner, i, w - |inner|);
    ShiftInDigit(w, Read(inner[..i], w - |inner|).value, HexValue(inner[i]).value);
  }

  lemma NothingIsRead(inner: string, i: nat, gap: nat, out: nat, gapLeft: bool)
    requires ReadSoFar(inner, i, gap, out, gapLeft) && i < |inner|
    requires if inner[i] == ':' then !gapLeft else HexValue(inner[i]).None?
    ensures Read(inner, gap).None?
  {
    ReadMore(inner, i, gap);
    ReadFails(inner, gap, i + 1);
  }

  /** Reads the text between the brackets. Every shift is by less than a word and loses no digit. */
  method ParseInner(w: nat, inner: string) returns (r: Option<nat>)
    requires |inner| <= w
    ensures r == var digits := Read(inner, w - |inner|); if digits.None? then None else Some(Value(digits.value))
  {
    var gap := w - |inner|;
    var gapLeft := true;
    var out: nat := 0;
    for i := 0 to |inner|
      invariant ReadSoFar(inner, i, gap, out, gapLeft)
    {
      var c := inner[i];
      if c == ':' {
        if !gapLeft {
          NothingIsRead(inner, i, gap, out, gapLeft);
          return None;
        }
        assert gap < w;
        ColonIsRead(w, inner, i, out);
        gapLeft := false;
        out := Shifted(w, Shifted(w, out, 1), gap);
      } else {
        var d := HexValue(c);
        if d.None? {
          NothingIsRead(inner, i, gap, out, gapLeft);
          return None;
        }
        DigitIsRead(w, inner, i, out, gapLeft);
        out := Shifted(w, out, 1) + d.value;
      }
    }
    assert inner[..|inner|] == inner;
    return Some(out);
  }

  /** Parses an address. */
  method Parse(s: string) returns (r: Option<nat>)
    ensures r == Meaning(s)
  {
    if |s| == 0 || s[0] != '<' || s[|s| - 1] != '>' { return None; }
    var inner := s[1..|s| - 1];
    if |inner| > WIDTH { return None; }
    r := ParseInner(WIDTH, inner);
  }

  // ---------------------------------------------------------------------------
  // Round trip
  // ---------------------------------------------------------------------------

  lemma HexRoundTrip(d: nat)
    requires d < 16
    ensures HexValue(HexChar(d)) == Some(d) && HexChar(d) != ':'
  {
  }

  lemma ReadAppended(text: string, c: char, gap: nat)
    ensures Read(text + [c], gap) == ReadOne(Read(text, gap), ':' in text, c, gap)
  {
    assert (text + [c])[..|text|] == text;
  }

  lemma HexLast(prefix: string, ds: seq<nat>)
    requires IsDigits(ds) && ds != []
    ensures prefix + Hex(ds) == prefix + Hex(ds[..|ds| - 1]) + [HexChar(ds[|ds| - 1])]
  {
  }

  lemma LastDigit(start: seq<nat>, ds: seq<nat>)
    requires ds != []
    ensures start + ds == start + ds[..|ds| - 1] + [ds[|ds| - 1]]
  {
  }

  lemma {:induction false} ReadHex(prefix: string, ds: seq<nat>, gap: nat)
    requires IsDigits(ds) && Read(prefix, gap).Some?
    ensures Read(prefix + Hex(ds), gap) == Some(Read(prefix, gap).value + ds)
    decreases |ds|
  {
    var start := Read(prefix, gap).value;
    if ds == [] {
      assert prefix + Hex(ds) == prefix && start + ds == start;
    } else {
      var n := |ds| - 1;
      ReadHex(prefix, ds[..n], gap);
      HexRoundTrip(ds[n]);
      ReadAppended(prefix + Hex(ds[..n]), HexChar(ds[n]), gap);
      HexLast(prefix, ds);
      LastDigit(start, ds);
    }
  }

  lemma HexHasNoColon(ds: seq<nat>)
    requires IsDigits(ds)
    ensures ':' !in Hex(ds)
  {
    forall i | 0 <= i < |ds| ensures Hex(ds)[i] != ':' { HexRoundTrip(ds[i]); }
  }

  lemma ReadGap(left: seq<nat>, right: seq<nat>, gap: nat)
    requires IsDigits(left) && IsDigits(right)
    ensures Read(Hex(left) + ":" + Hex(right), gap) == Some(left + Zeros(gap + 1) + right)
  {
    var text := Hex(left) + ":";
    assert Read(text, gap) == Some(left + Zeros(gap + 1)) by {
      ReadHex([], left, gap);
      HexHasNoColon(left);
      assert [] + Hex(left) == Hex(left) && [] + left == left;
      ReadAppended(Hex(left), ':', gap);
    }
    ReadHex(text, right, gap);
  }

  lemma ReadPlain(left: seq<nat>, right: seq<nat>, gap: nat)
    requires IsDigits(left) && IsDigits(right)
    ensures Read(Hex(left) + Hex(right), gap) == Some(left + right)
  {
    assert Read(Hex(left), gap) == Some(left) by {
      ReadHex([], left, gap);
      assert [] + Hex(left) == Hex(left) && [] + left == left;
    }
    ReadHex(Hex(left), right, gap);
  }

  lemma MeaningInside(inner: string, gap: nat, ds: seq<nat>)
    requires |inner| + gap == WIDTH && Read(inner, gap) == Some(ds)
    ensures Meaning("<" + inner + ">") == Some(Value(ds))
  {
    var s := "<" + inner + ">";
    assert s[1..|s| - 1] == inner;
  }

  lemma GapMeans(left: seq<nat>, right: seq<nat>, len: nat)
    requires IsDigits(left) && IsDigits(right) && len > 1 && |left| + len + |right| == WIDTH
    ensures Meaning("<" + (Hex(left) + ":" + Hex(right)) + ">") == Some(Value(left + Zeros(len) + right))
  {
    ReadGap(left, right, len - 1);
    MeaningInside(Hex(left) + ":" + Hex(right), len - 1, left + Zeros(len) + right);
  }

  lemma PlainMeans(left: seq<nat>, right: seq<nat>)
    requires IsDigits(left) && IsDigits(right) && |left| + |right| == WIDTH
    ensures Meaning("<" + (Hex(left) + Hex(right)) + ">") == Some(Value(left + right))
  {
    ReadPlain(left, right, 0);
    MeaningInside(Hex(left) + Hex(right), 0, left + right);
  }

  lemma RunIsZeros(ds: seq<nat>, start: nat, len: nat)
    requires IsRun(ds, start, len)
    ensures ds[..start] + Zeros(len) + ds[start + len..] == ds
  {
  }

  lemma ReadText(ds: seq<nat>, start: nat, len: nat)
    requires IsDigits(ds) && |ds| == WIDTH && IsRun(ds, start, len)
    ensures Meaning(Text(ds, start, len)) == Some(Value(ds))
  {
    if len > 1 {
      GapMeans(ds[..start], ds[start + len..], len);
      RunIsZeros(ds, start, len);
    } else {
      PlainMeans(ds[..start], ds[start..]);
      assert ds[..start] + ds[start..] == ds;
    }
  }

  /** Parsing what was printed gives the address back, for every address. */
  lemma PrintThenParse(u: nat, start: nat, len: nat)
    requires u < Pow16(WIDTH) && start + len <= WIDTH && IsLongestRun(DigitsOf(u, WIDTH), start, len)
    ensures Meaning(Text(DigitsOf(u, WIDTH), start, len)) == Some(u)
  {
    ReadText(DigitsOf(u, WIDTH), start, len);
    ValueOfDigits(u, WIDTH);
  }

  /** Prints an address: the leftmost longest run of zeros becomes a colon, and the
      text means the address that was printed. */
  method Print(u: nat) returns (s: string)
    requires u < Pow16(WIDTH)
    ensures exists start: nat, len: nat ::
              IsLongestRun(DigitsOf(u, WIDTH), start, len) && s == Text(DigitsOf(u, WIDTH), start, len)
    ensures Meaning(s) == Some(u)
  {
    var ds := Digits(WIDTH, u);
    var start, len := LongestRun(ds);
    PrintThenParse(u, start, len);
    s := Text(ds, start, len);
  }

  /** A colon is printed exactly for an address with two zero digits in a row. */
  lemma ColonExactly(ds: seq<nat>, start: nat, len: nat)
    requires IsDigits(ds) && IsLongestRun(ds, start, len)
    ensures ':' in Text(ds, start, len) <==> exists i: nat :: IsRun(ds, i, 2)
  {
    HexHasNoColon(ds[..start]);
    HexHasNoColon(ds[start..]);
    if len > 1 {
      assert IsRun(ds, start, 2);
      assert Text(ds, start, len)[1 + start] == ':';
    }
  }

  /** Different addresses have different texts. */
  lemma PrintIsInjective(u: nat, start: nat, len: nat, v: nat, start': nat, len': nat)
    requires u < Pow16(WIDTH) && start + len <= WIDTH && IsLongestRun(DigitsOf(u, WIDTH), start, len)
    requires v < Pow16(WIDTH) && start' + len' <= WIDTH && IsLongestRun(DigitsOf(v, WIDTH), start', len')
    requires Text(DigitsOf(u, WIDTH), start, len) == Text(DigitsOf(v, WIDTH), start', len')
    ensures u == v
  {
    PrintThenParse(u, start, len);
    PrintThenParse(v, start', len');
  }

  // ---------------------------------------------------------------------------
  // What texts mean
  // ---------------------------------------------------------------------------

  /** Digits are printed in lower case. */
  lemma DigitsAreLowerCase(d: nat)
    requires d < 16
    ensures HexChar(d) == if d < 10 then ('0' as int + d) as char else ('a' as int + d - 10) as char
  {
  }

  /** The digit of each place. */
  lemma {:induction false} DigitOfPlace(u: nat, n: nat, i: nat)
    requires i < n
    ensures DigitsOf(u, n)[i] == (u / Pow16(n - 1 - i)) % 16
    decreases n
  {
    if i < n - 1 {
      DigitOfPlace(u / 16, n - 1, i);
      SplitDivision(u, Pow16(n - 2 - i));
    } else {
      assert Pow16(0) == 1 && u / 1 == u;
    }
  }

  predicate IsHexDigit(c: char) {
    '0' <= c <= '9' || 'a' <= c <= 'f' || 'A' <= c <= 'F'
  }

  function Lowered(c: char): char {
    if 'A' <= c <= 'F' then (c as int - 'A' as int + 'a' as int) as char else c
  }

  function AllLowered(s: string): (t: string)
    ensures |t| == |s|
  {
    seq(|s|, i requires 0 <= i < |s| => Lowered(s[i]))
  }

  lemma LoweredMeansSame(c: char)
    ensures HexValue(Lowered(c)) == HexValue(c) && (Lowered(c) == ':' <==> c == ':')
    ensures Lowered(c) == '<' <==> c == '<'
    ensures Lowered(c) == '>' <==> c == '>'
  {
  }

  lemma {:induction false} LoweredReadsSame(inner: string, i: nat, gap: nat)
    requires i <= |inner|
    ensures Read(AllLowered(inner)[..i], gap) == Read(inner[..i], gap)
    ensures ':' in AllLowered(inner)[..i] <==> ':' in inner[..i]
    decreases i
  {
    if i > 0 {
      LoweredReadsSame(inner, i - 1, gap);
      ReadMore(inner, i - 1, gap);
      ReadMore(AllLowered(inner), i - 1, gap);
      LoweredMeansSame(inner[i - 1]);
    }
  }

  lemma LoweredInner(inner: string, gap: nat)
    ensures Read(AllLowered(inner), gap) == Read(inner, gap)
  {
    LoweredReadsSame(inner, |inner|, gap);
    assert inner[..|inner|] == inner && AllLowered(inner)[..|inner|] == AllLowered(inner);
  }

  lemma InnerLowered(s: string)
    requires |s| >= 2
    ensures AllLowered(s)[1..|s| - 1] == AllLowered(s[1..|s| - 1])
  {
  }

  /** Capital letters mean what small ones mean. */
  lemma CaseDoesNotMatter(s: string)
    ensures Meaning(AllLowered(s)) == Meaning(s)
  {
    if |s| >= 2 {
      LoweredMeansSame(s[0]);
      LoweredMeansSame(s[|s| - 1]);
      InnerLowered(s);
      if |s| <= WIDTH + 2 { LoweredInner(s[1..|s| - 1], WIDTH + 2 - |s|); }
    }
  }

  /** Hexadecimal digits with at most one colon among them. */
  ghost predicate WellFormed(inner: string) {
    && (forall i :: 0 <= i < |inner| ==> IsHexDigit(inner[i]) || inner[i] == ':')
    && (forall i, j :: 0 <= i < j < |inner| ==> !(inner[i] == ':' && inner[j] == ':'))
  }

  lemma WellFormedMore(inner: string, i: nat)
    requires i < |inner|
    ensures WellFormed(inner[..i + 1]) <==>
              WellFormed(inner[..i]) && (IsHexDigit(inner[i]) || (inner[i] == ':' && ':' !in inner[..i]))
  {
    var more := inner[..i + 1];
    assert more[i] == inner[i] && forall j :: 0 <= j < i ==> more[j] == inner[..i][j];
  }

  lemma {:induction false} ReadsExactly(inner: string, i: nat, gap: nat)
    requires i <= |inner|
    ensures Read(inner[..i], gap).Some? <==> WellFormed(inner[..i])
    decreases i
  {
    if i > 0 {
      ReadsExactly(inner, i - 1, gap);
      ReadMore(inner, i - 1, gap);
      WellFormedMore(inner, i - 1);
    }
  }

  /** A text is an address exactly if it is in brackets, at most sixteen characters long
      inside them, and has only hexadecimal digits and at most one colon there. */
  lemma AcceptedExactly(s: string)
    ensures Meaning(s).Some? <==>
              && 2 <= |s| <= WIDTH + 2 && s[0] == '<' && s[|s| - 1] == '>'
              && WellFormed(s[1..|s| - 1])
  {
    if 2 <= |s| <= WIDTH + 2 {
      var inner := s[1..|s| - 1];
      ReadsExactly(inner, |inner|, WIDTH - |inner|);
      assert inner[..|inner|] == inner;
    }
  }

  function NoughtChars(n: nat): string {
    seq(n, _ => '0')
  }

  lemma LastOfThree(a: seq<nat>, b: seq<nat>, d: nat)
    ensures a + (b + [d]) == (a + b) + [d]
  {
  }

  /** Digits without a colon are read one by one. */
  lemma {:induction false} ReadsOn(text: string, more: string, gap: nat)
    requires ':' !in more
    ensures Read(text + more, gap) ==
      if Read(text, gap).None? || Read(more, 0).None? then None else Some(Read(text, gap).value + Read(more, 0).value)
    decreases |more|
  {
    if more == [] {
      assert text + more == text;
      assert Read(text, gap).Some? ==> Read(text, gap).value + [] == Read(text, gap).value;
    } else {
      var n := |more| - 1;
      var front, c := more[..n], more[n];
      assert more == front + [c] && text + more == (text + front) + [c];
      ReadsOn(text, front, gap);
      ReadAppended(text + front, c, gap);
      ReadAppended(front, c, 0);
      if Read(text, gap).Some? && Read(front, 0).Some? && HexValue(c).Some? {
        LastOfThree(Read(text, gap).value, Read(front, 0).value, HexValue(c).value);
      }
    }
  }

  lemma {:induction false} NoughtsRead(n: nat)
    ensures Read(NoughtChars(n), 0) == Some(Zeros(n)) && ':' !in NoughtChars(n)
    decreases n
  {
    if n == 0 {
      assert NoughtChars(0) == [] && Zeros(0) == [];
    } else {
      NoughtsRead(n - 1);
      ReadAppended(NoughtChars(n - 1), '0', 0);
      assert NoughtChars(n) == NoughtChars(n - 1) + ['0'];
      assert Zeros(n) == Zeros(n - 1) + [0];
    }
  }

  /** A colon stands for as many zeros as are missing. */
  lemma ColonIsZeros(left: string, right: string)
    requires ':' !in left && ':' !in right && |left| + |right| < WIDTH
    ensures Meaning("<" + (left + ":" + right) + ">")
         == Meaning("<" + (left + NoughtChars(WIDTH - |left| - |right|) + right) + ">")
  {
    var gap := WIDTH - |left| - |right| - 1;
    var short, full := left + ":" + right, left + NoughtChars(gap + 1) + right;
    assert Read(short, gap) == Read(full, 0) by {
      ReadsOn([], left, gap);
      ReadsOn([], left, 0);
      assert [] + left == left;
      ReadAppended(left, ':', gap);
      ReadsOn(left + ":", right, gap);
      NoughtsRead(gap + 1);
      ReadsOn(left, NoughtChars(gap + 1), 0);
      ReadsOn(left + NoughtChars(gap + 1), right, 0);
    }
    var a, b := "<" + short + ">", "<" + full + ">";
    assert a[1..|a| - 1] == short && b[1..|b| - 1] == full;
  }
}
