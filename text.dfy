/**
 * The handful of Python string and sequence built-ins that the bot's code
 * leans on: `in` on strings, `str.split`, `str.strip`, `str.lower`, `int()`,
 * `str()` of an integer, string repetition and the index rules of slicing,
 * `list.pop` and `list.insert`.
 */
module Text {
  import opened Wrappers

  predicate IsDigit(c: char) { '0' <= c <= '9' }

  predicate IsAsciiLetter(c: char) { 'a' <= c <= 'z' || 'A' <= c <= 'Z' }

  /** The character class `[a-zA-Z0-9]`. */
  predicate IsAsciiAlnum(c: char) { IsDigit(c) || IsAsciiLetter(c) }

  /** Python's `str.isspace` on one character: the characters `str.strip()` removes. */
  predicate IsSpace(c: char) {
    || c == ' ' || ('\t' <= c <= '\r') || ('\U{1c}' <= c <= '\U{1f}')
    || c == '\U{85}' || c == '\U{a0}' || c == '\U{1680}'
    || ('\U{2000}' <= c <= '\U{200a}') || c == '\U{2028}' || c == '\U{2029}'
    || c == '\U{202f}' || c == '\U{205f}' || c == '\U{3000}'
  }

  function LowerChar(c: char): char {
    if 'A' <= c <= 'Z' then (c as int + 32) as char else c
  }

  /** `str.lower()` on the ASCII letters. */
  function Lower(s: string): (r: string)
    ensures |r| == |s|
  {
    seq(|s|, i requires 0 <= i < |s| => LowerChar(s[i]))
  }

  // ---------------------------------------------------------------------------
  // Substrings

  predicate OccursAt(s: string, sub: string, i: int) {
    0 <= i && i + |sub| <= |s| && s[i..i + |sub|] == sub
  }

  /** The first index at or after `from` where `sub` occurs in `s`. */
  function FindFrom(s: string, sub: string, from: nat): (r: Option<nat>)
    ensures r.Some? ==> from <= r.value && OccursAt(s, sub, r.value)
    ensures r.Some? ==> forall j :: from <= j < r.value ==> !OccursAt(s, sub, j)
    ensures r.None? ==> forall j :: from <= j ==> !OccursAt(s, sub, j)
    decreases |s| - from
  {
    if from + |sub| > |s| then None
    else if s[from..from + |sub|] == sub then Some(from)
    else FindFrom(s, sub, from + 1)
  }

  function Find(s: string, sub: string): Option<nat> {
    FindFrom(s, sub, 0)
  }

  /** Python's `sub in s`. */
  predicate Contains(s: string, sub: string) {
    Find(s, sub).Some?
  }

  lemma ContainsIff(s: string, sub: string)
    ensures Contains(s, sub) <==> exists i :: OccursAt(s, sub, i)
  {
    if !Contains(s, sub) {
      forall i ensures !OccursAt(s, sub, i) {
        if i >= 0 { assert 0 <= i; }
      }
    }
  }

  lemma OccursAtGivesContains(s: string, sub: string, i: int)
    requires OccursAt(s, sub, i)
    ensures Contains(s, sub)
  {
    ContainsIff(s, sub);
  }

  // ---------------------------------------------------------------------------
  // str.split(sep) and its inverse

  /** Python's `s.split(sep)` for a non-empty separator. */
  function Split(s: string, sep: string): (parts: seq<string>)
    requires |sep| > 0
    ensures |parts| >= 1
    decreases |s|
  {
    match Find(s, sep)
    case None => [s]
    case Some(i) => [s[..i]] + Split(s[i + |sep|..], sep)
  }

  /** Python's `sep.join(parts)`. */
  function Join(parts: seq<string>, sep: string): string
    decreases |parts|
  {
    if |parts| == 0 then ""
    else if |parts| == 1 then parts[0]
    else parts[0] + sep + Join(parts[1..], sep)
  }

  /** Splitting and joining again gives the string back. */
  lemma {:induction false} JoinSplit(s: string, sep: string)
    requires |sep| > 0
    ensures Join(Split(s, sep), sep) == s
    decreases |s|
  {
    var f := Find(s, sep);
    if f.Some? {
      var i := f.value;
      var rest := s[i + |sep|..];
      var tail := Split(rest, sep);
      JoinSplit(rest, sep);
      var parts := Split(s, sep);
      assert parts == [s[..i]] + tail;
      assert Join(parts, sep) == s[..i] + sep + Join(tail, sep) by {
        assert parts[1..] == tail;
      }
      assert s == s[..i] + sep + rest by {
        assert OccursAt(s, sep, i);
      }
    }
  }

  /** No piece of a split contains the separator. */
  lemma {:induction false} SplitPiecesAvoidSep(s: string, sep: string)
    requires |sep| > 0
    ensures forall k :: 0 <= k < |Split(s, sep)| ==> !Contains(Split(s, sep)[k], sep)
    decreases |s|
  {
    match Find(s, sep)
    case None =>
    case Some(i) =>
      SplitPiecesAvoidSep(s[i + |sep|..], sep);
      var head := s[..i];
      if Contains(head, sep) {
        var j := Find(head, sep).value;
        assert head[j..j + |sep|] == s[j..j + |sep|];
        assert OccursAt(s, sep, j);
        assert false;
      }
  }

  /** The last piece of a split contains no separator and is what follows the last one. */
  function Last<T>(s: seq<T>): T
    requires |s| > 0
  {
    s[|s| - 1]
  }

  /** `a` ends `b`. */
  predicate IsSuffix(a: string, b: string) {
    |a| <= |b| && b[|b| - |a|..] == a
  }

  /** The first piece of a split starts the string. */
  lemma SplitFirstIsPrefix(s: string, sep: string)
    requires |sep| > 0
    ensures Split(s, sep)[0] <= s
  {
  }

  /** The last piece of a split ends the string. */
  lemma {:induction false} SplitLastIsSuffix(s: string, sep: string)
    requires |sep| > 0
    ensures IsSuffix(Last(Split(s, sep)), s)
    decreases |s|
  {
    match Find(s, sep)
    case None =>
    case Some(i) =>
      var rest := s[i + |sep|..];
      SplitLastIsSuffix(rest, sep);
      assert Split(s, sep) == [s[..i]] + Split(rest, sep);
      var p := Last(Split(rest, sep));
      assert Last(Split(s, sep)) == p;
      assert s[|s| - |p|..] == rest[|rest| - |p|..];
  }

  /** What a string avoids, its prefixes avoid too. */
  lemma PrefixAvoids(a: string, b: string, sub: string)
    requires a <= b && !Contains(b, sub)
    ensures !Contains(a, sub)
  {
    forall k | OccursAt(a, sub, k) ensures OccursAt(b, sub, k) {
      assert b[k..k + |sub|] == a[k..k + |sub|];
    }
    ContainsIff(a, sub);
    ContainsIff(b, sub);
  }

  /** A string without the character `c` does not contain it. */
  lemma NoCharNoContains(t: string, c: char)
    requires forall i :: 0 <= i < |t| ==> t[i] != c
    ensures !Contains(t, [c])
  {
    forall k | 0 <= k && k + 1 <= |t|
      ensures !OccursAt(t, [c], k)
    {
      assert t[k..k + 1][0] == t[k];
    }
  }

  /** With a one-character separator, the last piece of `a + sep + b` is `b`
      when `b` holds no separator. */
  lemma {:induction false} LastPieceAfter(a: string, sep: string, b: string)
    requires |sep| == 1 && !Contains(b, sep)
    ensures Last(Split(a + sep + b, sep)) == b
    decreases |a|
  {
    var s := a + sep + b;
    assert OccursAt(s, sep, |a|);
    var i := Find(s, sep).value;
    if i < |a| {
      assert s[i + 1..] == a[i + 1..] + sep + b;
      LastPieceAfter(a[i + 1..], sep, b);
    } else {
      assert s[i + 1..] == b;
    }
  }

  /** With a one-character separator absent from `a`, the first separator
      of `a + sep + b` is the one after `a`. */
  lemma FirstSepAfter(a: string, sep: string, b: string)
    requires |sep| == 1 && !Contains(a, sep)
    ensures Find(a + sep + b, sep) == Some(|a|)
  {
    var s := a + sep + b;
    assert OccursAt(s, sep, |a|);
    var i := Find(s, sep).value;
    if i < |a| {
      assert a[i..i + 1] == s[i..i + 1];
      OccursAtGivesContains(a, sep, i);
    }
  }

  /** Joining pieces free of a one-character separator and splitting again
      gives the pieces back. */
  lemma {:induction false} SplitJoin(parts: seq<string>, sep: string)
    requires |sep| == 1 && |parts| >= 1
    requires forall k :: 0 <= k < |parts| ==> !Contains(parts[k], sep)
    ensures Split(Join(parts, sep), sep) == parts
    decreases |parts|
  {
    if |parts| > 1 {
      var rest := Join(parts[1..], sep);
      var s := parts[0] + sep + rest;
      assert Join(parts, sep) == s;
      FirstSepAfter(parts[0], sep, rest);
      assert s[..|parts[0]|] == parts[0];
      assert s[|parts[0]| + 1..] == rest;
      SplitJoin(parts[1..], sep);
      assert parts == [parts[0]] + parts[1..];
    }
  }

  /** A string holding `long` holds each prefix of it. */
  lemma OccursInLonger(s: string, long: string, short: string)
    requires Contains(s, long) && short <= long
    ensures Contains(s, short)
  {
    var k := Find(s, long).value;
    assert s[k..k + |short|] == s[k..k + |long|][..|short|];
    OccursAtGivesContains(s, short, k);
  }

  // ---------------------------------------------------------------------------
  // str.strip()

  function StripLeft(s: string): (r: string)
    ensures |r| <= |s| && r == s[|s| - |r|..]
    ensures r == "" || !IsSpace(r[0])
    decreases |s|
  {
    if |s| > 0 && IsSpace(s[0]) then StripLeft(s[1..]) else s
  }

  function StripRight(s: string): (r: string)
    ensures |r| <= |s| && r == s[..|r|]
    ensures r == "" || !IsSpace(r[|r| - 1])
    decreases |s|
  {
    if |s| > 0 && IsSpace(s[|s| - 1]) then StripRight(s[..|s| - 1]) else s
  }

  /** Python's `s.strip()`. */
  function Strip(s: string): string {
    StripRight(StripLeft(s))
  }

  /** The non-whitespace characters of `s`, in order. */
  function NonSpace(s: string): (r: string)
    decreases |s|
  {
    if |s| == 0 then ""
    else NonSpace(s[..|s| - 1]) + (if IsSpace(s[|s| - 1]) then "" else [s[|s| - 1]])
  }

  lemma {:induction false} NonSpaceConcat(a: string, b: string)
    ensures NonSpace(a + b) == NonSpace(a) + NonSpace(b)
    decreases |b|
  {
    if |b| == 0 {
      assert a + b == a;
    } else {
      var b' := b[..|b| - 1];
      assert (a + b)[..|a + b| - 1] == a + b';
      NonSpaceConcat(a, b');
    }
  }

  lemma {:induction false} NonSpaceOfSpaces(s: string)
    requires forall i :: 0 <= i < |s| ==> IsSpace(s[i])
    ensures NonSpace(s) == ""
    decreases |s|
  {
    if |s| > 0 { NonSpaceOfSpaces(s[..|s| - 1]); }
  }

  /** Stripping only removes whitespace. */
  lemma StripKeepsNonSpace(s: string)
    ensures NonSpace(Strip(s)) == NonSpace(s)
  {
    StripLeftKeepsNonSpace(s);
    StripRightKeepsNonSpace(StripLeft(s));
  }

  lemma {:induction false} StripLeftKeepsNonSpace(s: string)
    ensures NonSpace(StripLeft(s)) == NonSpace(s)
    decreases |s|
  {
    if |s| > 0 && IsSpace(s[0]) {
      StripLeftKeepsNonSpace(s[1..]);
      assert StripLeft(s) == StripLeft(s[1..]);
      assert s == [s[0]] + s[1..];
      NonSpaceConcat([s[0]], s[1..]);
      NonSpaceOfSpaces([s[0]]);
      assert NonSpace(s) == NonSpace(s[1..]);
    }
  }

  lemma {:induction false} StripRightKeepsNonSpace(s: string)
    ensures NonSpace(StripRight(s)) == NonSpace(s)
    decreases |s|
  {
    if |s| > 0 && IsSpace(s[|s| - 1]) {
      StripRightKeepsNonSpace(s[..|s| - 1]);
    }
  }

  /** Strip of a string with no whitespace at either end is the identity. */
  lemma StripNoEdgeSpace(s: string)
    requires s != [] ==> !IsSpace(s[0]) && !IsSpace(s[|s| - 1])
    ensures Strip(s) == s
  {
  }

  /** Stripping only removes characters. */
  lemma StripChars(s: string)
    ensures forall i :: 0 <= i < |Strip(s)| ==> Strip(s)[i] in s
  {
    var l := StripLeft(s);
    var r := StripRight(l);
    forall i | 0 <= i < |r| ensures r[i] in s {
      assert r[i] == l[i] == s[|s| - |l| + i];
    }
  }

  /** A stripped string, lower-cased, has nothing left to strip. */
  lemma LowerStripped(s: string)
    ensures Strip(Lower(Strip(s))) == Lower(Strip(s))
  {
    var u := Strip(s);
    var l := StripLeft(s);
    if u != [] {
      assert u[0] == l[0];
    }
    StripNoEdgeSpace(Lower(u));
  }

  lemma LowerIdempotent(s: string)
    ensures Lower(Lower(s)) == Lower(s)
  {
  }

  // ---------------------------------------------------------------------------
  // String repetition, integer rendering and int()

  /** Python's `c * n`: empty when `n <= 0`. */
  function Repeat(c: char, n: int): (r: string)
    ensures |r| == if n < 0 then 0 else n
    ensures forall i :: 0 <= i < |r| ==> r[i] == c
  {
    seq(if n < 0 then 0 else n, _ => c)
  }

  function DigitChar(d: nat): char
    requires d < 10
  {
    ('0' as int + d) as char
  }

  /** Python's `str(n)` for a natural number. */
  function NatToString(n: nat): (r: string)
    ensures |r| >= 1
    ensures forall i :: 0 <= i < |r| ==> IsDigit(r[i])
    decreases n
  {
    if n < 10 then [DigitChar(n)] else NatToString(n / 10) + [DigitChar(n % 10)]
  }

  /** Python's `str(i)` for an integer. */
  function IntToString(i: int): string {
    if i < 0 then "-" + NatToString(-i) else NatToString(i)
  }

  /** `"%02d" % n` for 0 <= n < 100. */
  function TwoDigits(n: nat): (r: string)
    requires n < 100
    ensures |r| == 2
  {
    [DigitChar(n / 10), DigitChar(n % 10)]
  }

  function DigitsValue(s: string): nat
    requires forall i :: 0 <= i < |s| ==> IsDigit(s[i])
    decreases |s|
  {
    if |s| == 0 then 0
    else
      assert IsDigit(s[|s| - 1]);
      DigitsValue(s[..|s| - 1]) * 10 + (s[|s| - 1] as int - '0' as int)
  }

  lemma {:induction false} DigitsValueOfNatToString(n: nat)
    ensures DigitsValue(NatToString(n)) == n
    decreases n
  {
    if n >= 10 {
      var r := NatToString(n);
      DigitsValueOfNatToString(n / 10);
      assert r[..|r| - 1] == NatToString(n / 10);
    }
  }

  function DigitOf(c: char): nat
    requires IsDigit(c)
  {
    c as int - '0' as int
  }

  /** What Python's `int()` makes of the text after the sign: the value of
      a run of digits that may hold single underscores between digits, and
      None for anything else (empty, leading or trailing or doubled
      underscores, any other character). */
  function BodyValue(b: string): Option<nat>
    decreases |b|
  {
    if |b| == 0 || !IsDigit(b[|b| - 1]) then None
    else if |b| == 1 then Some(DigitOf(b[0]))
    else
      var pre := if b[|b| - 2] == '_' then b[..|b| - 2] else b[..|b| - 1];
      match BodyValue(pre)
      case None => None
      case Some(v) => Some(v * 10 + DigitOf(b[|b| - 1]))
  }

  /** On plain digits the body value is the decimal value. */
  lemma {:induction false} BodyValueOfDigits(s: string)
    requires |s| > 0 && forall i :: 0 <= i < |s| ==> IsDigit(s[i])
    ensures BodyValue(s) == Some(DigitsValue(s))
    decreases |s|
  {
    if |s| > 1 {
      assert IsDigit(s[|s| - 2]);
      BodyValueOfDigits(s[..|s| - 1]);
    }
  }

  /** Python's `int(s)` on a string: `None` where Python raises ValueError. */
  function ParseInt(s: string): Option<int> {
    ParseStripped(Strip(s))
  }

  /** `int()` on a string that has already lost its surrounding whitespace. */
  function ParseStripped(t: string): Option<int> {
    if |t| > 0 && (t[0] == '-' || t[0] == '+') then
      match BodyValue(t[1..])
      case None => None
      case Some(v) => Some(if t[0] == '-' then -(v as int) else v)
    else
      match BodyValue(t)
      case None => None
      case Some(v) => Some(v)
  }

  lemma NatDigitsParse(n: nat)
    ensures BodyValue(NatToString(n)) == Some(n)
  {
    DigitsValueOfNatToString(n);
    BodyValueOfDigits(NatToString(n));
  }

  /** `int(str(i)) == i`. */
  lemma ParseIntToString(i: int)
    ensures ParseInt(IntToString(i)) == Some(i)
  {
    var s := IntToString(i);
    if i < 0 {
      var n: nat := -i;
      assert s == "-" + NatToString(n);
      ParseNegative(n);
      assert ParseInt(s) == Some(-(n as int));
    } else {
      assert s == NatToString(i);
      ParseNatural(i);
    }
  }

  /** A text that starts with a digit carries no sign: `int()` takes its body value. */
  lemma UnsignedBody(t: string, v: nat)
    requires |t| > 0 && IsDigit(t[0]) && BodyValue(t) == Some(v)
    ensures ParseStripped(t) == Some(v)
  {
  }

  /** A leading minus negates the body value. */
  lemma NegatedBody(t: string, v: nat)
    requires |t| > 0 && t[0] == '-' && BodyValue(t[1..]) == Some(v)
    ensures ParseStripped(t) == Some(-(v as int))
  {
  }

  /** A digit string with a body value parses to that value. */
  lemma ParseUnsigned(s: string, v: nat)
    requires |s| > 0 && IsDigit(s[0]) && IsDigit(s[|s| - 1]) && BodyValue(s) == Some(v)
    ensures ParseInt(s) == Some(v)
  {
    StripNoEdgeSpace(s);
    UnsignedBody(s, v);
  }

  /** A minus sign followed by a body with value v parses to -v. */
  lemma ParseMinus(s: string, v: nat)
    requires |s| > 1 && s[0] == '-' && IsDigit(s[|s| - 1]) && BodyValue(s[1..]) == Some(v)
    ensures ParseInt(s) == Some(-(v as int))
  {
    StripNoEdgeSpace(s);
    NegatedBody(s, v);
  }

  lemma ParseNatural(n: nat)
    ensures ParseInt(NatToString(n)) == Some(n)
  {
    var s := NatToString(n);
    NatDigitsParse(n);
    ParseUnsigned(s, n);
  }

  lemma ParseNegative(n: nat)
    requires n > 0
    ensures ParseInt("-" + NatToString(n)) == Some(-(n as int))
  {
    var d := NatToString(n);
    var s := "-" + d;
    assert s[1..] == d;
    NatDigitsParse(n);
    ParseMinus(s, n);
  }

  /** `int("%02d" % n) == n`. */
  lemma ParseTwoDigits(n: nat)
    requires n < 100
    ensures ParseInt(TwoDigits(n)) == Some(n)
  {
    var t := TwoDigits(n);
    assert t[..1] == [DigitChar(n / 10)];
    assert BodyValue(t[..1]) == Some(n / 10);
    assert BodyValue(t) == Some(n);
    ParseUnsigned(t, n);
  }

  // ---------------------------------------------------------------------------
  // Bounds on floor division

  lemma MulCancel(x: int, y: int, d: int)
    requires d > 0 && x * d <= y * d
    ensures x <= y
  {
  }

  /** `a <= k d` gives `a // d <= k`. */
  lemma DivBelow(a: int, d: int, k: int)
    requires d > 0 && a <= k * d
    ensures a / d <= k
  {
    var q := a / d;
    assert q * d <= a;
    MulCancel(q, k, d);
  }

  /** `a >= k d` gives `a // d >= k`. */
  lemma DivAbove(a: int, d: int, k: int)
    requires d > 0 && a >= k * d
    ensures a / d >= k
  {
    var q := a / d;
    assert a < (q + 1) * d;
    MulCancel(k, q + 1, d);
    if k == q + 1 { }
  }

  lemma MulMono(x: int, y: int, d: int)
    requires x <= y && d >= 0
    ensures x * d <= y * d
  {
  }

  lemma MulDistrib(q: int, n: int)
    ensures (q + 1) * n == q * n + n
  {
  }

  /** Quotient and remainder are the only ones: `a == q n + r` with
      `0 <= r < n` fixes `a // n` and `a % n`. */
  lemma ModUnique(a: int, n: int, q: int, r: int)
    requires n > 0 && 0 <= r < n && a == q * n + r
    ensures a / n == q && a % n == r
  {
    var q', r' := a / n, a % n;
    assert a == q' * n + r' && 0 <= r' < n;
    if q' < q {
      MulMono(q' + 1, q, n);
      MulDistrib(q', n);
    } else if q' > q {
      MulMono(q + 1, q', n);
      MulDistrib(q, n);
    }
  }

  /** `a < k d` gives `a // d < k`. */
  lemma DivBelowStrict(a: int, d: int, k: int)
    requires d > 0 && a < k * d
    ensures a / d < k
  {
    var q := a / d;
    assert q * d <= a;
    if q >= k {
      MulMono(k, q, d);
    }
  }

  /** `int(x)` of a quotient: rounds toward zero. */
  function TruncDiv(a: int, b: int): (q: int)
    requires b != 0
    ensures a >= 0 && b > 0 ==> q == a / b
  {
    if (a >= 0) == (b > 0) then (if a >= 0 then a / b else (-a) / (-b))
    else -((if a >= 0 then a else -a) / (if b > 0 then b else -b))
  }

  // ---------------------------------------------------------------------------
  // Python index rules

  /** The position Python uses for a slice bound, or for `list.insert(k, x)`,
      on a sequence of length n: negative k counts from the end, and the
      result is clamped to [0, n]. */
  function Clamp(k: int, n: nat): (b: nat)
    ensures b <= n
    ensures 0 <= k <= n ==> b == k
    ensures k < 0 && n + k >= 0 ==> b == n + k
  {
    if k < 0 then (if n + k < 0 then 0 else n + k) else if k > n then n else k
  }

  /** `s[k:]`. */
  function SliceFrom<T>(s: seq<T>, k: int): seq<T> {
    s[Clamp(k, |s|)..]
  }

  /** `s[:k]`. */
  function SliceTo<T>(s: seq<T>, k: int): seq<T> {
    s[..Clamp(k, |s|)]
  }

  /** The position `s[i]` or `s.pop(i)` reads; None where Python raises IndexError. */
  function PyIndex(i: int, n: nat): (r: Option<nat>)
    ensures r.Some? <==> 0 <= n + i && i < n
    ensures r.Some? ==> r.value < n && (r.value == i || r.value == n + i)
  {
    if 0 <= i < n then Some(i) else if i < 0 && n + i >= 0 then Some(n + i) else None
  }
}
