/**
 * The time-string parser behind `/seek` and the position arithmetic of
 * `/fastforward` and `/rewind` (cogs/enhanced_commands.py). Positions are
 * milliseconds, as the player reports them; parsed times are seconds.
 */
module EnhancedCommands {
  import opened Wrappers
  import opened Text

  predicate IsUnit(c: char) {
    c == 'h' || c == 'm' || c == 's'
  }

  /** Length of the run of ASCII digits that starts `t`. */
  function DigitRun(t: string): (n: nat)
    ensures n <= |t|
    ensures forall i :: 0 <= i < n ==> IsDigit(t[i])
    ensures n < |t| ==> !IsDigit(t[n])
    decreases |t|
  {
    if t == [] || !IsDigit(t[0]) then 0 else 1 + DigitRun(t[1..])
  }

  /** The seconds a digit run stands for, given the character after it. */
  function UnitValue(value: nat, unit: Option<char>): nat {
    match unit
    case Some('h') => value * 3600
    case Some('m') => value * 60
    case _ => value
  }

  /** The sum `parse_time` accumulates over `re.findall(r'(\d+)([hms]?)', t)`:
      every maximal run of digits, scaled by the unit letter right after it
      (seconds when there is none); everything else is skipped. */
  function UnitSum(t: string): nat
    decreases |t|
  {
    if t == [] then 0
    else if !IsDigit(t[0]) then UnitSum(t[1..])
    else
      var n := DigitRun(t);
      var value := DigitsValue(t[..n]);
      if n < |t| && IsUnit(t[n]) then UnitValue(value, Some(t[n])) + UnitSum(t[n + 1..])
      else UnitValue(value, None) + UnitSum(t[n..])
  }

  /** `parse_time(time_str)`: None where the source raises ValueError.
      The input is stripped and lower-cased first. */
  function TimeValue(timeStr: string): Option<int> {
    TimeOfNormalized(Lower(Strip(timeStr)))
  }

  /** `int(m) * 60 + int(s)`, failing when either part is not an integer. */
  function MinutesSecondsValue(m: string, s: string): Option<int> {
    var mv, sv := ParseInt(m), ParseInt(s);
    if mv.Some? && sv.Some? then Some(mv.value * 60 + sv.value) else None
  }

  /** `int(h) * 3600 + int(m) * 60 + int(s)`, failing when any part is not
      an integer. */
  function HoursMinutesSecondsValue(h: string, m: string, s: string): Option<int> {
    var hv, mv, sv := ParseInt(h), ParseInt(m), ParseInt(s);
    if hv.Some? && mv.Some? && sv.Some? then Some(hv.value * 3600 + mv.value * 60 + sv.value) else None
  }

  function TimeOfNormalized(t: string): Option<int> {
    var parts := Split(t, ":");
    if Contains(t, ":") && |parts| == 2 then MinutesSecondsValue(parts[0], parts[1])
    else if Contains(t, ":") && |parts| == 3 then HoursMinutesSecondsValue(parts[0], parts[1], parts[2])
    else Some(UnitSum(t))
  }

  /** `parse_time`, as the source runs it: the colon forms, then one scan
      over the digit runs. */
  method ParseTime(timeStr: string) returns (r: Option<int>)
    ensures r == TimeValue(timeStr)
  {
    var t := Lower(Strip(timeStr));
    r := ParseNormalized(t);
  }

  method ParseNormalized(t: string) returns (r: Option<int>)
    ensures r == TimeOfNormalized(t)
  {
    if Contains(t, ":") {
      var parts := Split(t, ":");
      if |parts| == 2 {
        return MinutesSecondsValue(parts[0], parts[1]);
      } else if |parts| == 3 {
        return HoursMinutesSecondsValue(parts[0], parts[1], parts[2]);
      }
    }
    var total := SumUnits(t);
    return Some(total);
  }

  lemma HoursMinutesSecondsOf(h: string, m: string, s: string, hv: int, mv: int, sv: int)
    requires ParseInt(h) == Some(hv) && ParseInt(m) == Some(mv) && ParseInt(s) == Some(sv)
    ensures HoursMinutesSecondsValue(h, m, s) == Some(hv * 3600 + mv * 60 + sv)
  {
  }

  /** The loop over `re.findall(r'(\d+)([hms]?)', t)`. */
  method SumUnits(t: string) returns (total: nat)
    ensures total == UnitSum(t)
  {
    total := 0;
    var i := 0;
    while i < |t|
      invariant 0 <= i <= |t|
      invariant total + UnitSum(t[i..]) == UnitSum(t)
    {
      if !IsDigit(t[i]) {
        assert t[i..][1..] == t[i + 1..];
        i := i + 1;
      } else {
        var j := i;
        while j < |t| && IsDigit(t[j])
          invariant i <= j <= |t|
          invariant forall k :: i <= k < j ==> IsDigit(t[k])
        {
          j := j + 1;
        }
        ghost var u := t[i..];
        DigitRunIs(u, j - i);
        assert u[..j - i] == t[i..j];
        var value := DigitsValue(t[i..j]);
        if j < |t| && IsUnit(t[j]) {
          assert u[j - i + 1..] == t[j + 1..];
          var unit := t[j];
          if unit == 'h' {
            total := total + value * 3600;
          } else if unit == 'm' {
            total := total + value * 60;
          } else {
            total := total + value;
          }
          i := j + 1;
        } else {
          assert u[j - i..] == t[j..];
          total := total + value;
          i := j;
        }
      }
    }
  }

  lemma DigitRunIs(t: string, n: nat)
    requires n <= |t|
    requires forall i :: 0 <= i < n ==> IsDigit(t[i])
    requires n < |t| ==> !IsDigit(t[n])
    ensures DigitRun(t) == n
  {
  }

  // ---------------------------------------------------------------------------
  // Properties of the parser

  /** Text with no digits adds up to zero. */
  lemma {:induction false} UnitSumNoDigits(t: string)
    requires forall i :: 0 <= i < |t| ==> !IsDigit(t[i])
    ensures UnitSum(t) == 0
    decreases |t|
  {
    if t != [] { UnitSumNoDigits(t[1..]); }
  }

  /** The digit scan is additive over a split between two runs. */
  lemma {:induction false} UnitSumConcat(a: string, b: string)
    requires a != [] && IsDigit(a[|a| - 1]) ==> b != [] && !IsDigit(b[0]) && !IsUnit(b[0])
    ensures UnitSum(a + b) == UnitSum(a) + UnitSum(b)
    decreases |a|
  {
    if a == [] {
      assert a + b == b;
    } else {
      var s := a + b;
      if !IsDigit(a[0]) {
        assert s[1..] == a[1..] + b;
        UnitSumConcat(a[1..], b);
      } else {
        var n := DigitRun(a);
        if n < |a| {
          DigitRunIs(s, n);
          assert s[..n] == a[..n];
          if IsUnit(a[n]) {
            assert s[n + 1..] == a[n + 1..] + b;
            UnitSumConcat(a[n + 1..], b);
          } else {
            assert s[n..] == a[n..] + b;
            UnitSumConcat(a[n..], b);
          }
        } else {
          DigitRunIs(s, n);
          assert s[..n] == a && s[n..] == b && a[n..] == [];
          assert s[n] == b[0] && !IsUnit(s[n]);
          assert a[..n] == a;
        }
      }
    }
  }

  /** A lone run of digits counts as seconds, and a run followed by a unit
      letter is scaled by it. */
  lemma UnitSumOfRun(digits: string, unit: Option<char>)
    requires |digits| > 0 && forall i :: 0 <= i < |digits| ==> IsDigit(digits[i])
    requires unit.Some? ==> IsUnit(unit.value)
    ensures UnitSum(digits + (if unit.Some? then [unit.value] else [])) ==
            UnitValue(DigitsValue(digits), unit)
  {
    var s := digits + (if unit.Some? then [unit.value] else []);
    DigitRunIs(s, |digits|);
    assert s[..|digits|] == digits;
    if unit.Some? {
      assert s[|digits| + 1..] == [];
    } else {
      assert s[|digits|..] == [];
    }
  }

  /** Input with neither digits nor a colon parses as zero seconds. */
  lemma NoDigitsIsZero(timeStr: string)
    requires forall i :: 0 <= i < |timeStr| ==> !IsDigit(timeStr[i]) && timeStr[i] != ':'
    ensures TimeValue(timeStr) == Some(0)
  {
    var st := Strip(timeStr);
    StripChars(timeStr);
    var t := Lower(st);
    forall i | 0 <= i < |t| ensures !IsDigit(t[i]) && t[i] != ':' {
      assert st[i] in timeStr;
    }
    NoCharNoContains(t, ':');
    UnitSumNoDigits(t);
  }

  /** Parsing ignores surrounding whitespace and case: normalising first
      changes nothing. */
  lemma NormalizingIsIdempotent(timeStr: string)
    ensures TimeValue(Lower(Strip(timeStr))) == TimeValue(timeStr)
  {
    var t := Lower(Strip(timeStr));
    LowerStripped(timeStr);
    LowerIdempotent(Strip(timeStr));
    assert TimeValue(t) == TimeOfNormalized(Lower(t));
  }

  /** `m:s` with no further colon is `60 m + s`, and fails when either part
      is not an integer. */
  lemma MinutesSeconds(a: string, b: string)
    requires !Contains(a, ":") && !Contains(b, ":")
    ensures TimeOfNormalized(a + ":" + b) == MinutesSecondsValue(a, b)
  {
    var s := a + ":" + b;
    SplitAtColon(a, b);
    SplitNoColon(b);
    assert Split(s, ":") == [a, b];
    OccursAtGivesContains(s, ":", |a|);
  }

  /** `h:m:s` with no further colon is `3600 h + 60 m + s`, and fails when
      any part is not an integer. */
  lemma HoursMinutesSeconds(a: string, b: string, c: string)
    requires !Contains(a, ":") && !Contains(b, ":") && !Contains(c, ":")
    ensures TimeOfNormalized(a + ":" + b + ":" + c) == HoursMinutesSecondsValue(a, b, c)
  {
    var s := a + ":" + b + ":" + c;
    assert s == a + ":" + (b + ":" + c);
    SplitAtColon(a, b + ":" + c);
    SplitAtColon(b, c);
    SplitNoColon(c);
    assert Split(s, ":") == [a, b, c];
    OccursAtGivesContains(s, ":", |a|);
  }

  lemma SplitAtColon(a: string, b: string)
    requires !Contains(a, ":")
    ensures Split(a + ":" + b, ":") == [a] + Split(b, ":")
  {
    var s := a + ":" + b;
    assert OccursAt(s, ":", |a|);
    var f := Find(s, ":");
    assert f.Some?;
    if f.value < |a| {
      assert s[f.value..f.value + 1] == a[f.value..f.value + 1];
      OccursAtGivesContains(a, ":", f.value);
    }
    assert f == Some(|a|);
    assert s[..|a|] == a && s[|a| + 1..] == b;
  }

  lemma SplitNoColon(b: string)
    requires !Contains(b, ":")
    ensures Split(b, ":") == [b]
  {
  }

  // ---------------------------------------------------------------------------
  // Seeking

  datatype SeekError = InvalidFormat | OutOfRange

  /** `/seek position`: the millisecond position handed to the player, or
      why the command refuses. `lengthMs` is the current track's length. */
  function SeekTarget(position: string, lengthMs: int): (r: Result<int, SeekError>)
    ensures r.Ok? ==> 0 <= r.value <= lengthMs && r.value % 1000 == 0
    ensures r.Ok? <==> TimeValue(position).Some? && 0 <= TimeValue(position).value * 1000 <= lengthMs
    ensures r.Ok? ==> r.value == TimeValue(position).value * 1000
    ensures r == Err(InvalidFormat) <==> TimeValue(position).None?
  {
    match TimeValue(position)
    case None => Err(InvalidFormat)
    case Some(seconds) =>
      if seconds < 0 || seconds * 1000 > lengthMs then Err(OutOfRange) else Ok(seconds * 1000)
  }

  /** `/fastforward seconds`: never past the end of the track. */
  function FastForwardTarget(positionMs: int, seconds: int, lengthMs: int): (r: int)
    ensures r <= lengthMs
    ensures r <= positionMs + seconds * 1000
    ensures r == lengthMs || r == positionMs + seconds * 1000
  {
    if positionMs + seconds * 1000 < lengthMs then positionMs + seconds * 1000 else lengthMs
  }

  /** `/rewind seconds`: never before the start of the track. */
  function RewindTarget(positionMs: int, seconds: int): (r: int)
    ensures r >= 0
    ensures r >= positionMs - seconds * 1000
    ensures r == 0 || r == positionMs - seconds * 1000
  {
    if positionMs - seconds * 1000 > 0 then positionMs - seconds * 1000 else 0
  }
}
