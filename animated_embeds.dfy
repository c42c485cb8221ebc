/**
 * The string shapes of the `ProgressBarGenerator` bars in
 * utils/animated_embeds.py: the basic bar, the animated bar with one moving
 * mark, and the gradient bar with a partial cell. Positions are whole numbers
 * here; the fraction `current / total` is kept exact.
 */
module AnimatedBars {
  import opened Text
  import opened Embeds

  const Full := '▰'
  const Hollow := '▱'
  const Block := '█'

  /** The frames of the moving mark, indexed by `frame % 4`. */
  const AnimationChars: seq<char> := ['▰', '▬', '▰', '▱']

  /** The partial-cell shades, from empty to full. */
  const Gradient: seq<char> := ['▱', '▒', '▓', '█']

  /** `create_basic_progress`: the clamped bar with the caller's characters. */
  function BasicProgress(current: int, total: int, length: int, filled: char, empty: char): (r: string)
    ensures |r| == if length < 0 then 0 else length
    ensures total <= 0 ==> forall i :: 0 <= i < |r| ==> r[i] == empty
    ensures total > 0 ==> MarksSplitAt(r, FilledCount(current, total, length), filled, empty)
  {
    var r := ClampedBar(current, total, length, filled, empty);
    if total > 0 then
      var n := FilledCount(current, total, length);
      assert r == Repeat(filled, n) + Repeat(empty, length - n);
      r
    else r
  }

  /** `create_animated_progress`: the basic bar in '▰'/'▱', with the cell
      right after the filled part replaced by the current animation frame
      when that cell lies strictly inside the bar. */
  method AnimatedProgress(current: int, total: int, frame: int, length: int) returns (r: string)
    ensures |r| == if length < 0 then 0 else length
    ensures total <= 0 ==> forall i :: 0 <= i < |r| ==> r[i] == Hollow
    ensures total > 0 ==>
              var n := FilledCount(current, total, length);
              && (forall i :: 0 <= i < n ==> r[i] == Full)
              && (forall i :: n < i < |r| ==> r[i] == Hollow)
              && (n < |r| ==> r[n] == if n > 0 then AnimationChars[frame % 4] else Hollow)
    ensures frame % 4 == 3 ==> r == BasicProgress(current, total, length, Full, Hollow)
  {
    if total <= 0 {
      return Repeat(Hollow, length);
    }
    var n := FilledCount(current, total, length);
    var bar := Repeat(Full, n) + Repeat(Hollow, length - n);
    assert bar == ClampedBar(current, total, length, Full, Hollow);
    if n < length && n > 0 {
      bar := bar[n := AnimationChars[frame % 4]];
    }
    r := bar;
  }

  /** Cell `i` of the gradient bar. `a / t` is `progress * length`: cells
      below its truncation are full, the cell at it shows the fractional part
      in quarters when there is one, and the rest are empty. */
  function GradientCell(i: int, a: int, t: int): (c: char)
    requires t > 0
    ensures i < TruncDiv(a, t) ==> c == Block
    ensures i > TruncDiv(a, t) ==> c == Hollow
    ensures i == TruncDiv(a, t) && a % t == 0 ==> c == Hollow
    ensures c in Gradient
  {
    var filled := TruncDiv(a, t);
    if i < filled then Block
    else if i == filled && a % t > 0 then
      var partial := (a % t) * 4 / t;
      Gradient[if partial < 3 then partial else 3]
    else Hollow
  }

  /** `create_gradient_progress`, built cell by cell as the source does. */
  method GradientProgress(current: int, total: int, length: int) returns (r: string)
    ensures |r| == if length < 0 then 0 else length
    ensures total <= 0 ==> forall i :: 0 <= i < |r| ==> r[i] == Hollow
    ensures total > 0 ==> forall i :: 0 <= i < |r| ==> r[i] == GradientCell(i, current * length, total)
    ensures total > 0 ==> forall i :: 0 <= i < |r| && i < TruncDiv(current * length, total) ==> r[i] == Block
    ensures forall i :: 0 <= i < |r| ==> r[i] in Gradient
  {
    if total <= 0 {
      return Repeat(Hollow, length);
    }
    var a := current * length;
    var bar: seq<char> := [];
    var i := 0;
    while i < length
      invariant 0 <= i && |bar| == i && (length >= 0 ==> i <= length) && (length < 0 ==> i == 0)
      invariant forall j :: 0 <= j < i ==> bar[j] == GradientCell(j, a, total)
      invariant forall j :: 0 <= j < i ==> bar[j] in Gradient
    {
      var c := GradientCell(i, a, total);
      bar := bar + [c];
      i := i + 1;
    }
    r := bar;
  }
}
