/**
 * The text handling of integrations/lyrics.py: cutting lyrics into
 * embed-sized chunks (`_split_lyrics`), the fallback of `_clean_lyrics`,
 * and the page cycling of `LyricsView`.
 */
module Lyrics {
  import opened Wrappers
  import opened Text

  // ---------------------------------------------------------------------------
  // _split_lyrics

  /** The state of the line loop: the chunks so far and the chunk being built. */
  datatype Chunking = Chunking(chunks: seq<string>, current: string)

  /** The pieces of exactly `max` characters the inner loop cuts off an
      over-long line. */
  function Pieces(line: string, max: nat): seq<string>
    requires max > 0
    decreases |line|
  {
    if |line| > max then [line[..max]] + Pieces(line[max..], max) else []
  }

  /** What remains of the line after the inner loop. */
  function Rest(line: string, max: nat): (r: string)
    requires max > 0
    ensures |r| <= max
    decreases |line|
  {
    if |line| > max then Rest(line[max..], max) else line
  }

  /** One turn of the line loop. */
  function Step(st: Chunking, line: string, max: nat): Chunking
    requires max > 0
  {
    if |st.current| + |line| + 1 > max then
      if st.current != "" then Chunking(st.chunks + [Strip(st.current)], line + "\n")
      else Chunking(st.chunks + Pieces(line, max), Rest(line, max) + "\n")
    else Chunking(st.chunks, st.current + line + "\n")
  }

  /** The line loop over `lines`. */
  function Fold(lines: seq<string>, max: nat): Chunking
    requires max > 0
    decreases |lines|
  {
    if lines == [] then Chunking([], "")
    else Step(Fold(lines[..|lines| - 1], max), lines[|lines| - 1], max)
  }

  /** What `_split_lyrics(lyrics, max_length)` returns. */
  function SplitLyrics(lyrics: string, max: nat): seq<string>
    requires max > 0
  {
    if |lyrics| <= max then [lyrics]
    else
      var st := Fold(Split(lyrics, "\n"), max);
      if Strip(st.current) != "" then st.chunks + [Strip(st.current)] else st.chunks
  }

  /** `_split_lyrics(lyrics, max_length)`. The precondition excludes the
      lengths for which the source's cutting loop can run forever: with a
      `max_length` of zero it never ends once a non-empty line meets an
      empty current chunk (so "\nabc" still terminates), and with a
      negative one once any line meets an empty current chunk. */
  method SplitLyricsChunks(lyrics: string, max: nat) returns (chunks: seq<string>)
    requires max > 0
    ensures chunks == SplitLyrics(lyrics, max)
  {
    if |lyrics| <= max {
      return [lyrics];
    }
    chunks := [];
    var current := "";
    var lines := Split(lyrics, "\n");
    var i := 0;
    while i < |lines|
      invariant 0 <= i <= |lines|
      invariant Chunking(chunks, current) == Fold(lines[..i], max)
    {
      var line := lines[i];
      assert lines[..i + 1][..i] == lines[..i];
      assert Fold(lines[..i + 1], max) == Step(Chunking(chunks, current), line, max);
      if |current| + |line| + 1 > max {
        if current != "" {
          chunks := chunks + [Strip(current)];
          current := line + "\n";
        } else {
          var pieces, rest := CutLine(line, max);
          chunks := chunks + pieces;
          current := rest + "\n";
        }
      } else {
        current := current + line + "\n";
      }
      i := i + 1;
    }
    assert lines[..|lines|] == lines;
    if Strip(current) != "" {
      chunks := chunks + [Strip(current)];
    }
  }

  /** The inner `while len(line) > max_length` loop of `_split_lyrics`. */
  method CutLine(whole: string, max: nat) returns (pieces: seq<string>, rest: string)
    requires max > 0
    ensures pieces == Pieces(whole, max) && rest == Rest(whole, max)
  {
    pieces := [];
    rest := whole;
    while |rest| > max
      invariant pieces + Pieces(rest, max) == Pieces(whole, max)
      invariant Rest(rest, max) == Rest(whole, max)
      decreases |rest|
    {
      assert Pieces(rest, max) == [rest[..max]] + Pieces(rest[max..], max);
      pieces := pieces + [rest[..max]];
      rest := rest[max..];
    }
  }

  // ---------------------------------------------------------------------------
  // Properties of the chunking

  /** Lyrics that fit are returned whole. */
  lemma ShortLyricsUnchanged(lyrics: string, max: nat)
    requires max > 0 && |lyrics| <= max
    ensures SplitLyrics(lyrics, max) == [lyrics]
  {
  }

  /** The text of the chunks, one after the other. */
  function Concat(cs: seq<string>): string
    decreases |cs|
  {
    if cs == [] then "" else Concat(cs[..|cs| - 1]) + cs[|cs| - 1]
  }

  lemma {:induction false} ConcatAppend(a: seq<string>, b: seq<string>)
    ensures Concat(a + b) == Concat(a) + Concat(b)
    decreases |b|
  {
    if b == [] {
      assert a + b == a;
    } else {
      var b' := b[..|b| - 1];
      assert (a + b)[..|a + b| - 1] == a + b';
      ConcatAppend(a, b');
    }
  }

  /** The pieces of an over-long line are exactly `max` long, and together
      with the rest they give the line back. */
  lemma {:induction false} PiecesCover(line: string, max: nat)
    requires max > 0
    ensures forall k :: 0 <= k < |Pieces(line, max)| ==> |Pieces(line, max)[k]| == max
    ensures Concat(Pieces(line, max)) + Rest(line, max) == line
    ensures |line| > max ==> |Pieces(line, max)| > 0
    decreases |line|
  {
    if |line| > max {
      PiecesCover(line[max..], max);
      ConcatAppend([line[..max]], Pieces(line[max..], max));
      assert Concat([line[..max]]) == line[..max];
      assert line == line[..max] + line[max..];
    }
  }

  /** The chunk being built is empty or ends in a newline. */
  predicate CurrentShape(c: string, max: nat) {
    c == "" || (c[|c| - 1] == '\n' && |c| <= max + 1)
  }

  /** Stripping a string that ends in whitespace shortens it. */
  lemma StripDropsTrailingSpace(s: string)
    requires s != [] && IsSpace(s[|s| - 1])
    ensures |Strip(s)| < |s|
  {
    var l := StripLeft(s);
    if l != [] {
      assert l[|l| - 1] == s[|s| - 1];
      assert StripRight(l) == StripRight(l[..|l| - 1]);
      assert |Strip(s)| <= |l| - 1;
    }
  }

  /** When no line is longer than `max`, the line loop keeps every chunk
      within `max` and the chunk being built within one newline of it. */
  lemma {:induction false} FoldFits(lines: seq<string>, max: nat)
    requires max > 0
    requires forall k :: 0 <= k < |lines| ==> |lines[k]| <= max
    ensures forall k :: 0 <= k < |Fold(lines, max).chunks| ==> |Fold(lines, max).chunks[k]| <= max
    ensures CurrentShape(Fold(lines, max).current, max)
    decreases |lines|
  {
    if lines != [] {
      var init := lines[..|lines| - 1];
      FoldFits(init, max);
      var st := Fold(init, max);
      var line := lines[|lines| - 1];
      if |st.current| + |line| + 1 > max && st.current != "" {
        StripDropsTrailingSpace(st.current);
      }
    }
  }

  /** If every line of the lyrics fits, every chunk fits. */
  lemma ChunksFit(lyrics: string, max: nat)
    requires max > 0
    requires forall k :: 0 <= k < |Split(lyrics, "\n")| ==> |Split(lyrics, "\n")[k]| <= max
    ensures forall k :: 0 <= k < |SplitLyrics(lyrics, max)| ==> |SplitLyrics(lyrics, max)[k]| <= max
  {
    if |lyrics| > max {
      var st := Fold(Split(lyrics, "\n"), max);
      FoldFits(Split(lyrics, "\n"), max);
      if Strip(st.current) != "" {
        StripDropsTrailingSpace(st.current);
      }
    }
  }

  /** The non-whitespace text of the lines, in order. */
  function LinesText(lines: seq<string>): string
    decreases |lines|
  {
    if lines == [] then "" else LinesText(lines[..|lines| - 1]) + NonSpace(lines[|lines| - 1])
  }

  lemma {:induction false} LinesTextCons(line: string, rest: seq<string>)
    ensures LinesText([line] + rest) == NonSpace(line) + LinesText(rest)
    decreases |rest|
  {
    if rest != [] {
      var rest' := rest[..|rest| - 1];
      assert ([line] + rest)[..|rest|] == [line] + rest';
      LinesTextCons(line, rest');
    } else {
      assert [line] + rest == [line];
      assert [line][..0] == [];
    }
  }

  /** Joining lines with newlines adds only whitespace. */
  lemma {:induction false} JoinLinesText(lines: seq<string>)
    ensures NonSpace(Join(lines, "\n")) == LinesText(lines)
    decreases |lines|
  {
    if |lines| == 1 {
      assert lines[..0] == [];
    } else if |lines| > 1 {
      var rest := lines[1..];
      JoinLinesText(rest);
      NonSpaceConcat(lines[0], "\n");
      NonSpaceConcat(lines[0] + "\n", Join(rest, "\n"));
      NonSpaceOfSpaces("\n");
      assert lines == [lines[0]] + rest;
      LinesTextCons(lines[0], rest);
    }
  }

  /** The line loop loses no non-whitespace character and reorders none. */
  lemma {:induction false} FoldKeepsText(lines: seq<string>, max: nat)
    requires max > 0
    ensures NonSpace(Concat(Fold(lines, max).chunks)) + NonSpace(Fold(lines, max).current) == LinesText(lines)
    decreases |lines|
  {
    if lines != [] {
      var init := lines[..|lines| - 1];
      FoldKeepsText(init, max);
      StepKeepsText(Fold(init, max), lines[|lines| - 1], max);
    }
  }

  /** One turn of the line loop adds the line's text and nothing else. */
  lemma StepKeepsText(st: Chunking, line: string, max: nat)
    requires max > 0
    ensures var next := Step(st, line, max);
            NonSpace(Concat(next.chunks)) + NonSpace(next.current)
            == NonSpace(Concat(st.chunks)) + NonSpace(st.current) + NonSpace(line)
  {
    if |st.current| + |line| + 1 > max {
      if st.current != "" {
        ChunkClosedKeepsText(st.chunks, st.current, line);
      } else {
        LineCutKeepsText(st.chunks, line, max);
      }
    } else {
      ChunkGrowsKeepsText(st.current, line);
    }
  }

  lemma ChunkGrowsKeepsText(current: string, line: string)
    ensures NonSpace(current + line + "\n") == NonSpace(current) + NonSpace(line)
  {
    assert current + line + "\n" == current + (line + "\n");
    NonSpaceConcat(current, line + "\n");
    NonSpaceConcat(line, "\n");
    NonSpaceOfSpaces("\n");
  }

  lemma ChunkClosedKeepsText(chunks: seq<string>, current: string, line: string)
    ensures NonSpace(Concat(chunks + [Strip(current)])) == NonSpace(Concat(chunks)) + NonSpace(current)
    ensures NonSpace(line + "\n") == NonSpace(line)
  {
    NonSpaceConcat(line, "\n");
    NonSpaceOfSpaces("\n");
    ConcatAppend(chunks, [Strip(current)]);
    assert Concat([Strip(current)]) == Strip(current);
    NonSpaceConcat(Concat(chunks), Strip(current));
    StripKeepsNonSpace(current);
  }

  lemma LineCutKeepsText(chunks: seq<string>, line: string, max: nat)
    requires max > 0
    ensures NonSpace(Concat(chunks + Pieces(line, max))) + NonSpace(Rest(line, max) + "\n")
            == NonSpace(Concat(chunks)) + NonSpace(line)
  {
    var x, p, r := Concat(chunks), Concat(Pieces(line, max)), Rest(line, max);
    assert NonSpace(Concat(chunks + Pieces(line, max))) == NonSpace(x) + NonSpace(p) by {
      ConcatAppend(chunks, Pieces(line, max));
      NonSpaceConcat(x, p);
    }
    assert NonSpace(r + "\n") == NonSpace(r) by {
      NonSpaceConcat(r, "\n");
      NonSpaceOfSpaces("\n");
    }
    assert NonSpace(p) + NonSpace(r) == NonSpace(line) by {
      PiecesCover(line, max);
      NonSpaceConcat(p, r);
    }
  }

  /** Removing all whitespace from the chunks gives the lyrics with all
      whitespace removed. */
  lemma NothingLost(lyrics: string, max: nat)
    requires max > 0
    ensures NonSpace(Concat(SplitLyrics(lyrics, max))) == NonSpace(lyrics)
  {
    if |lyrics| <= max {
      assert Concat([lyrics]) == lyrics;
    } else {
      var lines := Split(lyrics, "\n");
      var st := Fold(lines, max);
      FoldKeepsText(lines, max);
      JoinSplit(lyrics, "\n");
      JoinLinesText(lines);
      StripKeepsNonSpace(st.current);
      if Strip(st.current) != "" {
        ConcatAppend(st.chunks, [Strip(st.current)]);
        assert Concat([Strip(st.current)]) == Strip(st.current);
        NonSpaceConcat(Concat(st.chunks), Strip(st.current));
      } else {
        assert NonSpace(Strip(st.current)) == "";
      }
    }
  }

  /** An over-long line met while the chunk being built is empty is cut
      into pieces of exactly `max`; one met after a non-empty chunk is kept
      whole as the start of the next chunk. */
  lemma OverlongLine(st: Chunking, line: string, max: nat)
    requires max > 0 && |line| > max
    ensures st.current == "" ==>
              var next := Step(st, line, max);
              && next.chunks[..|st.chunks|] == st.chunks
              && |next.chunks| > |st.chunks|
              && forall k :: |st.chunks| <= k < |next.chunks| ==> |next.chunks[k]| == max
    ensures st.current != "" ==> Step(st, line, max).current == line + "\n"
  {
    if st.current == "" {
      PiecesCover(line, max);
      var next := Step(st, line, max);
      assert next.chunks == st.chunks + Pieces(line, max);
      forall k | |st.chunks| <= k < |next.chunks| ensures |next.chunks[k]| == max {
        assert next.chunks[k] == Pieces(line, max)[k - |st.chunks|];
      }
    }
  }

  // ---------------------------------------------------------------------------
  // _clean_lyrics

  const NoLyrics := "No lyrics available"

  /** `_clean_lyrics(raw)`. `scrub` stands for the chain of regular
      expression substitutions, which is not modelled; the final strip
      and the fallback are. */
  function CleanLyrics(raw: string, scrub: string -> string): (r: string)
    ensures r != ""
    ensures raw == "" ==> r == NoLyrics
    ensures r == NoLyrics || r == Strip(scrub(raw))
    ensures r != NoLyrics ==> NonSpace(r) == NonSpace(scrub(raw))
  {
    if raw == "" then NoLyrics
    else
      var lyrics := Strip(scrub(raw));
      StripKeepsNonSpace(scrub(raw));
      if lyrics != "" then lyrics else NoLyrics
  }

  // ---------------------------------------------------------------------------
  // LyricsView

  /** The page after `p` among `n`, wrapping round. */
  function NextPage(p: int, n: nat): (r: nat)
    requires n > 0
    ensures r < n
  {
    (p + 1) % n
  }

  /** The page before `p` among `n`, wrapping round. */
  function PreviousPage(p: int, n: nat): (r: nat)
    requires n > 0
    ensures r < n
  {
    (p - 1) % n
  }

  lemma NextPageIs(p: nat, n: nat)
    requires p < n
    ensures NextPage(p, n) == if p + 1 < n then p + 1 else 0
  {
    if p + 1 < n {
      ModUnique(p + 1, n, 0, p + 1);
    } else {
      ModUnique(n, n, 1, 0);
    }
  }

  lemma PreviousPageIs(p: nat, n: nat)
    requires p < n
    ensures PreviousPage(p, n) == if p > 0 then p - 1 else n - 1
  {
    if p > 0 {
      ModUnique(p - 1, n, 0, p - 1);
    } else {
      ModUnique(-1, n, -1, n - 1);
    }
  }

  /** Previous undoes next and next undoes previous. */
  lemma PagesInverse(p: nat, n: nat)
    requires p < n
    ensures PreviousPage(NextPage(p, n), n) == p
    ensures NextPage(PreviousPage(p, n), n) == p
  {
    NextPageIs(p, n);
    PreviousPageIs(p, n);
    NextPageIs(PreviousPage(p, n), n);
    PreviousPageIs(NextPage(p, n), n);
  }

  /** Pressing next `k` times from page `p`. */
  function NextTimes(p: nat, n: nat, k: nat): (r: nat)
    requires n > 0 && p < n
    ensures r < n
  {
    if k == 0 then p else NextPage(NextTimes(p, n, k - 1), n)
  }

  /** Pressing next `k` times moves `k` pages on, so `n` presses come back
      to the start. */
  lemma {:induction false} NextTimesIsShift(p: nat, n: nat, k: nat)
    requires n > 0 && p < n
    ensures NextTimes(p, n, k) == (p + k) % n
  {
    if k == 0 {
      ModUnique(p, n, 0, p);
    } else {
      var prev := NextTimes(p, n, k - 1);
      assert prev == (p + k - 1) % n by {
        NextTimesIsShift(p, n, k - 1);
      }
      assert (prev + 1) % n == (p + k) % n by {
        ModStep(p + k - 1, n);
      }
    }
  }

  lemma ModStep(a: nat, n: nat)
    requires n > 0
    ensures (a % n + 1) % n == (a + 1) % n
  {
    var q, r := a / n, a % n;
    if r + 1 < n {
      ModUnique(r + 1, n, 0, r + 1);
      ModUnique(a + 1, n, q, r + 1);
    } else {
      ModUnique(r + 1, n, 1, 0);
      MulDistrib(q, n);
      ModUnique(a + 1, n, q + 1, 0);
    }
  }

  /** The pagination view of a lyrics message: `pages` embeds, the page
      shown, and whether the arrow buttons are disabled. */
  class LyricsView {
    const pages: nat
    var currentPage: nat
    const buttonsDisabled: bool

    ghost predicate Valid()
      reads this
    {
      pages > 0 ==> currentPage < pages
    }

    /** Both arrows are disabled when there is at most one page. */
    constructor (pages: nat)
      ensures Valid()
      ensures this.pages == pages && currentPage == 0
      ensures buttonsDisabled <==> pages <= 1
    {
      this.pages := pages;
      currentPage := 0;
      buttonsDisabled := pages <= 1;
    }

    /** The next-page button. With no pages the modulo raises
        ZeroDivisionError: `ok` is false and nothing changes. */
    method Next() returns (ok: bool)
      requires Valid()
      modifies this
      ensures Valid()
      ensures ok <==> pages > 0
      ensures ok ==> currentPage == NextPage(old(currentPage), pages)
      ensures !ok ==> currentPage == old(currentPage)
    {
      if pages == 0 {
        return false;
      }
      currentPage := NextPage(currentPage, pages);
      return true;
    }

    /** The previous-page button. */
    method Previous() returns (ok: bool)
      requires Valid()
      modifies this
      ensures Valid()
      ensures ok <==> pages > 0
      ensures ok ==> currentPage == PreviousPage(old(currentPage), pages)
      ensures !ok ==> currentPage == old(currentPage)
    {
      if pages == 0 {
        return false;
      }
      currentPage := PreviousPage(currentPage, pages);
      return true;
    }
  }
}
