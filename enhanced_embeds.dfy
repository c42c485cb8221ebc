/**
 * The text-shaping helpers of utils/enhanced_embeds.py: the clamped progress
 * bar, the source classification of a track URI, the high-quality YouTube
 * thumbnail, the field-length limit and the paging of long lists. Embed
 * objects are reduced to the titles, descriptions and fields they carry.
 */
module Embeds {
  import opened Wrappers
  import opened Text

  // ---------------------------------------------------------------------------
  // create_progress_bar (clamped)

  /** The number of filled marks: `int((current / total) * length)` pulled
      into [0, length]. */
  function FilledCount(current: int, total: int, length: int): (n: int)
    requires total > 0
    ensures length >= 0 ==> 0 <= n <= length
    ensures length < 0 ==> n == 0
  {
    var raw := TruncDiv(current * length, total);
    var upper := if length < raw then length else raw;
    if 0 < upper then upper else 0
  }

  /** The first `k` marks of `bar` are `f` and the rest are `e`. */
  predicate MarksSplitAt(bar: string, k: int, f: char, e: char) {
    && 0 <= k <= |bar|
    && (forall i :: 0 <= i < k ==> bar[i] == f)
    && (forall i :: k <= i < |bar| ==> bar[i] == e)
  }

  /** `create_progress_bar(current, total, length, filled_char, empty_char)`. */
  function ClampedBar(current: int, total: int, length: int, filledChar: char, emptyChar: char): (r: string)
    ensures |r| == if length < 0 then 0 else length
    ensures total <= 0 ==> forall i :: 0 <= i < |r| ==> r[i] == emptyChar
    ensures exists k :: MarksSplitAt(r, k, filledChar, emptyChar)
  {
    if total <= 0 then
      var r := Repeat(emptyChar, length);
      assert MarksSplitAt(r, 0, filledChar, emptyChar);
      r
    else
      var filled := FilledCount(current, total, length);
      var r := Repeat(filledChar, filled) + Repeat(emptyChar, length - filled);
      assert forall i :: 0 <= i < filled ==> r[i] == filledChar;
      assert forall i :: filled <= i < |r| ==> r[i] == emptyChar;
      assert MarksSplitAt(r, filled, filledChar, emptyChar);
      r
  }

  /** The bar is full exactly when the position has reached the total. */
  lemma FullIff(current: int, total: int, length: int)
    requires total > 0 && length > 0
    ensures FilledCount(current, total, length) == length <==> current >= total
  {
    var a := current * length;
    if current >= total {
      MulMono(total, current, length);
      DivAbove(a, total, length);
    } else if a >= 0 {
      MulMono(current + 1, total, length);
      DivBelowStrict(a, total, length);
    }
  }

  /** The bar is empty exactly while less than one mark's worth has played. */
  lemma EmptyIff(current: int, total: int, length: int)
    requires total > 0 && length > 0
    ensures FilledCount(current, total, length) == 0 <==> current * length < total
  {
    var a := current * length;
    if a >= total {
      DivAbove(a, total, 1);
    } else if a >= 0 {
      DivBelowStrict(a, total, 1);
    }
  }

  // ---------------------------------------------------------------------------
  // get_source_info / get_source_emoji

  datatype Source = YouTube | SoundCloud | SpotifySource | Twitch | UnknownSource

  datatype Colour = Red | Orange | Green | Purple

  datatype SourceInfo = SourceInfo(name: string, emoji: string, colour: Option<Colour>)

  /** The first of the four service names that the lower-cased URI contains. */
  function SourceOf(uri: string): (r: Source)
    ensures r == UnknownSource <==>
              !Contains(Lower(uri), "youtube") && !Contains(Lower(uri), "soundcloud")
              && !Contains(Lower(uri), "spotify") && !Contains(Lower(uri), "twitch")
    ensures Contains(Lower(uri), "youtube") ==> r == YouTube
  {
    var u := Lower(uri);
    if Contains(u, "youtube") then YouTube
    else if Contains(u, "soundcloud") then SoundCloud
    else if Contains(u, "spotify") then SpotifySource
    else if Contains(u, "twitch") then Twitch
    else UnknownSource
  }

  /** The branding table of `get_source_info`. */
  function Info(s: Source): SourceInfo {
    match s
    case YouTube => SourceInfo("YouTube", "📺", Some(Red))
    case SoundCloud => SourceInfo("SoundCloud", "☁️", Some(Orange))
    case SpotifySource => SourceInfo("Spotify", "🎵", Some(Green))
    case Twitch => SourceInfo("Twitch", "📺", Some(Purple))
    case UnknownSource => SourceInfo("Unknown Source", "🌐", None)
  }

  /** `get_source_info`: the branding of the first service the URI names. */
  function GetSourceInfo(uri: string): (r: SourceInfo)
    ensures r.colour.None? <==> r.name == "Unknown Source"
    ensures r.name == "Unknown Source" <==> SourceOf(uri) == UnknownSource
    ensures Contains(Lower(uri), "youtube") ==> r == SourceInfo("YouTube", "📺", Some(Red))
  {
    Info(SourceOf(uri))
  }

  /** `get_source_emoji`: the emoji of the entry `get_source_info` picks. */
  function GetSourceEmoji(uri: string): (e: string)
    ensures e == GetSourceInfo(uri).emoji
    ensures GetSourceInfo(uri).colour.None? <==> e == "🌐"
  {
    Info(SourceOf(uri)).emoji
  }

  /** Classification ignores letter case. */
  lemma SourceIgnoresCase(uri: string)
    ensures SourceOf(Lower(uri)) == SourceOf(uri)
  {
    LowerIdempotent(uri);
  }

  // ---------------------------------------------------------------------------
  // get_high_quality_thumbnail

  /** The first piece of a split is everything before the first separator. */
  lemma SplitHead(s: string, sep: string)
    requires |sep| > 0
    ensures Find(s, sep).None? ==> Split(s, sep)[0] == s
    ensures Find(s, sep).Some? ==> Split(s, sep)[0] == s[..Find(s, sep).value]
  {
  }

  /** Where a split has a second piece, it starts right after the first separator. */
  lemma SplitSecond(s: string, sep: string)
    requires |sep| > 0 && Contains(s, sep)
    ensures |Split(s, sep)| >= 2
    ensures Split(s, sep)[1] == Split(s[Find(s, sep).value + |sep|..], sep)[0]
  {
  }

  /** The id the high-quality thumbnail uses: for youtube.com the text after
      the first "v=" up to the next "&"; for youtu.be the last '/'-segment up
      to '?'. None where the URI gives no id. */
  function HqVideoId(uri: string): (id: Option<string>)
    ensures id.Some? <==> if Contains(uri, "youtube.com") then Contains(uri, "v=") else Contains(uri, "youtu.be")
    ensures id.Some? && !Contains(uri, "youtube.com") ==> !Contains(id.value, "?") && !Contains(id.value, "/")
  {
    if Contains(uri, "youtube.com") then
      if Contains(uri, "v=") then
        SplitSecond(uri, "v=");
        Some(Split(Split(uri, "v=")[1], "&")[0])
      else None
    else if Contains(uri, "youtu.be") then
      var segment := Last(Split(uri, "/"));
      SplitPiecesAvoidSep(uri, "/");
      SplitPiecesAvoidSep(segment, "?");
      SplitFirstIsPrefix(segment, "?");
      PrefixAvoids(Split(segment, "?")[0], segment, "/");
      Some(Split(segment, "?")[0])
    else None
  }

  /** `get_high_quality_thumbnail`: `uri` is "" for a missing track or URI;
      `artwork` is the track's artwork URL, used when no YouTube id comes out. */
  function HighQualityThumbnail(uri: string, artwork: Option<string>): (r: Option<string>)
    ensures uri == "" ==> r.None?
    ensures uri != "" && HqVideoId(uri).Some? && HqVideoId(uri).value != "" ==>
              r == Some("https://img.youtube.com/vi/" + HqVideoId(uri).value + "/maxresdefault.jpg")
    ensures uri != "" && !(HqVideoId(uri).Some? && HqVideoId(uri).value != "") ==>
              r == (if artwork.Some? && artwork.value != "" then artwork else None)
    ensures r.Some? ==> r.value != ""
  {
    if uri == "" then None
    else
      var id := HqVideoId(uri);
      if id.Some? && id.value != "" then Some("https://img.youtube.com/vi/" + id.value + "/maxresdefault.jpg")
      else if artwork.Some? && artwork.value != "" then artwork
      else None
  }

  /** For a youtube.com URI with "v=", the id starts right after the first
      "v=" and runs to the next "&" or "v=", or to the end. */
  lemma WatchIdIsBetween(uri: string)
    requires Contains(uri, "youtube.com") && Contains(uri, "v=")
    ensures var after := uri[Find(uri, "v=").value + 2..];
            var id := HqVideoId(uri).value;
            && id <= after
            && !Contains(id, "&") && !Contains(id, "v=")
            && (|id| < |after| ==> OccursAt(after, "&", |id|) || OccursAt(after, "v=", |id|))
  {
    var after := uri[Find(uri, "v=").value + 2..];
    SplitSecond(uri, "v=");
    var piece := Split(after, "v=")[0];
    SplitHead(after, "v=");
    SplitHead(piece, "&");
    var id := Split(piece, "&")[0];
    assert HqVideoId(uri).value == id;
    SplitPiecesAvoidSep(after, "v=");
    SplitPiecesAvoidSep(piece, "&");
    PrefixAvoids(id, piece, "v=");
    if |id| < |after| {
      if Find(piece, "&").Some? {
        var k := Find(piece, "&").value;
        assert after[k..k + 1] == piece[k..k + 1];
      } else {
        var j := Find(after, "v=").value;
        assert |id| == j;
      }
    }
  }

  // ---------------------------------------------------------------------------
  // add_field_with_limit

  /** The field value: over `maxLength` characters it is cut to
      `value[:maxLength-3]` followed by "...". */
  function LimitField(value: string, maxLength: int): (r: string)
    ensures |value| <= maxLength ==> r == value
    ensures |value| > maxLength >= 3 ==>
              |r| == maxLength && r[..maxLength - 3] == value[..maxLength - 3] && r[maxLength - 3..] == "..."
  {
    if |value| > maxLength then SliceTo(value, maxLength - 3) + "..." else value
  }

  /** Limiting twice changes nothing more. */
  lemma LimitFieldIdempotent(value: string, maxLength: int)
    requires maxLength >= 3
    ensures LimitField(LimitField(value, maxLength), maxLength) == LimitField(value, maxLength)
  {
  }

  // ---------------------------------------------------------------------------
  // create_paginated_embed_list

  datatype Field = Field(name: string, value: string, inline: bool)

  /** A page shows either numbered lines of text or one field per item. */
  datatype PageBody = Description(text: string) | Fields(fields: seq<Field>)

  datatype Page = Page(title: string, body: PageBody)

  /** `math.ceil(n / k)` for a positive page size. */
  function PageCount(n: nat, k: int): (c: nat)
    requires k > 0
    ensures c * k >= n
    ensures c > 0 ==> (c - 1) * k < n
  {
    var c := (n + k - 1) / k;
    assert c * k > n - k by {
      assert (n + k - 1) - (n + k - 1) % k == c * k;
    }
    assert (c - 1) * k == c * k - k;
    c
  }

  /** The items of page `p`: `items[p*k : min(p*k + k, n)]`. */
  function PageItems(items: seq<string>, k: int, p: nat): seq<string>
    requires k > 0 && p * k <= |items|
  {
    var start := p * k;
    var end := if start + k < |items| then start + k else |items|;
    items[start..end]
  }

  /** The default lines of a page: each item numbered from `start + 1` on. */
  function NumberedLines(pageItems: seq<string>, start: nat): (lines: seq<string>)
    ensures |lines| == |pageItems|
  {
    seq(|pageItems|, i requires 0 <= i < |pageItems| => NatToString(i + 1 + start) + ". " + pageItems[i])
  }

  /** Page `p` of `total` as `create_paginated_embed_list` builds it. */
  function PageAt(items: seq<string>, title: string, k: int, p: nat, total: nat,
                  formatter: Option<string -> Field>): Page
    requires k > 0 && p * k <= |items|
  {
    var pageItems := PageItems(items, k, p);
    var heading := title + " (Page " + NatToString(p + 1) + "/" + NatToString(total) + ")";
    match formatter
    case Some(f) => Page(heading, Fields(seq(|pageItems|, i requires 0 <= i < |pageItems| => f(pageItems[i]))))
    case None => Page(heading, Description(Join(NumberedLines(pageItems, p * k), "\n")))
  }

  /** `create_paginated_embed_list(items, title, k, formatter)`: None where
      `math.ceil(n / 0)` raises ZeroDivisionError; no pages for a negative
      page size, whose quotient rounds up to at most zero. */
  method PaginatedList(items: seq<string>, title: string, k: int, formatter: Option<string -> Field>)
    returns (r: Option<seq<Page>>)
    ensures r.None? <==> k == 0
    ensures k < 0 ==> r == Some([])
    ensures k > 0 ==> r.Some? && |r.value| == PageCount(|items|, k)
    ensures k > 0 ==> forall p :: 0 <= p < |r.value| ==>
                        p * k <= |items| && r.value[p] == PageAt(items, title, k, p, PageCount(|items|, k), formatter)
  {
    if k == 0 {
      return None;
    }
    if k < 0 {
      return Some([]);
    }
    var total := PageCount(|items|, k);
    var pages: seq<Page> := [];
    var page := 0;
    while page < total
      invariant 0 <= page <= total && |pages| == page
      invariant forall p :: 0 <= p < page ==> p * k <= |items| && pages[p] == PageAt(items, title, k, p, total, formatter)
    {
      assert page * k <= |items| by {
        MulMono(page, total - 1, k);
      }
      var start := page * k;
      var end := if start + k < |items| then start + k else |items|;
      var pageItems := items[start..end];
      var heading := title + " (Page " + NatToString(page + 1) + "/" + NatToString(total) + ")";
      var body;
      match formatter {
        case Some(f) =>
          var fields: seq<Field> := [];
          var i := 0;
          while i < |pageItems|
            invariant 0 <= i <= |pageItems| && |fields| == i
            invariant forall j :: 0 <= j < i ==> fields[j] == f(pageItems[j])
          {
            fields := fields + [f(pageItems[i])];
            i := i + 1;
          }
          assert fields == seq(|pageItems|, i requires 0 <= i < |pageItems| => f(pageItems[i]));
          body := Fields(fields);
        case None =>
          body := Description(Join(NumberedLines(pageItems, start), "\n"));
      }
      assert Page(heading, body) == PageAt(items, title, k, page, total, formatter);
      pages := pages + [Page(heading, body)];
      page := page + 1;
    }
    r := Some(pages);
  }

  /** The pages in order hold the items in order, each exactly once. */
  function PagesUpTo(items: seq<string>, k: int, p: nat): seq<string>
    requires k > 0 && p <= PageCount(|items|, k)
  {
    if p == 0 then []
    else
      assert (p - 1) * k <= |items| by {
        MulMono(p - 1, PageCount(|items|, k) - 1, k);
      }
      PagesUpTo(items, k, p - 1) + PageItems(items, k, p - 1)
  }

  lemma {:induction false} PagesCoverPrefix(items: seq<string>, k: int, p: nat)
    requires k > 0 && p <= PageCount(|items|, k)
    ensures PagesUpTo(items, k, p) == items[..if p * k < |items| then p * k else |items|]
  {
    if p > 0 {
      PagesCoverPrefix(items, k, p - 1);
      MulMono(p - 1, PageCount(|items|, k) - 1, k);
      assert (p - 1) * k + k == p * k;
    }
  }

  /** Taken together, all pages list every item once, in order. */
  lemma PagesCoverItems(items: seq<string>, k: int)
    requires k > 0
    ensures PagesUpTo(items, k, PageCount(|items|, k)) == items
  {
    PagesCoverPrefix(items, k, PageCount(|items|, k));
  }

  /** Default numbering continues across pages: item j is line j % k of
      page j / k and carries the number j + 1. */
  lemma NumberingContinues(items: seq<string>, k: int, j: nat)
    requires k > 0 && j < |items|
    ensures (j / k) * k <= |items|
    ensures var page := PageItems(items, k, j / k);
            j % k < |page| && NumberedLines(page, (j / k) * k)[j % k] == NatToString(j + 1) + ". " + items[j]
  {
    var p, i := j / k, j % k;
    assert p * k + i == j;
    var page := PageItems(items, k, p);
    assert page[i] == items[j];
  }
}
