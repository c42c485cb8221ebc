/**
 * Spotify link recognition (`extract_spotify_id`) and the availability test
 * of integrations/spotify.py. The regular expression search is written out:
 * each kind's pattern `spotify:<kind>:([a-zA-Z0-9]+)|open\.spotify\.com/<kind>/([a-zA-Z0-9]+)`
 * matches at the leftmost position where either prefix is followed by at
 * least one ASCII letter or digit, and the group takes the whole run.
 */
module Spotify {
  import opened Wrappers
  import opened Text

  datatype SpotifyKind = TrackKind | PlaylistKind | AlbumKind | ArtistKind

  function KindName(k: SpotifyKind): string {
    match k
    case TrackKind => "track"
    case PlaylistKind => "playlist"
    case AlbumKind => "album"
    case ArtistKind => "artist"
  }

  /** The order the pattern table is tried in. */
  const Kinds: seq<SpotifyKind> := [TrackKind, PlaylistKind, AlbumKind, ArtistKind]

  function UriPrefix(k: SpotifyKind): string {
    "spotify:" + KindName(k) + ":"
  }

  function WebPrefix(k: SpotifyKind): string {
    "open.spotify.com/" + KindName(k) + "/"
  }

  /** Length of the run of ASCII letters and digits that starts `s`. */
  function AlnumRun(s: string): (n: nat)
    ensures n <= |s|
    ensures forall i :: 0 <= i < n ==> IsAsciiAlnum(s[i])
    ensures n < |s| ==> !IsAsciiAlnum(s[n])
    decreases |s|
  {
    if s == [] || !IsAsciiAlnum(s[0]) then 0 else 1 + AlnumRun(s[1..])
  }

  /** `prefix([a-zA-Z0-9]+)` matches at position i. */
  predicate PrefixMatch(url: string, prefix: string, i: int) {
    OccursAt(url, prefix, i) && i + |prefix| < |url| && IsAsciiAlnum(url[i + |prefix|])
  }

  /** The pattern of kind `k` matches at position i. */
  predicate KindMatchAt(url: string, k: SpotifyKind, i: int) {
    PrefixMatch(url, UriPrefix(k), i) || PrefixMatch(url, WebPrefix(k), i)
  }

  /** The captured id: the whole run of letters and digits after the prefix. */
  function IdAfter(url: string, start: nat): (id: string)
    requires start < |url| && IsAsciiAlnum(url[start])
    ensures |id| > 0 && start + |id| <= |url| && id == url[start..start + |id|]
    ensures forall j :: 0 <= j < |id| ==> IsAsciiAlnum(id[j])
    ensures start + |id| < |url| ==> !IsAsciiAlnum(url[start + |id|])
  {
    var n := AlnumRun(url[start..]);
    url[start..start + n]
  }

  /** `match.group(1) or match.group(2)`: the id from whichever
      alternative matched (the two prefixes start with different letters,
      so at most one does). */
  function MatchId(url: string, k: SpotifyKind, i: int): string
    requires KindMatchAt(url, k, i)
  {
    if PrefixMatch(url, UriPrefix(k), i) then IdAfter(url, i + |UriPrefix(k)|)
    else IdAfter(url, i + |WebPrefix(k)|)
  }

  /** `re.search`: the leftmost position at or after `from` where the
      pattern of kind `k` matches. */
  function SearchFrom(url: string, k: SpotifyKind, from: nat): (r: Option<nat>)
    ensures r.Some? ==> from <= r.value && KindMatchAt(url, k, r.value)
    ensures r.Some? ==> forall j :: from <= j < r.value ==> !KindMatchAt(url, k, j)
    ensures r.None? ==> forall j :: from <= j ==> !KindMatchAt(url, k, j)
    decreases |url| - from
  {
    if from >= |url| then None
    else if KindMatchAt(url, k, from) then Some(from)
    else SearchFrom(url, k, from + 1)
  }

  /** Trying the kinds of `kinds` in order; the first with any match wins. */
  function ExtractFrom(url: string, kinds: seq<SpotifyKind>): (r: Option<(string, SpotifyKind)>)
    ensures r.None? <==> forall n, i :: 0 <= n < |kinds| ==> !KindMatchAt(url, kinds[n], i)
    ensures r.Some? ==> |r.value.0| > 0 && forall j :: 0 <= j < |r.value.0| ==> IsAsciiAlnum(r.value.0[j])
    ensures r.Some? ==> exists n :: 0 <= n < |kinds| && kinds[n] == r.value.1
                                    && (forall m, i :: 0 <= m < n ==> !KindMatchAt(url, kinds[m], i))
    decreases |kinds|
  {
    if kinds == [] then None
    else
      match SearchFrom(url, kinds[0], 0)
      case Some(i) => Some((MatchId(url, kinds[0], i), kinds[0]))
      case None =>
        var r := ExtractFrom(url, kinds[1..]);
        assert forall n :: 1 <= n < |kinds| ==> kinds[n] == kinds[1..][n - 1];
        r
  }

  /** `extract_spotify_id(url)`: the id and its kind, or None for
      `(None, None)`. */
  function ExtractSpotifyId(url: string): (r: Option<(string, SpotifyKind)>)
    ensures r.None? <==> forall k, i :: !KindMatchAt(url, k, i)
    ensures r.Some? ==> |r.value.0| > 0 && forall j :: 0 <= j < |r.value.0| ==> IsAsciiAlnum(r.value.0[j])
  {
    var r := ExtractFrom(url, Kinds);
    assert r.None? ==> forall k, i :: !KindMatchAt(url, k, i) by {
      if r.None? {
        forall k, i ensures !KindMatchAt(url, k, i) {
          assert k == Kinds[KindIndex(k)];
        }
      }
    }
    r
  }

  function KindIndex(k: SpotifyKind): (n: nat)
    ensures n < |Kinds| && Kinds[n] == k
  {
    match k
    case TrackKind => 0
    case PlaylistKind => 1
    case AlbumKind => 2
    case ArtistKind => 3
  }

  /** What is recognised: the id is the run captured at the leftmost match
      of its kind, and no kind tried earlier matches anywhere. */
  lemma RecognisedMeaning(url: string)
    requires ExtractSpotifyId(url).Some?
    ensures var (id, k) := ExtractSpotifyId(url).value;
            && (forall k', i :: KindIndex(k') < KindIndex(k) ==> !KindMatchAt(url, k', i))
            && exists i :: && KindMatchAt(url, k, i)
                           && (forall j :: 0 <= j < i ==> !KindMatchAt(url, k, j))
                           && id == MatchId(url, k, i)
  {
    var (id, k) := ExtractSpotifyId(url).value;
    if SearchFrom(url, TrackKind, 0).Some? {
      assert k == TrackKind;
      var i := SearchFrom(url, TrackKind, 0).value;
      assert id == MatchId(url, k, i);
    } else if SearchFrom(url, PlaylistKind, 0).Some? {
      assert k == PlaylistKind && Kinds[1..][0] == PlaylistKind;
      var i := SearchFrom(url, PlaylistKind, 0).value;
      assert id == MatchId(url, k, i);
    } else if SearchFrom(url, AlbumKind, 0).Some? {
      assert k == AlbumKind && Kinds[1..][1..][0] == AlbumKind;
      var i := SearchFrom(url, AlbumKind, 0).value;
      assert id == MatchId(url, k, i);
    } else {
      assert k == ArtistKind && Kinds[1..][1..][1..][0] == ArtistKind;
      var i := SearchFrom(url, ArtistKind, 0).value;
      assert id == MatchId(url, k, i);
    }
  }

  /** A track link in either form is recognised with its whole id. */
  lemma TrackLinkRecognised(id: string, webForm: bool, rest: string)
    requires |id| > 0 && forall j :: 0 <= j < |id| ==> IsAsciiAlnum(id[j])
    requires rest == "" || !IsAsciiAlnum(rest[0])
    ensures ExtractSpotifyId((if webForm then WebPrefix(TrackKind) else UriPrefix(TrackKind)) + id + rest)
            == Some((id, TrackKind))
  {
    var prefix := if webForm then WebPrefix(TrackKind) else UriPrefix(TrackKind);
    var url := prefix + id + rest;
    assert url[..|prefix|] == prefix;
    assert url[|prefix|] == id[0];
    assert KindMatchAt(url, TrackKind, 0);
    var got := IdAfter(url, |prefix|);
    assert url[|prefix|..|prefix| + |id|] == id;
    assert got == id;
    if webForm {
      assert !PrefixMatch(url, UriPrefix(TrackKind), 0) by {
        assert url[0] == 'o';
      }
    }
  }

  // ---------------------------------------------------------------------------
  // is_available

  /** Whether `_initialize_client` ends with a client: only with both
      credentials present and the client library not failing. */
  function ClientCreated(clientId: string, clientSecret: string, libraryOk: bool): (r: bool)
    ensures r ==> clientId != "" && clientSecret != ""
  {
    clientId != "" && clientSecret != "" && libraryOk
  }

  /** `is_available()`: a client exists and the feature flag is on. */
  function IsAvailable(clientId: string, clientSecret: string, libraryOk: bool, enableSpotify: bool): (r: bool)
    ensures r <==> ClientCreated(clientId, clientSecret, libraryOk) && enableSpotify
    ensures r ==> clientId != "" && clientSecret != "" && enableSpotify
  {
    ClientCreated(clientId, clientSecret, libraryOk) && enableSpotify
  }
}
