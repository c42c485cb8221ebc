/**
 * The helpers of cogs/advanced_music.py that are plain computations
 * (`format_time`, `create_progress_bar`, `get_youtube_thumbnail`, the
 * `/volume` range check) and the decision `on_wavelink_track_end` makes
 * about what to play next. Player calls become the returned `PlayAction`;
 * the clock is a parameter.
 */
module AdvancedMusic {
  import opened Wrappers
  import opened Text
  import opened QueueModel
  import opened Queues
  import opened EnhancedCommands

  // ---------------------------------------------------------------------------
  // format_time: str(datetime.timedelta(seconds=s))

  const SecondsPerDay := 86400

  /** The `H:MM:SS` part of a timedelta: unpadded hours of the day, then
      two-digit minutes and seconds. */
  function Clock(daySeconds: nat): (r: string)
    requires daySeconds < SecondsPerDay
  {
    NatToString(daySeconds / 3600) + ":" + TwoDigits(daySeconds % 3600 / 60) + ":" + TwoDigits(daySeconds % 60)
  }

  /** `format_time(seconds)`. A timedelta keeps whole days apart (floor
      division, so negative inputs get a negative day count and a
      non-negative clock) and prints them as "D day, " or "D days, ". */
  function FormatTime(seconds: int): (r: string)
    ensures 0 <= seconds < SecondsPerDay ==> r == Clock(seconds)
  {
    var days := seconds / SecondsPerDay;
    var clock := Clock(seconds % SecondsPerDay);
    if days == 0 then clock
    else IntToString(days) + " day" + (if days == 1 || days == -1 then "" else "s") + ", " + clock
  }

  /** Within a day, `parse_time` reads back what `format_time` prints. */
  lemma FormatTimeRoundTrip(seconds: int)
    requires 0 <= seconds < SecondsPerDay
    ensures TimeValue(FormatTime(seconds)) == Some(seconds)
  {
    var h, m, s := seconds / 3600, seconds % 3600 / 60, seconds % 60;
    var a, b, c := NatToString(h), TwoDigits(m), TwoDigits(s);
    assert h * 3600 + m * 60 + s == seconds by {
      ClockArithmetic(seconds);
    }
    assert FormatTime(seconds) == a + ":" + b + ":" + c;
    assert TimeValue(a + ":" + b + ":" + c) == Some(h * 3600 + m * 60 + s) by {
      ClockString(a, b, c);
      ClockParts(h, m, s);
    }
  }

  lemma ClockArithmetic(seconds: nat)
    ensures seconds / 3600 * 3600 + seconds % 3600 / 60 * 60 + seconds % 60 == seconds
  {
  }

  /** A clock string is read as hours, minutes and seconds. */
  lemma ClockString(a: string, b: string, c: string)
    requires |a| > 0 && |c| > 0
    requires forall i :: 0 <= i < |a| ==> IsDigit(a[i])
    requires forall i :: 0 <= i < |b| ==> IsDigit(b[i])
    requires forall i :: 0 <= i < |c| ==> IsDigit(c[i])
    ensures TimeValue(a + ":" + b + ":" + c) == HoursMinutesSecondsValue(a, b, c)
  {
    var t := a + ":" + b + ":" + c;
    assert Lower(Strip(t)) == t by {
      ClockIsNormal(a, b, c);
    }
    assert TimeOfNormalized(t) == HoursMinutesSecondsValue(a, b, c) by {
      NoColonInDigits(a);
      NoColonInDigits(b);
      NoColonInDigits(c);
      HoursMinutesSeconds(a, b, c);
    }
  }

  /** Each field of a clock parses back to its number. */
  lemma ClockParts(h: nat, m: nat, s: nat)
    requires m < 100 && s < 100
    ensures HoursMinutesSecondsValue(NatToString(h), TwoDigits(m), TwoDigits(s)) == Some(h * 3600 + m * 60 + s)
  {
    ParseNatural(h);
    ParseTwoDigits(m);
    ParseTwoDigits(s);
    HoursMinutesSecondsOf(NatToString(h), TwoDigits(m), TwoDigits(s), h, m, s);
  }

  /** A clock string has nothing to strip and nothing to lower-case. */
  lemma ClockIsNormal(a: string, b: string, c: string)
    requires |a| > 0 && |c| > 0
    requires forall i :: 0 <= i < |a| ==> IsDigit(a[i])
    requires forall i :: 0 <= i < |b| ==> IsDigit(b[i])
    requires forall i :: 0 <= i < |c| ==> IsDigit(c[i])
    ensures Lower(Strip(a + ":" + b + ":" + c)) == a + ":" + b + ":" + c
  {
    var t := a + ":" + b + ":" + c;
    assert t[0] == a[0] && t[|t| - 1] == c[|c| - 1];
    StripNoEdgeSpace(t);
    forall i | 0 <= i < |t| ensures LowerChar(t[i]) == t[i] {
      if i < |a| {
        assert t[i] == a[i];
      } else if i == |a| {
        assert t[i] == ':';
      } else if i < |a| + 1 + |b| {
        assert t[i] == b[i - |a| - 1];
      } else if i == |a| + 1 + |b| {
        assert t[i] == ':';
      } else {
        assert t[i] == c[i - |a| - 2 - |b|];
      }
    }
  }

  lemma NoColonInDigits(d: string)
    requires forall i :: 0 <= i < |d| ==> IsDigit(d[i])
    ensures !Contains(d, ":")
  {
    NoCharNoContains(d, ':');
  }

  // ---------------------------------------------------------------------------
  // create_progress_bar (unclamped)

  const Filled := '▰'
  const Empty := '▱'

  /** `create_progress_bar(current, total, length)`: `filled` full marks and
      `length - filled` empty ones, where a negative count gives no marks.
      None where the division by `total` raises ZeroDivisionError. */
  function ProgressBar(current: int, total: int, length: int): (r: Option<string>)
    ensures r.None? <==> total == 0
  {
    if total == 0 then None
    else
      var filled := TruncDiv(current * length, total);
      Some(Repeat(Filled, filled) + Repeat(Empty, length - filled))
  }

  /** In range, the bar is exactly `length` marks, full ones first. */
  lemma ProgressBarInRange(current: int, total: int, length: int)
    requires 0 <= current <= total && total > 0 && length >= 0
    ensures ProgressBar(current, total, length).Some?
    ensures var bar := ProgressBar(current, total, length).value;
            && |bar| == length
            && (forall i, j :: 0 <= i < j < |bar| && bar[i] == Empty ==> bar[j] == Empty)
            && (forall i :: 0 <= i < |bar| ==> bar[i] == Filled || bar[i] == Empty)
  {
    DivBelow(current * length, total, length);
    DivAbove(current * length, total, 0);
  }

  /** Past the end of the track the bar is not clamped: there are at least
      `length` full marks and no empty one, and more than `length` once the
      overshoot reaches a whole mark. */
  lemma ProgressBarOverflow(current: int, total: int, length: int)
    requires 0 < total < current && length >= 0
    ensures ProgressBar(current, total, length).Some?
    ensures var bar := ProgressBar(current, total, length).value;
            && |bar| >= length
            && (forall i :: 0 <= i < |bar| ==> bar[i] == Filled)
            && (current * length >= (length + 1) * total ==> |bar| > length)
  {
    assert current * length >= length * total;
    DivAbove(current * length, total, length);
    if current * length >= (length + 1) * total {
      DivAbove(current * length, total, length + 1);
    }
  }

  /** `/volume level`: levels outside 0..200 are refused before anything
      changes; an accepted level is shown on a 15-mark bar out of 200. */
  function VolumeBar(level: int): (r: Option<string>)
    ensures r.Some? <==> 0 <= level <= 200
    ensures r.Some? ==> |r.value| == 15
  {
    if !(0 <= level <= 200) then None
    else
      ProgressBarInRange(level, 200, 15);
      ProgressBar(level, 200, 15)
  }

  // ---------------------------------------------------------------------------
  // get_youtube_thumbnail

  /** The video id `get_youtube_thumbnail` cuts out of a URI: for
      youtube.com, the text after the last "v=" up to the first "&"; for
      youtu.be, the last path segment up to "?". The whole test is guarded
      by "youtube", so a youtu.be link without that word has no id. */
  function YoutubeVideoId(uri: string): (id: Option<string>)
    ensures id.Some? <==> Contains(uri, "youtube") && (Contains(uri, "youtube.com") || Contains(uri, "youtu.be"))
  {
    if !Contains(uri, "youtube") then None
    else if Contains(uri, "youtube.com") then Some(Split(Last(Split(uri, "v=")), "&")[0])
    else if Contains(uri, "youtu.be") then Some(Split(Last(Split(uri, "/")), "?")[0])
    else None
  }

  function YoutubeThumbnail(uri: string): (r: Option<string>)
    ensures r.Some? <==> YoutubeVideoId(uri).Some?
    ensures r.Some? ==> r.value == "https://img.youtube.com/vi/" + YoutubeVideoId(uri).value + "/maxresdefault.jpg"
  {
    match YoutubeVideoId(uri)
    case None => None
    case Some(id) => Some("https://img.youtube.com/vi/" + id + "/maxresdefault.jpg")
  }

  /** A youtube.com id is a piece of the URI holding neither "v=" nor "&":
      it is the start of what follows the last "v=". */
  lemma YoutubeIdIsPiece(uri: string)
    requires Contains(uri, "youtube.com")
    ensures YoutubeVideoId(uri).Some?
    ensures var id := YoutubeVideoId(uri).value;
            && !Contains(id, "&") && !Contains(id, "v=")
            && id <= Last(Split(uri, "v=")) && IsSuffix(Last(Split(uri, "v=")), uri)
  {
    OccursInLonger(uri, "youtube.com", "youtube");
    var tail := Last(Split(uri, "v="));
    var id := Split(tail, "&")[0];
    SplitPiecesAvoidSep(tail, "&");
    SplitPiecesAvoidSep(uri, "v=");
    SplitFirstIsPrefix(tail, "&");
    SplitLastIsSuffix(uri, "v=");
    PrefixAvoids(id, tail, "v=");
  }

  // ---------------------------------------------------------------------------
  // on_wavelink_track_end

  /** What the player is told to do when a track ends. */
  datatype PlayAction =
    | Replay(track: Track)         // repeat mode "track"
    | PlayQueued(track: Track)     // the entry `get()` took
    | PlayAutoplay(track: Track)   // the first autoplay suggestion
    | Idle                         // nothing to play

  /** The first suggestion, if there is one. */
  function FirstSuggestion(s: seq<Track>): (a: PlayAction)
    ensures a == Idle <==> s == []
    ensures a.PlayAutoplay? ==> a.track == s[0]
  {
    if s == [] then Idle else PlayAutoplay(s[0])
  }

  /** The start times once a track end has been recorded: the ended
      track's entry is dropped when statistics are recorded. */
  function Forgotten(times: map<string, Timestamp>, ended: Option<Track>, dbPresent: bool): (r: map<string, Timestamp>)
    ensures forall u :: u in r <==> u in times && !(ended.Some? && dbPresent && u == ended.value.uri)
    ensures forall u :: u in r ==> r[u] == times[u]
  {
    if ended.Some? && dbPresent then times - {ended.value.uri} else times
  }

  /** The start-time bookkeeping of the music cog. */
  class TrackEndHandler {
    var startTimes: map<string, Timestamp>

    constructor ()
      ensures startTimes == map[]
    {
      startTimes := map[];
    }

    /** `on_wavelink_track_end`, for a player attached to a guild whose
        queue is `q`. `ended` is the track that ended (absent in some
        events), `dbPresent` whether a database is configured, `spotify`
        what the Spotify step of the autoplay suggestions comes back with.
        The three-minute idle wait and the disconnect that follows are left
        to the caller. */
    method OnTrackEnd(q: AdvancedQueue, ended: Option<Track>, dbPresent: bool,
                      spotify: SpotifyOutcome, now: Timestamp) returns (action: PlayAction)
      requires q.Valid()
      modifies this, q
      ensures q.Valid()
      ensures q.favorites == old(q.favorites) && q.repeatMode == old(q.repeatMode)
      ensures q.shuffleEnabled == old(q.shuffleEnabled) && q.autoplayEnabled == old(q.autoplayEnabled)
      ensures q.userPreferences == old(q.userPreferences)
      // repeat "track": replay, queue untouched
      ensures Replays(old(q.repeatMode), ended) ==>
                action == Replay(ended.value) && q.queue == old(q.queue) && q.history == old(q.history)
                && q.totalTracksAdded == old(q.totalTracksAdded) && q.totalTracksPlayed == old(q.totalTracksPlayed)
      // otherwise a non-empty queue supplies the next track through get()
      ensures !Replays(old(q.repeatMode), ended) && old(q.queue) != [] ==>
                TookEntry(old(q.queue), old(q.history), q.shuffleEnabled, now, q.queue, q.history, action)
                && q.totalTracksAdded == old(q.totalTracksAdded) && q.totalTracksPlayed == old(q.totalTracksPlayed) + 1
      // repeat "queue" on an empty queue: the ended track is re-added and taken again
      ensures Requeues(old(q.repeatMode), ended, old(q.queue), q.maxSize) ==>
                action == PlayQueued(ended.value) && q.queue == []
                && q.history == PushHistory(old(q.history), MarkPlayed(NewEntry(ended.value, None, 0, map[], now), now))
                && q.totalTracksAdded == old(q.totalTracksAdded) + 1 && q.totalTracksPlayed == old(q.totalTracksPlayed) + 1
      // nothing to take: the first autoplay suggestion, or nothing
      ensures !Replays(old(q.repeatMode), ended) && old(q.queue) == []
              && !Requeues(old(q.repeatMode), ended, old(q.queue), q.maxSize) ==>
                q.queue == [] && q.history == old(q.history)
                && q.totalTracksAdded == old(q.totalTracksAdded) && q.totalTracksPlayed == old(q.totalTracksPlayed)
                && action == FirstSuggestion(AutoplaySuggestions(old(q.history), q.autoplayEnabled, ended, 1, spotify))
      // the newly started track is stamped with the current time
      ensures action.PlayQueued? || action.PlayAutoplay? ==>
                startTimes == Forgotten(old(startTimes), ended, dbPresent)[action.track.uri := now]
      ensures action.Replay? || action.Idle? ==> startTimes == Forgotten(old(startTimes), ended, dbPresent)
    {
      if ended.Some? && dbPresent && ended.value.uri in startTimes {
        startTimes := startTimes - {ended.value.uri};
      }
      assert startTimes == Forgotten(old(startTimes), ended, dbPresent);
      if q.repeatMode == RepeatTrack && ended.Some? {
        return Replay(ended.value);
      }
      RequeueEnded(q, ended, now);
      action := TakeNext(q, ended, spotify, now);
      if action.PlayQueued? || action.PlayAutoplay? {
        startTimes := startTimes[action.track.uri := now];
      }
    }
  }

  /** Repeat mode "track" with a track that ended: it is played again. */
  predicate Replays(mode: RepeatMode, ended: Option<Track>) {
    mode == RepeatTrack && ended.Some?
  }

  /** Repeat mode "queue" with nothing queued and room for one entry: the
      ended track goes back into the queue. */
  predicate Requeues(mode: RepeatMode, ended: Option<Track>, queue: seq<TrackInfo>, maxSize: int) {
    mode == RepeatQueue && ended.Some? && queue == [] && Capacity(maxSize) > 0
  }

  /** `get()` took an entry `get` may take from `q` (with history `h`),
      leaving `q'` and `h'`, and the player is told to play its track. */
  ghost predicate TookEntry(q: seq<TrackInfo>, h: seq<TrackInfo>, shuffle: bool, now: Timestamp,
                            q': seq<TrackInfo>, h': seq<TrackInfo>, action: PlayAction)
  {
    && |h| <= HistoryCapacity
    && exists i :: AllowedPick(q, h, shuffle, i)
                && action == PlayQueued(q[i].track)
                && q' == RemoveAt(q, i)
                && h' == PushHistory(h, MarkPlayed(q[i], now))
  }

  /** Repeat mode "queue" with nothing queued: `queue.add(ended)`. */
  method RequeueEnded(q: AdvancedQueue, ended: Option<Track>, now: Timestamp)
    requires q.Valid()
    modifies q
    ensures q.Valid()
    ensures Requeues(old(q.repeatMode), ended, old(q.queue), q.maxSize) ==>
              q.queue == [NewEntry(ended.value, None, 0, map[], now)]
              && q.totalTracksAdded == old(q.totalTracksAdded) + 1
    ensures !Requeues(old(q.repeatMode), ended, old(q.queue), q.maxSize) ==>
              q.queue == old(q.queue) && q.totalTracksAdded == old(q.totalTracksAdded)
    ensures q.history == old(q.history) && q.favorites == old(q.favorites)
    ensures q.repeatMode == old(q.repeatMode) && q.shuffleEnabled == old(q.shuffleEnabled)
    ensures q.autoplayEnabled == old(q.autoplayEnabled) && q.userPreferences == old(q.userPreferences)
    ensures q.totalTracksPlayed == old(q.totalTracksPlayed)
  {
    if q.repeatMode == RepeatQueue && q.queue == [] && ended.Some? {
      var _ := q.Add(ended.value, None, 0, map[], now);
    }
  }

  /** `if queue: next = queue.get()`, and otherwise, with autoplay on, the
      first suggestion. */
  method TakeNext(q: AdvancedQueue, ended: Option<Track>, spotify: SpotifyOutcome, now: Timestamp)
    returns (action: PlayAction)
    requires q.Valid()
    modifies q
    ensures q.Valid()
    ensures old(q.queue) != [] ==>
              TookEntry(old(q.queue), old(q.history), q.shuffleEnabled, now, q.queue, q.history, action)
              && q.totalTracksPlayed == old(q.totalTracksPlayed) + 1
    ensures old(q.queue) == [] ==>
              q.queue == [] && q.history == old(q.history) && q.totalTracksPlayed == old(q.totalTracksPlayed)
              && action == FirstSuggestion(AutoplaySuggestions(q.history, q.autoplayEnabled, ended, 1, spotify))
    ensures q.favorites == old(q.favorites) && q.repeatMode == old(q.repeatMode)
    ensures q.shuffleEnabled == old(q.shuffleEnabled) && q.autoplayEnabled == old(q.autoplayEnabled)
    ensures q.userPreferences == old(q.userPreferences) && q.totalTracksAdded == old(q.totalTracksAdded)
  {
    if q.queue != [] {
      var next := q.Get(now);
      return PlayQueued(next.value.track);
    }
    if q.autoplayEnabled {
      var suggestions := q.GenerateAutoplaySuggestions(ended, 1, spotify);
      if suggestions != [] {
        return PlayAutoplay(suggestions[0]);
      }
    }
    return Idle;
  }
}
