/**
 * The per-guild queue (`AdvancedQueue`) and the registry of queues
 * (`QueueManager`) of utils/advanced_queue.py, as classes whose methods
 * update their fields in place. Randomness (`random.choice`,
 * `random.randint`, `random.shuffle`) is a nondeterministic choice; clock
 * readings are parameters.
 */
module Queues {
  import opened Wrappers
  import opened Text
  import opened QueueModel

  class AdvancedQueue {
    const guildId: int
    const maxSize: int
    var queue: seq<TrackInfo>
    var history: seq<TrackInfo>
    var favorites: set<string>
    var shuffleEnabled: bool
    var repeatMode: RepeatMode
    var autoplayEnabled: bool
    var userPreferences: map<UserId, UserPrefs>
    var totalTracksAdded: nat
    var totalTracksPlayed: nat
    const createdAt: Timestamp

    /** The history is a deque of at most 100 entries, and `add` refuses
        entries once the queue holds `max_size` of them. */
    ghost predicate Valid()
      reads this
    {
      |history| <= HistoryCapacity && |queue| <= Capacity(maxSize)
    }

    /** `AdvancedQueue(guild_id, max_size)`: a missing or zero `max_size`
        falls back to the configured maximum. */
    constructor (guildId: int, maxSize: Option<int>, configMaxSize: int, now: Timestamp)
      ensures Valid()
      ensures this.guildId == guildId && createdAt == now
      ensures this.maxSize == if maxSize.Some? && maxSize.value != 0 then maxSize.value else configMaxSize
      ensures queue == [] && history == [] && favorites == {}
      ensures !shuffleEnabled && repeatMode == Off && !autoplayEnabled
      ensures userPreferences == map[] && totalTracksAdded == 0 && totalTracksPlayed == 0
    {
      this.guildId := guildId;
      this.maxSize := if maxSize.Some? && maxSize.value != 0 then maxSize.value else configMaxSize;
      queue := [];
      history := [];
      favorites := {};
      shuffleEnabled := false;
      repeatMode := Off;
      autoplayEnabled := false;
      userPreferences := map[];
      totalTracksAdded := 0;
      totalTracksPlayed := 0;
      createdAt := now;
    }

    /** `is_full()`: on a valid queue, full means holding exactly as many
        entries as the queue admits. */
    predicate IsFull()
      requires Valid()
      reads this
      ensures IsFull() <==> |queue| == Capacity(maxSize)
    {
      |queue| >= maxSize
    }

    /** `add(track, requester, priority, **metadata)`. */
    method Add(track: Track, requester: Option<UserId>, priority: int,
               metadata: map<string, string>, now: Timestamp) returns (added: bool)
      requires Valid()
      modifies this
      ensures Valid()
      ensures added <==> old(|queue|) < Capacity(maxSize)
      ensures added ==> queue == InsertAt(old(queue), Placement(old(queue), priority),
                                          NewEntry(track, requester, priority, metadata, now))
      ensures added ==> totalTracksAdded == old(totalTracksAdded) + 1
      ensures added ==> userPreferences == PrefsAfter(old(userPreferences), requester, track)
      ensures !added ==> queue == old(queue) && totalTracksAdded == old(totalTracksAdded)
                         && userPreferences == old(userPreferences)
      ensures history == old(history) && favorites == old(favorites)
      ensures shuffleEnabled == old(shuffleEnabled) && repeatMode == old(repeatMode)
      ensures autoplayEnabled == old(autoplayEnabled) && totalTracksPlayed == old(totalTracksPlayed)
    {
      if IsFull() {
        return false;
      }
      var entry := NewEntry(track, requester, priority, metadata, now);
      var k := |queue|;
      if priority > 0 {
        var i := 0;
        while i < |queue|
          invariant 0 <= i <= |queue|
          invariant forall j :: 0 <= j < i ==> queue[j].priority >= priority
        {
          if queue[i].priority < priority {
            k := i;
            break;
          }
          i := i + 1;
        }
        InsertionIndexUnique(queue, priority, k);
      }
      queue := InsertAt(queue, k, entry);
      totalTracksAdded := totalTracksAdded + 1;
      UpdateUserPreferences(requester, track);
      return true;
    }

    /** `add_next`: an add with priority 999. */
    method AddNext(track: Track, requester: Option<UserId>, metadata: map<string, string>,
                   now: Timestamp) returns (added: bool)
      requires Valid()
      modifies this
      ensures Valid()
      ensures added <==> old(|queue|) < Capacity(maxSize)
      ensures added ==> |queue| == old(|queue|) + 1
      ensures added && (old(queue) == [] || old(queue)[0].priority < 999) ==>
                queue[0] == NewEntry(track, requester, 999, metadata, now) && queue[1..] == old(queue)
      ensures added ==> queue == InsertAt(old(queue), Placement(old(queue), 999),
                                          NewEntry(track, requester, 999, metadata, now))
      ensures added ==> totalTracksAdded == old(totalTracksAdded) + 1
      ensures added ==> userPreferences == PrefsAfter(old(userPreferences), requester, track)
      ensures !added ==> queue == old(queue) && totalTracksAdded == old(totalTracksAdded)
                         && userPreferences == old(userPreferences)
      ensures history == old(history) && favorites == old(favorites)
      ensures shuffleEnabled == old(shuffleEnabled) && repeatMode == old(repeatMode)
      ensures autoplayEnabled == old(autoplayEnabled) && totalTracksPlayed == old(totalTracksPlayed)
    {
      added := Add(track, requester, 999, metadata, now);
      if added && (old(queue) == [] || old(queue)[0].priority < 999) {
        AddNextGoesFirst(old(queue));
      }
    }

    /** `_update_user_preferences(user, track)`. */
    method UpdateUserPreferences(requester: Option<UserId>, track: Track)
      modifies this`userPreferences
      ensures userPreferences == PrefsAfter(old(userPreferences), requester, track)
    {
      if requester.None? {
        return;
      }
      var u := requester.value;
      if u !in userPreferences {
        userPreferences := userPreferences[u := UserPrefs(map[], map[], 0)];
      }
      var prefs := userPreferences[u];
      prefs := prefs.(trackCount := prefs.trackCount + 1);
      if HasAuthor(track) {
        var artist := Lower(track.author.value);
        prefs := prefs.(artists := prefs.artists[artist := (if artist in prefs.artists then prefs.artists[artist] else 0) + 1]);
      }
      userPreferences := userPreferences[u := prefs];
    }

    /** `get()`: take the next entry, mark it played, and record it in the
        history. With shuffle on, the entry is chosen at random among those
        not played in the last three plays (among all when there are none). */
    method Get(now: Timestamp) returns (r: Option<TrackInfo>)
      requires Valid()
      modifies this
      ensures Valid()
      ensures r.None? <==> old(queue) == []
      ensures r.None? ==> queue == old(queue) && history == old(history)
                          && totalTracksPlayed == old(totalTracksPlayed)
      ensures r.Some? ==> exists i :: AllowedPick(old(queue), old(history), shuffleEnabled, i)
                                      && queue == RemoveAt(old(queue), i)
                                      && r.value == MarkPlayed(old(queue)[i], now)
      ensures r.Some? ==> history == PushHistory(old(history), r.value)
                          && totalTracksPlayed == old(totalTracksPlayed) + 1
      ensures favorites == old(favorites) && shuffleEnabled == old(shuffleEnabled)
      ensures repeatMode == old(repeatMode) && autoplayEnabled == old(autoplayEnabled)
      ensures userPreferences == old(userPreferences) && totalTracksAdded == old(totalTracksAdded)
    {
      if queue == [] {
        return None;
      }
      ghost var q0, h0 := queue, history;
      var i := PickIndex();
      var e := MarkPlayed(queue[i], now);
      queue := RemoveAt(queue, i);
      totalTracksPlayed := totalTracksPlayed + 1;
      history := PushHistory(history, e);
      assert AllowedPick(q0, h0, shuffleEnabled, i) && queue == RemoveAt(q0, i) && e == MarkPlayed(q0[i], now);
      return Some(e);
    }

    /** The choice `get` makes: the front entry, or with shuffle on a random
        entry not heard in the last three plays (`random.choice`), or a
        random entry when all were (`random.randint`). */
    method PickIndex() returns (i: nat)
      requires queue != []
      ensures AllowedPick(queue, history, shuffleEnabled, i)
    {
      i := 0;
      if shuffleEnabled && |queue| > 1 {
        if exists j :: 0 <= j < |queue| && IsFresh(queue, history, j) {
          i :| 0 <= i < |queue| && IsFresh(queue, history, i);
        } else {
          i :| 0 <= i < |queue|;
        }
      }
    }

    /** `peek(index)`: the entry at a Python index, None where it is out of range. */
    function Peek(index: int): (r: Option<TrackInfo>)
      reads this
      ensures r.Some? <==> -|queue| <= index < |queue|
      ensures r.Some? && index >= 0 ==> r.value == queue[index]
      ensures r.Some? && index < 0 ==> r.value == queue[|queue| + index]
    {
      match PyIndex(index, |queue|)
      case None => None
      case Some(k) => Some(queue[k])
    }

    /** `remove(index)`: pop at a Python index; nothing changes when it is out of range. */
    method Remove(index: int) returns (r: Option<TrackInfo>)
      requires Valid()
      modifies this`queue
      ensures Valid()
      ensures r == old(Peek(index))
      ensures r.None? ==> queue == old(queue)
      ensures r.Some? ==> queue == RemoveAt(old(queue), PyIndex(index, |old(queue)|).value)
    {
      var k := PyIndex(index, |queue|);
      if k.None? {
        return None;
      }
      r := Some(queue[k.value]);
      queue := RemoveAt(queue, k.value);
    }

    /** `remove_by_uri(uri)`: pop the first entry with that URI. */
    method RemoveByUri(uri: string) returns (removed: bool)
      requires Valid()
      modifies this`queue
      ensures Valid()
      ensures removed <==> exists j :: 0 <= j < |old(queue)| && old(queue)[j].track.uri == uri
      ensures removed ==> queue == RemoveAt(old(queue), IndexOfUri(old(queue), uri).value)
      ensures !removed ==> queue == old(queue)
    {
      var i := 0;
      while i < |queue|
        invariant 0 <= i <= |queue|
        invariant forall j :: 0 <= j < i ==> queue[j].track.uri != uri
      {
        if queue[i].track.uri == uri {
          assert IndexOfUri(queue, uri) == Some(i);
          queue := RemoveAt(queue, i);
          return true;
        }
        i := i + 1;
      }
      return false;
    }

    /** `clear()`. */
    method Clear()
      requires Valid()
      modifies this`queue
      ensures Valid() && queue == []
    {
      queue := [];
    }

    /** `move(from_index, to_index)`: pop at a Python index, then insert with
        Python's clamping; False (and nothing changes) when the source
        index is out of range. */
    method Move(fromIndex: int, toIndex: int) returns (moved: bool)
      requires Valid()
      modifies this`queue
      ensures Valid()
      ensures moved <==> PyIndex(fromIndex, |old(queue)|).Some?
      ensures moved ==> queue == Moved(old(queue), PyIndex(fromIndex, |old(queue)|).value, toIndex)
      ensures moved ==> multiset(queue) == multiset(old(queue))
      ensures !moved ==> queue == old(queue)
    {
      var k := PyIndex(fromIndex, |queue|);
      if k.None? {
        return false;
      }
      MoveMeaning(queue, k.value, toIndex);
      queue := Moved(queue, k.value, toIndex);
      return true;
    }

    /** `shuffle()`: on two entries or more, keep the priority entries in
        front in their order, shuffle the others behind them, and switch
        shuffle mode on. */
    method Shuffle()
      requires Valid()
      modifies this`queue, this`shuffleEnabled
      ensures Valid()
      ensures old(|queue|) > 1 ==> ShuffledFrom(old(queue), queue) && shuffleEnabled
      ensures old(|queue|) <= 1 ==> queue == old(queue) && shuffleEnabled == old(shuffleEnabled)
      ensures multiset(queue) == multiset(old(queue))
    {
      if |queue| > 1 {
        var high := HighPriority(queue);
        var normal := Normal(queue);
        // random.shuffle: Fisher-Yates with a random partner for each position
        var i := |normal|;
        while i > 1
          invariant 0 <= i <= |normal|
          invariant multiset(normal) == multiset(Normal(old(queue)))
        {
          i := i - 1;
          var j :| 0 <= j <= i;
          SwapKeepsElements(normal, i, j);
          normal := normal[i := normal[j]][j := normal[i]];
        }
        PartitionIsPermutation(old(queue));
        queue := high + normal;
        assert queue[..|high|] == high && queue[|high|..] == normal;
        shuffleEnabled := true;
        ShuffleIsPermutation(old(queue), queue);
      }
    }

    /** `toggle_shuffle()`: switching shuffle on also shuffles. */
    method ToggleShuffle() returns (enabled: bool)
      requires Valid()
      modifies this`queue, this`shuffleEnabled
      ensures Valid()
      ensures enabled == !old(shuffleEnabled) && shuffleEnabled == enabled
      ensures enabled && old(|queue|) > 1 ==> ShuffledFrom(old(queue), queue)
      ensures !enabled || old(|queue|) <= 1 ==> queue == old(queue)
    {
      shuffleEnabled := !shuffleEnabled;
      if shuffleEnabled {
        Shuffle();
      }
      return shuffleEnabled;
    }

    /** `set_repeat_mode(mode)`: an unknown name leaves the mode as it was. */
    method SetRepeatMode(mode: string) returns (current: string)
      modifies this`repeatMode
      ensures ParseMode(mode).Some? ==> repeatMode == ParseMode(mode).value && current == mode
      ensures ParseMode(mode).None? ==> repeatMode == old(repeatMode)
      ensures current == ModeName(repeatMode)
    {
      var m := ParseMode(mode);
      if m.Some? {
        repeatMode := m.value;
      }
      return ModeName(repeatMode);
    }

    /** `toggle_repeat()`: off, track, queue, off, ... */
    method ToggleRepeat() returns (current: string)
      modifies this`repeatMode
      ensures repeatMode == NextMode(old(repeatMode)) && current == ModeName(repeatMode)
    {
      repeatMode := NextMode(repeatMode);
      return ModeName(repeatMode);
    }

    /** `get_history(limit)`: `history[-limit:]`, so the newest `limit`
        entries for a positive limit, the whole history for zero, and the
        history without its oldest `-limit` entries for a negative one. */
    function GetHistory(limit: int): (r: seq<TrackInfo>)
      reads this
      ensures |r| <= |history| && r == history[|history| - |r|..]
      ensures limit > 0 ==> |r| == if limit < |history| then limit else |history|
      ensures limit == 0 ==> r == history
      ensures limit < 0 ==> |r| == if -limit < |history| then |history| + limit else 0
    {
      SliceFrom(history, -limit)
    }

    method AddToFavorites(uri: string)
      modifies this`favorites
      ensures favorites == old(favorites) + {uri}
    {
      favorites := favorites + {uri};
    }

    /** `remove_from_favorites`: `set.discard`, so an absent URI is no error. */
    method RemoveFromFavorites(uri: string)
      modifies this`favorites
      ensures favorites == old(favorites) - {uri}
    {
      favorites := favorites - {uri};
    }

    /** `is_favorite(uri)`. */
    function IsFavorite(uri: string): (r: bool)
      reads this
      ensures r <==> uri in favorites
    {
      uri in favorites
    }

    /** `get_favorites()`: every favorite once, in some order. */
    method GetFavorites() returns (r: seq<string>)
      ensures forall u :: u in r <==> u in favorites
      ensures |r| == |favorites|
    {
      r := [];
      var rest := favorites;
      while rest != {}
        invariant rest <= favorites
        invariant forall u :: u in r <==> u in favorites - rest
        invariant |r| + |rest| == |favorites|
        decreases |rest|
      {
        var u :| u in rest;
        r := r + [u];
        rest := rest - {u};
      }
    }

    /** `_get_similar_tracks_from_history(current, limit)`: tracks by the
        current artist in history order, then the most played history tracks.
        None stands for the error the source raises when there is no
        current track yet one is consulted. */
    method SimilarTracksFromHistory(current: Option<Track>, limit: int) returns (r: Option<seq<Track>>)
      ensures r == SimilarTracks(history, current, limit)
    {
      if history == [] {
        return Some([]);
      }
      var acc: seq<Track> := [];
      if current.Some? && HasAuthor(current.value) {
        var artist := Lower(current.value.author.value);
        var i := 0;
        while i < |history|
          invariant 0 <= i <= |history|
          invariant acc == ArtistPass(history[..i], artist, current.value.uri, limit)
        {
          assert history[..i + 1][..i] == history[..i];
          acc := ArtistStep(acc, history[i], artist, current.value.uri, limit);
          i := i + 1;
        }
        assert history[..|history|] == history;
      }
      ghost var first := acc;
      var popular := SortByPlays(history);
      var i := 0;
      while i < |popular|
        invariant 0 <= i <= |popular|
        invariant current.Some? ==> acc == PopularPass(first, popular[..i], current.value.uri, limit)
        invariant current.None? ==> acc == [] && (i > 0 ==> limit <= 0)
      {
        var e := popular[i];
        if |acc| < limit && e.track !in acc {
          if current.None? {
            return None;
          }
        }
        assert popular[..i + 1][..i] == popular[..i];
        if current.Some? {
          acc := PopularStep(acc, e, current.value.uri, limit);
        }
        i := i + 1;
      }
      if current.None? && limit > 0 {
        // the loop above ran at least once on a non-empty history
        assert false;
      }
      assert popular[..|popular|] == popular;
      return Some(acc);
    }

    /** `generate_autoplay_suggestions(current, limit)`. `spotify` is what
        the Spotify step comes back with (see `SpotifyOutcome`). */
    method GenerateAutoplaySuggestions(current: Option<Track>, limit: int, spotify: SpotifyOutcome)
      returns (r: seq<Track>)
      ensures r == AutoplaySuggestions(history, autoplayEnabled, current, limit, spotify)
    {
      if !autoplayEnabled {
        return [];
      }
      if spotify.SpotifyFailed? {
        // the exception handler of the source
        return [];
      }
      if current.Some? && spotify.Recommended? {
        return spotify.tracks;
      }
      var similar := SimilarTracksFromHistory(current, limit);
      return similar.GetOr([]);
    }

    /** `get_queue_stats()`: one pass over the queue counting lengths,
        requesters and artists. */
    method GetQueueStats() returns (s: QueueStats)
      ensures s == Stats(queue)
    {
      if queue == [] {
        return QueueStats(0, 0, 0, [], GenresKey, [], None);
      }
      var total := 0;
      var requesters: Tally<UserId> := [];
      var artists: Tally<string> := [];
      var i := 0;
      while i < |queue|
        invariant 0 <= i <= |queue|
        invariant total == SumLengths(queue[..i])
        invariant requesters == TallyOf(Requesters(queue[..i]))
        invariant artists == TallyOf(Authors(queue[..i]))
      {
        var e := queue[i];
        ghost var q' := queue[..i + 1];
        assert q'[..i] == queue[..i] && q'[i] == e;
        total := total + e.track.length;
        if e.requester.Some? {
          ghost var ks := Requesters(q');
          assert ks == Requesters(queue[..i]) + [e.requester.value];
          assert ks[..|ks| - 1] == Requesters(queue[..i]);
          requesters := Bump(requesters, e.requester.value);
        } else {
          assert Requesters(q') == Requesters(queue[..i]);
        }
        if HasAuthor(e.track) {
          ghost var ks := Authors(q');
          assert ks == Authors(queue[..i]) + [e.track.author.value];
          assert ks[..|ks| - 1] == Authors(queue[..i]);
          artists := Bump(artists, e.track.author.value);
        } else {
          assert Authors(q') == Authors(queue[..i]);
        }
        i := i + 1;
      }
      assert queue[..|queue|] == queue;
      var most := if artists == [] then None else Some(artists[FirstMax(artists)].0);
      return QueueStats(|queue|, total, total / |queue|, requesters, ArtistsKey, artists, most);
    }

    /** `to_dict()`: the queue, the newest 20 history entries and the settings. */
    function ToSnapshot(): (s: QueueSnapshot)
      reads this
      ensures s.queue == Dicts(queue)
      ensures |s.history| == if |history| < SnapshotHistory then |history| else SnapshotHistory
      ensures s.history == Dicts(history[|history| - |s.history|..])
      ensures s.repeatMode == ModeName(repeatMode) && s.favorites == favorites
    {
      QueueSnapshot(guildId, Dicts(queue), Dicts(SliceFrom(history, -(SnapshotHistory as int))),
                    favorites, shuffleEnabled, ModeName(repeatMode), autoplayEnabled,
                    userPreferences, totalTracksAdded, totalTracksPlayed, createdAt)
    }
  }

  lemma SwapKeepsElements<T>(s: seq<T>, i: nat, j: nat)
    requires i < |s| && j < |s|
    ensures multiset(s[i := s[j]][j := s[i]]) == multiset(s)
  {
    if i != j {
      var t := s[i := s[j]][j := s[i]];
      assert multiset(s[i := s[j]]) == multiset(s) - multiset{s[i]} + multiset{s[j]};
    }
  }

  /** `QueueManager`: one queue per guild, created on first use. */
  class QueueManager {
    var queues: map<int, AdvancedQueue>
    var persistenceEnabled: bool
    const saveInterval: int
    /** `config.MAX_QUEUE_SIZE`, handed to every queue it creates. */
    const configMaxSize: int

    /** Each queue is valid, filed under its own guild, and no two guilds share one. */
    ghost predicate Valid()
      reads this, queues.Values
    {
      && (forall g :: g in queues ==> queues[g].guildId == g && queues[g].Valid())
      && (forall g1, g2 :: g1 in queues && g2 in queues && g1 != g2 ==> queues[g1] != queues[g2])
    }

    constructor (configMaxSize: int)
      ensures Valid()
      ensures queues == map[] && persistenceEnabled && saveInterval == 300
      ensures this.configMaxSize == configMaxSize
    {
      queues := map[];
      persistenceEnabled := true;
      saveInterval := 300;
      this.configMaxSize := configMaxSize;
    }

    /** `get_queue(guild_id)`: the guild's queue, created empty if absent. */
    method GetQueue(guildId: int, now: Timestamp) returns (q: AdvancedQueue)
      requires Valid()
      modifies this
      ensures Valid()
      ensures guildId in queues && queues[guildId] == q
      ensures guildId in old(queues) ==> q == old(queues)[guildId] && queues == old(queues)
      ensures guildId !in old(queues) ==>
                fresh(q) && queues == old(queues)[guildId := q] && q.queue == [] && q.history == []
                && q.maxSize == configMaxSize
      ensures persistenceEnabled == old(persistenceEnabled)
    {
      if guildId !in queues {
        var created := new AdvancedQueue(guildId, None, configMaxSize, now);
        queues := queues[guildId := created];
      }
      q := queues[guildId];
    }

    /** `remove_queue(guild_id)`: True when there was a queue to drop. */
    method RemoveQueue(guildId: int) returns (removed: bool)
      requires Valid()
      modifies this
      ensures Valid()
      ensures removed == (guildId in old(queues))
      ensures queues == old(queues) - {guildId}
      ensures persistenceEnabled == old(persistenceEnabled)
    {
      removed := guildId in queues;
      queues := queues - {guildId};
    }

    /** `cleanup_guild_data(guild_id)` when the bot leaves a guild. */
    method CleanupGuildData(guildId: int)
      requires Valid()
      modifies this
      ensures Valid()
      ensures queues == old(queues) - {guildId}
      ensures persistenceEnabled == old(persistenceEnabled)
    {
      queues := queues - {guildId};
    }
  }
}
