/**
 * Values and pure definitions behind the per-guild playback queue of
 * utils/advanced_queue.py: what a queued entry is, where `add` places it,
 * how `get` may choose, what the bounded history keeps, how `shuffle`
 * partitions, what the statistics and the autoplay fallback compute.
 * The class that changes this state in place is in advanced_queue.dfy.
 */
module QueueModel {
  import opened Wrappers
  import opened Text

  type UserId = int

  /** A clock reading (`datetime.now`): opaque to the queue. */
  type Timestamp = int

  /** A playable track: its URI, title, optional author and length in milliseconds. */
  datatype Track = Track(uri: string, title: string, author: Option<string>, length: int)

  /** `track.author` is truthy: present and non-empty. */
  predicate HasAuthor(t: Track) {
    t.author.Some? && t.author.value != ""
  }

  /** One queued entry (`TrackInfo`). */
  datatype TrackInfo = TrackInfo(
    track: Track,
    requester: Option<UserId>,
    addedAt: Timestamp,
    priority: int,
    metadata: map<string, string>,
    playCount: nat,
    skipCount: nat,
    lastPlayed: Option<Timestamp>,
    totalListeningTime: int)

  /** The entry `add` builds: zeroed statistics. */
  function NewEntry(track: Track, requester: Option<UserId>, priority: int,
                    metadata: map<string, string>, now: Timestamp): TrackInfo
  {
    TrackInfo(track, requester, now, priority, metadata, 0, 0, None, 0)
  }

  /** The serialised form of one entry (`TrackInfo.to_dict`). */
  datatype TrackDict = TrackDict(
    uri: string, title: string, author: Option<string>, length: int,
    requesterId: Option<UserId>, addedAt: Timestamp, priority: int,
    metadata: map<string, string>, playCount: nat, skipCount: nat,
    totalListeningTime: int)

  function ToDict(e: TrackInfo): (d: TrackDict)
    ensures d.uri == e.track.uri && d.priority == e.priority && d.requesterId == e.requester
    ensures d.playCount == e.playCount && d.length == e.track.length
  {
    TrackDict(e.track.uri, e.track.title, e.track.author, e.track.length,
              e.requester, e.addedAt, e.priority, e.metadata, e.playCount,
              e.skipCount, e.totalListeningTime)
  }

  // ---------------------------------------------------------------------------
  // Capacity and insertion order (add / add_next)

  /** How many entries a queue with `max_size` can hold: `is_full` is
      `len >= max_size`, so a non-positive size admits nothing. */
  function Capacity(maxSize: int): nat {
    if maxSize < 0 then 0 else maxSize
  }

  /** The index of the first entry whose priority is strictly below `p`, or
      the length when there is none: where a priority entry is inserted. */
  function InsertionIndex(q: seq<TrackInfo>, p: int): (k: nat)
    ensures k <= |q|
    ensures forall j :: 0 <= j < k ==> q[j].priority >= p
    ensures k < |q| ==> q[k].priority < p
    decreases |q|
  {
    if |q| == 0 then 0
    else if q[0].priority < p then 0
    else 1 + InsertionIndex(q[1..], p)
  }

  /** Where `add` puts an entry of priority `p`: by priority when `p > 0`,
      at the end otherwise. */
  function Placement(q: seq<TrackInfo>, p: int): nat {
    if p > 0 then InsertionIndex(q, p) else |q|
  }

  function InsertAt<T>(q: seq<T>, k: nat, e: T): (r: seq<T>)
    requires k <= |q|
    ensures |r| == |q| + 1 && r[k] == e
    ensures r[..k] == q[..k] && r[k + 1..] == q[k..]
  {
    q[..k] + [e] + q[k..]
  }

  /** The two conditions of InsertionIndex determine the index. */
  lemma InsertionIndexUnique(q: seq<TrackInfo>, p: int, k: nat)
    requires k <= |q|
    requires forall j :: 0 <= j < k ==> q[j].priority >= p
    requires k < |q| ==> q[k].priority < p
    ensures k == InsertionIndex(q, p)
  {
  }

  /** Priorities never increase from front to back. */
  predicate NonIncreasing(q: seq<TrackInfo>) {
    forall i, j :: 0 <= i < j < |q| ==> q[i].priority >= q[j].priority
  }

  /** Adding keeps a queue ordered by priority, as long as a non-priority
      entry is not appended behind an entry of still lower priority. */
  lemma AddKeepsOrder(q: seq<TrackInfo>, e: TrackInfo)
    requires NonIncreasing(q)
    requires e.priority > 0 || q == [] || q[|q| - 1].priority >= e.priority
    ensures NonIncreasing(InsertAt(q, Placement(q, e.priority), e))
  {
    var k := Placement(q, e.priority);
    var r := InsertAt(q, k, e);
    forall i, j | 0 <= i < j < |r| ensures r[i].priority >= r[j].priority {
      if i < k && j == k {
        if e.priority <= 0 { assert q[|q| - 1].priority >= e.priority; assert q[i].priority >= q[|q| - 1].priority || i == |q| - 1; }
      } else if i == k && j > k {
        assert r[j] == q[j - 1];
      } else if i < k && j > k {
        assert r[j] == q[j - 1];
      } else if i > k {
        assert r[i] == q[i - 1] && r[j] == q[j - 1];
      }
    }
  }

  /** `add_next` (priority 999) puts its entry at the front unless an entry
      of priority at least 999 is already first. */
  lemma AddNextGoesFirst(q: seq<TrackInfo>)
    ensures Placement(q, 999) == 0 <==> (q == [] || q[0].priority < 999)
  {
  }

  /** Entries of equal priority keep their insertion order: a new entry of
      priority p lands behind every entry of priority p already queued. */
  lemma EqualPriorityFifo(q: seq<TrackInfo>, p: int, j: nat)
    requires NonIncreasing(q)
    requires p > 0 && j < |q| && q[j].priority == p
    ensures j < Placement(q, p)
  {
  }

  // ---------------------------------------------------------------------------
  // Taking an entry (get) and the bounded history

  const HistoryCapacity: nat := 100

  /** The length-bounded deque: the newest `HistoryCapacity` entries of `h`. */
  function Newest<T>(h: seq<T>): (r: seq<T>)
    ensures |r| == if |h| <= HistoryCapacity then |h| else HistoryCapacity
    ensures r == h[|h| - |r|..]
  {
    if |h| <= HistoryCapacity then h else h[|h| - HistoryCapacity..]
  }

  /** `deque.append` on a deque with maxlen 100. */
  function PushHistory<T>(h: seq<T>, e: T): (r: seq<T>)
    requires |h| <= HistoryCapacity
    ensures |r| <= HistoryCapacity && |r| > 0 && r[|r| - 1] == e
  {
    Newest(h + [e])
  }

  /** Pushing entries one at a time. */
  function PushAll<T>(h: seq<T>, es: seq<T>): seq<T>
    requires |h| <= HistoryCapacity
    decreases |es|
  {
    if es == [] then h else PushAll(PushHistory(h, es[0]), es[1..])
  }

  /** However many entries go through the history, it holds exactly the 100
      newest of everything ever pushed, in play order. */
  lemma {:induction false} PushAllKeepsNewest<T>(h: seq<T>, es: seq<T>)
    requires |h| <= HistoryCapacity
    ensures PushAll(h, es) == Newest(h + es)
    decreases |es|
  {
    if es != [] {
      var h1 := PushHistory(h, es[0]);
      PushAllKeepsNewest(h1, es[1..]);
      NewestOfNewest(h + [es[0]], es[1..]);
      assert h + [es[0]] + es[1..] == h + es;
    }
  }

  lemma NewestOfNewest<T>(a: seq<T>, b: seq<T>)
    ensures Newest(Newest(a) + b) == Newest(a + b)
  {
    var na := Newest(a);
    if |a| > HistoryCapacity {
      var d := |a| - HistoryCapacity;
      assert na + b == (a + b)[d..];
    }
  }

  /** `get` marks the entry it takes as played. */
  function MarkPlayed(e: TrackInfo, now: Timestamp): (r: TrackInfo)
    ensures r.playCount == e.playCount + 1 && r.lastPlayed == Some(now)
    ensures r.track == e.track && r.priority == e.priority && r.requester == e.requester
  {
    e.(playCount := e.playCount + 1, lastPlayed := Some(now))
  }

  function RemoveAt<T>(q: seq<T>, i: nat): (r: seq<T>)
    requires i < |q|
    ensures |r| == |q| - 1
    ensures multiset(r) + multiset{q[i]} == multiset(q)
  {
    assert q == q[..i] + [q[i]] + q[i + 1..];
    q[..i] + q[i + 1..]
  }

  /** The index of the first entry with this URI (what `remove_by_uri` pops). */
  function IndexOfUri(q: seq<TrackInfo>, uri: string): (r: Option<nat>)
    ensures r.Some? ==> r.value < |q| && q[r.value].track.uri == uri
    ensures r.Some? ==> forall j :: 0 <= j < r.value ==> q[j].track.uri != uri
    ensures r.None? ==> forall j :: 0 <= j < |q| ==> q[j].track.uri != uri
    decreases |q|
  {
    if q == [] then None
    else if q[0].track.uri == uri then Some(0)
    else match IndexOfUri(q[1..], uri)
      case None => None
      case Some(k) => Some(k + 1)
  }

  /** `x = q.pop(k); q.insert(to, x)`. */
  function Moved<T>(q: seq<T>, k: nat, to: int): seq<T>
    requires k < |q|
  {
    InsertAt(RemoveAt(q, k), Clamp(to, |q| - 1), q[k])
  }

  /** A move is a permutation that puts the entry where it was asked to go
      (the end when asked past it) and leaves the queue as it was when an
      entry is moved onto its own position. */
  lemma MoveMeaning<T>(q: seq<T>, k: nat, to: int)
    requires k < |q|
    ensures multiset(Moved(q, k, to)) == multiset(q) && |Moved(q, k, to)| == |q|
    ensures 0 <= to < |q| ==> Moved(q, k, to)[to] == q[k]
    ensures to >= |q| ==> Moved(q, k, to)[|q| - 1] == q[k]
    ensures Moved(q, k, k) == q
  {
    var r := RemoveAt(q, k);
    assert multiset(InsertAt(r, Clamp(to, |q| - 1), q[k])) == multiset(r) + multiset{q[k]} by {
      var c := Clamp(to, |q| - 1);
      assert InsertAt(r, c, q[k]) == r[..c] + [q[k]] + r[c..];
      assert r == r[..c] + r[c..];
    }
    assert Moved(q, k, k) == q by {
      assert q == q[..k] + [q[k]] + q[k + 1..];
    }
  }

  function Uris(h: seq<TrackInfo>): (r: seq<string>)
    ensures |r| == |h|
    ensures forall i :: 0 <= i < |h| ==> r[i] == h[i].track.uri
  {
    seq(|h|, i requires 0 <= i < |h| => h[i].track.uri)
  }

  /** `_was_recently_played(uri, recent_count)`: the uri is among the URIs of
      `history[-recent_count:]` (with Python's reading of `-0`). */
  predicate WasRecentlyPlayed(h: seq<TrackInfo>, uri: string, recentCount: int) {
    uri in Uris(SliceFrom(h, -recentCount))
  }

  /** The window `get` consults. */
  const RecentWindow: int := 3

  predicate IsFresh(q: seq<TrackInfo>, h: seq<TrackInfo>, i: int) {
    0 <= i < |q| && !WasRecentlyPlayed(h, q[i].track.uri, RecentWindow)
  }

  /** The indices `get` may take from: the front without shuffle (or with a
      single entry); with shuffle, any entry not heard in the last three
      plays, or any entry at all when every one was. */
  predicate AllowedPick(q: seq<TrackInfo>, h: seq<TrackInfo>, shuffle: bool, i: int) {
    && 0 <= i < |q|
    && (if shuffle && |q| > 1 then
          (exists j :: 0 <= j < |q| && IsFresh(q, h, j)) ==> IsFresh(q, h, i)
        else i == 0)
  }

  /** The last three URIs of the history are all `get` looks at. */
  lemma WasRecentlyPlayedWindow(h: seq<TrackInfo>, uri: string)
    ensures WasRecentlyPlayed(h, uri, RecentWindow) <==>
            exists j :: |h| - 3 <= j < |h| && 0 <= j && h[j].track.uri == uri
  {
    var w := SliceFrom(h, -RecentWindow);
    var s := Clamp(-RecentWindow, |h|);
    assert w == h[s..];
    if uri in Uris(w) {
      var k :| 0 <= k < |w| && Uris(w)[k] == uri;
      assert h[s + k].track.uri == uri;
    }
    if exists j :: |h| - 3 <= j < |h| && 0 <= j && h[j].track.uri == uri {
      var j :| |h| - 3 <= j < |h| && 0 <= j && h[j].track.uri == uri;
      assert Uris(w)[j - s] == uri;
    }
  }

  /** With shuffle on and two entries or more, when some entry was not among
      the last three plays, every allowed pick is such an entry. */
  lemma ShufflePickAvoidsRecent(q: seq<TrackInfo>, h: seq<TrackInfo>, i: int, j: int)
    requires AllowedPick(q, h, true, i) && |q| > 1
    requires 0 <= j < |q| && !WasRecentlyPlayed(h, q[j].track.uri, RecentWindow)
    ensures !WasRecentlyPlayed(h, q[i].track.uri, RecentWindow)
  {
    assert IsFresh(q, h, j);
  }

  /** Some pick is always allowed on a non-empty queue. */
  lemma SomePickAllowed(q: seq<TrackInfo>, h: seq<TrackInfo>, shuffle: bool)
    requires q != []
    ensures exists i :: AllowedPick(q, h, shuffle, i)
  {
    if shuffle && |q| > 1 && exists j :: 0 <= j < |q| && IsFresh(q, h, j) {
      var j :| 0 <= j < |q| && IsFresh(q, h, j);
      assert AllowedPick(q, h, shuffle, j);
    } else {
      assert AllowedPick(q, h, shuffle, 0);
    }
  }

  // ---------------------------------------------------------------------------
  // shuffle(): priority entries stay in front, in order

  function HighPriority(q: seq<TrackInfo>): (r: seq<TrackInfo>)
    ensures forall i :: 0 <= i < |r| ==> r[i].priority > 0
    decreases |q|
  {
    if q == [] then []
    else (if q[0].priority > 0 then [q[0]] else []) + HighPriority(q[1..])
  }

  function Normal(q: seq<TrackInfo>): (r: seq<TrackInfo>)
    ensures forall i :: 0 <= i < |r| ==> r[i].priority <= 0
    decreases |q|
  {
    if q == [] then []
    else (if q[0].priority <= 0 then [q[0]] else []) + Normal(q[1..])
  }

  /** The two halves of the partition hold exactly the queue's entries. */
  lemma {:induction false} PartitionIsPermutation(q: seq<TrackInfo>)
    ensures multiset(HighPriority(q)) + multiset(Normal(q)) == multiset(q)
    ensures |HighPriority(q)| + |Normal(q)| == |q|
    decreases |q|
  {
    if q != [] {
      PartitionIsPermutation(q[1..]);
      assert q == [q[0]] + q[1..];
    }
  }

  /** What `shuffle()` may leave in a queue of two entries or more: the
      priority entries in their old order, then the others in any order. */
  predicate ShuffledFrom(old_q: seq<TrackInfo>, q: seq<TrackInfo>) {
    var hp := HighPriority(old_q);
    && |hp| <= |q|
    && q[..|hp|] == hp
    && multiset(q[|hp|..]) == multiset(Normal(old_q))
  }

  /** A shuffle is a permutation of the queue. */
  lemma ShuffleIsPermutation(old_q: seq<TrackInfo>, q: seq<TrackInfo>)
    requires ShuffledFrom(old_q, q)
    ensures multiset(q) == multiset(old_q)
  {
    var hp := HighPriority(old_q);
    assert q == q[..|hp|] + q[|hp|..];
    PartitionIsPermutation(old_q);
  }

  // ---------------------------------------------------------------------------
  // Repeat modes

  datatype RepeatMode = Off | RepeatTrack | RepeatQueue

  function ModeName(m: RepeatMode): string {
    match m
    case Off => "off"
    case RepeatTrack => "track"
    case RepeatQueue => "queue"
  }

  /** The mode a string names, if it is one of 'off', 'track', 'queue'. */
  function ParseMode(s: string): (r: Option<RepeatMode>)
    ensures r.Some? ==> ModeName(r.value) == s
    ensures (exists m :: ModeName(m) == s) ==> r.Some?
  {
    if s == "off" then Some(Off)
    else if s == "track" then Some(RepeatTrack)
    else if s == "queue" then Some(RepeatQueue)
    else None
  }

  /** The cycle off -> track -> queue -> off of `toggle_repeat`. */
  function NextMode(m: RepeatMode): RepeatMode {
    match m
    case Off => RepeatTrack
    case RepeatTrack => RepeatQueue
    case RepeatQueue => Off
  }

  /** Toggling three times comes back to the same mode, and never earlier. */
  lemma NextModeCycle(m: RepeatMode)
    ensures NextMode(NextMode(NextMode(m))) == m
    ensures NextMode(m) != m && NextMode(NextMode(m)) != m
  {
  }

  // ---------------------------------------------------------------------------
  // Listening preferences

  /** `_user_preferences[user_id]`: genre counts (never filled), artist
      counts keyed by lower-cased author, and a track count. */
  datatype UserPrefs = UserPrefs(genres: map<string, nat>, artists: map<string, nat>, trackCount: nat)

  function ArtistKey(t: Track): string
    requires HasAuthor(t)
  {
    Lower(t.author.value)
  }

  /** `_update_user_preferences(user, track)`. */
  function PrefsAfter(prefs: map<UserId, UserPrefs>, requester: Option<UserId>, t: Track): map<UserId, UserPrefs> {
    match requester
    case None => prefs
    case Some(u) =>
      var p := if u in prefs then prefs[u] else UserPrefs(map[], map[], 0);
      var artists :=
        if HasAuthor(t) then
          var a := ArtistKey(t);
          p.artists[a := (if a in p.artists then p.artists[a] else 0) + 1]
        else p.artists;
      prefs[u := p.(trackCount := p.trackCount + 1, artists := artists)]
  }

  function ArtistCount(prefs: map<UserId, UserPrefs>, u: UserId, a: string): nat {
    if u in prefs && a in prefs[u].artists then prefs[u].artists[a] else 0
  }

  function TrackCount(prefs: map<UserId, UserPrefs>, u: UserId): nat {
    if u in prefs then prefs[u].trackCount else 0
  }

  /** A requested track adds exactly one to that user's track count and one
      to the count of its lower-cased author; nothing else changes. */
  lemma PrefsAfterCounts(prefs: map<UserId, UserPrefs>, requester: Option<UserId>, t: Track, u: UserId, a: string)
    ensures TrackCount(PrefsAfter(prefs, requester, t), u) ==
            TrackCount(prefs, u) + (if requester == Some(u) then 1 else 0)
    ensures ArtistCount(PrefsAfter(prefs, requester, t), u, a) ==
            ArtistCount(prefs, u, a) + (if requester == Some(u) && HasAuthor(t) && ArtistKey(t) == a then 1 else 0)
    ensures requester.None? ==> PrefsAfter(prefs, requester, t) == prefs
  {
  }

  // ---------------------------------------------------------------------------
  // get_queue_stats

  function SumLengths(q: seq<TrackInfo>): int
    decreases |q|
  {
    if q == [] then 0 else SumLengths(q[..|q| - 1]) + q[|q| - 1].track.length
  }

  /** A dictionary built by counting, as an association list in insertion
      order (Python dictionaries remember the order keys were first added). */
  type Tally<K> = seq<(K, nat)>

  function Keys<K>(t: Tally<K>): seq<K> {
    seq(|t|, i requires 0 <= i < |t| => t[i].0)
  }

  function Lookup<K(==)>(t: Tally<K>, k: K): nat
    decreases |t|
  {
    if t == [] then 0 else if t[0].0 == k then t[0].1 else Lookup(t[1..], k)
  }

  /** `d[k] = d.get(k, 0) + 1`. */
  function Bump<K(==)>(t: Tally<K>, k: K): (r: Tally<K>)
    decreases |t|
  {
    if t == [] then [(k, 1)]
    else if t[0].0 == k then [(k, t[0].1 + 1)] + t[1..]
    else [t[0]] + Bump(t[1..], k)
  }

  predicate DistinctKeys<K(==)>(t: Tally<K>) {
    forall i, j :: 0 <= i < j < |t| ==> t[i].0 != t[j].0
  }

  lemma {:induction false} BumpCounts<K>(t: Tally<K>, k: K, x: K)
    requires DistinctKeys(t)
    ensures DistinctKeys(Bump(t, k))
    ensures Lookup(Bump(t, k), x) == Lookup(t, x) + (if x == k then 1 else 0)
    ensures forall i :: 0 <= i < |Bump(t, k)| ==> Bump(t, k)[i].1 > 0 || (i < |t| && Bump(t, k)[i] == t[i])
    decreases |t|
  {
    if t != [] && t[0].0 != k {
      BumpCounts(t[1..], k, x);
      var r := Bump(t, k);
      assert r == [t[0]] + Bump(t[1..], k);
      forall i, j | 0 <= i < j < |r| ensures r[i].0 != r[j].0 {
        if i == 0 {
          BumpKeys(t[1..], k);
          assert r[j].0 in Keys(Bump(t[1..], k)) by { assert Keys(Bump(t[1..], k))[j - 1] == r[j].0; }
          assert r[j].0 in Keys(t[1..]) || r[j].0 == k;
          if r[j].0 in Keys(t[1..]) {
            var m :| 0 <= m < |t[1..]| && Keys(t[1..])[m] == r[j].0;
            assert t[m + 1].0 == r[j].0;
          }
        }
      }
    } else if t != [] {
      var r := Bump(t, k);
      forall i, j | 0 <= i < j < |r| ensures r[i].0 != r[j].0 {
        assert r[j] == t[j];
        if i > 0 { assert r[i] == t[i]; }
      }
    }
  }

  lemma {:induction false} BumpKeys<K>(t: Tally<K>, k: K)
    ensures forall y :: y in Keys(Bump(t, k)) <==> y in Keys(t) || y == k
    decreases |t|
  {
    if t != [] && t[0].0 != k {
      BumpKeys(t[1..], k);
      assert Keys(Bump(t, k)) == [t[0].0] + Keys(Bump(t[1..], k));
      assert Keys(t) == [t[0].0] + Keys(t[1..]);
    } else if t != [] {
      assert Keys(Bump(t, k)) == Keys(t) && Keys(t)[0] == k;
    } else {
      assert Keys(Bump(t, k)) == [k];
    }
  }

  /** Counting a sequence of keys. */
  function TallyOf<K(==)>(ks: seq<K>): Tally<K>
    decreases |ks|
  {
    if ks == [] then [] else Bump(TallyOf(ks[..|ks| - 1]), ks[|ks| - 1])
  }

  function Occurrences<K(==)>(ks: seq<K>, x: K): nat
    decreases |ks|
  {
    if ks == [] then 0 else Occurrences(ks[..|ks| - 1], x) + (if ks[|ks| - 1] == x then 1 else 0)
  }

  /** Every key's tally is the number of times it occurs, and no key is listed twice. */
  lemma {:induction false} TallyOfCounts<K>(ks: seq<K>, x: K)
    ensures DistinctKeys(TallyOf(ks))
    ensures Lookup(TallyOf(ks), x) == Occurrences(ks, x)
    decreases |ks|
  {
    if ks != [] {
      TallyOfCounts(ks[..|ks| - 1], x);
      BumpCounts(TallyOf(ks[..|ks| - 1]), ks[|ks| - 1], x);
    }
  }

  /** The artists of the authored entries, as the stats loop sees them (not lower-cased). */
  function Authors(q: seq<TrackInfo>): (r: seq<string>)
    decreases |q|
  {
    if q == [] then []
    else Authors(q[..|q| - 1]) + (if HasAuthor(q[|q| - 1].track) then [q[|q| - 1].track.author.value] else [])
  }

  function Requesters(q: seq<TrackInfo>): (r: seq<UserId>)
    decreases |q|
  {
    if q == [] then []
    else Requesters(q[..|q| - 1]) + (if q[|q| - 1].requester.Some? then [q[|q| - 1].requester.value] else [])
  }

  /** `max(d.items(), key=count)[0]`: the first key of maximal count. */
  function FirstMax<K>(t: Tally<K>): (i: nat)
    requires t != []
    ensures i < |t|
    ensures forall j :: 0 <= j < |t| ==> t[j].1 <= t[i].1
    ensures forall j :: 0 <= j < i ==> t[j].1 < t[i].1
    decreases |t|
  {
    if |t| == 1 then 0
    else
      var i := FirstMax(t[..|t| - 1]);
      if t[|t| - 1].1 > t[i].1 then |t| - 1 else i
  }

  /** Which key the statistics dictionary files the artist counts under:
      `genres` for an empty queue, `artists` otherwise. */
  datatype CountsKey = GenresKey | ArtistsKey

  datatype QueueStats = QueueStats(
    totalTracks: nat,
    totalDuration: int,
    averageDuration: int,
    requesters: Tally<UserId>,
    countsKey: CountsKey,
    artists: Tally<string>,
    mostRequestedArtist: Option<string>)

  /** The statistics of a queue, as `get_queue_stats` assembles them. */
  function Stats(q: seq<TrackInfo>): (r: QueueStats)
    ensures r.totalTracks == |q| && r.totalDuration == SumLengths(q)
    ensures r.countsKey == GenresKey <==> q == []
    ensures r.mostRequestedArtist.None? <==> Authors(q) == []
  {
    if q == [] then QueueStats(0, 0, 0, [], GenresKey, [], None)
    else
      var total := SumLengths(q);
      var artists := TallyOf(Authors(q));
      QueueStats(|q|, total, total / |q|, TallyOf(Requesters(q)), ArtistsKey, artists,
                 if artists == [] then None else Some(artists[FirstMax(artists)].0))
  }

  /** `get_queue_stats` summed up: zero and no artist on an empty queue;
      otherwise the count, the summed lengths, their floor average, per-user
      and per-artist counts, and an artist with the largest count. */
  lemma StatsMeaning(q: seq<TrackInfo>, a: string, u: UserId)
    ensures q == [] ==> Stats(q) == QueueStats(0, 0, 0, [], GenresKey, [], None)
    ensures q != [] ==> Stats(q).countsKey == ArtistsKey && Stats(q).totalTracks == |q|
    ensures Stats(q).totalDuration == SumLengths(q)
    ensures q != [] ==> Stats(q).averageDuration * |q| <= SumLengths(q) < (Stats(q).averageDuration + 1) * |q|
    ensures q != [] ==> Lookup(Stats(q).artists, a) == Occurrences(Authors(q), a)
    ensures q != [] ==> Lookup(Stats(q).requesters, u) == Occurrences(Requesters(q), u)
    ensures q != [] ==> (Stats(q).mostRequestedArtist.None? <==> Authors(q) == [])
    ensures Stats(q).mostRequestedArtist.Some? ==>
              Occurrences(Authors(q), a) <= Occurrences(Authors(q), Stats(q).mostRequestedArtist.value)
  {
    if q != [] {
      TallyOfCounts(Authors(q), a);
      TallyOfCounts(Requesters(q), u);
      var artists := TallyOf(Authors(q));
      if artists != [] {
        var i := FirstMax(artists);
        var best := artists[i].0;
        TallyOfCounts(Authors(q), best);
        LookupAt(artists, i);
        LookupBound(artists, a, artists[i].1);
      }
    }
  }

  lemma {:induction false} LookupAt<K>(t: Tally<K>, i: nat)
    requires DistinctKeys(t) && i < |t|
    ensures Lookup(t, t[i].0) == t[i].1
    decreases |t|
  {
    if i > 0 {
      assert t[0].0 != t[i].0;
      LookupAt(t[1..], i - 1);
    }
  }

  lemma {:induction false} LookupBound<K>(t: Tally<K>, x: K, m: nat)
    requires forall j :: 0 <= j < |t| ==> t[j].1 <= m
    ensures Lookup(t, x) <= m
    decreases |t|
  {
    if t != [] && t[0].0 != x { LookupBound(t[1..], x, m); }
  }

  // ---------------------------------------------------------------------------
  // The snapshot (to_dict)

  const SnapshotHistory: nat := 20

  datatype QueueSnapshot = QueueSnapshot(
    guildId: int,
    queue: seq<TrackDict>,
    history: seq<TrackDict>,
    favorites: set<string>,
    shuffleEnabled: bool,
    repeatMode: string,
    autoplayEnabled: bool,
    userPreferences: map<UserId, UserPrefs>,
    totalTracksAdded: nat,
    totalTracksPlayed: nat,
    createdAt: Timestamp)

  function Dicts(q: seq<TrackInfo>): (r: seq<TrackDict>)
    ensures |r| == |q|
    ensures forall i :: 0 <= i < |q| ==> r[i] == ToDict(q[i])
  {
    seq(|q|, i requires 0 <= i < |q| => ToDict(q[i]))
  }

  // ---------------------------------------------------------------------------
  // The local autoplay fallback (_get_similar_tracks_from_history)

  /** Python's `sorted(history, key=play_count, reverse=True)`: insertion into
      a list already ordered by falling play count, behind every entry that
      was played at least as often. */
  function InsertByPlays(s: seq<TrackInfo>, e: TrackInfo): (r: seq<TrackInfo>)
    ensures multiset(r) == multiset(s) + multiset{e}
    ensures |r| == |s| + 1
    decreases |s|
  {
    if s == [] then [e]
    else if s[0].playCount < e.playCount then [e] + s
    else
      assert s == [s[0]] + s[1..];
      [s[0]] + InsertByPlays(s[1..], e)
  }

  function SortByPlays(h: seq<TrackInfo>): (r: seq<TrackInfo>)
    ensures multiset(r) == multiset(h)
    ensures |r| == |h|
    decreases |h|
  {
    if h == [] then []
    else
      assert h == h[..|h| - 1] + [h[|h| - 1]];
      InsertByPlays(SortByPlays(h[..|h| - 1]), h[|h| - 1])
  }

  predicate PlaysDescending(s: seq<TrackInfo>) {
    forall i, j :: 0 <= i < j < |s| ==> s[i].playCount >= s[j].playCount
  }

  lemma {:induction false} InsertByPlaysSorted(s: seq<TrackInfo>, e: TrackInfo)
    requires PlaysDescending(s)
    ensures PlaysDescending(InsertByPlays(s, e))
    decreases |s|
  {
    if s != [] && s[0].playCount >= e.playCount {
      InsertByPlaysSorted(s[1..], e);
      var r := InsertByPlays(s, e);
      forall j | 0 < j < |r| ensures r[0].playCount >= r[j].playCount {
        assert r[j] in multiset(InsertByPlays(s[1..], e));
        assert r[j] in multiset(s[1..]) || r[j] == e;
        if r[j] != e {
          var m :| 0 <= m < |s[1..]| && s[1..][m] == r[j];
          assert s[m + 1] == r[j];
        }
      }
    }
  }

  /** The popularity order is a permutation of the history, most played first. */
  lemma {:induction false} SortByPlaysSorted(h: seq<TrackInfo>)
    ensures PlaysDescending(SortByPlays(h))
    decreases |h|
  {
    if h != [] {
      SortByPlaysSorted(h[..|h| - 1]);
      InsertByPlaysSorted(SortByPlays(h[..|h| - 1]), h[|h| - 1]);
    }
  }

  /** One step of the same-artist pass: append the entry's track when it is
      by the current artist, is not the current track, and there is room. */
  function ArtistStep(acc: seq<Track>, e: TrackInfo, artist: string, uri: string, limit: int): seq<Track> {
    if HasAuthor(e.track) && Lower(e.track.author.value) == artist && e.track.uri != uri && |acc| < limit
    then acc + [e.track] else acc
  }

  function ArtistPass(h: seq<TrackInfo>, artist: string, uri: string, limit: int): seq<Track>
    decreases |h|
  {
    if h == [] then [] else ArtistStep(ArtistPass(h[..|h| - 1], artist, uri, limit), h[|h| - 1], artist, uri, limit)
  }

  /** One step of the popularity pass. */
  function PopularStep(acc: seq<Track>, e: TrackInfo, uri: string, limit: int): seq<Track> {
    if |acc| < limit && e.track !in acc && e.track.uri != uri then acc + [e.track] else acc
  }

  function PopularPass(acc: seq<Track>, ps: seq<TrackInfo>, uri: string, limit: int): (r: seq<Track>)
    ensures |acc| <= |r| && r[..|acc|] == acc
    decreases |ps|
  {
    if ps == [] then acc else PopularStep(PopularPass(acc, ps[..|ps| - 1], uri, limit), ps[|ps| - 1], uri, limit)
  }

  /** `_get_similar_tracks_from_history(current, limit)`: None where the
      source raises (no current track, yet it is consulted). */
  function SimilarTracks(h: seq<TrackInfo>, current: Option<Track>, limit: int): (r: Option<seq<Track>>)
    ensures r.None? <==> h != [] && current.None? && limit > 0
    ensures current.None? && r.Some? ==> r.value == []
  {
    if h == [] then Some([])
    else
      var first := if current.Some? && HasAuthor(current.value)
                   then ArtistPass(h, Lower(current.value.author.value), current.value.uri, limit)
                   else [];
      if current.None? then
        (if limit > 0 then None else Some(first))
      else Some(PopularPass(first, SortByPlays(h), current.value.uri, limit))
  }

  predicate FromHistory(r: seq<Track>, h: seq<TrackInfo>) {
    forall k :: 0 <= k < |r| ==> exists j :: 0 <= j < |h| && h[j].track == r[k]
  }

  lemma {:induction false} ArtistPassProps(h: seq<TrackInfo>, artist: string, uri: string, limit: int)
    ensures |ArtistPass(h, artist, uri, limit)| <= if limit < 0 then 0 else limit
    ensures FromHistory(ArtistPass(h, artist, uri, limit), h)
    ensures forall k :: 0 <= k < |ArtistPass(h, artist, uri, limit)| ==>
              var t := ArtistPass(h, artist, uri, limit)[k]; t.uri != uri && HasAuthor(t) && Lower(t.author.value) == artist
    decreases |h|
  {
    if h != [] {
      var h' := h[..|h| - 1];
      ArtistPassProps(h', artist, uri, limit);
      var a := ArtistPass(h', artist, uri, limit);
      var r := ArtistPass(h, artist, uri, limit);
      forall k | 0 <= k < |r| ensures exists j :: 0 <= j < |h| && h[j].track == r[k] {
        if k < |a| {
          var j :| 0 <= j < |h'| && h'[j].track == a[k];
          assert h[j] == h'[j];
        } else {
          assert r[k] == h[|h| - 1].track;
        }
      }
    }
  }

  lemma {:induction false} PopularPassProps(acc: seq<Track>, ps: seq<TrackInfo>, uri: string, limit: int, h: seq<TrackInfo>)
    requires |acc| <= (if limit < 0 then 0 else limit)
    requires FromHistory(acc, h)
    requires multiset(ps) <= multiset(h)
    ensures |PopularPass(acc, ps, uri, limit)| <= if limit < 0 then 0 else limit
    ensures FromHistory(PopularPass(acc, ps, uri, limit), h)
    ensures PopularPass(acc, ps, uri, limit)[..|acc|] == acc
    ensures forall k :: |acc| <= k < |PopularPass(acc, ps, uri, limit)| ==>
              PopularPass(acc, ps, uri, limit)[k].uri != uri
    decreases |ps|
  {
    if ps != [] {
      var ps' := ps[..|ps| - 1];
      assert ps == ps' + [ps[|ps| - 1]];
      assert multiset(ps') <= multiset(ps);
      PopularPassProps(acc, ps', uri, limit, h);
      var a := PopularPass(acc, ps', uri, limit);
      var e := ps[|ps| - 1];
      var r := PopularPass(acc, ps, uri, limit);
      if r != a {
        assert e in multiset(h);
        var j :| 0 <= j < |h| && h[j] == e;
        forall k | 0 <= k < |r| ensures exists j :: 0 <= j < |h| && h[j].track == r[k] {
          if k == |a| { assert h[j].track == r[k]; } else { assert r[k] == a[k]; }
        }
        assert r[..|acc|] == a[..|acc|];
      }
    }
  }

  /** The fallback suggestions: at most `limit` tracks, all taken from the
      history, none with the current track's URI; the same-artist ones come
      first. */
  lemma SimilarTracksProps(h: seq<TrackInfo>, current: Track, limit: int)
    ensures SimilarTracks(h, Some(current), limit).Some?
    ensures |SimilarTracks(h, Some(current), limit).value| <= if limit < 0 then 0 else limit
    ensures FromHistory(SimilarTracks(h, Some(current), limit).value, h)
    ensures forall k :: 0 <= k < |SimilarTracks(h, Some(current), limit).value| ==>
              SimilarTracks(h, Some(current), limit).value[k].uri != current.uri
    ensures h != [] && HasAuthor(current) ==>
              var first := ArtistPass(h, Lower(current.author.value), current.uri, limit);
              SimilarTracks(h, Some(current), limit).value[..|first|] == first
  {
    if h != [] {
      var first := if HasAuthor(current) then ArtistPass(h, Lower(current.author.value), current.uri, limit) else [];
      if HasAuthor(current) { ArtistPassProps(h, Lower(current.author.value), current.uri, limit); }
      var ps := SortByPlays(h);
      PopularPassProps(first, ps, current.uri, limit, h);
      var r := PopularPass(first, ps, current.uri, limit);
      forall k | 0 <= k < |r| ensures r[k].uri != current.uri {
        if k < |first| {
          assert r[k] == first[k];
        }
      }
    }
  }

  /** What the Spotify step of `generate_autoplay_suggestions` comes back
      with: Spotify is not available (or there is no current track to seed
      it), it recommends nothing, its recommendations convert to `tracks`
      (which may be empty when none is found on the node), or the step
      raises and the exception handler takes over. */
  datatype SpotifyOutcome =
    | SpotifyUnavailable
    | NoRecommendations
    | Recommended(tracks: seq<Track>)
    | SpotifyFailed

  /** `generate_autoplay_suggestions(current, limit)`: nothing when autoplay
      is off or the Spotify step raises; the converted recommendations,
      even when none converted, once Spotify recommended something for a
      current track; otherwise the history fallback, with its error read as
      the empty list the source returns from its exception handler. */
  function AutoplaySuggestions(h: seq<TrackInfo>, autoplay: bool, current: Option<Track>,
                               limit: int, spotify: SpotifyOutcome): (r: seq<Track>)
    ensures !autoplay || spotify.SpotifyFailed? ==> r == []
    ensures autoplay && current.Some? && spotify.Recommended? ==> r == spotify.tracks
    ensures r != [] && !spotify.Recommended? ==> autoplay && current.Some? && FromHistory(r, h)
  {
    if !autoplay || spotify.SpotifyFailed? then []
    else if current.Some? && spotify.Recommended? then spotify.tracks
    else if current.Some? then
      SimilarTracksProps(h, current.value, limit);
      SimilarTracks(h, current, limit).GetOr([])
    else SimilarTracks(h, current, limit).GetOr([])
  }

  /** Unless Spotify recommended something, autoplay only suggests tracks
      from the history, at most `limit` of them, and never the track that
      just ended. */
  lemma AutoplayFromHistory(h: seq<TrackInfo>, autoplay: bool, current: Track, limit: int, spotify: SpotifyOutcome)
    requires !spotify.Recommended?
    ensures var r := AutoplaySuggestions(h, autoplay, Some(current), limit, spotify);
            && |r| <= (if limit < 0 then 0 else limit)
            && FromHistory(r, h)
            && (forall k :: 0 <= k < |r| ==> r[k].uri != current.uri)
            && (!autoplay ==> r == [])
  {
    SimilarTracksProps(h, current, limit);
  }
}
