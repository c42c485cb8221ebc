/**
 * The DJ and moderation cog of cogs/dj_moderation.py: who counts as a DJ,
 * the skip-vote threshold, and the four per-guild tables the cog keeps in
 * memory (skip votes, banned track URLs, DJ roles and per-user queue
 * counts). Discord itself (members, channels, replies) is reduced to the
 * facts the decisions read, passed in as parameters.
 */
module Moderation {
  import opened Wrappers

  type GuildId = int
  type UserId = int
  type RoleId = int

  /** A guild member as the cog sees it: `voiceChannel` lists, for the
      voice channel the member is in, whether each member of it is a bot,
      and is None when the member is not in a voice channel. */
  datatype Member = Member(id: UserId, guild: GuildId, isAdmin: bool, roles: seq<RoleId>,
                           voiceChannel: Option<seq<bool>>)

  /** The number of non-bot members of a channel, given each member's bot flag. */
  function HumanCount(isBot: seq<bool>): (n: nat)
    ensures n <= |isBot|
    ensures n == |isBot| <==> forall i :: 0 <= i < |isBot| ==> !isBot[i]
    ensures n == 0 <==> forall i :: 0 <= i < |isBot| ==> isBot[i]
  {
    if isBot == [] then 0
    else (if isBot[0] then 0 else 1) + HumanCount(isBot[1..])
  }

  /** The number of skip votes needed with `n` human listeners: one for up
      to two listeners, two for three, and half of them, rounded down, from
      four on. */
  function ThresholdForHumans(n: nat): (r: nat)
    ensures r >= 1
    ensures n >= 1 ==> r <= n
    ensures n <= 2 ==> r == 1
    ensures n == 3 ==> r == 2
    ensures n >= 4 ==> n - 1 <= 2 * r <= n
  {
    if n <= 2 then 1
    else if n <= 4 then 2
    else if 2 >= n / 2 then 2 else n / 2
  }

  /** `get_vote_threshold`: one vote without a voice client, otherwise the
      threshold for the humans in the bot's channel. */
  function VoteThreshold(voiceClient: Option<seq<bool>>): (r: nat)
    ensures r >= 1
    ensures voiceClient.None? ==> r == 1
    ensures voiceClient.Some? && HumanCount(voiceClient.value) >= 1 ==> r <= HumanCount(voiceClient.value)
  {
    match voiceClient
    case None => 1
    case Some(members) => ThresholdForHumans(HumanCount(members))
  }

  /** More listeners never lower the threshold. */
  lemma {:induction false} ThresholdMonotone(a: nat, b: nat)
    requires a <= b
    ensures ThresholdForHumans(a) <= ThresholdForHumans(b)
  {
    if b >= 4 && a >= 4 {
      var ta, tb := ThresholdForHumans(a), ThresholdForHumans(b);
      assert 2 * ta <= a && b - 1 <= 2 * tb;
    }
  }

  /** The rule `is_dj` decides: an owner, an administrator, a holder of one
      of the guild's DJ roles, or the only human in their voice channel. */
  predicate DjByRules(m: Member, owners: seq<UserId>, djRoles: seq<RoleId>) {
    || m.id in owners
    || m.isAdmin
    || (exists i :: 0 <= i < |m.roles| && m.roles[i] in djRoles)
    || (m.voiceChannel.Some? && HumanCount(m.voiceChannel.value) == 1)
  }

  /** No element occurs twice. */
  predicate NoDuplicates<T(==)>(s: seq<T>) {
    forall i, j :: 0 <= i < j < |s| ==> s[i] != s[j]
  }

  /** `list.remove(x)` when x is present: the first occurrence goes. */
  function RemoveFirst<T(==)>(s: seq<T>, x: T): (r: seq<T>)
    ensures x in s ==> |r| == |s| - 1 && multiset(r) == multiset(s) - multiset{x}
    ensures x !in s ==> r == s
  {
    if s == [] then []
    else if s[0] == x then
      assert s == [s[0]] + s[1..];
      s[1..]
    else
      assert s == [s[0]] + s[1..];
      [s[0]] + RemoveFirst(s[1..], x)
  }

  /** Removing never introduces an element. */
  lemma {:induction false} RemoveFirstInSource<T>(s: seq<T>, x: T, y: T)
    requires y in RemoveFirst(s, x)
    ensures y in s
  {
    if s != [] && s[0] != x && y != s[0] {
      assert y in RemoveFirst(s[1..], x);
      RemoveFirstInSource(s[1..], x, y);
    }
  }

  /** The tail of a duplicate-free list is duplicate-free and lacks the head. */
  lemma TailOfDistinct<T>(s: seq<T>)
    requires s != [] && NoDuplicates(s)
    ensures NoDuplicates(s[1..]) && s[0] !in s[1..]
  {
    forall i, j | 0 <= i < j < |s[1..]| ensures s[1..][i] != s[1..][j] {
      assert s[1..][i] == s[i + 1] && s[1..][j] == s[j + 1];
    }
    forall k | 0 <= k < |s[1..]| ensures s[1..][k] != s[0] {
      assert s[1..][k] == s[k + 1];
    }
  }

  /** Removing from a duplicate-free list removes the element entirely and
      keeps the list duplicate-free. */
  lemma {:induction false} RemoveFromDistinct<T>(s: seq<T>, x: T)
    requires NoDuplicates(s)
    ensures x !in RemoveFirst(s, x)
    ensures NoDuplicates(RemoveFirst(s, x))
  {
    if s != [] {
      TailOfDistinct(s);
      if s[0] != x {
        RemoveFromDistinct(s[1..], x);
        var rest := RemoveFirst(s[1..], x);
        assert s[0] !in rest by {
          if s[0] in rest {
            RemoveFirstInSource(s[1..], x, s[0]);
          }
        }
        var r := [s[0]] + rest;
        assert r == RemoveFirst(s, x);
        forall i, j | 0 <= i < j < |r| ensures r[i] != r[j] {
          assert r[j] == rest[j - 1];
          if i > 0 {
            assert r[i] == rest[i - 1];
          }
        }
      }
    }
  }

  /** Banning and then unbanning a URL restores the ban list. */
  lemma {:induction false} AddThenRemove<T>(s: seq<T>, x: T)
    requires x !in s
    ensures RemoveFirst(s + [x], x) == s
  {
    if s != [] {
      assert (s + [x])[1..] == s[1..] + [x];
      AddThenRemove(s[1..], x);
    }
  }

  datatype VoteOutcome =
    | NothingPlaying
    | NotInChannel
    | DjSkipped
    | AlreadyVoted
    | VoteSkipped(votes: nat)
    | VoteRecorded(votes: nat, needed: nat)

  datatype ForceSkipOutcome = NotDj | NoTrack | ForceSkipped

  datatype ListOutcome = NotPermitted | Duplicate | Missing | Done

  datatype LimitOutcome = LimitNotDj | NegativeLimit | LimitSet(unlimited: bool)

  class DjModeration {
    /** guild -> the users who voted to skip the current track */
    var voteSkips: map<GuildId, set<UserId>>
    /** guild -> banned track URLs */
    var bannedTracks: map<GuildId, seq<string>>
    /** guild -> user -> number of tracks counted against the user */
    var queueLimits: map<GuildId, map<UserId, nat>>
    /** guild -> role ids with DJ rights */
    var djRoles: map<GuildId, seq<RoleId>>

    /** The ban and role lists never hold duplicates. */
    predicate Valid()
      reads this
    {
      && (forall g :: g in bannedTracks ==> NoDuplicates(bannedTracks[g]))
      && (forall g :: g in djRoles ==> NoDuplicates(djRoles[g]))
    }

    constructor ()
      ensures Valid()
      ensures voteSkips == map[] && bannedTracks == map[] && queueLimits == map[] && djRoles == map[]
    {
      voteSkips := map[];
      bannedTracks := map[];
      queueLimits := map[];
      djRoles := map[];
    }

    function Votes(g: GuildId): set<UserId>
      reads this
    {
      if g in voteSkips then voteSkips[g] else {}
    }

    function RolesOf(g: GuildId): seq<RoleId>
      reads this
    {
      if g in djRoles then djRoles[g] else []
    }

    function BannedIn(g: GuildId): seq<string>
      reads this
    {
      if g in bannedTracks then bannedTracks[g] else []
    }

    function CountsIn(g: GuildId): map<UserId, nat>
      reads this
    {
      if g in queueLimits then queueLimits[g] else map[]
    }

    function CountOf(g: GuildId, u: UserId): nat
      reads this
    {
      if u in CountsIn(g) then CountsIn(g)[u] else 0
    }

    /** `is_dj`: the rules tried in order, the role check over the member's roles. */
    method IsDj(m: Member, owners: seq<UserId>) returns (r: bool)
      ensures r == DjByRules(m, owners, RolesOf(m.guild))
    {
      if m.id in owners || m.isAdmin {
        return true;
      }
      var guildRoles := RolesOf(m.guild);
      var i := 0;
      while i < |m.roles|
        invariant 0 <= i <= |m.roles|
        invariant forall k :: 0 <= k < i ==> m.roles[k] !in guildRoles
      {
        if m.roles[i] in guildRoles {
          return true;
        }
        i := i + 1;
      }
      r := m.voiceChannel.Some? && HumanCount(m.voiceChannel.value) == 1;
    }

    /** `voteskip`. `player` is the guild's voice client (the bot flags of its
        channel's members), `playing` whether it has a current track and
        `sameChannel` whether the voter is in the player's channel. A DJ
        skips outright; anyone else adds one vote, which is refused when the
        user already voted; reaching the threshold skips and clears the votes. */
    method VoteSkip(m: Member, owners: seq<UserId>, player: Option<seq<bool>>, playing: bool, sameChannel: bool)
      returns (o: VoteOutcome)
      modifies this
      ensures bannedTracks == old(bannedTracks) && queueLimits == old(queueLimits) && djRoles == old(djRoles)
      ensures player.None? || !playing ==> o == NothingPlaying && voteSkips == old(voteSkips)
      ensures player.Some? && playing && !sameChannel ==> o == NotInChannel && voteSkips == old(voteSkips)
      ensures player.Some? && playing && sameChannel && DjByRules(m, owners, RolesOf(m.guild)) ==>
                o == DjSkipped && voteSkips == old(voteSkips)
      ensures player.Some? && playing && sameChannel && !DjByRules(m, owners, RolesOf(m.guild)) ==>
                var before := old(Votes(m.guild));
                var after := before + {m.id};
                && (m.id in before ==> o == AlreadyVoted && voteSkips == old(voteSkips))
                && (m.id !in before && |after| >= VoteThreshold(player) ==>
                      o == VoteSkipped(|before| + 1) && voteSkips == old(voteSkips)[m.guild := {}])
                && (m.id !in before && |after| < VoteThreshold(player) ==>
                      o == VoteRecorded(|before| + 1, VoteThreshold(player)) && voteSkips == old(voteSkips)[m.guild := after])
      ensures o.VoteSkipped? || o.VoteRecorded? ==> |Votes(m.guild)| < VoteThreshold(player)
      ensures Valid() == old(Valid())
    {
      if player.None? || !playing {
        return NothingPlaying;
      }
      if !sameChannel {
        return NotInChannel;
      }
      var dj := IsDj(m, owners);
      if dj {
        return DjSkipped;
      }
      var before := Votes(m.guild);
      if m.id in before {
        return AlreadyVoted;
      }
      var after := before + {m.id};
      assert |after| == |before| + 1;
      var threshold := VoteThreshold(player);
      if |after| >= threshold {
        voteSkips := voteSkips[m.guild := {}];
        o := VoteSkipped(|after|);
      } else {
        voteSkips := voteSkips[m.guild := after];
        o := VoteRecorded(|after|, threshold);
      }
    }

    /** `forceskip`: DJs only; stopping the track clears the guild's votes. */
    method ForceSkip(m: Member, owners: seq<UserId>, playing: bool) returns (o: ForceSkipOutcome)
      modifies this
      ensures bannedTracks == old(bannedTracks) && queueLimits == old(queueLimits) && djRoles == old(djRoles)
      ensures !DjByRules(m, owners, old(RolesOf(m.guild))) ==> o == NotDj && voteSkips == old(voteSkips)
      ensures DjByRules(m, owners, old(RolesOf(m.guild))) && !playing ==> o == NoTrack && voteSkips == old(voteSkips)
      ensures DjByRules(m, owners, old(RolesOf(m.guild))) && playing ==>
                o == ForceSkipped && Votes(m.guild) == {}
                && voteSkips == (if m.guild in old(voteSkips) then old(voteSkips)[m.guild := {}] else old(voteSkips))
      ensures Valid() == old(Valid())
    {
      var dj := IsDj(m, owners);
      if !dj {
        return NotDj;
      }
      if !playing {
        return NoTrack;
      }
      if m.guild in voteSkips {
        voteSkips := voteSkips[m.guild := {}];
      }
      o := ForceSkipped;
    }

    /** `on_wavelink_track_end`: the ended track's guild starts a fresh vote. */
    method TrackEnded(guild: Option<GuildId>)
      modifies this
      ensures bannedTracks == old(bannedTracks) && queueLimits == old(queueLimits) && djRoles == old(djRoles)
      ensures guild.None? ==> voteSkips == old(voteSkips)
      ensures guild.Some? ==> Votes(guild.value) == {}
      ensures guild.Some? ==> voteSkips == (if guild.value in old(voteSkips) then old(voteSkips)[guild.value := {}] else old(voteSkips))
      ensures Valid() == old(Valid())
    {
      if guild.Some? && guild.value in voteSkips {
        voteSkips := voteSkips[guild.value := {}];
      }
    }

    /** `set_dj_role`: administrators only; a role already registered is refused. */
    method SetDjRole(m: Member, role: RoleId) returns (o: ListOutcome)
      requires Valid()
      modifies this
      ensures Valid()
      ensures voteSkips == old(voteSkips) && bannedTracks == old(bannedTracks) && queueLimits == old(queueLimits)
      ensures !m.isAdmin ==> o == NotPermitted && djRoles == old(djRoles)
      ensures m.isAdmin && role in old(RolesOf(m.guild)) ==> o == Duplicate && djRoles == old(djRoles)
      ensures m.isAdmin && role !in old(RolesOf(m.guild)) ==>
                o == Done && djRoles == old(djRoles)[m.guild := old(RolesOf(m.guild)) + [role]]
      ensures o == Done ==> forall owners, n: Member :: n.guild == m.guild && role in n.roles ==> DjByRules(n, owners, RolesOf(m.guild))
    {
      if !m.isAdmin {
        return NotPermitted;
      }
      var roles := RolesOf(m.guild);
      if role in roles {
        return Duplicate;
      }
      djRoles := djRoles[m.guild := roles + [role]];
      o := Done;
      forall owners, n: Member | n.guild == m.guild && role in n.roles
        ensures DjByRules(n, owners, RolesOf(m.guild))
      {
        var k :| 0 <= k < |n.roles| && n.roles[k] == role;
        assert n.roles[k] in RolesOf(m.guild);
      }
    }

    /** `remove_dj_role`: administrators only; a role not registered is refused. */
    method RemoveDjRole(m: Member, role: RoleId) returns (o: ListOutcome)
      requires Valid()
      modifies this
      ensures Valid()
      ensures voteSkips == old(voteSkips) && bannedTracks == old(bannedTracks) && queueLimits == old(queueLimits)
      ensures !m.isAdmin ==> o == NotPermitted && djRoles == old(djRoles)
      ensures m.isAdmin && role !in old(RolesOf(m.guild)) ==> o == Missing && djRoles == old(djRoles)
      ensures m.isAdmin && role in old(RolesOf(m.guild)) ==>
                o == Done && djRoles == old(djRoles)[m.guild := RemoveFirst(old(RolesOf(m.guild)), role)]
      ensures o == Done ==> role !in RolesOf(m.guild)
    {
      if !m.isAdmin {
        return NotPermitted;
      }
      if m.guild !in djRoles || role !in djRoles[m.guild] {
        return Missing;
      }
      RemoveFromDistinct(djRoles[m.guild], role);
      djRoles := djRoles[m.guild := RemoveFirst(djRoles[m.guild], role)];
      o := Done;
    }

    /** `ban_track`: DJs only; a URL already banned is refused. */
    method BanTrack(m: Member, owners: seq<UserId>, url: string) returns (o: ListOutcome)
      requires Valid()
      modifies this
      ensures Valid()
      ensures voteSkips == old(voteSkips) && queueLimits == old(queueLimits) && djRoles == old(djRoles)
      ensures !DjByRules(m, owners, old(RolesOf(m.guild))) ==> o == NotPermitted && bannedTracks == old(bannedTracks)
      ensures DjByRules(m, owners, old(RolesOf(m.guild))) && url in old(BannedIn(m.guild)) ==>
                o == Duplicate && bannedTracks == old(bannedTracks)
      ensures DjByRules(m, owners, old(RolesOf(m.guild))) && url !in old(BannedIn(m.guild)) ==>
                o == Done && bannedTracks == old(bannedTracks)[m.guild := old(BannedIn(m.guild)) + [url]]
      ensures o == Done ==> IsBanned(m.guild, url)
    {
      var dj := IsDj(m, owners);
      if !dj {
        return NotPermitted;
      }
      var banned := BannedIn(m.guild);
      if url in banned {
        return Duplicate;
      }
      bannedTracks := bannedTracks[m.guild := banned + [url]];
      o := Done;
    }

    /** `unban_track`: DJs only; a URL that is not banned is refused. */
    method UnbanTrack(m: Member, owners: seq<UserId>, url: string) returns (o: ListOutcome)
      requires Valid()
      modifies this
      ensures Valid()
      ensures voteSkips == old(voteSkips) && queueLimits == old(queueLimits) && djRoles == old(djRoles)
      ensures !DjByRules(m, owners, old(RolesOf(m.guild))) ==> o == NotPermitted && bannedTracks == old(bannedTracks)
      ensures DjByRules(m, owners, old(RolesOf(m.guild))) && url !in old(BannedIn(m.guild)) ==>
                o == Missing && bannedTracks == old(bannedTracks)
      ensures DjByRules(m, owners, old(RolesOf(m.guild))) && url in old(BannedIn(m.guild)) ==>
                o == Done && bannedTracks == old(bannedTracks)[m.guild := RemoveFirst(old(BannedIn(m.guild)), url)]
      ensures o == Done ==> !IsBanned(m.guild, url)
    {
      var dj := IsDj(m, owners);
      if !dj {
        return NotPermitted;
      }
      if m.guild !in bannedTracks || url !in bannedTracks[m.guild] {
        return Missing;
      }
      RemoveFromDistinct(bannedTracks[m.guild], url);
      bannedTracks := bannedTracks[m.guild := RemoveFirst(bannedTracks[m.guild], url)];
      o := Done;
    }

    /** `check_track_banned`. */
    function IsBanned(g: GuildId, url: string): (r: bool)
      reads this
      ensures r <==> exists i :: 0 <= i < |BannedIn(g)| && BannedIn(g)[i] == url
    {
      url in BannedIn(g)
    }

    /** `queue_limit`: DJs only, negative limits refused; every count
        recorded for the guild goes back to zero and the limit itself is not
        kept anywhere. */
    method SetQueueLimit(m: Member, owners: seq<UserId>, limit: int) returns (o: LimitOutcome)
      modifies this
      ensures voteSkips == old(voteSkips) && bannedTracks == old(bannedTracks) && djRoles == old(djRoles)
      ensures Valid() == old(Valid())
      ensures !DjByRules(m, owners, old(RolesOf(m.guild))) ==> o == LimitNotDj && queueLimits == old(queueLimits)
      ensures DjByRules(m, owners, old(RolesOf(m.guild))) && limit < 0 ==> o == NegativeLimit && queueLimits == old(queueLimits)
      ensures DjByRules(m, owners, old(RolesOf(m.guild))) && limit >= 0 ==>
                && o == LimitSet(limit == 0)
                && m.guild in queueLimits
                && queueLimits == old(queueLimits)[m.guild := queueLimits[m.guild]]
                && queueLimits[m.guild].Keys == old(CountsIn(m.guild)).Keys
                && forall u :: CountOf(m.guild, u) == 0
    {
      var dj := IsDj(m, owners);
      if !dj {
        return LimitNotDj;
      }
      if limit < 0 {
        return NegativeLimit;
      }
      var counts := CountsIn(m.guild);
      var reset: map<UserId, nat> := map u | u in counts :: 0;
      queueLimits := queueLimits[m.guild := reset];
      o := LimitSet(limit == 0);
    }

    /** `check_user_queue_limit`: a limit of 0 lets everyone through;
        otherwise the user may add while their count is below the limit.
        The guild's table is created on the way. */
    method CheckUserQueueLimit(g: GuildId, u: UserId, limit: int) returns (ok: bool)
      modifies this
      ensures voteSkips == old(voteSkips) && bannedTracks == old(bannedTracks) && djRoles == old(djRoles)
      ensures Valid() == old(Valid())
      ensures limit == 0 ==> ok && queueLimits == old(queueLimits)
      ensures limit != 0 ==> ok == (old(CountOf(g, u)) < limit)
                             && queueLimits == old(queueLimits)[g := old(CountsIn(g))]
      ensures CountOf(g, u) == old(CountOf(g, u))
    {
      if limit == 0 {
        return true;
      }
      var counts := CountsIn(g);
      queueLimits := queueLimits[g := counts];
      ok := CountOf(g, u) < limit;
    }

    /** `increment_user_queue_count`: exactly one more for that user. */
    method IncrementUserQueueCount(g: GuildId, u: UserId)
      modifies this
      ensures voteSkips == old(voteSkips) && bannedTracks == old(bannedTracks) && djRoles == old(djRoles)
      ensures Valid() == old(Valid())
      ensures queueLimits == old(queueLimits)[g := old(CountsIn(g))[u := old(CountOf(g, u)) + 1]]
      ensures CountOf(g, u) == old(CountOf(g, u)) + 1
      ensures forall v :: v != u ==> CountOf(g, v) == old(CountOf(g, v))
    {
      var counts := CountsIn(g);
      queueLimits := queueLimits[g := counts[u := CountOf(g, u) + 1]];
    }
  }
}
