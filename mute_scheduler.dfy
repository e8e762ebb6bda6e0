/**
 * The lifecycle of one mute: capture the member's strippable roles, persist
 * the record, queue the role removals and the mute role, count down, and on
 * expiry queue the restoration and delete the record. On startup every
 * persisted record gets its countdown back.
 */
module MuteScheduler {
  import opened Options
  import opened Platform
  import opened Config
  import RoleCodec
  import opened MuteStore
  import opened RoleQueue

  /** A role a mute strips and records: neither the default role nor a protected one. */
  predicate Capturable(r: Role) {
    r.name != EVERYONE_NAME && r.id !in IGNORE_ROLE_IDS
  }

  /** The roles `process_mute` captures: the member's roles that are capturable, in their original order. */
  function Captured(roles: seq<Role>): (c: seq<Role>)
    ensures |c| <= |roles|
    ensures forall i :: 0 <= i < |c| ==> c[i].name != EVERYONE_NAME && c[i].id !in IGNORE_ROLE_IDS
    ensures forall r :: r in c <==> r in roles && Capturable(r)
  {
    if roles == [] then []
    else
      assert forall r :: r in roles <==> r == roles[0] || r in roles[1..];
      (if Capturable(roles[0]) then [roles[0]] else []) + Captured(roles[1..])
  }

  /** Capture keeps order: capturing a concatenation captures each part in turn. */
  lemma {:induction false} CapturedAppend(a: seq<Role>, b: seq<Role>)
    ensures Captured(a + b) == Captured(a) + Captured(b)
  {
    if a != [] {
      assert (a + b)[1..] == a[1..] + b;
      CapturedAppend(a[1..], b);
    } else {
      assert a + b == b;
    }
  }

  /** A single role is captured exactly when it is capturable. */
  lemma CapturedSingle(r: Role)
    ensures Captured([r]) == if Capturable(r) then [r] else []
  {
    assert [r][1..] == [];
  }

  /** The row `process_mute` writes for a mute of `duration` seconds starting at `now`. */
  function MuteRecord(m: Member, duration: nat, gid: GuildId, april: int, now: int): (row: MuteRow)
    ensures row.guild == gid && row.unmuteTime == now + duration && row.april == april
    ensures RoleCodec.Decode(row.originalRoles) == Some(Ids(Captured(m.roles)))
  {
    RoleCodec.DecodeEncode(Ids(Captured(m.roles)));
    MuteRow(gid, now + duration, RoleCodec.Encode(Ids(Captured(m.roles))), april)
  }

  /** One REMOVE per role, in the given order. */
  function RemoveTasks(gid: GuildId, u: UserId, roles: seq<Role>): (ts: seq<RoleTask>)
    ensures |ts| == |roles|
    ensures forall i :: 0 <= i < |roles| ==> ts[i] == RoleTask(gid, u, roles[i], Remove)
  {
    if roles == [] then []
    else RemoveTasks(gid, u, roles[..|roles| - 1]) + [RoleTask(gid, u, roles[|roles| - 1], Remove)]
  }

  /** What `process_mute` queues: the removals of the captured roles, then the mute role. */
  function MuteTasks(gid: GuildId, u: UserId, captured: seq<Role>, muteRole: Role): seq<RoleTask> {
    RemoveTasks(gid, u, captured) + [RoleTask(gid, u, muteRole, Add)]
  }

  /** A mute queues one REMOVE per captured role, in capture order, and the ADD of the mute role last. */
  lemma MuteTasksOrder(gid: GuildId, u: UserId, captured: seq<Role>, muteRole: Role)
    ensures var ts := MuteTasks(gid, u, captured, muteRole);
      && |ts| == |captured| + 1
      && (forall i :: 0 <= i < |captured| ==> ts[i] == RoleTask(gid, u, captured[i], Remove))
      && ts[|captured|] == RoleTask(gid, u, muteRole, Add)
  {
  }

  /** The startup countdown for a row: the time left until its unmute, never negative. */
  function RehydrateDelay(unmuteTime: int, now: int): (d: nat)
    ensures d == 0 <==> unmuteTime <= now
    ensures unmuteTime > now ==> now + d == unmuteTime
  {
    var delay := unmuteTime - now;
    if delay < 0 then 0 else delay
  }

  /** A pending `schedule_unmute`: started at `start`, it unmutes `user` after `delay` seconds. */
  datatype Countdown = Countdown(user: UserId, start: int, delay: nat) {
    function FireTime(): int {
      start + delay
    }
  }

  /** The removal of the mute role, queued only when the role resolves and the member holds it. */
  function MuteRoleRemoval(g: Guild, gid: GuildId, m: Member): (ts: seq<RoleTask>)
    ensures |ts| <= 1
    ensures |ts| == 1 <==> MUTE_ROLE_ID in g.roles && Holds(m.roles, g.roles[MUTE_ROLE_ID].id)
    ensures |ts| == 1 ==> ts[0] == RoleTask(gid, m.id, g.roles[MUTE_ROLE_ID], Remove)
  {
    match GetRole(g, MUTE_ROLE_ID)
    case Some(muted) => if Holds(m.roles, muted.id) then [RoleTask(gid, m.id, muted, Remove)] else []
    case None => []
  }

  /**
   * One ADD per stored id that still resolves, in stored order; an id whose
   * role is gone is skipped.
   */
  function RestoreAdds(g: Guild, gid: GuildId, u: UserId, ids: seq<RoleId>): (ts: seq<RoleTask>)
    ensures |ts| <= |ids|
  {
    if ids == [] then []
    else
      var last := ids[|ids| - 1];
      RestoreAdds(g, gid, u, ids[..|ids| - 1]) +
        match GetRole(g, last)
        case Some(role) => [RoleTask(gid, u, role, Add)]
        case None => []
  }

  /** The stored ids that still resolve to a role of the guild, in stored order. */
  function Resolving(g: Guild, ids: seq<RoleId>): (r: seq<RoleId>)
    ensures |r| <= |ids|
    ensures forall x :: x in r <==> x in ids && x in g.roles
  {
    if ids == [] then []
    else
      var init, last := ids[..|ids| - 1], ids[|ids| - 1];
      assert ids == init + [last];
      Resolving(g, init) + if last in g.roles then [last] else []
  }

  /** Filtering keeps order: the resolving ids of a concatenation are those of each part in turn. */
  lemma {:induction false} ResolvingAppend(g: Guild, a: seq<RoleId>, b: seq<RoleId>)
    ensures Resolving(g, a + b) == Resolving(g, a) + Resolving(g, b)
    decreases |b|
  {
    if b == [] {
      assert a + b == a;
    } else {
      var init, last := b[..|b| - 1], b[|b| - 1];
      assert (a + b)[..|a + b| - 1] == a + init;
      assert (a + b)[|a + b| - 1] == last;
      ResolvingAppend(g, a, init);
    }
  }

  /**
   * The restoration adds are exactly one ADD per stored id that resolves, in
   * stored order, of the role that id resolves to; so when every id resolves,
   * exactly the stored roles, and when none does, nothing.
   */
  lemma {:induction false} RestoreAddsSpec(g: Guild, gid: GuildId, u: UserId, ids: seq<RoleId>)
    ensures var ts, res := RestoreAdds(g, gid, u, ids), Resolving(g, ids);
      && |ts| == |res|
      && (forall i :: 0 <= i < |ts| ==> ts[i] == RoleTask(gid, u, g.roles[res[i]], Add))
      && (forall i :: 0 <= i < |ts| ==> ts[i].guild == gid && ts[i].member == u && ts[i].op == Add && ts[i].role in g.roles.Values)
      && ((forall i :: 0 <= i < |ids| ==> ids[i] in g.roles) ==>
          |ts| == |ids| && forall i :: 0 <= i < |ids| ==> ts[i] == RoleTask(gid, u, g.roles[ids[i]], Add))
      && ((forall i :: 0 <= i < |ids| ==> ids[i] !in g.roles) ==> ts == [])
  {
    RestoreAddsResolving(g, gid, u, ids);
    RestoreAddsExtremes(g, gid, u, ids);
  }

  /** The adds follow the resolving ids one for one. */
  lemma {:induction false} RestoreAddsResolving(g: Guild, gid: GuildId, u: UserId, ids: seq<RoleId>)
    ensures var ts, res := RestoreAdds(g, gid, u, ids), Resolving(g, ids);
      && |ts| == |res|
      && forall i :: 0 <= i < |ts| ==> ts[i] == RoleTask(gid, u, g.roles[res[i]], Add)
  {
    if ids != [] {
      var init, last := ids[..|ids| - 1], ids[|ids| - 1];
      RestoreAddsResolving(g, gid, u, init);
      var ts0, res0 := RestoreAdds(g, gid, u, init), Resolving(g, init);
      if last in g.roles {
        assert RestoreAdds(g, gid, u, ids) == ts0 + [RoleTask(gid, u, g.roles[last], Add)];
        assert Resolving(g, ids) == res0 + [last];
      } else {
        assert RestoreAdds(g, gid, u, ids) == ts0;
        assert Resolving(g, ids) == res0;
      }
    }
  }

  /** When every stored id resolves the adds are exactly the stored roles; when none does there are none. */
  lemma {:induction false} RestoreAddsExtremes(g: Guild, gid: GuildId, u: UserId, ids: seq<RoleId>)
    ensures var ts := RestoreAdds(g, gid, u, ids);
      && ((forall i :: 0 <= i < |ids| ==> ids[i] in g.roles) ==>
          |ts| == |ids| && forall i :: 0 <= i < |ids| ==> ts[i] == RoleTask(gid, u, g.roles[ids[i]], Add))
      && ((forall i :: 0 <= i < |ids| ==> ids[i] !in g.roles) ==> ts == [])
  {
    if ids != [] {
      var init := ids[..|ids| - 1];
      RestoreAddsExtremes(g, gid, u, init);
      assert forall i :: 0 <= i < |init| ==> init[i] == ids[i];
    }
  }

  /** The reward: an ADD of the April Fools role when the flag is 1 and the role resolves. */
  function AprilReward(g: Guild, gid: GuildId, u: UserId, april: int): (ts: seq<RoleTask>)
    ensures |ts| <= 1
    ensures |ts| == 1 <==> april == 1 && APRIL_FOOLS_ROLE_ID in g.roles
    ensures |ts| == 1 ==> ts[0] == RoleTask(gid, u, g.roles[APRIL_FOOLS_ROLE_ID], Add)
  {
    if april == 1 then
      match GetRole(g, APRIL_FOOLS_ROLE_ID)
      case Some(role) => [RoleTask(gid, u, role, Add)]
      case None => []
    else []
  }

  /** The whole restoration sequence for a member whose stored role list reads back as `ids`. */
  function RestoreTasks(g: Guild, gid: GuildId, m: Member, ids: seq<RoleId>, april: int): (ts: seq<RoleTask>)
  {
    MuteRoleRemoval(g, gid, m) + RestoreAdds(g, gid, m.id, ids) + AprilReward(g, gid, m.id, april)
  }

  /**
   * The restoration removes the mute role first, and only when the member
   * holds it; every later task is an ADD; all of them are for the member.
   */
  lemma RestoreTasksOrder(g: Guild, gid: GuildId, m: Member, ids: seq<RoleId>, april: int)
    ensures var ts := RestoreTasks(g, gid, m, ids, april);
      && (forall i :: 0 <= i < |ts| ==> ts[i].guild == gid && ts[i].member == m.id)
      && ((|ts| > 0 && ts[0].op == Remove) <==> MUTE_ROLE_ID in g.roles && Holds(m.roles, g.roles[MUTE_ROLE_ID].id))
      && (forall i :: 0 < i < |ts| ==> ts[i].op == Add)
      && |ts| <= |ids| + 2
  {
    var removal, adds, reward := MuteRoleRemoval(g, gid, m), RestoreAdds(g, gid, m.id, ids), AprilReward(g, gid, m.id, april);
    var ts := RestoreTasks(g, gid, m, ids, april);
    RestoreAddsResolving(g, gid, m.id, ids);
    forall i | 0 <= i < |ts|
      ensures ts[i].guild == gid && ts[i].member == m.id && (i > 0 || removal == [] ==> ts[i].op == Add)
    {
      if i < |removal| {
        assert ts[i] == removal[i];
      } else if i < |removal| + |adds| {
        assert ts[i] == adds[i - |removal|];
      } else {
        assert ts[i] == reward[i - |removal| - |adds|];
      }
    }
    if removal != [] {
      assert ts[0] == removal[0];
    }
  }

  datatype UnmuteOutcome = NoRecord | GuildMissing | MemberMissing | BadRoleList | Restored

  /** What one `unmute_member` call does: its outcome, the tasks it queues and the rows it leaves. */
  datatype UnmuteResult = UnmuteResult(outcome: UnmuteOutcome, tasks: seq<RoleTask>, rows: Rows)

  /**
   * `unmute_member` on the rows `rows` and the world `w`. No record: nothing
   * happens. Guild or member gone: it returns early and the record stays. A
   * stored piece that is not a number makes `int` raise: the tasks queued up
   * to that piece stay queued and the record stays. Otherwise the whole
   * restoration is queued and the record is deleted.
   */
  function Unmute(w: World, rows: Rows, u: UserId): (r: UnmuteResult)
    ensures r.outcome == NoRecord <==> u !in rows
    ensures r.outcome == GuildMissing <==> u in rows && rows[u].guild !in w
    ensures r.outcome == MemberMissing <==> u in rows && rows[u].guild in w && u !in w[rows[u].guild].members
    ensures r.outcome == BadRoleList <==>
      u in rows && rows[u].guild in w && u in w[rows[u].guild].members && RoleCodec.Decode(rows[u].originalRoles).None?
    ensures r.outcome in {NoRecord, GuildMissing, MemberMissing} ==> r.tasks == []
    ensures r.outcome != Restored ==> r.rows == rows
    ensures r.outcome == Restored ==> r.rows == Delete(rows, u) && u !in r.rows
    ensures r.outcome == Restored <==>
      u in rows && rows[u].guild in w && u in w[rows[u].guild].members && RoleCodec.Decode(rows[u].originalRoles).Some?
    ensures r.outcome == Restored ==>
      var row := rows[u];
      var g := w[row.guild];
      r.tasks == RestoreTasks(g, row.guild, Member(u, g.members[u]), RoleCodec.Decode(row.originalRoles).value, row.april)
    ensures r.outcome == BadRoleList ==>
      var row := rows[u];
      var g := w[row.guild];
      r.tasks == MuteRoleRemoval(g, row.guild, Member(u, g.members[u]))
        + RestoreAdds(g, row.guild, u, RoleCodec.ParsePieces(RoleCodec.Pieces(row.originalRoles)).ids)
  {
    if u !in rows then UnmuteResult(NoRecord, [], rows)
    else
      var row := rows[u];
      if row.guild !in w then UnmuteResult(GuildMissing, [], rows)
      else
        var g := w[row.guild];
        if u !in g.members then UnmuteResult(MemberMissing, [], rows)
        else
          var m := Member(u, g.members[u]);
          var d := RoleCodec.ParsePieces(RoleCodec.Pieces(row.originalRoles));
          var queued := MuteRoleRemoval(g, row.guild, m) + RestoreAdds(g, row.guild, u, d.ids);
          if d.complete then UnmuteResult(Restored, queued + AprilReward(g, row.guild, u, row.april), Delete(rows, u))
          else UnmuteResult(BadRoleList, queued, rows)
  }

  /** A second unmute right after a successful one finds no record and does nothing, whatever the world is then. */
  lemma UnmuteTwiceIsNoOp(w: World, w': World, rows: Rows, u: UserId)
    requires Unmute(w, rows, u).outcome == Restored
    ensures Unmute(w', Unmute(w, rows, u).rows, u) == UnmuteResult(NoRecord, [], Unmute(w, rows, u).rows)
  {
  }

  lemma SeqAssoc<T>(a: seq<T>, b: seq<T>, c: seq<T>)
    ensures (a + b) + c == a + (b + c)
  {
  }

  /**
   * The countdowns started at `now` for the rows `rows`: exactly one per row,
   * each with that row's clamped delay.
   */
  ghost predicate RehydratedFrom(added: seq<Countdown>, rows: Rows, now: int) {
    && |added| == |rows|
    && (forall k :: 0 <= k < |added| ==>
          added[k].user in rows && added[k].start == now &&
          added[k].delay == RehydrateDelay(rows[added[k].user].unmuteTime, now))
    && (forall u :: u in rows ==> exists k :: 0 <= k < |added| && added[k].user == u)
    && (forall j, k :: 0 <= j < k < |added| ==> added[j].user != added[k].user)
  }

  /**
   * After a restart every row fires at its stored unmute time, or at once
   * when that time has already passed.
   */
  lemma RehydratedFireTimes(added: seq<Countdown>, rows: Rows, now: int)
    requires RehydratedFrom(added, rows, now)
    ensures forall k :: 0 <= k < |added| ==>
      added[k].FireTime() == if rows[added[k].user].unmuteTime <= now then now else rows[added[k].user].unmuteTime
  {
  }

  /** One countdown per user, in order, started at `now` with that user's clamped delay. */
  ghost function Schedule(users: seq<UserId>, rows: Rows, now: int): (cs: seq<Countdown>)
    requires forall k :: 0 <= k < |users| ==> users[k] in rows
    ensures |cs| == |users|
  {
    seq(|users|, k requires 0 <= k < |users| =>
      Countdown(users[k], now, RehydrateDelay(rows[users[k]].unmuteTime, now)))
  }

  /** Scheduling every stored user exactly once yields one countdown per row. */
  lemma ScheduleRehydrated(users: seq<UserId>, rows: Rows, now: int)
    requires forall v :: v in users <==> v in rows
    requires forall j, k :: 0 <= j < k < |users| ==> users[j] != users[k]
    requires |users| == |rows|
    ensures RehydratedFrom(Schedule(users, rows, now), rows, now)
  {
    var cs := Schedule(users, rows, now);
    forall u | u in rows
      ensures exists k :: 0 <= k < |cs| && cs[k].user == u
    {
      var k :| 0 <= k < |users| && users[k] == u;
      assert cs[k].user == u;
    }
  }

  class Scheduler {
    const store: Store
    const queue: Queue
    /** The countdowns started and not yet fired. */
    var countdowns: seq<Countdown>

    constructor ()
      ensures fresh(store) && fresh(queue)
      ensures store.rows == map[] && queue.tasks == [] && countdowns == []
    {
      store := new Store();
      queue := new Queue();
      countdowns := [];
    }

    /**
     * The process started again over a database that already holds rows:
     * the table keeps them, while the role-change queue and every countdown
     * of the previous process are gone.
     */
    constructor Reopen(persisted: Rows)
      ensures fresh(store) && fresh(queue)
      ensures store.rows == persisted && queue.tasks == [] && countdowns == []
    {
      store := new Store.Reopen(persisted);
      queue := new Queue();
      countdowns := [];
    }

    /**
     * `process_mute`: persists the record first, then queues one REMOVE per
     * captured role in capture order and the ADD of the mute role behind the
     * tasks already queued, then starts the countdown.
     */
    method ProcessMute(member: Member, duration: nat, gid: GuildId, muteRole: Role, april: int, now: int)
      modifies this, store, queue
      ensures store.rows == Upsert(old(store.rows), member.id, MuteRecord(member, duration, gid, april, now))
      ensures queue.tasks == old(queue.tasks) + MuteTasks(gid, member.id, Captured(member.roles), muteRole)
      ensures countdowns == old(countdowns) + [Countdown(member.id, now, duration)]
    {
      var original := Captured(member.roles);
      var originalIds := Ids(original);
      store.AddMute(member.id, gid, now + duration, originalIds, april);
      QueueMute(gid, member.id, original, muteRole);
      countdowns := countdowns + [Countdown(member.id, now, duration)];
    }

    /** The queueing half of `process_mute`: the removals of the captured roles, then the mute role. */
    method QueueMute(gid: GuildId, u: UserId, captured: seq<Role>, muteRole: Role)
      modifies queue
      ensures queue.tasks == old(queue.tasks) + MuteTasks(gid, u, captured, muteRole)
    {
      QueueRemovals(gid, u, captured);
      queue.Put(RoleTask(gid, u, muteRole, Add));
    }

    /** The loop of `process_mute` that queues one REMOVE per captured role. */
    method QueueRemovals(gid: GuildId, u: UserId, roles: seq<Role>)
      modifies queue
      ensures queue.tasks == old(queue.tasks) + RemoveTasks(gid, u, roles)
    {
      for i := 0 to |roles|
        invariant queue.tasks == old(queue.tasks) + RemoveTasks(gid, u, roles[..i])
      {
        assert roles[..i + 1][..i] == roles[..i];
        queue.Put(RoleTask(gid, u, roles[i], Remove));
      }
      assert roles[..|roles|] == roles;
    }

    /** `unmute_member`, against the world as it is when the countdown fires. */
    method UnmuteMember(w: World, u: UserId) returns (outcome: UnmuteOutcome)
      modifies store, queue
      ensures var r := Unmute(w, old(store.rows), u);
        outcome == r.outcome && queue.tasks == old(queue.tasks) + r.tasks && store.rows == r.rows
    {
      if u !in store.rows {
        return NoRecord;
      }
      var row := store.rows[u];
      if row.guild !in w {
        return GuildMissing;
      }
      var g := w[row.guild];
      if u !in g.members {
        return MemberMissing;
      }
      outcome := RestoreFromRow(g, u, row);
    }

    /**
     * The part of `unmute_member` after the guild and member are found: the
     * mute role's removal, the restoring adds, and on a fully parsed list the
     * reward and the deletion of the record.
     */
    method RestoreFromRow(g: Guild, u: UserId, row: MuteRow) returns (outcome: UnmuteOutcome)
      requires u in g.members
      modifies store, queue
      ensures var d := RoleCodec.ParsePieces(RoleCodec.Pieces(row.originalRoles));
        var queued := MuteRoleRemoval(g, row.guild, Member(u, g.members[u])) + RestoreAdds(g, row.guild, u, d.ids);
        && outcome == (if d.complete then Restored else BadRoleList)
        && queue.tasks == old(queue.tasks) + (if d.complete then queued + AprilReward(g, row.guild, u, row.april) else queued)
        && store.rows == if d.complete then Delete(old(store.rows), u) else old(store.rows)
    {
      ghost var removal := MuteRoleRemoval(g, row.guild, Member(u, g.members[u]));
      QueueMuteRoleRemoval(g, row.guild, Member(u, g.members[u]));
      ghost var d := RoleCodec.ParsePieces(RoleCodec.Pieces(row.originalRoles));
      ghost var adds := RestoreAdds(g, row.guild, u, d.ids);
      var complete := QueueRestoredRoles(g, row.guild, u, RoleCodec.Pieces(row.originalRoles));
      SeqAssoc(old(queue.tasks), removal, adds);
      if !complete {
        return BadRoleList;
      }
      ghost var reward := AprilReward(g, row.guild, u, row.april);
      QueueReward(g, row.guild, u, row.april);
      SeqAssoc(old(queue.tasks), removal + adds, reward);
      store.RemoveMute(u);
      return Restored;
    }

    /** The removal of the mute role, queued when it resolves and the member holds it. */
    method QueueMuteRoleRemoval(g: Guild, gid: GuildId, m: Member)
      modifies queue
      ensures queue.tasks == old(queue.tasks) + MuteRoleRemoval(g, gid, m)
    {
      var muted := GetRole(g, MUTE_ROLE_ID);
      if muted.Some? && Holds(m.roles, muted.value.id) {
        queue.Put(RoleTask(gid, m.id, muted.value, Remove));
      }
    }

    /** The April Fools reward, queued when the flag is 1 and the role resolves. */
    method QueueReward(g: Guild, gid: GuildId, u: UserId, april: int)
      modifies queue
      ensures queue.tasks == old(queue.tasks) + AprilReward(g, gid, u, april)
    {
      if april == 1 {
        var aprilRole := GetRole(g, APRIL_FOOLS_ROLE_ID);
        if aprilRole.Some? {
          queue.Put(RoleTask(gid, u, aprilRole.value, Add));
        }
      }
    }

    /**
     * The restoring loop of `unmute_member`: parses the pieces in order and
     * queues an ADD for each id that resolves; it stops at the first piece
     * that is not a number, where `int` raises.
     */
    method QueueRestoredRoles(g: Guild, gid: GuildId, u: UserId, pieces: seq<string>) returns (complete: bool)
      modifies queue
      ensures var d := RoleCodec.ParsePieces(pieces);
        complete == d.complete && queue.tasks == old(queue.tasks) + RestoreAdds(g, gid, u, d.ids)
    {
      ghost var parsed: seq<RoleId> := [];
      for i := 0 to |pieces|
        invariant |parsed| == i
        invariant forall k :: 0 <= k < i ==> RoleCodec.ParseNat(pieces[k]) == Some(parsed[k])
        invariant queue.tasks == old(queue.tasks) + RestoreAdds(g, gid, u, parsed)
      {
        var id := RoleCodec.ParseNat(pieces[i]);
        if id.None? {
          assert RoleCodec.ParsePieces(pieces).ids == parsed;
          return false;
        }
        QueueRestoredRole(g, gid, u, id.value, old(queue.tasks), parsed);
        parsed := parsed + [id.value];
      }
      assert RoleCodec.ParsePieces(pieces).ids == parsed;
      return true;
    }

    /** One turn of the restoring loop: an ADD for `id` when it resolves, nothing otherwise. */
    method QueueRestoredRole(g: Guild, gid: GuildId, u: UserId, id: RoleId, ghost base: seq<RoleTask>, ghost parsed: seq<RoleId>)
      requires queue.tasks == base + RestoreAdds(g, gid, u, parsed)
      modifies queue
      ensures queue.tasks == base + RestoreAdds(g, gid, u, parsed + [id])
    {
      assert (parsed + [id])[..|parsed|] == parsed;
      var role := GetRole(g, id);
      if role.Some? {
        queue.Put(RoleTask(gid, u, role.value, Add));
      }
    }

    /** A countdown whose time has come runs `unmute_member` once and is gone. */
    method FireCountdown(w: World, k: nat, now: int) returns (outcome: UnmuteOutcome)
      requires k < |countdowns| && countdowns[k].FireTime() <= now
      modifies this, store, queue
      ensures countdowns == old(countdowns)[..k] + old(countdowns)[k + 1..]
      ensures var r := Unmute(w, old(store.rows), old(countdowns)[k].user);
        outcome == r.outcome && queue.tasks == old(queue.tasks) + r.tasks && store.rows == r.rows
    {
      var c := countdowns[k];
      countdowns := countdowns[..k] + countdowns[k + 1..];
      outcome := UnmuteMember(w, c.user);
    }

    /**
     * The loop in `on_ready`: one countdown per persisted row, taken in any
     * order, started now with the time left clamped at zero, so an overdue row
     * fires at once rather than being skipped.
     */
    method Rehydrate(now: int)
      modifies this
      ensures |countdowns| >= |old(countdowns)|
      ensures countdowns[..|old(countdowns)|] == old(countdowns)
      ensures RehydratedFrom(countdowns[|old(countdowns)|..], store.rows, now)
    {
      var all := store.GetAllMutes();
      var left := all.Keys;
      ghost var users: seq<UserId> := [];
      while left != {}
        invariant forall v :: v in users <==> v in all.Keys && v !in left
        invariant left <= all.Keys
        invariant forall j, k :: 0 <= j < k < |users| ==> users[j] != users[k]
        invariant |users| + |left| == |all|
        invariant countdowns == old(countdowns) + Schedule(users, all, now)
        decreases left
      {
        var u :| u in left;
        var delay := RehydrateDelay(all[u].unmuteTime, now);
        countdowns := countdowns + [Countdown(u, now, delay)];
        assert Schedule(users + [u], all, now) == Schedule(users, all, now) + [Countdown(u, now, delay)];
        users := users + [u];
        left := left - {u};
      }
      ScheduleRehydrated(users, all, now);
      assert countdowns[|old(countdowns)|..] == Schedule(users, all, now);
    }
  }
}
