/**
 * The end-to-end promise of a mute: when the worker carries out every queued
 * call, muting a member and later unmuting it gives the member back the
 * roles it had, plus the April Fools role when the mute carried the reward.
 * Protected roles and the default role are never taken away in between.
 */
module Lifecycle {
  import opened Platform
  import opened Config
  import RoleCodec
  import opened MuteStore
  import opened RoleQueue
  import opened MuteScheduler

  /** The platform accepting every one of `n` calls. */
  function Accepted(n: nat): (rs: seq<bool>)
    ensures |rs| == n
    ensures forall i :: 0 <= i < n ==> !rs[i]
  {
    seq(n, i => false)
  }

  /** What a run of one member's tasks does to the ids of the roles it holds. */
  function Effect(ids: set<RoleId>, ts: seq<RoleTask>): set<RoleId>
    decreases |ts|
  {
    if ts == [] then ids
    else Effect(if ts[0].op == Add then ids + {ts[0].role.id} else ids - {ts[0].role.id}, ts[1..])
  }

  /** Every task is for member `u` of guild `gid` and names a role that guild has. */
  ghost predicate ForMember(w: World, gid: GuildId, u: UserId, ts: seq<RoleTask>)
    requires gid in w
  {
    forall i :: 0 <= i < |ts| ==> ts[i].guild == gid && ts[i].member == u && ts[i].role.id in w[gid].roles
  }

  /**
   * The worker running one member's tasks, none rejected: the guild keeps
   * its roles and its members, and the member's role ids follow `Effect`.
   */
  lemma {:induction false} RunOnMember(w: World, gid: GuildId, u: UserId, ts: seq<RoleTask>)
    requires gid in w && u in w[gid].members && ForMember(w, gid, u, ts)
    ensures var r := RunAll(w, ts, Accepted(|ts|));
      && gid in r && r[gid].roles == w[gid].roles && u in r[gid].members
      && RoleIds(r[gid].members[u]) == Effect(RoleIds(w[gid].members[u]), ts)
  {
    if ts != [] {
      var w' := Step(w, ts[0], false);
      assert Accepted(|ts|)[1..] == Accepted(|ts[1..]|);
      assert ForMember(w', gid, u, ts[1..]) by {
        forall i | 0 <= i < |ts[1..]|
          ensures ts[1..][i].guild == gid && ts[1..][i].member == u && ts[1..][i].role.id in w'[gid].roles
        {
          assert ts[1..][i] == ts[i + 1];
        }
      }
      RunOnMember(w', gid, u, ts[1..]);
    }
  }

  lemma {:induction false} EffectAppend(ids: set<RoleId>, a: seq<RoleTask>, b: seq<RoleTask>)
    ensures Effect(ids, a + b) == Effect(Effect(ids, a), b)
    decreases |a|
  {
    if a == [] {
      assert a + b == b;
    } else {
      assert (a + b)[1..] == a[1..] + b;
      EffectAppend(if a[0].op == Add then ids + {a[0].role.id} else ids - {a[0].role.id}, a[1..], b);
    }
  }

  /** The removals of a mute take away exactly the captured role ids. */
  lemma {:induction false} EffectRemoves(ids: set<RoleId>, gid: GuildId, u: UserId, roles: seq<Role>)
    ensures Effect(ids, RemoveTasks(gid, u, roles)) == ids - RoleIds(roles)
    decreases |roles|
  {
    if roles != [] {
      var init, last := roles[..|roles| - 1], roles[|roles| - 1];
      EffectRemoves(ids, gid, u, init);
      EffectAppend(ids, RemoveTasks(gid, u, init), [RoleTask(gid, u, last, Remove)]);
      assert roles == init + [last];
      RoleIdsAppend(init, [last]);
    }
  }

  /** When every stored id resolves to a role keyed by it, the restoration adds give back exactly those ids. */
  lemma {:induction false} EffectAdds(ids: set<RoleId>, g: Guild, gid: GuildId, u: UserId, stored: seq<RoleId>)
    requires forall k :: k in g.roles ==> g.roles[k].id == k
    requires forall i :: 0 <= i < |stored| ==> stored[i] in g.roles
    ensures Effect(ids, RestoreAdds(g, gid, u, stored)) == ids + IdSet(stored)
    decreases |stored|
  {
    if stored != [] {
      var init, last := stored[..|stored| - 1], stored[|stored| - 1];
      EffectAdds(ids, g, gid, u, init);
      EffectAppend(ids, RestoreAdds(g, gid, u, init), [RoleTask(gid, u, g.roles[last], Add)]);
      assert stored == init + [last];
      assert IdSet(stored) == IdSet(init) + {last};
    }
  }

  /** The ids in a stored list, as a set. */
  function IdSet(ids: seq<RoleId>): set<RoleId> {
    set x | x in ids
  }

  /** The stored ids of a role list, as a set, are its role ids. */
  lemma IdsAsSet(roles: seq<Role>)
    ensures IdSet(Ids(roles)) == RoleIds(roles)
  {
  }

  /** Two batches of one member's tasks, concatenated, are still that member's tasks. */
  lemma ForMemberAppend(w: World, gid: GuildId, u: UserId, a: seq<RoleTask>, b: seq<RoleTask>)
    requires gid in w && ForMember(w, gid, u, a) && ForMember(w, gid, u, b)
    ensures ForMember(w, gid, u, a + b)
  {
  }

  /** The removals of a mute name only roles of the guild when the roles are ones the member holds. */
  lemma {:induction false} RemovesForMember(w: World, gid: GuildId, u: UserId, captured: seq<Role>)
    requires gid in w && WellFormed(w[gid]) && u in w[gid].members
    requires forall r :: r in captured ==> r in w[gid].members[u]
    ensures ForMember(w, gid, u, RemoveTasks(gid, u, captured))
    decreases |captured|
  {
    if captured != [] {
      var init, last := captured[..|captured| - 1], captured[|captured| - 1];
      assert forall r :: r in init ==> r in captured;
      RemovesForMember(w, gid, u, init);
      ForMemberAppend(w, gid, u, RemoveTasks(gid, u, init), [RoleTask(gid, u, last, Remove)]);
    }
  }

  /**
   * The mute half, with the worker carrying out every call: the guild keeps
   * its roles, and the member holds the mute role and every role it had
   * except the captured ones; in particular it keeps every protected role
   * and the default role.
   */
  lemma MuteStep(w: World, gid: GuildId, u: UserId)
    requires gid in w && WellFormed(w[gid]) && u in w[gid].members
    requires MUTE_ROLE_ID in w[gid].roles
    ensures
      var roles := w[gid].members[u];
      var muteTs := MuteTasks(gid, u, Captured(roles), w[gid].roles[MUTE_ROLE_ID]);
      var w1 := RunAll(w, muteTs, Accepted(|muteTs|));
      && gid in w1 && w1[gid].roles == w[gid].roles && u in w1[gid].members
      && RoleIds(w1[gid].members[u]) == RoleIds(roles) - RoleIds(Captured(roles)) + {MUTE_ROLE_ID}
      && forall r :: r in roles && !Capturable(r) ==> r.id in RoleIds(w1[gid].members[u])
  {
    var g := w[gid];
    var roles := g.members[u];
    var captured := Captured(roles);
    var muted := g.roles[MUTE_ROLE_ID];
    var removes := RemoveTasks(gid, u, captured);
    RemovesForMember(w, gid, u, captured);
    ForMemberAppend(w, gid, u, removes, [RoleTask(gid, u, muted, Add)]);
    RunOnMember(w, gid, u, MuteTasks(gid, u, captured, muted));
    EffectAppend(RoleIds(roles), removes, [RoleTask(gid, u, muted, Add)]);
    EffectRemoves(RoleIds(roles), gid, u, captured);
    forall r | r in roles && !Capturable(r) ensures r.id !in RoleIds(captured) {
      if c :| c in captured && c.id == r.id {
        assert false;
      }
    }
  }

  /**
   * The unmute half: a record whose role list is the text of `stored`, ids
   * that all resolve, and a member holding the mute role. The unmute
   * restores and deletes the record, and with the worker carrying out every
   * call the member loses the mute role and gains the stored roles and the
   * reward.
   */
  lemma RestoreStep(w1: World, rows1: Rows, gid: GuildId, u: UserId, stored: seq<RoleId>)
    requires gid in w1 && u in w1[gid].members
    requires forall k :: k in w1[gid].roles ==> w1[gid].roles[k].id == k
    requires MUTE_ROLE_ID in w1[gid].roles && Holds(w1[gid].members[u], MUTE_ROLE_ID)
    requires forall i :: 0 <= i < |stored| ==> stored[i] in w1[gid].roles
    requires u in rows1 && rows1[u].guild == gid && rows1[u].originalRoles == RoleCodec.Encode(stored)
    ensures
      var un := Unmute(w1, rows1, u);
      var w2 := RunAll(w1, un.tasks, Accepted(|un.tasks|));
      && un.outcome == Restored && un.rows == Delete(rows1, u)
      && gid in w2 && u in w2[gid].members
      && RoleIds(w2[gid].members[u]) ==
           RoleIds(w1[gid].members[u]) - {MUTE_ROLE_ID} + IdSet(stored)
           + (if rows1[u].april == 1 && APRIL_FOOLS_ROLE_ID in w1[gid].roles then {APRIL_FOOLS_ROLE_ID} else {})
  {
    RoleCodec.DecodeEncode(stored);
    var g1 := w1[gid];
    var m1 := Member(u, g1.members[u]);
    var april := rows1[u].april;
    var un := Unmute(w1, rows1, u);
    var removal := MuteRoleRemoval(g1, gid, m1);
    var adds := RestoreAdds(g1, gid, u, stored);
    var reward := AprilReward(g1, gid, u, april);
    assert un.tasks == removal + adds + reward;
    RestoreAddsResolving(g1, gid, u, stored);
    ForMemberAppend(w1, gid, u, removal, adds);
    ForMemberAppend(w1, gid, u, removal + adds, reward);
    RunOnMember(w1, gid, u, un.tasks);
    EffectOfRestore(g1, gid, m1, stored, april);
  }

  /**
   * What the restoration does to the ids of a member holding the mute role:
   * the mute id goes, the stored ids come back, and the reward is added.
   */
  lemma EffectOfRestore(g: Guild, gid: GuildId, m: Member, stored: seq<RoleId>, april: int)
    requires forall k :: k in g.roles ==> g.roles[k].id == k
    requires MUTE_ROLE_ID in g.roles && Holds(m.roles, MUTE_ROLE_ID)
    requires forall i :: 0 <= i < |stored| ==> stored[i] in g.roles
    ensures Effect(RoleIds(m.roles), RestoreTasks(g, gid, m, stored, april)) ==
      RoleIds(m.roles) - {MUTE_ROLE_ID} + IdSet(stored)
      + (if april == 1 && APRIL_FOOLS_ROLE_ID in g.roles then {APRIL_FOOLS_ROLE_ID} else {})
  {
    var removal := MuteRoleRemoval(g, gid, m);
    var adds := RestoreAdds(g, gid, m.id, stored);
    var reward := AprilReward(g, gid, m.id, april);
    var during := RoleIds(m.roles);
    EffectAppend(during, removal + adds, reward);
    EffectAppend(during, removal, adds);
    EffectAdds(during - {MUTE_ROLE_ID}, g, gid, m.id, stored);
  }

  /**
   * The round trip of a mute. In a well-formed guild whose mute role
   * resolves, with the worker carrying out every call: after the mute the
   * member holds the mute role, none of the captured roles and every other
   * role it had; the unmute then finds the record, restores, deletes the
   * record, and leaves the member with exactly its original role ids, plus
   * the April Fools role when the flag is 1 and the role exists. A member
   * that already held the mute role gets it back with the rest, so it stays
   * muted; only a mute role that is itself never captured is lost.
   */
  lemma MuteThenUnmute(w: World, rows: Rows, gid: GuildId, u: UserId, duration: nat, april: int, now: int)
    requires gid in w && WellFormed(w[gid]) && u in w[gid].members
    requires MUTE_ROLE_ID in w[gid].roles
    ensures
      var g := w[gid];
      var m := Member(u, g.members[u]);
      var muteTs := MuteTasks(gid, u, Captured(m.roles), g.roles[MUTE_ROLE_ID]);
      var w1 := RunAll(w, muteTs, Accepted(|muteTs|));
      var rows1 := Upsert(rows, u, MuteRecord(m, duration, gid, april, now));
      var un := Unmute(w1, rows1, u);
      var w2 := RunAll(w1, un.tasks, Accepted(|un.tasks|));
      var reward: set<RoleId> := if april == 1 && APRIL_FOOLS_ROLE_ID in g.roles then {APRIL_FOOLS_ROLE_ID} else {};
      && gid in w1 && u in w1[gid].members
      && RoleIds(w1[gid].members[u]) == RoleIds(m.roles) - RoleIds(Captured(m.roles)) + {MUTE_ROLE_ID}
      && un.outcome == Restored && un.rows == Delete(rows1, u)
      && gid in w2 && u in w2[gid].members
      && (!Holds(m.roles, MUTE_ROLE_ID) || Capturable(g.roles[MUTE_ROLE_ID]) ==>
            RoleIds(w2[gid].members[u]) == RoleIds(m.roles) + reward)
      && (Holds(m.roles, MUTE_ROLE_ID) && !Capturable(g.roles[MUTE_ROLE_ID]) ==>
            RoleIds(w2[gid].members[u]) == RoleIds(m.roles) - {MUTE_ROLE_ID} + reward)
  {
    var g := w[gid];
    var m := Member(u, g.members[u]);
    var captured := Captured(m.roles);
    MuteStep(w, gid, u);
    var muteTs := MuteTasks(gid, u, captured, g.roles[MUTE_ROLE_ID]);
    var w1 := RunAll(w, muteTs, Accepted(|muteTs|));
    var rows1 := Upsert(rows, u, MuteRecord(m, duration, gid, april, now));
    var stored := Ids(captured);
    assert forall i :: 0 <= i < |stored| ==> stored[i] in w1[gid].roles by {
      forall i | 0 <= i < |stored| ensures stored[i] in w1[gid].roles {
        assert captured[i] in m.roles;
      }
    }
    RestoreStep(w1, rows1, gid, u, stored);
    IdsAsSet(captured);
    assert rows1[u].april == april && w1[gid].roles == g.roles;
    var un := Unmute(w1, rows1, u);
    var w2 := RunAll(w1, un.tasks, Accepted(|un.tasks|));
    var reward: set<RoleId> := if april == 1 && APRIL_FOOLS_ROLE_ID in g.roles then {APRIL_FOOLS_ROLE_ID} else {};
    var before, capturedIds := RoleIds(m.roles), RoleIds(captured);
    var during, after := RoleIds(w1[gid].members[u]), RoleIds(w2[gid].members[u]);
    assert after == during - {MUTE_ROLE_ID} + IdSet(stored) + reward;
    MuteRoleCaptured(g, m);
    RestoredSet(before, capturedIds, during, IdSet(stored), after, reward, MUTE_ROLE_ID);
  }

  /** The mute role's id is among the captured ids exactly when the member holds it and it is capturable. */
  lemma MuteRoleCaptured(g: Guild, m: Member)
    requires WellFormed(g) && m.id in g.members && m.roles == g.members[m.id] && MUTE_ROLE_ID in g.roles
    ensures MUTE_ROLE_ID in RoleIds(Captured(m.roles)) <==> Holds(m.roles, MUTE_ROLE_ID) && Capturable(g.roles[MUTE_ROLE_ID])
  {
  }

  /**
   * The role ids across the round trip: taking away the captured ids, adding
   * and then removing the mute id, and giving the captured ids back restores
   * the original set, except for a held mute id that was not captured.
   */
  lemma RestoredSet(before: set<RoleId>, captured: set<RoleId>, during: set<RoleId>, stored: set<RoleId>,
                    after: set<RoleId>, reward: set<RoleId>, mute: RoleId)
    requires captured <= before && stored == captured
    requires during == before - captured + {mute}
    requires after == during - {mute} + stored + reward
    ensures mute in captured || mute !in before ==> after == before + reward
    ensures mute !in captured ==> after == before - {mute} + reward
  {
  }
}
