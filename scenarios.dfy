/**
 * Concrete runs of the sacrifice cycle, each driving a fresh machine through
 * a short sequence of events and stating where it ends up.
 */
module Scenarios {
  import opened Options
  import opened Platform
  import opened Config
  import opened MuteScheduler
  import opened Sacrifice
  import opened RoleQueue
  import opened MuteStore
  import RoleCodec

  const Muted: Role := Role(MUTE_ROLE_ID, "Muted")
  const Staff: Role := Role(IGNORE_ROLE_IDS[0], "Staff")
  const Regular: Role := Role(42, "Regular")

  /** A guild whose mute role resolves, with two members: 1 holds a regular role, 2 a protected one. */
  function TestGuild(): Guild {
    Guild(GUILD_ID, map[MUTE_ROLE_ID := Muted, Staff.id := Staff, Regular.id := Regular],
      map[1 := [Regular], 2 := [Staff]])
  }

  /** A machine over an empty scheduler, the cycle announced at time 0. */
  method Announced() returns (m: SacrificeMachine)
    ensures fresh(m) && fresh(m.sched) && fresh(m.sched.store) && fresh(m.sched.queue)
    ensures m.Valid() && m.active && m.loopAwaits == Some(0) && m.timer == Some(0)
    ensures m.timers == map[0 := RESPONSE_WINDOW] && m.nextHandle == 1
    ensures m.sched.store.rows == map[] && m.sched.queue.tasks == [] && m.sched.countdowns == []
  {
    var s := new Scheduler();
    m := new SacrificeMachine(s);
    m.Announce(0);
  }

  /** A member trying to sacrifice itself is told off, and the cycle stays announced. */
  method SelfTargetKeepsCycle() returns (m: SacrificeMachine, o: Outcome)
    ensures o == SelfTarget && m.active && m.loopAwaits == Some(0)
    ensures m.sched.store.rows == map[] && m.sched.queue.tasks == []
  {
    m := Announced();
    var caller := Member(1, [Regular]);
    o := m.Sacrifice(TestGuild(), caller, caller, 10);
  }

  /**
   * Targeting a protected member mutes only the caller, for ten minutes and
   * with no reward, and the cycle ends.
   */
  method BackfireMutesCallerOnly() returns (m: SacrificeMachine, o: Outcome)
    ensures o == Backfire && !m.active && m.timer == None && m.timers == map[]
    ensures m.sched.store.rows.Keys == {1}
    ensures m.sched.store.rows[1].unmuteTime == 10 + 600 && m.sched.store.rows[1].april == 0
    ensures m.sched.countdowns == [Countdown(1, 10, 600)]
  {
    m := Announced();
    var caller, target := Member(1, [Regular]), Member(2, [Staff]);
    assert Protected(target) by { assert Staff in target.roles; }
    assert !Protected(caller) by { assert forall r :: r in caller.roles ==> r == Regular; }
    assert !Holds(target.roles, MUTE_ROLE_ID) by { assert RoleIds(target.roles) == {Staff.id}; }
    assert Decide(true, TestGuild(), caller, target) == Backfire;
    o := m.Sacrifice(TestGuild(), caller, target, 10);
    assert CancelledTimers(map[0 := RESPONSE_WINDOW], Some(0)) == map[];
  }

  /**
   * A window started by `debugdrop` that times out taunts, but nothing closes
   * the cycle: it stays open with no window left sleeping.
   */
  method DebugWindowLeavesCycleOpen() returns (m: SacrificeMachine)
    ensures m.active && m.timers == map[] && m.loopAwaits == None
  {
    var s := new Scheduler();
    m := new SacrificeMachine(s);
    var o := m.DebugDrop(Some(TestGuild()), true, 0);
    m.WindowExpires(0, RESPONSE_WINDOW);
  }

  /**
   * `debugdrop` followed by the loop's own announcement before the first
   * window ends: two windows sleep at once, and only the second can still be
   * cancelled.
   */
  method TwoWindowsAtOnce() returns (m: SacrificeMachine)
    ensures m.timers.Keys == {0, 1} && m.timer == Some(1)
  {
    var s := new Scheduler();
    m := new SacrificeMachine(s);
    var o := m.DebugDrop(Some(TestGuild()), true, 0);
    m.Announce(60);
  }

  /**
   * A stored list whose second role has since been deleted: only the first
   * role is restored.
   */
  lemma PartialRestore()
    ensures RestoreAdds(TestGuild(), GUILD_ID, 1, [Regular.id, 7]) == [RoleTask(GUILD_ID, 1, Regular, Add)]
  {
  }

  /**
   * A restart over a table holding one overdue row: the row survives, the
   * queue starts empty, and the startup loop gives it a countdown that fires
   * at once.
   */
  method RestartFiresOverdueRow() returns (s: Scheduler)
    ensures s.store.rows == map[1 := MuteRow(GUILD_ID, 100, "42", 0)] && s.queue.tasks == []
    ensures s.countdowns == [Countdown(1, 150, 0)]
  {
    s := new Scheduler.Reopen(map[1 := MuteRow(GUILD_ID, 100, "42", 0)]);
    s.Rehydrate(150);
    var c := s.countdowns[0];
    assert c.user in s.store.rows;
  }

  /**
   * Member 1 is muted and its countdown fires while it holds the mute role:
   * `unmute_member` queues the removal of the mute role and the add of its
   * regular role, then deletes the record.
   */
  method MuteThenFire() returns (s: Scheduler, o: UnmuteOutcome)
    ensures fresh(s) && fresh(s.store) && fresh(s.queue)
    ensures o == Restored && s.store.rows == map[]
    ensures s.queue.tasks == MuteTasks(GUILD_ID, 1, [Regular], Muted)
      + [RoleTask(GUILD_ID, 1, Muted, Remove), RoleTask(GUILD_ID, 1, Regular, Add)]
  {
    s := new Scheduler();
    s.ProcessMute(Member(1, [Regular]), 600, GUILD_ID, Muted, 0, 0);
    assert Captured([Regular]) == [Regular] by {
      assert [Regular][1..] == [];
    }
    var muted := Guild(GUILD_ID, map[MUTE_ROLE_ID := Muted, Staff.id := Staff, Regular.id := Regular],
      map[1 := [Muted], 2 := [Staff]]);
    assert Ids([Regular]) == [Regular.id];
    o := s.UnmuteMember(map[GUILD_ID := muted], 1);
    assert RestoreAdds(muted, GUILD_ID, 1, [Regular.id]) == [RoleTask(GUILD_ID, 1, Regular, Add)] by {
      assert [Regular.id][..0] == [];
    }
  }

  /**
   * A restore lost to a restart: if the process stops after `unmute_member`
   * has deleted the record but before the worker runs its tasks, the
   * reopened scheduler has no row and no task for the member, and the
   * startup loop starts no countdown for it, so the member keeps the mute
   * role with nothing left to lift it.
   */
  method RestartLosesQueuedRestore() returns (o: UnmuteOutcome, s': Scheduler)
    ensures o == Restored
    ensures s'.store.rows == map[] && s'.queue.tasks == [] && s'.countdowns == []
  {
    var s;
    s, o := MuteThenFire();
    s' := new Scheduler.Reopen(s.store.rows);
    s'.Rehydrate(600);
  }
}
