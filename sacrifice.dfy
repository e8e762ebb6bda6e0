/**
 * The sacrifice cycle and the commands that drive it. The announcement loop
 * opens a cycle and waits on a cancellable response window; `sacrifice`
 * resolves the cycle by muting members; `debugdrop` forces a new window;
 * `soul` mutes a single target outside the cycle.
 */
module Sacrifice {
  import opened Options
  import opened Platform
  import opened Config
  import opened MuteStore
  import opened MuteScheduler

  /** `has_ignored_role`: the member holds one of the protected roles. */
  predicate Protected(m: Member): (p: bool)
    ensures p <==> exists id :: id in IGNORE_ROLE_IDS && Holds(m.roles, id)
  {
    exists r :: r in m.roles && r.id in IGNORE_ROLE_IDS
  }

  /** How a `sacrifice` command ends, one value per exit of the guard chain. */
  datatype Outcome = NotActive | NoMuteRole | SelfTarget | CallerProtected | TargetMuted | Backfire | Worthy

  /**
   * The guard chain of `sacrifice`, checked in order: no open cycle, no mute
   * role, self-target, protected caller, target already muted; then a
   * protected target turns the mute on the caller, and otherwise both are muted.
   */
  function Decide(active: bool, g: Guild, caller: Member, target: Member): (o: Outcome)
    ensures o == NotActive <==> !active
    ensures o == NoMuteRole <==> active && MUTE_ROLE_ID !in g.roles
    ensures o == SelfTarget <==> active && MUTE_ROLE_ID in g.roles && caller.id == target.id
    ensures o == CallerProtected <==> active && MUTE_ROLE_ID in g.roles && caller.id != target.id && Protected(caller)
    ensures o == TargetMuted <==>
      active && MUTE_ROLE_ID in g.roles && caller.id != target.id && !Protected(caller) &&
      Holds(target.roles, g.roles[MUTE_ROLE_ID].id)
    ensures o == Backfire <==>
      active && MUTE_ROLE_ID in g.roles && caller.id != target.id && !Protected(caller) &&
      !Holds(target.roles, g.roles[MUTE_ROLE_ID].id) && Protected(target)
    ensures o == Worthy <==>
      active && MUTE_ROLE_ID in g.roles && caller.id != target.id && !Protected(caller) &&
      !Holds(target.roles, g.roles[MUTE_ROLE_ID].id) && !Protected(target)
  {
    if !active then NotActive
    else match GetRole(g, MUTE_ROLE_ID)
      case None => NoMuteRole
      case Some(muted) =>
        if caller.id == target.id then SelfTarget
        else if Protected(caller) then CallerProtected
        else if Holds(target.roles, muted.id) then TargetMuted
        else if Protected(target) && !Protected(caller) then Backfire
        else Worthy
  }

  /** Where a message goes: the channel the command came from, or the announcement channel. */
  datatype Dest = Invoking | Announcements

  /** The messages the bot sends, without their wording. */
  datatype Msg =
    | Demand | UsageHint | Taunt | DebugDemand | DebugTriggered
    | GuildNotFound | ChannelNotFound | MuteRoleNotConfigured
    | CannotSacrificeSelf(caller: UserId) | TooPowerful(caller: UserId) | AlreadyMuted(target: UserId)
    | DontEvenTry | WorthySacrifice(caller: UserId, target: UserId)
    | CannotTargetSelf(author: UserId) | SoulClaimed(target: UserId) | SoulTaken(target: UserId)

  datatype Post = Post(to: Dest, msg: Msg)

  /** The replies of `sacrifice`: none when no cycle is open or there is no mute role, one otherwise. */
  function SacrificeReplies(o: Outcome, caller: Member, target: Member): (posts: seq<Post>)
    ensures |posts| == if o in {NotActive, NoMuteRole} then 0 else 1
  {
    match o
    case NotActive => []
    case NoMuteRole => []
    case SelfTarget => [Post(Invoking, CannotSacrificeSelf(caller.id))]
    case CallerProtected => [Post(Invoking, TooPowerful(caller.id))]
    case TargetMuted => [Post(Invoking, AlreadyMuted(target.id))]
    case Backfire => [Post(Invoking, DontEvenTry)]
    case Worthy => [Post(Invoking, WorthySacrifice(caller.id, target.id))]
  }

  /** How a `soul` command ends. */
  datatype SoulOutcome = SoulGuildMissing | SoulChannelMissing | SoulNoMuteRole | SoulSelfTarget | SoulTargetMuted | SoulMuted

  /** The guard chain of `soul`: guild, channel, mute role, self-target, target already muted. */
  function DecideSoul(guild: Option<Guild>, channelOk: bool, author: Member, target: Member): (o: SoulOutcome)
    ensures o == SoulMuted <==>
      guild.Some? && channelOk && MUTE_ROLE_ID in guild.value.roles && author.id != target.id &&
      !Holds(target.roles, guild.value.roles[MUTE_ROLE_ID].id)
    ensures o == SoulGuildMissing <==> guild.None?
    ensures o == SoulChannelMissing <==> guild.Some? && !channelOk
    ensures o == SoulNoMuteRole <==> guild.Some? && channelOk && MUTE_ROLE_ID !in guild.value.roles
    ensures o == SoulSelfTarget <==>
      guild.Some? && channelOk && MUTE_ROLE_ID in guild.value.roles && author.id == target.id
    ensures o == SoulTargetMuted <==>
      guild.Some? && channelOk && MUTE_ROLE_ID in guild.value.roles && author.id != target.id &&
      Holds(target.roles, guild.value.roles[MUTE_ROLE_ID].id)
  {
    match guild
    case None => SoulGuildMissing
    case Some(g) =>
      if !channelOk then SoulChannelMissing
      else match GetRole(g, MUTE_ROLE_ID)
        case None => SoulNoMuteRole
        case Some(muted) =>
          if author.id == target.id then SoulSelfTarget
          else if Holds(target.roles, muted.id) then SoulTargetMuted
          else SoulMuted
  }

  /** The replies of `soul`: the claim and the confirmation on success, one message otherwise. */
  function SoulReplies(o: SoulOutcome, author: Member, target: Member): (posts: seq<Post>)
    ensures |posts| == if o == SoulMuted then 2 else 1
  {
    match o
    case SoulGuildMissing => [Post(Invoking, GuildNotFound)]
    case SoulChannelMissing => [Post(Invoking, ChannelNotFound)]
    case SoulNoMuteRole => [Post(Announcements, MuteRoleNotConfigured)]
    case SoulSelfTarget => [Post(Announcements, CannotTargetSelf(author.id))]
    case SoulTargetMuted => [Post(Announcements, AlreadyMuted(target.id))]
    case SoulMuted => [Post(Announcements, SoulClaimed(target.id)), Post(Announcements, SoulTaken(target.id))]
  }

  datatype DebugOutcome = DebugGuildMissing | DebugChannelMissing | Dropped

  /** A response-window task, by identity. */
  type Handle = nat

  /** The windows still sleeping once `t` (if any) is cancelled; cancelling a finished window changes nothing. */
  function CancelledTimers(timers: map<Handle, int>, t: Option<Handle>): (r: map<Handle, int>)
    ensures t.None? ==> r == timers
    ensures t.Some? ==> r.Keys == timers.Keys - {t.value}
    ensures forall h :: h in r ==> r[h] == timers[h]
  {
    match t
    case None => timers
    case Some(h) => timers - {h}
  }

  class SacrificeMachine {
    const sched: Scheduler
    /** `active_sacrifice`. */
    var active: bool
    /** `sacrifice_timer_task`: the window the commands cancel. */
    var timer: Option<Handle>
    /** The window the announcement loop is waiting on; None while the loop sleeps between cycles. */
    var loopAwaits: Option<Handle>
    /** The windows still sleeping, each with the time at which it taunts. */
    var timers: map<Handle, int>
    var nextHandle: Handle
    var outbox: seq<Post>

    /**
     * Handles are fresh, and while the loop waits on a window that window is
     * still sleeping, it is the one the commands would cancel, and the cycle is open.
     */
    ghost predicate Valid()
      reads this
    {
      && (forall h :: h in timers ==> h < nextHandle)
      && (timer.Some? ==> timer.value < nextHandle)
      && (loopAwaits.Some? ==> active && timer == loopAwaits && loopAwaits.value in timers)
    }

    constructor (s: Scheduler)
      ensures Valid() && sched == s
      ensures !active && timer == None && loopAwaits == None && timers == map[] && nextHandle == 0 && outbox == []
    {
      sched := s;
      active := false;
      timer := None;
      loopAwaits := None;
      timers := map[];
      nextHandle := 0;
      outbox := [];
    }

    /**
     * One turn of `sacrifice_announcement_loop` at the end of its random wait:
     * the two announcements, the cycle opens, and the loop starts a response
     * window and waits on it. The loop only gets here while it is not waiting.
     */
    method Announce(now: int)
      requires Valid() && loopAwaits == None
      modifies this
      ensures Valid()
      ensures active && timer == Some(old(nextHandle)) && loopAwaits == Some(old(nextHandle))
      ensures timers == old(timers)[old(nextHandle) := now + RESPONSE_WINDOW]
      ensures nextHandle == old(nextHandle) + 1
      ensures outbox == old(outbox) + [Post(Announcements, Demand), Post(Announcements, UsageHint)]
    {
      outbox := outbox + [Post(Announcements, Demand), Post(Announcements, UsageHint)];
      active := true;
      var h := nextHandle;
      nextHandle := nextHandle + 1;
      timers := timers[h := now + RESPONSE_WINDOW];
      timer := Some(h);
      loopAwaits := Some(h);
    }

    /**
     * `wait_for_sacrifice_response` sleeping out its window: the taunt, and if
     * the loop was waiting on this window it resumes and closes the cycle. A
     * window the loop is not waiting on (one `debugdrop` started) leaves the
     * cycle as it is.
     */
    method WindowExpires(h: Handle, now: int)
      requires Valid() && h in timers && timers[h] <= now
      modifies this
      ensures Valid()
      ensures outbox == old(outbox) + [Post(Announcements, Taunt)]
      ensures timers == old(timers) - {h} && nextHandle == old(nextHandle)
      ensures old(loopAwaits) == Some(h) ==> !active && timer == None && loopAwaits == None
      ensures old(loopAwaits) != Some(h) ==>
        active == old(active) && timer == old(timer) && loopAwaits == old(loopAwaits)
    {
      outbox := outbox + [Post(Announcements, Taunt)];
      timers := timers - {h};
      if loopAwaits == Some(h) {
        active := false;
        timer := None;
        loopAwaits := None;
      }
    }

    /**
     * `sacrifice_timer_task.cancel()` and the reset to None. The window stops
     * without a taunt; if it was the loop's, the loop resumes and closes the cycle.
     */
    method CancelTimer()
      requires Valid()
      modifies this
      ensures Valid()
      ensures timer == None && loopAwaits == None
      ensures timers == CancelledTimers(old(timers), old(timer))
      ensures active == (old(active) && old(loopAwaits) == None)
      ensures nextHandle == old(nextHandle) && outbox == old(outbox)
    {
      if timer.Some? {
        var h := timer.value;
        timers := timers - {h};
        if loopAwaits == Some(h) {
          active := false;
          loopAwaits := None;
        }
        timer := None;
      }
    }

    /**
     * The end of a resolved sacrifice: the cycle closes, then the window is
     * cancelled as in `CancelTimer`.
     */
    method EndCycle()
      requires Valid()
      modifies this
      ensures Valid()
      ensures !active && timer == None && loopAwaits == None
      ensures timers == CancelledTimers(old(timers), old(timer))
      ensures nextHandle == old(nextHandle) && outbox == old(outbox)
    {
      active := false;
      if timer.Some? {
        var h := timer.value;
        timers := timers - {h};
        loopAwaits := None;
        timer := None;
      }
    }

    /** A protected target: the warning, a ten-minute mute of the caller, and the cycle ends. */
    method ResolveBackfire(gid: GuildId, muted: Role, caller: Member, now: int)
      requires Valid()
      modifies this, sched, sched.store, sched.queue
      ensures Valid()
      ensures !active && timer == None && loopAwaits == None && timers == CancelledTimers(old(timers), old(timer))
      ensures outbox == old(outbox) + [Post(Invoking, DontEvenTry)]
      ensures nextHandle == old(nextHandle)
      ensures sched.store.rows == Upsert(old(sched.store.rows), caller.id, MuteRecord(caller, BACKFIRE_DURATION, gid, 0, now))
      ensures sched.queue.tasks == old(sched.queue.tasks) + MuteTasks(gid, caller.id, Captured(caller.roles), muted)
      ensures sched.countdowns == old(sched.countdowns) + [Countdown(caller.id, now, BACKFIRE_DURATION)]
    {
      outbox := outbox + [Post(Invoking, DontEvenTry)];
      sched.ProcessMute(caller, BACKFIRE_DURATION, gid, muted, 0, now);
      EndCycle();
    }

    /**
     * A worthy sacrifice: the caller is muted with the April Fools reward
     * pending, then the target, the announcement, and the cycle ends.
     */
    method ResolveWorthy(gid: GuildId, muted: Role, caller: Member, target: Member, now: int)
      requires Valid()
      modifies this, sched, sched.store, sched.queue
      ensures Valid()
      ensures !active && timer == None && loopAwaits == None && timers == CancelledTimers(old(timers), old(timer))
      ensures outbox == old(outbox) + [Post(Invoking, WorthySacrifice(caller.id, target.id))]
      ensures nextHandle == old(nextHandle)
      ensures sched.store.rows == Upsert(Upsert(old(sched.store.rows),
        caller.id, MuteRecord(caller, CALLER_DURATION, gid, 1, now)),
        target.id, MuteRecord(target, TARGET_DURATION, gid, 0, now))
      ensures sched.queue.tasks == old(sched.queue.tasks)
        + MuteTasks(gid, caller.id, Captured(caller.roles), muted)
        + MuteTasks(gid, target.id, Captured(target.roles), muted)
      ensures sched.countdowns == old(sched.countdowns)
        + [Countdown(caller.id, now, CALLER_DURATION), Countdown(target.id, now, TARGET_DURATION)]
    {
      sched.ProcessMute(caller, CALLER_DURATION, gid, muted, 1, now);
      sched.ProcessMute(target, TARGET_DURATION, gid, muted, 0, now);
      outbox := outbox + [Post(Invoking, WorthySacrifice(caller.id, target.id))];
      EndCycle();
    }

    /**
     * `sacrifice(target)` from `caller` in guild `g`. Every rejection leaves
     * the cycle, the store, the queue and the countdowns as they were.
     */
    method Sacrifice(g: Guild, caller: Member, target: Member, now: int) returns (o: Outcome)
      requires Valid()
      modifies this, sched, sched.store, sched.queue
      ensures Valid()
      ensures o == Decide(old(active), g, caller, target)
      ensures outbox == old(outbox) + SacrificeReplies(o, caller, target)
      ensures nextHandle == old(nextHandle)
      ensures o !in {Backfire, Worthy} ==>
        active == old(active) && timer == old(timer) && loopAwaits == old(loopAwaits) && timers == old(timers)
      ensures o !in {Backfire, Worthy} ==> unchanged(sched, sched.store, sched.queue)
      ensures o in {Backfire, Worthy} ==>
        !active && timer == None && loopAwaits == None && timers == CancelledTimers(old(timers), old(timer))
      ensures o == Backfire ==>
        && sched.store.rows == Upsert(old(sched.store.rows), caller.id, MuteRecord(caller, BACKFIRE_DURATION, g.id, 0, now))
        && sched.queue.tasks == old(sched.queue.tasks) + MuteTasks(g.id, caller.id, Captured(caller.roles), g.roles[MUTE_ROLE_ID])
        && sched.countdowns == old(sched.countdowns) + [Countdown(caller.id, now, BACKFIRE_DURATION)]
      ensures o == Worthy ==>
        && sched.store.rows == Upsert(Upsert(old(sched.store.rows),
             caller.id, MuteRecord(caller, CALLER_DURATION, g.id, 1, now)),
             target.id, MuteRecord(target, TARGET_DURATION, g.id, 0, now))
        && sched.queue.tasks == old(sched.queue.tasks)
             + MuteTasks(g.id, caller.id, Captured(caller.roles), g.roles[MUTE_ROLE_ID])
             + MuteTasks(g.id, target.id, Captured(target.roles), g.roles[MUTE_ROLE_ID])
        && sched.countdowns == old(sched.countdowns)
             + [Countdown(caller.id, now, CALLER_DURATION), Countdown(target.id, now, TARGET_DURATION)]
    {
      o := Decide(active, g, caller, target);
      if o == Backfire {
        ResolveBackfire(g.id, g.roles[MUTE_ROLE_ID], caller, now);
      } else if o == Worthy {
        ResolveWorthy(g.id, g.roles[MUTE_ROLE_ID], caller, target, now);
      } else {
        outbox := outbox + SacrificeReplies(o, caller, target);
      }
    }

    /**
     * `debugdrop`: after the guild and channel checks, cancels any window,
     * announces, reopens the cycle and starts a window the loop does not wait on.
     */
    method DebugDrop(guild: Option<Guild>, channelOk: bool, now: int) returns (o: DebugOutcome)
      requires Valid()
      modifies this
      ensures Valid()
      ensures o == (if guild.None? then DebugGuildMissing else if !channelOk then DebugChannelMissing else Dropped)
      ensures o == DebugGuildMissing ==> outbox == old(outbox) + [Post(Invoking, GuildNotFound)]
      ensures o == DebugChannelMissing ==> outbox == old(outbox) + [Post(Invoking, ChannelNotFound)]
      ensures o != Dropped ==>
        active == old(active) && timer == old(timer) && loopAwaits == old(loopAwaits) && timers == old(timers)
        && nextHandle == old(nextHandle)
      ensures o == Dropped ==>
        && active && timer == Some(old(nextHandle)) && loopAwaits == None && nextHandle == old(nextHandle) + 1
        && timers == CancelledTimers(old(timers), old(timer))[old(nextHandle) := now + RESPONSE_WINDOW]
        && outbox == old(outbox) + [Post(Announcements, DebugDemand), Post(Invoking, DebugTriggered)]
    {
      if guild.None? {
        outbox := outbox + [Post(Invoking, GuildNotFound)];
        return DebugGuildMissing;
      }
      if !channelOk {
        outbox := outbox + [Post(Invoking, ChannelNotFound)];
        return DebugChannelMissing;
      }
      CancelTimer();
      outbox := outbox + [Post(Announcements, DebugDemand)];
      active := true;
      var h := nextHandle;
      nextHandle := nextHandle + 1;
      timers := timers[h := now + RESPONSE_WINDOW];
      timer := Some(h);
      outbox := outbox + [Post(Invoking, DebugTriggered)];
      return Dropped;
    }

    /** The successful end of `soul`: the claim, the mute, the confirmation. */
    method TakeSoul(gid: GuildId, muted: Role, target: Member, now: int)
      requires Valid()
      modifies this, sched, sched.store, sched.queue
      ensures Valid()
      ensures active == old(active) && timer == old(timer) && loopAwaits == old(loopAwaits) && timers == old(timers)
      ensures nextHandle == old(nextHandle)
      ensures outbox == old(outbox) + [Post(Announcements, SoulClaimed(target.id)), Post(Announcements, SoulTaken(target.id))]
      ensures sched.store.rows == Upsert(old(sched.store.rows), target.id, MuteRecord(target, SOUL_DURATION, gid, 0, now))
      ensures sched.queue.tasks == old(sched.queue.tasks) + MuteTasks(gid, target.id, Captured(target.roles), muted)
      ensures sched.countdowns == old(sched.countdowns) + [Countdown(target.id, now, SOUL_DURATION)]
    {
      outbox := outbox + [Post(Announcements, SoulClaimed(target.id))];
      sched.ProcessMute(target, SOUL_DURATION, gid, muted, 0, now);
      outbox := outbox + [Post(Announcements, SoulTaken(target.id))];
    }

    /**
     * `soul(target)`: mutes the target alone for ten minutes with no reward,
     * after its own guard chain; the sacrifice cycle is not touched.
     */
    method Soul(guild: Option<Guild>, channelOk: bool, author: Member, target: Member, now: int) returns (o: SoulOutcome)
      requires Valid()
      modifies this, sched, sched.store, sched.queue
      ensures Valid()
      ensures o == DecideSoul(guild, channelOk, author, target)
      ensures outbox == old(outbox) + SoulReplies(o, author, target)
      ensures active == old(active) && timer == old(timer) && loopAwaits == old(loopAwaits) && timers == old(timers)
      ensures nextHandle == old(nextHandle)
      ensures o != SoulMuted ==> unchanged(sched, sched.store, sched.queue)
      ensures o == SoulMuted ==>
        var g := guild.value;
        && sched.store.rows == Upsert(old(sched.store.rows), target.id, MuteRecord(target, SOUL_DURATION, g.id, 0, now))
        && sched.queue.tasks == old(sched.queue.tasks) + MuteTasks(g.id, target.id, Captured(target.roles), g.roles[MUTE_ROLE_ID])
        && sched.countdowns == old(sched.countdowns) + [Countdown(target.id, now, SOUL_DURATION)]
    {
      o := DecideSoul(guild, channelOk, author, target);
      if o == SoulMuted {
        var g := guild.value;
        TakeSoul(g.id, g.roles[MUTE_ROLE_ID], target, now);
      } else {
        outbox := outbox + SoulReplies(o, author, target);
      }
    }
  }
}
