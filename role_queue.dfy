/**
 * The role-change queue: a FIFO of role ADD/REMOVE tasks drained by a single
 * worker. The worker runs each task in turn; a task the platform rejects is
 * dropped and the worker moves on, with no retry and no requeue.
 */
module RoleQueue {
  import opened Options
  import opened Platform

  datatype Op = Add | Remove

  /** One queued role change for one member of one guild. */
  datatype RoleTask = RoleTask(guild: GuildId, member: UserId, role: Role, op: Op)

  /** The member's role list without any role of id `id`. */
  function Without(roles: seq<Role>, id: RoleId): (r: seq<Role>)
    ensures RoleIds(r) == RoleIds(roles) - {id}
    ensures forall x :: x in r ==> x in roles
  {
    if roles == [] then []
    else
      var rest := Without(roles[1..], id);
      var head := if roles[0].id == id then [] else [roles[0]];
      RoleIdsAppend(head, rest);
      RoleIdsAppend([roles[0]], roles[1..]);
      assert roles == [roles[0]] + roles[1..];
      head + rest
  }

  /** Adding a held role or removing one not held changes nothing, as on the platform. */
  function Mutate(roles: seq<Role>, role: Role, op: Op): (r: seq<Role>)
    ensures op == Add ==> RoleIds(r) == RoleIds(roles) + {role.id}
    ensures op == Remove ==> RoleIds(r) == RoleIds(roles) - {role.id}
  {
    RoleIdsAppend(roles, [role]);
    match op
    case Add => if Holds(roles, role.id) then roles else roles + [role]
    case Remove => Without(roles, role.id)
  }

  /**
   * What the platform does with one task: None (the call raises) when the
   * guild, the member or the role no longer exists; otherwise only that
   * member's roles change.
   */
  function Apply(w: World, t: RoleTask): (r: Option<World>)
    ensures r.Some? <==> t.guild in w && t.member in w[t.guild].members && t.role.id in w[t.guild].roles
    ensures r.Some? ==> r.value.Keys == w.Keys
    ensures r.Some? ==> forall k :: k in w && k != t.guild ==> r.value[k] == w[k]
    ensures r.Some? ==> var g, g' := w[t.guild], r.value[t.guild];
      && g'.id == g.id && g'.roles == g.roles && g'.members.Keys == g.members.Keys
      && g'.members[t.member] == Mutate(g.members[t.member], t.role, t.op)
      && forall v :: v in g.members && v != t.member ==> g'.members[v] == g.members[v]
  {
    if t.guild in w && t.member in w[t.guild].members && t.role.id in w[t.guild].roles then
      var g := w[t.guild];
      Some(w[t.guild := g.(members := g.members[t.member := Mutate(g.members[t.member], t.role, t.op)])])
    else None
  }

  /** One worker step: `rejected` says the platform refused the call; a failed task leaves the world as it was. */
  function Step(w: World, t: RoleTask, rejected: bool): (r: World)
    ensures r.Keys == w.Keys
    ensures forall k :: k in w && k != t.guild ==> r[k] == w[k]
    ensures forall k :: k in w ==> r[k].roles == w[k].roles && r[k].members.Keys == w[k].members.Keys
  {
    if rejected then w
    else match Apply(w, t)
      case None => w
      case Some(w') => w'
  }

  /** The worker running `ts` front to back, each task with its own platform verdict. */
  function RunAll(w: World, ts: seq<RoleTask>, rejected: seq<bool>): (r: World)
    requires |rejected| == |ts|
  {
    if ts == [] then w else RunAll(Step(w, ts[0], rejected[0]), ts[1..], rejected[1..])
  }

  /**
   * The worker never adds or removes a guild, a member or a guild role, and a
   * guild no task names is left exactly as it was.
   */
  lemma {:induction false} RunAllFrame(w: World, ts: seq<RoleTask>, rejected: seq<bool>)
    requires |rejected| == |ts|
    ensures var r := RunAll(w, ts, rejected);
      && r.Keys == w.Keys
      && (forall k :: k in w ==> r[k].roles == w[k].roles && r[k].members.Keys == w[k].members.Keys)
      && (forall k :: k in w && (forall i :: 0 <= i < |ts| ==> ts[i].guild != k) ==> r[k] == w[k])
  {
    if ts != [] {
      RunAllFrame(Step(w, ts[0], rejected[0]), ts[1..], rejected[1..]);
      assert forall i :: 0 <= i < |ts[1..]| ==> ts[1..][i] == ts[i + 1];
    }
  }

  /** Running two batches one after the other is running their concatenation: nothing is reordered. */
  lemma {:induction false} RunAllAppend(w: World, a: seq<RoleTask>, ra: seq<bool>, b: seq<RoleTask>, rb: seq<bool>)
    requires |ra| == |a| && |rb| == |b|
    ensures RunAll(w, a + b, ra + rb) == RunAll(RunAll(w, a, ra), b, rb)
  {
    if a != [] {
      assert (a + b)[1..] == a[1..] + b;
      assert (ra + rb)[1..] == ra[1..] + rb;
      RunAllAppend(Step(w, a[0], ra[0]), a[1..], ra[1..], b, rb);
    } else {
      assert a + b == b && ra + rb == rb;
    }
  }

  /** A task that fails is simply dropped: every task after it still runs, exactly as if it had never been queued. */
  lemma FailedTaskDropped(w: World, ts: seq<RoleTask>, rejected: seq<bool>, i: nat)
    requires |rejected| == |ts| && i < |ts|
    requires rejected[i] || Apply(RunAll(w, ts[..i], rejected[..i]), ts[i]).None?
    ensures RunAll(w, ts, rejected) == RunAll(w, ts[..i] + ts[i + 1..], rejected[..i] + rejected[i + 1..])
  {
    assert ts == ts[..i] + ([ts[i]] + ts[i + 1..]);
    assert rejected == rejected[..i] + ([rejected[i]] + rejected[i + 1..]);
    RunAllAppend(w, ts[..i], rejected[..i], [ts[i]] + ts[i + 1..], [rejected[i]] + rejected[i + 1..]);
    RunAllAppend(w, ts[..i], rejected[..i], ts[i + 1..], rejected[i + 1..]);
    assert ([ts[i]] + ts[i + 1..])[1..] == ts[i + 1..];
    assert ([rejected[i]] + rejected[i + 1..])[1..] == rejected[i + 1..];
  }

  class Queue {
    var tasks: seq<RoleTask>

    constructor ()
      ensures tasks == []
    {
      tasks := [];
    }

    /** `role_change_queue.put`: appends at the tail; nothing already queued moves. */
    method Put(t: RoleTask)
      modifies this
      ensures tasks == old(tasks) + [t]
    {
      tasks := tasks + [t];
    }

    /**
     * One turn of `role_change_worker`: takes the head task and runs it;
     * `ok` is false when the call failed and the task was dropped.
     */
    method WorkerStep(w: World, rejected: bool) returns (w': World, ok: bool)
      requires tasks != []
      modifies this
      ensures tasks == old(tasks)[1..]
      ensures w' == Step(w, old(tasks)[0], rejected)
      ensures ok <==> !rejected && Apply(w, old(tasks)[0]).Some?
    {
      var t := tasks[0];
      tasks := tasks[1..];
      var result := if rejected then None else Apply(w, t);
      match result {
        case None =>
          w', ok := w, false;
        case Some(next) =>
          w', ok := next, true;
      }
    }

    /** The worker running until the queue is empty, one task at a time, in FIFO order. */
    method Drain(w: World, rejected: seq<bool>) returns (w': World)
      requires |rejected| == |tasks|
      modifies this
      ensures tasks == []
      ensures w' == RunAll(w, old(tasks), rejected)
    {
      w' := w;
      var i := 0;
      while tasks != []
        invariant 0 <= i <= |old(tasks)|
        invariant tasks == old(tasks)[i..]
        invariant RunAll(w', tasks, rejected[i..]) == RunAll(w, old(tasks), rejected)
        decreases |tasks|
      {
        assert rejected[i..][1..] == rejected[i + 1..];
        var ok;
        w', ok := WorkerStep(w', rejected[i]);
        i := i + 1;
      }
    }
  }
}
