# Blood God bot: mute scheduler and sacrifice cycle

This project is a Dafny model of the core of `bloodgod.py`, a Discord bot. The
bot runs a recurring "sacrifice" event. While an event is open, a member may
sacrifice another member. Both are then muted for a while:

- their ordinary roles are stripped and written to a small table;
- the mute role is given instead;
- when the mute runs out, the stored roles come back.

All role changes go through one FIFO queue, which a single worker drains.

The platform is reduced to plain data. A guild maps role ids to roles and user
ids to the roles that member holds. The world is the set of guilds the bot can
see. Time is an integer `now` passed in by the caller. Platform rejections are
a `rejected` flag per queued call.

Modules, following the program's sections:

- `Config` (`config.dfy`): the guild, role ids, protected role ids and durations.
- `Platform` (`platform.dfy`): roles, members, guilds, and role-id sets.
- `RoleCodec` (`role_codec.dfy`): the comma-joined text form of a role-id list.
  - Encoding is `",".join(map(str, ids))`.
  - Decoding splits at the commas and parses each piece with `int`.
- `MuteStore` (`mute_store.dfy`): the `mutes` table, as a class holding a map keyed by user id.
- `RoleQueue` (`role_queue.dfy`):
  - the role-change queue, as a class holding a sequence;
  - the worker's step and drain loop;
  - the platform's effect of one role call, as a pure function.
- `MuteScheduler` (`mute_scheduler.dfy`):
  - the role capture, the task sequences and the unmute, as pure functions;
  - a `Scheduler` class with `process_mute`, `unmute_member`, the firing of a countdown, and the startup rehydration loop.
- `Sacrifice` (`sacrifice.dfy`):
  - the guard chains of `sacrifice` and `soul`, as pure functions;
  - a `SacrificeMachine` class over `active_sacrifice` and `sacrifice_timer_task`.
  - The machine also records which response window the announcement loop is awaiting, which windows are still sleeping, and the messages sent.
  - Its invariant `Valid()` is kept by every transition.
- `Lifecycle` (`lifecycle.dfy`): mute then unmute. With every queued call carried out, the member gets back exactly the role ids it had, plus the April Fools reward.
- `Scenarios` (`scenarios.dfy`): short concrete runs of the sacrifice machine.

## Model

| member | source | states |
|---|---|---|
| MuteStore.Upsert | bloodgod.py:93-95 | INSERT OR REPLACE keyed by user id: the user has exactly the new row, every other row is kept |
| MuteStore.Delete | bloodgod.py:103 | DELETE by user id: only that row goes; an absent user leaves the table unchanged |
| MuteStore.DeleteUpsert | bloodgod.py:85-105 | adding then removing a user's row is the same as removing it from the original table |
| MuteStore.UpsertTwice | bloodgod.py:93-95 | a second add_mute for the same user replaces the first completely |
| MuteStore.Store.constructor | bloodgod.py:57-71 | a freshly created table holds no rows |
| MuteStore.Store.Reopen | bloodgod.py:57-71 | `CREATE TABLE IF NOT EXISTS` on an existing database keeps every persisted row |
| MuteStore.Store.AddMute | bloodgod.py:85-97 | the table becomes the upsert of the row holding the encoded role list |
| MuteStore.Store.RemoveMute | bloodgod.py:99-105 | the table becomes the delete of the user's row |
| MuteStore.Store.GetAllMutes | bloodgod.py:107-114 | returns every row of the table |
| RoleCodec.NatToString | bloodgod.py:92 | `str` of a role id is a non-empty string of decimal digits |
| RoleCodec.ParseNat | bloodgod.py:150 | `int` of a piece succeeds exactly on non-empty digit strings |
| RoleCodec.ParseNatToString | bloodgod.py:92 | parsing the decimal text of an id gives the id back |
| RoleCodec.Split | bloodgod.py:148 | `split(",")` yields at least one piece, and no piece contains a comma |
| RoleCodec.JoinSplit | bloodgod.py:148 | joining the pieces of a split gives the original string |
| RoleCodec.SplitJoin | bloodgod.py:92 | splitting a join of comma-free pieces gives the pieces back |
| RoleCodec.ParsePieces | bloodgod.py:148-150 | parses pieces in order up to the first one `int` rejects; complete exactly when every piece parsed |
| RoleCodec.Encode | bloodgod.py:92 | the stored text is empty exactly when the role list is empty |
| RoleCodec.DecodeEncode | bloodgod.py:92 | decoding the stored text of an id list returns the same ids in the same order |
| RoleCodec.ParsePiecesOfNumbers | bloodgod.py:148-150 | the decimal texts of ids parse completely to those ids |
| RoleCodec.EmptyRoleList | bloodgod.py:148 | the empty list is stored as "" and "" reads back as the empty list |
| RoleCodec.Decode | bloodgod.py:148-150 | reading a stored list succeeds exactly when every comma-separated piece is a number, and gives one id per piece, in order |
| Platform.Ids | bloodgod.py:224 | the id list has one entry per role, in the same order |
| RoleQueue.Without | bloodgod.py:35-36 | removing a role leaves every other role id and drops that id |
| RoleQueue.Mutate | bloodgod.py:35-39 | an ADD adds the role id and a REMOVE takes it away; nothing else changes |
| RoleQueue.Apply | bloodgod.py:35-39 | a role call fails exactly when the guild, member or role is gone; otherwise only that member's roles change |
| RoleQueue.Step | bloodgod.py:44-48 | one worker step keeps every guild, every member and every guild role; it changes at most the task's own guild |
| RoleQueue.RunAllFrame | bloodgod.py:41-51 | a run of the worker keeps every guild, member and guild role, and leaves a guild no task names exactly as it was |
| RoleQueue.RunAllAppend | bloodgod.py:41-51 | the worker runs tasks front to back: running two batches in turn is running their concatenation |
| RoleQueue.FailedTaskDropped | bloodgod.py:45-48 | a failing task is dropped and every later task runs as if it had never been queued |
| RoleQueue.Queue.constructor | bloodgod.py:33 | the queue starts empty |
| RoleQueue.Queue.Put | bloodgod.py:229-230 | `put` appends at the tail; nothing already queued moves |
| RoleQueue.Queue.WorkerStep | bloodgod.py:44-48 | takes the head task, runs it, and reports whether the call succeeded; a failed call leaves the world as it was |
| RoleQueue.Queue.Drain | bloodgod.py:41-51 | the worker empties the queue and the world ends as the FIFO run of the old queue |
| MuteScheduler.Captured | bloodgod.py:222-223 | the captured roles are exactly the member's roles that are neither @everyone nor protected |
| MuteScheduler.CapturedAppend | bloodgod.py:222-223 | capture keeps the original order |
| MuteScheduler.CapturedSingle | bloodgod.py:222-223 | one role is captured exactly when it is capturable |
| MuteScheduler.MuteRecord | bloodgod.py:222-226 | the row written by a mute holds the guild, now plus the duration, the flag, and a role list that reads back as the captured ids in order |
| MuteScheduler.RemoveTasks | bloodgod.py:228-229 | one REMOVE per role, the i-th task removing the i-th role |
| MuteScheduler.MuteTasksOrder | bloodgod.py:228-230 | a mute queues one REMOVE per captured role, in capture order, and the ADD of the mute role last |
| MuteScheduler.RehydrateDelay | bloodgod.py:374-376 | the startup delay is zero exactly when the unmute time has passed, and the remaining time otherwise |
| MuteScheduler.MuteRoleRemoval | bloodgod.py:142-145 | the mute role is removed only when it resolves and the member holds it |
| MuteScheduler.RestoreAdds | bloodgod.py:148-152 | at most one ADD per stored id |
| MuteScheduler.Resolving | bloodgod.py:149-151 | the ids kept are exactly the stored ids that resolve to a role of the guild |
| MuteScheduler.ResolvingAppend | bloodgod.py:149-151 | the loop over stored ids keeps their order: the resolving ids of a concatenation are those of each part in turn |
| MuteScheduler.RestoreAddsSpec | bloodgod.py:148-152 | exactly one ADD per stored id that resolves, in stored order, of the role it resolves to; unresolvable ids are skipped; so all resolving gives back all stored roles and none resolving gives nothing |
| MuteScheduler.AprilReward | bloodgod.py:154-157 | the April Fools role is added exactly when the flag is 1 and the role resolves |
| MuteScheduler.RestoreTasksOrder | bloodgod.py:142-157 | the restoration is all for the member; it starts with a REMOVE exactly when the member holds the resolving mute role, and every other task is an ADD |
| MuteScheduler.Unmute | bloodgod.py:123-158 | each of the five outcomes holds exactly under its condition (no record; guild gone; member gone; a stored piece that is not a number; full restoration); the early returns queue nothing and keep the record; a bad piece keeps the mute-role removal and the adds of the ids before it, and keeps the record; a full restoration queues removal, adds and reward and deletes the record |
| MuteScheduler.UnmuteTwiceIsNoOp | bloodgod.py:130-131 | after a successful unmute, a second one finds no record and does nothing |
| MuteScheduler.RehydratedFireTimes | bloodgod.py:372-377 | after a restart each row fires at its unmute time, or at once when overdue |
| MuteScheduler.ScheduleRehydrated | bloodgod.py:373-377 | scheduling each stored user once gives exactly one countdown per row, with its clamped delay |
| MuteScheduler.Scheduler.constructor | bloodgod.py:28-33 | empty table, empty queue, no countdowns |
| MuteScheduler.Scheduler.Reopen | bloodgod.py:57-71 | a restarted process keeps the persisted rows, while the in-memory queue is empty and no countdown runs |
| MuteScheduler.Scheduler.ProcessMute | bloodgod.py:216-231 | persists the record, then queues the REMOVEs of the captured roles in order, then the ADD of the mute role, then starts the countdown |
| MuteScheduler.Scheduler.QueueRemovals | bloodgod.py:228-229 | queues one REMOVE per captured role, in capture order, behind what is queued |
| MuteScheduler.Scheduler.QueueMute | bloodgod.py:228-230 | queues the mute's tasks behind what is already queued |
| MuteScheduler.Scheduler.UnmuteMember | bloodgod.py:123-158 | outcome, queue and table are exactly those of `Unmute` on the old table |
| MuteScheduler.Scheduler.RestoreFromRow | bloodgod.py:142-158 | with guild and member found: the outcome is Restored exactly when every piece parses; the queue grows by the removal and adds, plus the reward when restored; only a restoration deletes the record |
| MuteScheduler.Scheduler.QueueMuteRoleRemoval | bloodgod.py:142-145 | queues the mute role's removal exactly as `MuteRoleRemoval` gives it |
| MuteScheduler.Scheduler.QueueReward | bloodgod.py:154-157 | queues the reward exactly as `AprilReward` gives it |
| MuteScheduler.Scheduler.QueueRestoredRoles | bloodgod.py:148-152 | queues the ADDs for the stored ids parsed before the first bad piece, and reports whether all parsed |
| MuteScheduler.Scheduler.QueueRestoredRole | bloodgod.py:150-152 | one turn of the restoring loop extends the queue to the adds of the ids parsed so far |
| MuteScheduler.Scheduler.FireCountdown | bloodgod.py:118-121 | a due countdown is gone and its user is unmuted as `Unmute` says |
| MuteScheduler.Scheduler.Rehydrate | bloodgod.py:372-377 | keeps the running countdowns and adds exactly one countdown per stored row, started now with the clamped delay |
| Sacrifice.Protected | bloodgod.py:180-181 | `has_ignored_role` holds exactly when the member holds some protected role id |
| Sacrifice.Decide | bloodgod.py:166-198 | the guard chain, in order: not active, no mute role, self-target, protected caller, target muted, backfire, worthy; each stated as an iff |
| Sacrifice.SacrificeReplies | bloodgod.py:166-208 | no reply when no cycle is open or the mute role is missing, one reply otherwise |
| Sacrifice.DecideSoul | bloodgod.py:326-349 | the guard chain, in order: no guild, no channel, no mute role, self-target, target muted, muted; each stated as an iff |
| Sacrifice.SoulReplies | bloodgod.py:328-360 | one reply for each rejection, the claim and the confirmation on success |
| Sacrifice.CancelledTimers | bloodgod.py:195-197 | cancelling drops only that window; cancelling none changes nothing |
| Sacrifice.SacrificeMachine.constructor | bloodgod.py:28-29 | no open cycle, no window |
| Sacrifice.SacrificeMachine.Announce | bloodgod.py:260-266 | two announcements, the cycle opens, and one new window is started and awaited |
| Sacrifice.SacrificeMachine.WindowExpires | bloodgod.py:235-241 | the taunt; the cycle closes only if the announcement loop was awaiting this window |
| Sacrifice.SacrificeMachine.CancelTimer | bloodgod.py:295-297 | the current window is cancelled without a taunt and cleared; the loop's own window closes the cycle |
| Sacrifice.SacrificeMachine.EndCycle | bloodgod.py:209-212 | the cycle closes and the window is cancelled and cleared |
| Sacrifice.SacrificeMachine.ResolveBackfire | bloodgod.py:191-198 | the warning, a ten-minute mute of the caller alone with no reward, and the cycle ends |
| Sacrifice.SacrificeMachine.ResolveWorthy | bloodgod.py:200-212 | the caller is muted with the reward flag, then the target, both for fifteen minutes; the announcement; the cycle ends |
| Sacrifice.SacrificeMachine.Sacrifice | bloodgod.py:162-212 | the outcome of the guard chain; every rejection leaves cycle, table, queue and countdowns unchanged |
| Sacrifice.SacrificeMachine.DebugDrop | bloodgod.py:277-302 | guild and channel checks; otherwise cancels any window, reopens the cycle and starts a window the loop does not await |
| Sacrifice.SacrificeMachine.TakeSoul | bloodgod.py:352-360 | the claim, a ten-minute mute of the target with no reward, and the confirmation |
| Sacrifice.SacrificeMachine.Soul | bloodgod.py:324-360 | the outcome of soul's guard chain; the target alone is muted on success; the cycle is never touched |
| Lifecycle.RunOnMember | bloodgod.py:41-51 | one member's tasks, all accepted, change that member's role ids as the task sequence says, and keep the guild's roles |
| Lifecycle.EffectRemoves | bloodgod.py:228-229 | the queued REMOVEs take away exactly the captured role ids |
| Lifecycle.EffectAdds | bloodgod.py:149-152 | the queued restoration ADDs give back exactly the stored ids, when all resolve |
| Lifecycle.MuteStep | bloodgod.py:222-230 | after a mute the member holds the mute role and every uncaptured role, protected ones included, and no captured one |
| Lifecycle.RestoreStep | bloodgod.py:142-158 | unmuting restores and deletes the record; the member loses the mute role and gains the stored roles and the reward |
| Lifecycle.EffectOfRestore | bloodgod.py:142-157 | the restoration takes the mute id away from a muted member, gives back the stored ids and adds the reward |
| Lifecycle.MuteThenUnmute | bloodgod.py:123-231 | mute then unmute, with every call carried out, leaves the member with exactly its original role ids plus the April Fools role when rewarded; a member that already held a capturable mute role gets it back, and only a held mute role that is never captured is lost |
| Lifecycle.MuteRoleCaptured | bloodgod.py:222-223 | the mute role is captured exactly when the member holds it and it is capturable |
| Lifecycle.RestoredSet | bloodgod.py:222-231 | the role ids after the round trip are the original ids plus the reward, less a held mute id that was not captured |
| Scenarios.SelfTargetKeepsCycle | bloodgod.py:176-178 | self-sacrifice is rejected and the cycle stays open |
| Scenarios.BackfireMutesCallerOnly | bloodgod.py:191-198 | targeting a protected member mutes only the caller, for 600 seconds, with no reward |
| Scenarios.DebugWindowLeavesCycleOpen | bloodgod.py:235-241 | a debugdrop window that times out leaves the cycle open |
| Scenarios.TwoWindowsAtOnce | bloodgod.py:264 | debugdrop followed by the loop's announcement leaves two windows sleeping |
| Scenarios.PartialRestore | bloodgod.py:148-152 | of a stored list whose second role is gone, only the first role is restored |
| Scenarios.RestartFiresOverdueRow | bloodgod.py:372-377 | after a restart an overdue row keeps its record and gets a countdown that fires at once |
| Scenarios.MuteThenFire | bloodgod.py:142-158 | a fired countdown queues the removal of the mute role and the add of the stored role, and deletes the record |
| Scenarios.RestartLosesQueuedRestore | bloodgod.py:142-158 | a restart after the record is deleted but before the queued tasks run leaves no row, no task and no countdown for the member |

## Behaviour of the code worth knowing

- **Backfire duration.** The backfire mutes the caller for 600 seconds (bloodgod.py:193). A worthy sacrifice mutes each member for 900 seconds (bloodgod.py:201-202). So targeting a protected member costs the caller less than a worthy sacrifice does.
- **Debugdrop timeout.** When a window started by `debugdrop` sleeps out, it taunts, but nothing resets `active_sacrifice` (bloodgod.py:235-241, 300-301).
  - The cycle stays open.
  - It closes when a sacrifice resolves, or when the announcement loop's own next window ends or is cancelled (bloodgod.py:265-271).
  - A new announcement does not close it.
  - `Scenarios.DebugWindowLeavesCycleOpen` shows this.
- **Two windows at once.** After a `debugdrop`, the loop may announce before that window ends. The loop then overwrites `sacrifice_timer_task` (bloodgod.py:264). The earlier window keeps sleeping and can no longer be cancelled. `Scenarios.TwoWindowsAtOnce` shows this.
- **Debugdrop from an open cycle.** A `debugdrop` run while the loop waits on its window cancels that window. The loop then closes its cycle, and `debugdrop` reopens one straight after (bloodgod.py:295-301).
- **Guard "caller not protected".** The backfire guard tests "caller not protected" again (bloodgod.py:191), although the guard at bloodgod.py:183 has already returned for a protected caller. `Decide` keeps the test as written.
- **A caller who already holds the mute role.** `sacrifice` checks only the target for the mute role (bloodgod.py:187), so such a caller is accepted.
  - The mute role is not protected, so `process_mute` captures it with the other roles.
  - INSERT OR REPLACE (bloodgod.py:93-95) overwrites the caller's earlier record with the new role list, which holds the mute role and not the roles the earlier mute stripped (`MuteStore.UpsertTwice`).
  - On unmute the mute role is removed and then given back with the stored roles. The caller ends the round trip muted (`Lifecycle.MuteThenUnmute`).
- **Restores lost at a restart.** `unmute_member` only queues the role changes (bloodgod.py:145, 152, 157) and then deletes the record at once (bloodgod.py:158).
  - The queue lives in memory (bloodgod.py:33), while the table survives a restart (bloodgod.py:57-71).
  - If the process stops before the worker has run those tasks, nothing is left to restore the member's roles: no row, no task, and `on_ready` starts no countdown.
  - The member keeps the mute role. `Scenarios.RestartLosesQueuedRestore` shows this.

## Left out

- The Discord API is reduced to plain data:
  - member objects, `get_guild`, `get_role`, `get_member` and channel lookup;
  - a failed `add_roles`/`remove_roles` is a `rejected` flag or a missing guild, member or role when the call runs;
  - the reason strings of role calls are left out.
- asyncio is left out: no interleaving of commands, countdowns, the worker and the announcement loop is modelled.
  - Each operation is one atomic step over the state.
  - A countdown may be fired by `FireCountdown` once it is due.
  - The 0.5 second pacing between role calls and `task_done` are omitted.
- sqlite, the SQL text and the `update_db` migration are left out. The table is a map, and `init_db` is `Store.constructor` on a new database or `Store.Reopen` on an existing one, and the `april` default of 0 for old rows is not modelled. A NULL `original_roles` cannot arise from `add_mute` and is not modelled.
- A restart is `Scheduler.Reopen` between two atomic steps. A stop in the middle of an operation, such as between the `add_mute` write and the queueing in `process_mute`, is not modelled.
- Timestamps are floats in the source and integers here.
- `Announce`: the random wait of 500, 700 or 800 minutes before an announcement is left out. An announcement happens whenever `Announce` is called while the loop is not awaiting a window.
- The loop's single check for the guild and channel before it starts is also left out, so a loop that would have exited at once is not modelled.
- `RoleCodec.ParseNat` accepts only plain decimal digits. Python's `int` also accepts a sign, surrounding whitespace and underscores. Text written by `add_mute` never contains these. For a hand-edited row such as `-5` the source skips the role, but the model reports `BadRoleList`.
- Message wording is reduced to a message kind and the ids it mentions. The `say` command, `bot.run` and the login token are left out.
- The `has_role("Loser 😂")` restriction on `debugdrop`, `soul` and `say` is left out.
- `print` logging, including the worker's error message, is left out.
- The comments at bloodgod.py:201-202 give 10 and 5 minutes. The durations modelled are the values in the code, 15 minutes each.
- `Scheduler.ProcessMute` does not look at the world. The mute role is passed in, as the callers pass `muted_role`, and queued tasks name the member by id. A member who leaves before a task runs makes that task fail, as the platform call would.
