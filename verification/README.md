# Verified models of an actor runtime

Dafny models of the hard parts of an actor framework written in Go, with proofs about
them. Nine parts are modelled; in each, a small specification says what the program
promises, theorems are proved about it for every input and every run, and classes or
methods written as the program is written (fields updated in place, loops) are proved to
do what the specification says.

| part | modules | source |
|---|---|---|
| run loop of one actor | RunLoop, RunLoopLaws, RunLoopTells, Runner | actor/actor.go, actor/invoke.go |
| group protocol | GroupProtocol, GroupInvariant, GroupAlways, GroupTheorems, GroupObject | actor/group.go, actor/actor.go, actor/ref.go |
| reply ownership of a SafeCall | ReplyOwnership | actor/manager.go, actor/invoke.go, actor/handler.go |
| postpone queue | Postpone, PostponeLaws, PostponeOrder, PostponeLives, PostponeFates, PostponeObjects | actor/actor_control.go |
| timers | Timers, TimerObjects | actor/actor_control.go, actor/timer.go, actor/actor_context.go |
| shared store and readers | Shared, SharedLaws, SharedTheorems, SharedCaches, SharedValues, SharedObjects | shared/store.go, shared/reader.go |
| placement | Decimal, Placement, PlacementMethods | cluster/placement.go, cluster/node.go, cluster/migration.go |
| lease scripts | Lease, LeaseReplies, LeaseScripts | grain/driver_redis.go |
| README rewriter | Text, ReadmeGen, ReadmeBlocks, ReadmeLaws, ReadmeMarkers, ReadmePieces, ReadmeFiles, ReadmeMethods | cmd/readmegen/main.go |

`dafny verify dfyconfig.toml` checks everything. Prelude holds the one shared datatype.

## What is an input

Handlers, OnSpawn hooks, the answers of message targets, the scheduler, clocks, the
checksum and the remaining time of a lease are inputs. A statement for every `Behaviour`,
`Env`, `Answers`, action sequence or `Checksum` is one about everything they can do.

## Granularity

- **Group protocol.** A step is one atomic operation, or one step inside a locked section;
  any goroutine may act between two steps. Taking a reference is two steps, the test of
  `closed` and the hold, and closing from outside is two, the compare-and-swap and the
  unhold. The steps of `actorQuit` are separate and hold the write lock. An external close
  holds no lock that keeps a reference from being taken between the test and the hold, so
  the reference counts are about *calm* runs: nobody is between test and hold on a runtime
  at the moment it is closed from outside. That this is exactly what is needed is a theorem
  (`CloseSafeIffNoOneInWindow`), as is that the gap can be reached. Everything else that is
  promised of the group is proved for every run, calm or not. `spawnActor` waiting for a
  predecessor's `doneCh` is a guarded step.
- **Run loop.** One attempt is one pass of the body of the loop in `invokeBatch`. The loop
  itself is a class with the program's nesting, early exits and in-place replacement.
- **Shared store.** The store handles one request at a time, a refresh is sent reader by
  reader, and readers live, die, ask and receive in between. One key; pushes may be
  reordered, replies lost.
- **Reply ownership.** Each channel operation and each call of Close is a step.

## What the proofs found

Where a promise does not hold of the code as it stands, the exact condition is proved.

- A close from outside between the closed-test and the hold leads to a send on a closed
  channel (`GroupTheorems.CloseSafeIffNoOneInWindow`, `WindowIsReachable`). The comment on
  `requestClose` says the mailbox is never closed; the code closes it, and the model
  follows the code.
- `resolveActor` returns neither a runtime nor an error if the group starts stopping between
  its first look and the one in `spawnActor` (`GroupObject.ActorGroup.ResolveActor`), and its caller then panics (`HandlerPost`).
- A runtime that leaves its loop with a context present but inactive never gives its share
  of the idle counter back, so `count` is one too low from then on
  (`RunLoopLaws.IdleGivenBack`, `GroupTheorems.CountExact`). Between messages a context is
  inactive exactly if a panic left it so and nothing but refused messages came since
  (`RunLoopLaws.StrandedIff`). With a recovery handler that takes queries, or none, that is
  the moment before the panic's replacement is handled; with one registered for spawning
  only, the replacement is refused, and a close at any later time loses the share
  (`RunLoopLaws.SpawnOnlyRecoveryStrands`). Either way the runtime has panicked and has been
  closed from outside, and that is enough (`GroupTheorems.PanicThenCloseLeaks`).
- A result without a reply (an error, a refusal, a panic, the closing of the actor) sent
  after a SafeCall's caller has closed the channel kills the actor's goroutine
  (`ReplyOwnership.DiesIff`, `RunLoopLaws.ExitCrashIff`).
- Per-target order of the postpone queue is kept by an operation exactly if no target that
  answers busy accepts a later message in the same pass (`PostponeOrder.DoOrder`); it can be
  lost otherwise (`OrderCanBeLost`).
- The last flush of the postpone queue comes before OnQuit. A message vanishes, without
  delivery, error or report, exactly if OnQuit posted it to be retried and its target was
  busy whenever it was sent (`PostponeLives.VanishedIff`, `HookPostVanishes`).
- A reader's cache is left behind until the next publish exactly when a push that is not of the store's
  version, with nothing newer on its way or due, is the first thing an empty cache is given
  (`SharedCaches.CachesFreshIff`). That can happen (`SharedTheorems.OvertakenPushIsStale`),
  but not as long as no push overtakes the last of its kind
  (`SharedCaches.NoOvertakingKeepsFresh`).
- The wrap of timer ids to 1 misses one case: after the largest integer has been given out
  the search begins at the smallest, so the next id is negative, and so are the ones after
  it while there are free negative ids (`TimerObjects.ActorTimers.NextId`).
- The lease scripts store a lease that was let go as an empty owner, so they take a caller
  without a name for its holder; every other answer is what the answers before it make one
  expect (`LeaseReplies.AnswersAreExpectedIff`).
- A README file whose line ends are of both kinds is rewritten even if its text is up to date
  (`ReadmeFiles.UpToDateIff`).
- A README rendered twice stays the same exactly if no region contains a line that reads as
  an end marker (`ReadmeMarkers.RenderTwiceIff`).

## Model

| member | source | states |
|---|---|---|
| RunLoop.RankDecreases | actor/actor.go:141-172 | a panic replaces a message by one of lower rank, and leaves a context: user message, recovery request, placeholder; so recovery ends whatever panics |
| RunLoop.StepsWiden | actor/actor.go:79-98 | messages waiting behind a batch do not change how the batch is handled |
| RunLoop.BatchWidens | actor/actor.go:131-228 | a batch of the buffer is a batch of everything waiting: attempts up to the first panic, that one included |
| RunLoop.FoldInvariant | actor/actor.go:90-98 | after any number of attempts, handling what is left ends where handling everything one at a time ends |
| RunLoopLaws.AttemptKeeps | actor/actor.go:175-228 | one pass over one message, whatever hook and handler do, answers its caller exactly once, keeps contexts strictly in turn and the idle share right; it crashes only on a channel its caller has closed |
| RunLoopLaws.ExactlyOnce | actor/actor.go:69-129 | whatever handlers do and wherever the loop is left, a run that does not crash answers every caller exactly once and clears every context it made, in turn |
| RunLoopLaws.ContextsOnce | actor/actor.go:185-225 | in an orderly log every context is created once and cleared once unless still open |
| RunLoopLaws.FailAllAnswers | actor/actor.go:114-120 | failing what is left answers each caller once, and crashes exactly if one of them has closed its channel |
| RunLoopLaws.ExitCrashIff | actor/actor.go:114-120 | leaving the loop crashes exactly if a message left behind is a call whose caller has closed its channel |
| RunLoopLaws.OpenChannelsNeverCrash | actor/invoke.go:26-59 | with every channel open no run crashes |
| RunLoopLaws.IdleGivenBack | actor/actor.go:108-113 | a run gives its share of the idle counter back exactly if it does not leave the loop with an inactive context |
| RunLoopLaws.StrandedIff | actor/actor.go:141-180 | between messages the context is inactive exactly if a panic left it so and only refused messages came since |
| RunLoopLaws.StrandedOnlyAfterPanic | actor/actor.go:149-172 | where the recovery handler takes queries, or there is none: only while the panic's replacement waits |
| RunLoopLaws.SpawnOnlyRecoveryStrands | actor/actor.go:149-180 | where it takes spawns only, one panicking message leaves the context inactive with nothing waiting, and any later exit loses the idle share |
| RunLoopTells.RunExplained | actor/actor.go:69-129 | every event of a whole run is there for a reason and nothing begun is left unfinished: a caller gets its own handler's reply and error, or the panic or hook error that kept it from one; the hook runs straight after every creation; those left at the exit are told so in order after the clear |
| RunLoopTells.RefusedChangesNothing | actor/invoke.go:26-34 | a message not allowed changes nothing but that its caller is told |
| RunLoopTells.ContextHandles | actor/actor.go:209-225 | with a context, an allowed message goes to its handler, whose flag decides whether the context stays; only its panic has it replaced |
| RunLoopTells.SpawnHandles | actor/actor.go:182-225 | without one, a context is made, the hook runs and may refuse, then the message is handled as by any context |
| RunLoopTells.ReplacedBy | actor/actor.go:149-172 | a panicking message is replaced by the recovery request with its handler's permissions, or by the placeholder if there is no handler or the request itself panicked |
| RunLoopTells.PlaceholderDoesNothing | actor/invoke.go:61-71 | the placeholder calls nobody and leaves an active context as it is |
| RunLoopTells.CrashesIff | actor/invoke.go:36-59 | an attempt kills the goroutine exactly if the caller has closed its channel and there is no reply to clean: a refusal, a panic, a hook error, or a handler that returns none |
| Runner.Runner.Deliver | actor/actor.go:209-225 | the invoke, settle and clear of one message, with the deferred recovery, do what the specification of one delivery says |
| Runner.Runner.Handle | actor/actor.go:175-225 | the loop body does one attempt; a panic leaves the replacement at the same index |
| Runner.Runner.InvokeBatch | actor/actor.go:131-228 | the batch loop makes some number of attempts and moves forward or lowers the rank of the message it stops at |
| Runner.Runner.HandleBuffer | actor/actor.go:90-99 | the inner loop ends for any panicking handlers; it looks at `closed` before every batch and goes on exactly as long as no look has found it set |
| Runner.Runner.Round | actor/actor.go:75-107 | a round stops with something left only because its last look found `closed` set, and always then; otherwise less is waiting than before |
| Runner.Runner.Exit | actor/actor.go:108-123 | leaving gives back the idle share or clears, then fails buffer and mailbox in order |
| Runner.Runner.Run | actor/actor.go:69-129 | for any batch sizes, arrivals and points of closing: the loop looks at `closed` before the first batch and between any two, and attempts nothing after a look that finds it set; messages are left only by such a look, so with none the run is the plain fold, and with `closed` set from the start nothing is handled; every caller is answered and every context cleared exactly once |
| GroupAlways.StepAlways | actor/group.go:59-111 | every enabled action, calm or not, keeps: the fate of each message, the id map, the lock holder, closing, the idle counter, and all that is promised of a runtime nobody has closed from outside |
| GroupInvariant.StepKeeps | actor/group.go:59-111 | every enabled calm action keeps the invariant: reference counts, the fate of each message, the id map, the lock holder, closing and the idle counter |
| GroupTheorems.ReferenceCount | actor/actor.go:36-61 | holder is the references out plus the manager's; the mailbox is closed exactly at 0 and once, only when closed; no send meets a closed mailbox |
| GroupTheorems.SelfExitLosesNothing | actor/group.go:292-312 | in every run, a runtime not closed from outside fails no accepted message; once it has closed itself it has handled them all and nobody can reach it |
| GroupTheorems.NothingVanishes | actor/actor.go:99-120 | in every run, what a runtime accepted is, in order, what it handled, failed, holds and has in its mailbox; when it is done, only the first two |
| GroupTheorems.OneRunnerPerId | actor/group.go:83-131 | in every run, two runtimes of one id never run at once, and the running one is the one mapped |
| GroupTheorems.CloseIsComplete | actor/group.go:217-243 | in every run, after the loop of closeGroup every running runtime of every later state is closed and mapped, and none is inserted |
| GroupTheorems.CountExact | actor/group.go:205-209 | in every run, count is the mapped runtimes that are not idle, less the runners that have left with an inactive context; there are none unless a runtime has both panicked and been closed from outside |
| GroupTheorems.PanicThenCloseLeaks | actor/actor.go:108-113 | from any state in which an open runtime handles a message, a panic and a close before its replacement is handled leave the count one too low |
| GroupTheorems.CloseSafeIffNoOneInWindow | actor/actor.go:57-61 | closing an open runtime can lead to a send on a closed mailbox exactly if somebody is between the closed-test and the hold |
| GroupTheorems.WindowIsReachable | actor/group.go:59-68 | that gap is reached by a calm run |
| GroupObject.ActorGroup.HoldActor | actor/group.go:59-68 | a reference exactly if the id maps to an open runtime; the steps it takes |
| GroupObject.ActorGroup.SpawnActor | actor/group.go:83-111 | refused at once exactly when stopping; reuses an open runtime, else inserts one that holds the caller's reference; the steps it takes |
| GroupObject.ActorGroup.ResolveActor | actor/group.go:116-131 | which error is returned exactly when, and the one case without runtime and without error |
| GroupObject.ActorGroup.HandlerPost | actor/handler.go:49-65 | the message is accepted by the runtime of the id, last, or the sender is told why not; no reference stays behind; panics exactly when there is neither runtime nor error |
| GroupObject.ActorRef.Release | actor/ref.go:35-40 | idempotent: only the first release gives a reference back |
| GroupObject.ActorRef.Post | actor/ref.go:54-67 | refused once the target is closed; a send never meets a closed mailbox |
| GroupObject.ActorGroup.ActorQuit | actor/group.go:292-312 | true exactly if the runtime is open, unheld and out of mail; then its mailbox is closed once; otherwise nothing is lost |
| GroupObject.ActorGroup.RemoveActor | actor/group.go:314-321 | forgets this runtime and never a successor under the same id |
| GroupObject.ActorGroup.CloseActor | actor/group.go:247-256 | closes what the id maps to and touches no other runtime |
| GroupObject.ActorGroup.CloseGroup | actor/group.go:217-227 | every mapped runtime is closed afterwards |
| GroupObject.ActorGroup.HoldActors | actor/group.go:134-150 | one reference to each open runtime of the list, in order, and the ids without, in order; holder counts move with the references |
| GroupObject.LookedUpOneByOne | actor/group.go:139-148 | the lookup goes id by id: an open runtime is found, any other id is missing |
| ReplyOwnership.HandedOverOrClosedOnce | actor/manager.go:239-252 | in every interleaving a reply is in exactly one place; in the end it is with the caller and not closed, or closed exactly once, by whether the caller gave up |
| ReplyOwnership.CallerGetsTheResult | actor/manager.go:239-252 | with or without a reply, what the caller gets is what the handler sent, and it gets it unless it gave up |
| ReplyOwnership.NeverStuck | actor/handler.go:35-46 | the send never blocks and neither side can be stuck |
| ReplyOwnership.DiesIff | actor/invoke.go:36-53 | the actor dies exactly if there is no reply to hand over and the channel is closed before the result is sent |
| ReplyOwnership.ReplyChannel.Invoke | actor/invoke.go:36-53 | the send with its deferred cleanup is the protocol's send, and closes the reply on a closed channel |
| ReplyOwnership.ReplyChannel.SafeResult | actor/manager.go:239-252 | takes the result, or closes and drains the channel, as a run of the protocol |
| PostponeLaws.Conservation | actor/actor_control.go:195-242 | over any life each message is in exactly one place once: delivered, queued, refused, given back or reported lost; postponeSet is the queued targets; postponeTimer is set exactly while something is queued |
| PostponeLaws.EndSettlesAll | actor/actor_control.go:231-242 | right after the last flush nothing is queued and each message submitted until then has met one fate |
| PostponeLives.VanishedIff | actor/actor_context.go:64-77 | at the end of a life a message is in no list, delivered, refused, given back or reported, exactly if OnQuit posted it to be retried and its target was busy whenever it was sent |
| PostponeLives.NothingVanishesWithoutHook | actor/actor_control.go:48-52 | a life without posts after the last flush loses nothing silently |
| PostponeLives.HookPostVanishes | actor/actor_context.go:64-77 | one post from OnQuit to a busy target vanishes |
| PostponeFates.FateIsTheAnswers | actor/actor_control.go:195-224 | over any life a message is delivered exactly if a target accepted it, refused exactly if one refused it, and queued, given back or reported lost exactly if it has met only busy targets |
| PostponeFates.EveryQueuedIsAsked | actor/actor_control.go:195-224 | every post, multicast, timer and the last flush sends each queued message once more, in order, before anything else |
| PostponeFates.LastFlush | actor/actor_control.go:231-242 | the last flush sends every queued message once more, and the k-th becomes delivered, refused or lost exactly as its answer is accepted, refused or busy |
| PostponeFates.VerdictIsTrue | actor/actor_control.go:293-333 | what a post tells its caller is what became of the message; it is held back, unsent, exactly if an earlier one is still queued for its target |
| PostponeFates.MulticastTells | actor/actor_control.go:419-439 | one message per target, in order, those sent at once for whose target nothing is still queued; nothing is submitted exactly if the group is missing and there is such a target |
| PostponeOrder.FreshNeverOvertakes | actor/actor_control.go:311-333 | a message sent at once has none queued for its target |
| PostponeOrder.AheadIffSteady | actor/actor_control.go:208-216 | what a pass delivers is ahead of what it keeps exactly if no target that answers busy takes a later message |
| PostponeOrder.DoOrder | actor/actor_control.go:195-242 | an operation keeps every target's submission order exactly if its passes are steady in that sense |
| PostponeOrder.DeliveredInOrder | actor/actor_control.go:311-439 | over a life of such operations every target is delivered its messages in submission order, and the queue continues it |
| PostponeOrder.OrderCanBeLost | actor/actor_control.go:208-216 | without it two messages for one target can be delivered in reverse |
| PostponeObjects.ActorControl.PoseponePost | actor/actor_control.go:195-224 | the retry loop delivers, drops and keeps what the answers say, in order, and rebuilds the shadow set and the timer |
| PostponeObjects.ActorControl.TimerFires | actor/actor_control.go:249-258 | the timer's callback flushes and runs on exactly if something is left |
| PostponeObjects.ActorControl.FlushPostpone | actor/actor_control.go:231-242 | the last flush as specified: the timer stops, every queued message is tried once more, and the rest is reported (what that does to each message: PostponeFates.LastFlush) |
| PostponeObjects.ActorControl.APost | actor/actor_control.go:293-333 | queued behind an earlier message for its target, else sent once; busy is queued, or given back to a caller who wants one try |
| PostponeObjects.ActorControl.SplitPostpone | actor/actor_control.go:365-374 | both parts of the list, in order |
| PostponeObjects.ActorControl.SendEach | actor/actor_control.go:376-389 | sends in order and returns the busy ones in order |
| PostponeObjects.ActorControl.AMulticast | actor/actor_control.go:419-439 | sends to free targets, queues the busy ones and then the rest; false, with nothing submitted, only without the group, else one message per id |
| Timers.RunsAtMostOnce | actor/timer.go:21-36 | over any run, across contexts, no callback runs twice |
| Timers.NeverAfterItEnded | actor/actor_control.go:181-193 | a timer stopped, cleared or run never runs again, even if its message is queued, its id reused or a new context made |
| Timers.RunsIffNotEnded | actor/timer.go:21-26 | handling a timer's message runs its callback exactly if the timer has not ended |
| Timers.EndedBy | actor/actor_control.go:48-59 | stopping ends the one timer the id stands for; clearing ends all |
| Timers.LateTimersNeverRun | actor/actor_context.go:64-77 | a timer OnQuit starts, after the clear, never runs, not even in a later context |
| Timers.FirstInFirstOut | actor/actor_context.go:54-56 | the mailbox gives out the queued timer messages in the order in which they were queued, none lost and none added |
| Timers.QueuedTimerRuns | actor/timer.go:17-36 | once a timer's message is queued and it and all ahead of it have been taken, the timer has ended, by running its callback unless it had ended otherwise before |
| Timers.StartedTimerIsArmed | actor/actor_control.go:170-178 | a timer started is new, armed, in the table under its id and not ended, and no other changes but the one whose id it takes |
| TimerObjects.ActorTimers.NextId | actor/actor_control.go:151-169 | the probing loop ends and finds a free id; from a last id from 0 up it is positive, after the largest integer negative, and from a negative one the next free one upwards, positive exactly if all up to 0 are taken |
| TimerObjects.ActorTimers.Timer | actor/actor_control.go:144-178 | a new timer under that id, and no other changed |
| TimerObjects.ActorTimers.StopTimer | actor/actor_control.go:181-193 | true exactly if the id stands for a timer, which has then ended |
| TimerObjects.ActorTimers.Fire | actor/actor_context.go:42-58 | a clock timer fires once; its message joins the end of the mailbox exactly if holdActor finds a runtime, it is the timer's own, and there is room |
| TimerObjects.ActorTimers.Take | actor/timer.go:17-36 | refused without a context; runs exactly if the table holds this very timer |
| TimerObjects.ActorTimers.Clear | actor/actor_control.go:53-58 | every timer of the table has ended and the table is empty |
| SharedTheorems.Coherence | shared/store.go:191-215 | whatever dies, is lost or reordered: a loaded cache holds a published pair not newer than the store's; a watched one is current, or a push of the current version is on its way or due; when all is quiet Watch equals Fetch |
| SharedCaches.StepFreshIff | shared/reader.go:146-156 | one action keeps every loaded cache current, or a current push on its way to it or due, exactly if it does not give an empty cache a stale push with nothing newer to follow |
| SharedCaches.CachesFreshIff | shared/reader.go:146-156 | the same for whole runs, caches watched or not; and when all is quiet after such a run Watch equals Fetch |
| SharedCaches.NoOvertakingKeepsFresh | shared/reader.go:62-88 | a run in which no push overtakes the last of its kind never does that |
| SharedValues.FetchIsLastPublished | shared/store.go:191-197 | in every run the history is the values the run was asked to publish, in order, the version is their number, and Fetch gives the last |
| SharedValues.NothingElseIsHeld | shared/reader.go:146-156 | every loaded cache and every waiting push holds a value published with that version |
| SharedValues.PublishIsFollowedUp | shared/store.go:236-253 | a publish starts a refresh of the new version to every subscriber at once exactly if no timer is pending and the cooldown is over; else a push timer is set for the moment it is |
| SharedValues.TimerSendsToAll | shared/store.go:249-252 | the push timer's refresh goes to every subscriber |
| SharedTheorems.UpToDateIffNoOvertaking | shared/reader.go:62-88 | waiting pushes and caches together: none is left behind throughout a run exactly if no push overtakes the last of its kind |
| SharedTheorems.InOrderNeverOvertakes | shared/reader.go:62-88 | taking pushes oldest first for each reader is enough for that |
| SharedTheorems.OvertakenPushIsStale | shared/reader.go:146-156 | otherwise a quiet system can be reached in which a subscribed reader's Watch is a version behind |
| SharedTheorems.SnapshotNeverGoesBack | shared/reader.go:146-156 | while a context lasts no action takes its snapshot to an older version, or to another value of the same version |
| SharedTheorems.PushRate | shared/store.go:236-273 | any n refreshes in a row span at least n - 1 cooldowns, for every publish schedule |
| SharedLaws.StepKeeps | shared/store.go:236-273 | every action keeps the invariant of store, pushes and readers |
| SharedObjects.CacheEntry.Set | shared/reader.go:146-156 | the cache holds the first of the highest version of everything it was ever given |
| SharedObjects.CacheEntry.CacheGet | shared/reader.go:230-244 | whatever order snapshots came in, a hit is the value of the newest ever given, a miss means nothing was ever given or that one's time to live is over |
| SharedObjects.Store.SendEach | shared/store.go:268-272 | every subscriber is reached once: queued behind what waits for it or because it is busy, sent, or found missing |
| SharedObjects.Store.SendRefresh | shared/store.go:259-273 | and exactly the missing ones are unsubscribed |
| SharedObjects.Store.ScheduleRefresh | shared/store.go:236-253 | one push timer at most, a refresh at once when the cooldown is over |
| SharedObjects.Store.Publish | shared/store.go:184-203 | the published value under the next version, then the scheduling of its refresh |
| SharedObjects.Store.TimerFires | shared/store.go:249-252 | the push timer clears pending and starts a refresh |
| SharedObjects.Store.Subscribe | shared/store.go:205-219 | lists the reader and answers with the current snapshot, if any |
| Decimal.DigitsValue | cluster/placement.go:151-164 | reading a numeral back gives the number |
| Decimal.KeysDiffer | cluster/placement.go:87-89 | no two virtual nodes share a key, whatever the node ids contain |
| Decimal.Itoa | cluster/placement.go:151-164 | the digit loop and the reversal in place give the decimal numeral |
| Placement.ClockwiseIsShortest | cluster/placement.go:103-108 | the distance minimised is the shortest way clockwise round the ring |
| Placement.PlaceKeysDiffer | cluster/placement.go:72 | different actors have different keys if no type has a colon in it |
| Placement.PlacedWhereListed | cluster/node.go:56-78 | with a mapping an actor is placed on a member without a kind or whose kind lists its type, unless there is none |
| Placement.HomogeneousIsTransparent | cluster/placement.go:126-149 | if no member has a kind the group-aware wrapper makes no difference, whatever it wraps |
| Placement.NewRing | cluster/placement.go:34-39 | a ring is never without virtual nodes, and has as many as asked for if that is a number of them |
| Placement.NearestUnique | cluster/placement.go:83-111 | with no collision between different nodes, one node is nearest clockwise modulo 2^32 |
| Placement.PlacedUnique | cluster/placement.go:58-74 | nodes sharing a view agree on a placement, whatever order lists the members |
| Placement.OnlyItsActorsMove | cluster/placement.go:58-111 | when a node leaves exactly its actors move; when one joins, actors move only to it |
| Placement.AtMostOneOwner | cluster/migration.go:147-150 | of the members sharing a view, at most one says it should own the actor |
| Placement.OwnerIffEligible | cluster/migration.go:147-150 | one does exactly if some member can host the actor |
| Placement.WrapperIsMapping | cluster/placement.go:143-149 | the group-aware wrapper around consistent hashing is consistent hashing with that mapping |
| Placement.CollisionsAreTheChecksums | cluster/placement.go:86-94 | nodes with different ids collide only if the checksum does |
| PlacementMethods.HasGroup | cluster/node.go:59-73 | the scan says yes exactly if the node has no kind or its kind's list has the type |
| PlacementMethods.FilterByGroup | cluster/node.go:81-92 | exactly the members that can host, in order |
| PlacementMethods.BuildRing | cluster/placement.go:84-94 | the ring has exactly the points of the members' virtual nodes |
| PlacementMethods.Search | cluster/placement.go:103-105 | binary search finds the first entry at or after the key |
| PlacementMethods.SearchIsNearest | cluster/placement.go:96-110 | that entry, or the first when there is none, is the nearest clockwise |
| PlacementMethods.PlaceOnRing | cluster/placement.go:83-111 | building, sorting and searching the ring gives a nearest node |
| PlacementMethods.Place | cluster/placement.go:58-74 | filters and early returns included: nowhere if nobody is eligible, else a nearest eligible node |
| PlacementMethods.ShouldOwn | cluster/migration.go:147-150 | true exactly if this node is the one placed |
| PlacementMethods.CheckOwnership | cluster/migration.go:159-168 | leave exactly if there is an owner and it is somebody else, whose id is returned |
| Lease.GenerationNeverFalls | grain/driver_redis.go:66-148 | between any two moments of a key's lifetime the generation has not fallen |
| Lease.OneOwnerPerGeneration | grain/driver_redis.go:73-101 | each generation is granted to at most one owner |
| Lease.RefusedForeverIff | grain/driver_redis.go:116-118 | a token that is not current can become current exactly if its generation is still to come; otherwise it is refused for good |
| Lease.Fenced | grain/driver_redis.go:104-148 | after a grant, every save and release under an older lease, or by another owner of the same generation, is refused |
| Lease.HolderKeepsIt | grain/driver_redis.go:82-96 | nobody else can end a lease that has time left, short of a forced release |
| Lease.DataIsLastAccepted | grain/driver_redis.go:120-125 | the data is that of the last accepted save that was not a renewal |
| LeaseReplies.AnswersAreExpectedIff | grain/driver_redis.go:66-148 | each answer, with its holder, generation and data, follows from the answers before it by a rule without stored owners; the one exception, exactly, is a caller without a name while nobody holds the lease |
| LeaseReplies.GrantHandsOverLastSave | grain/driver_redis.go:85-96 | what a grant hands over is what the last accepted save that was not a renewal has written |
| Lease.ExpiryRestartsGenerations | grain/driver_redis.go:72-77 | all this is per lifetime of the key: after expiry a generation is granted again, to anybody |
| LeaseScripts.RedisKey.LoadLease | grain/driver_redis.go:66-101 | the script's branches on the fields and the time to live are the specified load (what its answers mean: LeaseReplies.AnswersAreExpectedIff) |
| LeaseScripts.RedisKey.SaveData | grain/driver_redis.go:104-131 | the script is the specified save, and renews the time to live |
| LeaseScripts.RedisKey.ReleaseLease | grain/driver_redis.go:133-148 | the script is the specified release; data, generation and time to live stay |
| LeaseScripts.RedisKey.ForceReleaseLease | grain/driver_redis.go:242-253 | the script is the specified forced release |
| Text.JoinSplit | cmd/readmegen/main.go:227-265 | splitting into lines and joining them gives the text back |
| Text.SplitJoin | cmd/readmegen/main.go:227-265 | joining lines and splitting gives the lines back |
| Text.ToLFDrops | cmd/readmegen/main.go:194-197 | toLF drops the carriage returns and nothing else |
| Text.CRLFRoundTrip | cmd/readmegen/main.go:206-216 | restoring CRLF and normalising gives the text back, and CRLF is there again exactly if there are lines to end |
| ReadmeMarkers.MarkerWritten | cmd/readmegen/main.go:281-286 | a marker that is written is read back with its name |
| ReadmeBlocks.LinesFixpoint | cmd/readmegen/main.go:231-263 | rendering rendered lines gives them again, and keeps the lines outside the markers |
| ReadmeBlocks.NeverShrinks | cmd/readmegen/main.go:231-263 | rendering again never shrinks, and grows or fails if a used region has an end marker in it |
| ReadmeMarkers.RenderTwiceIff | cmd/readmegen/main.go:226-278 | rendering a README again changes nothing exactly if no region has a line that reads as an end marker; lines outside the markers are then unchanged |
| ReadmeMarkers.CheckAfterWriteIff | cmd/readmegen/main.go:201-224 | a check right after a write reports no difference exactly under that condition, for either line ending or a mixture |
| ReadmePieces.Parsed | cmd/readmegen/main.go:231-255 | every README can be read as lines, marked blocks and at most one broken block at its end |
| ReadmePieces.FindEndIff | cmd/readmegen/main.go:244-256 | the search for an end stops at the first end marker, which must have the name; every answer it can give, with its condition |
| ReadmePieces.RenderedByPieces | cmd/readmegen/main.go:226-265 | rendering is reading the pieces and writing them: the error is that of the first thing wrong, else every line is as it was and every block is its markers around a fenced copy of its region |
| ReadmeFiles.BlankIff | cmd/readmegen/main.go:170-175 | a line is blank exactly if it is nothing but white space |
| ReadmeFiles.TrimmedRegion | cmd/readmegen/main.go:168-177 | one stretch of a region's lines survives: only blank lines go, only at the ends, and all of those |
| ReadmeFiles.ManagedIff | cmd/readmegen/main.go:290-306 | a README is refused exactly if some go block has no begin marker as the last line before it that is neither blank nor the opening of a go block |
| ReadmeFiles.UpToDateIff | cmd/readmegen/main.go:201-217 | a file is up to date exactly if rendering leaves its text as it is and its line ends are all of one kind |
| ReadmeFiles.WritesTheRendering | cmd/readmegen/main.go:206-223 | otherwise what is written is the rendering, with CRLF throughout exactly if the file had any; a failure is that of rendering |
| ReadmeMethods.TrimBlankLines | cmd/readmegen/main.go:168-177 | the two index loops drop the blank lines at both ends (which those are: ReadmeFiles.TrimmedRegion) |
| ReadmeMethods.RenderLoop | cmd/readmegen/main.go:231-263 | the nested loops give the specified lines, names and errors |
| ReadmeMethods.CheckGoBlocks | cmd/readmegen/main.go:290-306 | accepts exactly if each go block comes right after a begin marker |
| ReadmeMethods.RenderText | cmd/readmegen/main.go:226-278 | render, with the checks after it |
| ReadmeMethods.Sync | cmd/readmegen/main.go:201-224 | the text part of syncFile |

## Left out

- rpc, HTTP and WebSocket transport, and the router's connections and lease retries (cluster/cluster.go): plumbing over libraries that are not part of this model.
- Mongo, JSON and YAML drivers: their meaning is in a server's query language, or they are file access without fencing.
- The Go decoding of what the load script returns, and its not-found flag, which is 0 even for a key just created; only the scripts' effect on the key is modelled. Lua's numbers are taken as exact, and the time to live passed to them as positive.
- Clocks of Redis: how much of a lease is left when a load looks is an input, and expiry ends a key's lifetime.
- Liveness: that a spawn waiting for a closing predecessor goes on, that a timer's message finds room, that a push timer fires.
- Groups' broadcast, joinGroup's and joinActor's waiting, finalisation; cancelling of contexts; logging, tracing and its panics.
- GroupObject.ActorGroup: each method is run without interruption; the interleavings are those of GroupProtocol. `kill` is `requestClose` after a cancel.
- GroupTheorems.ReferenceCount: assumes calm runs, as the other group theorems do not, because an external close can come between the closed-test and the hold; the exact condition is CloseSafeIffNoOneInWindow.
- Runner.Runner.Quit: a runtime that quits has no message still to come; that this holds of the group is GroupTheorems.SelfExitLosesNothing.
- RunLoop.Attempt: OnQuit, which runs inside the clearing of a context and recovers its own panics, is part of the clear event.
- ACall's and AMulticastOnce's own loops: retries with sleeps around the same queue; AMulticastOnce is the first half of AMulticast.
- PostponeObjects.ActorControl.APost: APost and APostOnce are one method with a flag; the message is a serial number and a target.
- TimerObjects.ActorTimers.NextId: asks for a table of fewer than 2^63 - 1 timers when the search begins below 1, because the loop would not end on a full one.
- Unpublish, sweep and Invalidate of shared keys, several keys, and time-to-live refreshes: versions restart or equal versions are ignored there.
- Values of shared keys are integers; the type tests of Watch and Fetch are not modelled.
- CRC32 itself: the checksum is any function to 32-bit words. sort.Slice is stood in for by an insertion sort of which only sortedness and the same entries are used.
- Placement.Node: metadata is left out; it takes no part in placing.
- ReadmeGen.RenderLines: error texts carry no line numbers; which region an Unused error names depends on map order.
- Reading regions from example files and removing their common indentation; a region is a list of lines.
- Wall-clock accuracy, generics and request matching, examples and benchmarks.
