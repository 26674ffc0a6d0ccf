# The worker, its registry and what they promise

A worker holds Telegram accounts (sessions), each through a TDLib client that has the
session's directory open. Workers share one Postgres registry. This project models the
parts of the worker in which several things happen at once, and proves what stays true
however they interleave. Time is an integer number of nanoseconds, passed in; TDLib,
receivers and the network are answers the environment picks freely.

Five cores, each a state machine whose steps are one registry statement or one local
action, so that every interleaving is a run:

- **Ownership and rebalancing.** `Registry` (rows, heartbeats, the SQL statements),
  `Fleet` (N workers, each somewhere inside its reconcile pass), `Ownership` (who holds a
  session), `Races` (three runs in which the holder loses, and exactly why), `Rebalance`,
  `Progress` and `Convergence` (convergence to the fair share), `Worker` (the pass as the
  code has it, shown to be a run of the fleet's steps).
- **Call admission.** `Calendar`, `Windows`, `Text`, `Quota` (rules, signatures,
  replacement), `Counters` (the all-or-nothing transaction), `CallGuard` (pace, cooldowns,
  flood texts), `CooldownCopies`, `Admission` (one call), `Hints` and `Seconds` (what a
  refusal tells its caller), `QuotaRuns` (many calls at once), `AdmissionRuns` (one call is
  a run of those steps).
- **Webhook outbox.** `Outbox` (one tick: claim, group, start), `Dispatch` (whole runs),
  `Dispatcher` (the code, shown to be runs of those steps).
- **Update fan-out.** `Fanout` (snapshot, pre-check, lazy matcher), `Losses` (what becomes
  of every update received).
- **Interactive login.** `Login` (authorizer, submitters and cancellers over one-slot
  channels), `LoginCode` (the live session and the handler as the code has them).

Code that changes things in place is a class here, and each of its methods is proved equal
to the function the lemmas are about.

## Findings

Seven places where the code does not do what its comments or its own design suggest; each is
stated with the exact condition, and where it takes a particular state, with a run that
reaches it.

1. A peer that lost a session while its heartbeat lapsed and is just shedding it releases
   the row unconditionally, and so takes it from the new, fresh holder
   (`Races.MidShedTakesTheRow`, reached in `Races.MidShedHappens`). A peer that shuts down
   in the middle of a pass may fence on the strength of a client it has closed but not
   dropped, and takes the row as well (`Races.FencingTakesTheRow`, reached in
   `Races.FencingHappens`). Deleting the session apart, a peer's step changes the row of a
   fresh holder in exactly these two ways (`Ownership.PeerChangesRowOnlyBy`).
2. The claim loop, unlike the adopt loop, does not skip sessions already held: claiming
   one's own session drops the only reference to an open client, exactly when the retry time
   has come and opening is attempted (`Races.SelfClaimLosesIff`; a run that gets there is
   `Races.SelfClaimHappens`). A holder whose heartbeat stays fresh and whom the row names
   never does (`Races.FreshNeverClaimsOwn`).
3. A flood wait of more than 9223372036 seconds wraps around in nanoseconds
   (`CallGuard.FloodRoundTrip`).
4. The counters' columns are 32-bit. Adding to a counter may overflow before the comparison
   with the rule's max, which fails the statement; a failed statement lets the call through.
   It can happen if and only if the largest max plus the lesser of that max and the heaviest
   call exceeds 2^31 - 1 (`Counters.SomeTakeFailsIff`): with a max of 2^31 - 1 and a full
   window, to every call (`Counters.FullCounterFailsIff`). A request body of 8 MiB cannot
   carry a call heavier than 2^22, so up to a max of 2^31 - 1 - 2^22 it never happens
   (`QuotaRuns.NoneGoesUncounted`).
5. A call heavier than its rule's max is told to come back at the end of the window, and is
   refused there again by the same rule; every other hint is honest
   (`Hints.HintIsHonestIff`).
6. A second delete, or a shutdown's cancel, while a first one is still unwinding a login is
   told that nothing is in flight, and closes the client the authorizer is about to close.
   At any point of a login a delete is safe if and only if nobody has canceled it yet or the
   authorizer is past closing (`Login.SafeToDeleteIffFirst`).
7. The seconds of a retry hint are rounded up in floating point, which drops the nanoseconds
   of a long wait: the hint falls before the end exactly when the nanoseconds over the full
   seconds are at most half a unit in the last place of the seconds
   (`Seconds.HintCoversIff`), and never below 2^24 seconds, some 194 days
   (`Seconds.ShortWaitIsCovered`, `Seconds.LongWaitFallsShort`).

## Model

| member | source | states |
|---|---|---|
| Ownership.OneHolder | internal/session/manager.go:518-520 | From workers that hold nothing, no run whatsoever (lapses, steals, crashes, shutdowns and deletes in the middle of a pass) ends with two workers having an open client for one session; only the exclusive directory lock is assumed. A client that was told to close and is still in its entry is not an open one. |
| Ownership.OthersAreLeaving | internal/session/manager.go:546-560 | Closed clients that readyClient() still returns exist only while their worker is shedding or deleting the session or shutting down; of two workers with a usable client, the one without the open client is doing so. |
| Ownership.InvRun | internal/session/manager.go:413-469 | Every state reachable from a good one keeps the whole ownership invariant: open clients have their directory locked, a login in flight is known to its own worker only, and the cutoff of every pass in progress lies at least a staleness window back. |
| Ownership.WaitingLoginKept | internal/session/manager.go:532-562 | While its worker's heartbeat is fresh, no run of expire, claim, fence, adopt and shed steps by any workers changes the row of a connecting or awaiting login or drops its live entry. |
| Ownership.ActiveHolderKeeps | internal/session/manager.go:429-469 | A fresh holder that owns its row stays holder and owner over any run until it sheds, deletes, shuts down or lapses, and along the run no step but its own changes the row at all: no ping-pong. It takes that nobody is in the middle of shedding the session or has a closed client of it left. |
| Ownership.FencingWins | internal/session/manager.go:438-456 | A fresh holder with the session on its fencing list either still has it there or owns the row again, whatever the other workers did in between. |
| Ownership.OneFencingPass | internal/store/store.go:810-831 | When the row names a live peer, one fencing pass by the fresh holder returns the row to it, for good. |
| Ownership.PeerChangesRowOnlyBy | internal/session/manager.go:429-456 | For a fresh ready owner: a peer's step other than deleting the row changes it if and only if it is a release the peer had begun before it lost the session, or fencing with a client it has closed and not dropped. |
| Races.MidShedTakesTheRow | internal/session/manager.go:546-560 | From any state in which a peer is caught between picking and closing, four steps leave the new holder fresh and ready with a row that names nobody; after two of them both workers have a usable client. |
| Races.MidShedHappens | internal/session/manager.go:471-516 | Such a state is reached: an explicit run from two workers just started, through an overloaded pass, a lapse, a claim and two failed opens. |
| Races.FencingTakesTheRow | internal/session/manager.go:443-456 | A peer caught fencing a session whose client it has closed makes itself the owner of a session a fresh holder has open. |
| Races.FencingHappens | internal/session/manager.go:578-609 | It is reached: an explicit run from two workers just started, in which a lapse costs one the session and a shutdown closes its client between the query and the fencing. |
| Races.SelfClaimLosesIff | internal/session/manager.go:507-516 | A holder that hydrates from its claims loses its client if and only if the session is its own, past its retry time, and the open is attempted; then the directory stays locked and nobody can open it. |
| Races.SelfClaimHappens | internal/session/manager.go:490-516 | It is reached: an explicit run from two workers just started, in which a lapse of 40 s lets a pass count no live worker and claim the session it holds. |
| Races.FreshNeverClaimsOwn | internal/store/store.go:700-729 | Over any run in which its heartbeat stays fresh, a holder the row names never has its own session among its claims. |
| Rebalance.CalmStep | internal/session/manager.go:471-516 | In a steady fleet every step changes the measure 2 x excess + unhosted by exactly minus the sessions it releases or claims, and keeps every worker's stale reads true. |
| Rebalance.ReleaseStep | internal/session/manager.go:536-562 | A shed lowers the measure by one and never takes a worker below the fair share, although the share was computed from an earlier read. |
| Rebalance.ClaimStep | internal/store/store.go:700-729 | A claim lowers the measure by its batch and never takes a worker above ceil(total / live workers). |
| Rebalance.RunLowersMeasure | internal/session/manager.go:471-516 | Over any interleaving of the workers' reads and actions, sessions moved plus the measure left equal the measure at the start: rebalancing is bounded. |
| Rebalance.StuckIsBalanced | internal/store/store.go:774-782 | When no worker would find anything to adopt, shed or claim and capacity does not bind, no session is unhosted and no worker is above its share. |
| Progress.SomePassMoves | internal/session/manager.go:413-516 | In a steady, calm fleet at rest, with room, no backoffs and directories that can be opened, but not balanced, some worker has a run of its next pass that releases or claims a session, lowering the measure. |
| Convergence.ReachesBalance | internal/session/manager.go:413-516 | From every steady, calm fleet at rest whose directories are open only at their owners and whose capacity does not bind, there is a run of whole passes to measure 0, with every worker at rest again: rebalancing converges. |
| Convergence.FinishPass | internal/session/manager.go:413-516 | From wherever a worker stands in a pass, the pass can go on to its end, keeping all of that. |
| Convergence.UnbalancedRests | internal/session/manager.go:490-516 | Fleets that meet the hypotheses and are not balanced exist. |
| Rebalance.MeasureZero | internal/session/manager.go:471-516 | The measure is zero if and only if the fleet is balanced. |
| Rebalance.BalancedIsStable | internal/session/manager.go:471-516 | In a balanced fleet no run of reconcile passes releases or claims anything. |
| Worker.Manager.Reconcile | internal/session/manager.go:413-516 | A whole pass, with its loops and in-place updates, at one instant of the clock, leaves the registry, directories and worker exactly where a run of steps of a pass leads, from BeginPass to EndPass. |
| Worker.Manager.Fence | internal/session/manager.go:429-456 | The fencing loop is such a run: foreign rows are re-asserted when the client is ready and dropped otherwise. |
| Worker.Manager.AdoptOwned | internal/session/manager.go:457-470 | The adopt loop is such a run: owned sessions not yet live are opened, unless backing off. |
| Worker.Manager.Shed | internal/session/manager.go:536-562 | The shed loop is such a run: it picks ready clients only, closes and releases them one by one. |
| Worker.Manager.ClaimMore | internal/session/manager.go:490-516 | The claim and its hydrate loop are such a run. |
| Worker.Database.ClaimOrphans | internal/store/store.go:700-729 | The statement returns, oldest first up to the limit, authorized sessions without a fresh owner, and makes exactly those the worker's. |
| Worker.Database.ExpireStaleLogins | internal/store/store.go:201-213 | It expires exactly the waiting logins, past their grace, whose owner is absent or stale. |
| Calendar.CivilRoundTrip | internal/quota/quota.go:128-136 | Every day number survives the trip through its Gregorian date, as the windows' calendar arithmetic needs. |
| Calendar.AddDaysIsExact | internal/quota/quota.go:128-136 | AddDate through the civil calendar is exactly that many days. |
| Windows.WindowIsGrid | internal/quota/quota.go:122-138 | For every kind and instant, before the epoch too, the window computed through Moscow's civil calendar is a cell of a fixed grid. |
| Windows.SameWindow | internal/quota/quota.go:122-138 | Two instants have the same window if and only if the second lies in the window of the first. |
| Windows.WindowsAbut | internal/quota/quota.go:122-138 | The instant a window ends, the next begins. |
| Windows.WindowsNest | internal/quota/quota.go:122-138 | Minute, hour, day and week nest, although days follow Moscow and hours UTC. |
| Windows.WeeksBeginOnMonday | internal/quota/quota.go:131-136 | Days begin at Moscow midnight and weeks on a Moscow Monday. |
| Windows.PurgedIsOver | internal/session/deliver.go:89-90 | The 8-day sweep drops only windows that were over more than a day before. |
| Text.SortedIsUnique | internal/quota/quota.go:140-145 | Two sorted lists with the same elements, repetitions included, are the same list. |
| Text.FieldsOfJoin | internal/quota/quota.go:140-145 | Splitting at commas undoes the comma join of parts without commas. |
| Quota.SignatureIsFaithful | internal/quota/quota.go:140-145 | For any two rules that pass validation: same signature if and only if same per and the same methods as multisets. |
| Quota.Applicable | internal/quota/quota.go:159-190 | The two loops over maps give, in order, each enabled rule that bears on the session with the rule that replaces it. |
| Quota.EffectiveIff | internal/quota/quota.go:147-158 | A rule is effective if and only if no rule of a higher tier (token over own over default) has its signature. |
| Quota.ReplacedByHigher | internal/quota/quota.go:159-190 | Whoever replaces a rule is in the same result, has the same signature and a strictly higher tier. |
| Quota.ChainEnds | internal/quota/quota.go:159-190 | Following replacements ends within two hops at an effective rule of the same signature. |
| Quota.OrderFree | internal/quota/quota.go:159-190 | Shuffling the rules does not change the effective ones. |
| Counters.AllOrNothing | internal/store/limits.go:117-139 | For any list of uses, repeated keys included: counted if and only if each fits after those before it, and then every counter grows by its summed weight; otherwise nothing changes and the index is the first that does not fit, unless that one overflows its column, exactly when the statement fails. |
| Counters.GiveBackUndoesTake | internal/store/limits.go:142-152 | Giving back what was taken leaves every counter as it was. |
| Counters.GiveBackSubtracts | internal/store/limits.go:142-152 | Giving back no more than a counter holds subtracts exactly; the floor at 0 is not reached. |
| Counters.NeverFailsWithin | internal/store/limits.go:117-139 | If the largest max plus the heaviest call fits the column, no take over counters within their max fails, however many uses it has and however keys repeat: the call is counted or refused. |
| Counters.SomeTakeFailsIff | internal/store/limits.go:117-139 | For every bound on weights and on maxes: some take fails if and only if the max plus the lesser of the two exceeds the column. |
| Counters.FullCounterFailsIff | internal/session/limits.go:93-97 | On a full counter a call is refused, unless max plus its weight exceeds the column, when the statement fails and the call goes out. |
| Counters.Store.TakeCounters | internal/store/limits.go:117-139 | The loop with its rollback changes the table to what the transaction says, or not at all. |
| Counters.Store.GiveBackCounters | internal/store/limits.go:142-152 | The loop subtracts use by use, never below 0, from rows that are still there. |
| Admission.Session.TakeQuota | internal/session/limits.go:64-111 | The accumulated uses are those of the effective rules with a nonzero count, in the windows of this instant; the refusal names the first full rule and the end of its window. |
| Admission.Session.Admit | internal/session/guard.go:160-191 | The verdict is the specified decision; a call refused by quota, pace or cooldown, or cancelled while waiting, leaves every counter as it was; only a paced write books a slot, and a refused one does not; no accepted wait exceeds 10 s. |
| Admission.GoesOutIff | internal/session/guard.go:160-191 | A call goes out if and only if the account may make it, every rule it counts against has room after the uses before it (or a count overflows), and a paced write's turn comes within the bound before the caller gives up. |
| Admission.Session.Call | internal/session/manager.go:1060-1071 | The scope's cooldown is asked first, then the admission: the verdict is the specified outcome, and a call that does not go out has spent nothing. |
| Admission.NothingSpent | internal/session/limits.go:104-110 | Whatever the rules and the table, refusing or releasing a call restores every counter. |
| AdmissionRuns.AdmitIsRun | internal/session/guard.go:160-191 | One call's admission is a run of the steps of QuotaRuns, ending with the code's table: it begins, and goes out or gives back use by use. |
| AdmissionRuns.UsesAreBuilt | internal/session/limits.go:72-88 | The uses the code builds are the ones the run's invariant is about: positive weight, the rule's max, the window of this instant. |
| Hints.HintIsHonestIff | internal/session/guard.go:91-99 | For every refusal by cooldown, spam limit, pace or rule: deciding again at the time it names, with nothing else changed, refuses for the same reason if and only if it was a rule whose max is below the call's weight. |
| Hints.RefusedUntilThen | internal/session/guard.go:171-191 | Until the time a cooldown or pace refusal names, the call is refused at every instant for the same reason with the same hint, while the store answers. |
| QuotaRuns.Conservation | internal/session/limits.go:64-111 | After any interleaving of takes, waits, row-by-row give-backs and sweeps, each counter is the summed weight of calls taken and not given back, and lies in 0..max. |
| QuotaRuns.GiveBackNeverClamps | internal/store/limits.go:142-152 | In every reachable state the row being given back holds at least what is given back. |
| QuotaRuns.NoneGoesUncounted | internal/session/limits.go:93-97 | With rules up to 2^31 - 1 - 2^22 and calls up to 2^22, no call of any run goes out uncounted. |
| QuotaRuns.WindowsBound | internal/quota/quota.go:122-138 | The calls counted within k consecutive windows under one rule on one session that went out weigh at most k x max. |
| QuotaRuns.SlidingBound | internal/quota/quota.go:122-138 | Those counted in any interval no longer than a window, wherever it lies, weigh at most 2 x max. |
| QuotaRuns.DepartureBound | internal/session/guard.go:171-191 | By the time calls go out, up to any lag after they were counted: at most n x max in an interval that is, with the lag, no longer than n - 1 windows. |
| CallGuard.GrantsAreSpaced | internal/session/guard.go:125-137 | For any sequence of clocks, even running backwards, granted starts are pairwise at least an interval apart. |
| CallGuard.RefusalsLeaveNoTrace | internal/session/guard.go:125-137 | Without the refused calls every grant is the same. |
| CallGuard.SpanBound | internal/session/guard.go:125-137 | A span of length L holds at most floor(L / interval) + 1 starts. |
| CallGuard.PaceHintIsHonest | internal/session/guard.go:171-191 | After a pace refusal a slot is granted if and only if one asks no earlier than the time it named. |
| Seconds.HintSecondsIs | internal/session/guard.go:65-67 | The hint, through binary64 division, sum and ceiling, is the wait in seconds rounded up, except where the nanoseconds are lost in the sum. |
| Seconds.HintCoversIff | internal/session/guard.go:65-67 | Waiting as told reaches the end if and only if there are no nanoseconds or they exceed half a unit in the last place of the seconds; it is never a second too long. |
| Seconds.ShortWaitIsCovered | internal/session/guard.go:65-67 | Every wait below 2^24 s is covered. |
| Seconds.LongWaitFallsShort | internal/session/guard.go:65-67 | A wait of 2^24 s and one nanosecond is not. |
| CallGuard.WaitIsReadBack | internal/tdjson/raw.go:66-80 | Whatever precedes the marker, another marker included, the decimal at the end is read back, if it fits an int. |
| CallGuard.FloodRoundTrip | internal/session/guard.go:244-267 | A flood text cools down exactly its scope until n seconds later, if and only if n is at most 9223372036; the spam scope is added exactly when the text says so. |
| CallGuard.Guard.Set | internal/session/guard.go:103-114 | The longer end stays; a cooldown is passed on to the registry exactly when it is kept. |
| CallGuard.Guard.ReserveSlot | internal/session/guard.go:125-137 | The in-place queue is the specified one. |
| CooldownCopies.CopiesAgree | internal/session/guard.go:278-288 | Once all writes landed, in any order and with any sweeps, memory and registry give the same answer for every scope at every later time, and it is the latest end ever imposed. |
| CooldownCopies.ReloadAgrees | internal/store/store.go:1239-1289 | A worker that loads the registry then sees the same scopes until the same times. |
| CooldownCopies.SweepChangesNoAnswer | internal/store/store.go:1281-1288 | Purging ended cooldowns changes no answer from then on. |
| Outbox.TickIsFull | internal/session/deliver.go:131-150 | A tick starts exactly min(free, eligible) receivers, however large a backlog is. |
| Outbox.TickIsFair | internal/store/store.go:1058-1098 | No due row of an eligible subscription left out is strictly earlier than the row a started round begins with. |
| Outbox.HeadIsEarliest | internal/store/store.go:1073-1095 | A round begins with its subscription's earliest due row, however the limit cut the batch and ties were broken. |
| Outbox.FullBatch | internal/store/store.go:1092-1095 | The pigeonhole: free x perSub rows, at most perSub of each, name at least free subscriptions. |
| Outbox.GroupsPartition | internal/session/deliver.go:176-186 | Splitting a batch loses and repeats no row, and puts each in its own subscription's round. |
| Outbox.HeadsInOrder | internal/session/deliver.go:176-186 | Subscriptions are listed by their first row in the batch. |
| Outbox.GroupBySubscription | internal/session/deliver.go:176-186 | The loop over the map and the slice gives those rounds and that order. |
| Outbox.SelectDue | internal/store/store.go:1058-1098 | The claim's ranking, ordering and limit can be carried out for every table: there is always a batch that meets its description. |
| Dispatch.Safety | internal/session/deliver.go:122-172 | Over all runs: at most 16 receivers in flight, no row in two rounds, attempts numbered 1, 2, ... without a gap, at most ten posts, none after an accepted one, none before its backoff is over, and each row's state is what its answers make it. |
| Dispatch.LeavesPending | internal/store/store.go:1102-1126 | A pending row is delivered exactly by a 2xx, failed exactly by its tenth failure, gone exactly by removal. |
| Dispatch.NeverAgain | internal/session/deliver.go:154-168 | A row once accepted or given up is never posted or answered again. |
| Dispatch.InvRun | internal/session/deliver.go:122-172 | The invariant behind these holds after every run from every state that satisfies it. |
| Dispatch.BackoffGrows | internal/session/deliver.go:196-198 | Backoffs are monotone, at least 5 s and at most 5 min. |
| Dispatch.BackoffBudget | internal/session/deliver.go:43-45 | The waits before a row's ten attempts sum to at most 1215 s, and to exactly that for all of them. |
| Dispatcher.Manager.Tick | internal/session/deliver.go:131-156 | One tick of the code adds to the rounds in flight exactly those of a legal claim. |
| Dispatcher.TickIsRun | internal/session/deliver.go:131-156 | Such a tick is two steps of the machine and raises the number in flight by exactly min(free, eligible). |
| Dispatcher.Manager.RunRound | internal/session/deliver.go:157-172 | The goroutine's loop records answer after answer and stops at the first failure. |
| Dispatcher.RoundIsRun | internal/session/deliver.go:157-172 | A goroutine's round is a run of the machine's steps with that result, so the safety results apply to it. |
| Dispatcher.Manager.DeliverOne | internal/session/deliver.go:190-210 | One outcome is recorded: delivered, rescheduled with backoff, or given up at the tenth attempt; a removed row stays removed. |
| Fanout.SnapshotIsFaithful | internal/session/subs.go:43-133 | For every set of stored filters and every update: the snapshot routes to exactly, in order, the readable subscriptions whose lists admit it; the pre-check passes if and only if some filter takes the type, so it stops nothing that is for anyone. |
| Fanout.NewSnapshot | internal/session/subs.go:43-81 | The loop builds a snapshot that says what the filters say; it is nil exactly when no filter can be read. |
| Fanout.Route | internal/session/subs.go:91-112 | The matcher that decodes the chat at most once, and only if asked for, returns the same as one that always decodes it. |
| Losses.NothingVanishes | internal/session/subs.go:183-194 | While the session stays held, over all interleavings of arrivals, writes, reloads, swaps and failed flushes: an update some loaded subscription admits is queued, written for exactly the subscriptions that admit it, or counted; recorded, travelling and unflushed losses sum to the losses there were. |
| Losses.LiveSession.HandleUpdate | internal/session/manager.go:123-141 | The receiver's pre-check and non-blocking send are the machine's arrival step. |
| Losses.LiveSession.WriteOne | internal/session/deliver.go:100-115 | The writer routes by the snapshot the update arrived with; a failed insert is counted as a loss of the session, which is still held. |
| Losses.LiveSession.FlushDropped | internal/session/subs.go:183-194 | A flush moves the count to the registry or leaves it, and loses none of it. |
| Login.LoginSafety | internal/session/authorizer.go:47-148 | For every sequence of authorization states, submits and cancels: one code request at most, one verdict per attempt at most, the cancel channel closed at most once, and no ready client before the login is through. |
| Login.VerdictNeverBlocks | internal/session/manager.go:236-247 | The channel a verdict is sent on is empty, whoever has stopped listening. |
| Login.OnlyTheseEndALogin | internal/session/authorizer.go:47-121 | The authorizer closes the client exactly on a cancel, an unsupported state, a second phone request, or a failed set-up or phone call; never on a verdict. |
| Login.RefusalsAreCheap | internal/session/authorizer.go:123-148 | After any number of refused codes or passwords each submitter was told its own refusal, and the login waits where it did, its client open, nothing asked for again. |
| Login.NoDoubleClose | internal/session/manager.go:1323-1336 | If no cancel comes while an earlier one unwinds and no wait is cut short, nobody else closes a client the authorizer closes. |
| Login.SafeToDeleteIffFirst | internal/session/manager.go:270-287 | At every point of every orderly run, a delete begun there is safe, however the run goes on, if and only if nobody has canceled the login yet or the authorizer can no longer close a client. |
| LoginCode.LiveSession.AbortLogin | internal/session/manager.go:273-287 | In flight exactly if the login is interactive, not canceled and not done; only then the cancel channel is closed. |
| LoginCode.LiveSession.ReportAttempt | internal/session/manager.go:236-247 | The verdict goes to the attempt armed last, which is disarmed. |
| Login.ACanceledWaitIsReached | internal/session/manager.go:273-287 | The state in which a delete is unsafe is reached by one earlier delete. |
| LoginCode.AuthHandler.HandleState | internal/session/authorizer.go:47-148 | For users, bots and rehydration, each authorization state has the effect and the error the login machine gives it. |
| LoginCode.HandleIsRun | internal/session/authorizer.go:47-148 | For a user login one call of the handler is a run of the login machine with that result, so the safety results apply to it. |

## Left out

- HTTP handlers, the gateway's proxying, the admin UI, telemetry, encryption and signing: presentation and library calls.
- Uploads, the send registry, downloads, chat lookup and migrations: one-branch or sequential code.
- Real SQL: each statement or transaction is one atomic step. Postgres keeps microseconds, so instants here are finer than the columns.
- Clock skew between workers and the database: one clock, except that a call's clock may lag the counter sweep by a day, and the pace queue takes any clock.
- Store failures, except where they decide something: the counters' overflow, a failed insert into the outbox, a failed flush of the loss counter. Dispatcher runs assume that outcomes are written, and that a subscription's session stays with one worker.
- Which calls the spam limit stops, a question put to TDLib, is a parameter; the frozen and premium flags and the resolving of usernames between a call's two checks are one-branch code.
- The 2-second cache of rate-limit rules (internal/session/limits.go:44-60): a rule list is a parameter.
- Rule windows of an unknown kind: validation and the table's check constraint exclude them, and the kinds are a datatype here.
- QuotaRuns.WindowsBound: bounds the calls that were counted, by the instant of counting; calls the store failed on go out uncounted by design, and QuotaRuns.NoneGoesUncounted says when there are none. QuotaRuns.DepartureBound is about the instants they go out. Changing a rule's max during a run is not modelled.
- Rebalance.RunLowersMeasure: assumes the live workers and authorized sessions fixed, opens and closes that succeed, and workers whose live sessions are their own at the start.
- Worker.Manager.Reconcile: is the pass of one worker undisturbed and at one instant; passes that take time and interleave are the runs of the fleet, which the ownership and rebalancing lemmas range over.
- Fleet: creating a login, row and entry and directory, is one step, and so is opening a client: putting the entry, opening and storing the client (internal/session/manager.go:748-777). A delete that comes in between finds no client to close and drops the entry, and the open client is left without one. A delete whose entry was re-opened in between and two deletes of one session are merged into one set of sessions being deleted.
- The operator's clearing of a cooldown while a write of it is on its way: the code promises nothing there.
- Which attempt a verdict belongs to when submits overlap or one has timed out, and the bot login's timeout: the code promises nothing there. A submit's check of the status is not tied to its arming, so the machine has more runs than the code.
- go-tdlib's loop: it closes the client when the handler returns an error, and hands the finished client over at Ready; other ends of the loop are not part of this model.
- JSON decoding: a filter is absent, unreadable or a pair of lists, an update is not JSON or has its two fields missing, bad or present. Duplicate or differently cased keys are not modelled.
- Losses.NothingVanishes: assumes the session held throughout. Once its entry is dropped, a failed insert is no longer counted (internal/session/deliver.go:107-112), and the count not yet flushed goes with the entry. That the insert skips a subscription removed meanwhile, and updates that do not marshal, are not modelled.
- Delivery payloads, headers, addresses and the error text kept on a subscription.
