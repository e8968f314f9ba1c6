# A verified model of zeared

zeared is a typed publish/subscribe layer over Zenoh. This project models four pieces of it that
work together, and proves what they promise. `dafny verify dfyconfig.toml` checks the whole project.

1. **Reconnect and link restore.** A probe thread, a reconnect worker, senders and teardowns share
   one session's state.
   - `Link.dfy` is link detection alone, `ManagedSession.dfy` the shared state and its critical
     sections, and `Reconnect.dfy` interleaves all the threads one critical section or Event operation
     at a time, while the session's routers come and go.
   - `Attempts.dfy` says when a reconnect gives up, and `Shutdown.dfy` how a torn-down session ends.
   - `LossTracking.dfy` and `FetchTracking.dfy` say which losses get their republish and which their
     retained fetch; `LossRuns.dfy` holds runs that give one up.
   - `Convergence.dfy` joins a publisher's session to a deduping subscriber's: sends, link losses,
     returns, deliveries, the publisher's entry-by-entry republish and the subscriber's reply-by-reply
     re-fetch interleave freely, and samples in flight arrive in any order or are lost with a link.
     `Baselines.dfy` says from which starts and after which returns it converges, and `Schedules.dfy`
     that every schedule gets there.
   - `Composition.dfy` puts both reconnect workers into it, with two whole `Reconnect` sessions.
     `Progress.dfy` measures the work its threads have left, `Resting.dfy` says where every schedule of
     their own steps ends, and `CleanReconnects.dfy` builds whole reconnects that drop nothing.
   - `Handlers.dfy` ties the handlers written out one thread at a time to the interleaved systems, and
     `Reconnect`'s probe to `Link`'s.
2. **Retained values.** `PrefixIndex.dfy`, `Retention.dfy` and `Queryables.dfy`: the trie over
   concrete keys (heap nodes, changed and pruned in place), the cache it indexes, the query handler
   with its TTL, and the lazy declaration of queryables against a reconnect's redeclaration.
3. **Topics and message identity.** `KeyExpr.dfy`, `Format.dfy`, `Regex.dfy`, `Template.dfy`,
   `Grammar.dfy`, `Compile.dfy`, `Refusals.dfy`, `Matching.dfy`, `Rendering.dfy`, `Narrowing.dfy`,
   `Slashes.dfy`, `Querying.dfy`, `Templates.dfy`, `Message.dfy`, `Identity.dfy` and `TakenKey.dfy`.
   `Template` follows the topic compiler string by string. `Refusals` says, over every string, which
   ones it refuses and why. `Grammar` says what a topic is, as chunks and a tail. `Compile` shows that
   the compiler reads a printed topic as its own chunks, and everything after is proved about chunks:
   what matches, what renders, what a query selects, and that a sent message decodes to itself.
4. **The sample pipeline.** `Timestamps.dfy`, `Dispatch.dfy` and `Stream.dfy`: the dedupe watermark
   with its skew ceiling, timestamps ordered as strings, two-base decoding of the 64-bit NTP
   timestamp format (section 6 of RFC 5905, with a 1970 epoch), the report-once mismatch cache, and
   the bounded drop-oldest queue.

`Sequences.dfy` and `Wrappers.dfy` are helpers. A method that changes fields or runs a loop is proved
against a function, and the properties are lemmas about that function.

## What the proofs found

Each of these comes with the exact condition under which the promise holds.

- **A start without a baseline does not converge.** Republish and re-fetch answer a loss, and a loss
  is a change from the probe's baseline. Of the starts with both links up, exactly those where both
  probes have a baseline converge however they go on (`Baselines.FreshConvergesExactly`). A session
  that sends before its first router appears is one that does not
  (`Baselines.FirstAttachIsNotARestore`).
- **A router that restarts between two ticks with the same zid is invisible**, as the
  repository's `README.md:1556` says. From any state a run can be in, the pair converges however it
  goes on exactly when each cached value has arrived, is on its way, or is owed by some restore
  (`Baselines.RunConvergesExactly`). So a change of routers, on either side and whatever is under way,
  converges exactly when it hides no loss or leaves each value so (`Baselines.ReturnConvergesExactly`);
  with the other side whole and nothing on its way, exactly when the routers that come back are all
  new to the baseline, or nothing was missed (`Baselines.LoneReturnConvergesExactly`).
- **A reconnect can give a loss up.** `README.md:1210-1219` promises a restore for each loss of the
  link. With no reconnect under way a loss gets its republish, or its retained fetch, in every quiet
  continuation with enough probe steps exactly when it is marked, some thread is on to it, or the
  baseline has no router that is attached now (`LossTracking.LossIsMadeGoodExactly`). During a
  reconnect too, the steps that give one up are a short list, and no others do
  (`LossTracking.TrackIsLostExactly` and `FetchTracking.FetchIsLostExactly`). Three of them, each
  with its run: the worker notes an empty baseline when the link drops during its walks
  (`LossRuns.EmptyBaselineGivesUpALoss`); it notes a baseline that has moved past a loss its walks
  did not fetch for (`LossRuns.MovedBaselineGivesUpTheFetch`); and a probe already past its test of
  `_restoring` when the flag goes up moves the baseline during the republish, and finds no lost link
  to claim (`LossRuns.EarlyProbeGivesUpALoss`). `docs/_reconnect/_reconnect.md:136` reads as if the
  flag kept such a probe out; `Reconnect.FlagKeepsTheProbeOut` gives what does hold.
- **String order of timestamps is not numeric order**, though `zeared/subscriber/subscriber.py:252-253`
  takes it as one. `Timestamps.StringOrderExactly` gives the condition under which the two agree.
  Among values with as many digits they always do, so they do for every 19-digit value. They part at
  the twentieth digit, which the format reaches in October 2043: a watermark of nineteen digits can
  then hide newer samples (`Timestamps.TwentiethDigitBlinds`).
- **A `/` in a single-segment query value is not caught.** A selector keeps to its slots, for every
  topic and every wildcard-free mapping, unless the topic has a tail slot, a single-segment value
  holds a `/`, and the selector's chunks could be a key's and still meet the topic's
  (`Slashes.NarrowsExactly`). Then it selects a key that disagrees with it, as in
  `Slashes.SlashSelectsOthers`.
- **An open tail slot selects keys that have no tail.** `**` takes no chunks too, so a query that
  leaves the tail open is also answered with keys of another declared topic that lack just the tail,
  and with no other key off its own topic (`Querying.ReachesOffTopicExactly`).
- **An earlier declared topic takes the key.** With `a/{x}` before `a/{y}`, a message sent on the
  second decodes as another message, sent on the first (`TakenKey.EarlierTopicTakesTheKey`).
  `Identity.SentKeyIsReadBack` gives the exact condition.

## What is taken as given

- A topic's slots are whole chunks, its tail is its whole last chunk, its literal text has no braces
  and a `*` only as a whole chunk or in `$*`, and its names are distinct (`Grammar.WellFormed`).
- Topic strings, keys and slot values hold no newline. A key's chunks are not empty, none is `__topics__` and none
  starts with `@` (`Slashes.AllowedKey`).
- In `Convergence` and `Composition`: no TTL expiry, timestamps within the skew ceiling and increasing
  per key, and one sending thread per key. In `Convergence` no put or get fails on an attached pair;
  in `Composition` one may, from a trigger to the end of the reconnect's walks.
- In `Reconnect`, reading the routers and storing them as the baseline are one step, for the probe's
  tick and for the worker's note alike, though no lock holds them together
  (`zeared/_reconnect/_link.py:46-59`). The lists of dropping steps rest on it.
- In `Convergence.RestoreConverges`: no loss hidden from the ticks (`Link.Seen`); `Baselines` says
  what a hidden one costs.
- In `Composition.ReconnectsConverge`: no step that drops what it leaves owed (`Composition.Drops`).
  Of a system's own steps only those beside an early probe do (`Resting.DropNeedsEarly`).
- In `Identity`: field codecs that invert, and a `load` that accepts typed values.
- Each sample is dispatched in one step.

## Model

| member | source | states |
|---|---|---|
| Link.MoveKeepsOwing | zeared/_reconnect/_link.py:53-108 | the link state and the probe's place always agree; a loss the session has not begun to make good stays owed through every move that hides none, a second flap included, until the restore that makes it good begins |
| Link.WholeIsAttached | zeared/_reconnect/_link.py:53-82 | a session with its link up, its probe at rest and no gap ahead is attached and owes nothing |
| Link.TurnsRunOut | zeared/_reconnect/_link.py:53-108 | while its routers stay, an attached session's probe can always take its next turn, and each is nearer to whole |
| Convergence.StepKeepsInv | zeared/retention.py:125-159 | every step that hides no loss keeps the invariant: each cached value has arrived, is on its way, or is still owed by a restore of one side or the other |
| Convergence.RestoreConverges | README.md:1205-1219 | in every run from baselined sessions that hides no loss, whenever both sides are settled, the subscriber's last delivery of each key the publisher caches is the cached value, whichever side re-attached first |
| Convergence.DeliveriesOnlyGetNewer | zeared/subscriber/_subscriber_dispatch.py:314-330 | in every run, hidden losses or not, deliveries are never undone, and each key's get strictly newer |
| Convergence.DeletedStaysDeleted | zeared/retention.py:161-169 | in every run from a delete with no value of its key on the way, hidden losses or not, no restore brings it back: nothing of the key is delivered until it is stored again |
| Schedules.EveryScheduleDelivers | zeared/_reconnect/_link.py:85-164 | from every attached state of such a run, every schedule of the sessions' own steps has at most a computed number of steps with work to do, and one that leaves no work undone has delivered everything cached |
| Schedules.RestoresComplete | zeared/_reconnect/_link.py:85-164 | and some schedule settles both sides, with the same cache, all of it delivered |
| Baselines.FreshConvergesExactly | zeared/_reconnect/_link.py:46-68 | a start with both links up, attached or not, converges in every continuation if and only if both probes have a baseline |
| Baselines.RunConvergesExactly | zeared/_reconnect/_link.py:53-108 | every run from baselined sessions, hidden losses or not, converges from where it has come to in every continuation if and only if each cached value has arrived, is on its way, or is owed by a restore |
| Baselines.ReturnConvergesExactly | zeared/_reconnect/_link.py:53-68 | a return or another change of routers, on either side and with anything under way on both, converges in every continuation if and only if it hides no loss, or each cached value has arrived, is on its way or is owed all the same |
| Baselines.LoneReturnConvergesExactly | zeared/_reconnect/_link.py:53-68 | with the other side whole and nothing on its way, a return after a loss no tick has seen converges if and only if its routers are all new to the baseline, or nothing was missed |
| Baselines.FirstAttachIsNotARestore | zeared/_reconnect/_link.py:53-68 | a run where a value sent before the first attach never arrives, though both sides settle |
| Baselines.SameZidHidesALoss | zeared/_reconnect/_link.py:63-66 | a run where a router that returns with its old zid between two ticks leaves a cached value undelivered |
| Composition.DebtsAreAllThatIsMissing | README.md:1193-1219 | two whole sessions, workers and probes and triggers, with puts and gets refused or unheard around a reconnect: in every run that loses none in a session's walks for good, once neither has a reconnect to answer and nothing is on its way, everything cached is what was last delivered, unless the publisher still owes a republish or the subscriber a fetch |
| Composition.ReconnectsConverge | zeared/_reconnect/_reconnect.py:176-245 | so in every run none of whose steps drops what it leaves owed, once both sessions are at rest and nothing is on its way, everything cached has been delivered, reconnects and link losses on either side included |
| CleanReconnects.ReconnectCompletes | zeared/_reconnect/_reconnect.py:117-245 | from any state at rest, for either session, such a run takes a trigger through its whole reconnect to rest again, with one more reopen and everything cached delivered |
| Resting.EveryScheduleRests | zeared/_reconnect/_reconnect.py:98-137 | from any state of two live sessions, reconnects and restores under way included, every schedule of their own steps has at most a computed number of steps with something to do |
| Resting.EveryScheduleDelivers | zeared/_reconnect/_link.py:85-164 | and one that leaves nothing to do, with no early probe on the way, ends with both at peace and everything cached delivered |
| Resting.DropNeedsEarly | zeared/_reconnect/_reconnect.py:108-112 | of the system's own steps, only one beside an early probe drops a republish, a fetch or an unheard put |
| Composition.UnheardNeedsAnEarlyProbe | zeared/_reconnect/_reconnect.py:203-223 | a put or get that the restore walks come too late for is lost only to a probe that was past its flag test when the flag went up |
| ManagedSession.Session.TriggerReconnect | zeared/_reconnect/_reconnect.py:140-157 | the compare-and-set: an idle session goes to reconnecting and is signalled, any other is unchanged |
| ManagedSession.Session.NoteFailure | zeared/_managed_session/_managed_session.py:226-241 | a failed operation triggers exactly when the raw session is dead |
| ManagedSession.Session.GuardAlive | zeared/_managed_session/_managed_session.py:215-224 | an operation is refused exactly while reconnecting or dead |
| ManagedSession.Session.SwapRaw | zeared/_managed_session/_managed_session.py:204-209 | the new raw session and IDLE go in together, nothing else changes, the old one comes back |
| ManagedSession.Session.LinkLost | zeared/_reconnect/_link.py:71-82 | the link is lost, and a signal fires only if it was up |
| ManagedSession.Session.ClaimRestore | zeared/_reconnect/_link.py:97-100 | only a lost link is claimed |
| ManagedSession.Session.CommitRestore | zeared/_reconnect/_link.py:104-108 | only a restoring link goes up and fires |
| ManagedSession.Session.CheckLink | zeared/_reconnect/_link.py:53-68 | one undisturbed tick: its verdict, the new baseline, the link it leaves and the signals it fires, which stay paired |
| ManagedSession.Session.Teardown | zeared/_managed_session/_managed_session.py:243-247 | teardown sets cancel and the signal and nothing else |
| ManagedSession.AlternatingCounts | zeared/_reconnect/_link.py:71-82 | alternating signals hold one more loss than restores exactly when odd in number |
| Reconnect.WorkerKeepsTriggerInv | zeared/_reconnect/_reconnect.py:117-137 | every worker step keeps the count of wakeups: one while reconnecting, none otherwise |
| Reconnect.ProbeKeepsTriggerInv | zeared/_reconnect/_reconnect.py:98-114 | so does every probe step |
| Reconnect.SenderKeepsTriggerInv | zeared/_reconnect/_reconnect.py:140-157 | so does every step of a sender or a teardown |
| Reconnect.NoLostWakeup | zeared/_reconnect/_reconnect.py:98-201 | in every run, a session reconnecting and not cancelled has its wakeup in exactly one place: a trigger between CAS and set, the Event, or the worker before its swap or DEAD |
| Reconnect.OneReopenPerTrigger | zeared/_reconnect/_reconnect.py:140-201 | in every run successful triggers equal reopens, plus one while the session is not idle; DEAD comes only of a teardown or of as many refused opens as allowed, and at least one |
| Reconnect.OnlyTheWorkerSwaps | zeared/_managed_session/_managed_session.py:204-213 | in every run the raw session changes only at the worker's swap, while reconnecting; DEAD is for good |
| Reconnect.LinkSignalsAlternate | zeared/_reconnect/_link.py:71-108 | in every run the link signals alternate starting with a loss, and losses exceed restores by one exactly when the link is not up |
| Reconnect.PendingReconnectAdvances | zeared/_reconnect/_reconnect.py:117-137 | a pending reconnect always has a step that answers it or comes nearer |
| Reconnect.NobodySetsItBack | zeared/_reconnect/_restore.py:45-66 | no step of anyone sets a pending reconnect back, but a refused open, and each step it waits for brings it nearer |
| Reconnect.EveryScheduleAnswers | zeared/_reconnect/_reconnect.py:117-201 | in every schedule a reconnect stays unanswered for at most its distance in steps it waits for, and two more for each refused open; with a bound on the attempts, at most two more for each open the bound allows |
| Reconnect.FlagKeepsTheProbeOut | zeared/_reconnect/_reconnect.py:108-112 | in every run, during a reconnect the probe works on the link only if it was past its test when the flag went up |
| Attempts.GivesUpExactly | zeared/_reconnect/_restore.py:45-66 | with a bound on the attempts, in every schedule from a session about to open: no more opens are refused than the bound, or one, allows; the worker's next step makes it DEAD if and only if that many have been, and the one after stops the probe |
| Attempts.NeverGivesUp | zeared/_reconnect/_restore.py:45-66 | without a bound no number of refusals makes it DEAD |
| Shutdown.EveryScheduleWindsDown | zeared/_reconnect/_reconnect.py:98-137 | in every run, wherever a teardown finds the probe and the worker, every schedule has at most two dozen more of their steps, and one that leaves nothing to do has ended both threads |
| Shutdown.EachReconnectIsResolved | zeared/_reconnect/_reconnect.py:176-201 | in every run the worker leaves a reconnect it has taken on reopened and IDLE, or DEAD because it was cancelled or out of attempts |
| Shutdown.NoTickWhileDown | zeared/_reconnect/_reconnect.py:98-114 | in every schedule, while the session stays RECONNECTING, or DEAD, a probe at the head of its loop begins no tick |
| LossTracking.TrackIsLostExactly | zeared/_reconnect/_link.py:46-108 | a step drops a loss that a republish is owed for if and only if it is one of those listed: a return through the baseline, a loss with no baseline, a baseline noted past it, a republish to nobody, an early probe's claim or tick |
| LossTracking.TrackKept | zeared/_reconnect/_reconnect.py:160-245 | in every run without such a step that leaves a republish owed, whatever is owed is tracked |
| LossTracking.LossIsMadeGoodExactly | zeared/_reconnect/_link.py:53-108 | in every run, with no reconnect under way, every quiet continuation with enough probe steps brings the republish or the fetch a loss is owed, if and only if the loss is tracked |
| LossTracking.LossCanBeMadeGoodExactly | zeared/_reconnect/_reconnect.py:160-245 | at any point of a reconnect, a loss can still get its republish if and only if it is tracked |
| LossTracking.DroppedForGoodExactly | zeared/_reconnect/_reconnect.py:160-245 | a step of a run drops a loss for good if and only if it is one of those listed |
| FetchTracking.FetchIsLostExactly | zeared/_reconnect/_link.py:46-108 | the same list for the retained fetch, which the worker makes before it notes the baseline and claims the link |
| FetchTracking.FetchCanBeMadeGoodExactly | zeared/_reconnect/_reconnect.py:176-245 | at any point of a reconnect, a loss can still get its retained fetch if and only if the fetch is tracked |
| FetchTracking.FetchDroppedForGoodExactly | zeared/_reconnect/_reconnect.py:176-245 | a step of a run drops a fetch for good if and only if it is one of those |
| LossRuns.EmptyBaselineGivesUpALoss | zeared/_reconnect/_reconnect.py:244-245 | a run where the link drops during the walks, the worker notes an empty baseline and restores to nobody, and no restore follows the return |
| LossRuns.MovedBaselineGivesUpTheFetch | zeared/_reconnect/_reconnect.py:244-245 | a run where the link bounces after the walks, the noted baseline hides it, and no fetch follows |
| LossRuns.EarlyProbeGivesUpALoss | zeared/_reconnect/_reconnect.py:160-173 | a run where a probe past its flag test reads a loss during the republish, and no restore follows it |
| Handlers.TriggerAlone | zeared/_reconnect/_reconnect.py:140-157 | the compare-and-set and its set, uninterrupted, are what `Session.TriggerReconnect` does |
| Handlers.TickAlone | zeared/_reconnect/_link.py:53-68 | the probe's steps from a tick's poll to its rest, uninterrupted, leave what `Session.CheckLink` does |
| Handlers.IterationAlone | zeared/_reconnect/_reconnect.py:98-114 | one uninterrupted iteration of the probe loop ends the thread on a cancelled or DEAD session, leaves a reconnecting and a restoring one alone, triggers on a dead one, and else is one tick |
| Handlers.StepIsALinkMove | zeared/_reconnect/_link.py:53-108 | outside the worker's link work, every step of the interleaved system is one move of link detection's session, or none |
| Handlers.EnsureAlone | zeared/retention.py:232-260 | a store's steps from its first look, uninterrupted, end as `Declarations.EnsureQueryables` does |
| Handlers.RedeclareAlone | zeared/retention.py:184-230 | the worker's redeclaring steps, uninterrupted, end as `Declarations.RedeclareQueryables` does |
| Queryables.Declarations.EnsureQueryables | zeared/retention.py:232-260 | declares one queryable per template if there are none and no redeclare is under way; a failure leaves none |
| Queryables.Declarations.RedeclareQueryables | zeared/retention.py:184-230 | replaces the handles by fresh ones in template order, or leaves none on a failure; the flag ends clear either way |
| Queryables.NoneOrOnePerTemplate | zeared/retention.py:184-260 | in every interleaving of stores with a redeclare, outside critical sections there is no queryable or exactly one per template |
| Queryables.RedeclareEndsClean | zeared/retention.py:224-230 | in every interleaving the redeclaring flag is clear once the redeclare is over, failed or not |
| KeyExpr.Split | zeared/_prefix_index.py:49-49 | `split('/')`: at least one chunk, none with a slash |
| KeyExpr.SplitJoin | zeared/_prefix_index.py:49-49 | splitting joined slash-free chunks gives back the chunks |
| KeyExpr.JoinSplit | zeared/_prefix_index.py:49-49 | joining a split key gives back the key |
| KeyExpr.LiteralChunk | zeared/keyexpr.py:8-9 | a chunk without wildcards matches itself alone |
| PrefixIndex.MatchesReaches | zeared/_prefix_index.py:97-130 | the walk's loose chunk test never refuses a key the key expression matches |
| PrefixIndex.Index.constructor | zeared/_prefix_index.py:40-42 | a new index is the canonical trie of no topics |
| PrefixIndex.Index.Add | zeared/_prefix_index.py:47-56 | the topics grow by the one added, and trie and size are again the canonical ones for them |
| PrefixIndex.Index.Remove | zeared/_prefix_index.py:58-81 | the topics lose just the one removed, missing or not, and the pruned trie and its size are again the canonical ones |
| PrefixIndex.Index.TrieIsTight | zeared/_prefix_index.py:76-81 | a node exists exactly for each prefix of a live topic, so no branch is empty and the root is empty exactly when the set is |
| PrefixIndex.Index.LeafHoldsItsOwnPath | zeared/_prefix_index.py:53-56 | a leaf set holds just the topic its path spells |
| PrefixIndex.Index.SameTopicsSameTrie | zeared/_prefix_index.py:47-81 | two indexes with the same topics have the same nodes, children and leaves, whatever their histories |
| PrefixIndex.Index.Walk | zeared/_prefix_index.py:97-117 | collects exactly the topics below a node that the remaining chunks loosely reach; it ends, on remaining chunks and subtree |
| PrefixIndex.Index.WalkStarStar | zeared/_prefix_index.py:119-130 | so does the walk of `**`, zero chunks or more |
| PrefixIndex.Index.Matching | zeared/_prefix_index.py:83-95 | yields exactly the stored topics the query intersects, each once |
| Retention.Cache.Store | zeared/retention.py:118-123 | the entry is recorded, the rest unchanged, and index and cache agree |
| Retention.Cache.Delete | zeared/retention.py:161-169 | the entry goes from cache and index alike |
| Retention.Cache.Drop | zeared/retention.py:178-179 | nothing is left, in cache or index |
| Retention.Cache.Republish | zeared/retention.py:125-159 | puts each entry still within the TTL once, as stored, its own timestamp included, and marked as a replay, but those whose put fails, and counts them |
| Retention.Cache.HandleQuery | zeared/retention.py:262-311 | an entry the query reaches stays exactly while `now - inserted` is within the TTL, or there is none; each that stays has one reply with its bytes, encoding, attachment and own timestamp; the other entries are left alone |
| Retention.Cache.Sift | zeared/retention.py:276-286 | parts the matches into replies and expired entries |
| Retention.Cache.Prune | zeared/retention.py:289-291 | removes the expired entries and no others |
| Format.ScanText | zeared/_template/_template.py:116-142 | scanning brace-free text before a string only lengthens its first literal |
| Format.ScanSlot | zeared/_template/_template.py:116-142 | scanning `{name}` before a string gives a part with that field, then the string's parts |
| Regex.Compose | zeared/_template/_template.py:231-242 | matches of two patterns make a match of the two in a row, with both captures |
| Regex.Decompose | zeared/_template/_template.py:231-242 | every match of two patterns in a row splits so |
| Template.LiteralPattern | zeared/_template/_template.py:317-332 | the loop over `re.split` pieces gives the literal's pattern, character by character |
| Template.SplitKeepsAtoms | zeared/_template/_template.py:36-38 | splitting at wildcards and translating the pieces loses nothing, and no text piece is taken for a wildcard |
| Template.RenderWildcard | zeared/_template/_template.py:208-222 | the loop weaves each literal with the field of its index, and the tail becomes `/**` or `**` |
| Template.BuildRegex | zeared/_template/_template.py:224-242 | the loop weaves literal patterns with named groups, and the tail becomes its own group |
| Template.Parse | zeared/_template/_template.py:78-206 | the parser and its loop, against the function that `Refusals` and `Compile` pin down |
| Refusals.CutMeans | zeared/_template/_template.py:86-106 | the tail the parser cuts off any template string is the one the string ends with |
| Refusals.CutOnce | zeared/_template/_template.py:86-106 | and no string can be cut in two ways |
| Refusals.ScanExactly | zeared/_template/_template.py:116-121 | a body scans if and only if each of its braces is doubled or belongs to a field |
| Refusals.RefusedExactly | zeared/_template/_template.py:78-121 | for every template string: refused as empty, as reserved, for a `**` before its end, and for its braces, each if and only if it is so and none of the tests before it fails |
| Refusals.ReadExactly | zeared/_template/_template.py:123-151 | for every other string, spelled in any way: refused for the first field text that gives no name, or the first that gives a name an earlier one gave, the tail's read last, if and only if that one is the first at fault; else its names are those the texts give |
| Refusals.AcceptedNames | zeared/_template/_template.py:136-151 | an accepted template keeps its text, and its names are valid and distinct |
| Refusals.RepeatIsRefused | zeared/_template/_template.py:139-151 | a printed topic is accepted if and only if no name repeats, and else is refused for the first repeat, the tail's name included |
| Template.RenderSelector | zeared/_template/_template.py:276-307 | the loop gives each slot its value or its wildcard, and rewrites only the tail slot |
| Compile.AlignedWeave | zeared/_template/_template.py:215-218 | pairing literals with fields by index is pairing each with its own, when only the last part lacks a field |
| Compile.ParseReadsBack | zeared/_template/_template.py:78-171 | printing a well-formed topic and parsing it gives its own template: names, wildcard, pattern, publishability and tail |
| Grammar.TailIsCut | zeared/_template/_template.py:86-114 | the parser finds exactly the tail that was printed, and never takes one for another |
| Matching.ChunkDenotes | zeared/_template/_template.py:317-332 | a chunk's pattern takes exactly the strings Zenoh's chunk rules allow, `*` and `$*` included |
| Matching.MatchByChunk | zeared/_template/_template.py:309-314 | a key matches a template exactly when its chunks fit the topic's, and the captures are those and no others |
| Matching.ShapeByChunk | zeared/keyexpr.py:75-97 | the shape is one chunk for each chunk of the topic, and `*/**` for a tail; a topic that is only a tail keeps its `**`, which reaches the same keys |
| Matching.ShapeIncludesExactlyTheMatched | zeared/keyexpr.py:75-97 | for every well-formed topic and key, the shape includes the key exactly when the template matches it |
| Matching.WildcardReachesExactly | zeared/_template/_template.py:208-222 | the key expression a subscriber declares reaches a key if and only if its template matches it, or the key lacks just the tail |
| Rendering.CapturesByPosition | zeared/_template/_template.py:309-314 | captures are exactly the key's chunks by position, one for each slot name and no more |
| Rendering.RenderByChunk | zeared/_template/_template.py:244-274 | rendering gives the topic's chunks with the values in place, or names which error |
| Rendering.MatchUndoesRender | zeared/_template/_template.py:244-314 | matching a rendered key gives back the values exactly when each single-segment value is one nonempty chunk |
| Rendering.RenderUndoesMatch | zeared/_template/_template.py:244-314 | rendering a matched key's captures gives back the key, for every key that matches a publishable topic |
| Narrowing.MatchesByChunk | zeared/keyexpr.py:8-9 | chunks without `**` match one by one, and what follows matches the rest |
| Narrowing.SelectorNarrows | zeared/queryable/_query_get.py:36-53 | a selector of wildcard-free values reaches a key of the topic exactly when the key's slots agree with them |
| Slashes.SelectorNarrowsWithoutTail | zeared/_template/_template.py:276-307 | on a topic without a tail slot that holds for values with a slash too |
| Slashes.NarrowsExactly | zeared/_template/_template.py:276-307 | for every topic and every wildcard-free mapping the selector keeps to the allowed keys that agree, if and only if there is no tail slot, no single-segment value has a slash, or the selector's chunks could not be a key's or do not meet the topic's |
| Slashes.SlashSelectsOthers | zeared/_template/_template.py:276-307 | a topic with a tail slot and a slashed value whose selector reaches a key that disagrees with it |
| Querying.BuildSelector | zeared/queryable/_query_get.py:47-48 | parsing the topic and rendering its selector gives the selector the lemmas are about |
| Querying.ReachesOffTopicExactly | zeared/queryable/_query_get.py:36-53 | of keys on other topics, a selector of slash-free values reaches exactly those that lack just the tail it leaves open and agree |
| Querying.SubscribeOnlySelectsAll | zeared/_template/_template.py:276-307 | a subscribe-only topic's selector reaches, whatever the values, every key of the topic and those that lack just its tail |
| Querying.SelectsWhatWasSent | zeared/queryable/_query_get.py:36-53 | a query's typed values select the key a message was sent on if and only if each renders as the message's own; a slot left out, or `None`, selects every value |
| Querying.Query | zeared/retention.py:262-311 | end to end, for a cache of any allowed keys: an entry that answers the class query, on the topic and agreeing or off it and reached so, stays exactly while within the TTL, each that stays has one reply that carries it, and every other entry is left alone |
| Templates.Build | zeared/_template/_templates.py:31-50 | builds exactly when every topic parses, in declared order, with the union of slot names and of tail names; else refused as the first that does not parse is |
| Templates.Find | zeared/_template/_templates.py:65-69 | the first template written so, or none |
| Templates.ResolvePublishTopic | zeared/_template/_templates.py:60-77 | without an override the first declared template if it is publishable, and with one the first written so if it is; refused as unknown if and only if none is written so, and as subscribe-only otherwise |
| Templates.ResolvesExactly | zeared/_template/_templates.py:60-77 | the function the send lemmas use comes to exactly that, by position |
| Templates.MatchIsFirst | zeared/_template/_templates.py:52-58 | a key goes to the earliest declared topic that matches it, with that one's captures |
| Templates.Match | zeared/_template/_templates.py:52-58 | the search loop finds that topic |
| Message.StringifySlots | zeared/message/_message_render.py:109-131 | each of the template's slots among the values gets its text, `None` stays `None`, others are dropped |
| Message.InstanceSlotValues | zeared/message/_message_render.py:134-144 | the instance's non-`None` values of the template's field-backed slots |
| Message.RejectSegmentSplit | zeared/message/_message_render.py:147-162 | refuses exactly when some single-segment text holds a slash |
| Message.RenderPublishKey | zeared/message/_message_render.py:165-169 | texts, then the slash check, then the template's own render |
| Message.RenderSlots | zeared/message/_message_render.py:183-201 | `concrete_topic`: a slot missing or `None` is refused before anything is rendered |
| Message.Send | zeared/message/_message_send.py:71-81 | the key, and the dumped payload without the slots' wire keys |
| Message.CoerceCaptures | zeared/message/_message_render.py:215-236 | succeeds exactly when every field accepts its capture, with the typed values |
| Message.Inject | zeared/message/message.py:176-182 | the payload with each field-backed capture under its wire key, over what was there |
| Message.Decode | zeared/message/message.py:144-186 | match, coerce, inject and load, with each of its errors |
| Identity.SendSucceeds | zeared/message/_message_render.py:134-180 | a send succeeds exactly when the first declared topic, or the first written as the override, is there and publishable, each slot has a field and a value, no single-segment text holds a slash and the tail's is not empty |
| Identity.SendRefuses | zeared/message/_message_render.py:134-180 | and otherwise is refused for the first of these: unknown topic, subscribe-only, a split segment, an empty tail, a missing slot |
| Identity.PayloadIsTheRest | zeared/message/_message_render.py:204-212 | a sent payload holds each field that is no slot of the topic, dumped under its wire key, and nothing else |
| Identity.ConcreteTopicIsTheSentKey | zeared/message/_message_render.py:183-201 | `concrete_topic` of the message's slot values is the key a send goes out on, if and only if every slot has a field |
| Identity.UndeclaredIsRefused | zeared/message/message.py:144-186 | a key is refused as undeclared if and only if no declared topic matches it |
| Identity.DecodeRefuses | zeared/message/message.py:144-186 | on the earliest topic that matches, a decode is refused if and only if a field refuses its capture, or else `load` refuses a field |
| Identity.SentKeyIsReadBack | zeared/_template/_templates.py:52-58 | a sent key is read on its own topic with the sent texts exactly when no segment is empty and no earlier topic matches |
| Identity.DecodeUndoesSend | zeared/message/message.py:144-186 | then, with codecs that invert, decoding what was sent gives back the whole message, `data_key` fields and extra topics included |
| Identity.KeyWins | zeared/message/message.py:173-182 | a decoded slot holds what the key says, whatever the payload held |
| Identity.PayloadFills | zeared/message/message.py:173-186 | and a field that is no slot what the payload says, or its default |
| TakenKey.EarlierTopicTakesTheKey | zeared/_template/_templates.py:52-58 | a class and a message, sent on its second topic, whose key and payload decode as another message on the first |
| Timestamps.StringOrderExactly | zeared/subscriber/subscriber.py:252-261 | an older `decimal(ntp64)/id` sorts below a newer one exactly when it does not exceed the newer one's leading digits, as many as its own |
| Timestamps.SameDigitsAgree | zeared/subscriber/_subscriber_dispatch.py:315-330 | it holds for any two values with as many digits |
| Timestamps.NineteenDigitsAgree | zeared/subscriber/_subscriber_dispatch.py:315-330 | so string order is numeric order for every pair in 10^18 up to 10^19 |
| Timestamps.TwentiethDigitBlinds | zeared/subscriber/subscriber.py:252-261 | and every 64-bit value of twenty digits sorts below every nineteen-digit one above 2^64 / 10, so a watermark there drops all that comes after |
| Timestamps.SixteenDigitsAreNoEpoch | zeared/meta.py:94-125 | sixteen decimal digits never decode, as decimal, to a plausible time |
| Timestamps.BothBasesDecode | zeared/meta.py:110-125 | every 64-bit value whose seconds are plausible decodes to n / 2^32 from its decimal and from its 16-digit hex form |
| Timestamps.StampReadsBack | zeared/meta.py:128-180 | a timestamp that has its string form alone is read back as its value and its id, the same as a native one that gives them; one whose accessors raise tells neither |
| Timestamps.TimeIsReadExactly | zeared/meta.py:94-180 | a string has a time if and only if what stands before its first slash is, in decimal or else in hexadecimal, a time between 2000 and 2100; and a sender, what stands after it |
| Dispatch.WatermarkIsNewestInSkew | zeared/subscriber/_subscriber_dispatch.py:234-266 | after any arrivals a key's watermark is the greatest timestamp among those within the skew ceiling on arrival |
| Dispatch.PassesExactlyWhenNewer | zeared/subscriber/_subscriber_dispatch.py:314-330 | a timestamped sample passes exactly when it is newer than every in-skew one before it, so no far-future sample can block it |
| Dispatch.CacheIsMostRecent | zeared/subscriber/_subscriber_dispatch.py:340-352 | after any mismatches the cache is the most recently seen distinct pairs, up to its cap |
| Dispatch.RecencyOrder | zeared/subscriber/_subscriber_dispatch.py:340-352 | in the order they were last seen |
| Dispatch.Subscriber.WithinSkewCheck | zeared/subscriber/_subscriber_dispatch.py:237-266 | whether a sample is within the ceiling, and which keys have been warned of |
| Dispatch.Subscriber.NoteMismatch | zeared/subscriber/_subscriber_dispatch.py:344-352 | the ordered dict after a mismatch, and whether it is reported |
| Dispatch.Subscriber.Dispatch | zeared/subscriber/_subscriber_dispatch.py:293-367 | one sample: what becomes of it and the whole new state, against the function the lemmas below pin down |
| Dispatch.Subscriber.Redeclare | zeared/subscriber/subscriber.py:344-345 | a reconnect forgets the mismatches and nothing else |
| Dispatch.MemoryIsItsHistory | zeared/subscriber/_subscriber_dispatch.py:293-367 | after any samples and redeclares, the state is the watermark of the stamped puts and the cache of the mismatches since the last redeclare |
| Dispatch.DropsExactlyTheNotNewer | zeared/subscriber/_subscriber_dispatch.py:314-330 | whatever came before, a stamped put is dropped as a duplicate exactly when an earlier in-skew one of its key was as new |
| Dispatch.ReportsExactlyTheForgotten | zeared/subscriber/_subscriber_dispatch.py:344-367 | whatever came before, a mismatch is reported exactly when its pair is not among the most recent since the last redeclare |
| Dispatch.MismatchesAreBySender | zeared/subscriber/_subscriber_dispatch.py:340-367 | after a redeclare and one mismatch, the next is reported if and only if another sender stamped it or it names another schema, or the cache holds nothing |
| Dispatch.WarnsExactly | zeared/subscriber/_subscriber_dispatch.py:237-266 | whatever came, a key has been warned of if and only if a stamped put of it was beyond the skew ceiling and newer than every in-skew one before it |
| Dispatch.DeliversAsItCame | zeared/subscriber/_subscriber_dispatch.py:306-405 | whatever came before, a put newer than every in-skew one of its key and of the expected schema is delivered if and only if it decodes and its callback returns, as live if and only if it came live without the replay marker, and pings the watchdog exactly then; a failed callback carries the same origin |
| Dispatch.OthersAreDropped | zeared/subscriber/_subscriber_dispatch.py:314-367 | and any other put is a duplicate or a mismatch |
| Dispatch.TombstonesLeaveNoTrace | zeared/subscriber/_subscriber_dispatch.py:298-304 | a tombstone goes to `on_remove` if and only if there is one, whatever its timestamp, and the memory stays as it was |
| Stream.Channel.PutItem | zeared/stream.py:82-95 | a full bounded queue loses its oldest item and counts it, and only the first drop is logged |
| Stream.Channel.Finish | zeared/stream.py:76-80 | the failure if there is one, then the end marker, whatever the bound |
| Stream.Channel.Next | zeared/stream.py:131-142 | the oldest item, and an end or a failure closes the stream |
| Stream.Channel.Close | zeared/stream.py:144-153 | closes once, and leaves an end marker for a waiting consumer |
| Stream.FreshestSurvive | zeared/stream.py:82-95 | after any puts and gets the queued items are a contiguous suffix of those put and within the bound, the delivered ones are in order, and put is delivered, queued and dropped together |
| Stream.EndIsReached | zeared/stream.py:131-142 | a consumer that reads on gets every queued item and then the end |
| Stream.EndAfterAnything | zeared/stream.py:76-95 | a source that feeds nothing after ending never has its end marker evicted |
| Stream.MarkerIsPushedOutExactly | zeared/stream.py:82-95 | for every queue, bound and number of later feeds, what goes goes from the front, and the item at a position, marker or not, goes if and only if the feeds outnumber the room left and the items ahead of it |
| Stream.UnboundedLosesNothing | zeared/async_.py:417-440 | an unbounded stream, as an asynchronous query's, never drops an item |

## Left out

- Zenoh itself: sessions, routers, delivery, liveliness and access control. An attached pair delivers puts and answers gets; key matching is its specification, and canonical forms are taken to match the same keys.
- seared's field types, msgpack and JSON bytes, MIME choice and attachment bytes: abstract codecs and values.
- The regex engine: a compiled pattern is the language it denotes; `$` before a final newline is excluded with newlines.
- Clocks, jitter, thread pools, logging and the event loop: a clock is an argument, a thread a step relation, and floating-point rounding is not modelled.
- Convergence.RestoreConverges: one publisher and one subscriber, one get for all templates, and the probe's restores only; the reconnect worker's are in `Composition`.
- Composition.ReconnectsConverge: one publisher and one subscriber; a restore's threads may go on before its last put or reply is out, which allows more runs than the code has; the walks are one step.
- Reconnect.EveryScheduleAnswers: counts steps, not time; backoff and jitter are not modelled.
- Retention.Cache.Store: the declaration of queryables before it is in `Queryables`.
- Retention.Cache.Drop: undeclaring the queryables is `Queryables`' `Drop` step, and leaving the registry is not modelled.
- Reconnect.LinkSignalsAlternate: orders the committed transitions, not the callbacks, which run after the lock is released.
- Narrowing.SelectorNarrows: publishable topics only; a subscribe-only topic's selector is its plain wildcard (`Querying.SubscribeOnlySelectsAll`).
- Querying.Query: requires that the values keep to their slots (`Slashes.Confined`), which `Slashes.NarrowsExactly` shows is needed; for a value with a slash the keys reached off the topic are given only as those that intersect.
- PrefixIndex.Index.Add: the reserved leaf key is a field of the node, so a chunk `__topics__` collides in the code and not here.
- Template.Parse: the parser's messages are kept only as kinds, all of them one `TopicError`, and a field with a brace or a bracket in it may be refused as a brace here and as a field there; of a template that is accepted but not `Grammar.WellFormed`, only its names are claimed.
- Message.Send: the batch buffer, the schema attachment and the publisher cache; the store and the put are in `Retention` and `Convergence`.
- Queryables.NoneOrOnePerTemplate: undeclaring a dead handle is not a step, and a failing declare is a nondeterministic one.
- Dispatch.Subscriber.Dispatch: `on_remove` failures, the watchdog, presence events and the metadata object.
- Factories, configuration, environment and TOML reading, the hub daemon, `doc/`, `bench/`, `batch.py`, `publisher.py`, `watchdog.py`, presence, `effect.py`, registries and the async wrappers: easy or foreign.
