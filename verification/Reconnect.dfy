/** The probe thread, the reconnect worker, the senders' triggers and the teardowns of one
    managed session, interleaved one critical section or Event operation at a time
    (zeared/_reconnect/_reconnect.py, zeared/_reconnect/_restore.py, zeared/_reconnect/_link.py). */
module Reconnect {
  import opened Wrappers
  import opened Link
  import opened ManagedSession

  datatype WorkerAt =
    | AtLoop                      // testing the cancel Event
    | Waiting                     // blocked on the signal
    | Clearing                    // woken, about to clear it
    | Checking                    // about to test the cancel Event again
    | Vetting                     // about to test for DEAD
    | Raising                     // about to raise the restoring flag
    | LosingLink
    | Opening(failures: nat)
    | BackingOff(failures: nat)
    | Aborting                    // cancelled while backing off: about to set DEAD
    | GivingUp                    // out of attempts: about to set DEAD
    | Cancelling                  // about to stop the probe
    | Swapping(raw: nat, zids: set<Zid>)
    | RestoreWalks                // the publisher, retention, subscriber, queryable and presence walks
    | Noting                      // about to take the routers as the baseline
    | ClaimingLink
    | Republishing
    | Committing
    | Lowering                    // about to lower the restoring flag
    | Exited

  datatype ProbeAt =
    | Sleeping
    | TestingDead
    | TestingReconnecting
    | TestingAlive
    | Triggering
    | Signalling
    | TestingFlag
    | Polling
    | Deciding(before: set<Zid>, zids: set<Zid>)
    | MarkingLost(back: bool)
    | ClaimingRestore
    | Republishes
    | Walking
    | Closing
    | Stopped

  type Sender = nat

  /** What has happened so far. */
  datatype Past = Past(
    torn: bool,             // some teardown has begun
    triggers: nat,          // successful CASes
    reopens: nat,           // swaps
    refused: nat,           // opens refused in the latest reconnect
    early: bool)            // the probe was past its flag test when the flag last went up

  /** A loss that no republish, and one that no retained fetch, has made good yet. */
  datatype Debt = Debt(push: bool, pull: bool)

  datatype State = State(
    shared: Shared,
    zids: set<Zid>,         // the routers the raw session is attached to
    worker: WorkerAt,
    probe: ProbeAt,
    setting: set<Sender>,   // senders between their CAS and their set
    tearing: nat,           // teardowns between their two sets
    past: Past,
    owed: Debt)

  /** What a thread meets at a step that depends on the outside. */
  datatype Luck =
    | Smooth
    | Opened(raw: nat, zids: set<Zid>)
    | Refused
    | Raised
    | Dead(dead: bool)
    | Unreadable

  datatype Step =
    | Trigger(sender: Sender)
    | SetSignal(sender: Sender)
    | Worker(luck: Luck)
    | Probe(luck: Luck)
    | BeginTeardown
    | EndTeardown
    | Detach
    | Attach(zids: set<Zid>)
    | Drift(zids: set<Zid>)      // the routers change while some stay

  /** The probe is past its test of the restoring flag. */
  predicate InLinkWork(probe: ProbeAt) {
    || probe.Polling? || probe.Deciding? || probe.MarkingLost? || probe.ClaimingRestore?
    || probe.Republishes? || probe.Walking? || probe.Closing?
  }

  /** The retained values go out: to nobody while detached. */
  function Republished(s: State): State {
    s.(owed := s.owed.(push := s.owed.push && s.zids == {}))
  }

  /** The retained values come in: from nobody while detached. */
  function Fetched(s: State): State {
    s.(owed := s.owed.(pull := s.owed.pull && s.zids == {}))
  }

  // ---------------------------------------------------------------- the worker

  predicate WorkerCan(s: State, luck: Luck) {
    match s.worker
    case Waiting => s.shared.signal
    case Opening(_) => luck.Opened? || luck.Refused?
    case Exited => false
    case _ => true
  }

  function WorkerStep(s: State, luck: Luck, maxAttempts: Option<nat>): State
    requires WorkerCan(s, luck)
  {
    var sh := s.shared;
    match s.worker
    case AtLoop => s.(worker := if sh.cancel then Exited else Waiting)
    case Waiting => s.(worker := Clearing)
    case Clearing => s.(shared := sh.(signal := false), worker := Checking)
    case Checking => s.(worker := if sh.cancel then Exited else Vetting)
    case Vetting => s.(worker := if sh.phase == DEAD then Exited else Raising)
    case Raising =>
      s.(shared := sh.(restoring := true), worker := LosingLink, past := s.past.(early := InLinkWork(s.probe)))
    case LosingLink =>
      s.(shared := LostLink(sh), worker := Opening(0), past := s.past.(refused := 0), owed := Debt(true, true))
    case Opening(n) =>
      if luck.Opened? then s.(worker := Swapping(luck.raw, luck.zids))
      else if maxAttempts.Some? && n + 1 >= maxAttempts.value then
        s.(worker := GivingUp, past := s.past.(refused := n + 1))
      else s.(worker := BackingOff(n + 1), past := s.past.(refused := n + 1))
    case BackingOff(n) => s.(worker := if sh.cancel then Aborting else Opening(n))
    case Aborting => s.(shared := sh.(phase := DEAD), worker := Lowering)
    case GivingUp => s.(shared := sh.(phase := DEAD), worker := Cancelling)
    case Cancelling => s.(shared := sh.(cancel := true), worker := Lowering)
    case Swapping(raw, zids) =>
      s.(shared := Swapped(sh, raw), zids := zids, worker := RestoreWalks,
         past := s.past.(reopens := s.past.reopens + 1), owed := Debt(true, true))
    case RestoreWalks => if luck.Raised? then s.(worker := Lowering) else Fetched(s).(worker := Noting)
    case Noting =>
      s.(shared := if luck.Unreadable? then sh else sh.(routers := s.zids), worker := ClaimingLink)
    case ClaimingLink =>
      s.(shared := ClaimedLink(sh), worker := if sh.link == Lost then Republishing else Lowering)
    case Republishing => Republished(s).(worker := Committing)
    case Committing => s.(shared := CommittedLink(sh), worker := Lowering)
    case Lowering => s.(shared := sh.(restoring := false), worker := AtLoop)
    case Exited => s
  }

  // ---------------------------------------------------------------- the probe

  predicate ProbeCan(s: State, luck: Luck) {
    match s.probe
    case TestingAlive => luck.Dead?
    case Stopped => false
    case _ => true
  }

  function ProbeStep(s: State, luck: Luck): State
    requires ProbeCan(s, luck)
  {
    var sh := s.shared;
    match s.probe
    case Sleeping => s.(probe := if sh.cancel then Stopped else TestingDead)
    case TestingDead => s.(probe := if sh.phase == DEAD then Stopped else TestingReconnecting)
    case TestingReconnecting => s.(probe := if sh.phase == RECONNECTING then Sleeping else TestingAlive)
    case TestingAlive => s.(probe := if luck.dead then Triggering else TestingFlag)
    case Triggering =>
      if Wins(sh) then
        s.(shared := Triggered(sh), probe := Signalling, past := s.past.(triggers := s.past.triggers + 1))
      else s.(probe := Sleeping)
    case Signalling => s.(shared := sh.(signal := true), probe := Sleeping)
    case TestingFlag => s.(probe := if sh.restoring then Sleeping else Polling)
    case Polling =>
      if luck.Unreadable? then s.(probe := Sleeping)
      else s.(shared := sh.(routers := s.zids), probe := Deciding(sh.routers, s.zids))
    case Deciding(before, zids) =>
      s.(probe := match Judge(sh.link, before, zids)
                  case Steady => Sleeping
                  case Loss => MarkingLost(false)
                  case Bounce => MarkingLost(true)
                  case Return => ClaimingRestore)
    case MarkingLost(back) => s.(shared := LostLink(sh), probe := if back then ClaimingRestore else Sleeping)
    case ClaimingRestore => s.(shared := ClaimedLink(sh), probe := if sh.link == Lost then Republishes else Sleeping)
    case Republishes => Republished(s).(probe := Walking)
    // A teardown abandons the walk.
    case Walking => (if sh.cancel then s else Fetched(s)).(probe := Closing)
    case Closing => s.(shared := CommittedLink(sh), probe := Sleeping)
    case Stopped => s
  }

  // ---------------------------------------------------------------- the system

  predicate Enabled(s: State, step: Step) {
    match step
    case Trigger(t) => t !in s.setting
    case SetSignal(t) => t in s.setting
    case Worker(luck) => WorkerCan(s, luck)
    case Probe(luck) => ProbeCan(s, luck)
    case BeginTeardown => true
    case EndTeardown => s.tearing > 0
    case Detach => s.zids != {}
    case Attach(zids) => s.zids == {} && zids != {}
    case Drift(zids) => s.zids * zids != {}
  }

  function Apply(s: State, step: Step, maxAttempts: Option<nat>): State
    requires Enabled(s, step)
  {
    match step
    case Trigger(t) =>
      if Wins(s.shared) then
        s.(shared := Triggered(s.shared), setting := s.setting + {t}, past := s.past.(triggers := s.past.triggers + 1))
      else s
    case SetSignal(t) => s.(shared := s.shared.(signal := true), setting := s.setting - {t})
    case Worker(luck) => WorkerStep(s, luck, maxAttempts)
    case Probe(luck) => ProbeStep(s, luck)
    case BeginTeardown =>
      s.(shared := s.shared.(cancel := true), tearing := s.tearing + 1, past := s.past.(torn := true))
    case EndTeardown => s.(shared := s.shared.(signal := true), tearing := s.tearing - 1)
    case Detach => s.(zids := {}, owed := Debt(true, true))
    case Attach(zids) => s.(zids := zids)
    case Drift(zids) => s.(zids := zids)
  }

  ghost predicate Init(s: State) {
    && s.shared == Shared(s.shared.raw, IDLE, Up, false, s.shared.routers, false, false, [])
    && s.zids != {}
    && s == State(s.shared, s.zids, AtLoop, Sleeping, {}, 0, Past(false, 0, 0, 0, false), Debt(false, false))
  }

  ghost predicate Follows(s: State, s': State, maxAttempts: Option<nat>) {
    exists step :: Enabled(s, step) && s' == Apply(s, step, maxAttempts)
  }

  ghost predicate IsRun(run: seq<State>, maxAttempts: Option<nat>) {
    && run != []
    && forall i :: 0 <= i < |run| - 1 ==> Follows(run[i], run[i+1], maxAttempts)
  }

  // ---------------------------------------------------------------- invariants

  /** The worker has taken a reconnect on and not yet resolved it. */
  predicate Reconnecting(w: WorkerAt) {
    || w.Vetting? || w.Raising? || w.LosingLink? || w.Opening? || w.BackingOff?
    || w.Aborting? || w.GivingUp? || w.Swapping?
  }

  function One(b: bool): nat {
    if b then 1 else 0
  }

  /** Where the news of a successful CAS can be: with its trigger, in the Event, or with the worker. */
  function Tokens(s: State): nat {
    |s.setting| + One(s.probe.Signalling?) + One(s.shared.signal)
    + One(s.worker.Checking? || Reconnecting(s.worker))
  }

  ghost predicate TriggerInv(s: State) {
    var sh := s.shared;
    && (!sh.cancel ==> Tokens(s) == One(sh.phase == RECONNECTING))
    && (!sh.cancel ==> s.tearing == 0)
    && (Reconnecting(s.worker) ==> sh.phase == RECONNECTING)
    && (sh.phase == DEAD ==>
          s.worker.Cancelling? || (sh.cancel && (s.worker.Lowering? || s.worker.AtLoop? || s.worker.Exited?)))
    && (s.worker.Clearing? ==> sh.signal)
    && (s.worker.Cancelling? ==> sh.phase == DEAD)
    && (s.worker.Aborting? || s.worker.Exited? ==> sh.cancel)
    && s.past.triggers == s.past.reopens + One(sh.phase != IDLE)
  }

  /** The reconnect's flag is up from its raise to its lowering. */
  predicate FlagUp(w: WorkerAt) {
    && !w.AtLoop? && !w.Waiting? && !w.Clearing? && !w.Checking? && !w.Vetting? && !w.Raising? && !w.Exited?
  }

  ghost predicate LinkInv(s: State) {
    && Paired(s.shared)
    && (s.shared.restoring <==> FlagUp(s.worker))
    && (s.shared.restoring && InLinkWork(s.probe) ==> s.past.early)
  }

  /** The latest reconnect has used up its attempts. */
  predicate OutOfAttempts(s: State, maxAttempts: Option<nat>) {
    maxAttempts.Some? && s.past.refused >= maxAttempts.value && s.past.refused >= 1
  }

  /** How many opens a bound of `m` attempts allows: the first is always made. */
  function Allowed(m: nat): nat {
    if m == 0 then 1 else m
  }

  /** The end is a teardown's doing, or that of the last allowed attempt. */
  ghost predicate EndInv(s: State, maxAttempts: Option<nat>) {
    && (maxAttempts.Some? && (s.worker.Opening? || s.worker.BackingOff?) ==>
          s.worker.failures < Allowed(maxAttempts.value))
    && (s.worker.Opening? || s.worker.BackingOff? ==> s.past.refused == s.worker.failures)
    && (s.worker.GivingUp? || s.worker.Cancelling? ==> OutOfAttempts(s, maxAttempts))
    && (s.shared.cancel || s.shared.phase == DEAD ==>
          s.past.torn || (OutOfAttempts(s, maxAttempts) && s.shared.phase == DEAD))
  }

  ghost predicate Inv(s: State, maxAttempts: Option<nat>) {
    TriggerInv(s) && LinkInv(s) && EndInv(s, maxAttempts)
  }

  // ---------------------------------------------------------------- every step keeps them

  /** From the loop's head to the first open. */
  predicate TakingOn(w: WorkerAt) {
    w.AtLoop? || w.Waiting? || w.Clearing? || w.Checking? || w.Vetting? || w.Raising? || w.LosingLink?
  }

  lemma TakingOnKeepsTriggerInv(s: State, luck: Luck, maxAttempts: Option<nat>)
    requires TriggerInv(s) && WorkerCan(s, luck) && TakingOn(s.worker)
    ensures TriggerInv(WorkerStep(s, luck, maxAttempts))
  {
    match s.worker
    case AtLoop =>
    case Waiting =>
    case Clearing =>
    case Checking =>
    case Vetting =>
    case Raising =>
    case LosingLink =>
  }

  /** The worker has an opened session to swap in and restore. */
  predicate Restores(w: WorkerAt) {
    w.Swapping? || w.RestoreWalks? || w.Noting? || w.ClaimingLink? || w.Republishing? || w.Committing? || w.Lowering?
  }

  lemma OpeningKeepsTriggerInv(s: State, luck: Luck, maxAttempts: Option<nat>)
    requires TriggerInv(s) && WorkerCan(s, luck) && !TakingOn(s.worker) && !Restores(s.worker)
    ensures TriggerInv(WorkerStep(s, luck, maxAttempts))
  {
    match s.worker
    case Opening(_) =>
    case BackingOff(_) =>
    case Aborting =>
    case GivingUp =>
    case Cancelling =>
  }

  lemma RestoringKeepsTriggerInv(s: State, luck: Luck, maxAttempts: Option<nat>)
    requires TriggerInv(s) && WorkerCan(s, luck) && Restores(s.worker)
    ensures TriggerInv(WorkerStep(s, luck, maxAttempts))
  {
    match s.worker
    case Swapping(_, _) =>
    case RestoreWalks =>
    case Noting =>
    case ClaimingLink =>
    case Republishing =>
    case Committing =>
    case Lowering =>
  }

  lemma WorkerKeepsTriggerInv(s: State, luck: Luck, maxAttempts: Option<nat>)
    requires TriggerInv(s) && WorkerCan(s, luck)
    ensures TriggerInv(WorkerStep(s, luck, maxAttempts))
  {
    if TakingOn(s.worker) {
      TakingOnKeepsTriggerInv(s, luck, maxAttempts);
    } else if Restores(s.worker) {
      RestoringKeepsTriggerInv(s, luck, maxAttempts);
    } else {
      OpeningKeepsTriggerInv(s, luck, maxAttempts);
    }
  }

  lemma ProbeKeepsTriggerInv(s: State, luck: Luck)
    requires TriggerInv(s) && ProbeCan(s, luck)
    ensures TriggerInv(ProbeStep(s, luck))
  {
    match s.probe
    case Sleeping =>
    case TestingDead =>
    case TestingReconnecting =>
    case TestingAlive =>
    case Triggering =>
    case Signalling =>
    case TestingFlag =>
    case Polling =>
    case Deciding(_, _) =>
    case MarkingLost(_) =>
    case ClaimingRestore =>
    case Republishes =>
    case Walking =>
    case Closing =>
  }

  lemma SenderKeepsTriggerInv(s: State, step: Step, maxAttempts: Option<nat>)
    requires TriggerInv(s) && Enabled(s, step) && !step.Worker? && !step.Probe?
    ensures TriggerInv(Apply(s, step, maxAttempts))
  {
  }

  lemma TakingOnKeepsLinkInv(s: State, luck: Luck, maxAttempts: Option<nat>)
    requires LinkInv(s) && WorkerCan(s, luck) && TakingOn(s.worker)
    ensures LinkInv(WorkerStep(s, luck, maxAttempts))
  {
    match s.worker
    case AtLoop =>
    case Waiting =>
    case Clearing =>
    case Checking =>
    case Vetting =>
    case Raising =>
    case LosingLink => MovesArePaired(s.shared);
  }

  lemma OpeningKeepsLinkInv(s: State, luck: Luck, maxAttempts: Option<nat>)
    requires LinkInv(s) && WorkerCan(s, luck) && !TakingOn(s.worker) && !Restores(s.worker)
    ensures LinkInv(WorkerStep(s, luck, maxAttempts))
  {
    match s.worker
    case Opening(_) =>
    case BackingOff(_) =>
    case Aborting =>
    case GivingUp =>
    case Cancelling =>
    case Exited =>
  }

  lemma RestoringKeepsLinkInv(s: State, luck: Luck, maxAttempts: Option<nat>)
    requires LinkInv(s) && WorkerCan(s, luck) && Restores(s.worker)
    ensures LinkInv(WorkerStep(s, luck, maxAttempts))
  {
    match s.worker
    case Swapping(_, _) =>
    case RestoreWalks =>
    case Noting =>
    case ClaimingLink => MovesArePaired(s.shared);
    case Republishing =>
    case Committing => MovesArePaired(s.shared);
    case Lowering =>
  }

  lemma WorkerKeepsLinkInv(s: State, luck: Luck, maxAttempts: Option<nat>)
    requires LinkInv(s) && WorkerCan(s, luck)
    ensures LinkInv(WorkerStep(s, luck, maxAttempts))
  {
    if TakingOn(s.worker) {
      TakingOnKeepsLinkInv(s, luck, maxAttempts);
    } else if Restores(s.worker) {
      RestoringKeepsLinkInv(s, luck, maxAttempts);
    } else {
      OpeningKeepsLinkInv(s, luck, maxAttempts);
    }
  }

  lemma ProbeKeepsLinkInv(s: State, luck: Luck)
    requires LinkInv(s) && ProbeCan(s, luck)
    ensures LinkInv(ProbeStep(s, luck))
  {
    match s.probe
    case Sleeping =>
    case TestingDead =>
    case TestingReconnecting =>
    case TestingAlive =>
    case Triggering =>
    case Signalling =>
    case TestingFlag =>
    case Polling =>
    case Deciding(_, _) =>
    case MarkingLost(_) =>
    case ClaimingRestore =>
    case Republishes =>
    case Walking =>
    case Closing =>
  }

  lemma WorkerKeepsEndInv(s: State, luck: Luck, maxAttempts: Option<nat>)
    requires TriggerInv(s) && EndInv(s, maxAttempts) && WorkerCan(s, luck)
    ensures EndInv(WorkerStep(s, luck, maxAttempts), maxAttempts)
  {
    match s.worker
    case AtLoop =>
    case Waiting =>
    case Clearing =>
    case Checking =>
    case Vetting =>
    case Raising =>
    case LosingLink =>
    case Opening(_) =>
    case BackingOff(_) =>
    case Aborting =>
    case GivingUp =>
    case Cancelling =>
    case Swapping(_, _) =>
    case RestoreWalks =>
    case Noting =>
    case ClaimingLink =>
    case Republishing =>
    case Committing =>
    case Lowering =>
    case Exited =>
  }

  lemma ProbeKeepsEndInv(s: State, luck: Luck, maxAttempts: Option<nat>)
    requires EndInv(s, maxAttempts) && ProbeCan(s, luck)
    ensures EndInv(ProbeStep(s, luck), maxAttempts)
  {
  }

  lemma OthersKeepInv(s: State, step: Step, maxAttempts: Option<nat>)
    requires Inv(s, maxAttempts) && Enabled(s, step) && !step.Worker? && !step.Probe?
    ensures LinkInv(Apply(s, step, maxAttempts)) && EndInv(Apply(s, step, maxAttempts), maxAttempts)
  {
  }

  lemma StepKeepsInv(s: State, step: Step, maxAttempts: Option<nat>)
    requires Inv(s, maxAttempts) && Enabled(s, step)
    ensures Inv(Apply(s, step, maxAttempts), maxAttempts)
  {
    if step.Worker? {
      WorkerKeepsTriggerInv(s, step.luck, maxAttempts);
      WorkerKeepsLinkInv(s, step.luck, maxAttempts);
      WorkerKeepsEndInv(s, step.luck, maxAttempts);
    } else if step.Probe? {
      ProbeKeepsTriggerInv(s, step.luck);
      ProbeKeepsLinkInv(s, step.luck);
      ProbeKeepsEndInv(s, step.luck, maxAttempts);
    } else {
      SenderKeepsTriggerInv(s, step, maxAttempts);
      OthersKeepInv(s, step, maxAttempts);
    }
  }

  lemma {:induction false} RunKeepsInv(run: seq<State>, maxAttempts: Option<nat>)
    requires IsRun(run, maxAttempts) && Init(run[0])
    ensures forall i :: 0 <= i < |run| ==> Inv(run[i], maxAttempts)
  {
    if |run| == 1 {
      assert Inv(run[0], maxAttempts);
    } else {
      var m := |run| - 2;
      RunKeepsInv(run[..m+1], maxAttempts);
      assert run[..m+1][m] == run[m];
      assert Follows(run[m], run[m+1], maxAttempts);
      var step :| Enabled(run[m], step) && run[m+1] == Apply(run[m], step, maxAttempts);
      StepKeepsInv(run[m], step, maxAttempts);
      forall i | 0 <= i < |run| ensures Inv(run[i], maxAttempts) {
        if i <= m { assert run[..m+1][i] == run[i]; }
      }
    }
  }

  // ---------------------------------------------------------------- the theorems

  /** No wakeup is lost: a session left reconnecting always has its news somewhere, in one place only. */
  lemma NoLostWakeup(run: seq<State>, maxAttempts: Option<nat>)
    requires IsRun(run, maxAttempts) && Init(run[0])
    ensures var s := run[|run|-1];
      s.shared.phase == RECONNECTING && !s.shared.cancel ==>
        && (s.shared.signal || s.setting != {} || s.probe.Signalling? || s.worker.Checking? || Reconnecting(s.worker))
        && Tokens(s) == 1
  {
    RunKeepsInv(run, maxAttempts);
  }

  /** Every successful CAS is answered by one reopen, or by the one DEAD, and only a teardown or the refusal of as
      many opens as are allowed leads there. */
  lemma OneReopenPerTrigger(run: seq<State>, maxAttempts: Option<nat>)
    requires IsRun(run, maxAttempts) && Init(run[0])
    ensures var s := run[|run|-1];
      && s.past.triggers == s.past.reopens + One(s.shared.phase != IDLE)
      && (s.shared.phase == DEAD ==> s.past.torn || OutOfAttempts(s, maxAttempts))
  {
    RunKeepsInv(run, maxAttempts);
  }

  /** The raw session changes only at the worker's swap, while RECONNECTING, and DEAD is for good. */
  lemma OnlyTheWorkerSwaps(run: seq<State>, maxAttempts: Option<nat>, i: nat)
    requires IsRun(run, maxAttempts) && Init(run[0]) && i + 1 < |run|
    ensures var s, s' := run[i], run[i+1];
      && (s'.shared.raw != s.shared.raw || s'.past.reopens != s.past.reopens ==>
            && s.worker.Swapping? && s.worker.raw == s'.shared.raw && s.shared.phase == RECONNECTING
            && s'.shared.phase == IDLE && s'.past.reopens == s.past.reopens + 1)
      && (s.shared.phase == DEAD ==> s'.shared.phase == DEAD && s'.shared.raw == s.shared.raw)
  {
    RunKeepsInv(run, maxAttempts);
    assert Follows(run[i], run[i+1], maxAttempts);
    var step :| Enabled(run[i], step) && run[i+1] == Apply(run[i], step, maxAttempts);
    SwapStep(run[i], step, maxAttempts);
  }

  lemma WorkerSwaps(s: State, luck: Luck, maxAttempts: Option<nat>)
    requires TriggerInv(s) && WorkerCan(s, luck)
    ensures var s' := WorkerStep(s, luck, maxAttempts);
      && (s'.shared.raw != s.shared.raw || s'.past.reopens != s.past.reopens ==>
            && s.worker.Swapping? && s.worker.raw == s'.shared.raw && s.shared.phase == RECONNECTING
            && s'.shared.phase == IDLE && s'.past.reopens == s.past.reopens + 1)
      && (s.shared.phase == DEAD ==> s'.shared.phase == DEAD && s'.shared.raw == s.shared.raw)
  {
    match s.worker
    case AtLoop =>
    case Waiting =>
    case Clearing =>
    case Checking =>
    case Vetting =>
    case Raising =>
    case LosingLink =>
    case Opening(_) =>
    case BackingOff(_) =>
    case Aborting =>
    case GivingUp =>
    case Cancelling =>
    case Swapping(_, _) =>
    case RestoreWalks =>
    case Noting =>
    case ClaimingLink =>
    case Republishing =>
    case Committing =>
    case Lowering =>
    case Exited =>
  }

  lemma ProbeNeverSwaps(s: State, luck: Luck)
    requires ProbeCan(s, luck)
    ensures var s' := ProbeStep(s, luck);
      && s'.shared.raw == s.shared.raw && s'.past.reopens == s.past.reopens
      && (s.shared.phase == DEAD ==> s'.shared.phase == DEAD)
  {
    match s.probe
    case Sleeping =>
    case TestingDead =>
    case TestingReconnecting =>
    case TestingAlive =>
    case Triggering =>
    case Signalling =>
    case TestingFlag =>
    case Polling =>
    case Deciding(_, _) =>
    case MarkingLost(_) =>
    case ClaimingRestore =>
    case Republishes =>
    case Walking =>
    case Closing =>
  }

  lemma SwapStep(s: State, step: Step, maxAttempts: Option<nat>)
    requires TriggerInv(s) && Enabled(s, step)
    ensures var s' := Apply(s, step, maxAttempts);
      && (s'.shared.raw != s.shared.raw || s'.past.reopens != s.past.reopens ==>
            && s.worker.Swapping? && s.worker.raw == s'.shared.raw && s.shared.phase == RECONNECTING
            && s'.shared.phase == IDLE && s'.past.reopens == s.past.reopens + 1)
      && (s.shared.phase == DEAD ==> s'.shared.phase == DEAD && s'.shared.raw == s.shared.raw)
  {
    match step
    case Worker(luck) => WorkerSwaps(s, luck, maxAttempts);
    case Probe(luck) => ProbeNeverSwaps(s, luck);
    case _ =>
  }

  /** The link signals that fire alternate, starting with a loss, whichever thread commits them. */
  lemma LinkSignalsAlternate(run: seq<State>, maxAttempts: Option<nat>)
    requires IsRun(run, maxAttempts) && Init(run[0])
    ensures var sh := run[|run|-1].shared;
      && Alternates(sh.fired)
      && Count(sh.fired, LinkLostFired) == Count(sh.fired, LinkRestoredFired) + One(sh.link != Up)
  {
    RunKeepsInv(run, maxAttempts);
    AlternatingCounts(run[|run|-1].shared.fired);
  }

  // ---------------------------------------------------------------- progress

  /** How far the worker is from resolving a reconnect whose news has reached it. */
  ghost function WorkerDistance(w: WorkerAt): nat {
    match w
    case Swapping(_, _) => 1
    case Aborting => 1
    case GivingUp => 1
    case Opening(_) => 2
    case BackingOff(_) => 3
    case LosingLink => 4
    case Raising => 5
    case Vetting => 6
    case Checking => 7
    case Clearing => 8
    case Waiting => 9
    case AtLoop => 10
    case Lowering => 11
    case Committing => 12
    case Republishing => 13
    case ClaimingLink => 14
    case Noting => 15
    case RestoreWalks => 16
    case Cancelling => 17
    case Exited => 18
  }

  /** Steps from a trigger's CAS to its answer: its own set, then the worker's way round. */
  ghost function Distance(s: State): nat {
    WorkerDistance(s.worker) + |s.setting| + One(s.probe.Signalling?)
  }

  /** Some trigger's reconnect is still to be answered. */
  predicate Unanswered(s: State) {
    s.shared.phase == RECONNECTING && !s.shared.cancel
  }

  /** The step is one the pending reconnect waits for. */
  predicate Carries(s: State, step: Step) {
    step.Worker? || step.SetSignal? || (step.Probe? && s.probe.Signalling?)
  }

  /** The step is a refused open. */
  predicate RefusedAt(s: State, step: Step) {
    step.Worker? && s.worker.Opening? && step.luck.Refused?
  }

  /** A pending reconnect can always move: the trigger sets, or the worker steps, and each such step is nearer. */
  lemma PendingReconnectAdvances(s: State, maxAttempts: Option<nat>) returns (step: Step)
    requires Inv(s, maxAttempts) && Unanswered(s)
    ensures Enabled(s, step) && Carries(s, step)
    ensures var s' := Apply(s, step, maxAttempts); s'.shared.phase != RECONNECTING || Distance(s') < Distance(s)
  {
    if s.setting != {} {
      var t :| t in s.setting;
      assert |s.setting - {t}| < |s.setting|;
      step := SetSignal(t);
    } else if s.probe.Signalling? {
      step := Probe(Smooth);
    } else {
      step := Worker(Opened(0, {}));
    }
  }

  lemma WorkerNeverGoesBack(s: State, luck: Luck, maxAttempts: Option<nat>)
    requires TriggerInv(s) && Unanswered(s) && WorkerCan(s, luck)
    ensures var s' := WorkerStep(s, luck, maxAttempts);
      Unanswered(s') ==> Distance(s') + 1 <= Distance(s) + 2 * One(RefusedAt(s, Worker(luck)))
  {
    match s.worker
    case AtLoop =>
    case Waiting =>
    case Clearing =>
    case Checking =>
    case Vetting =>
    case Raising =>
    case LosingLink =>
    case Opening(_) =>
    case BackingOff(_) =>
    case Aborting =>
    case GivingUp =>
    case Cancelling =>
    case Swapping(_, _) =>
    case RestoreWalks =>
    case Noting =>
    case ClaimingLink =>
    case Republishing =>
    case Committing =>
    case Lowering =>
    case Exited =>
  }

  lemma ProbeNeverGoesBack(s: State, luck: Luck)
    requires TriggerInv(s) && Unanswered(s) && ProbeCan(s, luck)
    ensures var s' := ProbeStep(s, luck);
      Unanswered(s') ==> Distance(s') + One(s.probe.Signalling?) <= Distance(s)
  {
    match s.probe
    case Sleeping =>
    case TestingDead =>
    case TestingReconnecting =>
    case TestingAlive =>
    case Triggering =>
    case Signalling =>
    case TestingFlag =>
    case Polling =>
    case Deciding(_, _) =>
    case MarkingLost(_) =>
    case ClaimingRestore =>
    case Republishes =>
    case Walking =>
    case Closing =>
  }

  /** Nothing but a refused open sends it back, whoever steps, and each step it waits for brings it nearer. */
  lemma NobodySetsItBack(s: State, step: Step, maxAttempts: Option<nat>)
    requires Inv(s, maxAttempts) && Unanswered(s) && Enabled(s, step)
    ensures var s' := Apply(s, step, maxAttempts);
      Unanswered(s') ==> Distance(s') + One(Carries(s, step)) <= Distance(s) + 2 * One(RefusedAt(s, step))
  {
    match step
    case Worker(luck) => WorkerNeverGoesBack(s, luck, maxAttempts);
    case Probe(luck) => ProbeNeverGoesBack(s, luck);
    case SetSignal(t) => assert |s.setting - {t}| == |s.setting| - 1;
    case _ =>
  }

  /** The steps are enabled one after another, and the reconnect stays unanswered throughout. */
  ghost predicate StaysUnanswered(s: State, steps: seq<Step>, maxAttempts: Option<nat>)
    decreases |steps|
  {
    && Unanswered(s)
    && (steps == [] || (
          Enabled(s, steps[0]) && StaysUnanswered(Apply(s, steps[0], maxAttempts), steps[1..], maxAttempts)))
  }

  /** How many of the steps the reconnect waits for. */
  ghost function Carrying(s: State, steps: seq<Step>, maxAttempts: Option<nat>): nat
    requires StaysUnanswered(s, steps, maxAttempts)
    decreases |steps|
  {
    if steps == [] then 0
    else One(Carries(s, steps[0])) + Carrying(Apply(s, steps[0], maxAttempts), steps[1..], maxAttempts)
  }

  ghost function Refusals(s: State, steps: seq<Step>, maxAttempts: Option<nat>): nat
    requires StaysUnanswered(s, steps, maxAttempts)
    decreases |steps|
  {
    if steps == [] then 0
    else One(RefusedAt(s, steps[0])) + Refusals(Apply(s, steps[0], maxAttempts), steps[1..], maxAttempts)
  }

  /** How many opens may yet be refused before the worker gives up. */
  function RefusalsLeft(w: WorkerAt, m: nat): nat {
    match w
    case Opening(n) => if n < Allowed(m) then Allowed(m) - n else 0
    case BackingOff(n) => if n < Allowed(m) then Allowed(m) - n else 0
    case Swapping(_, _) => 0
    case GivingUp => 0
    case _ => Allowed(m)
  }

  lemma WorkerSpendsRefusals(s: State, luck: Luck, m: nat)
    requires TriggerInv(s) && EndInv(s, Some(m)) && Unanswered(s) && WorkerCan(s, luck)
    ensures var s' := WorkerStep(s, luck, Some(m));
      Unanswered(s') ==> RefusalsLeft(s'.worker, m) + One(RefusedAt(s, Worker(luck))) <= RefusalsLeft(s.worker, m)
  {
    match s.worker
    case AtLoop =>
    case Waiting =>
    case Clearing =>
    case Checking =>
    case Vetting =>
    case Raising =>
    case LosingLink =>
    case Opening(_) =>
    case BackingOff(_) =>
    case Aborting =>
    case GivingUp =>
    case Cancelling =>
    case Swapping(_, _) =>
    case RestoreWalks =>
    case Noting =>
    case ClaimingLink =>
    case Republishing =>
    case Committing =>
    case Lowering =>
    case Exited =>
  }

  lemma OthersLeaveTheWorker(s: State, step: Step, maxAttempts: Option<nat>)
    requires Enabled(s, step) && !step.Worker?
    ensures Apply(s, step, maxAttempts).worker == s.worker
  {
    match step
    case Probe(luck) => ProbeLeavesTheWorker(s, luck);
    case _ =>
  }

  lemma ProbeLeavesTheWorker(s: State, luck: Luck)
    requires ProbeCan(s, luck)
    ensures ProbeStep(s, luck).worker == s.worker
  {
  }

  lemma {:induction false} RefusalsAreFew(s: State, steps: seq<Step>, m: nat)
    requires Inv(s, Some(m)) && StaysUnanswered(s, steps, Some(m))
    ensures Refusals(s, steps, Some(m)) <= RefusalsLeft(s.worker, m)
    decreases |steps|
  {
    if steps != [] {
      StepKeepsInv(s, steps[0], Some(m));
      RefusalsAreFew(Apply(s, steps[0], Some(m)), steps[1..], m);
      if steps[0].Worker? {
        WorkerSpendsRefusals(s, steps[0].luck, m);
      } else {
        OthersLeaveTheWorker(s, steps[0], Some(m));
      }
    }
  }

  /** Whatever the schedule, a reconnect stays unanswered for only so many of the steps it waits for, and two more for
      each refused open; and with a bound on the attempts for only so many in all. */
  lemma EveryScheduleAnswers(s: State, steps: seq<Step>, maxAttempts: Option<nat>)
    requires Inv(s, maxAttempts) && StaysUnanswered(s, steps, maxAttempts)
    ensures Carrying(s, steps, maxAttempts) <= Distance(s) + 2 * Refusals(s, steps, maxAttempts)
    ensures maxAttempts.Some? ==> Carrying(s, steps, maxAttempts) <= Distance(s) + 2 * Allowed(maxAttempts.value)
  {
    CarryingIsBounded(s, steps, maxAttempts);
    if maxAttempts.Some? {
      RefusalsAreFew(s, steps, maxAttempts.value);
    }
  }

  lemma {:induction false} CarryingIsBounded(s: State, steps: seq<Step>, maxAttempts: Option<nat>)
    requires Inv(s, maxAttempts) && StaysUnanswered(s, steps, maxAttempts)
    ensures Carrying(s, steps, maxAttempts) <= Distance(s) + 2 * Refusals(s, steps, maxAttempts)
    decreases |steps|
  {
    if steps != [] {
      NobodySetsItBack(s, steps[0], maxAttempts);
      StepKeepsInv(s, steps[0], maxAttempts);
      CarryingIsBounded(Apply(s, steps[0], maxAttempts), steps[1..], maxAttempts);
    }
  }

  // ---------------------------------------------------------------- what the restoring flag keeps out

  /** During a reconnect the probe works on the link only if it had passed its flag test before the flag went up. */
  lemma FlagKeepsTheProbeOut(run: seq<State>, maxAttempts: Option<nat>)
    requires IsRun(run, maxAttempts) && Init(run[0])
    ensures var s := run[|run|-1]; FlagUp(s.worker) && InLinkWork(s.probe) ==> s.past.early
  {
    RunKeepsInv(run, maxAttempts);
  }
}
