/** A torn-down session winds down, whatever its threads were at, and a reconnect taken on is resolved
    (zeared/_reconnect/_reconnect.py, zeared/_reconnect/_restore.py). */
module Shutdown {
  import opened ManagedSession
  import opened Reconnect
  import opened Wrappers

  // ---------------------------------------------------------------- both threads end

  /** How many steps the worker may still take once the cancel Event is set. */
  function WorkerLeft(w: WorkerAt): nat {
    match w
    case Exited => 0
    case AtLoop => 1
    case Checking => 1
    case Lowering => 2
    case Clearing => 2
    case Committing => 3
    case Aborting => 3
    case Cancelling => 3
    case Waiting => 3
    case Republishing => 4
    case GivingUp => 4
    case BackingOff(_) => 4
    case ClaimingLink => 5
    case Noting => 6
    case RestoreWalks => 7
    case Swapping(_, _) => 8
    case Opening(_) => 9
    case LosingLink => 10
    case Raising => 11
    case Vetting => 12
  }

  function ProbeLeft(p: ProbeAt): nat {
    match p
    case Stopped => 0
    case Sleeping => 1
    case Signalling => 2
    case Closing => 2
    case Triggering => 3
    case Walking => 3
    case Republishes => 4
    case ClaimingRestore => 5
    case MarkingLost(_) => 6
    case Deciding(_, _) => 7
    case Polling => 8
    case TestingFlag => 9
    case TestingAlive => 10
    case TestingReconnecting => 11
    case TestingDead => 12
  }

  function Left(s: State): nat {
    WorkerLeft(s.worker) + ProbeLeft(s.probe)
  }

  predicate OfThread(step: Step) {
    step.Worker? || step.Probe?
  }

  lemma WorkerWindsDown(s: State, luck: Luck, maxAttempts: Option<nat>)
    requires s.shared.cancel && WorkerCan(s, luck)
    ensures var s' := WorkerStep(s, luck, maxAttempts);
      s'.shared.cancel && s'.probe == s.probe && WorkerLeft(s'.worker) < WorkerLeft(s.worker)
  {
    match s.worker
    case AtLoop =>
    case Waiting =>
    case Clearing =>
    case Checking =>
    case Vetting =>
    case Raising =>
    case LosingLink =>
    case Opening(_) =>
    case BackingOff(_) =>
    case Aborting =>
    case GivingUp =>
    case Cancelling =>
    case Swapping(_, _) =>
    case RestoreWalks =>
    case Noting =>
    case ClaimingLink =>
    case Republishing =>
    case Committing =>
    case Lowering =>
  }

  lemma ProbeWindsDown(s: State, luck: Luck)
    requires s.shared.cancel && ProbeCan(s, luck)
    ensures var s' := ProbeStep(s, luck);
      s'.shared.cancel && s'.worker == s.worker && ProbeLeft(s'.probe) < ProbeLeft(s.probe)
  {
    match s.probe
    case Sleeping =>
    case TestingDead =>
    case TestingReconnecting =>
    case TestingAlive =>
    case Triggering =>
    case Signalling =>
    case TestingFlag =>
    case Polling =>
    case Deciding(_, _) =>
    case MarkingLost(_) =>
    case ClaimingRestore =>
    case Republishes =>
    case Walking =>
    case Closing =>
  }

  lemma StepWindsDown(s: State, step: Step, maxAttempts: Option<nat>)
    requires s.shared.cancel && Enabled(s, step)
    ensures var s' := Apply(s, step, maxAttempts);
      s'.shared.cancel && Left(s') + One(OfThread(step)) <= Left(s)
  {
    match step
    case Worker(luck) => WorkerWindsDown(s, luck, maxAttempts);
    case Probe(luck) => ProbeWindsDown(s, luck);
    case _ =>
  }

  /** The steps are enabled one after another. */
  ghost predicate IsSchedule(s: State, steps: seq<Step>, maxAttempts: Option<nat>)
    decreases |steps|
  {
    steps != [] ==> Enabled(s, steps[0]) && IsSchedule(Apply(s, steps[0], maxAttempts), steps[1..], maxAttempts)
  }

  ghost function End(s: State, steps: seq<Step>, maxAttempts: Option<nat>): State
    requires IsSchedule(s, steps, maxAttempts)
    decreases |steps|
  {
    if steps == [] then s else End(Apply(s, steps[0], maxAttempts), steps[1..], maxAttempts)
  }

  function ThreadSteps(steps: seq<Step>): nat {
    if steps == [] then 0 else One(OfThread(steps[0])) + ThreadSteps(steps[1..])
  }

  /** A set signal, or a teardown about to set it, waits for a worker that waits. */
  ghost predicate StopInv(s: State) {
    s.shared.cancel && s.worker.Waiting? ==> s.shared.signal || s.tearing > 0
  }

  lemma StepKeepsStopInv(s: State, step: Step, maxAttempts: Option<nat>)
    requires TriggerInv(s) && StopInv(s) && Enabled(s, step)
    ensures StopInv(Apply(s, step, maxAttempts))
  {
    match step
    case Worker(luck) => WorkerKeepsStopInv(s, luck, maxAttempts);
    case Probe(luck) => ProbeKeepsStopInv(s, luck);
    case _ =>
  }

  lemma WorkerKeepsStopInv(s: State, luck: Luck, maxAttempts: Option<nat>)
    requires WorkerCan(s, luck)
    ensures var s' := WorkerStep(s, luck, maxAttempts); s'.shared.cancel ==> !s'.worker.Waiting?
  {
  }

  lemma ProbeKeepsStopInv(s: State, luck: Luck)
    requires StopInv(s) && ProbeCan(s, luck)
    ensures StopInv(ProbeStep(s, luck))
  {
  }

  lemma {:induction false} ScheduleWindsDown(s: State, steps: seq<Step>, maxAttempts: Option<nat>)
    requires Inv(s, maxAttempts) && StopInv(s) && s.shared.cancel && IsSchedule(s, steps, maxAttempts)
    ensures var s' := End(s, steps, maxAttempts);
      && StopInv(s') && s'.shared.cancel && ThreadSteps(steps) + Left(s') <= Left(s)
    decreases |steps|
  {
    if steps != [] {
      StepWindsDown(s, steps[0], maxAttempts);
      StepKeepsStopInv(s, steps[0], maxAttempts);
      StepKeepsInv(s, steps[0], maxAttempts);
      ScheduleWindsDown(Apply(s, steps[0], maxAttempts), steps[1..], maxAttempts);
    }
  }

  /** Nothing of the session's own is left to do: no thread can step, no teardown is halfway. */
  ghost predicate Still(s: State) {
    forall step :: OfThread(step) || step.EndTeardown? ==> !Enabled(s, step)
  }

  lemma StillMeansEnded(s: State)
    requires StopInv(s) && s.shared.cancel && Still(s)
    ensures s.worker.Exited? && s.probe.Stopped?
  {
    assert !Enabled(s, EndTeardown);
    assert !Enabled(s, Worker(Refused));
    assert !Enabled(s, Probe(Dead(false)));
  }

  lemma {:induction false} RunKeepsStopInv(run: seq<State>, maxAttempts: Option<nat>)
    requires IsRun(run, maxAttempts) && Init(run[0])
    ensures forall i :: 0 <= i < |run| ==> StopInv(run[i])
  {
    if |run| > 1 {
      var m := |run| - 2;
      RunKeepsStopInv(run[..m+1], maxAttempts);
      RunKeepsInv(run, maxAttempts);
      assert run[..m+1][m] == run[m];
      assert Follows(run[m], run[m+1], maxAttempts);
      var step :| Enabled(run[m], step) && run[m+1] == Apply(run[m], step, maxAttempts);
      StepKeepsStopInv(run[m], step, maxAttempts);
      forall i | 0 <= i < |run| ensures StopInv(run[i]) {
        if i <= m { assert run[..m+1][i] == run[i]; }
      }
    }
  }

  /** Wherever a teardown finds the two threads, even backing off with no bound on the attempts, every schedule from
      there has at most two dozen of their steps, and one that leaves nothing to do has ended both. */
  lemma EveryScheduleWindsDown(run: seq<State>, steps: seq<Step>, maxAttempts: Option<nat>)
    requires IsRun(run, maxAttempts) && Init(run[0])
    requires run[|run|-1].shared.cancel && IsSchedule(run[|run|-1], steps, maxAttempts)
    ensures ThreadSteps(steps) <= 24
    ensures var s := End(run[|run|-1], steps, maxAttempts); Still(s) ==> s.worker.Exited? && s.probe.Stopped?
  {
    RunKeepsInv(run, maxAttempts);
    RunKeepsStopInv(run, maxAttempts);
    ScheduleWindsDown(run[|run|-1], steps, maxAttempts);
    var s := End(run[|run|-1], steps, maxAttempts);
    if Still(s) {
      StillMeansEnded(s);
    }
  }

  // ---------------------------------------------------------------- a reconnect taken on is resolved

  lemma WorkerResolves(s: State, luck: Luck, maxAttempts: Option<nat>)
    requires Inv(s, maxAttempts) && WorkerCan(s, luck) && Reconnecting(s.worker)
    ensures var s' := WorkerStep(s, luck, maxAttempts);
      || Reconnecting(s'.worker)
      || (s'.past.reopens == s.past.reopens + 1 && s'.shared.phase == IDLE)
      || (s'.shared.phase == DEAD && (s.shared.cancel || OutOfAttempts(s, maxAttempts)))
  {
    match s.worker
    case Vetting =>
    case Raising =>
    case LosingLink =>
    case Opening(_) =>
    case BackingOff(_) =>
    case Aborting =>
    case GivingUp =>
    case Swapping(_, _) =>
  }

  /** The worker leaves a reconnect it has taken on with the session reopened, or DEAD because it was cancelled or out
      of attempts: never still RECONNECTING. */
  lemma EachReconnectIsResolved(run: seq<State>, maxAttempts: Option<nat>, i: nat)
    requires IsRun(run, maxAttempts) && Init(run[0]) && i + 1 < |run|
    requires Reconnecting(run[i].worker) && !Reconnecting(run[i+1].worker)
    ensures var s, s' := run[i], run[i+1];
      || (s'.past.reopens == s.past.reopens + 1 && s'.shared.phase == IDLE)
      || (s'.shared.phase == DEAD && (s.shared.cancel || OutOfAttempts(s, maxAttempts)))
  {
    RunKeepsInv(run, maxAttempts);
    assert Follows(run[i], run[i+1], maxAttempts);
    var step :| Enabled(run[i], step) && run[i+1] == Apply(run[i], step, maxAttempts);
    if step.Worker? {
      WorkerResolves(run[i], step.luck, maxAttempts);
    } else {
      OthersLeaveTheWorker(run[i], step, maxAttempts);
    }
  }

  // ---------------------------------------------------------------- no tick on a session that is down

  /** Where a probe that has not begun a tick can be while the session is not IDLE. */
  predicate AtHead(phase: Phase, p: ProbeAt) {
    p.Sleeping? || p.TestingDead? || p.Stopped? || (phase == RECONNECTING && p.TestingReconnecting?)
  }

  ghost predicate StaysIn(s: State, steps: seq<Step>, phase: Phase, maxAttempts: Option<nat>)
    requires IsSchedule(s, steps, maxAttempts)
    decreases |steps|
  {
    && s.shared.phase == phase
    && (steps != [] ==> StaysIn(Apply(s, steps[0], maxAttempts), steps[1..], phase, maxAttempts))
  }

  lemma StepStaysAtHead(s: State, step: Step, maxAttempts: Option<nat>)
    requires Enabled(s, step) && s.shared.phase != IDLE && AtHead(s.shared.phase, s.probe)
    ensures AtHead(s.shared.phase, Apply(s, step, maxAttempts).probe)
  {
  }

  /** While the session stays RECONNECTING, or DEAD, the probe begins no tick. */
  lemma {:induction false} NoTickWhileDown(s: State, steps: seq<Step>, phase: Phase, maxAttempts: Option<nat>)
    requires IsSchedule(s, steps, maxAttempts) && StaysIn(s, steps, phase, maxAttempts)
    requires phase != IDLE && AtHead(phase, s.probe)
    ensures var s' := End(s, steps, maxAttempts); AtHead(phase, s'.probe) && !InLinkWork(s'.probe)
    decreases |steps|
  {
    if steps != [] {
      StepStaysAtHead(s, steps[0], maxAttempts);
      NoTickWhileDown(Apply(s, steps[0], maxAttempts), steps[1..], phase, maxAttempts);
    }
  }
}
