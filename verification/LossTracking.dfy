/** Which losses of the router link are made good: a loss owes a republish and a retained fetch, and the
    baseline of the probe's ticks decides whether they come
    (zeared/_reconnect/_link.py, zeared/_reconnect/_reconnect.py). */
module LossTracking {
  import opened Link
  import opened ManagedSession
  import opened Reconnect
  import opened Wrappers

  // ---------------------------------------------------------------- more of what every run keeps

  /** The worker has lost the link and not yet claimed it back. */
  predicate BetweenClaims(w: WorkerAt) {
    || w.Opening? || w.BackingOff? || w.Aborting? || w.GivingUp? || w.Cancelling? || w.Swapping?
    || w.RestoreWalks? || w.Noting? || w.ClaimingLink?
  }

  ghost predicate ClaimInv(s: State) {
    && (s.shared.link == LinkState.Restoring ==>
          || s.worker.Republishing? || s.worker.Committing?
          || s.probe.Republishes? || s.probe.Walking? || s.probe.Closing?)
    && (BetweenClaims(s.worker)
        && (s.probe.Polling? || s.probe.Deciding? || s.probe.MarkingLost? || s.probe.ClaimingRestore?) ==>
          s.shared.link == Lost)
    && (s.probe.Stopped? ==> s.shared.cancel || s.shared.phase == DEAD)
  }

  lemma TakingOnKeepsClaimInv(s: State, luck: Luck, maxAttempts: Option<nat>)
    requires LinkInv(s) && ClaimInv(s) && WorkerCan(s, luck) && TakingOn(s.worker)
    ensures ClaimInv(WorkerStep(s, luck, maxAttempts))
  {
    match s.worker
    case AtLoop =>
    case Waiting =>
    case Clearing =>
    case Checking =>
    case Vetting =>
    case Raising =>
    case LosingLink =>
  }

  lemma OpeningKeepsClaimInv(s: State, luck: Luck, maxAttempts: Option<nat>)
    requires TriggerInv(s) && ClaimInv(s) && WorkerCan(s, luck) && !TakingOn(s.worker) && !Restores(s.worker)
    ensures ClaimInv(WorkerStep(s, luck, maxAttempts))
  {
    match s.worker
    case Opening(_) =>
    case BackingOff(_) =>
    case Aborting =>
    case GivingUp =>
    case Cancelling =>
  }

  lemma RestoringKeepsClaimInv(s: State, luck: Luck, maxAttempts: Option<nat>)
    requires ClaimInv(s) && WorkerCan(s, luck) && Restores(s.worker)
    requires s.worker.Swapping? ==> s.shared.phase == RECONNECTING
    ensures ClaimInv(WorkerStep(s, luck, maxAttempts))
  {
    match s.worker
    case Swapping(_, _) =>
    case RestoreWalks =>
    case Noting =>
    case ClaimingLink =>
    case Republishing =>
    case Committing =>
    case Lowering =>
  }

  lemma ProbeKeepsClaimInv(s: State, luck: Luck)
    requires LinkInv(s) && ClaimInv(s) && ProbeCan(s, luck)
    ensures ClaimInv(ProbeStep(s, luck))
  {
    match s.probe
    case Sleeping =>
    case TestingDead =>
    case TestingReconnecting =>
    case TestingAlive =>
    case Triggering =>
    case Signalling =>
    case TestingFlag =>
    case Polling =>
    case Deciding(_, _) =>
    case MarkingLost(_) =>
    case ClaimingRestore =>
    case Republishes =>
    case Walking =>
    case Closing =>
  }

  ghost predicate Reachable(s: State, maxAttempts: Option<nat>) {
    Inv(s, maxAttempts) && ClaimInv(s)
  }

  lemma StepStaysReachable(s: State, step: Step, maxAttempts: Option<nat>)
    requires Reachable(s, maxAttempts) && Enabled(s, step)
    ensures Reachable(Apply(s, step, maxAttempts), maxAttempts)
  {
    StepKeepsInv(s, step, maxAttempts);
    if step.Worker? {
      if TakingOn(s.worker) {
        TakingOnKeepsClaimInv(s, step.luck, maxAttempts);
      } else if Restores(s.worker) {
        RestoringKeepsClaimInv(s, step.luck, maxAttempts);
      } else {
        OpeningKeepsClaimInv(s, step.luck, maxAttempts);
      }
    } else if step.Probe? {
      ProbeKeepsClaimInv(s, step.luck);
    }
  }

  lemma {:induction false} RunIsReachable(run: seq<State>, maxAttempts: Option<nat>)
    requires IsRun(run, maxAttempts) && Init(run[0])
    ensures forall i :: 0 <= i < |run| ==> Reachable(run[i], maxAttempts)
  {
    RunKeepsInv(run, maxAttempts);
    if |run| > 1 {
      var m := |run| - 2;
      RunIsReachable(run[..m+1], maxAttempts);
      assert run[..m+1][m] == run[m];
      assert Follows(run[m], run[m+1], maxAttempts);
      var step :| Enabled(run[m], step) && run[m+1] == Apply(run[m], step, maxAttempts);
      StepStaysReachable(run[m], step, maxAttempts);
      forall i | 0 <= i < |run| ensures Reachable(run[i], maxAttempts) {
        if i <= m { assert run[..m+1][i] == run[i]; }
      }
    }
  }

  // ---------------------------------------------------------------- what keeps track of a loss

  datatype Side = Push | Pull

  predicate Owes(side: Side, s: State) {
    if side.Push? then s.owed.push else s.owed.pull
  }

  /** A probe here still has `side` to do. */
  predicate Brings(side: Side, p: ProbeAt) {
    p.Republishes? || (side.Pull? && p.Walking?)
  }

  /** The tick's verdict will be a loss: the link is up, or will be once the worker commits. */
  predicate WillSeeLoss(s: State) {
    && s.probe.Deciding? && Gap(s.probe.before, s.probe.zids)
    && (s.shared.link == Up || s.worker.Republishing? || s.worker.Committing?)
  }

  /** Some thread already knows of a loss that the retained values have to be pushed out for. */
  predicate Known(s: State) {
    s.worker.Republishing? || s.probe.Republishes? || s.shared.link == Lost || s.probe.MarkingLost? || WillSeeLoss(s)
  }

  /** The worker is about to replace the baseline. */
  predicate BaselineDue(w: WorkerAt) {
    w.RestoreWalks? || w.Noting?
  }

  /** The next tick will find no router of the baseline left. */
  predicate Watched(s: State) {
    !BaselineDue(s.worker) && Gap(s.shared.routers, s.zids)
  }

  predicate Tracked(s: State) {
    s.shared.phase != IDLE || Known(s) || Watched(s)
  }

  /** The steps that drop a loss. */
  predicate LosesTrack(s: State, step: Step) {
    var sh := s.shared;
    match step
    // It comes back through a router of the baseline: no tick sees it was gone.
    case Attach(zids) => sh.phase == IDLE && !Known(s) && sh.routers * zids != {}
    // A router of the baseline joins before the tick that would have missed them all.
    case Drift(zids) => sh.phase == IDLE && !Known(s) && !Gap(sh.routers, zids)
    // There is no baseline to miss a router of, or the worker is about to replace it.
    case Detach => sh.phase == IDLE && !Known(s) && (sh.routers == {} || BaselineDue(s.worker))
    case Worker(_) =>
      // An early probe has taken the restore, so the worker's claim will find no lost link.
      || (s.worker.Swapping? && sh.link != Lost && !s.probe.Republishes?)
      // The republish goes to nobody, and the baseline the worker noted is empty.
      || (sh.phase == IDLE && s.worker.Republishing? && s.zids == {} && sh.routers == {}
          && !Known(s.(worker := Committing)))
    case Probe(_) =>
      // An early probe's tick moved the baseline past the loss, and decides while the worker is restoring.
      || (sh.phase == IDLE && s.worker.Committing? && sh.link == LinkState.Restoring && WillSeeLoss(s) && !Watched(s))
      // The probe's republish goes to nobody, and no tick will see why.
      || (sh.phase == IDLE && s.probe.Republishes? && s.zids == {} && sh.link != Lost && !s.worker.Republishing?
          && !Watched(s))
    case _ => false
  }

  lemma WorkerLosesTrackExactly(s: State, luck: Luck, maxAttempts: Option<nat>)
    requires Reachable(s, maxAttempts) && WorkerCan(s, luck)
    requires WorkerStep(s, luck, maxAttempts).owed.push && (Tracked(s) || !s.owed.push)
    ensures Tracked(WorkerStep(s, luck, maxAttempts)) <==> !LosesTrack(s, Worker(luck))
  {
    match s.worker
    case AtLoop =>
    case Waiting =>
    case Clearing =>
    case Checking =>
    case Vetting =>
    case Raising =>
    case LosingLink =>
    case Opening(_) =>
    case BackingOff(_) =>
    case Aborting =>
    case GivingUp =>
    case Cancelling =>
    case Swapping(_, _) =>
    case RestoreWalks =>
    case Noting =>
    case ClaimingLink =>
    case Republishing =>
    case Committing =>
    case Lowering =>
  }

  lemma ProbeLosesTrackExactly(s: State, luck: Luck, maxAttempts: Option<nat>)
    requires Reachable(s, maxAttempts) && ProbeCan(s, luck)
    requires ProbeStep(s, luck).owed.push && (Tracked(s) || !s.owed.push)
    ensures Tracked(ProbeStep(s, luck)) <==> !LosesTrack(s, Probe(luck))
  {
    match s.probe
    case Sleeping =>
    case TestingDead =>
    case TestingReconnecting =>
    case TestingAlive =>
    case Triggering =>
    case Signalling =>
    case TestingFlag =>
    case Polling =>
    case Deciding(_, _) =>
    case MarkingLost(_) =>
    case ClaimingRestore =>
    case Republishes =>
    case Walking =>
    case Closing =>
  }

  /** A step drops a loss exactly when it is one of those. */
  lemma TrackIsLostExactly(s: State, step: Step, maxAttempts: Option<nat>)
    requires Reachable(s, maxAttempts) && Enabled(s, step)
    requires Apply(s, step, maxAttempts).owed.push && (Tracked(s) || !s.owed.push)
    ensures Tracked(Apply(s, step, maxAttempts)) <==> !LosesTrack(s, step)
  {
    if step.Worker? {
      WorkerLosesTrackExactly(s, step.luck, maxAttempts);
    } else if step.Probe? {
      ProbeLosesTrackExactly(s, step.luck, maxAttempts);
    }
  }

  /** The step is one of those, and it leaves a republish owed. */
  predicate DropsPush(s: State, step: Step, maxAttempts: Option<nat>)
    requires Enabled(s, step)
  {
    Apply(s, step, maxAttempts).owed.push && LosesTrack(s, step)
  }

  /** A run none of whose steps drops a loss. */
  ghost predicate KeepsTrack(run: seq<State>, maxAttempts: Option<nat>) {
    && run != []
    && forall i :: 0 <= i < |run| - 1 ==> FollowsTracked(run[i], run[i+1], maxAttempts)
  }

  ghost predicate FollowsTracked(s: State, s': State, maxAttempts: Option<nat>) {
    exists step :: Enabled(s, step) && !DropsPush(s, step, maxAttempts) && s' == Apply(s, step, maxAttempts)
  }

  lemma {:induction false} TrackKept(run: seq<State>, maxAttempts: Option<nat>)
    requires KeepsTrack(run, maxAttempts) && Init(run[0])
    ensures var s := run[|run|-1]; Reachable(s, maxAttempts) && (s.owed.push ==> Tracked(s))
  {
    if |run| > 1 {
      var m := |run| - 2;
      TrackKept(run[..m+1], maxAttempts);
      assert run[..m+1][m] == run[m];
      assert FollowsTracked(run[m], run[m+1], maxAttempts);
      var step :| Enabled(run[m], step) && !DropsPush(run[m], step, maxAttempts)
        && run[m+1] == Apply(run[m], step, maxAttempts);
      StepStaysReachable(run[m], step, maxAttempts);
      if run[m+1].owed.push {
        TrackIsLostExactly(run[m], step, maxAttempts);
      }
    }
  }

  // ---------------------------------------------------------------- quiet runs

  /** Attached, alive and with no reconnect asked for. */
  predicate Calm(s: State) {
    s.shared.phase == IDLE && !s.shared.cancel && s.zids != {} && !s.probe.Triggering?
  }

  /** The threads' own steps, with nothing failing. */
  predicate Quiet(step: Step) {
    (step.Worker? || step.Probe?) && (step.luck == Smooth || step.luck == Dead(false))
  }

  ghost predicate QuietRun(s: State, steps: seq<Step>, maxAttempts: Option<nat>)
    decreases |steps|
  {
    steps == [] || (
      && Enabled(s, steps[0]) && Quiet(steps[0])
      && QuietRun(Apply(s, steps[0], maxAttempts), steps[1..], maxAttempts))
  }

  /** Somewhere along the steps `side` is made good. */
  ghost predicate MadeGood(side: Side, s: State, steps: seq<Step>, maxAttempts: Option<nat>)
    requires QuietRun(s, steps, maxAttempts)
    decreases |steps|
  {
    !Owes(side, s) || (steps != [] && MadeGood(side, Apply(s, steps[0], maxAttempts), steps[1..], maxAttempts))
  }

  /** The steps are a quiet run that makes `side` good. */
  ghost predicate MakesGood(side: Side, s: State, steps: seq<Step>, maxAttempts: Option<nat>) {
    QuietRun(s, steps, maxAttempts) && MadeGood(side, s, steps, maxAttempts)
  }

  function ProbeSteps(steps: seq<Step>): nat {
    if steps == [] then 0 else (if steps[0].Probe? then 1 else 0) + ProbeSteps(steps[1..])
  }

  lemma QuietStaysCalm(s: State, step: Step, maxAttempts: Option<nat>)
    requires Reachable(s, maxAttempts) && Calm(s) && Enabled(s, step) && Quiet(step)
    ensures Calm(Apply(s, step, maxAttempts)) && Apply(s, step, maxAttempts).zids == s.zids
    ensures step.Worker? && AtEase(s.worker) ==> AtEase(Apply(s, step, maxAttempts).worker)
    ensures step.Probe? ==> Apply(s, step, maxAttempts).worker == s.worker
  {
    if step.Worker? {
      assert Tokens(s) == 0;
      WorkerStaysCalm(s, step.luck, maxAttempts);
    } else {
      ProbeStaysCalm(s, step.luck);
    }
  }

  /** The worker is out of any reconnect. */
  predicate AtEase(w: WorkerAt) {
    w.AtLoop? || w.Waiting?
  }

  lemma WorkerStaysCalm(s: State, luck: Luck, maxAttempts: Option<nat>)
    requires TriggerInv(s) && Calm(s) && Tokens(s) == 0 && WorkerCan(s, luck)
    ensures var s' := WorkerStep(s, luck, maxAttempts);
      && Calm(s') && s'.zids == s.zids && s'.probe == s.probe
      && (AtEase(s.worker) ==> AtEase(s'.worker) && s'.shared == s.shared && s'.owed == s.owed)
  {
    match s.worker
    case AtLoop =>
    case RestoreWalks =>
    case Noting =>
    case ClaimingLink =>
    case Republishing =>
    case Committing =>
    case Lowering =>
    case Waiting =>
    case _ =>
  }

  lemma ProbeStaysCalm(s: State, luck: Luck)
    requires TriggerInv(s) && Calm(s) && ProbeCan(s, luck) && (luck == Smooth || luck == Dead(false))
    ensures var s' := ProbeStep(s, luck); Calm(s') && s'.zids == s.zids && s'.worker == s.worker
  {
    match s.probe
    case Sleeping =>
    case TestingDead =>
    case TestingReconnecting =>
    case TestingAlive =>
    case Triggering =>
    case Signalling =>
    case TestingFlag =>
    case Polling =>
    case Deciding(_, _) =>
    case MarkingLost(_) =>
    case ClaimingRestore =>
    case Republishes =>
    case Walking =>
    case Closing =>
  }

  // ---------------------------------------------------------------- out of a reconnect: both debts

  /** With the worker at ease: some thread or the next tick knows of a loss that `side` is owed for. */
  predicate TrackedAtEase(side: Side, s: State) {
    || s.shared.link == Lost || Gap(s.shared.routers, s.zids)
    || s.probe.MarkingLost? || Brings(side, s.probe)
    || (s.probe.Deciding? && Gap(s.probe.before, s.probe.zids) && s.shared.link == Up)
  }

  /** How many probe steps a tracked debt is from being made good, at most. */
  function StepsLeft(side: Side, s: State): nat {
    var brings := if side.Push? then 1 else 2;
    var tick := if s.shared.link == Lost then brings + 3 else brings + 4;
    match s.probe
    case Walking => if side.Pull? then 1 else 7 + brings + 4
    case Republishes => brings
    case ClaimingRestore => if s.shared.link == Lost then brings + 1 else 6 + tick
    case MarkingLost(back) => if back then brings + 2 else 6 + brings + 3
    case Deciding(before, zids) =>
      (match Judge(s.shared.link, before, zids)
       case Return => if s.shared.link == Lost then brings + 2 else 8 + tick
       case Bounce => brings + 3
       case Loss => 7 + brings + 3
       case Steady => 6 + tick)
    case Polling => tick
    case TestingFlag => 1 + tick
    case TestingAlive => 2 + tick
    case TestingReconnecting => 3 + tick
    case TestingDead => 4 + tick
    case Sleeping => 5 + tick
    case Closing => 6 + brings + 4
    case _ => 0
  }

  const LONGEST: nat := 16

  lemma StepsAreFew(side: Side, s: State)
    ensures StepsLeft(side, s) <= LONGEST
  {
  }

  /** Each quiet step of the probe brings a tracked debt nearer, and none of the worker's sets it back. */
  lemma ProbeNears(side: Side, s: State, luck: Luck, maxAttempts: Option<nat>)
    requires Reachable(s, maxAttempts) && Calm(s) && AtEase(s.worker)
    requires ProbeCan(s, luck) && (luck == Smooth || luck == Dead(false))
    requires Owes(side, s) && TrackedAtEase(side, s)
    ensures var s' := ProbeStep(s, luck);
      Owes(side, s') ==> TrackedAtEase(side, s') && StepsLeft(side, s') < StepsLeft(side, s)
  {
    match s.probe
    case Sleeping =>
    case TestingDead =>
    case TestingReconnecting =>
    case TestingAlive =>
    case Triggering =>
    case Signalling =>
    case TestingFlag =>
    case Polling =>
    case Deciding(_, _) =>
    case MarkingLost(_) =>
    case ClaimingRestore =>
    case Republishes =>
    case Walking =>
    case Closing =>
  }

  /** And a debt nothing tracks is never made good. */
  lemma ProbeNeverBrings(side: Side, s: State, luck: Luck, maxAttempts: Option<nat>)
    requires Reachable(s, maxAttempts) && Calm(s) && AtEase(s.worker)
    requires ProbeCan(s, luck) && (luck == Smooth || luck == Dead(false))
    requires Owes(side, s) && !TrackedAtEase(side, s)
    ensures var s' := ProbeStep(s, luck); Owes(side, s') && !TrackedAtEase(side, s')
  {
    match s.probe
    case Sleeping =>
    case TestingDead =>
    case TestingReconnecting =>
    case TestingAlive =>
    case Triggering =>
    case Signalling =>
    case TestingFlag =>
    case Polling =>
    case Deciding(_, _) =>
    case MarkingLost(_) =>
    case ClaimingRestore =>
    case Republishes =>
    case Walking =>
    case Closing =>
  }

  lemma {:induction false} TrackedIsMadeGood(side: Side, s: State, steps: seq<Step>, maxAttempts: Option<nat>)
    requires Reachable(s, maxAttempts) && Calm(s) && AtEase(s.worker) && Owes(side, s) && TrackedAtEase(side, s)
    requires QuietRun(s, steps, maxAttempts) && ProbeSteps(steps) >= StepsLeft(side, s)
    ensures MadeGood(side, s, steps, maxAttempts)
    decreases |steps|
  {
    if steps == [] {
      SomeStepLeft(side, s, maxAttempts);
    } else {
      var s' := Apply(s, steps[0], maxAttempts);
      QuietStaysCalm(s, steps[0], maxAttempts);
      StepStaysReachable(s, steps[0], maxAttempts);
      if steps[0].Probe? {
        ProbeNears(side, s, steps[0].luck, maxAttempts);
      } else {
        WorkerIdles(side, s, steps[0].luck, maxAttempts);
      }
      if Owes(side, s') {
        TrackedIsMadeGood(side, s', steps[1..], maxAttempts);
      }
    }
  }

  lemma SomeStepLeft(side: Side, s: State, maxAttempts: Option<nat>)
    requires Reachable(s, maxAttempts) && Calm(s)
    ensures StepsLeft(side, s) > 0
  {
    assert Tokens(s) == 0;
  }

  lemma WorkerIdles(side: Side, s: State, luck: Luck, maxAttempts: Option<nat>)
    requires Reachable(s, maxAttempts) && Calm(s) && AtEase(s.worker) && WorkerCan(s, luck)
    ensures var s' := WorkerStep(s, luck, maxAttempts);
      && Owes(side, s') == Owes(side, s) && TrackedAtEase(side, s') == TrackedAtEase(side, s)
      && StepsLeft(side, s') == StepsLeft(side, s)
  {
    assert Tokens(s) == 0;
    WorkerStaysCalm(s, luck, maxAttempts);
  }

  lemma {:induction false} UntrackedIsNever(side: Side, s: State, steps: seq<Step>, maxAttempts: Option<nat>)
    requires Reachable(s, maxAttempts) && Calm(s) && AtEase(s.worker) && Owes(side, s) && !TrackedAtEase(side, s)
    requires QuietRun(s, steps, maxAttempts)
    ensures !MadeGood(side, s, steps, maxAttempts)
    decreases |steps|
  {
    if steps != [] {
      var s' := Apply(s, steps[0], maxAttempts);
      QuietStaysCalm(s, steps[0], maxAttempts);
      StepStaysReachable(s, steps[0], maxAttempts);
      if steps[0].Probe? {
        ProbeNeverBrings(side, s, steps[0].luck, maxAttempts);
      } else {
        WorkerIdles(side, s, steps[0].luck, maxAttempts);
      }
      UntrackedIsNever(side, s', steps[1..], maxAttempts);
    }
  }

  /** The probe alone can always go on. */
  lemma {:induction false} ProbeGoesOn(s: State, n: nat, maxAttempts: Option<nat>) returns (steps: seq<Step>)
    requires Reachable(s, maxAttempts) && Calm(s)
    ensures QuietRun(s, steps, maxAttempts) && ProbeSteps(steps) == n
    decreases n
  {
    if n == 0 {
      steps := [];
    } else {
      var step := Probe(if s.probe.TestingAlive? then Dead(false) else Smooth);
      QuietStaysCalm(s, step, maxAttempts);
      StepStaysReachable(s, step, maxAttempts);
      var rest := ProbeGoesOn(Apply(s, step, maxAttempts), n - 1, maxAttempts);
      steps := [step] + rest;
      assert steps[1..] == rest;
    }
  }

  /** When a loss gets its restore, for every run, and for the republish and the retained fetch alike: with no
      reconnect under way, every quiet continuation with enough probe steps makes it good, if and only if the link
      is marked lost, some thread is on to it, or the baseline has no router that is attached now. */
  lemma LossIsMadeGoodExactly(run: seq<State>, side: Side, maxAttempts: Option<nat>)
    requires IsRun(run, maxAttempts) && Init(run[0])
    requires var s := run[|run|-1]; Calm(s) && AtEase(s.worker) && Owes(side, s)
    ensures var s := run[|run|-1];
      TrackedAtEase(side, s) <==>
        forall steps :: QuietRun(s, steps, maxAttempts) && ProbeSteps(steps) >= LONGEST ==>
          MadeGood(side, s, steps, maxAttempts)
  {
    var s := run[|run|-1];
    RunIsReachable(run, maxAttempts);
    StepsAreFew(side, s);
    if TrackedAtEase(side, s) {
      forall steps | QuietRun(s, steps, maxAttempts) && ProbeSteps(steps) >= LONGEST
        ensures MadeGood(side, s, steps, maxAttempts)
      {
        TrackedIsMadeGood(side, s, steps, maxAttempts);
      }
    } else {
      var steps := ProbeGoesOn(s, LONGEST, maxAttempts);
      UntrackedIsNever(side, s, steps, maxAttempts);
    }
  }

  // ---------------------------------------------------------------- at any point of a reconnect: the republish

  lemma WorkerKeepsUntracked(s: State, luck: Luck, maxAttempts: Option<nat>)
    requires Reachable(s, maxAttempts) && Calm(s) && WorkerCan(s, luck) && (luck == Smooth || luck == Dead(false))
    requires s.owed.push && !Tracked(s)
    ensures var s' := WorkerStep(s, luck, maxAttempts); s'.owed.push && !Tracked(s')
  {
    assert Tokens(s) == 0;
    match s.worker
    case RestoreWalks =>
    case Noting =>
    case ClaimingLink =>
    case Committing =>
    case Lowering =>
    case _ =>
  }

  lemma ProbeKeepsUntracked(s: State, luck: Luck, maxAttempts: Option<nat>)
    requires Reachable(s, maxAttempts) && Calm(s) && ProbeCan(s, luck) && (luck == Smooth || luck == Dead(false))
    requires s.owed.push && !Tracked(s)
    ensures var s' := ProbeStep(s, luck); s'.owed.push && !Tracked(s')
  {
    match s.probe
    case Sleeping =>
    case TestingDead =>
    case TestingReconnecting =>
    case TestingAlive =>
    case Triggering =>
    case Signalling =>
    case TestingFlag =>
    case Polling =>
    case Deciding(_, _) =>
    case MarkingLost(_) =>
    case ClaimingRestore =>
    case Republishes =>
    case Walking =>
    case Closing =>
  }

  lemma {:induction false} UntrackedIsLost(s: State, steps: seq<Step>, maxAttempts: Option<nat>)
    requires Reachable(s, maxAttempts) && Calm(s) && s.owed.push && !Tracked(s)
    requires QuietRun(s, steps, maxAttempts)
    ensures !MadeGood(Push, s, steps, maxAttempts)
    decreases |steps|
  {
    if steps != [] {
      QuietStaysCalm(s, steps[0], maxAttempts);
      StepStaysReachable(s, steps[0], maxAttempts);
      if steps[0].Probe? {
        ProbeKeepsUntracked(s, steps[0].luck, maxAttempts);
      } else {
        WorkerKeepsUntracked(s, steps[0].luck, maxAttempts);
      }
      UntrackedIsLost(Apply(s, steps[0], maxAttempts), steps[1..], maxAttempts);
    }
  }

  /** How far the worker is from the end of its reconnect. */
  function ToEase(w: WorkerAt): nat {
    match w
    case RestoreWalks => 6
    case Noting => 5
    case ClaimingLink => 4
    case Republishing => 3
    case Committing => 2
    case Lowering => 1
    case _ => 0
  }

  lemma CalmWorker(s: State, maxAttempts: Option<nat>)
    requires Reachable(s, maxAttempts) && Calm(s)
    ensures AtEase(s.worker) || ToEase(s.worker) > 0
    ensures ToEase(s.worker) > 0 ==> ToEase(WorkerStep(s, Smooth, maxAttempts).worker) < ToEase(s.worker)
    ensures ToEase(s.worker) > 0 && s.owed.push && Tracked(s) && WorkerStep(s, Smooth, maxAttempts).owed.push ==>
      Tracked(WorkerStep(s, Smooth, maxAttempts))
  {
    assert Tokens(s) == 0;
    match s.worker
    case RestoreWalks =>
    case Noting =>
    case ClaimingLink =>
    case Republishing =>
    case Committing =>
    case Lowering =>
    case _ =>
  }

  lemma {:induction false} TrackedCanBeMadeGood(s: State, maxAttempts: Option<nat>) returns (steps: seq<Step>)
    requires Reachable(s, maxAttempts) && Calm(s) && s.owed.push && Tracked(s)
    ensures MakesGood(Push, s, steps, maxAttempts)
    decreases ToEase(s.worker)
  {
    CalmWorker(s, maxAttempts);
    if AtEase(s.worker) {
      StepsAreFew(Push, s);
      steps := ProbeGoesOn(s, LONGEST, maxAttempts);
      TrackedIsMadeGood(Push, s, steps, maxAttempts);
    } else {
      var s' := WorkerStep(s, Smooth, maxAttempts);
      QuietStaysCalm(s, Worker(Smooth), maxAttempts);
      StepStaysReachable(s, Worker(Smooth), maxAttempts);
      var rest: seq<Step> := [];
      if s'.owed.push {
        rest := TrackedCanBeMadeGood(s', maxAttempts);
      }
      steps := [Worker(Smooth)] + rest;
      assert steps[1..] == rest;
    }
  }

  /** At any point of a reconnect too, for every run: a loss can still get its republish with no new loss to help it,
      if and only if it is tracked. */
  lemma LossCanBeMadeGoodExactly(run: seq<State>, maxAttempts: Option<nat>)
    requires IsRun(run, maxAttempts) && Init(run[0])
    requires Calm(run[|run|-1]) && run[|run|-1].owed.push
    ensures var s := run[|run|-1];
      Tracked(s) <==> exists steps :: MakesGood(Push, s, steps, maxAttempts)
  {
    var s := run[|run|-1];
    RunIsReachable(run, maxAttempts);
    if Tracked(s) {
      var steps := TrackedCanBeMadeGood(s, maxAttempts);
    } else {
      forall steps ensures !MakesGood(Push, s, steps, maxAttempts) {
        if QuietRun(s, steps, maxAttempts) {
          UntrackedIsLost(s, steps, maxAttempts);
        }
      }
    }
  }

  /** Which step of a run drops a loss for good, for every run: one of those above, and no other. */
  lemma DroppedForGoodExactly(run: seq<State>, step: Step, maxAttempts: Option<nat>)
    requires IsRun(run, maxAttempts) && Init(run[0]) && Enabled(run[|run|-1], step)
    requires Tracked(run[|run|-1]) || !run[|run|-1].owed.push
    requires var s' := Apply(run[|run|-1], step, maxAttempts); Calm(s') && s'.owed.push
    ensures var s' := Apply(run[|run|-1], step, maxAttempts);
      LosesTrack(run[|run|-1], step) <==> forall steps :: !MakesGood(Push, s', steps, maxAttempts)
  {
    var s := run[|run|-1];
    var s' := Apply(s, step, maxAttempts);
    RunIsReachable(run, maxAttempts);
    StepStaysReachable(s, step, maxAttempts);
    TrackIsLostExactly(s, step, maxAttempts);
    if Tracked(s') {
      var steps := TrackedCanBeMadeGood(s', maxAttempts);
      assert MakesGood(Push, s', steps, maxAttempts);
    } else {
      forall steps ensures !MakesGood(Push, s', steps, maxAttempts) {
        if QuietRun(s', steps, maxAttempts) {
          UntrackedIsLost(s', steps, maxAttempts);
        }
      }
    }
  }
}
