/** Which losses get their retained fetch: the worker fetches in its walks, before it claims the link, and the probe
    after its republish, so what keeps track of a fetch is not what keeps track of a republish
    (zeared/_reconnect/_link.py, zeared/_reconnect/_restore.py). */
module FetchTracking {
  import opened Link
  import opened LossTracking
  import opened ManagedSession
  import opened Reconnect
  import opened Wrappers

  // ---------------------------------------------------------------- debts of a detached session

  /** A detached session owes both. */
  predicate DebtInv(s: State) {
    s.zids == {} ==> s.owed == Debt(true, true)
  }

  lemma StepKeepsDebtInv(s: State, step: Step, maxAttempts: Option<nat>)
    requires DebtInv(s) && Enabled(s, step)
    ensures DebtInv(Apply(s, step, maxAttempts))
  {
    match step
    case Worker(_) =>
    case Probe(_) =>
    case _ =>
  }

  lemma {:induction false} RunKeepsDebtInv(run: seq<State>, maxAttempts: Option<nat>)
    requires IsRun(run, maxAttempts) && Init(run[0])
    ensures DebtInv(run[|run|-1])
  {
    if |run| > 1 {
      var m := |run| - 2;
      RunKeepsDebtInv(run[..m+1], maxAttempts);
      assert run[..m+1][m] == run[m];
      assert Follows(run[m], run[m+1], maxAttempts);
      var step :| Enabled(run[m], step) && run[m+1] == Apply(run[m], step, maxAttempts);
      StepKeepsDebtInv(run[m], step, maxAttempts);
    }
  }

  // ---------------------------------------------------------------- what keeps track of a fetch

  /** The worker has fetched, and is about to claim the link without fetching again. */
  predicate ClaimsNext(w: WorkerAt) {
    w.Noting? || w.ClaimingLink?
  }

  /** The probe is about to claim a lost link, and will if it goes first. */
  predicate ProbeClaims(s: State) {
    s.shared.link == Lost && (s.probe.ClaimingRestore? || (s.probe.Deciding? && s.probe.zids != {}))
  }

  /** The probe's work will lead to a fetch, or to a lost link that will. */
  predicate ProbeKnows(s: State) {
    || s.probe.Republishes? || s.probe.Walking? || s.probe.MarkingLost?
    || (s.probe.Deciding? && Gap(s.probe.before, s.probe.zids))
    || ProbeClaims(s)
  }

  predicate FetchKnown(s: State) {
    s.worker.RestoreWalks? || ProbeKnows(s) || (s.shared.link == Lost && !ClaimsNext(s.worker))
  }

  /** The next tick will find no router of the baseline left, or a lost link back. */
  predicate FetchWatched(s: State) {
    || (Gap(s.shared.routers, s.zids) && (!s.worker.Noting? || s.probe.Polling?))
    || (s.shared.link == Lost && s.probe.Polling? && s.zids != {})
  }

  predicate FetchTracked(s: State) {
    s.shared.phase != IDLE || FetchKnown(s) || FetchWatched(s)
  }

  /** A later tick, at rest in between, would find no router of the baseline left. */
  predicate FetchLater(s: State) {
    Gap(s.shared.routers, s.zids) && !s.worker.Noting?
  }

  /** The steps that drop a fetch. */
  predicate LosesFetch(s: State, step: Step) {
    var sh := s.shared;
    && sh.phase == IDLE
    && match step
       // It comes back through a router of the baseline: no tick sees it was gone.
       case Attach(zids) => !FetchKnown(s) && sh.routers * zids != {} && !(sh.link == Lost && s.probe.Polling?)
       // A router of the baseline joins before the tick that would have missed them all.
       case Drift(zids) => !FetchKnown(s) && !Gap(sh.routers, zids) && !(sh.link == Lost && s.probe.Polling?)
       // There is no baseline to miss a router of, or the worker is about to replace it.
       case Detach => !FetchKnown(s) && (sh.routers == {} || (s.worker.Noting? && !s.probe.Polling?))
       case Worker(luck) =>
         // The walks fetch from nobody, or break off.
         || (s.worker.RestoreWalks? && luck.Raised? && sh.link != Lost && !ProbeKnows(s) && !Gap(sh.routers, s.zids))
         || (s.worker.RestoreWalks? && !luck.Raised? && !ProbeKnows(s)
             && !(s.probe.Polling? && (Gap(sh.routers, s.zids) || (sh.link == Lost && s.zids != {}))))
         // The worker notes the loss away before an early tick reads it.
         || (s.worker.Noting? && !luck.Unreadable? && s.zids == {} && !ProbeKnows(s))
         // The worker's claim comes before an early probe's.
         || (s.worker.ClaimingLink? && sh.link == Lost && !Gap(sh.routers, s.zids)
             && !ProbeKnows(s.(shared := ClaimedLink(sh))))
       case Probe(luck) =>
         && !s.worker.RestoreWalks? && !FetchLater(s)
         && (match s.probe
             // An early tick cannot read, with the worker about to claim the link.
             case Polling => luck.Unreadable? && sh.link == Lost && ClaimsNext(s.worker)
             // An early tick moved the baseline past the loss, and decides while the link is not up.
             case Deciding(before, zids) =>
               Gap(before, zids)
               && ((sh.link == Lost && zids == {} && ClaimsNext(s.worker)) || sh.link == LinkState.Restoring)
             // It marks the link lost just before the worker claims it.
             case MarkingLost(back) => !back && ClaimsNext(s.worker)
             // The fetch is from nobody, or abandoned, and no tick will see why.
             case Walking => (s.zids == {} || sh.cancel) && !(sh.link == Lost && !ClaimsNext(s.worker))
             case _ => false)
       case _ => false
  }

  /** The step is one of those, and it leaves a fetch owed. */
  predicate DropsPull(s: State, step: Step, maxAttempts: Option<nat>)
    requires Enabled(s, step)
  {
    Apply(s, step, maxAttempts).owed.pull && LosesFetch(s, step)
  }

  lemma WorkerLosesFetchExactly(s: State, luck: Luck, maxAttempts: Option<nat>)
    requires Reachable(s, maxAttempts) && WorkerCan(s, luck)
    requires WorkerStep(s, luck, maxAttempts).owed.pull && (FetchTracked(s) || !s.owed.pull)
    ensures FetchTracked(WorkerStep(s, luck, maxAttempts)) <==> !LosesFetch(s, Worker(luck))
  {
    match s.worker
    case AtLoop =>
    case Waiting =>
    case Clearing =>
    case Checking =>
    case Vetting =>
    case Raising =>
    case LosingLink =>
    case Opening(_) =>
    case BackingOff(_) =>
    case Aborting =>
    case GivingUp =>
    case Cancelling =>
    case Swapping(_, _) =>
    case RestoreWalks =>
    case Noting =>
    case ClaimingLink =>
    case Republishing =>
    case Committing =>
    case Lowering =>
  }

  lemma ProbeLosesFetchExactly(s: State, luck: Luck, maxAttempts: Option<nat>)
    requires Reachable(s, maxAttempts) && ProbeCan(s, luck)
    requires ProbeStep(s, luck).owed.pull && (FetchTracked(s) || !s.owed.pull)
    ensures FetchTracked(ProbeStep(s, luck)) <==> !LosesFetch(s, Probe(luck))
  {
    match s.probe
    case Sleeping =>
    case TestingDead =>
    case TestingReconnecting =>
    case TestingAlive =>
    case Triggering =>
    case Signalling =>
    case TestingFlag =>
    case Polling =>
    case Deciding(_, _) =>
    case MarkingLost(_) =>
    case ClaimingRestore =>
    case Republishes =>
    case Walking =>
    case Closing =>
  }

  /** A step drops a fetch exactly when it is one of those. */
  lemma FetchIsLostExactly(s: State, step: Step, maxAttempts: Option<nat>)
    requires Reachable(s, maxAttempts) && Enabled(s, step) && DebtInv(s)
    requires Apply(s, step, maxAttempts).owed.pull && (FetchTracked(s) || !s.owed.pull)
    ensures FetchTracked(Apply(s, step, maxAttempts)) <==> !LosesFetch(s, step)
  {
    if step.Worker? {
      WorkerLosesFetchExactly(s, step.luck, maxAttempts);
    } else if step.Probe? {
      ProbeLosesFetchExactly(s, step.luck, maxAttempts);
    }
  }

  // ---------------------------------------------------------------- at any point of a reconnect: the fetch

  lemma WorkerKeepsUnfetched(s: State, luck: Luck, maxAttempts: Option<nat>)
    requires Reachable(s, maxAttempts) && Calm(s) && WorkerCan(s, luck) && (luck == Smooth || luck == Dead(false))
    requires s.owed.pull && !FetchTracked(s)
    ensures var s' := WorkerStep(s, luck, maxAttempts); s'.owed.pull && !FetchTracked(s')
  {
    assert Tokens(s) == 0;
    match s.worker
    case RestoreWalks =>
    case Noting =>
    case ClaimingLink =>
    case Republishing =>
    case Committing =>
    case Lowering =>
    case _ =>
  }

  lemma ProbeKeepsUnfetched(s: State, luck: Luck, maxAttempts: Option<nat>)
    requires Reachable(s, maxAttempts) && Calm(s) && ProbeCan(s, luck) && (luck == Smooth || luck == Dead(false))
    requires s.owed.pull && !FetchTracked(s)
    ensures var s' := ProbeStep(s, luck); s'.owed.pull && !FetchTracked(s')
  {
    match s.probe
    case Sleeping =>
    case TestingDead =>
    case TestingReconnecting =>
    case TestingAlive =>
    case Triggering =>
    case Signalling =>
    case TestingFlag =>
    case Polling =>
    case Deciding(_, _) =>
    case MarkingLost(_) =>
    case ClaimingRestore =>
    case Republishes =>
    case Walking =>
    case Closing =>
  }

  lemma {:induction false} UntrackedIsNeverFetched(s: State, steps: seq<Step>, maxAttempts: Option<nat>)
    requires Reachable(s, maxAttempts) && Calm(s) && s.owed.pull && !FetchTracked(s)
    requires QuietRun(s, steps, maxAttempts)
    ensures !MadeGood(Pull, s, steps, maxAttempts)
    decreases |steps|
  {
    if steps != [] {
      QuietStaysCalm(s, steps[0], maxAttempts);
      StepStaysReachable(s, steps[0], maxAttempts);
      if steps[0].Probe? {
        ProbeKeepsUnfetched(s, steps[0].luck, maxAttempts);
      } else {
        WorkerKeepsUnfetched(s, steps[0].luck, maxAttempts);
      }
      UntrackedIsNeverFetched(Apply(s, steps[0], maxAttempts), steps[1..], maxAttempts);
    }
  }

  /** The probe alone brings the fetch from here. */
  predicate ProbeFirst(s: State) {
    s.probe.Republishes? || s.probe.Walking? || ProbeClaims(s) || (s.shared.link == Lost && s.probe.Polling?)
  }

  /** How far the probe is from fetching. */
  function ToFetch(p: ProbeAt): nat {
    match p
    case Polling => 5
    case Deciding(_, _) => 4
    case ClaimingRestore => 3
    case Republishes => 2
    case Walking => 1
    case _ => 6
  }

  lemma ProbeFetches(s: State, maxAttempts: Option<nat>)
    requires Reachable(s, maxAttempts) && Calm(s) && s.owed.pull && ProbeFirst(s)
    ensures var s' := ProbeStep(s, Smooth);
      s'.owed.pull ==> ProbeFirst(s') && FetchTracked(s') && ToFetch(s'.probe) < ToFetch(s.probe)
  {
  }

  lemma WorkerLeavesTrack(s: State, maxAttempts: Option<nat>)
    requires Reachable(s, maxAttempts) && Calm(s) && s.owed.pull && FetchTracked(s) && !ProbeFirst(s)
    requires !AtEase(s.worker)
    ensures var s' := WorkerStep(s, Smooth, maxAttempts);
      && WorkerCan(s, Smooth) && ToEase(s'.worker) < ToEase(s.worker) && s'.probe == s.probe
      && (s'.owed.pull ==> FetchTracked(s'))
  {
    assert Tokens(s) == 0;
    match s.worker
    case RestoreWalks =>
    case Noting =>
    case ClaimingLink =>
    case Republishing =>
    case Committing =>
    case Lowering =>
    case _ =>
  }

  lemma TrackedFetchAtEase(s: State, maxAttempts: Option<nat>)
    requires Reachable(s, maxAttempts) && Calm(s) && AtEase(s.worker) && FetchTracked(s)
    ensures TrackedAtEase(Pull, s)
  {
  }

  lemma StepMakesGood(side: Side, s: State, step: Step, rest: seq<Step>, maxAttempts: Option<nat>)
    requires Enabled(s, step) && Quiet(step)
    requires var s' := Apply(s, step, maxAttempts);
      if Owes(side, s') then MakesGood(side, s', rest, maxAttempts) else rest == []
    ensures MakesGood(side, s, [step] + rest, maxAttempts)
  {
    assert ([step] + rest)[1..] == rest;
  }

  lemma {:induction false} TrackedCanBeFetched(s: State, maxAttempts: Option<nat>) returns (steps: seq<Step>)
    requires Reachable(s, maxAttempts) && Calm(s) && s.owed.pull && FetchTracked(s)
    ensures MakesGood(Pull, s, steps, maxAttempts)
    decreases ToEase(s.worker), ToFetch(s.probe)
  {
    var step := Worker(Smooth);
    if ProbeFirst(s) {
      step := Probe(Smooth);
      ProbeFetches(s, maxAttempts);
    } else if AtEase(s.worker) {
      TrackedFetchAtEase(s, maxAttempts);
      StepsAreFew(Pull, s);
      steps := ProbeGoesOn(s, LONGEST, maxAttempts);
      TrackedIsMadeGood(Pull, s, steps, maxAttempts);
      return;
    } else {
      WorkerLeavesTrack(s, maxAttempts);
    }
    QuietStaysCalm(s, step, maxAttempts);
    StepStaysReachable(s, step, maxAttempts);
    var s' := Apply(s, step, maxAttempts);
    var rest: seq<Step> := [];
    if s'.owed.pull {
      rest := TrackedCanBeFetched(s', maxAttempts);
    }
    StepMakesGood(Pull, s, step, rest, maxAttempts);
    steps := [step] + rest;
  }

  /** At any point of a reconnect, for every run: a loss can still get its retained fetch with no new loss to help it,
      if and only if the fetch is tracked. */
  lemma FetchCanBeMadeGoodExactly(run: seq<State>, maxAttempts: Option<nat>)
    requires IsRun(run, maxAttempts) && Init(run[0])
    requires Calm(run[|run|-1]) && run[|run|-1].owed.pull
    ensures var s := run[|run|-1];
      FetchTracked(s) <==> exists steps :: MakesGood(Pull, s, steps, maxAttempts)
  {
    RunIsReachable(run, maxAttempts);
    FetchComesExactly(run[|run|-1], maxAttempts);
  }

  lemma FetchComesExactly(s: State, maxAttempts: Option<nat>)
    requires Reachable(s, maxAttempts) && Calm(s) && s.owed.pull
    ensures FetchTracked(s) <==> exists steps :: MakesGood(Pull, s, steps, maxAttempts)
  {
    if FetchTracked(s) {
      var steps := TrackedCanBeFetched(s, maxAttempts);
    } else {
      forall steps ensures !MakesGood(Pull, s, steps, maxAttempts) {
        if QuietRun(s, steps, maxAttempts) {
          UntrackedIsNeverFetched(s, steps, maxAttempts);
        }
      }
    }
  }

  /** Which step of a run drops a fetch for good, for every run: one of those above, and no other. */
  lemma FetchDroppedForGoodExactly(run: seq<State>, step: Step, maxAttempts: Option<nat>)
    requires IsRun(run, maxAttempts) && Init(run[0]) && Enabled(run[|run|-1], step)
    requires FetchTracked(run[|run|-1]) || !run[|run|-1].owed.pull
    requires var s' := Apply(run[|run|-1], step, maxAttempts); Calm(s') && s'.owed.pull
    ensures var s' := Apply(run[|run|-1], step, maxAttempts);
      LosesFetch(run[|run|-1], step) <==> forall steps :: !MakesGood(Pull, s', steps, maxAttempts)
  {
    var s := run[|run|-1];
    RunIsReachable(run, maxAttempts);
    RunKeepsDebtInv(run, maxAttempts);
    StepStaysReachable(s, step, maxAttempts);
    FetchIsLostExactly(s, step, maxAttempts);
    FetchComesExactly(Apply(s, step, maxAttempts), maxAttempts);
  }
}
