/** Three runs in which a loss around a reconnect is never made good
    (zeared/_reconnect/_reconnect.py, zeared/_reconnect/_link.py). */
module LossRuns {
  import opened Link
  import opened LossTracking
  import opened ManagedSession
  import opened Reconnect
  import opened Wrappers

  lemma Then(run: seq<State>, step: Step, maxAttempts: Option<nat>) returns (longer: seq<State>)
    requires IsRun(run, maxAttempts) && Enabled(run[|run|-1], step)
    ensures IsRun(longer, maxAttempts) && run <= longer && |longer| == |run| + 1
    ensures longer[|run|] == Apply(run[|run|-1], step, maxAttempts)
  {
    longer := run + [Apply(run[|run|-1], step, maxAttempts)];
    forall i | 0 <= i < |longer| - 1 ensures Follows(longer[i], longer[i+1], maxAttempts) {
    }
  }

  /** A state of one reconnect: the fields these runs change. */
  function At(phase: Phase, link: LinkState, routers: set<Zid>, zids: set<Zid>, worker: WorkerAt, probe: ProbeAt,
              early: bool, owed: Debt): State {
    var raw := if phase == IDLE && link != Up then 1 else 0;
    var fired := if link == Up then [] else [LinkLostFired];
    State(Shared(raw, phase, link, FlagUp(worker), routers, false, false, fired), zids, worker, probe, {}, 0,
          Past(false, if phase == IDLE && link == Up then 0 else 1, raw, 0, early), owed)
  }

  /** The state after it, the link up again. */
  function AfterIt(routers: set<Zid>, zids: set<Zid>, worker: WorkerAt, probe: ProbeAt, early: bool, owed: Debt): State
  {
    State(Shared(1, IDLE, Up, FlagUp(worker), routers, false, false, [LinkLostFired, LinkRestoredFired]), zids,
          worker, probe, {}, 0, Past(false, 1, 1, 0, early), owed)
  }

  const BOTH := Debt(true, true)
  const NONE := Debt(false, false)

  /** A send-side trigger, up to the raising of the flag; the probe waits where it is. */
  lemma Triggers(run: seq<State>, probe: ProbeAt, maxAttempts: Option<nat>) returns (longer: seq<State>)
    requires IsRun(run, maxAttempts) && run[|run|-1] == At(IDLE, Up, {0}, {0}, AtLoop, probe, false, NONE)
    requires probe.Sleeping? || probe.Polling?
    ensures IsRun(longer, maxAttempts) && run <= longer
    ensures longer[|longer|-1] == At(RECONNECTING, Up, {0}, {0}, Raising, probe, false, NONE)
  {
    longer := Then(run, Trigger(0), maxAttempts);
    longer := Then(longer, SetSignal(0), maxAttempts);
    longer := Then(longer, Worker(Smooth), maxAttempts);
    longer := Then(longer, Worker(Smooth), maxAttempts);
    longer := Then(longer, Worker(Smooth), maxAttempts);
    longer := Then(longer, Worker(Smooth), maxAttempts);
    longer := Then(longer, Worker(Smooth), maxAttempts);
  }

  /** On to a new raw session attached to router 1. */
  lemma Reopens(run: seq<State>, probe: ProbeAt, maxAttempts: Option<nat>) returns (longer: seq<State>)
    requires IsRun(run, maxAttempts) && run[|run|-1] == At(RECONNECTING, Up, {0}, {0}, Raising, probe, false, NONE)
    requires probe.Sleeping? || probe.Polling?
    ensures IsRun(longer, maxAttempts) && run <= longer
    ensures longer[|longer|-1] == At(IDLE, Lost, {0}, {1}, RestoreWalks, probe, probe.Polling?, BOTH)
  {
    longer := Then(run, Worker(Smooth), maxAttempts);
    longer := Then(longer, Worker(Smooth), maxAttempts);
    longer := Then(longer, Worker(Opened(1, {1})), maxAttempts);
    longer := Then(longer, Worker(Smooth), maxAttempts);
  }

  /** The probe goes from its sleep to its poll. */
  lemma ProbePassesItsTests(run: seq<State>, maxAttempts: Option<nat>) returns (longer: seq<State>)
    requires IsRun(run, maxAttempts)
    requires var s := run[|run|-1]; Calm(s) && s.probe.Sleeping? && !s.shared.restoring
    ensures IsRun(longer, maxAttempts) && run <= longer
    ensures longer[|longer|-1] == run[|run|-1].(probe := Polling)
  {
    longer := Then(run, Probe(Smooth), maxAttempts);
    longer := Then(longer, Probe(Smooth), maxAttempts);
    longer := Then(longer, Probe(Smooth), maxAttempts);
    longer := Then(longer, Probe(Dead(false)), maxAttempts);
    longer := Then(longer, Probe(Smooth), maxAttempts);
  }

  /** The link goes, and comes back through router 2. */
  lemma LinkBounces(run: seq<State>, maxAttempts: Option<nat>) returns (longer: seq<State>)
    requires IsRun(run, maxAttempts) && run[|run|-1].zids != {}
    ensures IsRun(longer, maxAttempts) && run <= longer
    ensures longer[|longer|-1] == run[|run|-1].(zids := {2}, owed := BOTH)
  {
    longer := Then(run, Detach, maxAttempts);
    longer := Then(longer, Attach({2}), maxAttempts);
  }

  lemma Starts(maxAttempts: Option<nat>) returns (run: seq<State>)
    ensures IsRun(run, maxAttempts) && Init(run[0])
    ensures run[|run|-1] == At(IDLE, Up, {0}, {0}, AtLoop, Sleeping, false, NONE)
  {
    run := [At(IDLE, Up, {0}, {0}, AtLoop, Sleeping, false, NONE)];
  }

  /** Nothing more will come of `side`'s debt. */
  ghost predicate GivenUp(side: Side, s: State) {
    Calm(s) && AtEase(s.worker) && Owes(side, s) && !TrackedAtEase(side, s)
  }

  // ---------------------------------------------------------------- an empty baseline

  lemma LinkDropsInTheWalks(run: seq<State>, maxAttempts: Option<nat>) returns (longer: seq<State>)
    requires IsRun(run, maxAttempts) && run[|run|-1] == At(IDLE, Lost, {0}, {1}, RestoreWalks, Sleeping, false, BOTH)
    ensures IsRun(longer, maxAttempts) && run <= longer
    ensures longer[|longer|-1] == At(IDLE, LinkState.Restoring, {}, {}, Republishing, Sleeping, false, BOTH)
  {
    longer := Then(run, Detach, maxAttempts);
    longer := Then(longer, Worker(Smooth), maxAttempts);
    longer := Then(longer, Worker(Smooth), maxAttempts);
    longer := Then(longer, Worker(Smooth), maxAttempts);
  }

  lemma RepublishesToNobody(run: seq<State>, maxAttempts: Option<nat>) returns (longer: seq<State>)
    requires IsRun(run, maxAttempts)
    requires run[|run|-1] == At(IDLE, LinkState.Restoring, {}, {}, Republishing, Sleeping, false, BOTH)
    ensures IsRun(longer, maxAttempts) && run <= longer
    ensures longer[|longer|-1] == AfterIt({}, {2}, AtLoop, Sleeping, false, BOTH)
  {
    longer := Then(run, Worker(Smooth), maxAttempts);
    longer := Then(longer, Worker(Smooth), maxAttempts);
    longer := Then(longer, Worker(Smooth), maxAttempts);
    longer := Then(longer, Attach({2}), maxAttempts);
  }

  lemma TickIsSteady(run: seq<State>, maxAttempts: Option<nat>) returns (longer: seq<State>)
    requires IsRun(run, maxAttempts) && run[|run|-1] == AfterIt({}, {2}, AtLoop, Sleeping, false, BOTH)
    ensures IsRun(longer, maxAttempts) && run <= longer
    ensures longer[|longer|-1] == AfterIt({2}, {2}, AtLoop, Sleeping, false, BOTH)
  {
    longer := ProbePassesItsTests(run, maxAttempts);
    longer := Then(longer, Probe(Smooth), maxAttempts);
    longer := Then(longer, Probe(Smooth), maxAttempts);
  }

  /** The link drops during the restore walks: the worker takes no routers as the baseline, republishes to nobody and
      commits, and the tick after the return has nothing to compare with. Neither debt is made good. */
  lemma EmptyBaselineGivesUpALoss(maxAttempts: Option<nat>) returns (run: seq<State>)
    ensures IsRun(run, maxAttempts) && Init(run[0])
    ensures var s := run[|run|-1];
      && GivenUp(Push, s) && GivenUp(Pull, s) && !s.past.early && s.probe.Sleeping?
      && s.shared.fired == [LinkLostFired, LinkRestoredFired]
  {
    run := Starts(maxAttempts);
    run := Triggers(run, Sleeping, maxAttempts);
    run := Reopens(run, Sleeping, maxAttempts);
    run := LinkDropsInTheWalks(run, maxAttempts);
    run := RepublishesToNobody(run, maxAttempts);
    run := TickIsSteady(run, maxAttempts);
  }

  // ---------------------------------------------------------------- a moved baseline

  lemma LinkBouncesAfterTheWalks(run: seq<State>, maxAttempts: Option<nat>) returns (longer: seq<State>)
    requires IsRun(run, maxAttempts) && run[|run|-1] == At(IDLE, Lost, {0}, {1}, RestoreWalks, Sleeping, false, BOTH)
    ensures IsRun(longer, maxAttempts) && run <= longer
    ensures longer[|longer|-1] == At(IDLE, Lost, {0}, {2}, Noting, Sleeping, false, BOTH)
  {
    longer := Then(run, Worker(Smooth), maxAttempts);
    longer := LinkBounces(longer, maxAttempts);
  }

  lemma BaselineMoves(run: seq<State>, maxAttempts: Option<nat>) returns (longer: seq<State>)
    requires IsRun(run, maxAttempts) && run[|run|-1] == At(IDLE, Lost, {0}, {2}, Noting, Sleeping, false, BOTH)
    ensures IsRun(longer, maxAttempts) && run <= longer
    ensures longer[|longer|-1] == At(IDLE, LinkState.Restoring, {2}, {2}, Republishing, Sleeping, false, BOTH)
  {
    longer := Then(run, Worker(Smooth), maxAttempts);
    longer := Then(longer, Worker(Smooth), maxAttempts);
  }

  lemma PushesOnly(run: seq<State>, maxAttempts: Option<nat>) returns (longer: seq<State>)
    requires IsRun(run, maxAttempts)
    requires run[|run|-1] == At(IDLE, LinkState.Restoring, {2}, {2}, Republishing, Sleeping, false, BOTH)
    ensures IsRun(longer, maxAttempts) && run <= longer
    ensures longer[|longer|-1] == AfterIt({2}, {2}, AtLoop, Sleeping, false, Debt(false, true))
  {
    longer := Then(run, Worker(Smooth), maxAttempts);
    longer := Then(longer, Worker(Smooth), maxAttempts);
    longer := Then(longer, Worker(Smooth), maxAttempts);
  }

  lemma FetchIsMissed(run: seq<State>, maxAttempts: Option<nat>) returns (longer: seq<State>)
    requires IsRun(run, maxAttempts) && run[|run|-1] == At(IDLE, Lost, {0}, {1}, RestoreWalks, Sleeping, false, BOTH)
    ensures IsRun(longer, maxAttempts) && run <= longer
    ensures longer[|longer|-1] == AfterIt({2}, {2}, AtLoop, Sleeping, false, Debt(false, true))
  {
    longer := LinkBouncesAfterTheWalks(run, maxAttempts);
    longer := BaselineMoves(longer, maxAttempts);
    longer := PushesOnly(longer, maxAttempts);
  }

  lemma MissedIsGivenUp()
    ensures GivenUp(Pull, AfterIt({2}, {2}, AtLoop, Sleeping, false, Debt(false, true)))
  {
  }

  /** The link goes and comes back between the restore walks and the new baseline: the worker republishes, but no
      retained fetch follows, and what others published meanwhile is missed. */
  lemma MovedBaselineGivesUpTheFetch(maxAttempts: Option<nat>) returns (run: seq<State>)
    ensures IsRun(run, maxAttempts) && Init(run[0])
    ensures var s := run[|run|-1]; GivenUp(Pull, s) && !s.owed.push && !s.past.early
  {
    run := Starts(maxAttempts);
    run := Triggers(run, Sleeping, maxAttempts);
    run := Reopens(run, Sleeping, maxAttempts);
    run := FetchIsMissed(run, maxAttempts);
    MissedIsGivenUp();
  }

  // ---------------------------------------------------------------- a claim while the worker is restoring

  lemma LinkBouncesAfterTheRepublish(run: seq<State>, maxAttempts: Option<nat>) returns (longer: seq<State>)
    requires IsRun(run, maxAttempts) && run[|run|-1] == At(IDLE, Lost, {0}, {1}, RestoreWalks, Polling, true, BOTH)
    ensures IsRun(longer, maxAttempts) && run <= longer
    ensures longer[|longer|-1] == At(IDLE, LinkState.Restoring, {1}, {2}, Committing, Polling, true, BOTH)
  {
    longer := Then(run, Worker(Smooth), maxAttempts);
    longer := Then(longer, Worker(Smooth), maxAttempts);
    longer := Then(longer, Worker(Smooth), maxAttempts);
    longer := Then(longer, Worker(Smooth), maxAttempts);
    longer := LinkBounces(longer, maxAttempts);
  }

  lemma ClaimFails(run: seq<State>, maxAttempts: Option<nat>) returns (longer: seq<State>)
    requires IsRun(run, maxAttempts)
    requires run[|run|-1] == At(IDLE, LinkState.Restoring, {1}, {2}, Committing, Polling, true, BOTH)
    ensures IsRun(longer, maxAttempts) && run <= longer
    ensures longer[|longer|-1] == At(IDLE, LinkState.Restoring, {2}, {2}, Committing, Sleeping, true, BOTH)
  {
    longer := Then(run, Probe(Smooth), maxAttempts);
    longer := Then(longer, Probe(Smooth), maxAttempts);
    longer := Then(longer, Probe(Smooth), maxAttempts);
  }

  lemma WorkerCommits(run: seq<State>, maxAttempts: Option<nat>) returns (longer: seq<State>)
    requires IsRun(run, maxAttempts)
    requires run[|run|-1] == At(IDLE, LinkState.Restoring, {2}, {2}, Committing, Sleeping, true, BOTH)
    ensures IsRun(longer, maxAttempts) && run <= longer
    ensures longer[|longer|-1] == AfterIt({2}, {2}, AtLoop, Sleeping, true, BOTH)
  {
    longer := Then(run, Worker(Smooth), maxAttempts);
    longer := Then(longer, Worker(Smooth), maxAttempts);
  }

  /** A probe past its test of the restoring flag when the flag goes up reads a loss after the worker's republish,
      moves the baseline past it, and finds no lost link to claim. Neither debt is made good. */
  lemma EarlyProbeGivesUpALoss(maxAttempts: Option<nat>) returns (run: seq<State>)
    ensures IsRun(run, maxAttempts) && Init(run[0])
    ensures var s := run[|run|-1]; GivenUp(Push, s) && GivenUp(Pull, s) && s.past.early && s.shared.routers != {}
  {
    run := Starts(maxAttempts);
    run := ProbePassesItsTests(run, maxAttempts);
    run := Triggers(run, Polling, maxAttempts);
    run := Reopens(run, Polling, maxAttempts);
    run := LinkBouncesAfterTheRepublish(run, maxAttempts);
    run := ClaimFails(run, maxAttempts);
    run := WorkerCommits(run, maxAttempts);
  }
}
