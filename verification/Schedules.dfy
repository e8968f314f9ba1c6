/** Whatever order the sessions' own steps come in, the restores run to their end
    (zeared/_reconnect/_link.py, zeared/retention.py, zeared/subscriber/). */
module Schedules {
  import opened Convergence
  import opened Link

  // ---------------------------------------------------------------- the sessions' own steps

  /** What the two sessions do of their own accord, with nothing new sent and no link lost. */
  ghost predicate Quiet(step: Step) {
    !step.Detach? && !step.Store? && !step.Delete? &&
    (step.LinkMove? ==> !step.move.Attaches? && !step.move.Drifts?)
  }

  function TurnOf(me: Session, who: Who): Step {
    var move := Turn(me);
    if move.Starts? then (if who.Publisher? then Snapshot else Ask)
    else if move.Finishes? then Finish(who)
    else LinkMove(who, move)
  }

  /** The step is `who`'s own next turn. */
  ghost predicate IsTurn(s: State, step: Step, who: Who) {
    && OfSession(step) && WhoOf(step) == who && MoveOf(step) == Turn(Of(s, who)) && Enabled(s, step)
  }

  lemma TurnIsTaken(s: State, who: Who)
    requires SessionOk(Of(s, who)) && Of(s, who).zids != {} && !Whole(Of(s, who))
    requires Of(s, who).probe.Working? ==> if who.Publisher? then s.toPut == {} else !s.query && s.replies == multiset{}
    ensures IsTurn(s, TurnOf(Of(s, who), who), who)
  {
    TurnsRunOut(Of(s, who));
    match Turn(Of(s, who))
    case Ticks =>
    case Decides =>
    case Loses =>
    case Claims =>
    case Starts =>
    case Finishes =>
  }

  // ---------------------------------------------------------------- work left

  /** At peace: the link is up with no loss outstanding, and the probe idle, or in a tick that will find nothing. */
  ghost predicate AtPeace(me: Session) {
    && me.link == Up && !Gap(me.routers, me.zids)
    && (me.probe.Idle? || (me.probe.Read? && !Gap(me.probe.before, me.probe.zids)))
  }

  /** A step that is not just the next tick of a session at peace. */
  ghost predicate Busy(s: State, step: Step) {
    OfSession(step) ==> !AtPeace(Of(s, WhoOf(step)))
  }

  ghost function Turns(me: Session): nat {
    if AtPeace(me) then 0 else TurnsLeft(me)
  }

  /** What the data still has to do; an answer may bring the whole cache. */
  ghost function Load(s: State): nat {
    2 * |s.toPut| + (if s.query then |s.cache| + 1 else 0) + |s.replies| + 2 * |s.sending| + |s.net|
  }

  /** An upper bound on the busy steps left: each turn may load the whole cache. */
  ghost function Work(s: State): nat {
    Weigh(2 * |s.cache| + 2, Turns(s.pub) + Turns(s.sub)) + Load(s)
  }

  ghost function Weigh(w: nat, turns: nat): nat {
    if turns == 0 then 0 else w + Weigh(w, turns - 1)
  }

  /** A quiet move is the session's own turn. */
  lemma QuietIsTurn(s: State, step: Step)
    requires Enabled(s, step) && Quiet(step) && OfSession(step)
    ensures MoveOf(step) == Turn(Of(s, WhoOf(step)))
  {
    match step
    case LinkMove(_, _) =>
    case Finish(_) =>
    case Snapshot =>
    case Ask =>
  }

  lemma PeaceIsKept(me: Session)
    requires SessionOk(me) && AtPeace(me)
    ensures Can(me, Turn(me)) && AtPeace(Moved(me, Turn(me))) && Moved(me, Turn(me)).zids == me.zids
    ensures !Turn(me).Starts? && !Turn(me).Finishes?
  {
  }

  lemma TurnsFall(me: Session)
    requires SessionOk(me) && me.zids != {} && !AtPeace(me)
    ensures Turns(Moved(me, Turn(me))) < Turns(me) && Moved(me, Turn(me)).zids == me.zids
  {
    TurnsRunOut(me);
  }

  lemma {:induction false} Lighter(w: nat, t': nat, t: nat)
    requires t' < t
    ensures Weigh(w, t') + w <= Weigh(w, t)
  {
    if t' < t - 1 {
      Lighter(w, t', t - 1);
    }
  }

  lemma Compare(s: State, s': State)
    requires s'.cache == s.cache
    requires var t, t' := Turns(s.pub) + Turns(s.sub), Turns(s'.pub) + Turns(s'.sub);
      || (t' < t && Load(s') < Load(s) + 2 * |s.cache| + 2)
      || (t' == t && Load(s') <= Load(s))
    ensures Work(s') <= Work(s)
    ensures Turns(s'.pub) + Turns(s'.sub) < Turns(s.pub) + Turns(s.sub) || Load(s') < Load(s) ==> Work(s') < Work(s)
    ensures Turns(s'.pub) + Turns(s'.sub) == Turns(s.pub) + Turns(s.sub) && Load(s') == Load(s) ==> Work(s') == Work(s)
  {
    var t, t' := Turns(s.pub) + Turns(s.sub), Turns(s'.pub) + Turns(s'.sub);
    if t' < t {
      Lighter(2 * |s.cache| + 2, t', t);
    }
  }

  lemma EntriesAreFew(cache: map<Key, Sample>)
    ensures |Entries(cache)| <= |cache|
  {
    assert Entries(cache) == cache.Values;
    ValuesAreFew(cache);
  }

  lemma {:induction false} ValuesAreFew(cache: map<Key, Sample>)
    ensures |cache.Values| <= |cache|
    decreases |cache|
  {
    if cache != map[] {
      var k :| k in cache;
      var rest := cache - {k};
      assert cache.Keys == rest.Keys + {k};
      assert cache.Values == rest.Values + {cache[k]};
      ValuesAreFew(rest);
    }
  }

  // ---------------------------------------------------------------- each quiet step

  lemma MapMinusKey(m: map<Key, Sample>, k: Key)
    requires k in m
    ensures |m - {k}| < |m|
  {
    assert (m - {k}).Keys == m.Keys - {k};
    assert |m.Keys - {k}| < |m.Keys|;
  }

  ghost predicate Pending(s: State) {
    SessionOk(s.pub) && SessionOk(s.sub) && Attached(s)
  }

  lemma SessionStepTurns(s: State, step: Step)
    requires Pending(s) && Enabled(s, step) && Quiet(step) && OfSession(step)
    ensures var s' := Apply(s, step);
      && Attached(s') && s'.cache == s.cache && s'.sending == s.sending
      && (if Busy(s, step) then Turns(s'.pub) + Turns(s'.sub) < Turns(s.pub) + Turns(s.sub)
          else Turns(s'.pub) + Turns(s'.sub) == Turns(s.pub) + Turns(s.sub))
      && (step.Snapshot? || step.Ask? ==> Busy(s, step))
  {
    QuietIsTurn(s, step);
    SessionMoves(s, step, Publisher);
    SessionMoves(s, step, Subscriber);
    SessionStepKeepsData(s, step);
    var me := Of(s, WhoOf(step));
    if AtPeace(me) {
      PeaceIsKept(me);
    } else {
      TurnsFall(me);
    }
  }

  lemma SessionStepLoad(s: State, step: Step)
    requires Enabled(s, step) && Quiet(step) && OfSession(step)
    ensures Load(Apply(s, step)) <= Load(s) + if step.Snapshot? || step.Ask? then 2 * |s.cache| + 1 else 0
    ensures !step.Snapshot? && !step.Ask? ==> Load(Apply(s, step)) == Load(s)
  {
    var s' := Apply(s, step);
    EntriesAreFew(s.cache);
    match step
    case LinkMove(who, move) => assert s' == With(s, who, Moved(Of(s, who), move));
    case Finish(who) => assert s' == With(s, who, Moved(Of(s, who), Finishes));
    case Snapshot =>
    case Ask =>
  }

  lemma SessionStepWork(s: State, step: Step)
    requires Pending(s) && Enabled(s, step) && Quiet(step) && OfSession(step)
    ensures var s' := Apply(s, step); if Busy(s, step) then Work(s') < Work(s) else Work(s') == Work(s)
  {
    SessionStepTurns(s, step);
    SessionStepLoad(s, step);
    Compare(s, Apply(s, step));
  }

  lemma PublishLoads(s: State, x: Sample)
    ensures var s' := Publish(s, x);
      Load(s') <= Load(s) + 1 && s'.pub == s.pub && s'.sub == s.sub && s'.cache == s.cache
  {
  }

  lemma DispatchLoads(s: State, x: Sample)
    ensures var s' := Dispatch(s, x);
      Load(s') == Load(s) && s'.pub == s.pub && s'.sub == s.sub && s'.cache == s.cache
  {
  }

  lemma DataStepLoad(s: State, step: Step)
    requires Enabled(s, step) && Quiet(step) && !OfSession(step)
    ensures var s' := Apply(s, step);
      Load(s') < Load(s) && s'.pub == s.pub && s'.sub == s.sub && s'.cache == s.cache
  {
    match step
    case Reput(x) =>
      assert |s.toPut - {x}| == |s.toPut| - 1;
      PublishLoads(s.(toPut := s.toPut - {x}), x);
    case Answer => EntriesAreFew(s.cache);
    case Put(k) =>
      MapMinusKey(s.sending, k);
      PublishLoads(s.(sending := s.sending - {k}), s.sending[k]);
    case Deliver(x) =>
      assert |s.net - multiset{x}| == |s.net| - 1;
      DispatchLoads(s.(net := s.net - multiset{x}), x);
    case DeliverReply(x) =>
      assert |s.replies - multiset{x}| == |s.replies| - 1;
      DispatchLoads(s.(replies := s.replies - multiset{x}), x);
  }

  lemma QuietStep(s: State, step: Step)
    requires Sound(s) && Attached(s) && Enabled(s, step) && Quiet(step)
    ensures SeenStep(s, step)
    ensures var s' := Apply(s, step);
      && Sound(s') && Attached(s') && s'.cache == s.cache
      && (if Busy(s, step) then Work(s') < Work(s) else Work(s') == Work(s))
  {
    StepKeepsSound(s, step);
    if OfSession(step) {
      SessionStepTurns(s, step);
      SessionStepWork(s, step);
    } else {
      DataStepLoad(s, step);
      Compare(s, Apply(s, step));
    }
  }

  // ---------------------------------------------------------------- where every schedule ends

  /** Some thread, message or query still has work to do. */
  ghost predicate CanWork(s: State) {
    exists step :: Enabled(s, step) && Quiet(step) && Busy(s, step)
  }

  lemma PeacefulDelivers(s: State, k: Key)
    requires Inv(s) && Attached(s) && AtPeace(s.pub) && AtPeace(s.sub) && k in s.cache
    requires s.sending == map[] && s.net == multiset{} && s.replies == multiset{} && !s.query
    ensures LastOf(s.log, s.cache[k])
  {
    var x := s.cache[k];
    assert Covered(s, x) && Arrived(s, x);
    var y :| LastOf(s.log, y) && y.key == k && y.ts == s.seen[k];
    assert y in s.log;
    assert Genuine(s, y);
  }

  lemma Works(s: State, step: Step)
    requires Enabled(s, step) && Quiet(step) && Busy(s, step)
    ensures CanWork(s)
  {
  }

  lemma SessionCanWork(s: State, who: Who)
    requires Pending(s) && !AtPeace(Of(s, who))
    requires s.toPut == {} || !s.pub.probe.Working?
    requires !s.query && s.replies == multiset{}
    ensures CanWork(s)
  {
    TurnsRunOut(Of(s, who));
    TurnIsTaken(s, who);
    Works(s, TurnOf(Of(s, who), who));
  }

  /** When nothing can work any more, nothing is left. */
  lemma DoneIsPeaceful(s: State)
    requires Pending(s) && !CanWork(s)
    ensures AtPeace(s.pub) && AtPeace(s.sub)
    ensures s.sending == map[] && s.net == multiset{} && s.replies == multiset{} && !s.query
  {
    if s.sending != map[] {
      var k :| k in s.sending;
      Works(s, Put(k));
    } else if s.net != multiset{} {
      var x :| x in s.net;
      Works(s, Deliver(x));
    } else if s.replies != multiset{} {
      var x :| x in s.replies;
      Works(s, DeliverReply(x));
    } else if s.query {
      Works(s, Answer);
    } else if s.pub.probe.Working? && s.toPut != {} {
      var x :| x in s.toPut;
      Works(s, Reput(x));
    } else if !AtPeace(s.pub) {
      SessionCanWork(s, Publisher);
    } else if !AtPeace(s.sub) {
      SessionCanWork(s, Subscriber);
    }
  }

  lemma DoneIsDelivered(s: State)
    requires Inv(s) && Attached(s) && !CanWork(s)
    ensures forall k :: k in s.cache ==> LastOf(s.log, s.cache[k])
  {
    DoneIsPeaceful(s);
    forall k | k in s.cache ensures LastOf(s.log, s.cache[k]) {
      PeacefulDelivers(s, k);
    }
  }

  ghost predicate QuietRun(s: State, steps: seq<Step>)
    decreases |steps|
  {
    steps == [] || (Enabled(s, steps[0]) && Quiet(steps[0]) && QuietRun(Apply(s, steps[0]), steps[1..]))
  }

  ghost function After(s: State, steps: seq<Step>): State
    requires QuietRun(s, steps)
    decreases |steps|
  {
    if steps == [] then s else After(Apply(s, steps[0]), steps[1..])
  }

  ghost function BusySteps(s: State, steps: seq<Step>): nat
    requires QuietRun(s, steps)
    decreases |steps|
  {
    if steps == [] then 0
    else (if Busy(s, steps[0]) then 1 else 0) + BusySteps(Apply(s, steps[0]), steps[1..])
  }

  /** Every schedule of the sessions' own steps, attached and with nothing new sent: only so many of its steps have
      work to do, whatever their order, and one that leaves nothing undone has delivered everything cached. */
  lemma {:induction false} EveryScheduleDelivers(s: State, steps: seq<Step>)
    requires Inv(s) && Attached(s) && QuietRun(s, steps)
    ensures BusySteps(s, steps) <= Work(s)
    ensures var s' := After(s, steps);
      && Inv(s') && Attached(s') && s'.cache == s.cache
      && (!CanWork(s') ==> forall k :: k in s.cache ==> LastOf(s'.log, s.cache[k]))
    decreases |steps|
  {
    if steps == [] {
      if !CanWork(s) {
        DoneIsDelivered(s);
      }
    } else {
      QuietStep(s, steps[0]);
      StepKeepsInv(s, steps[0]);
      EveryScheduleDelivers(Apply(s, steps[0]), steps[1..]);
    }
  }

  // ---------------------------------------------------------------- what no restore owes

  lemma UnowingStays(me: Session)
    requires SessionOk(me) && !Owing(me) && me.zids != {}
    ensures Can(me, Turn(me)) && !Owing(Moved(me, Turn(me))) && !Turn(me).Starts?
    ensures Moved(me, Turn(me)).probe.Working? ==> me.probe.Working?
  {
  }

  lemma UncoveredBySession(s: State, step: Step, x: Sample)
    requires Sound(s) && Attached(s) && Enabled(s, step) && Quiet(step) && OfSession(step)
    requires Cached(s, x) && !Covered(s, x)
    ensures !Covered(Apply(s, step), x)
  {
    QuietIsTurn(s, step);
    UnowingStays(Of(s, WhoOf(step)));
    match step
    case LinkMove(who, move) => assert Apply(s, step) == With(s, who, Moved(Of(s, who), move));
    case Finish(who) => assert Apply(s, step) == With(s, who, Moved(Of(s, who), Finishes));
  }

  lemma UncoveredByDelivery(s: State, y: Sample, x: Sample)
    requires CacheOk(s) && SamplesOk(s) && Cached(s, x) && Held(s, y) && y != x && !Arrived(s, x)
    ensures !Arrived(Dispatch(s, y), x)
  {
    assert Genuine(s, y);
  }

  lemma UncoveredByPut(s: State, step: Step, x: Sample)
    requires Sound(s) && Enabled(s, step) && (step.Reput? || step.Put?)
    requires Cached(s, x) && !Covered(s, x)
    ensures !Covered(Apply(s, step), x)
  {
    match step
    case Reput(_) =>
    case Put(_) =>
  }

  lemma UncoveredByDispatch(s: State, step: Step, x: Sample)
    requires Sound(s) && Enabled(s, step) && (step.Deliver? || step.DeliverReply?)
    requires Cached(s, x) && !Covered(s, x)
    ensures !Covered(Apply(s, step), x)
  {
    UncoveredByDelivery(s, step.sample, x);
    var d := if step.Deliver? then s.(net := s.net - multiset{step.sample})
             else s.(replies := s.replies - multiset{step.sample});
    assert Apply(s, step) == Dispatch(d, step.sample);
    assert Dispatch(d, step.sample) == d.(seen := Dispatch(d, step.sample).seen, log := Dispatch(d, step.sample).log);
  }

  lemma UncoveredByData(s: State, step: Step, x: Sample)
    requires Sound(s) && Enabled(s, step) && Quiet(step) && !OfSession(step)
    requires Cached(s, x) && !Covered(s, x)
    ensures !Covered(Apply(s, step), x)
  {
    if step.Reput? || step.Put? {
      UncoveredByPut(s, step, x);
    } else {
      UncoveredByDispatch(s, step, x);
    }
  }

  /** What has not arrived, is not on its way and is owed by no restore stays so, with nothing new sent or lost. */
  lemma UncoveredStays(s: State, step: Step, x: Sample)
    requires Sound(s) && Attached(s) && Enabled(s, step) && Quiet(step)
    requires Cached(s, x) && !Covered(s, x)
    ensures !Covered(Apply(s, step), x)
  {
    if OfSession(step) {
      UncoveredBySession(s, step, x);
    } else {
      UncoveredByData(s, step, x);
    }
  }

  // ---------------------------------------------------------------- and one that settles

  function Reading(me: Session): nat {
    if me.probe.Read? then 1 else 0
  }

  /** The end of a tick that found nothing. */
  lemma TickEnds(s: State, who: Who) returns (step: Step)
    requires Sound(s) && Attached(s) && AtPeace(Of(s, who)) && Of(s, who).probe.Read?
    ensures Enabled(s, step) && Quiet(step)
    ensures var s' := Apply(s, step);
      && Sound(s') && Attached(s') && s'.cache == s.cache && Work(s') == Work(s)
      && Reading(s'.pub) + Reading(s'.sub) < Reading(s.pub) + Reading(s.sub)
  {
    step := LinkMove(who, Decides);
    QuietStep(s, step);
  }

  lemma NextState(s: State) returns (step: Step)
    requires Sound(s) && Attached(s) && !Settled(s)
    ensures Enabled(s, step) && Quiet(step) && SeenStep(s, step)
    ensures var s' := Apply(s, step);
      && Sound(s') && Attached(s') && s'.cache == s.cache
      && (Work(s') < Work(s)
          || (Work(s') == Work(s) && Reading(s'.pub) + Reading(s'.sub) < Reading(s.pub) + Reading(s.sub)))
  {
    if CanWork(s) {
      step :| Enabled(s, step) && Quiet(step) && Busy(s, step);
      QuietStep(s, step);
    } else {
      DoneIsPeaceful(s);
      step := TickEnds(s, if s.pub.probe.Read? then Publisher else Subscriber);
      QuietStep(s, step);
    }
  }

  /** From any attached state the pair can settle, and what no restore owed before is none the nearer. */
  lemma {:induction false} Settles(s: State) returns (run: seq<State>)
    requires Sound(s) && Attached(s)
    ensures SeenRun(run) && run[0] == s && Settled(run[|run|-1])
    ensures run[|run|-1].cache == s.cache && Sound(run[|run|-1])
    ensures forall k :: k in s.cache && !Covered(s, s.cache[k]) ==> !Covered(run[|run|-1], s.cache[k])
    decreases Work(s), Reading(s.pub) + Reading(s.sub)
  {
    if Settled(s) {
      run := [s];
    } else {
      var step := NextState(s);
      var s' := Apply(s, step);
      forall k | k in s.cache && !Covered(s, s.cache[k]) ensures !Covered(s', s.cache[k]) {
        UncoveredStays(s, step, s.cache[k]);
      }
      var rest := Settles(s');
      run := Prepend(s, step, rest);
    }
  }

  /** And then everything cached has been delivered. */
  lemma RestoresComplete(s: State) returns (run: seq<State>)
    requires Inv(s) && Attached(s)
    ensures SeenRun(run) && run[0] == s && Settled(run[|run|-1])
    ensures run[|run|-1].cache == s.cache
    ensures forall k :: k in s.cache ==> LastOf(run[|run|-1].log, s.cache[k])
  {
    run := Settles(s);
    RunKeepsInv(run);
    forall k | k in s.cache ensures LastOf(run[|run|-1].log, s.cache[k]) {
      SettledDelivers(run[|run|-1], k);
    }
  }

  lemma Prepend(s: State, step: Step, rest: seq<State>) returns (run: seq<State>)
    requires Enabled(s, step) && SeenStep(s, step) && SeenRun(rest) && rest[0] == Apply(s, step)
    ensures SeenRun(run) && run == [s] + rest
  {
    run := [s] + rest;
    assert SeenFollows(s, rest[0]);
    forall i | 0 <= i < |run| - 1 ensures SeenFollows(run[i], run[i+1]) {
      if i > 0 {
        var m := i - 1;
        assert SeenFollows(rest[m], rest[m+1]);
      }
    }
  }
}
