/** Exactly when convergence holds: from which starts, and after which returns of a lost link
    (zeared/_reconnect/_link.py, zeared/_reconnect/_reconnect.py). */
module Baselines {
  import opened Convergence
  import opened Link
  import opened Schedules

  /** Everything still cached is what was last delivered of its key. */
  ghost predicate Delivered(s: State) {
    forall k :: k in s.cache ==> LastOf(s.log, s.cache[k])
  }

  /** However the run goes on, hiding no loss: whenever it is settled, everything is delivered. */
  ghost predicate Converges(s: State) {
    forall run: seq<State> :: SeenRun(run) && run[0] == s && Settled(run[|run|-1]) ==> Delivered(run[|run|-1])
  }

  lemma SettledDeliversAll(s: State)
    requires Inv(s) && Settled(s)
    ensures Delivered(s)
  {
    forall k | k in s.cache ensures LastOf(s.log, s.cache[k]) {
      SettledDelivers(s, k);
    }
  }

  lemma InvConverges(s: State)
    requires Inv(s)
    ensures Converges(s)
  {
    forall run: seq<State> | SeenRun(run) && run[0] == s && Settled(run[|run|-1]) ensures Delivered(run[|run|-1]) {
      RunKeepsInv(run);
      SettledDeliversAll(run[|run|-1]);
    }
  }

  lemma Extend(run: seq<State>, step: Step) returns (longer: seq<State>)
    requires SeenRun(run) && Enabled(run[|run|-1], step) && SeenStep(run[|run|-1], step)
    ensures SeenRun(longer) && longer[0] == run[0] && longer[|longer|-1] == Apply(run[|run|-1], step)
  {
    longer := run + [Apply(run[|run|-1], step)];
    forall i | 0 <= i < |longer| - 1 ensures SeenFollows(longer[i], longer[i+1]) {
      if i < |run| - 1 {
        assert SeenFollows(run[i], run[i+1]);
      }
    }
  }

  // ---------------------------------------------------------------- a start with no baseline

  function Other(who: Who): Who {
    if who.Publisher? then Subscriber else Publisher
  }

  lemma Bound(zids: set<Zid>) returns (b: Zid)
    ensures forall z :: z in zids ==> z < b
    decreases |zids|
  {
    if zids == {} {
      b := 0;
    } else {
      var z :| z in zids;
      var rest := Bound(zids - {z});
      b := if z < rest then rest else z + 1;
      forall y | y in zids ensures y < b {
        assert y == z || y in zids - {z};
      }
    }
  }

  lemma Leaves(run: seq<State>, who: Who) returns (longer: seq<State>)
    requires SeenRun(run) && Fresh(run[|run|-1])
    ensures SeenRun(longer) && longer[0] == run[0]
    ensures longer[|longer|-1] == With(run[|run|-1], who, Of(run[|run|-1], who).(zids := {}))
  {
    if Of(run[|run|-1], who).zids == {} {
      longer := run;
    } else {
      longer := Extend(run, Detach(who, multiset{}, multiset{}, false));
    }
  }

  lemma Returns(run: seq<State>, who: Who) returns (longer: seq<State>)
    requires SeenRun(run) && Of(run[|run|-1], who).zids == {}
    ensures SeenRun(longer) && longer[0] == run[0]
    ensures var me, me' := Of(run[|run|-1], who), Of(longer[|longer|-1], who);
      && longer[|longer|-1] == With(run[|run|-1], who, me')
      && me' == me.(zids := me'.zids) && me'.zids != {} && me'.zids !! me.routers
  {
    var b := Bound(Of(run[|run|-1], who).routers);
    longer := Extend(run, LinkMove(who, Attaches({b})));
  }

  /** A bounce the tick sees, up to the claim of its restore. */
  lemma ClaimsBounce(run: seq<State>, who: Who) returns (longer: seq<State>)
    requires SeenRun(run)
    requires var me := Of(run[|run|-1], who);
      me == Session(me.zids, me.routers, Up, Idle) && me.zids != {} && Gap(me.routers, me.zids)
    ensures SeenRun(longer) && longer[0] == run[0]
    ensures var zids := Of(run[|run|-1], who).zids;
      longer[|longer|-1] == With(run[|run|-1], who, Session(zids, zids, Restoring, Claimed))
  {
    longer := Extend(run, LinkMove(who, Ticks));
    longer := Extend(longer, LinkMove(who, Decides));
    longer := Extend(longer, LinkMove(who, Loses));
    longer := Extend(longer, LinkMove(who, Claims));
  }

  /** A restore with nothing to bring. */
  lemma RestoresNothing(run: seq<State>, who: Who, zids: set<Zid>) returns (longer: seq<State>)
    requires SeenRun(run) && Of(run[|run|-1], who) == Session(zids, zids, Restoring, Claimed)
    requires var s := run[|run|-1];
      s.cache == map[] && s.toPut == {} && !s.query && s.replies == multiset{} && !Attached(s)
    ensures SeenRun(longer) && longer[0] == run[0]
    ensures longer[|longer|-1] == With(run[|run|-1], who, Session(zids, zids, Up, Idle))
  {
    assert Entries(map[]) == {};
    longer := Extend(run, if who.Publisher? then Snapshot else Ask);
    longer := Extend(longer, Finish(who));
  }

  /** While the other side is detached, this one gets its link whole. */
  lemma GetsWhole(run: seq<State>, who: Who) returns (longer: seq<State>)
    requires SeenRun(run) && Fresh(run[|run|-1]) && Of(run[|run|-1], Other(who)).zids == {}
    ensures SeenRun(longer) && longer[0] == run[0]
    ensures var me := Of(longer[|longer|-1], who);
      && longer[|longer|-1] == With(run[|run|-1], who, me)
      && Whole(me) && me.zids != {} && Fresh(longer[|longer|-1])
  {
    longer := run;
    if Of(run[|run|-1], who).zids == {} {
      longer := Returns(longer, who);
    }
    var me := Of(longer[|longer|-1], who);
    if Gap(me.routers, me.zids) {
      longer := ClaimsBounce(longer, who);
      longer := RestoresNothing(longer, who, me.zids);
    }
  }

  /** A value put while `who` is detached reaches nobody. */
  lemma PutsToNobody(run: seq<State>, x: Sample) returns (longer: seq<State>)
    requires SeenRun(run) && Fresh(run[|run|-1]) && !Attached(run[|run|-1])
    ensures SeenRun(longer) && longer[0] == run[0]
    ensures longer[|longer|-1] == run[|run|-1].(cache := map[x.key := x], newest := map[x.key := x.ts])
  {
    longer := Extend(run, Store(x));
    longer := Extend(longer, Put(x.key));
  }

  /** From a start where `who` has no baseline: it detaches, a value is put, it returns, and no tick can tell. */
  lemma FailsFrom(s: State, who: Who) returns (run: seq<State>)
    requires Fresh(s) && Of(s, who).routers == {}
    ensures SeenRun(run) && run[0] == s && Settled(run[|run|-1])
    ensures "k" in run[|run|-1].cache && run[|run|-1].log == []
  {
    run := Leaves([s], who);
    run := GetsWhole(run, Other(who));
    run := PutsToNobody(run, Sample("k", 0, ""));
    run := Returns(run, who);
  }

  lemma FreshIsFit(s: State)
    requires Fresh(s)
    ensures Inv(s) <==> s.pub.routers != {} && s.sub.routers != {}
  {
  }

  /** Which starts converge: exactly those where both probes have a baseline, attached or not. */
  lemma FreshConvergesExactly(s: State)
    requires Fresh(s)
    ensures Converges(s) <==> s.pub.routers != {} && s.sub.routers != {}
  {
    if s.pub.routers != {} && s.sub.routers != {} {
      FreshIsFit(s);
      InvConverges(s);
    } else {
      var run := FailsFrom(s, if s.pub.routers == {} then Publisher else Subscriber);
      assert !LastOf(run[|run|-1].log, run[|run|-1].cache["k"]);
    }
  }

  // ---------------------------------------------------------------- from any state on

  lemma LastHasArrived(s: State, x: Sample)
    requires WatermarksOk(s) && LastOf(s.log, x)
    ensures Arrived(s, x)
  {
  }

  lemma UncoveredIsUndelivered(s: State, k: Key)
    requires Sound(s) && k in s.cache && !Covered(s, s.cache[k])
    ensures !LastOf(s.log, s.cache[k])
  {
    if LastOf(s.log, s.cache[k]) {
      LastHasArrived(s, s.cache[k]);
    }
  }

  /** Which states converge: exactly those where each cached value has arrived, is on its way, or is owed by a restore
      of one side or the other. */
  lemma ConvergesExactly(s: State)
    requires Sound(s)
    ensures Converges(s) <==> AllCovered(s)
  {
    if AllCovered(s) {
      InvConverges(s);
    } else {
      var k :| k in s.cache && !Covered(s, s.cache[k]);
      assert Attached(s);
      var run := Settles(s);
      UncoveredIsUndelivered(run[|run|-1], k);
    }
  }

  lemma FollowsKeepsSound(s: State, s': State)
    requires Sound(s) && Follows(s, s')
    ensures Sound(s')
  {
    var step :| Enabled(s, step) && s' == Apply(s, step);
    StepKeepsSound(s, step);
  }

  lemma Shorter(run: seq<State>)
    requires IsRun(run) && |run| > 1
    ensures IsRun(run[..|run|-1]) && Follows(run[|run|-2], run[|run|-1])
  {
    var m := |run| - 2;
    assert Follows(run[m], run[m+1]);
  }

  lemma {:induction false} RunKeepsSound(run: seq<State>)
    requires IsRun(run) && Sound(run[0])
    ensures Sound(run[|run|-1])
  {
    if |run| > 1 {
      var m := |run| - 2;
      Shorter(run);
      RunKeepsSound(run[..m+1]);
      assert run[..m+1][m] == run[m];
      FollowsKeepsSound(run[m], run[m+1]);
    }
  }

  /** So for every run from baselined sessions, hidden losses or not, wherever it has come to. */
  lemma RunConvergesExactly(run: seq<State>)
    requires IsRun(run) && Init(run[0])
    ensures Converges(run[|run|-1]) <==> AllCovered(run[|run|-1])
  {
    FreshIsFit(run[0]);
    RunKeepsSound(run);
    ConvergesExactly(run[|run|-1]);
  }

  // ---------------------------------------------------------------- a return through the same router

  /** Which changes of the routers converge, on either side and whatever is under way: exactly those that hide no loss
      or leave every cached value arrived, on its way, or owed all the same. */
  lemma ReturnConvergesExactly(s: State, who: Who, move: Move)
    requires Inv(s) && (move.Attaches? || move.Drifts?) && Can(Of(s, who), move)
    ensures var s' := Apply(s, LinkMove(who, move));
      Converges(s') <==> Seen(Of(s, who), move) || AllCovered(s')
  {
    var step := LinkMove(who, move);
    StepKeepsSound(s, step);
    ConvergesExactly(Apply(s, step));
    if Seen(Of(s, who), move) {
      StepKeepsInv(s, step);
    }
  }

  /** Nothing on its way, and the other side whole: `who` has lost its link, and no tick has seen it yet. */
  ghost predicate JustLost(s: State, who: Who) {
    var me, other := Of(s, who), Of(s, Other(who));
    && me.zids == {} && me.link == Up && me.probe == Idle
    && other.zids != {} && Whole(other)
    && s.sending == map[] && s.net == multiset{} && s.replies == multiset{} && !s.query
  }

  ghost predicate AllArrived(s: State) {
    forall k :: k in s.cache ==> Arrived(s, s.cache[k])
  }

  /** So with the other side whole and nothing on its way, a return converges exactly when its routers are all new to
      the baseline, or nothing was missed. */
  lemma LoneReturnConvergesExactly(s: State, who: Who, zids: set<Zid>)
    requires Inv(s) && JustLost(s, who) && zids != {}
    ensures Converges(Apply(s, LinkMove(who, Attaches(zids)))) <==> Of(s, who).routers !! zids || AllArrived(s)
  {
    var s' := Apply(s, LinkMove(who, Attaches(zids)));
    ReturnConvergesExactly(s, who, Attaches(zids));
    assert s' == With(s, who, Of(s', who));
    forall k | k in s.cache && !Seen(Of(s, who), Attaches(zids))
      ensures Covered(s', s'.cache[k]) <==> Arrived(s, s.cache[k])
    {
    }
  }

  // ---------------------------------------------------------------- inputs

  lemma Take(run: seq<State>, step: Step) returns (longer: seq<State>)
    requires IsRun(run) && Enabled(run[|run|-1], step)
    ensures IsRun(longer) && longer[0] == run[0] && longer[|longer|-1] == Apply(run[|run|-1], step)
  {
    longer := run + [Apply(run[|run|-1], step)];
    forall i | 0 <= i < |longer| - 1 ensures Follows(longer[i], longer[i+1]) {
      if i < |run| - 1 {
        assert Follows(run[i], run[i+1]);
      }
    }
  }

  /** A router that restarts between two ticks and keeps its zid: no tick sees the loss. */
  lemma SameZidHidesALoss(k: Key) returns (run: seq<State>)
    ensures IsRun(run) && Init(run[0]) && Attached(run[0])
    ensures Settled(run[|run|-1]) && k in run[|run|-1].cache && run[|run|-1].log == []
  {
    var on := Session({1}, {1}, Up, Idle);
    var s0 := State(on, on, map[], map[], map[], {}, multiset{}, false, multiset{}, map[], []);
    run := Take([s0], Detach(Publisher, multiset{}, multiset{}, false));
    assert run[|run|-1] == s0.(pub := Session({}, {1}, Up, Idle));
    run := Take(run, Store(Sample(k, 0, "")));
    run := Take(run, Put(k));
    run := Take(run, LinkMove(Publisher, Attaches({1})));
  }

  /** A session whose first router comes after its first send: the first attach is a baseline, not a restore, so
      nothing republishes what was sent before it. */
  lemma FirstAttachIsNotARestore(k: Key) returns (run: seq<State>)
    ensures SeenRun(run) && Fresh(run[0]) && run[0].pub == Session({}, {}, Up, Idle) && run[0].sub.routers != {}
    ensures Settled(run[|run|-1]) && k in run[|run|-1].cache && run[|run|-1].log == []
  {
    var on := Session({1}, {1}, Up, Idle);
    var s0 := State(Session({}, {}, Up, Idle), on, map[], map[], map[], {}, multiset{}, false, multiset{}, map[], []);
    run := PutsToNobody([s0], Sample(k, 0, ""));
    run := Extend(run, LinkMove(Publisher, Attaches({2})));
    run := Extend(run, LinkMove(Publisher, Ticks));
    run := Extend(run, LinkMove(Publisher, Decides));
  }
}
