/** One session's link: its router set, the probe's ticks, and the claim of a restore
    (zeared/_reconnect/_link.py). */
module Link {
  type Zid = nat

  datatype LinkState = Up | Lost | Restoring

  datatype Verdict =
    | Steady        // nothing to do
    | Loss          // the routers dropped to none
    | Bounce        // lost and back between two ticks
    | Return        // routers again, while not up

  /** What `_check_link` decides from the last tick's router set and this one's. */
  function Judge(link: LinkState, before: set<Zid>, zids: set<Zid>): Verdict {
    if link == Up then
      if before != {} && zids == {} then Loss
      else if before != {} && zids != {} && before !! zids then Bounce
      else Steady
    else if zids != {} then Return
    else Steady
  }

  /** A tick that compares `before` with `zids` takes an up link for lost. */
  predicate Gap(before: set<Zid>, zids: set<Zid>) {
    before != {} && before !! zids
  }

  /** Where a session's probe thread stands. */
  datatype Probe =
    | Idle
    | Read(before: set<Zid>, zids: set<Zid>)   // the tick has read the routers and moved its baseline
    | Losing(back: bool)                       // about to mark the link lost
    | Claiming                                 // about to claim the restore
    | Claimed                                  // claimed; its restore has done nothing yet
    | Working                                  // its republish or its walk is under way

  /** `zids` is what the session is attached to, `routers` the probe's baseline. */
  datatype Session = Session(zids: set<Zid>, routers: set<Zid>, link: LinkState, probe: Probe)

  datatype Move =
    | Detaches
    | Attaches(zids: set<Zid>)
    | Drifts(zids: set<Zid>)
    | Ticks
    | Decides
    | Loses
    | Claims
    | Starts
    | Finishes

  predicate Can(me: Session, move: Move) {
    match move
    case Detaches => me.zids != {}
    case Attaches(zids) => me.zids == {} && zids != {}
    // The set changes while some router stays.
    case Drifts(zids) => me.zids * zids != {}
    case Ticks => me.probe.Idle?
    case Decides => me.probe.Read?
    case Loses => me.probe.Losing?
    case Claims => me.probe.Claiming?
    case Starts => me.probe.Claimed?
    case Finishes => me.probe.Working?
  }


  function Moved(me: Session, move: Move): Session
    requires Can(me, move)
  {
    match move
    case Detaches => me.(zids := {})
    case Attaches(zids) => me.(zids := zids)
    case Drifts(zids) => me.(zids := zids)
    case Ticks => me.(routers := me.zids, probe := Read(me.routers, me.zids))
    case Decides =>
      (match Judge(me.link, me.probe.before, me.probe.zids)
       case Steady => me.(probe := Idle)
       case Loss => me.(probe := Losing(false))
       case Bounce => me.(probe := Losing(true))
       case Return => me.(probe := Claiming))
    case Loses => me.(link := Lost, probe := if me.probe.back then Claiming else Idle)
    case Claims =>
      if me.link == Lost then me.(link := Restoring, probe := Claimed) else me.(probe := Idle)
    case Starts => me.(probe := Working)
    case Finishes => me.(link := if me.link == Restoring then Up else me.link, probe := Idle)
  }

  /** A loss the session has not yet begun to make good. */
  ghost predicate Unsettled(me: Session) {
    || Gap(me.routers, me.zids)
    || (me.probe.Read? && Gap(me.probe.before, me.probe.zids))
    || me.probe.Losing?
    || me.link == Lost
  }

  /** Its restore has everything still to bring. */
  ghost predicate Owing(me: Session) {
    Unsettled(me) || me.probe.Claimed?
  }

  /** The move hides no loss: what comes back unseen by any tick comes back with a new zid, or its restore is owed
      all the same. */
  ghost predicate Seen(me: Session, move: Move) {
    match move
    case Attaches(zids) => me.routers !! zids || Owing(me.(zids := zids))
    case Drifts(zids) => (Gap(me.routers, me.zids) ==> Gap(me.routers, zids)) || Owing(me.(zids := zids))
    case _ => true
  }

  ghost predicate SessionOk(me: Session) {
    && (me.link == Restoring <==> me.probe.Claimed? || me.probe.Working?)
    && (me.probe.Losing? ==> me.link == Up)
    && (me.probe.Claiming? ==> me.link == Lost)
    && (me.probe.Read? ==> me.routers == me.probe.zids)
    && (me.routers == {} ==>
          || (me.link == Lost && (me.probe.Idle? || me.probe.Read?))
          || (me.probe.Read? && Gap(me.probe.before, {}))
          || me.probe == Losing(false))
    && (me.zids == {} ==> Unsettled(me))
  }

  /** No move forgets a loss: until the restore starts, whatever it owed it still owes. */
  lemma MoveKeepsOwing(me: Session, move: Move)
    requires SessionOk(me) && Can(me, move)
    ensures SessionOk(Moved(me, move))
    ensures Seen(me, move) && Owing(me) && !move.Starts? ==> Owing(Moved(me, move))
    ensures me.probe.Working? && !move.Finishes? ==> Moved(me, move).probe.Working?
  {
  }

  /** Nothing outstanding: the link is up, the probe at rest, and no loss waits for its tick. */
  ghost predicate Whole(me: Session) {
    me.link == Up && me.probe.Idle? && !Gap(me.routers, me.zids)
  }

  lemma WholeIsAttached(me: Session)
    requires SessionOk(me) && Whole(me)
    ensures me.zids != {} && !Owing(me) && !me.probe.Working?
  {
  }

  // ---------------------------------------------------------------- progress

  /** The probe's next move of its own accord. */
  function Turn(me: Session): Move {
    match me.probe
    case Idle => Ticks
    case Read(_, _) => Decides
    case Losing(_) => Loses
    case Claiming => Claims
    case Claimed => Starts
    case Working => Finishes
  }

  /** How many turns an attached session's probe is from whole, if its routers stay as they are. */
  ghost function TurnsLeft(me: Session): nat {
    var again := if Gap(me.routers, me.zids) then 6 else 0;
    match me.probe
    case Idle => if me.link == Up then again else 5
    case Read(b, z) =>
      if me.link == Up then if Gap(b, z) then (if z == {} then 7 else 5 + again) else 1 + again
      else if z == {} then 6 else 4 + again
    case Losing(back) => if back then 4 + again else 6
    case Claiming => 3 + again
    case Claimed => 2 + again
    case Working => 1 + again
  }

  lemma TurnsRunOut(me: Session)
    requires SessionOk(me) && me.zids != {}
    ensures Whole(me) <==> TurnsLeft(me) == 0
    ensures !Whole(me) ==> Can(me, Turn(me)) && TurnsLeft(Moved(me, Turn(me))) < TurnsLeft(me)
    ensures !Whole(me) ==> Moved(me, Turn(me)).zids == me.zids
  {
    assert !Gap(me.zids, me.zids);
  }
}
