/** The session state the probe, the reconnect worker and the senders share
    (zeared/_managed_session/_managed_session.py, zeared/_reconnect/_link.py). */
module ManagedSession {
  import opened Link

  datatype Phase = IDLE | RECONNECTING | DEAD

  datatype Signal = LinkLostFired | LinkRestoredFired

  /** The shared fields, as one value. */
  datatype Shared = Shared(
    raw: nat,                 // which raw session is current
    phase: Phase,
    link: LinkState,
    restoring: bool,          // raised for the whole of a reconnect
    routers: set<Zid>,
    signal: bool,             // the reconnect Event
    cancel: bool,             // the teardown Event
    fired: seq<Signal>)       // the link signals committed so far

  // ---------------------------------------------------------------- critical sections

  /** The compare-and-set of `_trigger_reconnect`; `Wins` says whether it is this trigger's to signal. */
  function Triggered(s: Shared): Shared {
    if s.phase == IDLE then s.(phase := RECONNECTING) else s
  }

  predicate Wins(s: Shared) {
    s.phase == IDLE
  }

  function Swapped(s: Shared, raw: nat): Shared {
    s.(raw := raw, phase := IDLE)
  }

  function LostLink(s: Shared): Shared {
    s.(link := Lost, fired := if s.link == Up then s.fired + [LinkLostFired] else s.fired)
  }

  function ClaimedLink(s: Shared): Shared {
    if s.link == Lost then s.(link := Restoring) else s
  }

  function CommittedLink(s: Shared): Shared {
    if s.link == Restoring then s.(link := Up, fired := s.fired + [LinkRestoredFired]) else s
  }

  /** A whole tick of link detection: `zids` is what it reads, if anything. */
  function Ticked(s: Shared, readable: bool, zids: set<Zid>): Shared {
    if !readable then s
    else
      var s1 := s.(routers := zids);
      match Judge(s.link, s.routers, zids)
      case Steady => s1
      case Loss => LostLink(s1)
      case Bounce => CommittedLink(ClaimedLink(LostLink(s1)))
      case Return => if s.link == Lost then CommittedLink(ClaimedLink(s1)) else s1
  }

  // ---------------------------------------------------------------- paired signals

  function Count(fired: seq<Signal>, which: Signal): nat {
    if fired == [] then 0
    else Count(fired[..|fired|-1], which) + (if fired[|fired|-1] == which then 1 else 0)
  }

  /** Lost, restored, lost, ... starting with lost. */
  ghost predicate Alternates(fired: seq<Signal>) {
    forall i :: 0 <= i < |fired| ==> fired[i] == if i % 2 == 0 then LinkLostFired else LinkRestoredFired
  }

  /** The signals alternate, and the last one out was a loss exactly when the link is not up. */
  ghost predicate Paired(s: Shared) {
    Alternates(s.fired) && (|s.fired| % 2 == 1 <==> s.link != Up)
  }

  /** A loss, a claim and a commit keep the signals paired. */
  lemma MovesArePaired(s: Shared)
    requires Paired(s)
    ensures Paired(LostLink(s)) && Paired(ClaimedLink(s)) && Paired(CommittedLink(s))
  {
  }

  lemma {:induction false} AlternatingCounts(fired: seq<Signal>)
    requires Alternates(fired)
    ensures Count(fired, LinkLostFired) == Count(fired, LinkRestoredFired) + |fired| % 2
  {
    if fired != [] {
      AlternatingCounts(fired[..|fired|-1]);
    }
  }

  class Session {
    var raw: nat
    var phase: Phase
    var link: LinkState
    var restoring: bool
    var routers: set<Zid>
    var signal: bool
    var cancel: bool
    var fired: seq<Signal>

    function View(): Shared
      reads this
    {
      Shared(raw, phase, link, restoring, routers, signal, cancel, fired)
    }

    constructor (raw: nat, routers: set<Zid>)
      ensures View() == Shared(raw, IDLE, Up, false, routers, false, false, [])
    {
      this.raw, phase, link, restoring := raw, IDLE, Up, false;
      this.routers, signal, cancel, fired := routers, false, false, [];
    }

    /** `_trigger_reconnect`. */
    method TriggerReconnect()
      modifies this
      ensures View() == (if Wins(old(View())) then Triggered(old(View())).(signal := true) else old(View()))
    {
      if phase == RECONNECTING || phase == DEAD {
        return;
      }
      phase := RECONNECTING;
      signal := true;
    }

    /** `_note_failure`: only a dead raw session triggers. */
    method NoteFailure(isDead: bool)
      modifies this
      ensures View() == (if isDead && Wins(old(View())) then Triggered(old(View())).(signal := true) else old(View()))
    {
      if isDead {
        TriggerReconnect();
      }
    }

    /** `_guard_alive`: whether an operation is refused with `SessionDeadError`. */
    method GuardAlive() returns (refused: bool)
      ensures refused <==> View().phase != IDLE
    {
      refused := phase == RECONNECTING || phase == DEAD;
    }

    method SwapRaw(newRaw: nat) returns (oldRaw: nat)
      modifies this
      ensures View() == Swapped(old(View()), newRaw) && oldRaw == old(raw)
      ensures raw == newRaw && phase == IDLE
      ensures (link, restoring, routers) == old((link, restoring, routers))
      ensures (signal, cancel, fired) == old((signal, cancel, fired))
    {
      oldRaw, raw := raw, newRaw;
      phase := IDLE;
    }

    method LinkLost()
      modifies this
      ensures View() == LostLink(old(View()))
      ensures link == Lost && fired == old(fired) + if old(link) == Up then [LinkLostFired] else []
      ensures (raw, phase, restoring, routers, signal, cancel) == old((raw, phase, restoring, routers, signal, cancel))
    {
      var was := link;
      link := Lost;
      if was == Up {
        fired := fired + [LinkLostFired];
      }
    }

    method ClaimRestore() returns (mine: bool)
      modifies this
      ensures View() == ClaimedLink(old(View())) && (mine <==> old(link) == Lost)
      ensures View() == old(View()).(link := if mine then Restoring else old(link))
    {
      if link != Lost {
        return false;
      }
      link := Restoring;
      mine := true;
    }

    method CommitRestore()
      modifies this
      ensures View() == CommittedLink(old(View()))
      ensures old(link) != Restoring ==> View() == old(View())
      ensures old(link) == Restoring ==> View() == old(View()).(link := Up, fired := old(fired) + [LinkRestoredFired])
    {
      if link != Restoring {
        return;
      }
      link := Up;
      fired := fired + [LinkRestoredFired];
    }

    /** One undisturbed probe tick of link detection: `zids` is what it reads, if anything. */
    method CheckLink(readable: bool, zids: set<Zid>) returns (verdict: Verdict)
      requires Paired(View())
      modifies this
      ensures Paired(View()) && View() == Ticked(old(View()), readable, zids)
      ensures verdict == if readable then Judge(old(link), old(routers), zids) else Steady
      ensures routers == if readable then zids else old(routers)
      ensures link == (match verdict case Steady => old(link) case Loss => Lost
                                     case Bounce => Up case Return => if old(link) == Lost then Up else old(link))
      ensures fired == old(fired) + (match verdict
                case Steady => []
                case Loss => [LinkLostFired]
                case Bounce => [LinkLostFired, LinkRestoredFired]
                case Return => if old(link) == Lost then [LinkRestoredFired] else [])
      ensures (raw, phase, restoring, signal, cancel) == old((raw, phase, restoring, signal, cancel))
    {
      verdict := Steady;
      if !readable {
        return;
      }
      var before := routers;
      routers := zids;
      verdict := Judge(link, before, zids);
      if verdict == Loss || verdict == Bounce {
        LinkLost();
      }
      if verdict == Bounce || verdict == Return {
        var mine := ClaimRestore();
        if mine {
          CommitRestore();
        }
      }
    }

    method Teardown()
      modifies this
      ensures View() == old(View()).(cancel := true, signal := true)
    {
      cancel := true;
      signal := true;
    }
  }
}
