/** A subscriber's sample pipeline: dedupe watermark, skew ceiling, schema-mismatch cache
    (zeared/subscriber/_subscriber_dispatch.py). */
module Dispatch {
  import opened Sequences
  import opened Wrappers
  import opened Timestamps

  datatype Origin = LIVE | REPLAY

  datatype Kind = PUT | DELETE

  /** `schema` is what its attachment names, `republished` its replay marker. */
  datatype Sample = Sample(kind: Kind, key: string, timestamp: Option<Timestamp>,
                           schema: Option<string>, republished: bool)

  /** What the callbacks and the decoder make of the sample. */
  datatype Handling = Handling(decodes: bool, callbackRaises: bool)

  datatype Outcome =
    | Removed                    // a tombstone, handed to on_remove
    | Ignored                    // a tombstone nobody takes
    | Duplicate                  // not newer than the watermark
    | Mismatched(reported: bool) // wrong schema; reported once per pair
    | Undecodable
    | CallbackFailed(origin: Origin)
    | Delivered(origin: Origin, pinged: bool)

  type Pair = (string, Option<string>)

  datatype Config = Config(dedupe: bool, maxSkew: Option<real>, schema: Option<string>,
                           mismatchMax: nat, onRemove: bool)

  // ---------------------------------------------------------------- the watermark

  /** `_within_skew`: close enough to `now` to move the watermark. */
  predicate WithinSkew(maxSkew: Option<real>, issued: Option<real>, now: real) {
    maxSkew.None? || issued.None? || issued.value - now <= maxSkew.value
  }

  predicate Passes(seen: map<string, string>, key: string, stamp: string) {
    key !in seen || !StrLe(stamp, seen[key])
  }

  /** One arrival of a stamped put at the dedupe. */
  datatype Arrival = Arrival(key: string, stamp: string, issued: Option<real>, now: real)

  function Advance(maxSkew: Option<real>, seen: map<string, string>, a: Arrival): map<string, string> {
    if Passes(seen, a.key, a.stamp) && WithinSkew(maxSkew, a.issued, a.now) then seen[a.key := a.stamp] else seen
  }

  /** The watermarks after every arrival of `history`. */
  function Watermarks(maxSkew: Option<real>, history: seq<Arrival>): map<string, string> {
    if history == [] then map[]
    else Advance(maxSkew, Watermarks(maxSkew, history[..|history|-1]), history[|history|-1])
  }

  /** Stamped no later than the ceiling allows, if there is one and the stamp can be read. */
  predicate InSkew(maxSkew: Option<real>, a: Arrival) {
    maxSkew.Some? && a.issued.Some? ==> a.issued.value <= a.now + maxSkew.value
  }

  /** An arrival of `key` that was in skew when it came. */
  ghost predicate Counts(maxSkew: Option<real>, history: seq<Arrival>, i: int, key: string) {
    0 <= i < |history| && history[i].key == key && InSkew(maxSkew, history[i])
  }

  /** `stamp` is the newest among the in-skew arrivals of `key`. */
  ghost predicate NewestInSkew(maxSkew: Option<real>, history: seq<Arrival>, key: string, stamp: string) {
    && (exists i :: Counts(maxSkew, history, i, key) && history[i].stamp == stamp)
    && (forall i :: Counts(maxSkew, history, i, key) ==> StrLe(history[i].stamp, stamp))
  }

  /** A key's watermark is the newest stamp among its samples that were in skew on arrival, and there is
      one exactly when there is such a sample. */
  lemma {:induction false} WatermarkIsNewestInSkew(maxSkew: Option<real>, history: seq<Arrival>, key: string)
    ensures var seen := Watermarks(maxSkew, history);
      && (key in seen <==> exists i :: Counts(maxSkew, history, i, key))
      && (key in seen ==> NewestInSkew(maxSkew, history, key, seen[key]))
  {
    if history != [] {
      var m := |history| - 1;
      var before, a := history[..m], history[m];
      WatermarkIsNewestInSkew(maxSkew, before, key);
      var was, seen := Watermarks(maxSkew, before), Watermarks(maxSkew, history);
      assert forall i :: 0 <= i < m ==> (Counts(maxSkew, history, i, key) <==> Counts(maxSkew, before, i, key));
      assert Counts(maxSkew, history, m, key) <==> a.key == key && WithinSkew(maxSkew, a.issued, a.now);
      if key in was {
        var i :| Counts(maxSkew, before, i, key) && before[i].stamp == was[key];
        assert Counts(maxSkew, history, i, key) && history[i].stamp == was[key];
      }
      forall i | Counts(maxSkew, history, i, key)
        ensures key in seen && StrLe(history[i].stamp, seen[key])
      {
        if i < m {
          assert StrLe(before[i].stamp, was[key]);
          if seen[key] != was[key] {
            NewerStill(before[i].stamp, was[key], a.stamp);
          }
        }
      }
    }
  }

  lemma NewerStill(a: string, b: string, c: string)
    requires StrLe(a, b) && !StrLe(c, b)
    ensures StrLe(a, c)
  {
    StrLtTotal(b, c);
    if a != b {
      StrLtTransitive(a, b, c);
    }
  }

  /** A stamped sample passes exactly when it is newer than every in-skew sample of its key before it:
      a far-future one, which is not in skew, blocks nothing. */
  lemma PassesExactlyWhenNewer(maxSkew: Option<real>, history: seq<Arrival>, a: Arrival)
    ensures Passes(Watermarks(maxSkew, history), a.key, a.stamp) <==>
              forall i :: Counts(maxSkew, history, i, a.key) ==> StrLt(history[i].stamp, a.stamp)
  {
    WatermarkIsNewestInSkew(maxSkew, history, a.key);
    var seen := Watermarks(maxSkew, history);
    if a.key in seen {
      var w := seen[a.key];
      StrLtTotal(w, a.stamp);
      StrLtIrreflexive(a.stamp);
      var j :| Counts(maxSkew, history, j, a.key) && history[j].stamp == w;
      forall i | Counts(maxSkew, history, i, a.key) && StrLt(w, a.stamp) ensures StrLt(history[i].stamp, a.stamp) {
        if history[i].stamp != w {
          StrLtTransitive(history[i].stamp, w, a.stamp);
        }
      }
      if StrLt(a.stamp, w) && StrLt(w, a.stamp) {
        StrLtTransitive(w, a.stamp, w);
        StrLtIrreflexive(w);
      }
    }
  }

  // ---------------------------------------------------------------- the schema-mismatch cache

  function Without(s: seq<Pair>, p: Pair): seq<Pair> {
    if s == [] then [] else (if s[0] == p then [] else [s[0]]) + Without(s[1..], p)
  }

  /** The ordered dict after a mismatch of `p`: touched if there, else added and the oldest evicted. */
  function Touched(cache: seq<Pair>, p: Pair, max: nat): seq<Pair> {
    if p in cache then Without(cache, p) + [p]
    else
      var added := cache + [p];
      if |added| > max then added[1..] else added
  }

  function CacheAfter(history: seq<Pair>, max: nat): seq<Pair> {
    if history == [] then [] else Touched(CacheAfter(history[..|history|-1], max), history[|history|-1], max)
  }

  /** Every pair of `history` once, by when it was last seen. */
  ghost function Recency(history: seq<Pair>): seq<Pair> {
    if history == [] then []
    else Without(Recency(history[..|history|-1]), history[|history|-1]) + [history[|history|-1]]
  }

  ghost function Last(s: seq<Pair>, k: nat): seq<Pair> {
    if |s| <= k then s else s[|s|-k..]
  }

  ghost predicate NoRepeats(s: seq<Pair>) {
    forall i, j :: 0 <= i < j < |s| ==> s[i] != s[j]
  }

  lemma {:induction false} WithoutAbsent(s: seq<Pair>, p: Pair)
    requires p !in s
    ensures Without(s, p) == s
  {
    if s != [] {
      WithoutAbsent(s[1..], p);
    }
  }

  lemma {:induction false} WithoutAt(s: seq<Pair>, i: nat)
    requires NoRepeats(s) && i < |s|
    ensures Without(s, s[i]) == s[..i] + s[i+1..]
  {
    if i == 0 {
      WithoutAbsent(s[1..], s[0]);
    } else {
      WithoutAt(s[1..], i - 1);
      assert s[1..][..i-1] == s[..i][1..];
      assert [s[0]] + s[..i][1..] == s[..i];
    }
  }

  lemma WithoutIndex(r: seq<Pair>, i: nat)
    requires NoRepeats(r) && i < |r|
    ensures var d := r[..i] + r[i+1..]; NoRepeats(d) && forall x :: x in d <==> x in r && x != r[i]
  {
    var d := r[..i] + r[i+1..];
    assert forall j :: 0 <= j < |d| ==> d[j] == if j < i then r[j] else r[j+1];
    forall x ensures x in d <==> x in r && x != r[i] {
      if x in r && x != r[i] {
        var j :| 0 <= j < |r| && r[j] == x;
        assert d[if j < i then j else j - 1] == x;
      }
    }
  }

  lemma WithoutIsTheRest(r: seq<Pair>, p: Pair)
    requires NoRepeats(r)
    ensures NoRepeats(Without(r, p)) && forall x :: x in Without(r, p) <==> x in r && x != p
  {
    if p in r {
      var i :| 0 <= i < |r| && r[i] == p;
      WithoutAt(r, i);
      WithoutIndex(r, i);
    } else {
      WithoutAbsent(r, p);
    }
  }

  lemma RecencyRecent(r: seq<Pair>, p: Pair)
    requires NoRepeats(r)
    ensures NoRepeats(Without(r, p) + [p])
    ensures forall x :: x in Without(r, p) + [p] <==> x in r || x == p
  {
    WithoutIsTheRest(r, p);
    var d := Without(r, p);
    forall i, j | 0 <= i < j < |d + [p]| ensures (d + [p])[i] != (d + [p])[j] {
      assert d[i] in d;
    }
  }

  lemma {:induction false} WithoutAppend(a: seq<Pair>, c: seq<Pair>, p: Pair)
    ensures Without(a + c, p) == Without(a, p) + Without(c, p)
  {
    if a == [] {
      assert a + c == c;
    } else {
      WithoutAppend(a[1..], c, p);
      assert (a + c)[1..] == a[1..] + c;
      Regroup(if a[0] == p then [] else [a[0]], Without(a[1..], p), Without(c, p));
    }
  }

  lemma LastOfAppend(a: seq<Pair>, d: seq<Pair>, max: nat)
    requires a == [] || max <= |d|
    ensures Last(a + d, max) == Last(d, max)
  {
  }

  lemma TouchedIsLast(c: seq<Pair>, p: Pair, max: nat)
    requires NoRepeats(c) && |c| <= max
    ensures Touched(c, p, max) == Last(Without(c, p) + [p], max)
  {
    if p in c {
      var i :| 0 <= i < |c| && c[i] == p;
      WithoutAt(c, i);
    } else {
      WithoutAbsent(c, p);
    }
  }

  lemma WithoutDropsOne(c: seq<Pair>, p: Pair)
    requires NoRepeats(c)
    ensures |Without(c, p)| + 1 >= |c|
  {
    if p in c {
      var i :| 0 <= i < |c| && c[i] == p;
      WithoutAt(c, i);
    } else {
      WithoutAbsent(c, p);
    }
  }

  lemma WithoutFromLast(r: seq<Pair>, p: Pair, max: nat) returns (front: seq<Pair>)
    requires NoRepeats(r)
    ensures NoRepeats(Last(r, max)) && (front == [] || |Last(r, max)| == max)
    ensures Without(r, p) == front + Without(Last(r, max), p)
  {
    var c := Last(r, max);
    var a := r[..|r|-|c|];
    assert r == a + c;
    WithoutAppend(a, c, p);
    front := Without(a, p);
  }

  lemma TouchedKeepsLast(r: seq<Pair>, p: Pair, max: nat)
    requires NoRepeats(r)
    ensures Touched(Last(r, max), p, max) == Last(Without(r, p) + [p], max)
  {
    var c := Last(r, max);
    var front := WithoutFromLast(r, p, max);
    TouchedIsLast(c, p, max);
    WithoutDropsOne(c, p);
    assert front + Without(c, p) + [p] == front + (Without(c, p) + [p]);
    LastOfAppend(front, Without(c, p) + [p], max);
  }

  /** After any mismatches the cache holds the most recently seen pairs, up to its cap, in recency order. */
  lemma {:induction false} CacheIsMostRecent(history: seq<Pair>, max: nat)
    ensures CacheAfter(history, max) == Last(Recency(history), max)
    ensures NoRepeats(Recency(history))
    ensures forall p :: p in Recency(history) <==> p in history
  {
    if history != [] {
      var m := |history| - 1;
      var before := history[..m];
      CacheIsMostRecent(before, max);
      RecencyRecent(Recency(before), history[m]);
      TouchedKeepsLast(Recency(before), history[m], max);
      assert history == before + [history[m]];
    }
  }

  /** `p` was last seen before `q` was. */
  ghost predicate SeenBefore(history: seq<Pair>, p: Pair, q: Pair) {
    exists j :: 0 <= j < |history| && history[j] == q && p !in history[j..]
  }

  /** What recency order means: of two pairs, the one further back was last seen later. */
  lemma {:induction false} RecencyOrder(history: seq<Pair>, i: nat, j: nat)
    requires i < j < |Recency(history)|
    ensures SeenBefore(history, Recency(history)[i], Recency(history)[j])
  {
    var m := |history| - 1;
    var before, last := history[..m], history[m];
    var r := Recency(before);
    CacheIsMostRecent(before, 0);
    CacheIsMostRecent(history, 0);
    var p, q := Recency(history)[i], Recency(history)[j];
    assert history == before + [last];
    if q == last {
      assert p != last;
      assert history[m..] == [last];
    } else {
      assert j < |Without(r, last)|;
      var i', j' := Earlier(r, last, i, j);
      RecencyOrder(before, i', j');
      var k :| 0 <= k < |before| && before[k] == q && p !in before[k..];
      assert history[k..] == before[k..] + [last];
      assert Recency(history)[|Without(r, last)|] == last;
      assert p != last;
    }
  }

  lemma Earlier(r: seq<Pair>, p: Pair, i: nat, j: nat) returns (i': nat, j': nat)
    requires NoRepeats(r) && i < j < |Without(r, p)|
    ensures i' < j' < |r| && r[i'] == Without(r, p)[i] && r[j'] == Without(r, p)[j]
  {
    if p in r {
      var k :| 0 <= k < |r| && r[k] == p;
      WithoutAt(r, k);
      i' := if i < k then i else i + 1;
      j' := if j < k then j else j + 1;
    } else {
      WithoutAbsent(r, p);
      i', j' := i, j;
    }
  }

  // ---------------------------------------------------------------- the pipeline

  datatype Memory = Memory(seen: map<string, string>, mismatches: seq<Pair>, skewWarned: set<string>)

  /** A republished sample reaching the live subscriber is delivered as a replay. */
  function Provenance(sample: Sample, origin: Origin): Origin {
    if origin == LIVE && sample.republished then REPLAY else origin
  }

  predicate IsDuplicate(cfg: Config, m: Memory, sample: Sample) {
    cfg.dedupe && sample.timestamp.Some? && !Passes(m.seen, sample.key, sample.timestamp.value.text)
  }

  function SenderPair(sample: Sample): Pair {
    (if sample.timestamp.Some? then Sender(sample.timestamp.value) else "", sample.schema)
  }

  predicate IsMismatch(cfg: Config, sample: Sample) {
    cfg.schema.Some? && sample.schema != cfg.schema
  }

  function AfterDedupe(cfg: Config, m: Memory, sample: Sample, now: real): Memory {
    if !cfg.dedupe || sample.timestamp.None? then m
    else
      var ts := sample.timestamp.value;
      if WithinSkew(cfg.maxSkew, Issued(ts), now) then m.(seen := m.seen[sample.key := ts.text])
      else m.(skewWarned := m.skewWarned + {sample.key})
  }

  /** One sample through the pipeline. */
  function Dispatched(cfg: Config, m: Memory, sample: Sample, origin: Origin, now: real, h: Handling)
    : (Memory, Outcome)
  {
    if sample.kind == DELETE then (m, if cfg.onRemove then Removed else Ignored)
    else if IsDuplicate(cfg, m, sample) then (m, Duplicate)
    else
      var m' := AfterDedupe(cfg, m, sample, now);
      var from := Provenance(sample, origin);
      if IsMismatch(cfg, sample) then
        (m'.(mismatches := Touched(m'.mismatches, SenderPair(sample), cfg.mismatchMax)),
         Mismatched(SenderPair(sample) !in m'.mismatches))
      else if !h.decodes then (m', Undecodable)
      else if h.callbackRaises then (m', CallbackFailed(from))
      else (m', Delivered(from, from == LIVE))
  }

  class Subscriber {
    const cfg: Config
    var seenTs: map<string, string>
    var seenMismatches: seq<Pair>
    var skewWarned: set<string>

    function View(): Memory
      reads this
    {
      Memory(seenTs, seenMismatches, skewWarned)
    }

    constructor (cfg: Config)
      ensures View() == Memory(map[], [], {}) && this.cfg == cfg
    {
      this.cfg := cfg;
      seenTs, seenMismatches, skewWarned := map[], [], {};
    }

    /** The skew check, with its warn-once set. */
    method WithinSkewCheck(ts: Timestamp, key: string, now: real) returns (ok: bool)
      modifies this`skewWarned
      ensures ok <==> WithinSkew(cfg.maxSkew, Issued(ts), now)
      ensures skewWarned == if ok then old(skewWarned) else old(skewWarned) + {key}
    {
      if cfg.maxSkew.None? {
        return true;
      }
      var issued := Issued(ts);
      if issued.None? {
        return true;
      }
      if issued.value - now <= cfg.maxSkew.value {
        return true;
      }
      if key !in skewWarned {
        skewWarned := skewWarned + {key};
      }
      return false;
    }

    method NoteMismatch(pair: Pair) returns (reported: bool)
      modifies this`seenMismatches
      ensures seenMismatches == Touched(old(seenMismatches), pair, cfg.mismatchMax)
      ensures reported <==> pair !in old(seenMismatches)
    {
      if pair in seenMismatches {
        seenMismatches := Without(seenMismatches, pair) + [pair];
        return false;
      }
      seenMismatches := seenMismatches + [pair];
      if |seenMismatches| > cfg.mismatchMax {
        seenMismatches := seenMismatches[1..];
      }
      return true;
    }

    method Dispatch(sample: Sample, origin: Origin, now: real, h: Handling) returns (outcome: Outcome)
      modifies this
      ensures (View(), outcome) == Dispatched(cfg, old(View()), sample, origin, now, h)
    {
      if sample.kind == DELETE {
        return if cfg.onRemove then Removed else Ignored;
      }
      var from := origin;
      if from == LIVE && sample.republished {
        from := REPLAY;
      }
      if cfg.dedupe && sample.timestamp.Some? {
        var ts := sample.timestamp.value;
        if sample.key in seenTs && StrLe(ts.text, seenTs[sample.key]) {
          return Duplicate;
        }
        var ok := WithinSkewCheck(ts, sample.key, now);
        if ok {
          seenTs := seenTs[sample.key := ts.text];
        }
      }
      if cfg.schema.Some? && sample.schema != cfg.schema {
        var sender := if sample.timestamp.Some? then Sender(sample.timestamp.value) else "";
        var reported := NoteMismatch((sender, sample.schema));
        return Mismatched(reported);
      }
      if !h.decodes {
        return Undecodable;
      }
      if h.callbackRaises {
        return CallbackFailed(from);
      }
      return Delivered(from, from == LIVE);
    }

    /** A reconnect forgets the mismatches: peer zids may have changed. */
    method Redeclare()
      modifies this`seenMismatches
      ensures seenMismatches == []
    {
      seenMismatches := [];
    }
  }

  // ---------------------------------------------------------------- whole arrival sequences

  datatype Event =
    | Arrives(sample: Sample, origin: Origin, now: real, handling: Handling)
    | Redeclared

  function MemoryAfter(cfg: Config, events: seq<Event>): Memory {
    if events == [] then Memory(map[], [], {})
    else
      var m := MemoryAfter(cfg, events[..|events|-1]);
      match events[|events|-1]
      case Arrives(sample, origin, now, h) => Dispatched(cfg, m, sample, origin, now, h).0
      case Redeclared => m.(mismatches := [])
  }

  function ArrivalOf(key: string, ts: Timestamp, now: real): Arrival {
    Arrival(key, ts.text, Issued(ts), now)
  }

  function Stamped(sample: Sample, now: real): seq<Arrival> {
    if sample.timestamp.Some? then [ArrivalOf(sample.key, sample.timestamp.value, now)] else []
  }

  /** The stamped puts of `events`, whatever came of them. */
  function StampedPuts(events: seq<Event>): seq<Arrival> {
    if events == [] then []
    else
      var before := StampedPuts(events[..|events|-1]);
      match events[|events|-1]
      case Arrives(sample, _, now, _) =>
        if sample.kind == PUT then before + Stamped(sample, now) else before
      case Redeclared => before
  }

  /** The mismatched pairs that got past the dedupe since the last redeclare. */
  function MismatchesSince(cfg: Config, events: seq<Event>): seq<Pair> {
    if events == [] then []
    else
      var before := MismatchesSince(cfg, events[..|events|-1]);
      match events[|events|-1]
      case Arrives(sample, _, _, _) =>
        if sample.kind == PUT && !IsDuplicate(cfg, MemoryAfter(cfg, events[..|events|-1]), sample)
           && IsMismatch(cfg, sample)
        then before + [SenderPair(sample)] else before
      case Redeclared => []
  }

  lemma {:induction false} MemoryIsItsHistory(cfg: Config, events: seq<Event>)
    ensures cfg.dedupe ==> MemoryAfter(cfg, events).seen == Watermarks(cfg.maxSkew, StampedPuts(events))
    ensures MemoryAfter(cfg, events).mismatches == CacheAfter(MismatchesSince(cfg, events), cfg.mismatchMax)
  {
    if events != [] {
      var before := events[..|events|-1];
      MemoryIsItsHistory(cfg, before);
      if events[|events|-1].Arrives? && events[|events|-1].sample.kind == PUT {
        var e := events[|events|-1];
        if cfg.dedupe {
          WatermarkExtends(cfg, MemoryAfter(cfg, before), StampedPuts(before), e);
        }
        MismatchExtends(cfg, MemoryAfter(cfg, before), MismatchesSince(cfg, before), e);
      }
    }
  }

  lemma WatermarkExtends(cfg: Config, m: Memory, history: seq<Arrival>, e: Event)
    requires e.Arrives? && e.sample.kind == PUT && cfg.dedupe && m.seen == Watermarks(cfg.maxSkew, history)
    ensures Dispatched(cfg, m, e.sample, e.origin, e.now, e.handling).0.seen
         == Watermarks(cfg.maxSkew, history + Stamped(e.sample, e.now))
  {
    if e.sample.timestamp.Some? {
      var a := ArrivalOf(e.sample.key, e.sample.timestamp.value, e.now);
      assert (history + [a])[..|history|] == history;
    } else {
      assert history + [] == history;
    }
  }

  lemma CacheAfterOneMore(history: seq<Pair>, p: Pair, max: nat)
    ensures CacheAfter(history + [p], max) == Touched(CacheAfter(history, max), p, max)
  {
    assert (history + [p])[..|history|] == history;
  }

  lemma MismatchExtends(cfg: Config, m: Memory, pairs: seq<Pair>, e: Event)
    requires e.Arrives? && e.sample.kind == PUT && m.mismatches == CacheAfter(pairs, cfg.mismatchMax)
    ensures Dispatched(cfg, m, e.sample, e.origin, e.now, e.handling).0.mismatches == CacheAfter(
              if !IsDuplicate(cfg, m, e.sample) && IsMismatch(cfg, e.sample) then pairs + [SenderPair(e.sample)]
              else pairs,
              cfg.mismatchMax)
  {
    MismatchesDispatched(cfg, m, e.sample, e.origin, e.now, e.handling);
    CacheAfterOneMore(pairs, SenderPair(e.sample), cfg.mismatchMax);
  }

  lemma MismatchesDispatched(cfg: Config, m: Memory, sample: Sample, origin: Origin, now: real, h: Handling)
    requires sample.kind == PUT
    ensures Dispatched(cfg, m, sample, origin, now, h).0.mismatches ==
      if !IsDuplicate(cfg, m, sample) && IsMismatch(cfg, sample)
      then Touched(m.mismatches, SenderPair(sample), cfg.mismatchMax) else m.mismatches
  {
    assert AfterDedupe(cfg, m, sample, now).mismatches == m.mismatches;
  }

  /** Whatever came before, a deduping subscriber drops a stamped put as a duplicate exactly when some earlier
      in-skew sample of its key was as new. */
  lemma DropsExactlyTheNotNewer(cfg: Config, events: seq<Event>, sample: Sample, origin: Origin, now: real, h: Handling)
    requires cfg.dedupe && sample.kind == PUT && sample.timestamp.Some?
    ensures var outcome := Dispatched(cfg, MemoryAfter(cfg, events), sample, origin, now, h).1;
      outcome == Duplicate <==>
        exists i :: Counts(cfg.maxSkew, StampedPuts(events), i, sample.key)
                    && StrLe(sample.timestamp.value.text, StampedPuts(events)[i].stamp)
  {
    MemoryIsItsHistory(cfg, events);
    var history, stamp := StampedPuts(events), sample.timestamp.value.text;
    PassesExactlyWhenNewer(cfg.maxSkew, history, ArrivalOf(sample.key, sample.timestamp.value, now));
    forall i | Counts(cfg.maxSkew, history, i, sample.key)
      ensures StrLt(history[i].stamp, stamp) <==> !StrLe(stamp, history[i].stamp)
    {
      StrLtTotal(history[i].stamp, stamp);
      StrLtIrreflexive(stamp);
      if StrLt(history[i].stamp, stamp) && StrLt(stamp, history[i].stamp) {
        StrLtTransitive(stamp, history[i].stamp, stamp);
      }
    }
  }

  /** And it reports a mismatch exactly when the pair is not among the most recent ones since the last redeclare. */
  lemma ReportsExactlyTheForgotten(
      cfg: Config, events: seq<Event>, sample: Sample, origin: Origin, now: real, h: Handling)
    requires sample.kind == PUT && IsMismatch(cfg, sample) && !IsDuplicate(cfg, MemoryAfter(cfg, events), sample)
    ensures var outcome := Dispatched(cfg, MemoryAfter(cfg, events), sample, origin, now, h).1;
      outcome == Mismatched(SenderPair(sample) !in Last(Recency(MismatchesSince(cfg, events)), cfg.mismatchMax))
  {
    MemoryIsItsHistory(cfg, events);
    CacheIsMostRecent(MismatchesSince(cfg, events), cfg.mismatchMax);
  }

  // ---------------------------------------------------------------- every other outcome

  /** Live, and no old value: what counts for the watchdog. */
  predicate IsLive(sample: Sample, origin: Origin) {
    origin == LIVE && !sample.republished
  }

  /** The put got past the dedupe and the schema check. */
  ghost predicate GetsThrough(cfg: Config, events: seq<Event>, sample: Sample) {
    && sample.kind == PUT
    && (cfg.dedupe && sample.timestamp.Some? ==>
          forall i :: Counts(cfg.maxSkew, StampedPuts(events), i, sample.key) ==>
            StrLt(StampedPuts(events)[i].stamp, sample.timestamp.value.text))
    && (cfg.schema.Some? ==> sample.schema == cfg.schema)
  }

  lemma ThroughMeans(cfg: Config, events: seq<Event>, sample: Sample, now: real)
    requires sample.kind == PUT
    ensures GetsThrough(cfg, events, sample) <==>
      !IsDuplicate(cfg, MemoryAfter(cfg, events), sample) && !IsMismatch(cfg, sample)
  {
    MemoryIsItsHistory(cfg, events);
    if cfg.dedupe && sample.timestamp.Some? {
      PassesExactlyWhenNewer(cfg.maxSkew, StampedPuts(events), ArrivalOf(sample.key, sample.timestamp.value, now));
    }
  }

  /** Whatever came before, a put that gets through is delivered exactly when it decodes and its callback returns, as
      live exactly when it came live and is no republish, and pings the watchdog exactly then; a failed callback
      carries the same origin. */
  lemma DeliversAsItCame(cfg: Config, events: seq<Event>, sample: Sample, origin: Origin, now: real, h: Handling)
    requires GetsThrough(cfg, events, sample)
    ensures var outcome := Dispatched(cfg, MemoryAfter(cfg, events), sample, origin, now, h).1;
      && (outcome == Undecodable <==> !h.decodes)
      && (outcome.CallbackFailed? <==> h.decodes && h.callbackRaises)
      && (outcome.Delivered? <==> h.decodes && !h.callbackRaises)
      && (outcome.CallbackFailed? || outcome.Delivered? ==> (outcome.origin == LIVE <==> IsLive(sample, origin)))
      && (outcome.Delivered? ==> (outcome.pinged <==> IsLive(sample, origin)))
  {
    ThroughMeans(cfg, events, sample, now);
  }

  /** And one that does not is a duplicate or a mismatch, and nothing else. */
  lemma OthersAreDropped(cfg: Config, events: seq<Event>, sample: Sample, origin: Origin, now: real, h: Handling)
    requires sample.kind == PUT && !GetsThrough(cfg, events, sample)
    ensures var outcome := Dispatched(cfg, MemoryAfter(cfg, events), sample, origin, now, h).1;
      outcome == Duplicate || outcome.Mismatched?
  {
    ThroughMeans(cfg, events, sample, now);
  }

  /** A tombstone goes to `on_remove` if there is one, whatever its timestamp, and leaves no trace. */
  lemma TombstonesLeaveNoTrace(cfg: Config, m: Memory, sample: Sample, origin: Origin, now: real, h: Handling)
    requires sample.kind == DELETE
    ensures var (m', outcome) := Dispatched(cfg, m, sample, origin, now, h);
      m' == m && (outcome == Removed <==> cfg.onRemove) && (outcome == Ignored <==> !cfg.onRemove)
  {
  }

  // ---------------------------------------------------------------- what is warned of

  /** The arrival was too far ahead, and newer than every in-skew one of its key before it. */
  ghost predicate FarAhead(maxSkew: Option<real>, history: seq<Arrival>, i: int, key: string) {
    && 0 <= i < |history| && history[i].key == key && !InSkew(maxSkew, history[i])
    && forall j :: 0 <= j < i && Counts(maxSkew, history, j, key) ==> StrLt(history[j].stamp, history[i].stamp)
  }

  ghost predicate SomeFarAhead(maxSkew: Option<real>, history: seq<Arrival>, key: string) {
    exists i :: FarAhead(maxSkew, history, i, key)
  }

  lemma FarAheadSnoc(maxSkew: Option<real>, history: seq<Arrival>, a: Arrival, key: string)
    ensures SomeFarAhead(maxSkew, history + [a], key) <==>
      || SomeFarAhead(maxSkew, history, key)
      || (a.key == key && !InSkew(maxSkew, a) && Passes(Watermarks(maxSkew, history), key, a.stamp))
  {
    var all, m := history + [a], |history|;
    assert forall i :: 0 <= i < m ==> all[i] == history[i];
    assert forall i :: 0 <= i < m ==> (Counts(maxSkew, all, i, key) <==> Counts(maxSkew, history, i, key));
    if a.key == key {
      PassesExactlyWhenNewer(maxSkew, history, a);
    }
    assert FarAhead(maxSkew, all, m, key) <==>
      a.key == key && !InSkew(maxSkew, a) && Passes(Watermarks(maxSkew, history), key, a.stamp);
    forall i | FarAhead(maxSkew, history, i, key) ensures FarAhead(maxSkew, all, i, key) {
    }
    forall i | FarAhead(maxSkew, all, i, key) ensures i == m || FarAhead(maxSkew, history, i, key) {
    }
  }

  lemma WarnedBy(cfg: Config, m: Memory, sample: Sample, origin: Origin, now: real, h: Handling, key: string)
    requires cfg.dedupe
    ensures var m' := Dispatched(cfg, m, sample, origin, now, h).0;
      key in m'.skewWarned <==>
        || key in m.skewWarned
        || (sample.kind == PUT && sample.timestamp.Some? && sample.key == key
            && !InSkew(cfg.maxSkew, ArrivalOf(key, sample.timestamp.value, now))
            && Passes(m.seen, key, sample.timestamp.value.text))
  {
    assert AfterDedupe(cfg, m, sample, now).skewWarned ==
      if sample.timestamp.Some? && !InSkew(cfg.maxSkew, ArrivalOf(key, sample.timestamp.value, now))
      then m.skewWarned + {sample.key} else m.skewWarned;
  }

  function PutsWith(history: seq<Arrival>, e: Event): seq<Arrival>
    requires e.Arrives?
  {
    if e.sample.kind == PUT then history + Stamped(e.sample, e.now) else history
  }

  lemma WarnedStep(cfg: Config, m: Memory, history: seq<Arrival>, e: Event, key: string)
    requires e.Arrives? && cfg.dedupe && m.seen == Watermarks(cfg.maxSkew, history)
    requires key in m.skewWarned <==> SomeFarAhead(cfg.maxSkew, history, key)
    ensures key in Dispatched(cfg, m, e.sample, e.origin, e.now, e.handling).0.skewWarned <==>
      SomeFarAhead(cfg.maxSkew, PutsWith(history, e), key)
  {
    WarnedBy(cfg, m, e.sample, e.origin, e.now, e.handling, key);
    if e.sample.timestamp.Some? {
      FarAheadSnoc(cfg.maxSkew, history, ArrivalOf(e.sample.key, e.sample.timestamp.value, e.now), key);
    } else {
      assert history + [] == history;
    }
  }

  /** Whatever came, a deduping subscriber has warned of a key exactly when a stamped put of it was beyond the ceiling
      and newer than every in-skew one before it. */
  lemma {:induction false} WarnsExactly(cfg: Config, events: seq<Event>, key: string)
    requires cfg.dedupe
    ensures key in MemoryAfter(cfg, events).skewWarned <==> SomeFarAhead(cfg.maxSkew, StampedPuts(events), key)
  {
    if events != [] {
      var before, e := events[..|events|-1], events[|events|-1];
      WarnsExactly(cfg, before, key);
      MemoryIsItsHistory(cfg, before);
      match e
      case Arrives(_, _, _, _) =>
        WarnedStep(cfg, MemoryAfter(cfg, before), StampedPuts(before), e, key);
        assert StampedPuts(events) == PutsWith(StampedPuts(before), e);
      case Redeclared =>
    }
  }

  // ---------------------------------------------------------------- whose mismatch it is

  lemma OnlyMismatch(cfg: Config, events: seq<Event>, x: Event)
    requires x.Arrives? && x.sample.kind == PUT && IsMismatch(cfg, x.sample)
    requires !IsDuplicate(cfg, MemoryAfter(cfg, events + [Redeclared]), x.sample)
    ensures MemoryAfter(cfg, events + [Redeclared] + [x]).mismatches ==
      if cfg.mismatchMax == 0 then [] else [SenderPair(x.sample)]
  {
    var before := events + [Redeclared];
    assert before[..|before|-1] == events && (before + [x])[..|before|] == before;
    assert MemoryAfter(cfg, before).mismatches == [];
    MismatchesDispatched(cfg, MemoryAfter(cfg, before), x.sample, x.origin, x.now, x.handling);
  }

  /** After a redeclare and one mismatch, the next is reported exactly when another sender stamped it or it names
      another schema, or the cache holds nothing. */
  lemma MismatchesAreBySender(
      cfg: Config, events: seq<Event>, x: Event, sample: Sample, origin: Origin, now: real, h: Handling,
      m: nat, i: string, n: nat, j: string)
    requires x.Arrives? && x.sample.kind == PUT && IsMismatch(cfg, x.sample)
    requires !IsDuplicate(cfg, MemoryAfter(cfg, events + [Redeclared]), x.sample)
    requires sample.kind == PUT && IsMismatch(cfg, sample)
    requires !IsDuplicate(cfg, MemoryAfter(cfg, events + [Redeclared] + [x]), sample)
    requires x.sample.timestamp == Some(Written(Stamp(m, i))) && sample.timestamp == Some(Written(Stamp(n, j)))
    ensures Dispatched(cfg, MemoryAfter(cfg, events + [Redeclared] + [x]), sample, origin, now, h).1
         == Mismatched(cfg.mismatchMax == 0 || i != j || x.sample.schema != sample.schema)
  {
    OnlyMismatch(cfg, events, x);
    DecHasNoSlash(m);
    DecHasNoSlash(n);
    HalvesSplit(Dec(m), i);
    HalvesSplit(Dec(n), j);
  }
}
