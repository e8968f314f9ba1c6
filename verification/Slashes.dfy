/** Selector values that hold a slash, and exactly when they still narrow a query
    (zeared/_template/_template.py, zeared/queryable/_query_get.py). */
module Slashes {
  import opened Grammar
  import opened KeyExpr
  import opened Matching
  import opened Narrowing
  import opened Regex
  import opened Rendering
  import opened Template
  import opened Wrappers

  // ---------------------------------------------------------------- values that hold a slash

  lemma SplitConcat(a: string, b: string)
    ensures Split(a + "/" + b) == Split(a) + Split(b)
  {
    JoinSplit(a);
    JoinAppend(Split(a), b);
    SplitJoin(Split(a) + Split(b));
  }

  lemma SplitOfOne(s: string)
    ensures |Split(s)| == 1 <==> SlashFree(s)
  {
    JoinSplit(s);
    if SlashFree(s) {
      SplitWhole(s);
    }
  }

  ghost predicate PlainOrStar(cs: Path) {
    forall i :: 0 <= i < |cs| ==> cs[i] == "*" || '*' !in cs[i]
  }

  lemma TextHasNoDouble(c: string)
    requires c == "*" || '*' !in c
    ensures "**" !in Split(c) && PlainOrStar(Split(c))
  {
    if c == "*" {
      SplitWhole(c);
    } else {
      SplitIsPlain(c);
      assert '*' in "**";
    }
  }

  lemma {:induction false} SplitGrows(cs: Path)
    requires cs != [] && PlainOrStar(cs)
    ensures "**" !in Split(Join(cs)) && |Split(Join(cs))| >= |cs| && PlainOrStar(Split(Join(cs)))
    ensures |Split(Join(cs))| == |cs| ==> SlashFreeChunks(cs)
  {
    TextHasNoDouble(cs[0]);
    SplitOfOne(cs[0]);
    if |cs| > 1 {
      SplitGrows(cs[1..]);
      SplitConcat(cs[0], Join(cs[1..]));
    }
  }

  lemma {:induction false} SameLength(q: Path, k: Path)
    requires "**" !in q && Matches(q, k)
    ensures |q| == |k|
    decreases |q|
  {
    if q != [] {
      SameLength(q[1..], k[1..]);
    }
  }

  lemma ShownIsPlain(topic: Topic, partial: Partial)
    requires WellFormed(topic) && Publishable(topic) && WildcardFree(Names(topic), partial)
    ensures PlainOrStar(Shown(topic.chunks, Valued(Chosen(topic, partial))))
  {
    var chosen := Chosen(topic, partial);
    forall i | 0 <= i < |topic.chunks|
      ensures var c := ShownChunk(topic.chunks[i], Valued(chosen)); c == "*" || '*' !in c
    {
      if topic.chunks[i].Lit? {
        StarlessLiteral(topic.chunks, i);
      } else {
        SlotIsNamed(topic.chunks, i);
        SlotIsNotTail(topic, topic.chunks[i].name);
      }
    }
  }

  /** Without a tail slot the selector narrows whatever the values: one that holds a `/`
      selects nothing, and no key agrees with it. */
  lemma SelectorNarrowsWithoutTail(topic: Topic, partial: Partial, key: string, caps: Captures)
    requires WellFormed(topic) && Publishable(topic) && LineFree(key) && topic.tail == NoTail
    requires WildcardFree(Names(topic), partial) && MatchesWith(Compiled(topic), key, caps)
    ensures Selector(Compiled(topic), partial).Ok?
    ensures Intersects(Selector(Compiled(topic), partial).value, key) <==> AgreesWith(Names(topic), partial, caps)
  {
    SelectorByChunk(topic, partial);
    if KeepsToSegments(topic.chunks, partial) {
      SelectorNarrows(topic, partial, key, caps);
    } else {
      var k, shown := Split(key), Shown(topic.chunks, Valued(Chosen(topic, partial)));
      CapturesAreRead(topic, key, caps);
      ShownIsPlain(topic, partial);
      assert Full(topic) == topic.chunks;
      SplitGrows(shown);
      var n :| n in SlotNames(topic.chunks) && Given(partial, n).Some? && !SlashFree(Given(partial, n).value);
      SlotIsNotTail(topic, n);
      var i := NameHasSlot(topic.chunks, n);
      assert shown[i] == Given(partial, n).value;
      assert Agrees(topic.chunks[i], k[i], caps);
      assert SlashFree(k[i]);
      if Matches(Split(Join(shown)), k) {
        SameLength(Split(Join(shown)), k);
      }
    }
  }

  // ---------------------------------------------------------------- the exact condition

  ghost predicate OnTopic(topic: Topic, key: string) {
    LineFree(key) && CapturesOf(topic, key).Some?
  }

  ghost predicate KeyAgrees(topic: Topic, partial: Partial, key: string)
    requires OnTopic(topic, key)
  {
    AgreesWith(Names(topic), partial, CapturesOf(topic, key).value)
  }

  function SelectorKey(topic: Topic, partial: Partial): string {
    KeyOf(topic, Chosen(topic, partial))
  }

  /** The prefix index's own key in a node. */
  const LEAF_KEY := "__topics__"

  /** A chunk a key may have: no empty one, none of Zenoh's verbatim ones, and not the index's own. */
  predicate Allowed(c: string) {
    c != "" && c[0] != '@' && c != LEAF_KEY
  }

  ghost predicate AllAllowed(k: Path) {
    forall i :: 0 <= i < |k| ==> Allowed(k[i])
  }

  ghost predicate AllowedKey(key: string) {
    LineFree(key) && AllAllowed(Split(key))
  }

  /** Of the topic's keys the selector reaches exactly those that agree. */
  ghost predicate Narrows(topic: Topic, partial: Partial) {
    forall key :: AllowedKey(key) && OnTopic(topic, key) ==>
      (Intersects(SelectorKey(topic, partial), key) <==> KeyAgrees(topic, partial, key))
  }

  /** A selector chunk that some key of the topic has in the place of `c`. */
  predicate Meets(c: Chunk, q: string) {
    match c
    case Lit(t) => q == t || q == "*"
    case Slot(_) => q != ""
  }

  /** The selector's chunks could all be a key's, and the first, as many as the topic has, meet the topic's own. */
  ghost predicate Overlaps(topic: Topic, partial: Partial) {
    var q := Split(SelectorKey(topic, partial));
    && AllAllowed(q)
    && |topic.chunks| <= |q| && forall i :: 0 <= i < |topic.chunks| ==> Meets(topic.chunks[i], q[i])
  }

  ghost predicate LineFreeValues(names: seq<string>, partial: Partial) {
    forall n :: n in names && Given(partial, n).Some? ==> LineFree(Given(partial, n).value)
  }

  /** The selector in front of the tail, its slashes taken as splits. */
  function Front(topic: Topic, partial: Partial): Path {
    Split(Join(Shown(topic.chunks, Valued(Chosen(topic, partial)))))
  }

  function Back(topic: Topic, partial: Partial): Path
    requires topic.tail.Named?
  {
    match Given(partial, topic.tail.name)
    case Some(v) => Split(v)
    case None => ["**"]
  }

  lemma SelectorSplits(topic: Topic, partial: Partial)
    requires WellFormed(topic) && Publishable(topic) && topic.tail.Named? && topic.chunks != []
    ensures Split(SelectorKey(topic, partial)) == Front(topic, partial) + Back(topic, partial)
  {
    var chosen := Chosen(topic, partial);
    var shown, v := Shown(topic.chunks, Valued(chosen)), Valued(chosen)(topic.tail.name);
    TailNamed(topic);
    ShownAppend(topic.chunks, [Slot(topic.tail.name)], Valued(chosen));
    assert Shown([Slot(topic.tail.name)], Valued(chosen)) == [v];
    JoinSnoc(shown, v);
    SplitConcat(Join(shown), v);
    SplitWhole("**");
  }

  /** A value with a slash agrees with no key, and makes the front longer than the topic. */
  lemma SlashedValue(topic: Topic, partial: Partial)
    requires WellFormed(topic) && Publishable(topic) && WildcardFree(Names(topic), partial)
    requires !KeepsToSegments(topic.chunks, partial)
    ensures topic.chunks != [] && |Front(topic, partial)| > |topic.chunks|
    ensures "**" !in Front(topic, partial) && PlainOrStar(Front(topic, partial))
    ensures forall key :: OnTopic(topic, key) ==> !KeyAgrees(topic, partial, key)
  {
    var shown := Shown(topic.chunks, Valued(Chosen(topic, partial)));
    var n :| n in SlotNames(topic.chunks) && Given(partial, n).Some? && !SlashFree(Given(partial, n).value);
    SlotIsNotTail(topic, n);
    var i := NameHasSlot(topic.chunks, n);
    assert shown[i] == Given(partial, n).value;
    ShownIsPlain(topic, partial);
    SplitGrows(shown);
    forall key | OnTopic(topic, key) ensures !KeyAgrees(topic, partial, key) {
      var caps := CapturesOf(topic, key).value;
      CapturesByPosition(topic.chunks, topic.tail, Split(key), caps);
      assert Agrees(topic.chunks[i], Split(key)[i], caps);
      assert SlashFree(Split(key)[i]);
    }
  }

  lemma {:induction false} FrontFits(front: Path, back: Path, k: Path)
    requires "**" !in front && Matches(front + back, k)
    ensures |front| <= |k| && forall i :: 0 <= i < |front| ==> ChunkMatches(front[i], k[i])
    decreases |front|
  {
    if front != [] {
      var q := front + back;
      assert q[0] == front[0] && q[1..] == front[1..] + back;
      assert front[0] in front;
      FrontFits(front[1..], back, k[1..]);
      forall i | 0 <= i < |front| ensures ChunkMatches(front[i], k[i]) {
        if i > 0 {
          assert ChunkMatches(front[1..][i - 1], k[1..][i - 1]);
        }
      }
    }
  }

  /** If the selector reaches an allowed key, its own chunks are allowed. */
  lemma ReachedIsAllowed(front: Path, back: Path, k: Path)
    requires "**" !in front && PlainOrStar(front) && AllAllowed(k) && Matches(front + back, k)
    requires back == ["**"] || forall i :: 0 <= i < |back| ==> '*' !in back[i]
    ensures AllAllowed(front + back)
  {
    FrontFits(front, back, k);
    MatchesByChunk(front, back, k);
    forall i | 0 <= i < |front| ensures Allowed(front[i]) {
      if front[i] != "*" {
        PlainChunk(front[i], k[i]);
      }
    }
    if back != ["**"] {
      PlainPath(back, k[|front|..]);
    }
  }

  lemma BackIsPlain(topic: Topic, partial: Partial)
    requires WellFormed(topic) && WildcardFree(Names(topic), partial) && topic.tail.Named?
    ensures Back(topic, partial) == ["**"] ||
      forall i :: 0 <= i < |Back(topic, partial)| ==> '*' !in Back(topic, partial)[i]
  {
    TailNamed(topic);
    if Given(partial, topic.tail.name).Some? {
      SplitIsPlain(Given(partial, topic.tail.name).value);
    }
  }

  /** If the selector reaches a key of the topic, its first chunks meet the topic's. */
  lemma ReachedMeans(topic: Topic, partial: Partial, key: string)
    requires WellFormed(topic) && Publishable(topic) && WildcardFree(Names(topic), partial)
    requires topic.tail.Named? && !KeepsToSegments(topic.chunks, partial)
    requires AllowedKey(key) && OnTopic(topic, key) && Intersects(SelectorKey(topic, partial), key)
    ensures Overlaps(topic, partial)
  {
    var k, front, caps := Split(key), Front(topic, partial), CapturesOf(topic, key).value;
    SlashedValue(topic, partial);
    SelectorSplits(topic, partial);
    FrontFits(front, Back(topic, partial), k);
    BackIsPlain(topic, partial);
    ReachedIsAllowed(front, Back(topic, partial), k);
    CapturesByPosition(topic.chunks, topic.tail, k, caps);
    forall i | 0 <= i < |topic.chunks| ensures Meets(topic.chunks[i], front[i]) {
      assert Agrees(topic.chunks[i], k[i], caps) && ChunkMatches(front[i], k[i]);
      if topic.chunks[i].Lit? {
        LiteralTakes(topic.chunks, i, k[i]);
      }
      if front[i] != "*" {
        PlainChunk(front[i], k[i]);
      }
    }
    assert forall i :: 0 <= i < |front| ==> (front + Back(topic, partial))[i] == front[i];
  }

  // ---------------------------------------------------------------- a key that disagrees

  /** A concrete chunk for the selector chunk `q` in the place of `c`. */
  function FillChunk(c: Option<Chunk>, q: string): string {
    if q != "*" then q
    else match c
      case Some(Lit(t)) => t
      case _ => "x"
  }

  function ChunkAt(topic: Topic, i: nat): Option<Chunk> {
    if i < |topic.chunks| then Some(topic.chunks[i]) else None
  }

  /** The selector's front with its wildcards filled in. */
  function FilledFront(topic: Topic, front: Path): (w: Path)
    ensures |w| == |front| && forall i :: 0 <= i < |w| ==> w[i] == FillChunk(ChunkAt(topic, i), front[i])
  {
    seq(|front|, i requires 0 <= i < |front| => FillChunk(ChunkAt(topic, i), front[i]))
  }

  function FilledBack(topic: Topic, partial: Partial): Path
    requires topic.tail.Named?
  {
    match Given(partial, topic.tail.name)
    case Some(v) => Split(v)
    case None => ["x"]
  }

  function Witness(topic: Topic, partial: Partial): Path
    requires topic.tail.Named?
  {
    FilledFront(topic, Front(topic, partial)) + FilledBack(topic, partial)
  }

  lemma BackReaches(topic: Topic, partial: Partial)
    requires WellFormed(topic) && WildcardFree(Names(topic), partial) && topic.tail.Named?
    ensures Matches(Back(topic, partial), FilledBack(topic, partial))
  {
    TailNamed(topic);
    match Given(partial, topic.tail.name)
    case Some(v) =>
      SplitIsPlain(v);
      PlainPath(Split(v), Split(v));
    case None => AllMatch(["x"]);
  }

  lemma WitnessIsReached(topic: Topic, partial: Partial)
    requires WellFormed(topic) && WildcardFree(Names(topic), partial) && topic.tail.Named?
    requires "**" !in Front(topic, partial) && PlainOrStar(Front(topic, partial))
    ensures Matches(Front(topic, partial) + Back(topic, partial), Witness(topic, partial))
  {
    var front := Front(topic, partial);
    var w := Witness(topic, partial);
    forall i | 0 <= i < |front| ensures ChunkMatches(front[i], w[i]) {
      if front[i] != "*" {
        PlainChunk(front[i], w[i]);
      }
    }
    assert w[|front|..] == FilledBack(topic, partial);
    BackReaches(topic, partial);
    MatchesByChunk(front, Back(topic, partial), w);
  }

  lemma {:induction false} FitsAreCaptured(chunks: seq<Chunk>, tail: Tail, k: Path)
    requires |chunks| <= |k| && TailTakes(tail, k[|chunks|..])
    requires forall i :: 0 <= i < |chunks| ==> ChunkTakes(chunks[i], k[i])
    ensures ChunkCaptures(chunks, tail, k).Some?
  {
    if chunks == [] {
      assert k[0..] == k;
    } else {
      assert k[1..][|chunks| - 1..] == k[|chunks|..];
      FitsAreCaptured(chunks[1..], tail, k[1..]);
    }
  }

  lemma TwoChunksJoin(rest: Path)
    requires |rest| >= 2
    ensures Join(rest) != ""
  {
  }

  lemma WitnessIsCaptured(topic: Topic, partial: Partial)
    requires WellFormed(topic) && Publishable(topic) && topic.tail.Named?
    requires |Front(topic, partial)| > |topic.chunks|
    requires forall i :: 0 <= i < |topic.chunks| ==> Meets(topic.chunks[i], Front(topic, partial)[i])
    ensures ChunkCaptures(topic.chunks, topic.tail, Witness(topic, partial)).Some?
  {
    var w, front := Witness(topic, partial), Front(topic, partial);
    forall i | 0 <= i < |topic.chunks| ensures ChunkTakes(topic.chunks[i], w[i]) {
      assert Meets(topic.chunks[i], front[i]);
      if topic.chunks[i].Lit? {
        LiteralTakes(topic.chunks, i, w[i]);
      }
    }
    TwoChunksJoin(w[|topic.chunks|..]);
    FitsAreCaptured(topic.chunks, topic.tail, w);
  }

  lemma {:induction false} SplitIsLineFree(v: string)
    requires LineFree(v)
    ensures forall i :: 0 <= i < |Split(v)| ==> LineFree(Split(v)[i])
  {
    if v != "" {
      assert v[0] in v && forall c :: c in v[1..] ==> c in v;
      SplitIsLineFree(v[1..]);
    }
  }

  lemma FrontIsLineFree(topic: Topic, partial: Partial)
    requires WellFormed(topic) && LineFreeValues(Names(topic), partial)
    ensures forall i :: 0 <= i < |Front(topic, partial)| ==> LineFree(Front(topic, partial)[i])
  {
    var shown := Shown(topic.chunks, Valued(Chosen(topic, partial)));
    forall i | 0 <= i < |shown| ensures LineFree(shown[i]) {
      assert GoodChunk(topic.chunks[i]);
      if topic.chunks[i].Slot? {
        SlotIsNamed(topic.chunks, i);
        SlotIsNotTail(topic, topic.chunks[i].name);
      }
    }
    JoinIsLineFree(shown);
    SplitIsLineFree(Join(shown));
  }

  lemma {:induction false} SplitHolds(cs: Path, i: nat)
    requires i < |cs| && SlashFree(cs[i])
    ensures cs[i] in Split(Join(cs))
  {
    if |cs| == 1 {
      SplitWhole(cs[0]);
    } else {
      SplitConcat(cs[0], Join(cs[1..]));
      if i == 0 {
        SplitWhole(cs[0]);
      } else {
        SplitHolds(cs[1..], i - 1);
      }
    }
  }

  lemma LiteralIsAllowed(topic: Topic, partial: Partial, i: nat)
    requires WellFormed(topic) && AllAllowed(Front(topic, partial))
    requires i < |topic.chunks| && topic.chunks[i].Lit?
    ensures Allowed(topic.chunks[i].text)
  {
    assert GoodChunk(topic.chunks[i]);
    SplitHolds(Shown(topic.chunks, Valued(Chosen(topic, partial))), i);
  }

  lemma WitnessIsAllowed(topic: Topic, partial: Partial)
    requires WellFormed(topic) && topic.tail.Named? && AllAllowed(Front(topic, partial) + Back(topic, partial))
    ensures AllAllowed(Witness(topic, partial))
  {
    var front, back := Front(topic, partial), Back(topic, partial);
    assert forall i :: 0 <= i < |front| ==> (front + back)[i] == front[i];
    assert forall i :: 0 <= i < |back| ==> (front + back)[|front| + i] == back[i];
    forall i | 0 <= i < |front| ensures Allowed(FilledFront(topic, front)[i]) {
      if front[i] == "*" && i < |topic.chunks| && topic.chunks[i].Lit? {
        LiteralIsAllowed(topic, partial, i);
      }
    }
  }

  lemma FilledFrontIsGood(topic: Topic, partial: Partial)
    requires WellFormed(topic) && LineFreeValues(Names(topic), partial)
    ensures var w := FilledFront(topic, Front(topic, partial));
      forall i :: 0 <= i < |w| ==> LineFree(w[i]) && SlashFree(w[i])
  {
    var front := Front(topic, partial);
    FrontIsLineFree(topic, partial);
    var w := FilledFront(topic, front);
    forall i | 0 <= i < |w| ensures LineFree(w[i]) && SlashFree(w[i]) {
      assert SlashFree(front[i]);
      if i < |topic.chunks| {
        assert GoodChunk(topic.chunks[i]);
      }
    }
  }

  lemma FilledBackIsGood(topic: Topic, partial: Partial)
    requires WellFormed(topic) && LineFreeValues(Names(topic), partial) && topic.tail.Named?
    ensures var w := FilledBack(topic, partial);
      w != [] && forall i :: 0 <= i < |w| ==> LineFree(w[i]) && SlashFree(w[i])
  {
    TailNamed(topic);
    if Given(partial, topic.tail.name).Some? {
      SplitIsLineFree(Given(partial, topic.tail.name).value);
    }
  }

  lemma WitnessIsAKey(topic: Topic, partial: Partial)
    requires WellFormed(topic) && LineFreeValues(Names(topic), partial) && topic.tail.Named?
    ensures LineFree(Join(Witness(topic, partial))) && Split(Join(Witness(topic, partial))) == Witness(topic, partial)
  {
    var w := Witness(topic, partial);
    FilledFrontIsGood(topic, partial);
    FilledBackIsGood(topic, partial);
    JoinIsLineFree(w);
    SplitJoin(w);
  }

  /** An overlapping selector with a slashed value reaches a key that does not agree. */
  lemma OverlapSelectsAnother(topic: Topic, partial: Partial) returns (key: string)
    requires WellFormed(topic) && Publishable(topic) && topic.tail.Named?
    requires WildcardFree(Names(topic), partial) && LineFreeValues(Names(topic), partial)
    requires !KeepsToSegments(topic.chunks, partial) && Overlaps(topic, partial)
    ensures AllowedKey(key) && OnTopic(topic, key)
    ensures Intersects(SelectorKey(topic, partial), key) && !KeyAgrees(topic, partial, key)
  {
    SlashedValue(topic, partial);
    SelectorSplits(topic, partial);
    assert forall i :: 0 <= i < |Front(topic, partial)| ==>
      (Front(topic, partial) + Back(topic, partial))[i] == Front(topic, partial)[i];
    WitnessIsReached(topic, partial);
    WitnessIsCaptured(topic, partial);
    WitnessIsAKey(topic, partial);
    WitnessIsAllowed(topic, partial);
    key := Join(Witness(topic, partial));
  }

  /** No value selects beyond its slot: without a tail slot, without a slash, or without an overlap. */
  ghost predicate Confined(topic: Topic, partial: Partial) {
    topic.tail == NoTail || KeepsToSegments(topic.chunks, partial) || !Overlaps(topic, partial)
  }

  lemma ConfinedNarrows(topic: Topic, partial: Partial)
    requires WellFormed(topic) && Publishable(topic) && WildcardFree(Names(topic), partial) && Confined(topic, partial)
    ensures Narrows(topic, partial)
  {
    if topic.tail == NoTail || KeepsToSegments(topic.chunks, partial) {
      forall key | AllowedKey(key) && OnTopic(topic, key)
        ensures Intersects(SelectorKey(topic, partial), key) <==> KeyAgrees(topic, partial, key)
      {
        KeyNarrows(topic, partial, key);
      }
    } else {
      SlashedValue(topic, partial);
      forall key | AllowedKey(key) && OnTopic(topic, key) ensures !Intersects(SelectorKey(topic, partial), key) {
        if Intersects(SelectorKey(topic, partial), key) {
          ReachedMeans(topic, partial, key);
        }
      }
    }
  }

  /** When a selector narrows, for every topic and every wildcard-free mapping: unless the topic has a tail slot,
      some single-segment value holds a `/`, and the selector still overlaps the topic. */
  lemma NarrowsExactly(topic: Topic, partial: Partial)
    requires WellFormed(topic) && Publishable(topic)
    requires WildcardFree(Names(topic), partial) && LineFreeValues(Names(topic), partial)
    ensures Narrows(topic, partial) <==> Confined(topic, partial)
  {
    if Confined(topic, partial) {
      ConfinedNarrows(topic, partial);
    } else {
      var key := OverlapSelectsAnother(topic, partial);
    }
  }

  lemma KeyNarrows(topic: Topic, partial: Partial, key: string)
    requires WellFormed(topic) && Publishable(topic) && WildcardFree(Names(topic), partial) && OnTopic(topic, key)
    requires topic.tail == NoTail || KeepsToSegments(topic.chunks, partial)
    ensures Intersects(SelectorKey(topic, partial), key) <==> KeyAgrees(topic, partial, key)
  {
    var caps := CapturesOf(topic, key).value;
    SelectorByChunk(topic, partial);
    MatchByChunk(topic, key, caps);
    if topic.tail == NoTail {
      SelectorNarrowsWithoutTail(topic, partial, key, caps);
    } else {
      SelectorNarrows(topic, partial, key, caps);
    }
  }

  // ---------------------------------------------------------------- an input

  const RANK: Topic := Topic([Lit("r"), Slot("a")], Named("t"))

  /** With one, nothing stops a `/` in a single-segment value from selecting keys that disagree. */
  lemma SlashSelectsOthers()
    ensures WellFormed(RANK) && Publishable(RANK)
    ensures Selector(Compiled(RANK), map["a" := Some("x/y")]) == Ok("r/x/y/**")
    ensures Intersects("r/x/y/**", "r/x/y")
    ensures MatchesWith(Compiled(RANK), "r/x/y", map["a" := "x", "t" := "y"])
    ensures !AgreesWith(Names(RANK), map["a" := Some("x/y")], map["a" := "x", "t" := "y"])
  {
    SlashTopic();
    SlashSelector();
    SlashReaches();
    SlashCaptures();
    assert Given(map["a" := Some("x/y")], "a").Some?;
    assert "x"[0] == 'x' && |"x"| != |"x/y"|;
    assert "a" in Names(RANK);
  }

  lemma SlashTopic()
    ensures WellFormed(RANK) && Publishable(RANK) && Names(RANK) == ["a", "t"]
  {
    assert RANK.chunks[1..] == [Slot("a")] && [Slot("a")][1..] == [];
    assert SlotNames(RANK.chunks) == ["a"];
    assert Runs("r") by {
      assert "r"[1..] == "";
    }
  }

  lemma SlashSelector()
    ensures Selector(Compiled(RANK), map["a" := Some("x/y")]) == Ok("r/x/y/**")
  {
    var partial: Partial := map["a" := Some("x/y")];
    SlashTopic();
    SelectorByChunk(RANK, partial);
    SlashKey(Chosen(RANK, partial));
  }

  lemma SlashKey(chosen: map<string, string>)
    requires "a" in chosen && chosen["a"] == "x/y" && "t" in chosen && chosen["t"] == "**"
    ensures KeyOf(RANK, chosen) == "r/x/y/**"
  {
    var shown := Shown(Full(RANK), Valued(chosen));
    assert Full(RANK) == [Lit("r"), Slot("a"), Slot("t")];
    assert shown == [shown[0], shown[1], shown[2]];
    JoinThree("r", "x/y", "**");
    assert "r" + "/" + "x/y" + "/" + "**" == "r/x/y/**";
  }

  lemma SlashReaches()
    ensures Intersects("r/x/y/**", "r/x/y")
  {
    KeySplits();
    var p := ["r", "x", "y"];
    assert p + ["**"] == ["r", "x", "y", "**"];
    PathReaches(p);
  }

  /** A path of plain chunks with `**` after it reaches the path itself. */
  lemma PathReaches(p: Path)
    requires forall i :: 0 <= i < |p| ==> '*' !in p[i]
    ensures Matches(p + ["**"], p)
  {
    forall i | 0 <= i < |p| ensures ChunkMatches(p[i], p[i]) && p[i] != "**" {
      PlainChunk(p[i], p[i]);
      assert '*' in "**";
    }
    MatchesByChunk(p, ["**"], p);
    AllMatch(p[|p|..]);
  }

  lemma SlashCaptures()
    ensures MatchesWith(Compiled(RANK), "r/x/y", map["a" := "x", "t" := "y"])
  {
    var caps := map["a" := "x", "t" := "y"];
    SlashTopic();
    KeySplits();
    CapturesAreRead(RANK, "r/x/y", caps);
    SlashReads(caps);
  }

  lemma SlashReads(caps: Captures)
    requires caps == map["a" := "x", "t" := "y"]
    ensures Reads(RANK.chunks, RANK.tail, ["r", "x", "y"], caps)
  {
    var k := ["r", "x", "y"];
    SlashTopic();
    assert k[2..] == ["y"] && Join(["y"]) == "y";
    assert NameSet(RANK.chunks, RANK.tail) == {"a", "t"};
    LiteralTakes(RANK.chunks, 0, "r");
    assert Agrees(RANK.chunks[0], k[0], caps) && Agrees(RANK.chunks[1], k[1], caps);
  }

  lemma JoinThree(a: string, b: string, c: string)
    ensures Join([a, b, c]) == a + "/" + b + "/" + c
  {
    JoinSnoc([a, b], c);
    assert [a, b] + [c] == [a, b, c];
    JoinSnoc([a], b);
    assert [a] + [b] == [a, b];
  }

  lemma KeySplits()
    ensures Split("r/x/y/**") == ["r", "x", "y", "**"] && Split("r/x/y") == ["r", "x", "y"]
  {
    JoinThree("r", "x", "y");
    assert "r" + "/" + "x" + "/" + "y" == "r/x/y";
    SplitJoin(["r", "x", "y"]);
    SplitSnoc("r/x/y", "**");
    assert "r/x/y" + "/" + "**" == "r/x/y/**";
    assert ["r", "x", "y"] + ["**"] == ["r", "x", "y", "**"];
  }
}
