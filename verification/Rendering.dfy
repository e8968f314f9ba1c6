/** Rendering a key and matching it undo each other (zeared/_template/_template.py). */
module Rendering {
  import opened Compile
  import opened Format
  import opened Grammar
  import opened KeyExpr
  import opened Matching
  import opened Regex
  import opened Sequences
  import opened Template
  import opened Wrappers

  // ---------------------------------------------------------------- captures by position

  ghost function NameSet(chunks: seq<Chunk>, tail: Tail): set<string> {
    set n | n in SlotNames(chunks) + TailName(tail)
  }

  /** Slot `chunks[i]` holds the chunk `k[i]`; a literal takes it. */
  predicate Agrees(c: Chunk, k: string, caps: Captures) {
    match c
    case Lit(_) => ChunkTakes(c, k)
    case Slot(n) => k != "" && n in caps && caps[n] == k
  }

  ghost predicate AgreesUpTo(chunks: seq<Chunk>, k: Path, caps: Captures)
    requires |chunks| <= |k|
  {
    forall i :: 0 <= i < |chunks| ==> Agrees(chunks[i], k[i], caps)
  }

  predicate TailAgrees(tail: Tail, rest: Path, caps: Captures) {
    TailTakes(tail, rest) && (tail.Named? ==> tail.name in caps && caps[tail.name] == Join(rest))
  }

  /** `caps` holds each slot's own part of the key, and nothing else. */
  ghost predicate Reads(chunks: seq<Chunk>, tail: Tail, k: Path, caps: Captures) {
    && caps.Keys == NameSet(chunks, tail)
    && |chunks| <= |k|
    && AgreesUpTo(chunks, k, caps)
    && TailAgrees(tail, k[|chunks|..], caps)
  }

  lemma NameSetStep(chunks: seq<Chunk>, tail: Tail)
    requires chunks != []
    ensures NameSet(chunks, tail) == (if chunks[0].Slot? then {chunks[0].name} else {}) + NameSet(chunks[1..], tail)
  {
    var names := SlotNames(chunks[1..]) + TailName(tail);
    if chunks[0].Slot? {
      assert SlotNames(chunks) + TailName(tail) == [chunks[0].name] + names;
    }
  }

  lemma DistinctTail(n: string, names: seq<string>)
    requires Distinct([n] + names)
    ensures Distinct(names) && n !in names
  {
    var all := [n] + names;
    assert all[0] == n;
    assert forall i :: 0 <= i < |names| ==> names[i] == all[i + 1];
  }

  lemma DistinctStep(chunks: seq<Chunk>, tail: Tail)
    requires chunks != [] && Distinct(SlotNames(chunks) + TailName(tail))
    ensures Distinct(SlotNames(chunks[1..]) + TailName(tail))
    ensures chunks[0].Slot? ==> chunks[0].name !in NameSet(chunks[1..], tail)
  {
    if chunks[0].Slot? {
      var names := SlotNames(chunks[1..]) + TailName(tail);
      assert SlotNames(chunks) + TailName(tail) == [chunks[0].name] + names;
      DistinctTail(chunks[0].name, names);
    }
  }

  /** What agrees with the tail's captures agrees with a larger mapping that keeps them. */
  lemma AgreesInLarger(chunks: seq<Chunk>, tail: Tail, k: Path, caps: Captures, larger: Captures)
    requires Reads(chunks, tail, k, caps)
    requires forall n :: n in caps ==> n in larger && larger[n] == caps[n]
    ensures AgreesUpTo(chunks, k, larger) && TailAgrees(tail, k[|chunks|..], larger)
  {
    forall i | 0 <= i < |chunks| ensures Agrees(chunks[i], k[i], larger) {
      assert Agrees(chunks[i], k[i], caps);
    }
  }

  lemma {:induction false} AgreesInSmaller(chunks: seq<Chunk>, tail: Tail, k: Path, caps: Captures, smaller: Captures)
    requires |chunks| <= |k| && AgreesUpTo(chunks, k, caps) && TailAgrees(tail, k[|chunks|..], caps)
    requires smaller.Keys == NameSet(chunks, tail)
    requires forall n :: n in smaller ==> n in caps && smaller[n] == caps[n]
    ensures Reads(chunks, tail, k, smaller)
  {
    forall i | 0 <= i < |chunks| ensures Agrees(chunks[i], k[i], smaller) {
      assert Agrees(chunks[i], k[i], caps);
      if chunks[i].Slot? {
        SlotIsNamed(chunks, i);
      }
    }
    if tail.Named? {
      var names := SlotNames(chunks) + TailName(tail);
      assert names[|names| - 1] == tail.name;
    }
  }

  lemma {:induction false} SlotIsNamed(chunks: seq<Chunk>, i: nat)
    requires i < |chunks| && chunks[i].Slot?
    ensures chunks[i].name in SlotNames(chunks)
  {
    if i > 0 {
      SlotIsNamed(chunks[1..], i - 1);
    }
  }

  lemma ReadsStep(chunks: seq<Chunk>, tail: Tail, k: Path, rest: Captures)
    requires chunks != [] && k != [] && Distinct(SlotNames(chunks) + TailName(tail))
    requires ChunkTakes(chunks[0], k[0]) && Reads(chunks[1..], tail, k[1..], rest)
    ensures Reads(chunks, tail, k, ChunkHolds(chunks[0], k[0]) + rest)
  {
    var caps := ChunkHolds(chunks[0], k[0]) + rest;
    NameSetStep(chunks, tail);
    DistinctStep(chunks, tail);
    AgreesInLarger(chunks[1..], tail, k[1..], rest, caps);
    forall i | 0 <= i < |chunks| ensures Agrees(chunks[i], k[i], caps) {
      if i > 0 {
        assert Agrees(chunks[1..][i - 1], k[1..][i - 1], caps);
      }
    }
    assert k[1..][|chunks| - 1..] == k[|chunks|..];
  }

  lemma ReadsBack(chunks: seq<Chunk>, tail: Tail, k: Path, caps: Captures) returns (rest: Captures)
    requires chunks != [] && Distinct(SlotNames(chunks) + TailName(tail)) && Reads(chunks, tail, k, caps)
    ensures k != [] && ChunkTakes(chunks[0], k[0]) && Reads(chunks[1..], tail, k[1..], rest)
    ensures caps == ChunkHolds(chunks[0], k[0]) + rest
  {
    var first := ChunkHolds(chunks[0], k[0]).Keys;
    rest := caps - first;
    NameSetStep(chunks, tail);
    DistinctStep(chunks, tail);
    assert Agrees(chunks[0], k[0], caps);
    forall i | 0 <= i < |chunks| - 1 ensures Agrees(chunks[1..][i], k[1..][i], caps) {
      assert Agrees(chunks[i + 1], k[i + 1], caps);
    }
    assert k[1..][|chunks| - 1..] == k[|chunks|..];
    AgreesInSmaller(chunks[1..], tail, k[1..], caps, rest);
  }

  /** Captures are read off by position, and only so. */
  lemma {:induction false} CapturesByPosition(chunks: seq<Chunk>, tail: Tail, k: Path, caps: Captures)
    requires Distinct(SlotNames(chunks) + TailName(tail))
    ensures ChunkCaptures(chunks, tail, k) == Some(caps) <==> Reads(chunks, tail, k, caps)
    decreases |chunks|
  {
    if chunks == [] {
      assert k[0..] == k;
      assert caps.Keys == {} ==> caps == map[];
      if tail.Named? && TailAgrees(tail, k, caps) && caps.Keys == {tail.name} {
        assert caps == map[tail.name := Join(k)];
      }
    } else {
      DistinctStep(chunks, tail);
      if ChunkCaptures(chunks, tail, k) == Some(caps) {
        var rest := ChunkCaptures(chunks[1..], tail, k[1..]).value;
        CapturesByPosition(chunks[1..], tail, k[1..], rest);
        ReadsStep(chunks, tail, k, rest);
      }
      if Reads(chunks, tail, k, caps) {
        var rest := ReadsBack(chunks, tail, k, caps);
        CapturesByPosition(chunks[1..], tail, k[1..], rest);
      }
    }
  }

  lemma CapturesAreRead(topic: Topic, key: string, caps: Captures)
    requires WellFormed(topic) && LineFree(key)
    ensures MatchesWith(Compiled(topic), key, caps) <==> Reads(topic.chunks, topic.tail, Split(key), caps)
  {
    MatchByChunk(topic, key, caps);
    CapturesByPosition(topic.chunks, topic.tail, Split(key), caps);
  }

  // ---------------------------------------------------------------- formatting

  /** The topic with its `{name**}` written `{name}`, as the renderers format it. */
  function Full(topic: Topic): seq<Chunk> {
    topic.chunks + (if topic.tail.Named? then [Slot(topic.tail.name)] else [])
  }

  function Valued(values: map<string, string>): string -> string {
    n => if n in values then values[n] else ""
  }

  lemma {:induction false} ShownAppend(a: seq<Chunk>, b: seq<Chunk>, hole: string -> string)
    ensures Shown(a + b, hole) == Shown(a, hole) + Shown(b, hole)
  {
  }

  lemma SlotNamesStep(chunks: seq<Chunk>)
    requires chunks != []
    ensures SlotNames(chunks) == (if chunks[0].Slot? then [chunks[0].name] else []) + SlotNames(chunks[1..])
  {
  }

  lemma {:induction false} SlotNamesAppend(a: seq<Chunk>, b: seq<Chunk>)
    ensures SlotNames(a + b) == SlotNames(a) + SlotNames(b)
  {
    if a == [] {
      assert a + b == b;
    } else {
      SlotNamesAppend(a[1..], b);
      SlotNamesStep(a);
      SlotNamesStep(a + b);
      assert (a + b)[1..] == a[1..] + b;
      Regroup(if a[0].Slot? then [a[0].name] else [], SlotNames(a[1..]), SlotNames(b));
    }
  }

  lemma FullNames(topic: Topic)
    requires WellFormed(topic)
    ensures SlotNames(Full(topic)) == Names(topic) && GoodChunks(Full(topic))
  {
    if topic.tail.Named? {
      var last := [Slot(topic.tail.name)];
      SlotNamesAppend(topic.chunks, last);
      assert SlotNames(last) == [topic.tail.name];
    } else {
      assert Full(topic) == topic.chunks;
      assert SlotNames(topic.chunks) + [] == SlotNames(topic.chunks);
    }
  }

  lemma ReplacedWhole(what: string, with: string)
    requires what != ""
    ensures Replaced(what, what, with) == with
  {
    assert what[..|what|] == what && what[|what|..] == "";
    assert with + "" == with;
  }

  lemma ReplacedLater(c: char, rest: string, what: string, with: string)
    requires what != "" && !(what <= [c] + rest)
    ensures Replaced([c] + rest, what, with) == [c] + Replaced(rest, what, with)
  {
    var s := [c] + rest;
    assert s[1..] == rest && s[..1] == [c];
  }

  /** Only the whole tail slot reads `{name**}`. */
  lemma {:induction false} TailReplacedOnce(pre: string, n: string)
    requires ValidName(n) && !HasDouble(pre) && (pre == "" || pre[|pre| - 1] == '/')
    ensures Replaced(pre + TailSlot(n), TailSlot(n), Slotted(n)) == pre + Slotted(n)
    decreases |pre|
  {
    var tail, with := TailSlot(n), Slotted(n);
    if pre == "" {
      ReplacedWhole(tail, with);
      assert "" + tail == tail && "" + with == with;
    } else {
      NotYet(pre, n);
      NoDoubleRest(pre);
      TailReplacedOnce(pre[1..], n);
      OffTheFront(pre, tail);
      OffTheFront(pre, with);
      ReplacedLater(pre[0], pre[1..] + tail, tail, with);
    }
  }

  lemma OffTheFront(pre: string, rest: string)
    requires pre != ""
    ensures pre + rest == [pre[0]] + (pre[1..] + rest)
  {
  }

  lemma NoDoubleRest(pre: string)
    requires pre != "" && !HasDouble(pre)
    ensures !HasDouble(pre[1..]) && (|pre| > 1 ==> pre[1..][|pre| - 2] == pre[|pre| - 1])
  {
  }

  lemma NotYet(pre: string, n: string)
    requires ValidName(n) && !HasDouble(pre) && pre != "" && pre[|pre| - 1] == '/'
    ensures !(TailSlot(n) <= pre + TailSlot(n))
  {
    if TailSlot(n) <= pre + TailSlot(n) {
      if |pre| > |n| + 2 {
        StarsInside(pre, n);
      } else {
        SlashInside(pre, n);
      }
    }
  }

  /** A slot in front of itself, the first within a long text, has its stars in that text. */
  lemma StarsInside(pre: string, n: string)
    requires |pre| > |n| + 2 && TailSlot(n) <= pre + TailSlot(n)
    ensures HasDouble(pre)
  {
    var tail := TailSlot(n);
    assert tail[|n| + 1] == '*' && tail[|n| + 2] == '*';
    assert pre[|n| + 1] == tail[|n| + 1] && pre[|n| + 2] == tail[|n| + 2];
    assert pre[|n| + 1..|n| + 3] == [pre[|n| + 1], pre[|n| + 2]] == "**";
    DoubleAt(pre, |n| + 1);
  }

  lemma SlashInside(pre: string, n: string)
    requires ValidName(n) && 0 < |pre| <= |n| + 2 && pre[|pre| - 1] == '/'
    ensures !(TailSlot(n) <= pre + TailSlot(n))
  {
    var tail := TailSlot(n);
    NameIsBraceFree(n);
    assert (pre + tail)[|pre| - 1] == '/';
    assert tail[|pre| - 1] != '/' by {
      if 2 <= |pre| <= |n| + 1 {
        assert tail[|pre| - 1] == n[|pre| - 2];
      }
    }
  }

  lemma PlainByChunk(topic: Topic)
    requires WellFormed(topic) && topic.tail != Anonymous
    ensures PlainFormat(Compiled(topic)) == Body(Full(topic))
  {
    var shown := Shown(topic.chunks, Slotted);
    match topic.tail
    case NoTail =>
      assert Full(topic) == topic.chunks;
      assert shown + [] == shown;
    case Named(n) =>
      var last := [Slot(n)];
      ShownAppend(topic.chunks, last, Slotted);
      assert Shown(last, Slotted) == [Slotted(n)];
      if topic.chunks == [] {
        assert shown + [TailSlot(n)] == [TailSlot(n)] && shown + [Slotted(n)] == [Slotted(n)];
        assert "" + TailSlot(n) == TailSlot(n) && "" + Slotted(n) == Slotted(n);
        TailReplacedOnce("", n);
      } else {
        JoinSnoc(shown, TailSlot(n));
        JoinSnoc(shown, Slotted(n));
        BodyHasNoDouble(topic.chunks);
        DoubleAcross(Body(topic.chunks), "");
        assert Body(topic.chunks) + "/" + "" == Body(topic.chunks) + "/";
        TailReplacedOnce(Body(topic.chunks) + "/", n);
      }
  }

  /** Each field of `parts` is a name, and has a value. */
  ghost predicate AllGiven(parts: seq<Part>, values: map<string, string>) {
    forall n :: n in FieldTexts(parts) ==> n in values
  }

  lemma FieldTextsStep(parts: seq<Part>)
    requires parts != []
    ensures forall n :: n in FieldTexts(parts) <==> parts[0].field == Some(n) || n in FieldTexts(parts[1..])
  {
    if parts[0].field.Some? {
      assert FieldTexts(parts) == [parts[0].field.value] + FieldTexts(parts[1..]);
    }
  }

  lemma {:induction false} FilledParts(parts: seq<Part>, values: map<string, string>)
    requires forall n :: n in FieldTexts(parts) ==> ValidName(n)
    ensures Filled(parts, values) ==
      if AllGiven(parts, values) then Some(WovenParts(parts, Verbatim, Valued(values))) else None
  {
    if parts != [] {
      FieldTextsStep(parts);
      FilledParts(parts[1..], values);
      var rest := WovenParts(parts[1..], Verbatim, Valued(values));
      if parts[0].field.None? {
        assert AllGiven(parts, values) <==> AllGiven(parts[1..], values);
        assert [] + rest == rest;
      } else {
        var n := parts[0].field.value;
        assert n in FieldTexts(parts);
        assert FieldName(n) == Some(n);
        assert AllGiven(parts, values) <==> n in values && AllGiven(parts[1..], values);
        if n in values {
          assert Valued(values)(n) == values[n];
          assert parts[0].literal + values[n] + rest == parts[0].literal + (Valued(values)(n) + rest);
        }
      }
    }
  }

  /** The key a topic's slot values name. */
  function KeyOf(topic: Topic, values: map<string, string>): string {
    Join(Shown(Full(topic), Valued(values)))
  }

  lemma FormatByChunk(topic: Topic, values: map<string, string>)
    requires WellFormed(topic) && topic.tail != Anonymous
    ensures Formatted(PlainFormat(Compiled(topic)), values)
         == if forall n :: n in Names(topic) ==> n in values then Some(KeyOf(topic, values)) else None
  {
    var full := Full(topic);
    PlainByChunk(topic);
    FullNames(topic);
    BodyScans(full);
    PartsAligned(full);
    SlotNamesAreValid(full);
    FilledParts(PartsOf(full), values);
    VerbatimSplits();
    PartsWeave(full, Verbatim, Valued(values));
    PiecesJoin(full, Valued(values));
  }

  /** `render`: the key of the values, or which error. */
  lemma RenderByChunk(topic: Topic, values: map<string, string>)
    requires WellFormed(topic)
    ensures Rendered(Compiled(topic), values) ==
      if !Publishable(topic) then Err(SubscribeOnly)
      else if topic.tail.Named? && topic.tail.name in values && values[topic.tail.name] == "" then
        Err(EmptyTail(topic.tail.name))
      else if forall n :: n in Names(topic) ==> n in values then Ok(KeyOf(topic, values))
      else Err(MissingField)
  {
    if Publishable(topic) {
      FormatByChunk(topic, values);
    }
  }

  // ---------------------------------------------------------------- round trips

  /** A value that keeps to its slot: one nonempty chunk. */
  ghost predicate OneSegment(v: string) {
    v != "" && SlashFree(v)
  }

  ghost predicate SegmentsFit(chunks: seq<Chunk>, values: map<string, string>) {
    forall n :: n in SlotNames(chunks) ==> n in values && OneSegment(values[n])
  }

  ghost predicate Renderable(topic: Topic, values: map<string, string>) {
    && Publishable(topic)
    && (forall n :: n in Names(topic) ==> n in values && LineFree(values[n]))
    && (topic.tail.Named? ==> values[topic.tail.name] != "")
  }

  /** The values of `topic`'s own slots. */
  function OwnSlots(topic: Topic, values: map<string, string>): Captures {
    map n | n in values && n in Names(topic) :: values[n]
  }

  function TailChunks(topic: Topic, values: map<string, string>): Path {
    if topic.tail.Named? then Split(Valued(values)(topic.tail.name)) else []
  }

  lemma {:induction false} JoinAppend(a: Path, s: string)
    requires a != []
    ensures Join(a + Split(s)) == Join(a) + "/" + s
  {
    JoinSplit(s);
    if |a| == 1 {
      assert (a + Split(s))[1..] == Split(s);
    } else {
      assert Join(a + Split(s)) == a[0] + "/" + (Join(a[1..]) + "/" + s) by {
        JoinAppend(a[1..], s);
        assert (a + Split(s))[1..] == a[1..] + Split(s);
      }
    }
  }

  lemma TailNamed(topic: Topic)
    requires topic.tail.Named?
    ensures topic.tail.name in Names(topic)
  {
    assert Names(topic)[|SlotNames(topic.chunks)|] == topic.tail.name;
  }

  /** A rendered key's chunks: one for each chunk of the topic, then the tail's. */
  lemma KeyChunksOf(topic: Topic, values: map<string, string>)
    requires WellFormed(topic) && topic.tail != Anonymous
    requires forall n :: n in SlotNames(topic.chunks) ==> n in values && SlashFree(values[n])
    ensures Split(KeyOf(topic, values)) == Shown(topic.chunks, Valued(values)) + TailChunks(topic, values)
  {
    var hole := Valued(values);
    var shown := Shown(topic.chunks, hole);
    var cs := shown + TailChunks(topic, values);
    forall i | 0 <= i < |topic.chunks| && topic.chunks[i].Slot? ensures SlashFree(hole(topic.chunks[i].name)) {
      SlotIsNamed(topic.chunks, i);
    }
    GoodChunksSlashFree(topic.chunks, hole);
    assert Join(cs) == KeyOf(topic, values) by {
      if topic.tail.Named? {
        var v := hole(topic.tail.name);
        ShownAppend(topic.chunks, [Slot(topic.tail.name)], hole);
        assert Shown([Slot(topic.tail.name)], hole) == [v];
        if topic.chunks == [] {
          assert cs == Split(v) && shown + [v] == [v];
          JoinSplit(v);
        } else {
          JoinSnoc(shown, v);
          JoinAppend(shown, v);
        }
      } else {
        assert Full(topic) == topic.chunks && cs == shown;
      }
    }
    SplitJoin(cs);
  }

  lemma {:induction false} StarlessLiteral(chunks: seq<Chunk>, i: nat)
    requires !Starred(chunks) && i < |chunks| && chunks[i].Lit?
    ensures '*' !in chunks[i].text
  {
    if i > 0 {
      StarlessLiteral(chunks[1..], i - 1);
    }
  }

  lemma {:induction false} StarlessHasNoRun(t: string)
    requires '*' !in t
    ensures !HasRun(t)
  {
    if |t| >= 2 {
      assert t[..2] != "$*" by {
        assert t[..2][1] == t[1] && t[1] in t;
      }
      assert forall c :: c in t[1..] ==> c in t;
      StarlessHasNoRun(t[1..]);
    }
  }

  /** In a publishable topic a literal takes itself alone. */
  lemma LiteralTakes(chunks: seq<Chunk>, i: nat, k: string)
    requires !Starred(chunks) && i < |chunks| && chunks[i].Lit?
    ensures ChunkTakes(chunks[i], k) <==> k == chunks[i].text
  {
    var t := chunks[i].text;
    StarlessLiteral(chunks, i);
    assert t != "*" by {
      assert '*' in "*";
    }
    StarlessHasNoRun(t);
    LiteralChunk(t, k);
  }

  lemma SegmentsAreRead(topic: Topic, values: map<string, string>)
    requires WellFormed(topic) && Renderable(topic, values) && SegmentsFit(topic.chunks, values)
    ensures Reads(topic.chunks, topic.tail, Split(KeyOf(topic, values)), OwnSlots(topic, values))
  {
    var k, caps := Split(KeyOf(topic, values)), OwnSlots(topic, values);
    assert forall n :: n in SlotNames(topic.chunks) ==> OneSegment(values[n]);
    KeyChunksOf(topic, values);
    forall i | 0 <= i < |topic.chunks| ensures Agrees(topic.chunks[i], k[i], caps) {
      if topic.chunks[i].Lit? {
        LiteralTakes(topic.chunks, i, k[i]);
      } else {
        SlotIsNamed(topic.chunks, i);
        assert topic.chunks[i].name in Names(topic);
      }
    }
    if topic.tail.Named? {
      TailNamed(topic);
      JoinSplit(values[topic.tail.name]);
    }
  }

  lemma {:induction false} NameHasSlot(chunks: seq<Chunk>, n: string) returns (i: nat)
    requires n in SlotNames(chunks)
    ensures i < |chunks| && chunks[i] == Slot(n)
  {
    if chunks[0] == Slot(n) {
      i := 0;
    } else {
      i := NameHasSlot(chunks[1..], n);
      i := i + 1;
    }
  }

  /** `match(render(v)) == v` exactly when each single-segment value is one nonempty chunk. */
  lemma MatchUndoesRender(topic: Topic, values: map<string, string>)
    requires WellFormed(topic) && Renderable(topic, values)
    ensures Rendered(Compiled(topic), values) == Ok(KeyOf(topic, values))
    ensures MatchesWith(Compiled(topic), KeyOf(topic, values), OwnSlots(topic, values)) <==>
      SegmentsFit(topic.chunks, values)
  {
    RenderByChunk(topic, values);
    var key, caps := KeyOf(topic, values), OwnSlots(topic, values);
    KeyIsLineFree(topic, values);
    CapturesAreRead(topic, key, caps);
    if SegmentsFit(topic.chunks, values) {
      SegmentsAreRead(topic, values);
    }
    if Reads(topic.chunks, topic.tail, Split(key), caps) {
      forall n | n in SlotNames(topic.chunks) ensures n in values && OneSegment(values[n]) {
        var i := NameHasSlot(topic.chunks, n);
        assert n in Names(topic);
        assert Agrees(topic.chunks[i], Split(key)[i], caps);
        assert SlashFree(Split(key)[i]);
      }
    }
  }

  lemma {:induction false} JoinIsLineFree(texts: Path)
    requires forall i :: 0 <= i < |texts| ==> LineFree(texts[i])
    ensures LineFree(Join(texts))
  {
    if |texts| > 1 {
      JoinIsLineFree(texts[1..]);
      LineFreeAppend(texts[0], Join(texts[1..]));
    }
  }

  lemma KeyIsLineFree(topic: Topic, values: map<string, string>)
    requires WellFormed(topic) && Renderable(topic, values)
    ensures LineFree(KeyOf(topic, values))
  {
    var full := Full(topic);
    FullNames(topic);
    forall i | 0 <= i < |full| ensures LineFree(Shown(full, Valued(values))[i]) {
      assert GoodChunk(full[i]);
      if full[i].Slot? {
        SlotIsNamed(full, i);
      }
    }
    JoinIsLineFree(Shown(full, Valued(values)));
  }

  /** `render(match(k)) == k` for every key that matches a publishable topic. */
  lemma RenderUndoesMatch(topic: Topic, key: string, caps: Captures)
    requires WellFormed(topic) && Publishable(topic) && LineFree(key)
    requires MatchesWith(Compiled(topic), key, caps)
    ensures Rendered(Compiled(topic), caps) == Ok(key)
  {
    var k := Split(key);
    CapturesAreRead(topic, key, caps);
    assert forall n :: n in Names(topic) ==> n in caps.Keys;
    forall n | n in SlotNames(topic.chunks) ensures n in caps && SlashFree(caps[n]) {
      var i := NameHasSlot(topic.chunks, n);
      assert Agrees(topic.chunks[i], k[i], caps);
      assert SlashFree(k[i]);
    }
    RenderByChunk(topic, caps);
    KeyChunksOf(topic, caps);
    ReadChunks(topic, k, caps);
    SplitInjective(key, KeyOf(topic, caps));
  }

  lemma ReadChunks(topic: Topic, k: Path, caps: Captures)
    requires WellFormed(topic) && Publishable(topic) && Reads(topic.chunks, topic.tail, k, caps) && SlashFreeChunks(k)
    ensures k == Shown(topic.chunks, Valued(caps)) + TailChunks(topic, caps)
  {
    var shown := Shown(topic.chunks, Valued(caps));
    forall i | 0 <= i < |topic.chunks| ensures k[i] == shown[i] {
      assert Agrees(topic.chunks[i], k[i], caps);
      if topic.chunks[i].Lit? {
        LiteralTakes(topic.chunks, i, k[i]);
      }
    }
    var rest := k[|topic.chunks|..];
    assert k == k[..|topic.chunks|] + rest;
    assert k[..|topic.chunks|] == shown;
    if topic.tail.Named? {
      assert rest != [] by {
        assert Join([]) == "";
      }
      SplitJoin(rest);
    }
  }
}
