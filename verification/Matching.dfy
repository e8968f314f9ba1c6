/** What a template matches, chunk by chunk, and that `shape` and `match` talk about
    the same keys (zeared/_template/_template.py, zeared/keyexpr.py). */
module Matching {
  import opened Grammar
  import opened KeyExpr
  import opened Regex
  import opened Template
  import opened Wrappers

  // ---------------------------------------------------------------- the specification

  predicate ChunkTakes(c: Chunk, k: string) {
    match c
    case Lit(t) => if t == "*" then k != "" else RunMatches(t, k)
    case Slot(_) => k != ""
  }

  function ChunkHolds(c: Chunk, k: string): Captures {
    match c
    case Lit(_) => map[]
    case Slot(n) => map[n := k]
  }

  predicate TailTakes(tail: Tail, rest: Path) {
    match tail
    case NoTail => rest == []
    case Anonymous => Join(rest) != ""
    case Named(_) => Join(rest) != ""
  }

  function TailHolds(tail: Tail, rest: Path): Captures {
    match tail
    case Named(n) => map[n := Join(rest)]
    case _ => map[]
  }

  /** What a key's chunks put in a topic's slots; `None` if the key is none of the topic's. */
  function ChunkCaptures(chunks: seq<Chunk>, tail: Tail, k: Path): Option<Captures> {
    if chunks == [] then if TailTakes(tail, k) then Some(TailHolds(tail, k)) else None
    else if k == [] || !ChunkTakes(chunks[0], k[0]) then None
    else
      match ChunkCaptures(chunks[1..], tail, k[1..])
      case None => None
      case Some(rest) => Some(ChunkHolds(chunks[0], k[0]) + rest)
  }

  /** The slots of `topic` in `key`. */
  function CapturesOf(topic: Topic, key: string): Option<Captures> {
    ChunkCaptures(topic.chunks, topic.tail, Split(key))
  }

  // ---------------------------------------------------------------- one chunk

  lemma {:induction false} RunExtends(t: string, u: string, v: string)
    requires |t| >= 2 && t[..2] == "$*" && RunMatches(t[2..], v)
    ensures RunMatches(t, u + v)
  {
    if u == "" {
      assert u + v == v;
    } else {
      RunExtends(t, u[1..], v);
      assert (u + v)[1..] == u[1..] + v;
    }
  }

  lemma {:induction false} RunSplits(t: string, s: string) returns (u: string, v: string)
    requires |t| >= 2 && t[..2] == "$*" && RunMatches(t, s)
    ensures s == u + v && RunMatches(t[2..], v)
    decreases |s|
  {
    if RunMatches(t[2..], s) {
      u, v := "", s;
    } else {
      u, v := RunSplits(t, s[1..]);
      u := s[..1] + u;
    }
  }

  lemma SlashFreeAppend(u: string, v: string)
    ensures SlashFree(u + v) <==> SlashFree(u) && SlashFree(v)
  {
    assert forall c :: c in u + v <==> c in u || c in v;
  }

  lemma {:induction false} AtomsTake(t: string, s: string, caps: Captures)
    requires Runs(t) && SlashFree(t) && Denotes(LiteralAtoms(t), s, caps)
    ensures SlashFree(s) && RunMatches(t, s) && caps == map[]
    decreases |t|
  {
    if t == "" {
      Nothing(s, caps);
    } else if |t| >= 2 && t[..2] == "$*" {
      var u, v, a, b := Decompose([Run0], LiteralAtoms(t[2..]), s, caps);
      Single(Run0, u, a);
      AtomsTake(t[2..], v, b);
      RunExtends(t, u, v);
      SlashFreeAppend(u, v);
    } else {
      var u, v, a, b := Decompose([Ch(t[0])], LiteralAtoms(t[1..]), s, caps);
      Single(Ch(t[0]), u, a);
      AtomsTake(t[1..], v, b);
      assert t[0] in t && s[1..] == v;
      SlashFreeAppend(u, v);
    }
  }

  lemma {:induction false} AtomsAccept(t: string, s: string)
    requires Runs(t) && SlashFree(s) && RunMatches(t, s)
    ensures Denotes(LiteralAtoms(t), s, map[])
    decreases |t|
  {
    var none: Captures := map[];
    if t == "" {
      Nothing(s, none);
    } else if |t| >= 2 && t[..2] == "$*" {
      var u, v := RunSplits(t, s);
      SlashFreeAppend(u, v);
      Single(Run0, u, map[]);
      AtomsAccept(t[2..], v);
      Compose([Run0], LiteralAtoms(t[2..]), u, v, map[], map[]);
      assert none + none == none;
    } else {
      assert s == s[..1] + s[1..];
      SlashFreeAppend(s[..1], s[1..]);
      Single(Ch(t[0]), s[..1], map[]);
      AtomsAccept(t[1..], s[1..]);
      Compose([Ch(t[0])], LiteralAtoms(t[1..]), s[..1], s[1..], map[], map[]);
      assert none + none == none;
    }
  }

  lemma ChunkDenotes(c: Chunk, s: string, caps: Captures)
    requires GoodChunk(c)
    ensures Denotes(ChunkPattern(c), s, caps) <==> SlashFree(s) && ChunkTakes(c, s) && caps == ChunkHolds(c, s)
  {
    match c
    case Slot(n) => Single(Group(n), s, caps);
    case Lit(t) =>
      if t == "*" {
        assert t[1..] == "";
        assert LiteralAtoms(t) == [Run1];
        Single(Run1, s, caps);
      } else {
        if Denotes(LiteralAtoms(t), s, caps) {
          AtomsTake(t, s, caps);
        }
        if SlashFree(s) && RunMatches(t, s) {
          AtomsAccept(t, s);
        }
      }
  }

  // ---------------------------------------------------------------- a whole key

  lemma SplitFirst(u: string, v: string)
    requires SlashFree(u)
    ensures |Split(u + "/" + v)| > 1
    ensures Split(u + "/" + v)[0] == u && Join(Split(u + "/" + v)[1..]) == v
  {
    var cs := [u] + Split(v);
    JoinSplit(v);
    assert cs[1..] == Split(v);
    assert SlashFreeChunks(cs);
    SplitJoin(cs);
  }

  lemma SplitWhole(u: string)
    requires SlashFree(u)
    ensures Split(u) == [u]
  {
    SplitJoin([u]);
  }

  lemma FirstChunk(s: string)
    requires |Split(s)| > 1
    ensures s == Split(s)[0] + "/" + Join(Split(s)[1..])
    ensures Split(Join(Split(s)[1..])) == Split(s)[1..]
  {
    JoinSplit(s);
    SplitJoin(Split(s)[1..]);
  }

  lemma LineFreeAppend(u: string, v: string)
    ensures LineFree(u + "/" + v) <==> LineFree(u) && LineFree(v)
  {
    assert forall c :: c in u + "/" + v <==> c in u || c == '/' || c in v;
  }

  lemma TailDenotes(tail: Tail, s: string, caps: Captures)
    requires tail != NoTail && LineFree(s)
    ensures Denotes(TailPattern(tail), s, caps) <==> ChunkCaptures([], tail, Split(s)) == Some(caps)
  {
    JoinSplit(s);
    match tail
    case Anonymous => Single(Any1, s, caps);
    case Named(n) => Single(AnyGroup(n), s, caps);
  }

  lemma HeadDenotes(c: Chunk, head: string, a: Captures) returns (u: string)
    requires GoodChunk(c) && Denotes(ChunkPattern(c) + [Ch('/')], head, a)
    ensures head == u + "/" && SlashFree(u) && ChunkTakes(c, u) && a == ChunkHolds(c, u)
  {
    var slash, x, y;
    u, slash, x, y := Decompose(ChunkPattern(c), [Ch('/')], head, a);
    Single(Ch('/'), slash, y);
    ChunkDenotes(c, u, x);
    assert x + map[] == x;
  }

  lemma HeadAccepts(c: Chunk, u: string)
    requires GoodChunk(c) && SlashFree(u) && ChunkTakes(c, u)
    ensures Denotes(ChunkPattern(c) + [Ch('/')], u + "/", ChunkHolds(c, u))
  {
    ChunkDenotes(c, u, ChunkHolds(c, u));
    Single(Ch('/'), "/", map[]);
    Compose(ChunkPattern(c), [Ch('/')], u, "/", ChunkHolds(c, u), map[]);
    assert ChunkHolds(c, u) + map[] == ChunkHolds(c, u);
  }

  /** With a slash after it, the first chunk's pattern takes exactly the first chunk. */
  lemma SlashDenotes(c: Chunk, rest: Pattern, s: string, caps: Captures)
    returns (v: string, b: Captures)
    requires GoodChunk(c) && Denotes(ChunkPattern(c) + [Ch('/')] + rest, s, caps)
    ensures |Split(s)| > 1 && ChunkTakes(c, Split(s)[0]) && v == Join(Split(s)[1..])
    ensures Denotes(rest, v, b) && caps == ChunkHolds(c, Split(s)[0]) + b
  {
    var head, a;
    head, v, a, b := Decompose(ChunkPattern(c) + [Ch('/')], rest, s, caps);
    var u := HeadDenotes(c, head, a);
    SplitFirst(u, v);
    assert s == u + "/" + v;
  }

  lemma SlashAccepts(c: Chunk, rest: Pattern, s: string, b: Captures)
    requires GoodChunk(c) && |Split(s)| > 1 && ChunkTakes(c, Split(s)[0])
    requires Denotes(rest, Join(Split(s)[1..]), b)
    ensures Denotes(ChunkPattern(c) + [Ch('/')] + rest, s, ChunkHolds(c, Split(s)[0]) + b)
  {
    var u, v := Split(s)[0], Join(Split(s)[1..]);
    FirstChunk(s);
    HeadAccepts(c, u);
    Compose(ChunkPattern(c) + [Ch('/')], rest, u + "/", v, ChunkHolds(c, u), b);
  }

  lemma {:induction false} PatternDenotes(chunks: seq<Chunk>, tail: Tail, s: string, caps: Captures)
    requires GoodChunks(chunks) && LineFree(s) && (chunks == [] ==> tail != NoTail)
    ensures Denotes(ChunksPattern(chunks, tail), s, caps) <==> ChunkCaptures(chunks, tail, Split(s)) == Some(caps)
    decreases |chunks|
  {
    if chunks == [] {
      TailDenotes(tail, s, caps);
    } else if |chunks| == 1 && tail == NoTail {
      OneChunkDenotes(chunks, s, caps);
    } else {
      assert GoodChunk(chunks[0]);
      var rest := ChunksPattern(chunks[1..], tail);
      if Denotes(ChunksPattern(chunks, tail), s, caps) {
        var v, b := SlashDenotes(chunks[0], rest, s, caps);
        FirstChunk(s);
        LineFreeAppend(Split(s)[0], v);
        PatternDenotes(chunks[1..], tail, v, b);
      }
      if ChunkCaptures(chunks, tail, Split(s)) == Some(caps) {
        MoreChunks(chunks, tail, s);
        var b := ChunkCaptures(chunks[1..], tail, Split(s)[1..]).value;
        FirstChunk(s);
        LineFreeAppend(Split(s)[0], Join(Split(s)[1..]));
        PatternDenotes(chunks[1..], tail, Join(Split(s)[1..]), b);
        SlashAccepts(chunks[0], rest, s, b);
      }
    }
  }

  lemma OneChunkDenotes(chunks: seq<Chunk>, s: string, caps: Captures)
    requires GoodChunks(chunks) && |chunks| == 1
    ensures Denotes(ChunkPattern(chunks[0]), s, caps) <==> ChunkCaptures(chunks, NoTail, Split(s)) == Some(caps)
  {
    var k := Split(s);
    ChunkDenotes(chunks[0], s, caps);
    JoinSplit(s);
    assert SlashFree(k[0]);
    if SlashFree(s) {
      SplitWhole(s);
    }
    if |k| == 1 {
      assert Join(k) == k[0];
      assert k[1..] == [];
      assert ChunkHolds(chunks[0], s) + map[] == ChunkHolds(chunks[0], s);
    } else {
      assert k[1..] != [];
    }
  }

  /** A matching key has a chunk after the first if the topic has more to match. */
  lemma MoreChunks(chunks: seq<Chunk>, tail: Tail, s: string)
    requires chunks != [] && (|chunks| > 1 || tail != NoTail)
    requires ChunkCaptures(chunks, tail, Split(s)).Some?
    ensures |Split(s)| > 1 && ChunkTakes(chunks[0], Split(s)[0])
      && ChunkCaptures(chunks[1..], tail, Split(s)[1..]).Some?
  {
    NothingLeft(chunks[1..], tail, Split(s)[1..]);
  }

  lemma NothingLeft(chunks: seq<Chunk>, tail: Tail, k: Path)
    requires (chunks != [] || tail != NoTail) && ChunkCaptures(chunks, tail, k).Some?
    ensures k != []
  {
    assert Join([]) == "";
  }

  /** `match(key)` is `CapturesOf(topic, key)`. */
  lemma MatchByChunk(topic: Topic, key: string, caps: Captures)
    requires WellFormed(topic) && LineFree(key)
    ensures MatchesWith(Compiled(topic), key, caps) <==> CapturesOf(topic, key) == Some(caps)
  {
    PatternDenotes(topic.chunks, topic.tail, key, caps);
  }

  // ---------------------------------------------------------------- shape

  /** `shape(topic)` of `zeared.keyexpr`, before canonicalisation. */
  function Shape(t: Template): string {
    if EndsWith(t.wildcard, "/**") then t.wildcard[..|t.wildcard| - 3] + "/*/**" else t.wildcard
  }

  /** The chunks of a key Zenoh accepts. */
  ghost predicate KeyChunks(k: Path) {
    forall i :: 0 <= i < |k| ==> k[i] != ""
  }

  ghost predicate ValidKey(key: string) {
    LineFree(key) && KeyChunks(Split(key))
  }

  function ShapeChunks(topic: Topic): Path {
    Shown(topic.chunks, Star) + (
      if topic.tail == NoTail then [] else if topic.chunks == [] then ["**"] else ["*", "**"])
  }

  lemma GoodChunksSlashFree(chunks: seq<Chunk>, hole: string -> string)
    requires GoodChunks(chunks)
    requires forall i :: 0 <= i < |chunks| && chunks[i].Slot? ==> SlashFree(hole(chunks[i].name))
    ensures SlashFreeChunks(Shown(chunks, hole))
  {
    forall i | 0 <= i < |chunks| ensures SlashFree(Shown(chunks, hole)[i]) {
      assert GoodChunk(chunks[i]);
    }
  }

  lemma StarNotDouble(chunks: seq<Chunk>)
    requires GoodChunks(chunks)
    ensures forall i :: 0 <= i < |chunks| ==> Shown(chunks, Star)[i] != "**"
  {
    forall i | 0 <= i < |chunks| ensures Shown(chunks, Star)[i] != "**" {
      assert GoodChunk(chunks[i]);
      if chunks[i].Lit? {
        TextIsNotDouble(chunks[i].text);
      }
    }
  }

  lemma TextIsNotDouble(t: string)
    requires t == "*" || Runs(t)
    ensures t != "**"
  {
    if |t| >= 2 {
      assert Runs(t);
      assert t[..2] == "$*" ==> t[0] == '$';
      assert t[..2] != "$*" ==> t[0] != '*';
    }
  }

  lemma ShapeByChunk(topic: Topic)
    requires WellFormed(topic)
    ensures Split(Shape(Compiled(topic))) == ShapeChunks(topic)
  {
    var shown := Shown(topic.chunks, Star);
    GoodChunksSlashFree(topic.chunks, Star);
    SplitJoin(ShapeChunks(topic));
    if topic.tail == NoTail {
      assert shown + [] == shown;
      WildcardHasNoTail(topic);
    } else if topic.chunks == [] {
      assert shown + ["**"] == ["**"];
    } else {
      ShapeOfTail(shown);
    }
  }

  lemma ShapeOfTail(shown: Path)
    requires shown != []
    ensures var w := Join(shown + ["**"]);
      EndsWith(w, "/**") && w[..|w| - 3] + "/*/**" == Join(shown + ["*", "**"])
  {
    JoinSnoc(shown, "**");
    JoinSnoc(shown, "*");
    JoinSnoc(shown + ["*"], "**");
    assert shown + ["*"] + ["**"] == shown + ["*", "**"];
    TailReplaced(Join(shown));
  }

  lemma TailReplaced(s: string)
    ensures var w := s + "/" + "**"; EndsWith(w, "/**") && w[..|w| - 3] + "/*/**" == s + "/" + "*" + "/" + "**"
  {
    var w := s + "/" + "**";
    assert w[|w| - 3..] == "/**";
    assert w[..|w| - 3] == s;
  }

  lemma WildcardHasNoTail(topic: Topic)
    requires WellFormed(topic) && topic.tail == NoTail
    ensures !EndsWith(Join(Shown(topic.chunks, Star)), "/**")
  {
    var shown := Shown(topic.chunks, Star);
    var w := Join(shown);
    if EndsWith(w, "/**") {
      var front := w[..|w| - 3];
      assert w == front + "/" + "**";
      GoodChunksSlashFree(topic.chunks, Star);
      SplitJoin(shown);
      SplitSnoc(front, "**");
      assert shown[|shown| - 1] == "**";
      StarNotDouble(topic.chunks);
    }
  }

  lemma {:induction false} SplitSnoc(s: string, last: string)
    requires SlashFree(last)
    ensures Split(s + "/" + last) == Split(s) + [last]
  {
    var cs := Split(s);
    JoinSplit(s);
    JoinSnoc(cs, last);
    assert SlashFreeChunks(cs + [last]);
    SplitJoin(cs + [last]);
  }

  lemma {:induction false} ShapeMatches(chunks: seq<Chunk>, tail: Tail, k: Path, q: Path)
    requires GoodChunks(chunks) && KeyChunks(k)
    requires q == if tail == NoTail then [] else ["*", "**"]
    ensures Matches(Shown(chunks, Star) + q, k) <==> ChunkCaptures(chunks, tail, k).Some?
    decreases |chunks|
  {
    var pattern := Shown(chunks, Star) + q;
    if chunks == [] {
      assert pattern == q;
      if tail != NoTail && k != [] {
        TailMatchesAll(k);
        AnyTailMatches(k);
      }
    } else if k != [] {
      StarNotDouble(chunks);
      assert pattern[0] == ShownChunk(chunks[0], Star) != "**";
      assert pattern[1..] == Shown(chunks[1..], Star) + q;
      ShapeMatches(chunks[1..], tail, k[1..], q);
      assert GoodChunk(chunks[0]);
      StarMatches(chunks[0], k[0]);
    } else {
      StarNotDouble(chunks);
      assert pattern[0] == ShownChunk(chunks[0], Star) != "**";
    }
  }

  lemma StarMatches(c: Chunk, k: string)
    requires GoodChunk(c) && k != ""
    ensures ChunkMatches(ShownChunk(c, Star), k) <==> ChunkTakes(c, k)
  {
  }

  lemma {:induction false} AnyTailMatches(k: Path)
    requires k != []
    ensures Matches(["*", "**"], k)
  {
    assert ["*", "**"][1..] == ["**"];
    AllMatch(k[1..]);
  }

  lemma {:induction false} AllMatch(k: Path)
    ensures Matches(["**"], k)
    decreases |k|
  {
    assert ["**"][1..] == [];
    if k != [] {
      AllMatch(k[1..]);
    }
  }

  lemma TailMatchesAll(k: Path)
    requires k != [] && KeyChunks(k)
    ensures Join(k) != ""
  {
    assert k[0] != "";
  }

  /** `includes(shape(topic), key)` exactly when `Template.parse(topic).match(key)` succeeds. */
  lemma ShapeIncludesExactlyTheMatched(topic: Topic, key: string)
    requires WellFormed(topic) && ValidKey(key)
    ensures Intersects(Shape(Compiled(topic)), key) <==> exists caps :: MatchesWith(Compiled(topic), key, caps)
  {
    var k := Split(key);
    ShapeByChunk(topic);
    var captured := CapturesOf(topic, key);
    if captured.Some? {
      MatchByChunk(topic, key, captured.value);
    }
    forall caps | MatchesWith(Compiled(topic), key, caps) ensures captured == Some(caps) {
      MatchByChunk(topic, key, caps);
    }
    if topic.chunks == [] {
      assert ShapeChunks(topic) == ["**"];
      AllMatch(k);
      TailMatchesAll(k);
    } else if topic.tail == NoTail {
      ShapeMatches(topic.chunks, topic.tail, k, []);
    } else {
      ShapeMatches(topic.chunks, topic.tail, k, ["*", "**"]);
    }
  }

  // ---------------------------------------------------------------- what a subscriber declares

  /** The wildcard's `**` takes a tail, or none at all. */
  lemma {:induction false} WildcardMatches(chunks: seq<Chunk>, tail: Tail, k: Path)
    requires GoodChunks(chunks) && KeyChunks(k) && tail != NoTail
    ensures Matches(Shown(chunks, Star) + ["**"], k) <==>
      ChunkCaptures(chunks, tail, k).Some? || ChunkCaptures(chunks, NoTail, k).Some?
    decreases |chunks|
  {
    var pattern := Shown(chunks, Star) + ["**"];
    if chunks == [] {
      assert pattern == ["**"];
      AllMatch(k);
      if k != [] {
        TailMatchesAll(k);
      }
    } else {
      StarNotDouble(chunks);
      assert pattern[0] == ShownChunk(chunks[0], Star) != "**";
      if k != [] {
        assert pattern[1..] == Shown(chunks[1..], Star) + ["**"];
        WildcardMatches(chunks[1..], tail, k[1..]);
        assert GoodChunk(chunks[0]);
        StarMatches(chunks[0], k[0]);
      }
    }
  }

  lemma WildcardChunksOf(topic: Topic)
    requires WellFormed(topic)
    ensures Split(Compiled(topic).wildcard) == WildcardChunks(topic)
  {
    GoodChunksSlashFree(topic.chunks, Star);
    SplitJoin(WildcardChunks(topic));
  }

  /** The key lacks just the tail. */
  ghost predicate LacksTail(topic: Topic, key: string) {
    topic.tail != NoTail && ChunkCaptures(topic.chunks, NoTail, Split(key)).Some?
  }

  /** The key expression a subscriber declares reaches exactly the keys its template matches, and with a tail those
      that lack just the tail too. */
  lemma WildcardReachesExactly(topic: Topic, key: string)
    requires WellFormed(topic) && ValidKey(key)
    ensures Intersects(Compiled(topic).wildcard, key) <==>
      (exists caps :: MatchesWith(Compiled(topic), key, caps)) || LacksTail(topic, key)
  {
    var k := Split(key);
    var captured := CapturesOf(topic, key);
    WildcardChunksOf(topic);
    if captured.Some? {
      MatchByChunk(topic, key, captured.value);
    }
    forall caps | MatchesWith(Compiled(topic), key, caps) ensures captured == Some(caps) {
      MatchByChunk(topic, key, caps);
    }
    if topic.tail == NoTail {
      ShapeMatches(topic.chunks, topic.tail, k, []);
    } else {
      WildcardMatches(topic.chunks, topic.tail, k);
    }
  }
}
