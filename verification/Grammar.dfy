/** The topic grammar: a topic as chunks and a tail, printed to a template string
    and read back by the parser (zeared/_template/_template.py). */
module Grammar {
  import opened Format
  import opened KeyExpr
  import opened Regex
  import opened Template
  import opened Wrappers

  datatype Chunk = Lit(text: string) | Slot(name: string)

  datatype Topic = Topic(chunks: seq<Chunk>, tail: Tail)

  // ---------------------------------------------------------------- well-formed topics

  /** Each `*` is part of a `$*`. */
  predicate Runs(t: string) {
    if t == "" then true
    else if |t| >= 2 && t[..2] == "$*" then Runs(t[2..])
    else t[0] != '*' && Runs(t[1..])
  }

  ghost predicate GoodText(t: string) {
    t != "" && SlashFree(t) && LineFree(t) && BraceFree(t) && (t == "*" || Runs(t))
  }

  ghost predicate GoodChunk(c: Chunk) {
    match c
    case Lit(t) => GoodText(t)
    case Slot(n) => ValidName(n)
  }

  ghost predicate GoodChunks(chunks: seq<Chunk>) {
    forall i :: 0 <= i < |chunks| ==> GoodChunk(chunks[i])
  }

  function SlotNames(chunks: seq<Chunk>): seq<string> {
    if chunks == [] then []
    else match chunks[0]
      case Lit(_) => SlotNames(chunks[1..])
      case Slot(n) => [n] + SlotNames(chunks[1..])
  }

  function TailName(tail: Tail): seq<string> {
    if tail.Named? then [tail.name] else []
  }

  function Names(topic: Topic): seq<string> {
    SlotNames(topic.chunks) + TailName(topic.tail)
  }

  ghost predicate Distinct(names: seq<string>) {
    forall i, j :: 0 <= i < j < |names| ==> names[i] != names[j]
  }

  ghost predicate Printable(topic: Topic) {
    && GoodChunks(topic.chunks)
    && (topic.tail.Named? ==> ValidName(topic.tail.name))
    && (topic.chunks == [] ==> topic.tail != NoTail)
    && (topic.chunks != [] && topic.chunks[0] == Lit(RESERVED) ==> |topic.chunks| == 1 && topic.tail == Anonymous)
  }

  ghost predicate WellFormed(topic: Topic) {
    Printable(topic) && Distinct(Names(topic))
  }

  // ---------------------------------------------------------------- printing

  function ShownChunk(c: Chunk, hole: string -> string): string {
    match c
    case Lit(t) => t
    case Slot(n) => hole(n)
  }

  /** Each chunk's text, with `hole(n)` for the slot `n`. */
  function Shown(chunks: seq<Chunk>, hole: string -> string): (texts: Path)
    ensures |texts| == |chunks|
    ensures forall i :: 0 <= i < |chunks| ==> texts[i] == ShownChunk(chunks[i], hole)
  {
    if chunks == [] then [] else [ShownChunk(chunks[0], hole)] + Shown(chunks[1..], hole)
  }

  function Body(chunks: seq<Chunk>): string {
    Join(Shown(chunks, Slotted))
  }

  function TailText(tail: Tail): Path {
    match tail
    case NoTail => []
    case Anonymous => ["**"]
    case Named(n) => [TailSlot(n)]
  }

  function TailSlot(n: string): string {
    "{" + n + "**}"
  }

  /** The template string. */
  function Raw(topic: Topic): string {
    Join(Shown(topic.chunks, Slotted) + TailText(topic.tail))
  }

  // ---------------------------------------------------------------- what a template should be

  function WildcardChunks(topic: Topic): Path {
    Shown(topic.chunks, Star) + (if topic.tail == NoTail then [] else ["**"])
  }

  predicate Starred(chunks: seq<Chunk>) {
    chunks != [] && ((chunks[0].Lit? && '*' in chunks[0].text) || Starred(chunks[1..]))
  }

  predicate Publishable(topic: Topic) {
    topic.tail != Anonymous && !Starred(topic.chunks)
  }

  function ChunkPattern(c: Chunk): Pattern {
    match c
    case Lit(t) => LiteralAtoms(t)
    case Slot(n) => [Group(n)]
  }

  function ChunksPattern(chunks: seq<Chunk>, tail: Tail): Pattern {
    if chunks == [] then TailPattern(tail)
    else if |chunks| == 1 && tail == NoTail then ChunkPattern(chunks[0])
    else ChunkPattern(chunks[0]) + [Ch('/')] + ChunksPattern(chunks[1..], tail)
  }

  /** The template of a topic, chunk by chunk. */
  function Compiled(topic: Topic): Template {
    Template(Raw(topic), Names(topic), Join(WildcardChunks(topic)), Publishable(topic),
             ChunksPattern(topic.chunks, topic.tail), NamedMulti(topic.tail))
  }

  // ---------------------------------------------------------------- joining

  lemma {:induction false} JoinSnoc(cs: Path, last: string)
    requires cs != []
    ensures Join(cs + [last]) == Join(cs) + "/" + last
  {
    if |cs| == 1 {
      assert (cs + [last])[1..] == [last];
    } else {
      assert Join(cs + [last]) == cs[0] + "/" + (Join(cs[1..]) + "/" + last) by {
        JoinSnoc(cs[1..], last);
        assert (cs + [last])[1..] == cs[1..] + [last];
      }
    }
  }

  lemma GoodChunkText(c: Chunk)
    requires GoodChunk(c)
    ensures ShownChunk(c, Slotted) != "" && SlashFree(ShownChunk(c, Slotted))
  {
    if c.Slot? {
      NameIsBraceFree(c.name);
    }
  }

  lemma BodyIsNonempty(chunks: seq<Chunk>)
    requires GoodChunks(chunks) && chunks != []
    ensures Body(chunks) != ""
  {
    GoodChunkText(chunks[0]);
  }

  // ---------------------------------------------------------------- no stray `**`

  lemma {:induction false} DoubleAcross(a: string, b: string)
    ensures HasDouble(a + "/" + b) <==> HasDouble(a) || HasDouble(b)
  {
    var s := a + "/" + b;
    if a == "" {
      assert s[0] == '/' && s[1..] == b;
      if |s| >= 2 {
        assert s[..2][0] == '/';
      }
    } else {
      DoubleAcross(a[1..], b);
      assert s[1..] == a[1..] + "/" + b;
      if |a| >= 2 {
        assert s[..2] == a[..2];
      } else {
        assert s[..2] != "**" by {
          assert s[1] == '/';
        }
        assert a[1..] == "";
      }
    }
  }

  lemma {:induction false} StarlessHasNoDouble(s: string)
    requires '*' !in s
    ensures !HasDouble(s)
  {
    if |s| >= 2 {
      assert s[..2] != "**" by {
        assert s[0] in s;
      }
      StarlessHasNoDouble(s[1..]);
    }
  }

  lemma {:induction false} RunsHaveNoDouble(t: string)
    requires Runs(t)
    ensures !HasDouble(t)
  {
    if |t| < 2 {
    } else if t[..2] == "$*" {
      assert t[0] == '$' && t[1] == '*';
      RunsHaveNoDouble(t[2..]);
      assert t[1..][1..] == t[2..];
      if |t| >= 3 {
        assert t[1..][..2][1] == t[2..][0] != '*';
      }
    } else {
      assert t[..2][0] == t[0];
      RunsHaveNoDouble(t[1..]);
    }
  }

  lemma GoodChunkHasNoDouble(c: Chunk)
    requires GoodChunk(c)
    ensures !HasDouble(ShownChunk(c, Slotted))
  {
    match c
    case Lit(t) =>
      if t != "*" {
        RunsHaveNoDouble(t);
      }
    case Slot(n) =>
      NameIsBraceFree(n);
      StarlessHasNoDouble(Slotted(n));
  }

  lemma {:induction false} BodyHasNoDouble(chunks: seq<Chunk>)
    requires GoodChunks(chunks)
    ensures !HasDouble(Body(chunks))
  {
    if chunks == [] {
    } else {
      GoodChunkHasNoDouble(chunks[0]);
      if |chunks| > 1 {
        BodyHasNoDouble(chunks[1..]);
        DoubleAcross(ShownChunk(chunks[0], Slotted), Body(chunks[1..]));
      }
    }
  }

  lemma {:induction false} DoubleAt(s: string, i: nat)
    requires i + 2 <= |s| && s[i..i + 2] == "**"
    ensures HasDouble(s)
  {
    if i > 0 {
      assert s[1..][i - 1..i + 1] == s[i..i + 2];
      DoubleAt(s[1..], i - 1);
    }
  }

  // ---------------------------------------------------------------- the tail

  lemma {:induction false} NoDoubleNoTail(s: string)
    requires !HasDouble(s)
    ensures s != "**" && !EndsWith(s, "/**") && TailStart(s) == None
  {
    if EndsWith(s, "/**") {
      assert s[|s| - 2..|s|] == s[|s| - 3..][1..] == "**";
      DoubleAt(s, |s| - 2);
    }
    if IsNamedTail(s) {
      assert s[|s| - 3..|s| - 1] == s[|s| - 3..][..2] == "**";
      DoubleAt(s, |s| - 3);
    }
    if s != "" {
      assert !HasDouble(s[1..]);
      NoDoubleNoTail(s[1..]);
    }
  }

  lemma TailSlotShape(n: string)
    ensures var t := TailSlot(n); |t| == |n| + 4 && t[0] == '{' && t[1..|t| - 3] == n && EndsWith(t, "**}")
    ensures TailSlot(n)[|n| + 3] == '}'
  {
    assert TailSlot(n)[|n| + 1..] == "**}";
  }

  lemma BraceInside(pre: string, tail: string)
    requires pre != "" && |tail| >= 4 && tail[0] == '{'
    ensures !IsNamedTail(pre + tail)
  {
    var s := pre + tail;
    assert s[1..|s| - 3][|pre| - 1] == '{';
  }

  lemma {:induction false} NamedTailFound(pre: string, n: string)
    requires ValidName(n)
    ensures TailStart(pre + TailSlot(n)) == Some(|pre|)
  {
    var tail := TailSlot(n);
    var s := pre + tail;
    if pre == "" {
      assert s == tail;
      TailSlotShape(n);
    } else {
      TailSlotShape(n);
      BraceInside(pre, tail);
      assert s[1..] == pre[1..] + tail;
      NamedTailFound(pre[1..], n);
    }
  }

  lemma TailIsCut(topic: Topic)
    requires Printable(topic)
    ensures CutTail(Raw(topic)) == (Body(topic.chunks), topic.tail)
  {
    var shown, body := Shown(topic.chunks, Slotted), Body(topic.chunks);
    match topic.tail
    case NoTail =>
      assert shown + [] == shown;
      BodyHasNoDouble(topic.chunks);
      NoDoubleNoTail(body);
    case Anonymous =>
      if topic.chunks == [] {
        assert shown + ["**"] == ["**"];
      } else {
        JoinSnoc(shown, "**");
        BodyIsNonempty(topic.chunks);
        assert Raw(topic) == body + "/**";
      }
    case Named(n) =>
      if topic.chunks == [] {
        assert shown + [TailSlot(n)] == [TailSlot(n)];
        assert Raw(topic) == "" + TailSlot(n);
        NamedCut("", n);
      } else {
        JoinSnoc(shown, TailSlot(n));
        assert Raw(topic) == (body + "/") + TailSlot(n);
        NamedCut(body + "/", n);
      }
  }

  /** Without a slash at the end. */
  function Unslashed(pre: string): string {
    if pre != "" && pre[|pre| - 1] == '/' then pre[..|pre| - 1] else pre
  }

  lemma TailFacts(pre: string, n: string)
    ensures var s := pre + TailSlot(n);
      && |pre| + 4 <= |s| && s[|s| - 1] == '}' && s[|pre| + 1..|s| - 3] == n
      && (if |pre| > 0 && s[|pre| - 1] == '/' then s[..|pre| - 1] else s[..|pre|]) == Unslashed(pre)
  {
    TailSlotShape(n);
    AfterPrefix(pre, TailSlot(n));
  }

  lemma NamedCut(pre: string, n: string)
    requires ValidName(n)
    ensures CutTail(pre + TailSlot(n)) == (Unslashed(pre), Named(n))
  {
    NamedTailFound(pre, n);
    TailFacts(pre, n);
    CutAt(pre + TailSlot(n), |pre|);
  }

  lemma CutAt(s: string, i: nat)
    requires TailStart(s) == Some(i) && i + 5 <= |s| && s[|s| - 1] == '}'
    ensures CutTail(s) == (if i > 0 && s[i - 1] == '/' then s[..i - 1] else s[..i], Named(s[i + 1..|s| - 3]))
  {
    BraceIsNoStar(s);
  }

  lemma BraceIsNoStar(s: string)
    requires s != "" && s[|s| - 1] == '}'
    ensures s != "**" && !EndsWith(s, "/**")
  {
    if |s| >= 3 {
      assert s[|s| - 3..][2] == '}';
    }
  }

  lemma AfterPrefix(pre: string, tail: string)
    requires |tail| >= 4
    ensures var s := pre + tail;
      && s[..|pre|] == pre
      && s[|s| - 1] == tail[|tail| - 1]
      && s[|pre| + 1..|s| - 3] == tail[1..|tail| - 3]
      && (pre != "" ==> s[|pre| - 1] == pre[|pre| - 1] && s[..|pre| - 1] == pre[..|pre| - 1])
  {
  }
}
