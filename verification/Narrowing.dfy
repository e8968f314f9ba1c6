/** A query's selector reaches exactly the keys of its topic whose slots agree with it
    (zeared/_template/_template.py, zeared/queryable/_query_get.py). */
module Narrowing {
  import opened Grammar
  import opened KeyExpr
  import opened Matching
  import opened Regex
  import opened Rendering
  import opened Template
  import opened Wrappers
  import Compile

  type Partial = map<string, Option<string>>

  /** The key's slots hold what `partial` gives for them. */
  ghost predicate AgreesWith(names: seq<string>, partial: Partial, caps: Captures) {
    forall n :: n in names && Given(partial, n).Some? ==> n in caps && caps[n] == Given(partial, n).value
  }

  ghost predicate WildcardFree(names: seq<string>, partial: Partial) {
    forall n :: n in names && Given(partial, n).Some? ==> '*' !in Given(partial, n).value
  }

  ghost predicate KeepsToSegments(chunks: seq<Chunk>, partial: Partial) {
    forall n :: n in SlotNames(chunks) && Given(partial, n).Some? ==> SlashFree(Given(partial, n).value)
  }

  // ---------------------------------------------------------------- matching chunk by chunk

  lemma {:induction false} MatchesByChunk(p: Path, tail: Path, k: Path)
    requires |p| <= |k| && "**" !in p
    ensures Matches(p + tail, k) <==> (forall i :: 0 <= i < |p| ==> ChunkMatches(p[i], k[i])) && Matches(tail, k[|p|..])
    decreases |p|
  {
    if p == [] {
      assert p + tail == tail && k[0..] == k;
    } else {
      var q := p + tail;
      assert q[0] == p[0] && q[1..] == p[1..] + tail;
      assert p[0] in p;
      MatchesByChunk(p[1..], tail, k[1..]);
      assert k[1..][|p| - 1..] == k[|p|..];
      if forall i :: 0 <= i < |p| ==> ChunkMatches(p[i], k[i]) {
        assert forall i :: 0 <= i < |p| - 1 ==> ChunkMatches(p[1..][i], k[1..][i]) by {
          assert forall i :: 0 <= i < |p| - 1 ==> p[1..][i] == p[i + 1] && k[1..][i] == k[i + 1];
        }
      }
      if forall i :: 0 <= i < |p| - 1 ==> ChunkMatches(p[1..][i], k[1..][i]) {
        forall i | 1 <= i < |p| ensures ChunkMatches(p[i], k[i]) {
          assert p[1..][i - 1] == p[i] && k[1..][i - 1] == k[i];
        }
      }
    }
  }

  /** A chunk without `*` matches itself alone. */
  lemma PlainChunk(chunk: string, c: string)
    requires '*' !in chunk
    ensures ChunkMatches(chunk, c) <==> chunk == c
  {
    StarlessHasNoRun(chunk);
    LiteralChunk(chunk, c);
    assert '*' in "*";
  }

  lemma {:induction false} PlainPath(q: Path, k: Path)
    requires forall i :: 0 <= i < |q| ==> '*' !in q[i]
    ensures Matches(q, k) <==> q == k
    decreases |q|
  {
    if q != [] {
      assert q[0] != "**" by {
        assert '*' in "**";
      }
      if k != [] {
        PlainChunk(q[0], k[0]);
        PlainPath(q[1..], k[1..]);
        assert q == [q[0]] + q[1..] && k == [k[0]] + k[1..];
      }
    }
  }

  lemma {:induction false} SplitIsPlain(v: string)
    requires '*' !in v
    ensures forall i :: 0 <= i < |Split(v)| ==> '*' !in Split(v)[i]
  {
    if v != "" {
      assert forall c :: c in v[1..] ==> c in v;
      SplitIsPlain(v[1..]);
      assert v[0] in v;
    }
  }

  // ---------------------------------------------------------------- the selector

  function Chosen(topic: Topic, partial: Partial): map<string, string> {
    SelectorValues(Compiled(topic), partial, Names(topic))
  }

  lemma SelectorByChunk(topic: Topic, partial: Partial)
    requires WellFormed(topic)
    ensures Selector(Compiled(topic), partial)
         == Ok(if Publishable(topic) then KeyOf(topic, Chosen(topic, partial)) else Join(WildcardChunks(topic)))
  {
    if Publishable(topic) {
      FormatByChunk(topic, Chosen(topic, partial));
    }
  }

  lemma SlotIsNotTail(topic: Topic, n: string)
    requires WellFormed(topic) && n in SlotNames(topic.chunks)
    ensures n in Names(topic) && Some(n) != NamedMulti(topic.tail)
  {
    if topic.tail.Named? {
      Compile.TailNameIsNew(topic);
    }
  }

  lemma SelectorChunks(topic: Topic, partial: Partial)
    requires WellFormed(topic) && Publishable(topic) && KeepsToSegments(topic.chunks, partial)
    ensures Split(KeyOf(topic, Chosen(topic, partial)))
         == Shown(topic.chunks, Valued(Chosen(topic, partial))) + TailChunks(topic, Chosen(topic, partial))
  {
    var chosen := Chosen(topic, partial);
    forall n | n in SlotNames(topic.chunks) ensures n in chosen && SlashFree(chosen[n]) {
      SlotIsNotTail(topic, n);
    }
    KeyChunksOf(topic, chosen);
  }

  ghost predicate SlotAgrees(c: Chunk, partial: Partial, caps: Captures) {
    c.Slot? && Given(partial, c.name).Some? ==> c.name in caps && caps[c.name] == Given(partial, c.name).value
  }

  lemma SelectorChunk(topic: Topic, partial: Partial, i: nat, k: string, caps: Captures)
    requires WellFormed(topic) && Publishable(topic) && WildcardFree(Names(topic), partial)
    requires i < |topic.chunks| && Agrees(topic.chunks[i], k, caps)
    ensures var q := Shown(topic.chunks, Valued(Chosen(topic, partial)))[i];
      q != "**" && (ChunkMatches(q, k) <==> SlotAgrees(topic.chunks[i], partial, caps))
  {
    assert '*' in "**";
    match topic.chunks[i]
    case Lit(t) =>
      LiteralTakes(topic.chunks, i, k);
      StarlessLiteral(topic.chunks, i);
      PlainChunk(t, k);
    case Slot(n) =>
      SlotIsNamed(topic.chunks, i);
      SlotIsNotTail(topic, n);
      if Given(partial, n).Some? {
        PlainChunk(Given(partial, n).value, k);
      }
  }

  lemma SelectorTail(topic: Topic, partial: Partial, rest: Path, caps: Captures)
    requires WellFormed(topic) && Publishable(topic) && WildcardFree(Names(topic), partial)
    requires TailAgrees(topic.tail, rest, caps) && SlashFreeChunks(rest)
    ensures Matches(TailChunks(topic, Chosen(topic, partial)), rest) <==> (
      topic.tail.Named? ==> AgreesWith([topic.tail.name], partial, caps))
  {
    if topic.tail.Named? {
      var n := topic.tail.name;
      TailNamed(topic);
      assert rest != [] by {
        assert Join([]) == "";
      }
      if Given(partial, n).Some? {
        var v := Given(partial, n).value;
        SplitIsPlain(v);
        PlainPath(Split(v), rest);
        JoinSplit(v);
        SplitJoin(rest);
        assert n in [n];
      } else {
        SplitWhole("**");
        AllMatch(rest);
      }
    }
  }

  /** For a key of the topic, the selector reaches it exactly when its slots agree with the
      partial mapping; the given values hold no wildcard, and a single-segment one no `/`. */
  lemma SelectorNarrows(topic: Topic, partial: Partial, key: string, caps: Captures)
    requires WellFormed(topic) && Publishable(topic) && LineFree(key)
    requires WildcardFree(Names(topic), partial) && KeepsToSegments(topic.chunks, partial)
    requires MatchesWith(Compiled(topic), key, caps)
    ensures Selector(Compiled(topic), partial).Ok?
    ensures Intersects(Selector(Compiled(topic), partial).value, key) <==> AgreesWith(Names(topic), partial, caps)
  {
    var k, chosen := Split(key), Chosen(topic, partial);
    var p := Shown(topic.chunks, Valued(chosen));
    SelectorByChunk(topic, partial);
    SelectorChunks(topic, partial);
    CapturesAreRead(topic, key, caps);
    forall i | 0 <= i < |p|
      ensures p[i] != "**" && (ChunkMatches(p[i], k[i]) <==> SlotAgrees(topic.chunks[i], partial, caps))
    {
      SelectorChunk(topic, partial, i, k[i], caps);
    }
    MatchesByChunk(p, TailChunks(topic, chosen), k);
    SelectorTail(topic, partial, k[|p|..], caps);
    AgreementByChunk(topic, partial, caps);
  }

  lemma AgreementByChunk(topic: Topic, partial: Partial, caps: Captures)
    ensures AgreesWith(Names(topic), partial, caps) <==> (
      && (forall i :: 0 <= i < |topic.chunks| ==> SlotAgrees(topic.chunks[i], partial, caps))
      && (topic.tail.Named? ==> AgreesWith([topic.tail.name], partial, caps)))
  {
    if AgreesWith(Names(topic), partial, caps) {
      forall i | 0 <= i < |topic.chunks| ensures SlotAgrees(topic.chunks[i], partial, caps) {
        if topic.chunks[i].Slot? {
          SlotIsNamed(topic.chunks, i);
          assert topic.chunks[i].name in Names(topic);
        }
      }
      if topic.tail.Named? {
        TailNamed(topic);
      }
    }
    if (forall i :: 0 <= i < |topic.chunks| ==> SlotAgrees(topic.chunks[i], partial, caps))
       && (topic.tail.Named? ==> AgreesWith([topic.tail.name], partial, caps)) {
      forall n | n in Names(topic) && Given(partial, n).Some? ensures n in caps && caps[n] == Given(partial, n).value {
        if n in SlotNames(topic.chunks) {
          var i := NameHasSlot(topic.chunks, n);
          assert SlotAgrees(topic.chunks[i], partial, caps);
        } else {
          assert topic.tail.Named? && n in [topic.tail.name];
        }
      }
    }
  }
}
