/** Parsing a printed topic gives back its template, chunk by chunk
    (zeared/_template/_template.py). */
module Compile {
  import opened Format
  import opened Grammar
  import opened KeyExpr
  import opened Regex
  import opened Sequences
  import opened Template
  import opened Wrappers

  // ---------------------------------------------------------------- the parts of a body

  function PartsOf(chunks: seq<Chunk>): (parts: seq<Part>)
    ensures chunks != [] ==> parts != []
  {
    if chunks == [] then []
    else
      var rest := if |chunks| == 1 then [] else Prefixed("/", PartsOf(chunks[1..]));
      match chunks[0]
      case Lit(t) => Prefixed(t, rest)
      case Slot(n) => [Part("", Some(n))] + rest
  }

  lemma {:induction false} BodyScans(chunks: seq<Chunk>)
    requires GoodChunks(chunks)
    ensures Scan(Body(chunks)) == Some(PartsOf(chunks))
  {
    if chunks == [] {
    } else {
      var rest := if |chunks| == 1 then "" else "/" + Body(chunks[1..]);
      assert Body(chunks) == ShownChunk(chunks[0], Slotted) + rest by {
        var texts := Shown(chunks, Slotted);
        if |chunks| == 1 {
          assert texts[0] + "" == texts[0];
        } else {
          assert texts[0] + "/" + Join(texts[1..]) == texts[0] + ("/" + Join(texts[1..]));
        }
      }
      if |chunks| > 1 {
        BodyScans(chunks[1..]);
        ScanText("/", Body(chunks[1..]));
      }
      match chunks[0]
      case Lit(t) => ScanText(t, rest);
      case Slot(n) => ScanSlot(n, rest);
    }
  }

  // ---------------------------------------------------------------- weaving parts

  /** Each literal followed by its own field. */
  function WovenParts<T>(parts: seq<Part>, lit: string -> seq<T>, hole: string -> seq<T>): seq<T> {
    if parts == [] then []
    else
      var rest := WovenParts(parts[1..], lit, hole);
      lit(parts[0].literal) + ((if parts[0].field.Some? then hole(parts[0].field.value) else []) + rest)
  }

  /** Only the last part may have no field: there is no doubled brace. */
  ghost predicate Aligned(parts: seq<Part>) {
    forall i :: 0 <= i < |parts| - 1 ==> parts[i].field.Some?
  }

  function FieldTexts(parts: seq<Part>): seq<string> {
    if parts == [] then []
    else (if parts[0].field.Some? then [parts[0].field.value] else []) + FieldTexts(parts[1..])
  }

  lemma {:induction false} WeaveShift<T>(l: string, f: string, lits: seq<string>, fields: seq<string>,
                                         lit: string -> seq<T>, hole: string -> seq<T>, n: nat)
    requires n <= |lits|
    ensures Woven([l] + lits, [f] + fields, lit, hole, n + 1) == lit(l) + (hole(f) + Woven(lits, fields, lit, hole, n))
  {
    if n > 0 {
      WeaveShift(l, f, lits, fields, lit, hole, n - 1);
      var before := Woven(lits, fields, lit, hole, n - 1);
      var more := if n - 1 < |fields| then hole(fields[n - 1]) else [];
      Regroup(lit(l), hole(f) + before, lit(lits[n - 1]));
      Regroup(hole(f), before, lit(lits[n - 1]));
      Regroup(lit(l), hole(f) + (before + lit(lits[n - 1])), more);
      Regroup(hole(f), before + lit(lits[n - 1]), more);
      assert ([l] + lits)[n] == lits[n - 1];
      assert n - 1 < |fields| ==> ([f] + fields)[n] == fields[n - 1];
    }
  }

  /** Pairing literals with fields by index is right when the parts are aligned. */
  lemma {:induction false} AlignedWeave<T>(parts: seq<Part>, lit: string -> seq<T>, hole: string -> seq<T>)
    requires Aligned(parts)
    ensures |Literals(parts)| == |parts|
    ensures Woven(Literals(parts), FieldTexts(parts), lit, hole, |parts|) == WovenParts(parts, lit, hole)
  {
    if parts == [] {
    } else {
      AlignedWeave(parts[1..], lit, hole);
      if parts[0].field.None? {
        assert parts[1..] == [];
        assert Literals(parts) == [parts[0].literal] && FieldTexts(parts) == [];
      } else {
        WeaveShift(parts[0].literal, parts[0].field.value, Literals(parts[1..]), FieldTexts(parts[1..]),
                   lit, hole, |parts| - 1);
      }
    }
  }

  // ---------------------------------------------------------------- weaving chunks

  function Slashed(a: string, b: string): string {
    a + "/" + b
  }

  /** `lit` treats the text on the two sides of a slash separately. */
  ghost predicate SplitsAtSlash<T(!new)>(lit: string -> seq<T>) {
    && lit("") == []
    && forall a, b :: lit(Slashed(a, b)) == lit(a) + (lit("/") + lit(b))
  }

  function Piece<T>(c: Chunk, lit: string -> seq<T>, hole: string -> seq<T>): seq<T> {
    match c
    case Lit(t) => lit(t)
    case Slot(n) => hole(n)
  }

  function Pieces<T>(chunks: seq<Chunk>, lit: string -> seq<T>, hole: string -> seq<T>): seq<T> {
    if chunks == [] then []
    else if |chunks| == 1 then Piece(chunks[0], lit, hole)
    else Piece(chunks[0], lit, hole) + (lit("/") + Pieces(chunks[1..], lit, hole))
  }

  lemma SlashPrefix<T(!new)>(t: string, parts: seq<Part>, lit: string -> seq<T>, hole: string -> seq<T>)
    requires SplitsAtSlash(lit) && parts != []
    ensures WovenParts(Prefixed(t, Prefixed("/", parts)), lit, hole) ==
      lit(t) + (lit("/") + WovenParts(parts, lit, hole))
    ensures lit("") == []
  {
    PrefixedTwice(t, "/", parts);
    var l := parts[0].literal;
    var rest := (if parts[0].field.Some? then hole(parts[0].field.value) else []) + WovenParts(parts[1..], lit, hole);
    assert lit(Slashed(t, l)) == lit(t) + (lit("/") + lit(l));
    assert Prefixed(t + "/", parts)[1..] == parts[1..];
    assert lit(t) + (lit("/") + lit(l)) + rest == lit(t) + (lit("/") + (lit(l) + rest));
  }

  lemma PrefixedNothing(parts: seq<Part>)
    requires parts != []
    ensures Prefixed("", parts) == parts
  {
    assert "" + parts[0].literal == parts[0].literal;
  }

  lemma {:induction false} PartsWeave<T(!new)>(chunks: seq<Chunk>, lit: string -> seq<T>, hole: string -> seq<T>)
    requires SplitsAtSlash(lit)
    ensures WovenParts(PartsOf(chunks), lit, hole) == Pieces(chunks, lit, hole)
  {
    if chunks == [] {
    } else if |chunks| == 1 {
      match chunks[0]
      case Lit(t) => assert PartsOf(chunks) == [Part(t, None)];
      case Slot(n) => assert PartsOf(chunks) == [Part("", Some(n))];
    } else {
      PartsWeave(chunks[1..], lit, hole);
      var rest := PartsOf(chunks[1..]);
      match chunks[0]
      case Lit(t) => SlashPrefix(t, rest, lit, hole);
      case Slot(n) =>
        SlashPrefix("", rest, lit, hole);
        PrefixedNothing(Prefixed("/", rest));
        assert PartsOf(chunks)[1..] == Prefixed("/", rest);
    }
  }

  lemma {:induction false} PartsAligned(chunks: seq<Chunk>)
    ensures Aligned(PartsOf(chunks)) && FieldTexts(PartsOf(chunks)) == SlotNames(chunks)
  {
    if chunks == [] {
    } else {
      PartsAligned(chunks[1..]);
      var tail := PartsOf(chunks[1..]);
      var rest := if |chunks| == 1 then [] else Prefixed("/", tail);
      if |chunks| > 1 {
        assert rest[1..] == tail[1..];
      }
      assert FieldTexts(rest) == FieldTexts(tail);
      match chunks[0]
      case Lit(t) =>
        assert |chunks| > 1 ==> Prefixed(t, rest)[1..] == rest[1..];
      case Slot(n) =>
        assert PartsOf(chunks)[1..] == rest;
    }
  }

  // ---------------------------------------------------------------- the three instances

  lemma VerbatimSplits()
    ensures SplitsAtSlash(Verbatim)
  {
    forall a, b ensures Verbatim(Slashed(a, b)) == Verbatim(a) + (Verbatim("/") + Verbatim(b)) {
      assert a + "/" + b == a + ("/" + b);
    }
  }

  lemma SlashSlices(a: string, b: string)
    ensures var s := a + "/" + b;
      && s[|a|] == '/' && s[|a| + 1..] == b
      && (|a| >= 1 ==> s[0] == a[0] && s[1..] == a[1..] + "/" + b)
      && (|a| >= 2 ==> s[..2] == a[..2] && s[2..] == a[2..] + "/" + b)
  {
  }

  lemma {:induction false} AtomsSplit(a: string, b: string)
    ensures LiteralAtoms(a + "/" + b) == LiteralAtoms(a) + ([Ch('/')] + LiteralAtoms(b))
  {
    var s := a + "/" + b;
    SlashSlices(a, b);
    if a == "" {
      assert |s| >= 2 ==> s[..2][0] == '/';
    } else if |a| >= 2 && a[..2] == "$*" {
      AtomsSplit(a[2..], b);
    } else {
      AtomsSplit(a[1..], b);
      assert |a| == 1 ==> s[..2][1] == '/';
      assert s[..2] != "$*";
      var head := if a[0] == '*' then Run1 else Ch(a[0]);
      assert LiteralAtoms(s) == [head] + LiteralAtoms(s[1..]);
      assert LiteralAtoms(a) == [head] + LiteralAtoms(a[1..]);
      Regroup([head], LiteralAtoms(a[1..]), [Ch('/')] + LiteralAtoms(b));
    }
  }

  lemma LiteralAtomsSplit()
    ensures SplitsAtSlash(LiteralAtoms) && LiteralAtoms("/") == [Ch('/')]
  {
    assert LiteralAtoms("/") == [Ch('/')] by {
      assert "/"[1..] == "";
    }
    forall a, b ensures LiteralAtoms(Slashed(a, b)) == LiteralAtoms(a) + (LiteralAtoms("/") + LiteralAtoms(b)) {
      AtomsSplit(a, b);
    }
  }

  lemma {:induction false} PiecesJoin(chunks: seq<Chunk>, hole: string -> string)
    ensures Pieces(chunks, Verbatim, hole) == Join(Shown(chunks, hole))
  {
    if |chunks| > 1 {
      PiecesJoin(chunks[1..], hole);
      var texts := Shown(chunks, hole);
      assert texts[1..] == Shown(chunks[1..], hole);
      assert texts[0] + ("/" + Join(texts[1..])) == texts[0] + "/" + Join(texts[1..]);
    }
  }

  lemma {:induction false} PiecesPattern(chunks: seq<Chunk>, tail: Tail)
    requires chunks != []
    ensures ChunksPattern(chunks, tail)
         == Pieces(chunks, LiteralAtoms, GroupOf) + (if tail == NoTail then [] else [Ch('/')] + TailPattern(tail))
  {
    LiteralAtomsSplit();
    var first := ChunkPattern(chunks[0]);
    assert first == Piece(chunks[0], LiteralAtoms, GroupOf);
    var slash := [Ch('/')];
    if |chunks| == 1 {
      Regroup(first, slash, TailPattern(tail));
    } else {
      PiecesPattern(chunks[1..], tail);
      var rest := Pieces(chunks[1..], LiteralAtoms, GroupOf);
      var end := if tail == NoTail then [] else slash + TailPattern(tail);
      Regroup(first + slash, rest, end);
      Regroup(first, slash, rest);
    }
  }

  // ---------------------------------------------------------------- the parsed template

  lemma {:induction false} FieldsRead(parts: seq<Part>, seen: seq<string>)
    requires forall i :: 0 <= i < |FieldTexts(parts)| ==> ValidName(FieldTexts(parts)[i])
    requires Distinct(seen + FieldTexts(parts))
    ensures Fields(parts, seen) == Ok(seen + FieldTexts(parts))
  {
    if parts == [] {
      assert seen + [] == seen;
    } else {
      var rest := FieldTexts(parts[1..]);
      if parts[0].field.None? {
        assert FieldTexts(parts) == rest;
        FieldsRead(parts[1..], seen);
      } else {
        var n := parts[0].field.value;
        var all := seen + FieldTexts(parts);
        assert FieldTexts(parts) == [n] + rest;
        assert all == (seen + [n]) + rest;
        assert all[|seen|] == n && forall i :: 0 <= i < |seen| ==> all[i] == seen[i];
        assert FieldTexts(parts)[0] == n;
        forall i | 0 <= i < |rest| ensures ValidName(rest[i]) {
          assert rest[i] == FieldTexts(parts)[i + 1];
        }
        FieldsRead(parts[1..], seen + [n]);
      }
    }
  }

  lemma {:induction false} SlotNamesAreValid(chunks: seq<Chunk>)
    requires GoodChunks(chunks)
    ensures forall i :: 0 <= i < |SlotNames(chunks)| ==> ValidName(SlotNames(chunks)[i])
  {
    if chunks != [] {
      SlotNamesAreValid(chunks[1..]);
      assert GoodChunk(chunks[0]);
    }
  }

  lemma {:induction false} PartsStar(chunks: seq<Chunk>)
    ensures AnyStar(Literals(PartsOf(chunks))) <==> Starred(chunks)
  {
    if chunks == [] {
    } else {
      PartsStar(chunks[1..]);
      var tail := PartsOf(chunks[1..]);
      var rest := if |chunks| == 1 then [] else Prefixed("/", tail);
      StarPrefix("/", tail);
      match chunks[0]
      case Lit(t) => StarPrefix(t, rest);
      case Slot(n) =>
        assert PartsOf(chunks)[1..] == rest;
        assert Literals(PartsOf(chunks)) == [""] + Literals(rest);
        assert Literals(PartsOf(chunks))[1..] == Literals(rest);
    }
  }

  lemma StarPrefix(t: string, parts: seq<Part>)
    ensures AnyStar(Literals(Prefixed(t, parts))) <==> '*' in t || AnyStar(Literals(parts))
  {
    var out := Prefixed(t, parts);
    if parts == [] {
      assert Literals(out) == [t] && Literals(out)[1..] == [];
    } else {
      assert out[1..] == parts[1..];
      assert Literals(out)[1..] == Literals(parts)[1..] == Literals(parts[1..]);
    }
  }

  lemma RawIsAccepted(topic: Topic)
    requires Printable(topic)
    ensures Raw(topic) != "" && !Reserved(Raw(topic))
  {
    var texts := Shown(topic.chunks, Slotted) + TailText(topic.tail);
    if topic.chunks == [] {
      assert texts == TailText(topic.tail);
    } else {
      GoodChunkText(topic.chunks[0]);
    }
    assert texts != [] && texts[0] != "";
    if Raw(topic) == RESERVED + "/**" {
    } else {
      forall i | 0 <= i < |texts| ensures SlashFree(texts[i]) {
        if i < |topic.chunks| {
          GoodChunkText(topic.chunks[i]);
        } else if topic.tail.Named? {
          NameIsBraceFree(topic.tail.name);
        }
      }
      SplitJoin(texts);
      assert texts[0] != RESERVED by {
        if topic.chunks == [] {
          TailIsNotReserved(topic.tail);
        } else if texts[0] == RESERVED {
          ReservedFirst(topic, texts);
        }
      }
    }
  }

  lemma SlotIsNotReserved(n: string)
    ensures Slotted(n) != RESERVED
  {
    assert Slotted(n)[0] == '{';
    assert RESERVED[0] == '_';
  }

  lemma TailIsNotReserved(tail: Tail)
    requires tail != NoTail
    ensures TailText(tail)[0] != RESERVED
  {
    assert RESERVED[0] == '_';
    assert TailText(tail)[0][0] != '_';
  }

  lemma ReservedFirst(topic: Topic, texts: Path)
    requires Printable(topic) && texts == Shown(topic.chunks, Slotted) + TailText(topic.tail)
    requires topic.chunks != [] && texts[0] == RESERVED
    ensures Raw(topic) == RESERVED + "/**"
  {
    assert texts[0] == ShownChunk(topic.chunks[0], Slotted);
    if topic.chunks[0].Slot? {
      SlotIsNotReserved(topic.chunks[0].name);
    } else {
      OnlyReserved(topic);
    }
  }

  lemma OnlyReserved(topic: Topic)
    requires topic.chunks == [Lit(RESERVED)] && topic.tail == Anonymous
    ensures Raw(topic) == RESERVED + "/**"
  {
    var texts := Shown(topic.chunks, Slotted);
    assert texts == [RESERVED];
    JoinSnoc(texts, "**");
    assert Join(texts) == RESERVED;
    assert RESERVED + "/" + "**" == RESERVED + "/**";
  }

  lemma FieldsOfTopic(topic: Topic)
    requires WellFormed(topic)
    ensures Fields(PartsOf(topic.chunks), []) == Ok(SlotNames(topic.chunks))
  {
    var names := SlotNames(topic.chunks);
    PartsAligned(topic.chunks);
    SlotNamesAreValid(topic.chunks);
    assert Distinct(names) by {
      assert forall i :: 0 <= i < |names| ==> Names(topic)[i] == names[i];
    }
    assert [] + names == names;
    FieldsRead(PartsOf(topic.chunks), []);
  }

  /** Parser and printer agree: a well-formed topic's template string parses to its own template. */
  lemma ParseReadsBack(topic: Topic)
    requires WellFormed(topic)
    ensures Parsed(Raw(topic)) == Ok(Compiled(topic))
  {
    RawIsAccepted(topic);
    TailIsCut(topic);
    BodyHasNoDouble(topic.chunks);
    BodyScans(topic.chunks);
    FieldsOfTopic(topic);
    if topic.tail.Named? {
      TailNameIsNew(topic);
    }
    AssembledIsCompiled(topic);
  }

  lemma TailNameIsNew(topic: Topic)
    requires WellFormed(topic) && topic.tail.Named?
    ensures topic.tail.name !in SlotNames(topic.chunks)
  {
    var names := Names(topic);
    assert names[|names| - 1] == topic.tail.name;
    assert forall i :: 0 <= i < |names| - 1 ==> names[i] == SlotNames(topic.chunks)[i];
  }

  lemma BodyWildcard(chunks: seq<Chunk>)
    ensures |Literals(PartsOf(chunks))| == |PartsOf(chunks)|
    ensures Woven(Literals(PartsOf(chunks)), SlotNames(chunks), Verbatim, Star, |PartsOf(chunks)|) ==
      Join(Shown(chunks, Star))
  {
    PartsAligned(chunks);
    AlignedWeave(PartsOf(chunks), Verbatim, Star);
    VerbatimSplits();
    PartsWeave(chunks, Verbatim, Star);
    PiecesJoin(chunks, Star);
  }

  lemma WildcardByChunk(topic: Topic)
    requires WellFormed(topic) && topic.chunks != []
    ensures WildcardText(Literals(PartsOf(topic.chunks)), SlotNames(topic.chunks), topic.tail != NoTail)
         == Join(WildcardChunks(topic))
  {
    var shown := Shown(topic.chunks, Star);
    BodyWildcard(topic.chunks);
    assert GoodChunk(topic.chunks[0]);
    if topic.tail == NoTail {
      assert shown + [] == shown;
    } else {
      StarredTail(shown);
    }
  }

  lemma StarredTail(shown: Path)
    requires shown != [] && shown[0] != ""
    ensures Join(shown) != "" && Join(shown + ["**"]) == Join(shown) + "/**"
  {
    JoinSnoc(shown, "**");
    assert Join(shown) + "/" + "**" == Join(shown) + "/**";
  }

  lemma BodyPattern(chunks: seq<Chunk>)
    ensures |Literals(PartsOf(chunks))| == |PartsOf(chunks)|
    ensures Woven(Literals(PartsOf(chunks)), SlotNames(chunks), LiteralAtoms, GroupOf, |PartsOf(chunks)|) ==
            Pieces(chunks, LiteralAtoms, GroupOf)
  {
    PartsAligned(chunks);
    AlignedWeave(PartsOf(chunks), LiteralAtoms, GroupOf);
    LiteralAtomsSplit();
    PartsWeave(chunks, LiteralAtoms, GroupOf);
  }

  lemma BodyPatternIsNonempty(chunks: seq<Chunk>)
    requires GoodChunks(chunks) && chunks != []
    ensures Pieces(chunks, LiteralAtoms, GroupOf) != []
  {
    assert GoodChunk(chunks[0]);
    assert Piece(chunks[0], LiteralAtoms, GroupOf) != [];
  }

  lemma PatternByChunk(topic: Topic)
    requires WellFormed(topic) && topic.chunks != []
    ensures PatternText(Literals(PartsOf(topic.chunks)), SlotNames(topic.chunks), topic.tail)
         == ChunksPattern(topic.chunks, topic.tail)
  {
    BodyPattern(topic.chunks);
    BodyPatternIsNonempty(topic.chunks);
    PiecesPattern(topic.chunks, topic.tail);
    var body := Pieces(topic.chunks, LiteralAtoms, GroupOf);
    assert body + [Ch('/')] + TailPattern(topic.tail) == body + ([Ch('/')] + TailPattern(topic.tail));
    assert body + [] == body;
  }

  lemma AssembledIsCompiled(topic: Topic)
    requires WellFormed(topic)
    ensures Assembled(Raw(topic), if Body(topic.chunks) == "" then [""] else Literals(PartsOf(topic.chunks)),
                      SlotNames(topic.chunks), topic.tail)
         == Compiled(topic)
  {
    var chunks, tail := topic.chunks, topic.tail;
    if chunks == [] {
      EmptyBody(topic);
    } else {
      BodyIsNonempty(chunks);
      WildcardByChunk(topic);
      PatternByChunk(topic);
      PartsStar(chunks);
      assert tail.Anonymous? || tail.NoTail? ==> SlotNames(chunks) + TailName(tail) == SlotNames(chunks);
    }
  }

  lemma EmptyBody(topic: Topic)
    requires WellFormed(topic) && topic.chunks == []
    ensures Assembled(Raw(topic), [""], [], topic.tail) == Compiled(topic)
  {
    assert [] + TailName(topic.tail) == TailName(topic.tail);
    assert [""][1..] == [];
    assert Woven([""], [], Verbatim, Star, 1) == "";
    assert Woven([""], [], LiteralAtoms, GroupOf, 1) == [];
    assert WildcardChunks(topic) == ["**"];
  }
}
