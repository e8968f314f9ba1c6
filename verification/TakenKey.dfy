/** A class whose earlier topic takes the key of what is sent on a later one
    (zeared/_template/_templates.py). */
module TakenKey {
  import opened Format
  import opened Grammar
  import opened Identity
  import opened KeyExpr
  import opened Matching
  import opened Message
  import opened Regex
  import opened Rendering
  import opened Template
  import opened Templates
  import opened Wrappers

  // ---------------------------------------------------------------- what a sent payload holds

  function Stripped(cls: MessageClass, msg: Instance, names: seq<string>): Payload
    requires WiresDistinct(cls) && msg.Keys == cls.fields.Keys
  {
    Dumped(cls, msg) - SlotWireKeys(cls, names)
  }

  lemma StrippedHolds(cls: MessageClass, msg: Instance, names: seq<string>, a: string)
    requires WiresDistinct(cls) && msg.Keys == cls.fields.Keys && a in cls.fields
    requires forall n :: n in names ==> n in cls.fields
    ensures WireOf(cls, a) in Stripped(cls, msg, names) <==> a !in names
    ensures a !in names ==> Stripped(cls, msg, names)[WireOf(cls, a)] == cls.fields[a].dumped(msg[a])
  {
    var w, dumped := WireOf(cls, a), Dumped(cls, msg);
    assert w in dumped && dumped[w] == cls.fields[a].dumped(msg[a]);
    if a !in names {
      forall n | n in names ensures WireOf(cls, n) != w {
        assert n in cls.fields;
      }
    }
  }

  lemma StrippedOnly(cls: MessageClass, msg: Instance, names: seq<string>, w: string) returns (a: string)
    requires WiresDistinct(cls) && msg.Keys == cls.fields.Keys && w in Stripped(cls, msg, names)
    ensures a in cls.fields && WireOf(cls, a) == w
  {
    assert w in Dumped(cls, msg);
    a :| a in cls.fields && WireOf(cls, a) == w;
  }

  lemma StrippedToOne(cls: MessageClass, msg: Instance, names: seq<string>, a: string)
    requires WiresDistinct(cls) && msg.Keys == cls.fields.Keys && a in cls.fields && a !in names
    requires forall n :: n in names ==> n in cls.fields
    requires forall b :: b in cls.fields && b != a ==> b in names
    ensures Stripped(cls, msg, names) == map[WireOf(cls, a) := cls.fields[a].dumped(msg[a])]
  {
    StrippedHolds(cls, msg, names, a);
    forall w | w in Stripped(cls, msg, names) ensures w == WireOf(cls, a) {
      var b := StrippedOnly(cls, msg, names, w);
      StrippedHolds(cls, msg, names, b);
    }
  }

  lemma InjectionHolds(cls: MessageClass, coerced: map<string, Value>, n: string)
    requires WiresDistinct(cls) && n in cls.fields
    ensures WireOf(cls, n) in Injection(cls, coerced) <==> n in coerced
    ensures n in coerced ==> Injection(cls, coerced)[WireOf(cls, n)] == coerced[n]
  {
    if n in coerced {
      assert WireOf(cls, n) in Injection(cls, coerced);
    }
  }

  lemma DecodedIs(cls: MessageClass, payload: Payload, key: string, i: nat, captures: Captures, msg: Instance)
    requires WiresDistinct(cls) && msg.Keys == cls.fields.Keys
    requires FirstMatch(cls.topics, key) == Some((i, captures)) && AllCoerce(cls, captures)
    requires forall a :: a in cls.fields ==>
      LoadedField(cls.fields[a], payload + Injection(cls, CoercedCaptures(cls, captures))) == Some(msg[a])
    ensures Decoded(cls, payload, key) == Ok((msg, captures))
  {
    LoadedIs(cls, payload + Injection(cls, CoercedCaptures(cls, captures)), msg);
  }

  // ---------------------------------------------------------------- the class

  const TEXT_X: Field := Field("x", Some("str"), v => Some(v), t => Some(Str(t)), v => v, v => Some(v), Some(Nothing))

  const TEXT_Y: Field := TEXT_X.(wire := "y")

  function OneSlot(n: string): Topic {
    Topic([Lit("a"), Slot(n)], NoTail)
  }

  const PAIR: MessageClass := MessageClass(map["x" := TEXT_X, "y" := TEXT_Y], [OneSlot("x"), OneSlot("y")])

  const SENT: Instance := map["x" := Str("1"), "y" := Str("2")]

  const READ: Instance := map["x" := Str("2"), "y" := Nothing]

  lemma OneSlotTopic(n: string)
    requires ValidName(n)
    ensures WellFormed(OneSlot(n)) && Publishable(OneSlot(n))
    ensures Names(OneSlot(n)) == [n] && SlotNames(OneSlot(n).chunks) == [n]
  {
    var chunks := OneSlot(n).chunks;
    assert chunks[1..] == [Slot(n)] && [Slot(n)][1..] == [];
    SlotNamesStep(chunks);
    SlotNamesStep([Slot(n)]);
    assert SlotNames(chunks) + [] == [n];
    assert !Starred([Slot(n)]) && '*' !in "a";
    assert Runs("a") by {
      assert "a"[1..] == "";
    }
    assert "a" != RESERVED by {
      assert |RESERVED| == 8;
    }
  }

  lemma OneSlotKey(n: string, values: Captures)
    requires n in values && SlashFree(values[n])
    ensures KeyOf(OneSlot(n), values) == "a/" + values[n]
    ensures Split("a/" + values[n]) == ["a", values[n]]
  {
    var v := values[n];
    assert Full(OneSlot(n)) == OneSlot(n).chunks;
    var shown := Shown(Full(OneSlot(n)), Valued(values));
    assert shown == ["a", v];
    assert shown[1..] == [v];
    assert "a" + "/" + v == "a/" + v;
    SplitJoin(["a", v]);
  }

  lemma OneSlotRaw(n: string)
    ensures Raw(OneSlot(n)) == "a/" + Slotted(n)
  {
    var shown := Shown(OneSlot(n).chunks, Slotted);
    assert shown == ["a", Slotted(n)] && shown[1..] == [Slotted(n)];
    assert shown + [] == shown;
    assert Join([Slotted(n)]) == Slotted(n);
    assert Join(shown) == "a" + "/" + Slotted(n);
    assert "a" + "/" == "a/";
  }

  lemma OneSlotMatch(n: string, v: string)
    requires ValidName(n) && v != "" && SlashFree(v)
    ensures CapturesOf(OneSlot(n), "a/" + v) == Some(map[n := v])
  {
    var chunks := OneSlot(n).chunks;
    OneSlotTopic(n);
    OneSlotKey(n, map[n := v]);
    LiteralTakes(chunks, 0, "a");
    var k := ["a", v];
    assert k[1..] == [v] && [v][1..] == [];
    assert chunks[1..] == [Slot(n)] && [Slot(n)][1..] == [];
    assert ChunkCaptures([Slot(n)], NoTail, [v]) == Some(map[n := v] + map[]);
    assert map[n := v] + map[] == map[n := v];
    var none: Captures := map[];
    assert none + map[n := v] == map[n := v];
  }

  lemma PairIsGood()
    ensures GoodClass(PAIR) && PAIR.fields.Keys == {"x", "y"} && SENT.Keys == PAIR.fields.Keys && "x" != "y"
    ensures WireOf(PAIR, "x") == "x" && WireOf(PAIR, "y") == "y"
  {
    assert "x"[0] != "y"[0];
    OneSlotTopic("x");
    OneSlotTopic("y");
  }

  // ---------------------------------------------------------------- the send

  lemma PairResolves()
    ensures Resolved(Compiles(PAIR.topics), Some(Raw(OneSlot("y")))) == Ok(1)
    ensures SentOn(PAIR, Some(Raw(OneSlot("y")))) == 1
  {
    var all, raw := Compiles(PAIR.topics), Raw(OneSlot("y"));
    OneSlotTopic("y");
    OneSlotRaw("x");
    OneSlotRaw("y");
    assert ("a/" + Slotted("x"))[3] == 'x' && ("a/" + Slotted("y"))[3] == 'y';
    assert all[0].raw != raw && all[1..][0].raw == raw;
  }

  lemma PairTexts()
    ensures SentTexts(PAIR, SENT, OneSlot("y")) == map["y" := "2"]
  {
    PairIsGood();
    OneSlotTopic("y");
    forall n ensures n in SentTexts(PAIR, SENT, OneSlot("y")) <==> n == "y" {
      SentSlot(PAIR, SENT, OneSlot("y"), n);
    }
    SentSlot(PAIR, SENT, OneSlot("y"), "y");
  }

  lemma PairSends()
    requires GoodClass(PAIR) && SENT.Keys == PAIR.fields.Keys
    ensures Sent(PAIR, SENT, Some(Raw(OneSlot("y")))).Ok?
  {
    PairIsGood();
    PairResolves();
    OneSlotTopic("y");
    assert SlotString(FieldOf(PAIR, "y"), SENT["y"]) == "2";
    SendSucceeds(PAIR, SENT, Some(Raw(OneSlot("y"))));
  }

  lemma PairKey(key: string, payload: Payload)
    requires GoodClass(PAIR) && SENT.Keys == PAIR.fields.Keys
    requires Sent(PAIR, SENT, Some(Raw(OneSlot("y")))) == Ok((key, payload))
    ensures key == "a/2" && payload == Stripped(PAIR, SENT, ["y"])
  {
    var override := Some(Raw(OneSlot("y")));
    PairResolves();
    OneSlotTopic("y");
    SentIsRendered(PAIR, SENT, override, key, payload);
    SentIsStripped(PAIR, SENT, override, key, payload);
    PairText();
  }

  lemma PairText()
    ensures KeyOf(OneSlot("y"), SentTexts(PAIR, SENT, OneSlot("y"))) == "a/2"
  {
    PairTexts();
    OneSlotKey("y", map["y" := "2"]);
    assert "a/" + "2" == "a/2";
  }

  lemma PairPayload()
    requires WiresDistinct(PAIR) && SENT.Keys == PAIR.fields.Keys == {"x", "y"} && "x" != "y"
    ensures Stripped(PAIR, SENT, ["y"]) == map["x" := Str("1")]
  {
    StrippedToOne(PAIR, SENT, ["y"], "x");
    assert WireOf(PAIR, "x") == "x" && PAIR.fields["x"].dumped(SENT["x"]) == Str("1");
  }

  // ---------------------------------------------------------------- the decode

  lemma PairFirstMatch()
    ensures FirstMatch(PAIR.topics, "a/2") == Some((0, map["x" := "2"]))
  {
    OneSlotMatch("x", "2");
    assert "a/" + "2" == "a/2";
  }

  lemma PairFields(payload: Payload)
    requires WiresDistinct(PAIR) && "y" !in payload
    ensures LoadedField(PAIR.fields["x"], payload + Injection(PAIR, map["x" := Str("2")])) == Some(READ["x"])
    ensures LoadedField(PAIR.fields["y"], payload + Injection(PAIR, map["x" := Str("2")])) == Some(READ["y"])
  {
    assert "x"[0] != "y"[0];
    InjectionHolds(PAIR, map["x" := Str("2")], "x");
    InjectionHolds(PAIR, map["x" := Str("2")], "y");
  }

  lemma PairCoerced()
    ensures AllCoerce(PAIR, map["x" := "2"]) && CoercedCaptures(PAIR, map["x" := "2"]) == map["x" := Str("2")]
  {
    assert Coerced(PAIR, "x", "2") == Some(Str("2"));
  }

  lemma PairKeys()
    ensures PAIR.fields.Keys == {"x", "y"} == READ.Keys
  {
  }

  lemma PairDecodes(payload: Payload)
    requires WiresDistinct(PAIR) && "y" !in payload
    ensures Decoded(PAIR, payload, "a/2") == Ok((READ, map["x" := "2"]))
  {
    PairFirstMatch();
    PairCoerced();
    PairKeys();
    PairFields(payload);
    DecodedIs(PAIR, payload, "a/2", 0, map["x" := "2"], READ);
  }

  /** With `TOPIC = 'a/{x}'` and `'a/{y}'` an extra: the message sent on the extra goes out on `a/2` without `y`,
      and decodes as if sent on `TOPIC`. `y`'s text lands in `x`, and `y` is lost. */
  lemma EarlierTopicTakesTheKey()
    ensures GoodClass(PAIR) && SENT.Keys == PAIR.fields.Keys && READ != SENT
    ensures Sent(PAIR, SENT, Some(Raw(OneSlot("y")))) == Ok(("a/2", map["x" := Str("1")]))
    ensures Decoded(PAIR, map["x" := Str("1")], "a/2") == Ok((READ, map["x" := "2"]))
  {
    PairIsGood();
    PairSends();
    var sent := Sent(PAIR, SENT, Some(Raw(OneSlot("y")))).value;
    PairKey(sent.0, sent.1);
    PairPayload();
    PairDecodes(map["x" := Str("1")]);
    assert READ["y"] != SENT["y"];
  }
}
