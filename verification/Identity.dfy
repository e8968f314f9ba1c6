/** Message identity: what `send` puts in the key and the payload, `_decode` puts back
    together (zeared/message/_message_send.py, _message_render.py and message.py). */
module Identity {
  import opened Grammar
  import opened KeyExpr
  import opened Message
  import opened Regex
  import opened Rendering
  import opened Template
  import opened Templates
  import opened Wrappers

  ghost predicate GoodClass(cls: MessageClass) {
    && |cls.topics| >= 1
    && WiresDistinct(cls)
    && forall i :: 0 <= i < |cls.topics| ==> WellFormed(cls.topics[i])
  }

  /** What a message writes into a topic's slots. */
  function SentTexts(cls: MessageClass, msg: Instance, topic: Topic): Captures {
    Texts(SlotTexts(cls, Names(topic), SlotValues(cls, msg, Names(topic))))
  }

  /** Some topic is written so. */
  ghost predicate Declared(cls: MessageClass, override: Option<string>) {
    override.Some? ==> exists i :: 0 <= i < |cls.topics| && Raw(cls.topics[i]) == override.value
  }

  /** The first topic written `raw`, or `|topics|`. */
  function FirstRaw(topics: seq<Topic>, raw: string): (i: nat)
    ensures i <= |topics|
    ensures forall j :: 0 <= j < i ==> Raw(topics[j]) != raw
    ensures i < |topics| ==> Raw(topics[i]) == raw
  {
    if topics == [] || Raw(topics[0]) == raw then 0 else FirstRaw(topics[1..], raw) + 1
  }

  /** The topic a send uses: the first declared without an override, the first written so with one. */
  function SentOn(cls: MessageClass, override: Option<string>): (i: nat)
    requires |cls.topics| >= 1
    ensures i < |cls.topics|
    ensures override.None? ==> i == 0
    ensures override.Some? && Declared(cls, override) ==>
      Raw(cls.topics[i]) == override.value && forall j :: 0 <= j < i ==> Raw(cls.topics[j]) != override.value
  {
    if override.None? then 0
    else
      var i := FirstRaw(cls.topics, override.value);
      if i < |cls.topics| then i else 0
  }

  /** What the resolution of a send's topic comes to. */
  lemma ResolvedByPosition(cls: MessageClass, override: Option<string>)
    requires |cls.topics| >= 1
    ensures Resolved(Compiles(cls.topics), override) ==
      if !Declared(cls, override) then Err(UnknownTopic(override.value))
      else if Publishable(cls.topics[SentOn(cls, override)]) then Ok(SentOn(cls, override))
      else Err(SubscribeOnly)
  {
    var all, i := Compiles(cls.topics), SentOn(cls, override);
    ResolvesExactly(all, override);
    if override.Some? {
      if Declared(cls, override) {
        assert FirstWritten(all, override.value, i);
      } else {
        assert forall j :: 0 <= j < |all| ==> all[j].raw != override.value;
      }
    }
  }

  ghost predicate NonemptySegments(chunks: seq<Chunk>, texts: Captures) {
    forall n :: n in SlotNames(chunks) && n in texts ==> texts[n] != ""
  }

  // ---------------------------------------------------------------- the key

  lemma SentSlot(cls: MessageClass, msg: Instance, topic: Topic, n: string)
    ensures n in SentTexts(cls, msg, topic) <==> n in Names(topic) && n in cls.fields && n in msg && msg[n] != Nothing
    ensures n in SentTexts(cls, msg, topic) ==> SentTexts(cls, msg, topic)[n] == SlotString(Some(cls.fields[n]), msg[n])
  {
  }

  /** `key` is `topic`'s key for `texts`: every slot has a text, and only the tail may be split. */
  ghost predicate RenderedAs(topic: Topic, texts: Captures, key: string) {
    && Publishable(topic) && key == KeyOf(topic, texts)
    && (forall n :: n in texts <==> n in Names(topic))
    && (topic.tail.Named? ==> topic.tail.name in texts && texts[topic.tail.name] != "")
    && (forall n :: n in SlotNames(topic.chunks) ==> n in texts && SlashFree(texts[n]))
  }

  ghost predicate LineFreeTexts(texts: Captures) {
    forall n :: n in texts ==> LineFree(texts[n])
  }

  /** A send that succeeds rendered each slot, and no single-segment one splits. */
  lemma SentIsRendered(cls: MessageClass, msg: Instance, override: Option<string>, key: string, payload: Payload)
    requires GoodClass(cls) && msg.Keys == cls.fields.Keys
    requires Sent(cls, msg, override) == Ok((key, payload))
    ensures var topic := cls.topics[SentOn(cls, override)];
      RenderedAs(topic, SentTexts(cls, msg, topic), key)
  {
    var topic := cls.topics[SentOn(cls, override)];
    ResolvedByPosition(cls, override);
    var rendered := SlotTexts(cls, Names(topic), SlotValues(cls, msg, Names(topic)));
    var texts := SentTexts(cls, msg, topic);
    assert !AnySplit(Compiled(topic), rendered) && Rendered(Compiled(topic), texts) == Ok(key);
    RenderByChunk(topic, texts);
    if topic.tail.Named? {
      TailNamed(topic);
    }
    forall n ensures n in texts <==> n in Names(topic) {
      SentSlot(cls, msg, topic, n);
    }
    forall n | n in SlotNames(topic.chunks) ensures n in texts && SlashFree(texts[n]) {
      OwnName(topic, n);
      SentSlot(cls, msg, topic, n);
      assert !Splits(Compiled(topic), n, rendered[n]);
    }
  }

  /** A send succeeds exactly when its topic is declared and publishable, every slot has a
      field and a value, no single-segment text holds a `/`, and the tail's is not empty. */
  lemma SendSucceeds(cls: MessageClass, msg: Instance, override: Option<string>)
    requires GoodClass(cls) && msg.Keys == cls.fields.Keys
    ensures Sent(cls, msg, override).Ok? <==> (
      && Declared(cls, override)
      && var topic := cls.topics[SentOn(cls, override)];
      && Publishable(topic)
      && (forall n :: n in Names(topic) ==> n in cls.fields && msg[n] != Nothing)
      && (forall n :: n in SlotNames(topic.chunks) ==> SlashFree(SlotString(FieldOf(cls, n), msg[n])))
      && (topic.tail.Named? ==> SlotString(FieldOf(cls, topic.tail.name), msg[topic.tail.name]) != ""))
  {
    ResolvedByPosition(cls, override);
    if Declared(cls, override) && Publishable(cls.topics[SentOn(cls, override)]) {
      KeySucceeds(cls, msg, cls.topics[SentOn(cls, override)]);
    }
  }

  /** And otherwise it is refused for the first of these that fails: the topic, a split segment, an empty tail, a
      missing slot. */
  lemma SendRefuses(cls: MessageClass, msg: Instance, override: Option<string>)
    requires GoodClass(cls) && msg.Keys == cls.fields.Keys
    ensures var topic := cls.topics[SentOn(cls, override)];
      var texts := SentTexts(cls, msg, topic);
      var sent := Sent(cls, msg, override);
      if !Declared(cls, override) then sent == Err(UnknownTopic(override.value))
      else if !Publishable(topic) then sent == Err(SubscribeOnly)
      else if !TextsKeep(topic, texts) then sent == Err(SegmentSplit)
      else if topic.tail.Named? && topic.tail.name in texts && texts[topic.tail.name] == "" then
        sent == Err(EmptyTail(topic.tail.name))
      else if exists n :: n in Names(topic) && n !in texts then sent == Err(MissingField)
      else sent.Ok?
  {
    var topic := cls.topics[SentOn(cls, override)];
    ResolvedByPosition(cls, override);
    if Declared(cls, override) && Publishable(topic) {
      SplitsExactly(cls, msg, topic);
      RenderByChunk(topic, SentTexts(cls, msg, topic));
    }
  }

  /** No single-segment text holds a `/`. */
  ghost predicate TextsKeep(topic: Topic, texts: Captures) {
    forall n :: n in SlotNames(topic.chunks) && n in texts ==> SlashFree(texts[n])
  }

  lemma SplitsExactly(cls: MessageClass, msg: Instance, topic: Topic)
    requires WellFormed(topic)
    ensures AnySplit(Compiled(topic), SlotTexts(cls, Names(topic), SlotValues(cls, msg, Names(topic))))
       <==> !TextsKeep(topic, SentTexts(cls, msg, topic))
  {
    var rendered := SlotTexts(cls, Names(topic), SlotValues(cls, msg, Names(topic)));
    var texts := SentTexts(cls, msg, topic);
    forall n | n in SlotNames(topic.chunks) && n in texts
      ensures Splits(Compiled(topic), n, rendered[n]) <==> !SlashFree(texts[n])
    {
      OwnName(topic, n);
    }
    forall n | n in rendered && Splits(Compiled(topic), n, rendered[n]) ensures n in SlotNames(topic.chunks) {
      if n !in SlotNames(topic.chunks) {
        TailOrSlot(topic, n);
      }
    }
  }

  lemma KeySucceeds(cls: MessageClass, msg: Instance, topic: Topic)
    requires WellFormed(topic) && Publishable(topic) && msg.Keys == cls.fields.Keys
    ensures PublishKey(cls, Compiled(topic), SlotValues(cls, msg, Names(topic))).Ok? <==> (
      && (forall n :: n in Names(topic) ==> n in cls.fields && msg[n] != Nothing)
      && (forall n :: n in SlotNames(topic.chunks) ==> SlashFree(SlotString(FieldOf(cls, n), msg[n])))
      && (topic.tail.Named? ==> SlotString(FieldOf(cls, topic.tail.name), msg[topic.tail.name]) != ""))
  {
    var texts := SentTexts(cls, msg, topic);
    RenderByChunk(topic, texts);
    SplitsExactly(cls, msg, topic);
    if topic.tail.Named? {
      TailNamed(topic);
    }
    forall n | n in Names(topic)
      ensures n in texts <==> n in cls.fields && msg[n] != Nothing
      ensures n in texts ==> texts[n] == SlotString(FieldOf(cls, n), msg[n])
    {
      SentSlot(cls, msg, topic, n);
    }
    forall n | n in SlotNames(topic.chunks) ensures n in Names(topic) {
      OwnName(topic, n);
    }
  }

  lemma TailOrSlot(topic: Topic, n: string)
    requires n in Names(topic) && n !in SlotNames(topic.chunks)
    ensures Some(n) == NamedMulti(topic.tail)
  {
  }

  lemma OwnName(topic: Topic, n: string)
    requires WellFormed(topic) && n in SlotNames(topic.chunks)
    ensures n in Names(topic) && Some(n) != NamedMulti(topic.tail)
  {
    var names, singles := Names(topic), SlotNames(topic.chunks);
    var i :| 0 <= i < |singles| && singles[i] == n;
    assert names[i] == n;
    if topic.tail.Named? {
      assert names[|singles|] == topic.tail.name;
    }
  }

  lemma ReadOnItsTopic(topic: Topic, texts: Captures, key: string)
    requires WellFormed(topic) && RenderedAs(topic, texts, key) && LineFreeTexts(texts)
    ensures LineFree(key)
    ensures MatchesWith(Compiled(topic), key, texts) <==> NonemptySegments(topic.chunks, texts)
  {
    assert Renderable(topic, texts);
    assert OwnSlots(topic, texts) == texts;
    MatchUndoesRender(topic, texts);
    KeyIsLineFree(topic, texts);
  }

  /** The sent key is read as sent, on its own topic, exactly when no slot is empty and no
      earlier declared topic matches it. */
  lemma SentKeyIsReadBack(cls: MessageClass, msg: Instance, override: Option<string>, key: string, payload: Payload)
    requires GoodClass(cls) && msg.Keys == cls.fields.Keys
    requires Sent(cls, msg, override) == Ok((key, payload))
    requires LineFreeTexts(SentTexts(cls, msg, cls.topics[SentOn(cls, override)]))
    ensures var i := SentOn(cls, override); var texts := SentTexts(cls, msg, cls.topics[i]);
      FirstMatch(cls.topics, key) == Some((i, texts)) <==>
        NonemptySegments(cls.topics[i].chunks, texts) && NoneMatches(cls.topics[..i], key)
  {
    var i := SentOn(cls, override);
    var texts := SentTexts(cls, msg, cls.topics[i]);
    SentIsRendered(cls, msg, override, key, payload);
    ReadOnItsTopic(cls.topics[i], texts, key);
    MatchIsFirst(cls.topics, key, i, texts);
  }

  // ---------------------------------------------------------------- the message

  /** `load` undoes `dump` on this message's values. */
  ghost predicate PayloadInverts(cls: MessageClass, msg: Instance)
    requires msg.Keys == cls.fields.Keys
  {
    forall a :: a in cls.fields ==> cls.fields[a].loaded(cls.fields[a].dumped(msg[a])) == Some(msg[a])
  }

  /** The field's codec undoes itself on the value: a string as it stands, a value of the field's own type through
      `serialize`, any other through `str`. And `load` accepts the typed value. */
  ghost predicate SlotInverts(f: Field, v: Value) {
    && f.loaded(v) == Some(v)
    && (v.Str? ==> f.deserialize(v.text) == Some(v))
    && (!v.Str? && f.kind == Some(Kind(v)) && f.serialize(v).Some? ==>
          f.deserialize(PyStr(f.serialize(v).value)) == Some(v))
    && (!v.Str? && (f.kind != Some(Kind(v)) || f.serialize(v).None?) ==> f.deserialize(PyStr(v)) == Some(v))
  }

  /** So the slot's text decodes to the slot's value. */
  lemma SlotTextReadsBack(f: Field, v: Value)
    requires SlotInverts(f, v)
    ensures f.deserialize(SlotString(Some(f), v)) == Some(v)
  {
  }

  ghost predicate SlotsInvert(cls: MessageClass, msg: Instance, topic: Topic)
    requires msg.Keys == cls.fields.Keys
  {
    forall n :: n in Names(topic) && n in cls.fields ==> SlotInverts(cls.fields[n], msg[n])
  }

  lemma CapturesCoerceBack(cls: MessageClass, msg: Instance, topic: Topic)
    requires msg.Keys == cls.fields.Keys && SlotsInvert(cls, msg, topic)
    requires forall n :: n in SentTexts(cls, msg, topic) <==> n in Names(topic)
    ensures AllCoerce(cls, SentTexts(cls, msg, topic))
    ensures OwnValues(cls, msg, Names(topic), CoercedCaptures(cls, SentTexts(cls, msg, topic)))
  {
    var texts := SentTexts(cls, msg, topic);
    forall n | n in texts ensures n in cls.fields && Coerced(cls, n, texts[n]) == Some(msg[n]) {
      SentSlot(cls, msg, topic, n);
      assert SlotInverts(cls.fields[n], msg[n]);
      SlotTextReadsBack(cls.fields[n], msg[n]);
    }
  }

  /** The coerced captures of the slots `names` are the message's own values. */
  ghost predicate OwnValues(cls: MessageClass, msg: Instance, names: seq<string>, coerced: map<string, Value>) {
    && (forall n :: n in coerced <==> n in names)
    && (forall n :: n in coerced ==> n in cls.fields && n in msg && coerced[n] == msg[n])
  }

  /** The payload `load` reads: the sent one, with the captures injected. */
  function Refilled(cls: MessageClass, msg: Instance, names: seq<string>, coerced: map<string, Value>): Payload
    requires WiresDistinct(cls) && msg.Keys == cls.fields.Keys
  {
    (Dumped(cls, msg) - SlotWireKeys(cls, names)) + Injection(cls, coerced)
  }

  lemma RefilledSlot(cls: MessageClass, msg: Instance, names: seq<string>, coerced: map<string, Value>, a: string)
    requires WiresDistinct(cls) && msg.Keys == cls.fields.Keys && a in cls.fields
    requires OwnValues(cls, msg, names, coerced) && a in names
    ensures WireOf(cls, a) in Refilled(cls, msg, names, coerced)
    ensures Refilled(cls, msg, names, coerced)[WireOf(cls, a)] == msg[a]
  {
    var w, injected := WireOf(cls, a), Injection(cls, coerced);
    assert w in injected && injected[w] == coerced[a];
  }

  lemma RefilledField(cls: MessageClass, msg: Instance, names: seq<string>, coerced: map<string, Value>, a: string)
    requires WiresDistinct(cls) && msg.Keys == cls.fields.Keys && a in cls.fields
    requires OwnValues(cls, msg, names, coerced) && a !in names
    ensures WireOf(cls, a) in Refilled(cls, msg, names, coerced)
    ensures Refilled(cls, msg, names, coerced)[WireOf(cls, a)] == cls.fields[a].dumped(msg[a])
  {
    var w, dumped := WireOf(cls, a), Dumped(cls, msg);
    assert w in dumped && dumped[w] == cls.fields[a].dumped(msg[a]);
    assert w !in SlotWireKeys(cls, names) by {
      forall n | n in names ensures WireOf(cls, n) != w {
        assert n in coerced;
      }
    }
    assert w !in Injection(cls, coerced);
  }

  lemma LoadsBack(cls: MessageClass, msg: Instance, topic: Topic, coerced: map<string, Value>)
    requires WiresDistinct(cls) && msg.Keys == cls.fields.Keys
    requires PayloadInverts(cls, msg) && SlotsInvert(cls, msg, topic)
    requires OwnValues(cls, msg, Names(topic), coerced)
    ensures Loaded(cls, Refilled(cls, msg, Names(topic), coerced)) == Some(msg)
  {
    var names := Names(topic);
    forall a | a in cls.fields ensures LoadedField(cls.fields[a], Refilled(cls, msg, names, coerced)) == Some(msg[a]) {
      if a in names {
        RefilledSlot(cls, msg, names, coerced, a);
        assert SlotInverts(cls.fields[a], msg[a]);
      } else {
        RefilledField(cls, msg, names, coerced, a);
      }
    }
    LoadedIs(cls, Refilled(cls, msg, names, coerced), msg);
  }

  lemma LoadedIs(cls: MessageClass, payload: Payload, msg: Instance)
    requires msg.Keys == cls.fields.Keys
    requires forall a :: a in cls.fields ==> LoadedField(cls.fields[a], payload) == Some(msg[a])
    ensures Loaded(cls, payload) == Some(msg)
  {
    assert Loaded(cls, payload).value == msg;
  }

  lemma SentIsStripped(cls: MessageClass, msg: Instance, override: Option<string>, key: string, payload: Payload)
    requires GoodClass(cls) && msg.Keys == cls.fields.Keys
    requires Sent(cls, msg, override) == Ok((key, payload))
    ensures payload == Dumped(cls, msg) - SlotWireKeys(cls, Names(cls.topics[SentOn(cls, override)]))
  {
    ResolvedByPosition(cls, override);
    var t := Compiled(cls.topics[SentOn(cls, override)]);
    assert PublishKey(cls, t, SlotValues(cls, msg, t.fieldNames)) == Ok(key);
  }

  /** A sent payload carries each field that is no slot of the topic, dumped under its wire key, and nothing else. */
  lemma PayloadIsTheRest(cls: MessageClass, msg: Instance, override: Option<string>, key: string, payload: Payload)
    requires GoodClass(cls) && msg.Keys == cls.fields.Keys
    requires Sent(cls, msg, override) == Ok((key, payload))
    ensures var topic := cls.topics[SentOn(cls, override)];
      && (forall a :: a in cls.fields ==> (cls.fields[a].wire in payload <==> a !in Names(topic)))
      && (forall a :: a in cls.fields && a !in Names(topic) ==>
            payload[cls.fields[a].wire] == cls.fields[a].dumped(msg[a]))
      && (forall w :: w in payload ==> exists a :: a in cls.fields && cls.fields[a].wire == w)
  {
    var topic := cls.topics[SentOn(cls, override)];
    SentIsStripped(cls, msg, override, key, payload);
    SlotsHaveFields(cls, msg, override);
    forall a | a in cls.fields
      ensures cls.fields[a].wire in payload <==> a !in Names(topic)
      ensures a !in Names(topic) ==> payload[cls.fields[a].wire] == cls.fields[a].dumped(msg[a])
    {
      StrippedField(cls, msg, Names(topic), a);
    }
  }

  lemma SlotsHaveFields(cls: MessageClass, msg: Instance, override: Option<string>)
    requires GoodClass(cls) && msg.Keys == cls.fields.Keys && Sent(cls, msg, override).Ok?
    ensures forall n :: n in Names(cls.topics[SentOn(cls, override)]) ==> n in cls.fields
  {
    SendSucceeds(cls, msg, override);
  }

  lemma StrippedField(cls: MessageClass, msg: Instance, names: seq<string>, a: string)
    requires WiresDistinct(cls) && msg.Keys == cls.fields.Keys && a in cls.fields
    requires forall n :: n in names ==> n in cls.fields
    ensures var rest := Dumped(cls, msg) - SlotWireKeys(cls, names);
      && (cls.fields[a].wire in rest <==> a !in names)
      && (a !in names ==> rest[cls.fields[a].wire] == cls.fields[a].dumped(msg[a]))
  {
    var w, dumped := WireOf(cls, a), Dumped(cls, msg);
    assert w in dumped && dumped[w] == cls.fields[a].dumped(msg[a]);
    if a in names {
      assert w in SlotWireKeys(cls, names);
    }
  }

  /** Sending a message and decoding what was sent gives back the message. */
  lemma DecodeUndoesSend(cls: MessageClass, msg: Instance, override: Option<string>, key: string, payload: Payload)
    requires GoodClass(cls) && msg.Keys == cls.fields.Keys
    requires Sent(cls, msg, override) == Ok((key, payload))
    requires var i := SentOn(cls, override); var texts := SentTexts(cls, msg, cls.topics[i]);
      && LineFreeTexts(texts)
      && NonemptySegments(cls.topics[i].chunks, texts)
      && NoneMatches(cls.topics[..i], key)
      && SlotsInvert(cls, msg, cls.topics[i])
    requires PayloadInverts(cls, msg)
    ensures Decoded(cls, payload, key) == Ok((msg, SentTexts(cls, msg, cls.topics[SentOn(cls, override)])))
  {
    var i := SentOn(cls, override);
    var topic := cls.topics[i];
    SentKeyIsReadBack(cls, msg, override, key, payload);
    SentIsRendered(cls, msg, override, key, payload);
    CapturesCoerceBack(cls, msg, topic);
    var coerced := CoercedCaptures(cls, SentTexts(cls, msg, topic));
    LoadsBack(cls, msg, topic, coerced);
    SentIsStripped(cls, msg, override, key, payload);
  }

  lemma {:induction false} NoMatch(topics: seq<Topic>, key: string)
    requires forall i :: 0 <= i < |topics| ==> WellFormed(topics[i])
    requires LineFree(key)
    ensures FirstMatch(topics, key) == None <==> NoneMatches(topics, key)
  {
    if topics != [] {
      MatchesTopicByChunk(topics[0], key);
      NoMatch(topics[1..], key);
      NoneMatchesStep(topics, key, |topics|);
      assert topics[..|topics|] == topics && topics[1..][..|topics| - 1] == topics[1..];
    }
  }

  /** A key that no declared topic matches is refused as such, and no other. */
  lemma UndeclaredIsRefused(cls: MessageClass, payload: Payload, key: string)
    requires GoodClass(cls) && LineFree(key)
    ensures Decoded(cls, payload, key) == Err(NoDeclaredTopic) <==> NoneMatches(cls.topics, key)
  {
    NoMatch(cls.topics, key);
  }

  /** A field of the class refuses its capture. */
  ghost predicate CaptureRefused(cls: MessageClass, captures: Captures) {
    exists n :: n in captures && n in cls.fields && cls.fields[n].deserialize(captures[n]).None?
  }

  lemma RefusedCapture(cls: MessageClass, captures: Captures)
    ensures AllCoerce(cls, captures) <==> !CaptureRefused(cls, captures)
  {
    if AllCoerce(cls, captures) {
      forall n | n in captures && n in cls.fields ensures cls.fields[n].deserialize(captures[n]).Some? {
        assert Coerced(cls, n, captures[n]).Some?;
      }
    }
  }

  /** On the earliest topic that matches, a decode fails for the first of these: a field refuses its capture, or
      `load` refuses a field of the payload with the captures injected. */
  lemma DecodeRefuses(cls: MessageClass, payload: Payload, key: string, i: nat, captures: Captures)
    requires GoodClass(cls) && LineFree(key) && FirstIs(cls.topics, key, i, captures)
    ensures Decoded(cls, payload, key) == Err(BadCapture) <==> CaptureRefused(cls, captures)
    ensures Decoded(cls, payload, key) == Err(BadPayload) <==>
      && !CaptureRefused(cls, captures) && AllCoerce(cls, captures)
      && exists a :: a in cls.fields
           && LoadedField(cls.fields[a], payload + Injection(cls, CoercedCaptures(cls, captures))).None?
    ensures Decoded(cls, payload, key) != Err(NoDeclaredTopic)
  {
    MatchIsFirst(cls.topics, key, i, captures);
    RefusedCapture(cls, captures);
  }

  /** The key is authoritative: a decoded slot holds what the key says, whatever the payload. */
  lemma KeyWins(cls: MessageClass, payload: Payload, key: string, msg: Instance, captures: Captures, n: string)
    requires WiresDistinct(cls) && Decoded(cls, payload, key) == Ok((msg, captures))
    requires n in captures && n in cls.fields
    ensures var f := cls.fields[n]; var typed := f.deserialize(captures[n]);
      n in msg && typed.Some? && f.loaded(typed.value) == Some(msg[n])
  {
    var injected := Injection(cls, CoercedCaptures(cls, captures));
    assert Coerced(cls, n, captures[n]).Some?;
    assert WireOf(cls, n) in injected;
    assert LoadedField(cls.fields[n], payload + injected).Some?;
  }

  /** And a field that is no slot holds what the payload says under its wire key, or its default if nothing does. */
  lemma PayloadFills(cls: MessageClass, payload: Payload, key: string, msg: Instance, captures: Captures, a: string)
    requires WiresDistinct(cls) && Decoded(cls, payload, key) == Ok((msg, captures))
    requires a in cls.fields && a !in captures
    ensures var f := cls.fields[a];
      && (f.wire in payload ==> a in msg && f.loaded(payload[f.wire]) == Some(msg[a]))
      && (f.wire !in payload ==> a in msg && f.missing == Some(msg[a]))
  {
    var injected := Injection(cls, CoercedCaptures(cls, captures));
    assert WireOf(cls, a) !in injected;
    assert LoadedField(cls.fields[a], payload + injected).Some?;
  }

  // ---------------------------------------------------------------- one key, by name

  /** A publish key shows `None` by its name, as `str.format` does. */
  lemma NoneIsShown(cls: MessageClass, t: Template, values: map<string, Value>, n: string)
    requires n in values && values[n] == Nothing
    ensures PublishKey(cls, t, values) == PublishKey(cls, t, values[n := Str("None")])
  {
    var named := values[n := Str("None")];
    var was, now := SlotTexts(cls, t.fieldNames, values), SlotTexts(cls, t.fieldNames, named);
    assert Texts(was) == Texts(now);
    assert '/' !in "None";
    forall m | m in was ensures Splits(t, m, was[m]) <==> Splits(t, m, now[m]) {
    }
    assert was.Keys == now.Keys;
  }

  lemma SentKey(cls: MessageClass, msg: Instance, override: Option<string>, key: string)
    requires GoodClass(cls) && msg.Keys == cls.fields.Keys
    requires Declared(cls, override) && Publishable(cls.topics[SentOn(cls, override)])
    ensures var topic := cls.topics[SentOn(cls, override)];
      Sent(cls, msg, override).Ok? && Sent(cls, msg, override).value.0 == key <==>
        PublishKey(cls, Compiled(topic), SlotValues(cls, msg, Names(topic))) == Ok(key)
  {
    ResolvedByPosition(cls, override);
  }

  lemma NamedKey(cls: MessageClass, slots: map<string, Value>, override: Option<string>, key: string)
    requires GoodClass(cls)
    ensures var topic := cls.topics[SentOn(cls, override)];
      ConcreteTopic(cls, slots, override) == Ok(key) <==>
        && Declared(cls, override) && Publishable(topic)
        && (forall n :: n in Names(topic) ==> n in slots && slots[n] != Nothing)
        && PublishKey(cls, Compiled(topic), slots) == Ok(key)
  {
    ResolvedByPosition(cls, override);
  }

  lemma SameTexts(cls: MessageClass, msg: Instance, slots: map<string, Value>, names: seq<string>)
    requires msg.Keys == cls.fields.Keys
    requires forall n :: n in names ==> n in cls.fields && n in slots && slots[n] == msg[n] != Nothing
    ensures SlotTexts(cls, names, slots) == SlotTexts(cls, names, SlotValues(cls, msg, names))
  {
  }

  /** `concrete_topic` with the message's own slot values names exactly the key a send of it goes out on; a slot the
      class has no field for is the one thing a send cannot render. */
  lemma ConcreteTopicIsTheSentKey(
      cls: MessageClass, msg: Instance, slots: map<string, Value>, override: Option<string>, key: string)
    requires GoodClass(cls) && msg.Keys == cls.fields.Keys
    requires forall n :: n in Names(cls.topics[SentOn(cls, override)]) && n in cls.fields ==>
      n in slots && slots[n] == msg[n]
    ensures Sent(cls, msg, override).Ok? && Sent(cls, msg, override).value.0 == key <==>
      && ConcreteTopic(cls, slots, override) == Ok(key)
      && forall n :: n in Names(cls.topics[SentOn(cls, override)]) ==> n in cls.fields
  {
    var topic := cls.topics[SentOn(cls, override)];
    NamedKey(cls, slots, override, key);
    SendSucceeds(cls, msg, override);
    if Declared(cls, override) && Publishable(topic) {
      SentKey(cls, msg, override, key);
      if forall n :: n in Names(topic) ==> n in cls.fields && msg[n] != Nothing {
        SameTexts(cls, msg, slots, Names(topic));
      }
    }
  }
}
