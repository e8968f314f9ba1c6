/** A class query from its slot values to the replies of a retention cache
    (zeared/queryable/_query_get.py, zeared/retention.py). */
module Querying {
  import opened Grammar
  import opened Identity
  import opened KeyExpr
  import opened Message
  import opened Matching
  import opened Narrowing
  import opened Rendering
  import opened Retention
  import opened Slashes
  import opened Template
  import opened Wrappers
  import Compile

  /** The selector a class query renders. */
  method BuildSelector(topic: Topic, partial: Partial) returns (selector: string)
    requires WellFormed(topic)
    ensures Selector(Compiled(topic), partial) == Ok(selector)
  {
    Compile.ParseReadsBack(topic);
    var parsed := Parse(Raw(topic));
    if topic.tail.Named? {
      TailNamed(topic);
    }
    var rendered := RenderSelector(parsed.value, partial);
    SelectorByChunk(topic, partial);
    selector := rendered.value;
  }

  // ---------------------------------------------------------------- keys of the class's other topics

  /** The topic without its tail. */
  function Bare(topic: Topic): Topic {
    Topic(topic.chunks, NoTail)
  }

  /** The selector leaves the tail open, and the key would agree if it had one: `**` takes no chunks too. */
  ghost predicate AgreesBare(topic: Topic, partial: Partial, key: string) {
    && topic.tail.Named? && Given(partial, topic.tail.name) == None
    && OnTopic(Bare(topic), key) && KeyAgrees(Bare(topic), partial, key)
  }

  lemma BareNames(topic: Topic)
    requires WellFormed(topic)
    ensures Names(Bare(topic)) == SlotNames(topic.chunks) && Distinct(Names(Bare(topic)))
  {
    var names, bare := Names(topic), Names(Bare(topic));
    assert bare == SlotNames(topic.chunks);
    forall i, j | 0 <= i < j < |bare| ensures bare[i] != bare[j] {
      assert names[i] == bare[i] && names[j] == bare[j];
    }
  }

  lemma BareAgreement(topic: Topic, partial: Partial, key: string)
    requires WellFormed(topic) && Publishable(topic) && WildcardFree(Names(topic), partial)
    requires OnTopic(Bare(topic), key)
    ensures |Split(key)| == |topic.chunks|
    ensures KeyAgrees(Bare(topic), partial, key) <==>
      var q := Shown(topic.chunks, Valued(Chosen(topic, partial)));
      forall i :: 0 <= i < |q| ==> ChunkMatches(q[i], Split(key)[i])
  {
    var k, caps := Split(key), CapturesOf(Bare(topic), key).value;
    BareNames(topic);
    CapturesByPosition(topic.chunks, NoTail, k, caps);
    forall i | 0 <= i < |topic.chunks|
      ensures ChunkMatches(Shown(topic.chunks, Valued(Chosen(topic, partial)))[i], k[i])
        <==> SlotAgrees(topic.chunks[i], partial, caps)
    {
      SelectorChunk(topic, partial, i, k[i], caps);
    }
    AgreementByChunk(Bare(topic), partial, caps);
  }

  lemma ShownHasNoDouble(topic: Topic, partial: Partial)
    requires WellFormed(topic) && Publishable(topic) && WildcardFree(Names(topic), partial)
    ensures "**" !in Shown(topic.chunks, Valued(Chosen(topic, partial)))
  {
    ShownIsPlain(topic, partial);
    assert '*' in "**" && "**" != "*";
  }

  /** Where the selector reaches an allowed key, the key's first chunks fit the topic's. */
  lemma ReachedFits(topic: Topic, partial: Partial, key: string)
    requires WellFormed(topic) && Publishable(topic) && WildcardFree(Names(topic), partial)
    requires KeepsToSegments(topic.chunks, partial) && AllowedKey(key) && Intersects(SelectorKey(topic, partial), key)
    ensures var k, chosen := Split(key), Chosen(topic, partial);
      && |topic.chunks| <= |k| && Matches(TailChunks(topic, chosen), k[|topic.chunks|..])
      && forall i :: 0 <= i < |topic.chunks| ==>
           ChunkTakes(topic.chunks[i], k[i]) && ChunkMatches(Shown(topic.chunks, Valued(chosen))[i], k[i])
  {
    var k, chosen := Split(key), Chosen(topic, partial);
    var q := Shown(topic.chunks, Valued(chosen));
    SelectorChunks(topic, partial);
    ShownHasNoDouble(topic, partial);
    FrontFits(q, TailChunks(topic, chosen), k);
    MatchesByChunk(q, TailChunks(topic, chosen), k);
    forall i | 0 <= i < |topic.chunks| ensures ChunkTakes(topic.chunks[i], k[i]) {
      assert ChunkMatches(q[i], k[i]);
      if topic.chunks[i].Lit? {
        StarlessLiteral(topic.chunks, i);
        PlainChunk(q[i], k[i]);
        LiteralTakes(topic.chunks, i, k[i]);
      }
    }
  }

  lemma ReachedOffTopic(topic: Topic, partial: Partial, key: string)
    requires WellFormed(topic) && Publishable(topic) && WildcardFree(Names(topic), partial)
    requires KeepsToSegments(topic.chunks, partial) && AllowedKey(key) && !OnTopic(topic, key)
    requires Intersects(SelectorKey(topic, partial), key)
    ensures AgreesBare(topic, partial, key)
  {
    var k, n := Split(key), |topic.chunks|;
    ReachedFits(topic, partial, key);
    if topic.tail.Named? {
      TailNamed(topic);
      if n < |k| {
        assert k[n..][0] == k[n] && Allowed(k[n]);
        assert Join(k[n..]) != "";
        FitsAreCaptured(topic.chunks, topic.tail, k);
      }
      assert k[n..] == [];
      if Given(partial, topic.tail.name).Some? {
        SplitIsPlain(Given(partial, topic.tail.name).value);
      }
    } else {
      FitsAreCaptured(topic.chunks, topic.tail, k);
    }
    FitsAreCaptured(topic.chunks, NoTail, k);
    BareAgreement(topic, partial, key);
  }

  lemma BareIsReached(topic: Topic, partial: Partial, key: string)
    requires WellFormed(topic) && Publishable(topic) && WildcardFree(Names(topic), partial)
    requires KeepsToSegments(topic.chunks, partial) && AgreesBare(topic, partial, key)
    ensures Intersects(SelectorKey(topic, partial), key)
  {
    var k := Split(key);
    SelectorChunks(topic, partial);
    TailNamed(topic);
    BareAgreement(topic, partial, key);
    ShownHasNoDouble(topic, partial);
    SplitWhole("**");
    AllMatch(k[|topic.chunks|..]);
    MatchesByChunk(Shown(topic.chunks, Valued(Chosen(topic, partial))), ["**"], k);
  }

  /** Which keys of other topics a query reaches, whatever else the class declares: with a tail slot left open,
      exactly those that lack just the tail. */
  lemma ReachesOffTopicExactly(topic: Topic, partial: Partial, key: string)
    requires WellFormed(topic) && Publishable(topic) && WildcardFree(Names(topic), partial)
    requires KeepsToSegments(topic.chunks, partial) && AllowedKey(key) && !OnTopic(topic, key)
    ensures Intersects(SelectorKey(topic, partial), key) <==> AgreesBare(topic, partial, key)
  {
    if Intersects(SelectorKey(topic, partial), key) {
      ReachedOffTopic(topic, partial, key);
    } else if AgreesBare(topic, partial, key) {
      BareIsReached(topic, partial, key);
    }
  }

  /** A subscribe-only topic's selector is the key expression a subscriber declares, whatever the values: it reaches
      every key of the topic, and those that lack just its tail. */
  lemma SubscribeOnlySelectsAll(topic: Topic, partial: Partial, key: string)
    requires WellFormed(topic) && !Publishable(topic) && ValidKey(key)
    ensures Selector(Compiled(topic), partial).Ok?
    ensures Intersects(Selector(Compiled(topic), partial).value, key) <==>
      OnTopic(topic, key) || (topic.tail != NoTail && OnTopic(Bare(topic), key))
  {
    SelectorByChunk(topic, partial);
    WildcardReachesExactly(topic, key);
    if OnTopic(topic, key) {
      MatchByChunk(topic, key, CapturesOf(topic, key).value);
    }
    forall caps | MatchesWith(Compiled(topic), key, caps) ensures OnTopic(topic, key) {
      MatchByChunk(topic, key, caps);
    }
  }

  // ---------------------------------------------------------------- typed values

  /** The partial mapping that a query's slot values render to. */
  function Asked(cls: MessageClass, topic: Topic, values: map<string, Value>): Partial {
    SlotTexts(cls, Names(topic), values)
  }

  /** Each of the values renders as the message's own. */
  ghost predicate RenderAsSent(cls: MessageClass, msg: Instance, topic: Topic, values: map<string, Value>) {
    forall n :: n in Names(topic) && n in values && values[n] != Nothing ==>
      n in cls.fields && n in msg && SlotString(FieldOf(cls, n), values[n]) == SlotString(FieldOf(cls, n), msg[n])
  }

  lemma AgreesAsRendered(cls: MessageClass, msg: Instance, topic: Topic, values: map<string, Value>)
    requires forall n :: n in Names(topic) ==> n in SentTexts(cls, msg, topic)
    ensures AgreesWith(Names(topic), Asked(cls, topic, values), SentTexts(cls, msg, topic))
       <==> RenderAsSent(cls, msg, topic, values)
  {
    var texts, partial := SentTexts(cls, msg, topic), Asked(cls, topic, values);
    forall n | n in Names(topic)
      ensures n in cls.fields && n in msg && texts[n] == SlotString(FieldOf(cls, n), msg[n])
      ensures Given(partial, n) ==
        if n in values && values[n] != Nothing then Some(SlotString(FieldOf(cls, n), values[n])) else None
    {
      SentSlot(cls, msg, topic, n);
    }
  }

  /** A query's values select the key that `send` put a message on exactly when each renders as the message's own; a
      slot left out, or given as `None`, selects every value. */
  lemma SelectsWhatWasSent(cls: MessageClass, msg: Instance, values: map<string, Value>, key: string, payload: Payload)
    requires GoodClass(cls) && msg.Keys == cls.fields.Keys && Sent(cls, msg, None) == Ok((key, payload))
    requires LineFreeTexts(SentTexts(cls, msg, cls.topics[0]))
    requires NonemptySegments(cls.topics[0].chunks, SentTexts(cls, msg, cls.topics[0]))
    requires WildcardFree(Names(cls.topics[0]), Asked(cls, cls.topics[0], values))
    requires KeepsToSegments(cls.topics[0].chunks, Asked(cls, cls.topics[0], values)) || cls.topics[0].tail == NoTail
    ensures var topic := cls.topics[0];
      var selector := Selector(Compiled(topic), Asked(cls, topic, values));
      selector.Ok? && (Intersects(selector.value, key) <==> RenderAsSent(cls, msg, topic, values))
  {
    var topic := cls.topics[0];
    var partial, texts := Asked(cls, topic, values), SentTexts(cls, msg, topic);
    SentIsRendered(cls, msg, None, key, payload);
    ReadOnItsTopic(topic, texts, key);
    AgreesAsRendered(cls, msg, topic, values);
    if KeepsToSegments(topic.chunks, partial) {
      SelectorNarrows(topic, partial, key, texts);
    } else {
      SelectorNarrowsWithoutTail(topic, partial, key, texts);
    }
  }

  // ---------------------------------------------------------------- the query

  /** A key of the canonical topic whose slots agree, or one of another topic that the selector takes in. */
  ghost predicate Answers(topic: Topic, partial: Partial, key: string) {
    if OnTopic(topic, key) then KeyAgrees(topic, partial, key)
    else if KeepsToSegments(topic.chunks, partial) then AgreesBare(topic, partial, key)
    else Intersects(SelectorKey(topic, partial), key)
  }

  lemma AnswersExactly(topic: Topic, partial: Partial, key: string)
    requires WellFormed(topic) && Publishable(topic) && AllowedKey(key)
    requires WildcardFree(Names(topic), partial) && Confined(topic, partial)
    ensures Intersects(SelectorKey(topic, partial), key) <==> Answers(topic, partial, key)
  {
    ConfinedNarrows(topic, partial);
    if !OnTopic(topic, key) && KeepsToSegments(topic.chunks, partial) {
      ReachesOffTopicExactly(topic, partial, key);
    }
  }

  /** What a retention cache answers to a class query, whichever of the class's topics its keys are on: the entries
      that answer it stay exactly while within the TTL, each that stays gets one reply that carries it, and no other
      entry is touched. */
  method Query(cache: Cache, topic: Topic, partial: Partial, ttl: Option<real>, now: real)
    returns (replies: seq<Sample>)
    requires cache.Valid()
    requires WellFormed(topic) && Publishable(topic)
    requires WildcardFree(Names(topic), partial) && Confined(topic, partial)
    requires forall key :: key in cache.entries ==> AllowedKey(key)
    modifies cache.Repr()
    ensures cache.Valid()
    ensures Stays(topic, partial, old(cache.entries), cache.entries, ttl, now)
    ensures OnePer(replies, (set key | key in cache.entries && Answers(topic, partial, key)), old(cache.entries), false)
  {
    var selector := BuildSelector(topic, partial);
    ghost var was := cache.entries;
    SelectedKeys(topic, partial, selector, was);
    replies := cache.HandleQuery(selector, ttl, now);
    InTermsOfSlots(topic, partial, selector, was, cache.entries, ttl, now);
  }

  /** `left` is `was` without the entries that answer and are past the TTL. */
  ghost predicate Stays(topic: Topic, partial: Partial, was: map<string, Entry>, left: map<string, Entry>,
                        ttl: Option<real>, now: real)
  {
    && (forall key :: key in left ==> key in was && left[key] == was[key])
    && (forall key :: key in left <==>
          key in was && (Answers(topic, partial, key) ==> WithinTtl(was[key].inserted, ttl, now)))
  }

  lemma InTermsOfSlots(topic: Topic, partial: Partial, selector: string, was: map<string, Entry>,
                       left: map<string, Entry>, ttl: Option<real>, now: real)
    requires forall key :: key in was ==> (Intersects(selector, key) <==> Answers(topic, partial, key))
    requires forall key :: key in left ==> key in was && left[key] == was[key]
    requires forall key :: key in left <==>
      key in was && (Intersects(selector, key) ==> WithinTtl(was[key].inserted, ttl, now))
    ensures Stays(topic, partial, was, left, ttl, now)
    ensures (set key | key in left && Intersects(selector, key))
         == (set key | key in left && Answers(topic, partial, key))
  {
  }

  lemma SelectedKeys(topic: Topic, partial: Partial, selector: string, entries: map<string, Entry>)
    requires WellFormed(topic) && Publishable(topic)
    requires WildcardFree(Names(topic), partial) && Confined(topic, partial)
    requires forall key :: key in entries ==> AllowedKey(key)
    requires Selector(Compiled(topic), partial) == Ok(selector)
    ensures forall key :: key in entries ==> (Intersects(selector, key) <==> Answers(topic, partial, key))
  {
    SelectorByChunk(topic, partial);
    forall key | key in entries ensures Intersects(selector, key) <==> Answers(topic, partial, key) {
      AnswersExactly(topic, partial, key);
    }
  }
}
