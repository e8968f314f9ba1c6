/** A message class's declared topics: the canonical one, then the extras
    (zeared/_template/_templates.py). */
module Templates {
  import opened Grammar
  import opened Matching
  import opened Regex
  import opened Template
  import opened Wrappers

  datatype Templates = Templates(
    canonical: Template, all: seq<Template>, fieldNames: set<string>, multiFieldNames: set<string>)

  // ---------------------------------------------------------------- building

  ghost predicate ParsedInOrder(sources: seq<string>, all: seq<Template>) {
    |all| == |sources| && forall i :: 0 <= i < |all| ==> Parsed(sources[i]) == Ok(all[i])
  }

  /** `e` is what the first source that does not parse is refused for. */
  ghost predicate FirstRefused(sources: seq<string>, e: TopicError) {
    exists i :: 0 <= i < |sources| && Parsed(sources[i]) == Err(e) && forall j :: 0 <= j < i ==> Parsed(sources[j]).Ok?
  }

  ghost predicate HasField(all: seq<Template>, n: string) {
    exists i :: 0 <= i < |all| && n in all[i].fieldNames
  }

  ghost predicate HasMultiField(all: seq<Template>, n: string) {
    exists i :: 0 <= i < |all| && all[i].namedMulti == Some(n)
  }

  method Build(canonicalSource: string, extraSources: seq<string>) returns (r: Result<Templates, TopicError>)
    ensures r.Ok? <==> forall s :: s in [canonicalSource] + extraSources ==> Parsed(s).Ok?
    ensures r.Err? ==> FirstRefused([canonicalSource] + extraSources, r.error)
    ensures r.Ok? ==>
      ParsedInOrder([canonicalSource] + extraSources, r.value.all) && r.value.canonical == r.value.all[0]
    ensures r.Ok? ==> forall n :: n in r.value.fieldNames <==> HasField(r.value.all, n)
    ensures r.Ok? ==> forall n :: n in r.value.multiFieldNames <==> HasMultiField(r.value.all, n)
  {
    var all := ParseAll([canonicalSource] + extraSources);
    if all.Err? {
      return Err(all.error);
    }
    var union, multi := CollectNames(all.value);
    return Ok(Templates(all.value[0], all.value, union, multi));
  }

  method ParseAll(sources: seq<string>) returns (r: Result<seq<Template>, TopicError>)
    ensures r.Ok? <==> forall s :: s in sources ==> Parsed(s).Ok?
    ensures r.Err? ==> FirstRefused(sources, r.error)
    ensures r.Ok? ==> ParsedInOrder(sources, r.value)
  {
    var all: seq<Template> := [];
    for i := 0 to |sources|
      invariant ParsedInOrder(sources[..i], all)
      invariant forall s :: s in sources[..i] ==> Parsed(s).Ok?
    {
      var t := Parse(sources[i]);
      if t.Err? {
        assert sources[i] in sources;
        forall j | 0 <= j < i ensures Parsed(sources[j]).Ok? {
          assert sources[..i][j] == sources[j];
        }
        return Err(t.error);
      }
      ParsedSnoc(sources, all, i, t.value);
      all := all + [t.value];
    }
    assert sources[..|sources|] == sources;
    return Ok(all);
  }

  lemma ParsedSnoc(sources: seq<string>, all: seq<Template>, i: nat, t: Template)
    requires i < |sources| && ParsedInOrder(sources[..i], all) && Parsed(sources[i]) == Ok(t)
    requires forall s :: s in sources[..i] ==> Parsed(s).Ok?
    ensures ParsedInOrder(sources[..i + 1], all + [t])
    ensures forall s :: s in sources[..i + 1] ==> Parsed(s).Ok?
  {
    assert sources[..i + 1] == sources[..i] + [sources[i]];
  }

  method CollectNames(all: seq<Template>) returns (union: set<string>, multi: set<string>)
    ensures forall n :: n in union <==> HasField(all, n)
    ensures forall n :: n in multi <==> HasMultiField(all, n)
  {
    union, multi := {}, {};
    for i := 0 to |all|
      invariant forall n :: n in union <==> HasField(all[..i], n)
      invariant forall n :: n in multi <==> HasMultiField(all[..i], n)
    {
      HasFieldSnoc(all, i);
      union := union + (set n | n in all[i].fieldNames);
      if all[i].namedMulti.Some? {
        multi := multi + {all[i].namedMulti.value};
      }
    }
    assert all[..|all|] == all;
  }

  lemma HasFieldSnoc(all: seq<Template>, i: nat)
    requires i < |all|
    ensures forall n :: HasField(all[..i + 1], n) <==> HasField(all[..i], n) || n in all[i].fieldNames
    ensures forall n :: HasMultiField(all[..i + 1], n) <==> HasMultiField(all[..i], n) || all[i].namedMulti == Some(n)
  {
    var before, after := all[..i], all[..i + 1];
    assert after == before + [all[i]];
    forall n ensures HasField(after, n) <==> HasField(before, n) || n in all[i].fieldNames {
      if HasField(before, n) {
        var j :| 0 <= j < |before| && n in before[j].fieldNames;
        assert n in after[j].fieldNames;
      }
      if n in all[i].fieldNames {
        assert n in after[i].fieldNames;
      }
    }
    forall n ensures HasMultiField(after, n) <==> HasMultiField(before, n) || all[i].namedMulti == Some(n) {
      if HasMultiField(before, n) {
        var j :| 0 <= j < |before| && before[j].namedMulti == Some(n);
        assert after[j].namedMulti == Some(n);
      }
      if all[i].namedMulti == Some(n) {
        assert after[i].namedMulti == Some(n);
      }
    }
  }

  // ---------------------------------------------------------------- the topic a send uses

  /** The first template written `raw`, or `|all|`. */
  function Find(all: seq<Template>, raw: string): (i: nat)
    ensures i <= |all|
    ensures forall j :: 0 <= j < i ==> all[j].raw != raw
    ensures i < |all| ==> all[i].raw == raw
  {
    if all == [] || all[0].raw == raw then 0 else Find(all[1..], raw) + 1
  }

  function Resolved(all: seq<Template>, override: Option<string>): (r: Result<nat, TopicError>)
    requires |all| >= 1
    ensures r.Ok? ==> r.value < |all| && all[r.value].publishable
  {
    var target := if override.None? then 0 else Find(all, override.value);
    if target == |all| then Err(UnknownTopic(override.value))
    else if all[target].publishable then Ok(target) else Err(SubscribeOnly)
  }

  /** The template at `i` is the first written `raw`. */
  ghost predicate FirstWritten(all: seq<Template>, raw: string, i: nat) {
    i < |all| && all[i].raw == raw && forall j :: 0 <= j < i ==> all[j].raw != raw
  }

  /** Which topic a send uses, by position: the first declared without an override, the first written so with one;
      refused when none is written so, or that one is subscribe-only. */
  ghost predicate ResolvesTo(all: seq<Template>, override: Option<string>, r: Result<nat, TopicError>)
    requires |all| >= 1
  {
    match override
    case None => r == if all[0].publishable then Ok(0) else Err(SubscribeOnly)
    case Some(raw) =>
      && (forall i: nat :: r == Ok(i) <==> FirstWritten(all, raw, i) && all[i].publishable)
      && (r == Err(UnknownTopic(raw)) <==> forall j :: 0 <= j < |all| ==> all[j].raw != raw)
      && (r == Err(SubscribeOnly) <==> exists i: nat :: FirstWritten(all, raw, i) && !all[i].publishable)
      && (r.Ok? || r == Err(UnknownTopic(raw)) || r == Err(SubscribeOnly))
  }

  lemma ResolvesExactly(all: seq<Template>, override: Option<string>)
    requires |all| >= 1
    ensures ResolvesTo(all, override, Resolved(all, override))
  {
    if override.Some? {
      var found := Find(all, override.value);
      if found < |all| {
        assert FirstWritten(all, override.value, found);
        assert all[found].raw == override.value;
      }
      forall i: nat | FirstWritten(all, override.value, i) ensures i == found {
      }
    }
  }

  method ResolvePublishTopic(all: seq<Template>, override: Option<string>) returns (r: Result<nat, TopicError>)
    requires |all| >= 1
    ensures r == Resolved(all, override) && ResolvesTo(all, override, r)
  {
    ResolvesExactly(all, override);
    var target := 0;
    if override.Some? {
      while target < |all| && all[target].raw != override.value
        invariant target <= |all|
        invariant forall j :: 0 <= j < target ==> all[j].raw != override.value
      {
        target := target + 1;
      }
      if target == |all| {
        return Err(UnknownTopic(override.value));
      }
    }
    return if all[target].publishable then Ok(target) else Err(SubscribeOnly);
  }

  // ---------------------------------------------------------------- the topic a key is on

  /** The first topic that matches, and its captures. */
  function FirstMatch(topics: seq<Topic>, key: string): (r: Option<(nat, Captures)>)
    ensures r.Some? ==> r.value.0 < |topics|
  {
    if topics == [] then None
    else
      match CapturesOf(topics[0], key)
      case Some(caps) => Some((0, caps))
      case None =>
        match FirstMatch(topics[1..], key)
        case None => None
        case Some(found) => Some((found.0 + 1, found.1))
  }

  ghost predicate MatchesTopic(topic: Topic, key: string) {
    exists caps :: MatchesWith(Compiled(topic), key, caps)
  }

  lemma MatchesTopicByChunk(topic: Topic, key: string)
    requires WellFormed(topic) && LineFree(key)
    ensures MatchesTopic(topic, key) <==> CapturesOf(topic, key).Some?
  {
    if CapturesOf(topic, key).Some? {
      MatchByChunk(topic, key, CapturesOf(topic, key).value);
    }
    forall caps | MatchesWith(Compiled(topic), key, caps) ensures CapturesOf(topic, key) == Some(caps) {
      MatchByChunk(topic, key, caps);
    }
  }

  ghost predicate NoneMatches(topics: seq<Topic>, key: string) {
    forall j :: 0 <= j < |topics| ==> !MatchesTopic(topics[j], key)
  }

  lemma NoneMatchesStep(topics: seq<Topic>, key: string, i: nat)
    requires 0 < i <= |topics|
    ensures NoneMatches(topics[..i], key) <==> !MatchesTopic(topics[0], key) && NoneMatches(topics[1..][..i - 1], key)
  {
    var all, rest := topics[..i], topics[1..][..i - 1];
    assert all == [topics[0]] + rest;
    if NoneMatches(all, key) {
      forall j | 0 <= j < |rest| ensures !MatchesTopic(rest[j], key) {
        assert rest[j] == all[j + 1];
      }
      assert all[0] == topics[0];
    }
  }

  /** What "the first match is `i`" means. */
  ghost predicate FirstIs(topics: seq<Topic>, key: string, i: nat, caps: Captures) {
    i < |topics| && MatchesWith(Compiled(topics[i]), key, caps) && NoneMatches(topics[..i], key)
  }

  lemma FirstIsStep(topics: seq<Topic>, key: string, i: nat, caps: Captures)
    requires topics != [] && i > 0
    ensures FirstIs(topics, key, i, caps) <==> !MatchesTopic(topics[0], key) && FirstIs(topics[1..], key, i - 1, caps)
  {
    if i < |topics| {
      NoneMatchesStep(topics, key, i);
    }
  }

  /** `Templates.match`: the declared order decides. */
  lemma {:induction false} MatchIsFirst(topics: seq<Topic>, key: string, i: nat, caps: Captures)
    requires forall j :: 0 <= j < |topics| ==> WellFormed(topics[j])
    requires LineFree(key)
    ensures FirstMatch(topics, key) == Some((i, caps)) <==> FirstIs(topics, key, i, caps)
  {
    if topics != [] {
      MatchesTopicByChunk(topics[0], key);
      if i == 0 {
        MatchByChunk(topics[0], key, caps);
        assert topics[..0] == [];
      } else {
        MatchIsFirst(topics[1..], key, i - 1, caps);
        FirstIsStep(topics, key, i, caps);
      }
    }
  }

  method Match(topics: seq<Topic>, key: string) returns (r: Option<(nat, Captures)>)
    ensures r == FirstMatch(topics, key)
  {
    for i := 0 to |topics|
      invariant FirstMatch(topics, key) ==
        match FirstMatch(topics[i..], key) case None => None case Some(found) => Some((found.0 + i, found.1))
    {
      assert topics[i..][1..] == topics[i + 1..];
      var captured := CapturesOf(topics[i], key);
      if captured.Some? {
        return Some((i, captured.value));
      }
    }
    return None;
  }
}
