/** A message's slot fields leave the payload for the key, and come back
    (zeared/message/_message_render.py, _message_send.py and message.py). */
module Message {
  import opened Grammar
  import opened Regex
  import opened Template
  import opened Templates
  import opened Wrappers
  import Compile

  /** A Python value: `None`, a `str`, or one of another type with its `str()` form. */
  datatype Value = Nothing | Str(text: string) | Other(kind: string, shown: string)

  function PyStr(v: Value): string {
    match v
    case Nothing => "None"
    case Str(t) => t
    case Other(_, s) => s
  }

  function Kind(v: Value): string {
    match v
    case Nothing => "NoneType"
    case Str(_) => "str"
    case Other(k, _) => k
  }

  /** A declared field: its wire key, its Python type, and its codecs. `None` is a raised error. */
  datatype Field = Field(
    wire: string,
    kind: Option<string>,
    serialize: Value -> Option<Value>,
    deserialize: string -> Option<Value>,
    dumped: Value -> Value,
    loaded: Value -> Option<Value>,
    missing: Option<Value>)

  /** Attribute name to value. */
  type Instance = map<string, Value>

  /** Wire key to carried value. */
  type Payload = map<string, Value>

  datatype MessageClass = MessageClass(fields: map<string, Field>, topics: seq<Topic>)

  datatype DecodeError = NoDeclaredTopic | BadCapture | BadPayload

  /** The payload key a slot or field occupies. */
  function WireOf(cls: MessageClass, n: string): string {
    if n in cls.fields then cls.fields[n].wire else n
  }

  ghost predicate WiresDistinct(cls: MessageClass) {
    forall a, b :: a in cls.fields && b in cls.fields && WireOf(cls, a) == WireOf(cls, b) ==> a == b
  }

  // ---------------------------------------------------------------- a slot value as a key segment

  function FieldOf(cls: MessageClass, n: string): Option<Field> {
    if n in cls.fields then Some(cls.fields[n]) else None
  }

  function SlotString(field: Option<Field>, v: Value): string {
    if field.None? || v.Str? then PyStr(v)
    else if field.value.kind != Some(Kind(v)) then PyStr(v)
    else match field.value.serialize(v) case Some(c) => PyStr(c) case None => PyStr(v)
  }

  function SlotText(cls: MessageClass, n: string, v: Value): Option<string> {
    if v.Nothing? then None else Some(SlotString(FieldOf(cls, n), v))
  }

  function SlotTexts(cls: MessageClass, names: seq<string>, values: map<string, Value>): map<string, Option<string>> {
    map n | n in values && n in names :: SlotText(cls, n, values[n])
  }

  method StringifySlots(cls: MessageClass, t: Template, values: map<string, Value>)
    returns (out: map<string, Option<string>>)
    ensures out == SlotTexts(cls, t.fieldNames, values)
  {
    var names := t.fieldNames;
    out := map[];
    for i := 0 to |names|
      invariant out == SlotTexts(cls, names[..i], values)
    {
      assert names[..i + 1] == names[..i] + [names[i]];
      if names[i] in values {
        out := out[names[i] := SlotText(cls, names[i], values[names[i]])];
      }
    }
    assert names[..|names|] == names;
  }

  /** The instance's own values for field-backed slots. */
  function SlotValues(cls: MessageClass, msg: Instance, names: seq<string>): map<string, Value> {
    map n | n in msg && n in names && n in cls.fields && msg[n] != Nothing :: msg[n]
  }

  method InstanceSlotValues(cls: MessageClass, msg: Instance, t: Template) returns (out: map<string, Value>)
    ensures out == SlotValues(cls, msg, t.fieldNames)
  {
    var names := t.fieldNames;
    out := map[];
    for i := 0 to |names|
      invariant out == SlotValues(cls, msg, names[..i])
    {
      assert names[..i + 1] == names[..i] + [names[i]];
      if names[i] in cls.fields && names[i] in msg && msg[names[i]] != Nothing {
        out := out[names[i] := msg[names[i]]];
      }
    }
    assert names[..|names|] == names;
  }

  /** A single-segment slot's text holds a `/`. */
  predicate Splits(t: Template, n: string, text: Option<string>) {
    text.Some? && Some(n) != t.namedMulti && '/' in text.value
  }

  predicate AnySplit(t: Template, rendered: map<string, Option<string>>) {
    exists n :: n in rendered && Splits(t, n, rendered[n])
  }

  method RejectSegmentSplit(t: Template, rendered: map<string, Option<string>>) returns (split: bool)
    ensures split == AnySplit(t, rendered)
  {
    var todo := rendered.Keys;
    while todo != {}
      invariant todo <= rendered.Keys
      invariant forall n :: n in rendered && n !in todo ==> !Splits(t, n, rendered[n])
    {
      var n :| n in todo;
      if Splits(t, n, rendered[n]) {
        return true;
      }
      todo := todo - {n};
    }
    return false;
  }

  /** What `str.format` shows of each value: `None` as `'None'`. */
  function Texts(rendered: map<string, Option<string>>): map<string, string> {
    map n | n in rendered :: if rendered[n].Some? then rendered[n].value else "None"
  }

  function PublishKey(cls: MessageClass, t: Template, values: map<string, Value>): Result<string, TopicError> {
    var rendered := SlotTexts(cls, t.fieldNames, values);
    if AnySplit(t, rendered) then Err(SegmentSplit) else Rendered(t, Texts(rendered))
  }

  method RenderPublishKey(cls: MessageClass, t: Template, values: map<string, Value>)
    returns (key: Result<string, TopicError>)
    ensures key == PublishKey(cls, t, values)
  {
    var rendered := StringifySlots(cls, t, values);
    var split := RejectSegmentSplit(t, rendered);
    return if split then Err(SegmentSplit) else Rendered(t, Texts(rendered));
  }

  // ---------------------------------------------------------------- sending

  function Dumped(cls: MessageClass, msg: Instance): Payload
    requires WiresDistinct(cls) && msg.Keys == cls.fields.Keys
  {
    map a | a in cls.fields :: WireOf(cls, a) := cls.fields[a].dumped(msg[a])
  }

  function SlotWireKeys(cls: MessageClass, names: seq<string>): set<string> {
    set n | n in names :: WireOf(cls, n)
  }

  function Compiles(topics: seq<Topic>): (all: seq<Template>)
    ensures |all| == |topics| && forall i :: 0 <= i < |all| ==> all[i] == Compiled(topics[i])
  {
    seq(|topics|, i requires 0 <= i < |topics| => Compiled(topics[i]))
  }

  /** The key and the payload of a put. */
  function Sent(cls: MessageClass, msg: Instance, override: Option<string>): Result<(string, Payload), TopicError>
    requires WiresDistinct(cls) && msg.Keys == cls.fields.Keys && |cls.topics| >= 1
  {
    match Resolved(Compiles(cls.topics), override)
    case Err(e) => Err(e)
    case Ok(i) =>
      var t := Compiled(cls.topics[i]);
      match PublishKey(cls, t, SlotValues(cls, msg, t.fieldNames))
      case Err(e) => Err(e)
      case Ok(key) => Ok((key, Dumped(cls, msg) - SlotWireKeys(cls, t.fieldNames)))
  }

  method Send(cls: MessageClass, msg: Instance, override: Option<string>)
    returns (r: Result<(string, Payload), TopicError>)
    requires WiresDistinct(cls) && msg.Keys == cls.fields.Keys && |cls.topics| >= 1
    ensures r == Sent(cls, msg, override)
  {
    var data := Dumped(cls, msg);
    var resolved := ResolvePublishTopic(Compiles(cls.topics), override);
    if resolved.Err? {
      return Err(resolved.error);
    }
    var t := Compiled(cls.topics[resolved.value]);
    var values := InstanceSlotValues(cls, msg, t);
    var key := RenderPublishKey(cls, t, values);
    if key.Err? {
      return Err(key.error);
    }
    return Ok((key.value, data - SlotWireKeys(cls, t.fieldNames)));
  }

  predicate AnySlotMissing(t: Template, slots: map<string, Value>) {
    exists n :: n in t.fieldNames && (n !in slots || slots[n] == Nothing)
  }

  /** The key that slot values alone name. */
  function ConcreteTopic(cls: MessageClass, slots: map<string, Value>, override: Option<string>)
    : Result<string, TopicError>
    requires |cls.topics| >= 1
  {
    match Resolved(Compiles(cls.topics), override)
    case Err(e) => Err(e)
    case Ok(i) =>
      var t := Compiled(cls.topics[i]);
      if AnySlotMissing(t, slots) then Err(MissingField) else PublishKey(cls, t, slots)
  }

  method RejectMissing(t: Template, slots: map<string, Value>) returns (missing: bool)
    ensures missing == AnySlotMissing(t, slots)
  {
    for i := 0 to |t.fieldNames|
      invariant forall j :: 0 <= j < i ==> t.fieldNames[j] in slots && slots[t.fieldNames[j]] != Nothing
    {
      var name := t.fieldNames[i];
      if name !in slots || slots[name] == Nothing {
        return true;
      }
    }
    return false;
  }

  method RenderSlots(cls: MessageClass, slots: map<string, Value>, override: Option<string>)
    returns (key: Result<string, TopicError>)
    requires |cls.topics| >= 1
    ensures key == ConcreteTopic(cls, slots, override)
  {
    var resolved := ResolvePublishTopic(Compiles(cls.topics), override);
    if resolved.Err? {
      return Err(resolved.error);
    }
    var t := Compiled(cls.topics[resolved.value]);
    var missing := RejectMissing(t, slots);
    if missing {
      return Err(MissingField);
    }
    key := RenderPublishKey(cls, t, slots);
  }

  // ---------------------------------------------------------------- decoding

  function Coerced(cls: MessageClass, n: string, raw: string): Option<Value> {
    if n in cls.fields then cls.fields[n].deserialize(raw) else Some(Str(raw))
  }

  predicate AllCoerce(cls: MessageClass, captures: Captures) {
    forall n :: n in captures ==> Coerced(cls, n, captures[n]).Some?
  }

  /** The captures as typed values, by attribute name. */
  function CoercedCaptures(cls: MessageClass, captures: Captures): map<string, Value>
    requires AllCoerce(cls, captures)
  {
    map n | n in captures :: Coerced(cls, n, captures[n]).value
  }

  /** Each capture through its field, or as it stands where there is none. */
  ghost predicate TypedAs(cls: MessageClass, captures: Captures, typed: map<string, Value>) {
    && typed.Keys == captures.Keys
    && forall n :: n in captures ==>
         if n in cls.fields then cls.fields[n].deserialize(captures[n]) == Some(typed[n])
         else typed[n] == Str(captures[n])
  }

  method CoerceCaptures(cls: MessageClass, captures: Captures) returns (r: Option<map<string, Value>>)
    ensures r.Some? <==> AllCoerce(cls, captures)
    ensures r.Some? ==> r.value == CoercedCaptures(cls, captures)
    ensures r.Some? ==> TypedAs(cls, captures, r.value)
  {
    var todo, out := captures.Keys, map[];
    while todo != {}
      invariant todo <= captures.Keys
      invariant forall n :: n in captures && n !in todo ==> Coerced(cls, n, captures[n]).Some?
      invariant out == map n | n in captures && n !in todo :: Coerced(cls, n, captures[n]).value
    {
      var n :| n in todo;
      var value := Coerced(cls, n, captures[n]);
      if value.None? {
        return None;
      }
      out := out[n := value.value];
      todo := todo - {n};
    }
    return Some(out);
  }

  /** Each field-backed capture, under its field's wire key. */
  function Injection(cls: MessageClass, coerced: map<string, Value>): Payload
    requires WiresDistinct(cls)
  {
    map n | n in coerced && n in cls.fields :: WireOf(cls, n) := coerced[n]
  }

  method Inject(cls: MessageClass, payload: Payload, coerced: map<string, Value>) returns (out: Payload)
    requires WiresDistinct(cls)
    ensures out == payload + Injection(cls, coerced)
  {
    var todo := coerced.Keys;
    out := payload;
    while todo != {}
      invariant todo <= coerced.Keys
      invariant out == payload + Injection(cls, coerced - todo)
    {
      var n :| n in todo;
      OneMore(coerced, todo, n);
      InjectionStep(cls, payload, coerced - todo, n, coerced[n]);
      if n in cls.fields {
        out := out[WireOf(cls, n) := coerced[n]];
      }
      todo := todo - {n};
    }
    assert coerced - {} == coerced;
  }

  lemma OneMore(m: map<string, Value>, todo: set<string>, n: string)
    requires todo <= m.Keys && n in todo
    ensures m - (todo - {n}) == (m - todo)[n := m[n]] && n !in m - todo
  {
  }

  lemma InjectionGrows(cls: MessageClass, before: map<string, Value>, n: string, v: Value)
    requires WiresDistinct(cls) && n !in before && n in cls.fields
    ensures Injection(cls, before[n := v]) == Injection(cls, before)[WireOf(cls, n) := v]
  {
  }

  lemma InjectionSkips(cls: MessageClass, before: map<string, Value>, n: string, v: Value)
    requires WiresDistinct(cls) && n !in before && n !in cls.fields
    ensures Injection(cls, before[n := v]) == Injection(cls, before)
  {
  }

  lemma PlusOne(payload: Payload, m: Payload, k: string, v: Value)
    ensures payload + m[k := v] == (payload + m)[k := v]
  {
  }

  lemma InjectionStep(cls: MessageClass, payload: Payload, before: map<string, Value>, n: string, v: Value)
    requires WiresDistinct(cls) && n !in before
    ensures payload + Injection(cls, before[n := v])
         == if n in cls.fields then (payload + Injection(cls, before))[WireOf(cls, n) := v]
            else payload + Injection(cls, before)
  {
    if n in cls.fields {
      InjectionGrows(cls, before, n, v);
      PlusOne(payload, Injection(cls, before), WireOf(cls, n), v);
    } else {
      InjectionSkips(cls, before, n, v);
    }
  }

  function LoadedField(f: Field, payload: Payload): Option<Value> {
    if f.wire in payload then f.loaded(payload[f.wire]) else f.missing
  }

  /** seared's `load`. */
  function Loaded(cls: MessageClass, payload: Payload): Option<Instance> {
    if forall a :: a in cls.fields ==> LoadedField(cls.fields[a], payload).Some? then
      Some(map a | a in cls.fields :: LoadedField(cls.fields[a], payload).value)
    else None
  }

  function Decoded(cls: MessageClass, payload: Payload, key: string): Result<(Instance, Captures), DecodeError>
    requires WiresDistinct(cls)
  {
    match FirstMatch(cls.topics, key)
    case None => Err(NoDeclaredTopic)
    case Some(found) =>
      if !AllCoerce(cls, found.1) then Err(BadCapture)
      else
        match Loaded(cls, payload + Injection(cls, CoercedCaptures(cls, found.1)))
        case None => Err(BadPayload)
        case Some(msg) => Ok((msg, found.1))
  }

  method Decode(cls: MessageClass, payload: Payload, key: string) returns (r: Result<(Instance, Captures), DecodeError>)
    requires WiresDistinct(cls)
    ensures r == Decoded(cls, payload, key)
  {
    var found := Match(cls.topics, key);
    if found.None? {
      return Err(NoDeclaredTopic);
    }
    var captured := found.value.1;
    var coerced := CoerceCaptures(cls, captured);
    if coerced.None? {
      return Err(BadCapture);
    }
    var injected := Inject(cls, payload, coerced.value);
    var loaded := Loaded(cls, injected);
    if loaded.None? {
      return Err(BadPayload);
    }
    return Ok((loaded.value, captured));
  }
}
