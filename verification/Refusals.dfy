/** What the topic parser refuses, over every template string, and what it accepts
    (zeared/_template/_template.py). */
module Refusals {
  import opened Compile
  import opened Format
  import opened Grammar
  import opened KeyExpr
  import opened Template
  import opened Wrappers

  // ---------------------------------------------------------------- field texts

  /** The name a field's text gives: alone, or with an empty format spec. */
  ghost predicate Gives(text: string, n: string) {
    ValidName(n) && (text == n || text == n + ":")
  }

  ghost predicate Nameable(text: string) {
    exists n :: Gives(text, n)
  }

  lemma FieldNameExactly(text: string, n: string)
    ensures FieldName(text) == Some(n) <==> Gives(text, n)
    ensures FieldName(text) == None <==> !Nameable(text)
  {
    if Gives(text, n) {
      GivesOnce(text, n);
    }
    if Nameable(text) {
      var m :| Gives(text, m);
      GivesOnce(text, m);
    }
    if FieldName(text).Some? {
      var m := FieldName(text).value;
      if text != m {
        assert text == m + ":";
      }
      assert Gives(text, m);
    }
  }

  lemma GivesOnce(text: string, n: string)
    requires Gives(text, n)
    ensures FieldName(text) == Some(n)
  {
    if text != n {
      assert text[|text| - 1] == ':' && !NameChar(':');
      assert text[..|text| - 1] == n;
    }
  }

  /** The first `k` texts each give a name, and no two the same. */
  ghost predicate FineUpTo(texts: seq<string>, k: nat)
    requires k <= |texts|
  {
    && (forall j :: 0 <= j < k ==> Nameable(texts[j]))
    && (forall i, j, n :: 0 <= i < j < k && Gives(texts[i], n) ==> !Gives(texts[j], n))
  }

  /** `text` is the first that is at fault, and it gives no name. */
  ghost predicate BadAt(texts: seq<string>, k: nat, text: string) {
    k < |texts| && texts[k] == text && !Nameable(text) && FineUpTo(texts, k)
  }

  /** The text at `k` is the first at fault, and it gives the name `n` that an earlier one gave. */
  ghost predicate RepeatAt(texts: seq<string>, k: nat, n: string) {
    k < |texts| && Gives(texts[k], n) && FineUpTo(texts, k) && exists j :: 0 <= j < k && Gives(texts[j], n)
  }

  ghost predicate NamesOf(texts: seq<string>, names: seq<string>) {
    |names| == |texts| && forall i :: 0 <= i < |texts| ==> Gives(texts[i], names[i])
  }

  /** `r` is what the field texts call for. */
  ghost predicate Calls(texts: seq<string>, r: Result<seq<string>, TopicError>) {
    match r
    case Ok(names) => FineUpTo(texts, |texts|) && NamesOf(texts, names)
    case Err(BadField(text)) => exists k :: BadAt(texts, k, text)
    case Err(DuplicateField(n)) => exists k :: RepeatAt(texts, k, n)
    case _ => false
  }

  lemma FineGrows(texts: seq<string>, k: nat)
    requires k < |texts| && FineUpTo(texts, k) && Nameable(texts[k])
    requires forall j, n :: 0 <= j < k && Gives(texts[j], n) ==> !Gives(texts[k], n)
    ensures FineUpTo(texts, k + 1)
  {
    forall i, j, n | 0 <= i < j < k + 1 && Gives(texts[i], n) ensures !Gives(texts[j], n) {
    }
  }

  /** One more field text, after `k` fine ones that gave `seen`. */
  lemma NextField(texts: seq<string>, k: nat, seen: seq<string>)
    requires k < |texts| && |seen| == k && FineUpTo(texts, k)
    requires forall i :: 0 <= i < k ==> Gives(texts[i], seen[i])
    ensures match FieldName(texts[k])
      case None => BadAt(texts, k, texts[k])
      case Some(n) => Gives(texts[k], n) && if n in seen then RepeatAt(texts, k, n) else FineUpTo(texts, k + 1)
  {
    match FieldName(texts[k])
    case None => FieldNameExactly(texts[k], "");
    case Some(n) =>
      FieldNameExactly(texts[k], n);
      if n in seen {
        var j :| 0 <= j < |seen| && seen[j] == n;
        assert Gives(texts[j], n);
      } else {
        forall j, m | 0 <= j < k && Gives(texts[j], m) ensures !Gives(texts[k], m) {
          GivesOnce(texts[j], m);
          GivesOnce(texts[j], seen[j]);
          if Gives(texts[k], m) {
            GivesOnce(texts[k], m);
          }
        }
        FineGrows(texts, k);
      }
  }

  lemma {:induction false} FieldsCall(done: seq<string>, parts: seq<Part>, seen: seq<string>)
    requires NamesOf(done, seen) && FineUpTo(done + FieldTexts(parts), |done|)
    ensures Calls(done + FieldTexts(parts), Fields(parts, seen))
    decreases |parts|
  {
    var texts := done + FieldTexts(parts);
    if parts == [] {
      assert texts == done;
    } else if parts[0].field.None? {
      assert FieldTexts(parts) == FieldTexts(parts[1..]);
      FieldsCall(done, parts[1..], seen);
    } else {
      var text := parts[0].field.value;
      assert FieldTexts(parts) == [text] + FieldTexts(parts[1..]);
      assert texts == (done + [text]) + FieldTexts(parts[1..]);
      NextField(texts, |done|, seen);
      match FieldName(text)
      case None =>
      case Some(n) =>
        if n !in seen {
          FieldsCall(done + [text], parts[1..], seen + [n]);
        }
    }
  }

  ghost predicate Fault(texts: seq<string>, r: Result<seq<string>, TopicError>, k: nat) {
    match r
    case Err(BadField(text)) => BadAt(texts, k, text)
    case Err(DuplicateField(n)) => RepeatAt(texts, k, n)
    case _ => false
  }

  lemma FaultAt(texts: seq<string>, r: Result<seq<string>, TopicError>) returns (k: nat)
    requires Calls(texts, r) && r.Err?
    ensures Fault(texts, r, k) && k < |texts| && FineUpTo(texts, k)
    ensures forall l :: k < l <= |texts| ==> !FineUpTo(texts, l)
  {
    match r
    case Err(BadField(text)) => k :| BadAt(texts, k, text);
    case Err(DuplicateField(n)) =>
      k :| RepeatAt(texts, k, n);
      var j :| 0 <= j < k && Gives(texts[j], n);
      assert Gives(texts[k], n);
  }

  lemma SameNames(texts: seq<string>, a: seq<string>, b: seq<string>)
    requires NamesOf(texts, a) && NamesOf(texts, b)
    ensures a == b
  {
    forall i | 0 <= i < |texts| ensures a[i] == b[i] {
      GivesOnce(texts[i], a[i]);
      GivesOnce(texts[i], b[i]);
    }
  }

  /** At most one verdict is called for. */
  lemma OneVerdict(texts: seq<string>, r: Result<seq<string>, TopicError>, q: Result<seq<string>, TopicError>)
    requires Calls(texts, r) && Calls(texts, q)
    ensures r == q
  {
    if r.Ok? && q.Ok? {
      SameNames(texts, r.value, q.value);
    } else if r.Err? && q.Err? {
      var k := FaultAt(texts, r);
      var l := FaultAt(texts, q);
      assert k == l;
      if r.error.DuplicateField? && q.error.DuplicateField? {
        GivesOnce(texts[k], r.error.name);
        GivesOnce(texts[k], q.error.name);
      }
    } else {
      var k := FaultAt(texts, if r.Err? then r else q);
    }
  }

  /** The fields of a parsed body are read exactly as their texts call for. */
  lemma FieldsExactly(parts: seq<Part>, r: Result<seq<string>, TopicError>)
    ensures Fields(parts, []) == r <==> Calls(FieldTexts(parts), r)
  {
    assert [] + FieldTexts(parts) == FieldTexts(parts);
    FieldsCall([], parts, []);
    if Calls(FieldTexts(parts), r) {
      OneVerdict(FieldTexts(parts), r, Fields(parts, []));
    }
  }

  // ---------------------------------------------------------------- braces

  /** What a body is spelled with: a character that is no brace, a doubled brace, or a field. */
  datatype Token = Plain(c: char) | Doubled(c: char) | FieldOf(text: string)

  predicate GoodToken(t: Token) {
    match t
    case Plain(c) => c != '{' && c != '}'
    case Doubled(c) => c == '{' || c == '}'
    case FieldOf(text) => '{' !in text && '}' !in text
  }

  function Spelling(t: Token): string {
    match t
    case Plain(c) => [c]
    case Doubled(c) => [c, c]
    case FieldOf(text) => "{" + text + "}"
  }

  function Spelled(tokens: seq<Token>): string {
    if tokens == [] then "" else Spelling(tokens[0]) + Spelled(tokens[1..])
  }

  ghost predicate GoodTokens(tokens: seq<Token>) {
    forall i :: 0 <= i < |tokens| ==> GoodToken(tokens[i])
  }

  function FieldsIn(tokens: seq<Token>): seq<string> {
    if tokens == [] then []
    else (if tokens[0].FieldOf? then [tokens[0].text] else []) + FieldsIn(tokens[1..])
  }

  /** Each of its braces is doubled or belongs to a field. */
  ghost predicate Matched(s: string) {
    exists tokens :: GoodTokens(tokens) && Spelled(tokens) == s
  }

  lemma {:induction false} ScanSpelled(tokens: seq<Token>)
    requires GoodTokens(tokens)
    ensures Scan(Spelled(tokens)).Some? && FieldTexts(Scan(Spelled(tokens)).value) == FieldsIn(tokens)
  {
    if tokens != [] {
      var rest := Spelled(tokens[1..]);
      ScanSpelled(tokens[1..]);
      match tokens[0]
      case Plain(c) =>
        ScanText([c], rest);
        PrefixedFields([c], Scan(rest).value);
      case Doubled(c) => ScanDoubled(c, rest);
      case FieldOf(text) => ScanField(text, rest);
    }
  }

  lemma PrefixedFields(t: string, parts: seq<Part>)
    ensures FieldTexts(Prefixed(t, parts)) == FieldTexts(parts)
  {
    if parts != [] {
      assert Prefixed(t, parts)[1..] == parts[1..];
    } else {
      assert Prefixed(t, parts)[1..] == [];
    }
  }

  lemma ScanDoubled(c: char, rest: string)
    requires (c == '{' || c == '}') && Scan(rest).Some?
    ensures Scan([c, c] + rest) == Some([Part([c], None)] + Scan(rest).value)
    ensures FieldTexts([Part([c], None)] + Scan(rest).value) == FieldTexts(Scan(rest).value)
  {
    var s := [c, c] + rest;
    assert s[2..] == rest && s[..1] == [c];
    var parts := [Part([c], None)] + Scan(rest).value;
    assert parts[1..] == Scan(rest).value;
  }

  lemma ScanOneField(s: string, i: nat)
    requires s != "" && s[0] == '{' && (|s| >= 2 ==> s[1] != '{')
    requires Close(s[1..]) == Some(i) && i + 2 <= |s| && Scan(s[i + 2..]).Some?
    ensures Scan(s) == Some([Part("", Some(s[1..i + 1]))] + Scan(s[i + 2..]).value)
  {
  }

  lemma FieldInFront(text: string, rest: string)
    requires '{' !in text
    ensures var s := "{" + text + "}" + rest;
      && s[0] == '{' && s[1] != '{' && s[1..] == text + "}" + rest
      && s[1..|text| + 1] == text && s[|text| + 2..] == rest && |text| + 2 <= |s|
  {
    if text != "" {
      assert ("{" + text + "}" + rest)[1] == text[0] && text[0] in text;
    }
  }

  lemma ScanField(text: string, rest: string)
    requires '{' !in text && '}' !in text && Scan(rest).Some?
    ensures Scan("{" + text + "}" + rest) == Some([Part("", Some(text))] + Scan(rest).value)
    ensures FieldTexts([Part("", Some(text))] + Scan(rest).value) == [text] + FieldTexts(Scan(rest).value)
  {
    CloseName(text, rest);
    FieldInFront(text, rest);
    ScanOneField("{" + text + "}" + rest, |text|);
    var parts := [Part("", Some(text))] + Scan(rest).value;
    assert parts[1..] == Scan(rest).value;
  }

  lemma {:induction false} CloseIsClean(s: string)
    requires Close(s).Some?
    ensures '{' !in s[..Close(s).value] && '}' !in s[..Close(s).value]
  {
    if s[0] != '}' {
      CloseIsClean(s[1..]);
      var i := Close(s[1..]).value;
      assert s[..i + 1] == [s[0]] + s[1..][..i];
    }
  }

  lemma OneMore(t: Token, rest: seq<Token>)
    requires GoodToken(t) && GoodTokens(rest)
    ensures GoodTokens([t] + rest) && Spelled([t] + rest) == Spelling(t) + Spelled(rest)
  {
    assert ([t] + rest)[1..] == rest;
  }

  lemma FieldSlices(s: string, i: nat)
    requires s != "" && s[0] == '{' && Close(s[1..]) == Some(i)
    ensures i + 2 <= |s| && GoodToken(FieldOf(s[1..][..i])) && s == Spelling(FieldOf(s[1..][..i])) + s[i + 2..]
  {
    CloseIsClean(s[1..]);
    assert s[i + 1] == '}';
    assert s == "{" + s[1..][..i] + "}" + s[i + 2..];
  }

  lemma {:induction false} ScanReads(s: string) returns (tokens: seq<Token>)
    requires Scan(s).Some?
    ensures GoodTokens(tokens) && Spelled(tokens) == s
    decreases |s|
  {
    if s == "" {
      return [];
    }
    var token, n := Plain(s[0]), 1;
    if |s| >= 2 && s[0] in "{}" && s[1] == s[0] {
      token, n := Doubled(s[0]), 2;
      assert s == [s[0], s[0]] + s[2..];
    } else if s[0] == '{' {
      var i := Close(s[1..]).value;
      FieldSlices(s, i);
      token, n := FieldOf(s[1..][..i]), i + 2;
    } else {
      assert s == [s[0]] + s[1..];
    }
    var rest := ScanReads(s[n..]);
    OneMore(token, rest);
    tokens := [token] + rest;
  }

  /** A body scans exactly when its braces match. */
  lemma ScanExactly(s: string)
    ensures Scan(s).Some? <==> Matched(s)
  {
    if Scan(s).Some? {
      var tokens := ScanReads(s);
    }
    if Matched(s) {
      var tokens :| GoodTokens(tokens) && Spelled(tokens) == s;
      ScanSpelled(tokens);
    }
  }

  // ---------------------------------------------------------------- the tail

  /** `raw` is `body` and then the tail's marker, with the slash before it if there is one. */
  ghost predicate CutAs(raw: string, body: string, tail: Tail) {
    match tail
    case Anonymous => raw == body + "/**" || (raw == "**" && body == "")
    case Named(n) =>
      ValidName(n) && (raw == body + "/" + TailSlot(n) || (raw == body + TailSlot(n) && !EndsWith(body, "/")))
    case NoTail =>
      && raw == body && raw != "**" && !EndsWith(raw, "/**")
      && forall p, n :: ValidName(n) ==> raw != p + TailSlot(n)
  }

  lemma NamedTailExactly(s: string)
    ensures IsNamedTail(s) <==> exists n :: ValidName(n) && s == TailSlot(n)
  {
    if IsNamedTail(s) {
      var n := s[1..|s| - 3];
      assert s == "{" + n + s[|s| - 3..];
      assert s == TailSlot(n);
    }
    if n :| ValidName(n) && s == TailSlot(n) {
      TailSlotShape(n);
    }
  }

  lemma OneCharLess(p: string, slot: string)
    ensures if p == "" then p + slot == slot else (p + slot)[1..] == p[1..] + slot
  {
  }

  lemma OneCharMore(s: string, i: nat, slot: string)
    requires i < |s| && s[1..] == s[1..][..i] + slot
    ensures s == s[..i + 1] + slot
  {
    assert s == [s[0]] + s[1..] && s[..i + 1] == [s[0]] + s[1..][..i];
  }

  lemma {:induction false} TailStartMeans(s: string)
    ensures match TailStart(s)
      case None => forall p, n :: ValidName(n) ==> s != p + TailSlot(n)
      case Some(i) => exists n :: ValidName(n) && s == s[..i] + TailSlot(n)
  {
    NamedTailExactly(s);
    if s == "" {
    } else if IsNamedTail(s) {
      var n :| ValidName(n) && s == TailSlot(n);
      assert s == s[..0] + TailSlot(n);
    } else {
      TailStartMeans(s[1..]);
      match TailStart(s[1..])
      case None =>
        forall p, n | ValidName(n) ensures s != p + TailSlot(n) {
          OneCharLess(p, TailSlot(n));
        }
      case Some(i) =>
        var n :| ValidName(n) && s[1..] == s[1..][..i] + TailSlot(n);
        OneCharMore(s, i, TailSlot(n));
    }
  }

  lemma SlashEnds(pre: string)
    ensures EndsWith(pre, "/") <==> pre != "" && pre[|pre| - 1] == '/'
    ensures EndsWith(pre, "/") ==> pre == Unslashed(pre) + "/"
  {
    if pre != "" {
      assert pre[|pre| - 1..] == [pre[|pre| - 1]];
    }
  }

  lemma TwoMarkers(pre: string, n: string, body: string)
    requires pre == body + "/" || (pre == body && !EndsWith(body, "/"))
    ensures Unslashed(pre) == body
  {
    SlashEnds(body);
  }

  lemma StarsEnd(body: string)
    ensures EndsWith(body + "/**", "/**") && (body + "/**")[..|body|] == body && body + "/**" != "**"
  {
    var s := body + "/**";
    assert s[|s| - 3..] == "/**";
  }

  /** A template string is cut in one way only. */
  lemma CutOnce(raw: string, body: string, tail: Tail)
    requires CutAs(raw, body, tail)
    ensures CutTail(raw) == (body, tail)
  {
    match tail
    case Anonymous =>
      if raw != "**" {
        StarsEnd(body);
      }
    case Named(n) =>
      var pre := if raw == (body + "/") + TailSlot(n) then body + "/" else body;
      assert raw == pre + TailSlot(n);
      NamedCut(pre, n);
      TwoMarkers(pre, n, body);
    case NoTail => TailStartMeans(raw);
  }

  /** Where the parser cuts a template string. */
  lemma CutMeans(raw: string)
    ensures var (body, tail) := CutTail(raw); CutAs(raw, body, tail)
  {
    if raw == "**" {
    } else if EndsWith(raw, "/**") {
      assert raw == raw[..|raw| - 3] + raw[|raw| - 3..];
    } else {
      TailStartMeans(raw);
      if TailStart(raw).Some? {
        var i := TailStart(raw).value;
        var n :| ValidName(n) && raw == raw[..i] + TailSlot(n);
        NamedCut(raw[..i], n);
        MarkedCut(raw[..i], n);
      }
    }
  }

  lemma MarkedCut(pre: string, n: string)
    requires ValidName(n)
    ensures CutAs(pre + TailSlot(n), Unslashed(pre), Named(n))
  {
    SlashEnds(pre);
    if EndsWith(pre, "/") {
      assert pre + TailSlot(n) == Unslashed(pre) + "/" + TailSlot(n);
    }
  }

  // ---------------------------------------------------------------- what is refused

  /** The first segment is the reserved one, and it is not the diagnostic catch-all. */
  predicate UnderReserved(raw: string) {
    (raw == "__zeared" || "__zeared/" <= raw) && raw != "__zeared/**"
  }

  lemma {:induction false} FirstSegment(raw: string, first: string)
    requires SlashFree(first)
    ensures Split(raw)[0] == first <==> raw == first || first + "/" <= raw
  {
    if raw == "" {
    } else if raw[0] == '/' {
      if first != "" {
        assert first[0] != '/' && (first + "/")[0] == first[0];
      }
    } else if first == "" {
      assert (first + "/")[0] == '/';
    } else {
      FirstSegment(raw[1..], first[1..]);
      assert first == [first[0]] + first[1..];
      assert raw == [raw[0]] + raw[1..];
      if raw[0] == first[0] {
        assert first + "/" == [first[0]] + (first[1..] + "/");
        assert first + "/" <= raw <==> first[1..] + "/" <= raw[1..];
      }
    }
  }

  lemma ReservedExactly(raw: string)
    ensures Reserved(raw) <==> UnderReserved(raw)
  {
    FirstSegment(raw, RESERVED);
  }

  predicate StarsAt(s: string, i: nat) {
    i + 2 <= |s| && s[i] == '*' && s[i + 1] == '*'
  }

  /** `**` occurs. */
  ghost predicate Doubles(s: string) {
    exists i: nat :: StarsAt(s, i)
  }

  lemma {:induction false} DoubleExactly(s: string)
    ensures HasDouble(s) <==> Doubles(s)
  {
    if Doubles(s) {
      var i: nat :| StarsAt(s, i);
      assert s[i..i + 2] == [s[i], s[i + 1]] == "**";
      DoubleAt(s, i);
    }
    if |s| >= 2 && HasDouble(s) {
      if s[..2] == "**" {
        assert s[0] == s[..2][0] && s[1] == s[..2][1];
        assert StarsAt(s, 0);
      } else {
        DoubleExactly(s[1..]);
        var i: nat :| StarsAt(s[1..], i);
        assert StarsAt(s, i + 1);
      }
    }
  }

  // ---------------------------------------------------------------- every template string

  /** The field names a parse gives, or its error. */
  function NamesRead(r: Result<Template, TopicError>): Result<seq<string>, TopicError> {
    match r
    case Ok(t) => Ok(t.fieldNames)
    case Err(e) => Err(e)
  }

  /** The field texts of a template string, the tail's name after those of the body. */
  function AllTexts(tokens: seq<Token>, tail: Tail): seq<string> {
    FieldsIn(tokens) + TailName(tail)
  }

  lemma FaultStays(texts: seq<string>, more: seq<string>, r: Result<seq<string>, TopicError>)
    requires Calls(texts, r) && r.Err?
    ensures Calls(texts + more, r)
  {
    var k := FaultAt(texts, r);
    assert FineUpTo(texts + more, k);
    match r
    case Err(BadField(text)) => assert BadAt(texts + more, k, text);
    case Err(DuplicateField(n)) =>
      var j :| 0 <= j < k && Gives(texts[j], n);
      assert Gives((texts + more)[j], n);
      assert RepeatAt(texts + more, k, n);
  }

  /** A tail's name is read as one field more. */
  lemma TailIsOneMore(texts: seq<string>, names: seq<string>, n: string)
    requires Calls(texts, Ok(names)) && ValidName(n)
    ensures Calls(texts + [n], if n in names then Err(DuplicateField(n)) else Ok(names + [n]))
  {
    GivesOnce(n, n);
    var all := texts + [n];
    assert FineUpTo(all, |texts|);
    NextField(all, |texts|, names);
  }

  lemma PartsAreCalled(raw: string, body: string, tail: Tail, parts: seq<Part>)
    requires raw != "" && !Reserved(raw) && CutTail(raw) == (body, tail)
    requires !HasDouble(body) && Scan(body) == Some(parts)
    requires tail.Named? ==> ValidName(tail.name)
    ensures Calls(FieldTexts(parts) + TailName(tail), NamesRead(Parsed(raw)))
    ensures Parsed(raw).Ok? ==> Parsed(raw).value.raw == raw
  {
    var texts := FieldTexts(parts);
    FieldsExactly(parts, Fields(parts, []));
    match Fields(parts, [])
    case Err(e) => FaultStays(texts, TailName(tail), Err(e));
    case Ok(names) =>
      if tail.Named? {
        TailIsOneMore(texts, names, tail.name);
      } else {
        assert texts + [] == texts;
      }
  }

  /** Past the tests on the whole string, a parse reads what the field texts call for. */
  lemma NamesAreCalled(raw: string, body: string, tail: Tail, tokens: seq<Token>)
    requires CutAs(raw, body, tail) && raw != "" && !UnderReserved(raw) && !Doubles(body)
    requires GoodTokens(tokens) && Spelled(tokens) == body
    ensures Calls(AllTexts(tokens, tail), NamesRead(Parsed(raw)))
    ensures Parsed(raw).Ok? ==> Parsed(raw).value.raw == raw
  {
    CutOnce(raw, body, tail);
    ReservedExactly(raw);
    DoubleExactly(body);
    ScanSpelled(tokens);
    PartsAreCalled(raw, body, tail, Scan(body).value);
  }

  /** Which template strings are refused before a field is read, and why. */
  lemma RefusedExactly(raw: string, body: string, tail: Tail)
    requires CutAs(raw, body, tail)
    ensures Parsed(raw) == Err(EmptyTopic) <==> raw == ""
    ensures Parsed(raw) == Err(ReservedPrefix) <==> UnderReserved(raw)
    ensures Parsed(raw) == Err(TailNotLast) <==> raw != "" && !UnderReserved(raw) && Doubles(body)
    ensures Parsed(raw) == Err(BadBraces) <==> raw != "" && !UnderReserved(raw) && !Doubles(body) && !Matched(body)
  {
    CutOnce(raw, body, tail);
    ReservedExactly(raw);
    DoubleExactly(body);
    ScanExactly(body);
    if raw != "" && !UnderReserved(raw) && !Doubles(body) && Matched(body) {
      var tokens :| GoodTokens(tokens) && Spelled(tokens) == body;
      NamesAreCalled(raw, body, tail, tokens);
    }
  }

  /** Which of the others are refused for a field, and what names are read from the rest. */
  lemma ReadExactly(raw: string, body: string, tail: Tail, tokens: seq<Token>, r: Result<seq<string>, TopicError>)
    requires CutAs(raw, body, tail) && raw != "" && !UnderReserved(raw) && !Doubles(body)
    requires GoodTokens(tokens) && Spelled(tokens) == body
    ensures NamesRead(Parsed(raw)) == r <==> Calls(AllTexts(tokens, tail), r)
  {
    NamesAreCalled(raw, body, tail, tokens);
    if Calls(AllTexts(tokens, tail), r) {
      OneVerdict(AllTexts(tokens, tail), r, NamesRead(Parsed(raw)));
    }
  }

  /** An accepted template keeps its text, and its names are valid and distinct. */
  lemma AcceptedNames(raw: string)
    requires Parsed(raw).Ok?
    ensures var t := Parsed(raw).value; t.raw == raw && Distinct(t.fieldNames)
    ensures forall n :: n in Parsed(raw).value.fieldNames ==> ValidName(n)
  {
    var (body, tail) := CutTail(raw);
    CutMeans(raw);
    RefusedExactly(raw, body, tail);
    var tokens :| GoodTokens(tokens) && Spelled(tokens) == body;
    NamesAreCalled(raw, body, tail, tokens);
    FineNames(AllTexts(tokens, tail), Parsed(raw).value.fieldNames);
  }

  lemma FineNames(texts: seq<string>, names: seq<string>)
    requires FineUpTo(texts, |texts|) && NamesOf(texts, names)
    ensures Distinct(names) && forall n :: n in names ==> ValidName(n)
  {
    forall i, j | 0 <= i < j < |names| ensures names[i] != names[j] {
      assert Gives(texts[i], names[i]) && Gives(texts[j], names[j]);
    }
    forall n | n in names ensures ValidName(n) {
      var i :| 0 <= i < |names| && names[i] == n;
      assert Gives(texts[i], n);
    }
  }

  // ---------------------------------------------------------------- printed topics

  /** `n` is the first of `names` that was there before. */
  ghost predicate FirstRepeat(names: seq<string>, n: string) {
    exists k :: 0 <= k < |names| && names[k] == n && n in names[..k] && Distinct(names[..k])
  }

  lemma RepeatIsFirst(names: seq<string>, n: string)
    requires forall i :: 0 <= i < |names| ==> ValidName(names[i])
    requires Calls(names, Err(DuplicateField(n)))
    ensures FirstRepeat(names, n)
  {
    var k := FaultAt(names, Err(DuplicateField(n)));
    forall i | 0 <= i < |names| ensures Gives(names[i], names[i]) {
    }
    var j :| 0 <= j < k && Gives(names[j], n);
    GivesOnce(names[j], names[j]);
    GivesOnce(names[k], names[k]);
    GivesOnce(names[j], n);
    GivesOnce(names[k], n);
    assert names[..k][j] == n;
    assert names[k] == n && Distinct(names[..k]);
  }

  lemma PrintedNames(topic: Topic)
    requires Printable(topic)
    ensures Calls(Names(topic), NamesRead(Parsed(Raw(topic))))
  {
    TailIsCut(topic);
    RawIsAccepted(topic);
    BodyHasNoDouble(topic.chunks);
    BodyScans(topic.chunks);
    PartsAligned(topic.chunks);
    PartsAreCalled(Raw(topic), Body(topic.chunks), topic.tail, PartsOf(topic.chunks));
  }

  lemma ValidTexts(texts: seq<string>, r: Result<seq<string>, TopicError>)
    requires Calls(texts, r) && forall i :: 0 <= i < |texts| ==> ValidName(texts[i])
    ensures match r
      case Ok(names) => names == texts && Distinct(texts)
      case Err(DuplicateField(n)) => FirstRepeat(texts, n)
      case Err(_) => false
  {
    match r
    case Ok(names) =>
      FineNames(texts, names);
      GivesNames(texts, names);
    case Err(DuplicateField(n)) => RepeatIsFirst(texts, n);
    case Err(BadField(text)) =>
      var k := FaultAt(texts, r);
      assert Gives(texts[k], texts[k]);
  }

  /** A printed topic is accepted exactly when no name repeats, and else the first that does is named. */
  lemma RepeatIsRefused(topic: Topic)
    requires Printable(topic)
    ensures match Parsed(Raw(topic))
      case Ok(t) => t == Compiled(topic) && Distinct(Names(topic))
      case Err(DuplicateField(n)) => FirstRepeat(Names(topic), n)
      case Err(_) => false
  {
    SlotNamesAreValid(topic.chunks);
    PrintedNames(topic);
    ValidTexts(Names(topic), NamesRead(Parsed(Raw(topic))));
    if Distinct(Names(topic)) {
      ParseReadsBack(topic);
    }
  }

  lemma GivesNames(texts: seq<string>, names: seq<string>)
    requires NamesOf(texts, names) && forall i :: 0 <= i < |texts| ==> ValidName(texts[i])
    ensures texts == names
  {
    forall i | 0 <= i < |texts| ensures texts[i] == names[i] {
      GivesOnce(texts[i], texts[i]);
      GivesOnce(texts[i], names[i]);
    }
  }
}
