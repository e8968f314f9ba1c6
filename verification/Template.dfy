/** The topic compiler: a template string parsed into the wildcard a subscriber
    declares and the pattern keys are matched against (zeared/_template/_template.py). */
module Template {
  import opened Format
  import opened KeyExpr
  import opened Regex
  import opened Sequences
  import opened Wrappers

  datatype Tail = NoTail | Anonymous | Named(name: string)

  datatype TopicError =
    | EmptyTopic
    | ReservedPrefix
    | TailNotLast
    | BadBraces
    | BadField(text: string)
    | DuplicateField(name: string)
    | SubscribeOnly
    | EmptyTail(name: string)
    | MissingField
    | UnknownTopic(topic: string)
    | SegmentSplit

  datatype Template = Template(
    raw: string, fieldNames: seq<string>, wildcard: string, publishable: bool, pattern: Pattern,
    namedMulti: Option<string>)

  const RESERVED: string := "__zeared"

  // ---------------------------------------------------------------- parsing

  predicate EndsWith(s: string, suffix: string) {
    |suffix| <= |s| && s[|s| - |suffix|..] == suffix
  }

  /** Python's `'**' in s`. */
  predicate HasDouble(s: string) {
    |s| >= 2 && (s[..2] == "**" || HasDouble(s[1..]))
  }

  predicate Reserved(raw: string) {
    raw != "**" && raw != RESERVED + "/**" && Split(raw)[0] == RESERVED
  }

  predicate IsNamedTail(s: string) {
    |s| >= 5 && s[0] == '{' && EndsWith(s, "**}") && ValidName(s[1..|s| - 3])
  }

  /** Where a trailing `{name**}` starts. */
  function TailStart(s: string): (start: Option<nat>)
    ensures start.Some? ==> start.value <= |s| && IsNamedTail(s[start.value..])
  {
    if s == "" then None
    else if IsNamedTail(s) then Some(0)
    else match TailStart(s[1..]) case None => None case Some(i) => Some(i + 1)
  }

  /** The body in front of the multi-segment marker, and the marker. */
  function CutTail(raw: string): (string, Tail) {
    if raw == "**" then ("", Anonymous)
    else if EndsWith(raw, "/**") then (raw[..|raw| - 3], Anonymous)
    else
      match TailStart(raw)
      case None => (raw, NoTail)
      case Some(i) =>
        (if i > 0 && raw[i - 1] == '/' then raw[..i - 1] else raw[..i], Named(raw[i + 1..|raw| - 3]))
  }

  function Literals(parts: seq<Part>): seq<string> {
    if parts == [] then [] else [parts[0].literal] + Literals(parts[1..])
  }

  /** The field names of `parts`, none of them in `seen` or repeated. */
  function Fields(parts: seq<Part>, seen: seq<string>): Result<seq<string>, TopicError> {
    if parts == [] then Ok(seen)
    else
      match parts[0].field
      case None => Fields(parts[1..], seen)
      case Some(text) =>
        match FieldName(text)
        case None => Err(BadField(text))
        case Some(n) => if n in seen then Err(DuplicateField(n)) else Fields(parts[1..], seen + [n])
  }

  /** The first `n` literals, each followed by the field of the same index if there is one. */
  function Woven<T>(lits: seq<string>, fields: seq<string>, lit: string -> seq<T>, hole: string -> seq<T>, n: nat)
    : seq<T>
    requires n <= |lits|
  {
    if n == 0 then []
    else
      var before := Woven(lits, fields, lit, hole, n - 1) + lit(lits[n - 1]);
      if n - 1 < |fields| then before + hole(fields[n - 1]) else before
  }

  function Verbatim(s: string): string { s }

  function Star(n: string): string { "*" }

  function GroupOf(n: string): Pattern { [Group(n)] }

  function LiteralAtoms(s: string): Pattern {
    if s == "" then []
    else if |s| >= 2 && s[..2] == "$*" then [Run0] + LiteralAtoms(s[2..])
    else if s[0] == '*' then [Run1] + LiteralAtoms(s[1..])
    else [Ch(s[0])] + LiteralAtoms(s[1..])
  }

  function WildcardText(literals: seq<string>, fields: seq<string>, hasMulti: bool): string {
    var text := Woven(literals, fields, Verbatim, Star, |literals|);
    if !hasMulti then text else if text == "" then "**" else text + "/**"
  }

  function TailPattern(tail: Tail): Pattern {
    match tail
    case NoTail => []
    case Anonymous => [Any1]
    case Named(n) => [AnyGroup(n)]
  }

  function PatternText(literals: seq<string>, fields: seq<string>, tail: Tail): Pattern {
    var body := Woven(literals, fields, LiteralAtoms, GroupOf, |literals|);
    if tail == NoTail then body else if body == [] then TailPattern(tail) else body + [Ch('/')] + TailPattern(tail)
  }

  predicate AnyStar(literals: seq<string>) {
    literals != [] && ('*' in literals[0] || AnyStar(literals[1..]))
  }

  function NamedMulti(tail: Tail): Option<string> {
    if tail.Named? then Some(tail.name) else None
  }

  function Assembled(raw: string, literals: seq<string>, fields: seq<string>, tail: Tail): Template {
    Template(
      raw,
      if tail.Named? then fields + [tail.name] else fields,
      WildcardText(literals, fields, tail != NoTail),
      tail != Anonymous && !AnyStar(literals),
      PatternText(literals, fields, tail),
      NamedMulti(tail))
  }

  /** What `Template.parse` makes of `raw`. */
  function Parsed(raw: string): Result<Template, TopicError> {
    if raw == "" then Err(EmptyTopic)
    else if Reserved(raw) then Err(ReservedPrefix)
    else
      var (body, tail) := CutTail(raw);
      if HasDouble(body) then Err(TailNotLast)
      else
        match Scan(body)
        case None => Err(BadBraces)
        case Some(parts) =>
          match Fields(parts, [])
          case Err(e) => Err(e)
          case Ok(fields) =>
            if tail.Named? && tail.name in fields then Err(DuplicateField(tail.name))
            else Ok(Assembled(raw, if body == "" then [""] else Literals(parts), fields, tail))
  }

  // ---------------------------------------------------------------- the loops

  /** Python's `re.split(r'(\$\*|\*)', s)`: text and wildcards in turn. */
  function WildcardSplit(s: string): (pieces: seq<string>)
    ensures |pieces| >= 1
  {
    if s == "" then [""]
    else if |s| >= 2 && s[..2] == "$*" then ["", "$*"] + WildcardSplit(s[2..])
    else if s[0] == '*' then ["", "*"] + WildcardSplit(s[1..])
    else
      var rest := WildcardSplit(s[1..]);
      [s[..1] + rest[0]] + rest[1..]
  }

  function Escaped(s: string): Pattern {
    if s == "" then [] else [Ch(s[0])] + Escaped(s[1..])
  }

  function PieceAtoms(piece: string): Pattern {
    if piece == "$*" then [Run0] else if piece == "*" then [Run1] else Escaped(piece)
  }

  /** `f` of each of the first `n` pieces, joined. */
  function Flat<T>(f: string -> seq<T>, pieces: seq<string>, n: nat): seq<T>
    requires n <= |pieces|
  {
    if n == 0 then [] else Flat(f, pieces, n - 1) + f(pieces[n - 1])
  }

  lemma {:induction false} FlatShift<T>(f: string -> seq<T>, pieces: seq<string>, rest: seq<string>, n: nat)
    requires n <= |rest| && |pieces| == |rest| + 1
    requires forall i :: 0 <= i < |rest| ==> pieces[i + 1] == rest[i]
    ensures Flat(f, pieces, n + 1) == f(pieces[0]) + Flat(f, rest, n)
  {
    if n == 0 {
      assert Flat(f, pieces, 0) == [];
    } else {
      FlatShift(f, pieces, rest, n - 1);
      Regroup(f(pieces[0]), Flat(f, rest, n - 1), f(rest[n - 1]));
    }
  }

  function PiecesAtoms(pieces: seq<string>): Pattern {
    Flat(PieceAtoms, pieces, |pieces|)
  }

  lemma PiecesStep(piece: string, rest: seq<string>)
    ensures PiecesAtoms([piece] + rest) == PieceAtoms(piece) + PiecesAtoms(rest)
  {
    FlatShift(PieceAtoms, [piece] + rest, rest, |rest|);
  }

  lemma LongerPiece(c: char, piece: string)
    requires c != '*' && '*' !in piece
    ensures '*' !in [c] + piece
    ensures PieceAtoms([c] + piece) == [Ch(c)] + PieceAtoms(piece)
  {
    assert "$*"[1] == '*' && "*"[0] == '*';
    assert ([c] + piece)[1..] == piece;
  }

  lemma {:induction false} SplitKeepsAtoms(s: string)
    ensures '*' !in WildcardSplit(s)[0]
    ensures PiecesAtoms(WildcardSplit(s)) == LiteralAtoms(s)
  {
    if s == "" {
      PiecesStep("", []);
      assert [""] + [] == [""];
    } else if |s| >= 2 && s[..2] == "$*" {
      SplitKeepsAtoms(s[2..]);
      TwoPieces("$*", WildcardSplit(s[2..]));
    } else if s[0] == '*' {
      SplitKeepsAtoms(s[1..]);
      TwoPieces("*", WildcardSplit(s[1..]));
    } else {
      SplitKeepsAtoms(s[1..]);
      OneMoreChar(s[0], WildcardSplit(s[1..]));
      assert s[..1] == [s[0]];
    }
  }

  lemma OneMoreChar(c: char, pieces: seq<string>)
    requires pieces != [] && c != '*' && '*' !in pieces[0]
    ensures '*' !in [c] + pieces[0]
    ensures PiecesAtoms([[c] + pieces[0]] + pieces[1..]) == [Ch(c)] + PiecesAtoms(pieces)
  {
    LongerPiece(c, pieces[0]);
    PiecesStep([c] + pieces[0], pieces[1..]);
    PiecesStep(pieces[0], pieces[1..]);
    assert [pieces[0]] + pieces[1..] == pieces;
  }

  lemma TwoPieces(wild: string, rest: seq<string>)
    ensures PiecesAtoms(["", wild] + rest) == PieceAtoms(wild) + PiecesAtoms(rest)
  {
    PiecesStep(wild, rest);
    PiecesStep("", [wild] + rest);
    assert [""] + ([wild] + rest) == ["", wild] + rest;
    assert PieceAtoms("") == [];
  }

  /** `_literal_pattern`. */
  method LiteralPattern(literal: string) returns (out: Pattern)
    ensures out == LiteralAtoms(literal)
  {
    var pieces := WildcardSplit(literal);
    out := [];
    for i := 0 to |pieces|
      invariant out == Flat(PieceAtoms, pieces, i)
    {
      if pieces[i] == "$*" {
        out := out + [Run0];
      } else if pieces[i] == "*" {
        out := out + [Run1];
      } else {
        out := out + Escaped(pieces[i]);
      }
    }
    SplitKeepsAtoms(literal);
  }

  method RenderWildcard(literals: seq<string>, fields: seq<string>, hasMulti: bool) returns (wildcard: string)
    ensures wildcard == WildcardText(literals, fields, hasMulti)
  {
    wildcard := "";
    for i := 0 to |literals|
      invariant wildcard == Woven(literals, fields, Verbatim, Star, i)
    {
      wildcard := wildcard + literals[i];
      if i < |fields| {
        wildcard := wildcard + "*";
      }
    }
    if hasMulti {
      wildcard := if wildcard == "" then "**" else wildcard + "/**";
    }
  }

  method BuildRegex(literals: seq<string>, fields: seq<string>, tail: Tail) returns (body: Pattern)
    ensures body == PatternText(literals, fields, tail)
  {
    body := [];
    for i := 0 to |literals|
      invariant body == Woven(literals, fields, LiteralAtoms, GroupOf, i)
    {
      var atoms := LiteralPattern(literals[i]);
      body := body + atoms;
      if i < |fields| {
        body := body + [Group(fields[i])];
      }
    }
    match tail
    case NoTail =>
    case Anonymous => body := if body == [] then [Any1] else body + [Ch('/')] + [Any1];
    case Named(n) => body := if body == [] then [AnyGroup(n)] else body + [Ch('/')] + [AnyGroup(n)];
  }

  lemma {:induction false} LiteralsAppend(parts: seq<Part>, part: Part)
    ensures Literals(parts + [part]) == Literals(parts) + [part.literal]
  {
    if parts == [] {
      assert parts + [part] == [part];
    } else {
      assert (parts + [part])[1..] == parts[1..] + [part];
      LiteralsAppend(parts[1..], part);
    }
  }

  /** What the loop over the parts gains from one more part. */
  lemma OnePart(parts: seq<Part>, i: nat)
    requires i < |parts|
    ensures Literals(parts[..i + 1]) == Literals(parts[..i]) + [parts[i].literal]
    ensures parts[i..] != [] && parts[i..][0] == parts[i] && parts[i..][1..] == parts[i + 1..]
  {
    LiteralsAppend(parts[..i], parts[i]);
    assert parts[..i + 1] == parts[..i] + [parts[i]];
  }

  method Parse(raw: string) returns (t: Result<Template, TopicError>)
    ensures t == Parsed(raw)
  {
    if raw == "" {
      return Err(EmptyTopic);
    }
    if Reserved(raw) {
      return Err(ReservedPrefix);
    }
    var (body, tail) := CutTail(raw);
    if HasDouble(body) {
      return Err(TailNotLast);
    }
    var literals: seq<string>, fields: seq<string> := [], [];
    if body != "" {
      var scanned := Scan(body);
      if scanned == None {
        return Err(BadBraces);
      }
      var parts := scanned.value;
      for i := 0 to |parts|
        invariant literals == Literals(parts[..i])
        invariant Fields(parts[i..], fields) == Fields(parts, [])
      {
        OnePart(parts, i);
        literals := literals + [parts[i].literal];
        if parts[i].field.Some? {
          var name := FieldName(parts[i].field.value);
          if name == None {
            return Err(BadField(parts[i].field.value));
          }
          if name.value in fields {
            return Err(DuplicateField(name.value));
          }
          fields := fields + [name.value];
        }
      }
      assert parts[..|parts|] == parts;
    } else {
      literals := [""];
    }
    if tail.Named? && tail.name in fields {
      return Err(DuplicateField(tail.name));
    }
    var wildcard := RenderWildcard(literals, fields, tail != NoTail);
    var pattern := BuildRegex(literals, fields, tail);
    return Ok(Template(
      raw, if tail.Named? then fields + [tail.name] else fields, wildcard,
      tail != Anonymous && !AnyStar(literals), pattern, NamedMulti(tail)));
  }

  // ---------------------------------------------------------------- rendering and matching

  /** `raw` with its `{name**}` slot written `{name}`. */
  function PlainFormat(t: Template): string {
    match t.namedMulti
    case None => t.raw
    case Some(n) => Replaced(t.raw, "{" + n + "**}", Slotted(n))
  }

  function Rendered(t: Template, values: map<string, string>): Result<string, TopicError> {
    if !t.publishable then Err(SubscribeOnly)
    else if t.namedMulti.Some? && t.namedMulti.value in values && values[t.namedMulti.value] == "" then
      Err(EmptyTail(t.namedMulti.value))
    else
      match Formatted(PlainFormat(t), values)
      case None => Err(MissingField)
      case Some(key) => Ok(key)
  }

  /** A slot's value in a partial mapping; `None` as an absent one. */
  function Given(partial: map<string, Option<string>>, n: string): Option<string> {
    if n in partial then partial[n] else None
  }

  function SelectorValue(t: Template, partial: map<string, Option<string>>, n: string): string {
    match Given(partial, n)
    case Some(v) => v
    case None => if Some(n) == t.namedMulti then "**" else "*"
  }

  function SelectorValues(t: Template, partial: map<string, Option<string>>, names: seq<string>): map<string, string> {
    map n | n in names :: SelectorValue(t, partial, n)
  }

  lemma OneMoreValue(t: Template, partial: map<string, Option<string>>, names: seq<string>, n: string)
    ensures SelectorValues(t, partial, names + [n]) ==
      SelectorValues(t, partial, names)[n := SelectorValue(t, partial, n)]
  {
  }

  function Selector(t: Template, partial: map<string, Option<string>>): Result<string, TopicError> {
    if !t.publishable then Ok(t.wildcard)
    else
      match Formatted(PlainFormat(t), SelectorValues(t, partial, t.fieldNames))
      case None => Err(MissingField)
      case Some(key) => Ok(key)
  }

  method RenderSelector(t: Template, partial: map<string, Option<string>>) returns (r: Result<string, TopicError>)
    requires t.namedMulti.Some? ==> t.namedMulti.value in t.fieldNames
    requires forall i, j :: 0 <= i < j < |t.fieldNames| ==> t.fieldNames[i] != t.fieldNames[j]
    ensures r == Selector(t, partial)
  {
    if !t.publishable {
      return Ok(t.wildcard);
    }
    var fmt := t.raw;
    var values := map[];
    var names := t.fieldNames;
    for i := 0 to |names|
      invariant values == SelectorValues(t, partial, names[..i])
      invariant fmt == if t.namedMulti.Some? && t.namedMulti.value in names[..i] then PlainFormat(t) else t.raw
    {
      var name := names[i];
      OneMoreValue(t, partial, names[..i], name);
      assert names[..i + 1] == names[..i] + [name];
      var v := Given(partial, name);
      if Some(name) == t.namedMulti {
        fmt := Replaced(fmt, "{" + name + "**}", Slotted(name));
        values := values[name := if v.None? then "**" else v.value];
      } else {
        values := values[name := if v.None? then "*" else v.value];
      }
    }
    assert names[..|names|] == names;
    match Formatted(fmt, values) {
      case None => return Err(MissingField);
      case Some(key) => return Ok(key);
    }
  }

  /** `match(key)` returns `caps`. */
  ghost predicate MatchesWith(t: Template, key: string, caps: Captures) {
    Denotes(t.pattern, key, caps)
  }
}
