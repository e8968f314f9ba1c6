/** Python's `string.Formatter` and `str.format`, as far as a topic template meets
    them (zeared/_template/_template.py). */
module Format {
  import opened Wrappers

  /** One item of `Formatter().parse`: literal text, then perhaps a `{field}`. */
  datatype Part = Part(literal: string, field: Option<string>)

  predicate NameStart(c: char) {
    'a' <= c <= 'z' || 'A' <= c <= 'Z' || c == '_'
  }

  predicate NameChar(c: char) {
    NameStart(c) || '0' <= c <= '9'
  }

  predicate ValidName(n: string) {
    n != "" && NameStart(n[0]) && forall i :: 0 <= i < |n| ==> NameChar(n[i])
  }

  /** Where a field's text ends: its `}`, unless another `{` comes first. */
  function Close(s: string): (end: Option<nat>)
    ensures end.Some? ==> end.value < |s| && s[end.value] == '}'
  {
    if s == "" || s[0] == '{' then None
    else if s[0] == '}' then Some(0)
    else match Close(s[1..]) case None => None case Some(i) => Some(i + 1)
  }

  /** `text` put before the first literal. */
  function Prefixed(text: string, parts: seq<Part>): seq<Part> {
    if parts == [] then [Part(text, None)]
    else [Part(text + parts[0].literal, parts[0].field)] + parts[1..]
  }

  /** `Formatter().parse`; `None` for a brace that is not matched. A doubled
      brace ends a part that has no field. */
  function Scan(s: string): Option<seq<Part>>
    decreases |s|
  {
    if s == "" then Some([])
    else if |s| >= 2 && s[0] in "{}" && s[1] == s[0] then
      match Scan(s[2..]) case None => None case Some(rest) => Some([Part(s[..1], None)] + rest)
    else if s[0] == '}' then None
    else if s[0] == '{' then
      match Close(s[1..])
      case None => None
      case Some(i) =>
        match Scan(s[i + 2..]) case None => None case Some(rest) => Some([Part("", Some(s[1..i + 1]))] + rest)
    else
      match Scan(s[1..]) case None => None case Some(rest) => Some(Prefixed(s[..1], rest))
  }

  /** The name in a field's text; `None` for a format spec, a conversion or a bad name. */
  function FieldName(text: string): Option<string> {
    if ValidName(text) then Some(text)
    else if text != "" && text[|text| - 1] == ':' && ValidName(text[..|text| - 1]) then Some(text[..|text| - 1])
    else None
  }

  /** `str.format` over scanned parts; `None` for a missing field. */
  function Filled(parts: seq<Part>, values: map<string, string>): Option<string> {
    if parts == [] then Some("")
    else
      match Filled(parts[1..], values)
      case None => None
      case Some(rest) =>
        match parts[0].field
        case None => Some(parts[0].literal + rest)
        case Some(text) =>
          match FieldName(text)
          case Some(n) => if n in values then Some(parts[0].literal + values[n] + rest) else None
          case None => None
  }

  /** `fmt.format(**values)`. */
  function Formatted(fmt: string, values: map<string, string>): Option<string> {
    match Scan(fmt)
    case None => None
    case Some(parts) => Filled(parts, values)
  }

  /** `s.replace(what, with)`. */
  function Replaced(s: string, what: string, with: string): string
    requires what != ""
    decreases |s|
  {
    if s == "" then ""
    else if |what| <= |s| && s[..|what|] == what then with + Replaced(s[|what|..], what, with)
    else s[..1] + Replaced(s[1..], what, with)
  }

  // ---------------------------------------------------------------- scanning what was printed

  ghost predicate BraceFree(s: string) {
    '{' !in s && '}' !in s
  }

  lemma {:induction false} ScanText(t: string, s: string)
    requires t != "" && BraceFree(t)
    ensures Scan(t + s) == (match Scan(s) case None => None case Some(ps) => Some(Prefixed(t, ps)))
  {
    assert t[0] in t;
    assert (t + s)[1..] == t[1..] + s && (t + s)[..1] == t[..1];
    if |t| == 1 {
      assert t[..1] == t && t[1..] + s == s;
    } else {
      assert BraceFree(t[1..]) by {
        assert forall c :: c in t[1..] ==> c in t;
      }
      ScanText(t[1..], s);
      if Scan(s).Some? {
        PrefixedTwice(t[..1], t[1..], Scan(s).value);
        assert t[..1] + t[1..] == t;
      }
    }
  }

  lemma PrefixedTwice(a: string, b: string, parts: seq<Part>)
    ensures Prefixed(a, Prefixed(b, parts)) == Prefixed(a + b, parts)
  {
    if parts != [] {
      assert a + (b + parts[0].literal) == a + b + parts[0].literal;
    }
  }

  lemma {:induction false} CloseName(n: string, s: string)
    requires BraceFree(n)
    ensures Close(n + "}" + s) == Some(|n|)
  {
    if n == "" {
      assert (n + "}" + s)[0] == '}';
    } else {
      assert n[0] in n;
      assert BraceFree(n[1..]) by {
        assert forall c :: c in n[1..] ==> c in n;
      }
      CloseName(n[1..], s);
      assert (n + "}" + s)[1..] == n[1..] + "}" + s;
    }
  }

  lemma NameIsBraceFree(n: string)
    requires ValidName(n)
    ensures BraceFree(n) && '*' !in n && '/' !in n
  {
  }

  function Slotted(n: string): string {
    "{" + n + "}"
  }

  lemma ScanSlot(n: string, s: string)
    requires ValidName(n)
    ensures Scan(Slotted(n) + s) == (match Scan(s) case None => None case Some(ps) => Some([Part("", Some(n))] + ps))
  {
    NameIsBraceFree(n);
    CloseName(n, s);
    var whole := Slotted(n) + s;
    assert whole[0] == '{' && whole[1] == n[0];
    assert n[0] in n;
    assert whole[1..] == n + "}" + s;
    assert whole[1..|n| + 1] == n && whole[|n| + 2..] == s;
  }
}
