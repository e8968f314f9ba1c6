/** The regular expressions a template compiles to, as the languages they denote
    (zeared/_template/_template.py).

    A pattern is a list of atoms; a match of the whole of a string is a list of
    pieces, one per atom, which together make the string. */
module Regex {
  import opened KeyExpr
  import opened Sequences

  datatype Atom =
    | Ch(c: char)            // the character itself
    | Run0                   // [^/]*
    | Run1                   // [^/]+
    | Group(name: string)    // (?P<name>[^/]+)
    | Any1                   // .+
    | AnyGroup(name: string) // (?P<name>.+)

  type Pattern = seq<Atom>

  type Captures = map<string, string>

  ghost predicate LineFree(s: string) {
    '\n' !in s
  }

  ghost predicate Takes(a: Atom, s: string) {
    match a
    case Ch(c) => s == [c]
    case Run0 => SlashFree(s)
    case Run1 => s != "" && SlashFree(s)
    case Group(_) => s != "" && SlashFree(s)
    case Any1 => s != "" && LineFree(s)
    case AnyGroup(_) => s != "" && LineFree(s)
  }

  function Captured(a: Atom, s: string): Captures {
    match a
    case Group(n) => map[n := s]
    case AnyGroup(n) => map[n := s]
    case _ => map[]
  }

  function Concat(pieces: seq<string>): string {
    if pieces == [] then "" else pieces[0] + Concat(pieces[1..])
  }

  /** What the groups hold. */
  function Held(re: Pattern, pieces: seq<string>): Captures
    requires |pieces| == |re|
  {
    if re == [] then map[] else Captured(re[0], pieces[0]) + Held(re[1..], pieces[1..])
  }

  ghost predicate Fits(re: Pattern, pieces: seq<string>, s: string) {
    && |pieces| == |re|
    && (forall i :: 0 <= i < |re| ==> Takes(re[i], pieces[i]))
    && Concat(pieces) == s
  }

  /** The pattern matches the whole of `s` with `caps` in its groups. */
  ghost predicate Denotes(re: Pattern, s: string, caps: Captures) {
    exists pieces: seq<string> :: Fits(re, pieces, s) && Held(re, pieces) == caps
  }

  // ---------------------------------------------------------------- composition

  lemma {:induction false} ConcatAppend(a: seq<string>, b: seq<string>)
    ensures Concat(a + b) == Concat(a) + Concat(b)
  {
    if a == [] {
      assert a + b == b;
    } else {
      assert Concat(a + b) == a[0] + (Concat(a[1..]) + Concat(b)) by {
        ConcatAppend(a[1..], b);
        assert (a + b)[1..] == a[1..] + b;
      }
      Regroup(a[0], Concat(a[1..]), Concat(b));
    }
  }

  lemma OverrideAssociates(a: Captures, b: Captures, c: Captures)
    ensures (a + b) + c == a + (b + c)
  {
  }

  lemma {:induction false} HeldAppend(p: Pattern, q: Pattern, a: seq<string>, b: seq<string>)
    requires |a| == |p| && |b| == |q|
    ensures Held(p + q, a + b) == Held(p, a) + Held(q, b)
  {
    if p == [] {
      assert p + q == q && a + b == b;
    } else {
      var head := Captured(p[0], a[0]);
      assert Held(p + q, a + b) == head + (Held(p[1..], a[1..]) + Held(q, b)) by {
        assert (p + q)[1..] == p[1..] + q && (a + b)[1..] == a[1..] + b;
        HeldAppend(p[1..], q, a[1..], b);
      }
      OverrideAssociates(head, Held(p[1..], a[1..]), Held(q, b));
    }
  }

  lemma Compose(p: Pattern, q: Pattern, s: string, t: string, a: Captures, b: Captures)
    requires Denotes(p, s, a) && Denotes(q, t, b)
    ensures Denotes(p + q, s + t, a + b)
  {
    var x: seq<string> :| Fits(p, x, s) && Held(p, x) == a;
    var y: seq<string> :| Fits(q, y, t) && Held(q, y) == b;
    ConcatAppend(x, y);
    HeldAppend(p, q, x, y);
    assert Fits(p + q, x + y, s + t);
  }

  lemma Decompose(p: Pattern, q: Pattern, s: string, caps: Captures)
    returns (u: string, v: string, a: Captures, b: Captures)
    requires Denotes(p + q, s, caps)
    ensures s == u + v && caps == a + b && Denotes(p, u, a) && Denotes(q, v, b)
  {
    var z: seq<string> :| Fits(p + q, z, s) && Held(p + q, z) == caps;
    var x, y := z[..|p|], z[|p|..];
    assert z == x + y;
    ConcatAppend(x, y);
    HeldAppend(p, q, x, y);
    u, v, a, b := Concat(x), Concat(y), Held(p, x), Held(q, y);
    forall i | 0 <= i < |p| ensures Takes(p[i], x[i]) {
      assert (p + q)[i] == p[i];
    }
    forall i | 0 <= i < |q| ensures Takes(q[i], y[i]) {
      assert (p + q)[|p| + i] == q[i];
    }
    assert Fits(p, x, u) && Fits(q, y, v);
  }

  lemma Nothing(s: string, caps: Captures)
    ensures Denotes([], s, caps) <==> s == "" && caps == map[]
  {
    assert Fits([], [], "");
    assert Held([], []) == map[];
    if Denotes([], s, caps) {
      var z: seq<string> :| Fits([], z, s) && Held([], z) == caps;
    }
  }

  lemma Single(a: Atom, s: string, caps: Captures)
    ensures Denotes([a], s, caps) <==> Takes(a, s) && caps == Captured(a, s)
  {
    if Takes(a, s) {
      assert Concat([s]) == s;
      assert Fits([a], [s], s);
      assert Held([a], [s]) == Captured(a, s) + map[] == Captured(a, s);
    }
    if Denotes([a], s, caps) {
      var z: seq<string> :| Fits([a], z, s) && Held([a], z) == caps;
      assert z == [z[0]];
      assert Concat(z) == z[0] + "" == z[0];
      assert [a][0] == a && Takes(a, z[0]);
      assert Held([a], z) == Captured(a, z[0]) + map[];
    }
  }
}
