/** Key expressions: splitting a key into chunks, and Zenoh's matching of a key
    expression against a concrete key (zeared/keyexpr.py).

    `*` is one chunk, `**` zero or more chunks, and `$*` any run of characters
    within one chunk. */
module KeyExpr {

  type Path = seq<string>

  ghost predicate SlashFree(s: string) {
    '/' !in s
  }

  ghost predicate SlashFreeChunks(cs: Path) {
    forall i :: 0 <= i < |cs| ==> SlashFree(cs[i])
  }

  // ---------------------------------------------------------------- split and join

  /** Python's `s.split('/')`. */
  function Split(s: string): (cs: Path)
    ensures |cs| >= 1
    ensures SlashFreeChunks(cs)
  {
    if s == "" then [""]
    else if s[0] == '/' then [""] + Split(s[1..])
    else
      var rest := Split(s[1..]);
      [[s[0]] + rest[0]] + rest[1..]
  }

  /** Python's `'/'.join(cs)`. */
  function Join(cs: Path): string {
    if |cs| == 0 then ""
    else if |cs| == 1 then cs[0]
    else cs[0] + "/" + Join(cs[1..])
  }

  lemma {:induction false} JoinSplit(s: string)
    ensures Join(Split(s)) == s
  {
    if s == "" {
    } else {
      JoinSplit(s[1..]);
      var rest := Split(s[1..]);
      if s[0] == '/' {
        assert ([""] + rest)[1..] == rest;
      } else {
        assert Split(s)[1..] == rest[1..];
      }
    }
  }

  lemma {:induction false} SplitJoin(cs: Path)
    requires |cs| >= 1 && SlashFreeChunks(cs)
    ensures Split(Join(cs)) == cs
    decreases |cs|, if |cs| > 0 then |cs[0]| else 0
  {
    if |cs| == 1 && cs[0] == "" {
    } else if cs[0] == "" {
      SplitJoin(cs[1..]);
      assert Join(cs)[1..] == Join(cs[1..]);
      assert [""] + cs[1..] == cs;
    } else {
      var shorter := [cs[0][1..]] + cs[1..];
      assert SlashFree(cs[0]) && cs[0][0] in cs[0];
      assert shorter[1..] == cs[1..];
      SplitJoin(shorter);
      assert Join(cs)[1..] == Join(shorter);
      assert Join(cs)[0] == cs[0][0] != '/';
      assert [cs[0][0]] + shorter[0] == cs[0];
      assert [cs[0]] + cs[1..] == cs;
    }
  }

  lemma SplitInjective(a: string, b: string)
    requires Split(a) == Split(b)
    ensures a == b
  {
    JoinSplit(a);
    JoinSplit(b);
  }

  // ---------------------------------------------------------------- matching

  /** Python's `'$*' in chunk`. */
  predicate HasRun(chunk: string) {
    |chunk| >= 2 && (chunk[..2] == "$*" || HasRun(chunk[1..]))
  }

  /** Whether a chunk holding `$*` runs matches the concrete chunk `c`. */
  predicate RunMatches(chunk: string, c: string)
    decreases |chunk| + |c|
  {
    if chunk == "" then c == ""
    else if |chunk| >= 2 && chunk[..2] == "$*" then
      RunMatches(chunk[2..], c) || (c != "" && RunMatches(chunk, c[1..]))
    else c != "" && chunk[0] == c[0] && RunMatches(chunk[1..], c[1..])
  }

  predicate ChunkMatches(chunk: string, c: string) {
    chunk == "*" || RunMatches(chunk, c)
  }

  /** Whether the key expression with chunks `q` matches the concrete key with chunks `k`. */
  predicate Matches(q: Path, k: Path)
    decreases |q| + |k|
  {
    if q == [] then k == []
    else if q[0] == "**" then Matches(q[1..], k) || (k != [] && Matches(q, k[1..]))
    else k != [] && ChunkMatches(q[0], k[0]) && Matches(q[1..], k[1..])
  }

  /** `intersects(q, key)` and `includes(q, key)` with a concrete second argument, where they coincide. */
  predicate Intersects(q: string, key: string) {
    Matches(Split(q), Split(key))
  }

  /** A chunk with neither `*` nor `$*` matches itself alone. */
  lemma {:induction false} LiteralChunk(chunk: string, c: string)
    requires !HasRun(chunk)
    ensures RunMatches(chunk, c) <==> chunk == c
  {
    if chunk != "" && c != "" && chunk[0] == c[0] {
      LiteralChunk(chunk[1..], c[1..]);
      assert chunk == [chunk[0]] + chunk[1..] && c == [c[0]] + c[1..];
    }
  }
}
