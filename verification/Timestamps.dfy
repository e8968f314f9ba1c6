/** Timestamps in their string form `<ntp64>/<id>`: how the dedupe orders them, and how their
    numeric half is read back (zeared/meta.py, zeared/subscriber/_subscriber_dispatch.py). */
module Timestamps {
  import opened Wrappers

  const TWO_32: nat := 0x1_0000_0000
  const TWO_64: nat := 0x1_0000_0000_0000_0000

  // ---------------------------------------------------------------- strings in order

  /** Python's `a < b` on strings: by code point, a proper prefix first. */
  predicate StrLt(a: string, b: string) {
    if b == "" then false
    else if a == "" then true
    else if a[0] != b[0] then a[0] < b[0]
    else StrLt(a[1..], b[1..])
  }

  predicate StrLe(a: string, b: string) {
    a == b || StrLt(a, b)
  }

  lemma {:induction false} StrLtIrreflexive(a: string)
    ensures !StrLt(a, a)
  {
    if a != "" {
      StrLtIrreflexive(a[1..]);
    }
  }

  lemma {:induction false} StrLtTransitive(a: string, b: string, c: string)
    requires StrLt(a, b) && StrLt(b, c)
    ensures StrLt(a, c)
  {
    if a != "" && a[0] == b[0] == c[0] {
      StrLtTransitive(a[1..], b[1..], c[1..]);
    }
  }

  lemma {:induction false} StrLtTotal(a: string, b: string)
    ensures StrLt(a, b) || a == b || StrLt(b, a)
  {
    if a != "" && b != "" && a[0] == b[0] {
      StrLtTotal(a[1..], b[1..]);
      assert a == [a[0]] + a[1..] && b == [b[0]] + b[1..];
    }
  }

  lemma {:induction false} CommonPrefix(p: string, a: string, b: string)
    ensures StrLt(p + a, p + b) <==> StrLt(a, b)
  {
    if p == "" {
      assert p + a == a && p + b == b;
    } else {
      CommonPrefix(p[1..], a, b);
      assert (p + a)[1..] == p[1..] + a && (p + b)[1..] == p[1..] + b;
    }
  }

  // ---------------------------------------------------------------- digits

  function Digit(d: nat): char
    requires d < 16
  {
    if d < 10 then '0' + d as char else 'a' + (d - 10) as char
  }

  /** Python's `int(c, 16)` for one character; `None` where it raises. */
  function DigitValue(c: char): (r: Option<nat>)
    ensures r.Some? ==> r.value < 16
  {
    if '0' <= c <= '9' then Some((c - '0') as nat)
    else if 'a' <= c <= 'f' then Some((c - 'a') as nat + 10)
    else if 'A' <= c <= 'F' then Some((c - 'A') as nat + 10)
    else None
  }

  lemma DigitReads(d: nat)
    requires d < 16
    ensures DigitValue(Digit(d)) == Some(d)
  {
  }

  /** `n` written in `base`. */
  function Write(n: nat, base: nat): (s: string)
    requires 2 <= base <= 16
    ensures |s| > 0
  {
    if n < base then [Digit(n)] else Write(n / base, base) + [Digit(n % base)]
  }

  function Dec(n: nat): string {
    Write(n, 10)
  }

  /** `int(s, base)` on a string of hexadecimal digits; `None` where it raises. */
  function Parse(s: string, base: nat): Option<nat> {
    if s == "" then None
    else
      var low := DigitValue(s[|s|-1]);
      if low.None? || low.value >= base then None
      else if |s| == 1 then low
      else
        var high := Parse(s[..|s|-1], base);
        if high.None? then None else Some(high.value * base + low.value)
  }

  lemma ParseSnoc(s: string, d: nat, base: nat)
    requires s != "" && d < base <= 16 && Parse(s, base).Some?
    ensures Parse(s + [Digit(d)], base) == Some(Parse(s, base).value * base + d)
  {
    DigitReads(d);
    assert (s + [Digit(d)])[..|s|] == s;
  }

  lemma DivMod(n: nat, d: nat)
    requires d > 0
    ensures n / d * d + n % d == n
  {
  }

  lemma {:induction false} ParseWrite(n: nat, base: nat)
    requires 2 <= base <= 16
    ensures Parse(Write(n, base), base) == Some(n)
  {
    if n < base {
      DigitReads(n);
    } else {
      ParseWrite(n / base, base);
      DigitReads(n % base);
      ParseSnoc(Write(n / base, base), n % base, base);
      DivMod(n, base);
    }
  }

  function Pow(base: nat, k: nat): (r: nat)
    ensures base > 0 ==> r > 0
  {
    if k == 0 then 1 else base * Pow(base, k - 1)
  }

  /** A string of `|s|` digits stays below the base's power. */
  lemma {:induction false} ParseBound(s: string, base: nat)
    requires base > 0 && Parse(s, base).Some?
    ensures Parse(s, base).value < Pow(base, |s|)
  {
    if |s| == 1 {
      assert Pow(base, 1) == base * Pow(base, 0);
    } else {
      ParseBound(s[..|s|-1], base);
      OneMoreDigit(Parse(s[..|s|-1], base).value, Pow(base, |s| - 1), DigitValue(s[|s|-1]).value, base);
    }
  }

  lemma OneMoreDigit(high: nat, bound: nat, low: nat, base: nat)
    requires high < bound && low < base
    ensures high * base + low < base * bound
  {
    assert (high + 1) * base <= bound * base;
  }

  // ---------------------------------------------------------------- the order of stamps

  /** `str(timestamp)`. */
  function Stamp(ntp: nat, id: string): string {
    Dec(ntp) + "/" + id
  }

  lemma {:induction false} SameLengthOrder(m: nat, n: nat, x: string, y: string)
    requires |Dec(m)| == |Dec(n)| && m < n
    ensures StrLt(Dec(m) + x, Dec(n) + y)
  {
    if n < 10 {
    } else {
      assert |Dec(m)| > 1;
      var p, q := Dec(m / 10), Dec(n / 10);
      var c, d := Digit(m % 10), Digit(n % 10);
      assert Dec(m) + x == p + ([c] + x) && Dec(n) + y == q + ([d] + y);
      if m / 10 < n / 10 {
        SameLengthOrder(m / 10, n / 10, [c] + x, [d] + y);
      } else {
        CommonPrefix(p, [c] + x, [d] + y);
      }
    }
  }

  /** `n` without its last `d` decimal digits. */
  function Lead(n: nat, d: nat): nat {
    if d == 0 then n else Lead(n / 10, d - 1)
  }

  lemma {:induction false} Leading(n: nat, d: nat) returns (tail: string)
    requires d < |Dec(n)|
    ensures Dec(n) == Dec(Lead(n, d)) + tail && |tail| == d
    ensures forall i :: 0 <= i < d ==> '0' <= tail[i]
  {
    if d == 0 {
      tail := "";
    } else {
      tail := Leading(n / 10, d - 1);
      tail := tail + [Digit(n % 10)];
    }
  }

  lemma {:induction false} LongerIsGreater(m: nat, n: nat)
    requires m <= n
    ensures |Dec(m)| <= |Dec(n)|
  {
    if m >= 10 {
      LongerIsGreater(m / 10, n / 10);
    }
  }

  /** When the string order is right: an older stamp sorts below a newer one exactly when it does not
      exceed the newer one's leading digits, as many as its own. */
  lemma StringOrderExactly(m: nat, i: string, n: nat, j: string)
    requires m < n
    ensures |Dec(m)| <= |Dec(n)|
    ensures StrLt(Stamp(m, i), Stamp(n, j)) <==> m <= Lead(n, |Dec(n)| - |Dec(m)|)
  {
    LongerIsGreater(m, n);
    var d := |Dec(n)| - |Dec(m)|;
    var tail := Leading(n, d);
    var lead := Lead(n, d);
    StampSplit(n, j, lead, tail);
    StampSplit(m, i, m, "");
    assert "" + ("/" + i) == "/" + i;
    AgainstLead(m, "/" + i, lead, tail, "/" + j);
  }

  lemma StampSplit(n: nat, j: string, lead: nat, tail: string)
    requires Dec(n) == Dec(lead) + tail
    ensures Stamp(n, j) == Dec(lead) + (tail + ("/" + j))
  {
  }

  lemma AgainstLead(m: nat, x: string, lead: nat, tail: string, y: string)
    requires |Dec(m)| == |Dec(lead)| && (tail == "" ==> m < lead)
    requires x != "" && x[0] < '0' && (tail != "" ==> '0' <= tail[0])
    ensures StrLt(Dec(m) + x, Dec(lead) + (tail + y)) <==> m <= lead
  {
    if m < lead {
      SameLengthOrder(m, lead, x, tail + y);
    } else if m == lead {
      CommonPrefix(Dec(m), x, tail + y);
      assert (tail + y)[0] == tail[0];
    } else {
      SameLengthOrder(lead, m, tail + y, x);
      NotBoth(Dec(lead) + (tail + y), Dec(m) + x);
    }
  }

  lemma NotBoth(a: string, b: string)
    requires StrLt(a, b)
    ensures !StrLt(b, a)
  {
    if StrLt(b, a) {
      StrLtTransitive(a, b, a);
      StrLtIrreflexive(a);
    }
  }

  /** Stamps with equally many digits sort as their numbers do, then by id. */
  lemma SameDigitsAgree(m: nat, i: string, n: nat, j: string)
    requires |Dec(m)| == |Dec(n)|
    ensures StrLt(Stamp(m, i), Stamp(n, j)) <==> m < n || (m == n && StrLt(i, j))
  {
    if m < n {
      StringOrderExactly(m, i, n, j);
    } else if n < m {
      StringOrderExactly(n, j, m, i);
      NotBoth(Stamp(n, j), Stamp(m, i));
    } else {
      CommonPrefix(Dec(m) + "/", i, j);
    }
  }

  lemma {:induction false} DigitCount(n: nat, base: nat, k: nat)
    requires base == 10 || base == 16
    requires k > 0 && (k == 1 || Pow(base, k - 1) <= n) && n < Pow(base, k)
    ensures |Write(n, base)| == k
  {
    assert Pow(base, k) == base * Pow(base, k - 1);
    if k == 1 {
      assert Pow(base, 0) == 1;
    } else {
      assert Pow(base, k - 1) == base * Pow(base, k - 2);
      if base == 10 {
        DigitCount(n / 10, 10, k - 1);
      } else {
        DigitCount(n / 16, 16, k - 1);
      }
    }
  }

  const TEN_18: nat := 1_000_000_000_000_000_000
  const TEN_19: nat := 10_000_000_000_000_000_000

  lemma Powers()
    ensures Pow(10, 18) == TEN_18 && Pow(10, 19) == TEN_19 && Pow(10, 20) == 10 * TEN_19
    ensures Pow(10, 16) == 10_000_000_000_000_000
    ensures Pow(16, 15) == TWO_64 / 16 && Pow(16, 16) == TWO_64
  {
    assert Pow(10, 0) == 1 && Pow(16, 0) == 1;
    assert Pow(10, 4) == 10_000 by { assert Pow(10, 2) == 100; }
    assert Pow(10, 8) == 100_000_000 by { assert Pow(10, 6) == 1_000_000; }
    assert Pow(10, 12) == 1_000_000_000_000 by { assert Pow(10, 10) == 10_000_000_000; }
    assert Pow(10, 16) == 10_000_000_000_000_000 by { assert Pow(10, 14) == 100_000_000_000_000; }
    assert Pow(16, 4) == 0x1_0000 by { assert Pow(16, 2) == 0x100; }
    assert Pow(16, 8) == 0x1_0000_0000 by { assert Pow(16, 6) == 0x100_0000; }
    assert Pow(16, 12) == 0x1_0000_0000_0000 by { assert Pow(16, 10) == 0x100_0000_0000; }
    assert Pow(16, 14) == 0x100_0000_0000_0000;
  }

  /** In the 19-digit range real clocks sit in, the string order is the numeric one. */
  lemma NineteenDigitsAgree(m: nat, i: string, n: nat, j: string)
    requires TEN_18 <= m < TEN_19 && TEN_18 <= n < TEN_19
    ensures StrLt(Stamp(m, i), Stamp(n, j)) <==> m < n || (m == n && StrLt(i, j))
  {
    Powers();
    DigitCount(m, 10, 19);
    DigitCount(n, 10, 19);
    SameDigitsAgree(m, i, n, j);
  }

  /** Where that range ends: once the NTP value has 20 digits, every stamp it can ever take sorts below a
      19-digit one above 2^64 / 10, so a watermark left there drops all that comes after. */
  lemma TwentiethDigitBlinds(m: nat, i: string, n: nat, j: string)
    requires TWO_64 / 10 < m < TEN_19 <= n < TWO_64
    ensures StrLt(Stamp(n, j), Stamp(m, i))
  {
    Powers();
    DigitCount(m, 10, 19);
    DigitCount(n, 10, 20);
    StringOrderExactly(m, i, n, j);
    assert Lead(n, 1) == n / 10;
    StrLtTotal(Stamp(m, i), Stamp(n, j));
    DecHasNoSlash(n);
    assert Dec(n)[19] in Dec(n);
    assert Stamp(m, i)[19] == '/' && Stamp(n, j)[19] == Dec(n)[19];
  }

  lemma {:induction false} DecHasNoSlash(n: nat)
    ensures '/' !in Dec(n)
  {
    if n >= 10 {
      DecHasNoSlash(n / 10);
    }
  }

  // ---------------------------------------------------------------- reading a stamp back

  const EPOCH_PLAUSIBLE_MIN: nat := 946684800
  const EPOCH_PLAUSIBLE_MAX: nat := 4102444800

  predicate Plausible(ntp: nat) {
    EPOCH_PLAUSIBLE_MIN <= ntp / TWO_32 <= EPOCH_PLAUSIBLE_MAX
  }

  /** Seconds, and a fraction in the low 32 bits. */
  function Epoch(ntp: nat): real {
    (ntp / TWO_32) as real + (ntp % TWO_32) as real / TWO_32 as real
  }

  function PlausibleEpoch(ntp: Option<nat>): Option<real> {
    if ntp.Some? && Plausible(ntp.value) then Some(Epoch(ntp.value)) else None
  }

  /** `_ntp64_seconds`: decimal first, then hexadecimal, whichever is a plausible time. */
  function NtpSeconds(raw: string): Option<real> {
    var decimal := PlausibleEpoch(Parse(raw, 10));
    if decimal.Some? then decimal else PlausibleEpoch(Parse(raw, 16))
  }

  /** The part of a stamp before its first slash. */
  function NumericHalf(stamp: string): string {
    if stamp == "" || stamp[0] == '/' then "" else [stamp[0]] + NumericHalf(stamp[1..])
  }

  /** `_parse_hlc_string`. */
  function IssuedAt(stamp: string): Option<real> {
    if '/' in stamp then NtpSeconds(NumericHalf(stamp)) else None
  }

  /** The part of a stamp after its first slash: who stamped it; empty if nobody. */
  function OriginZid(stamp: string): string {
    if stamp == "" then "" else if stamp[0] == '/' then stamp[1..] else OriginZid(stamp[1..])
  }

  /** A sample's timestamp: Zenoh's own, with what its accessors give, or one that has its string form alone. An
      accessor that raises gives `None`. */
  datatype Timestamp =
    | Native(text: string, time: Option<real>, id: Option<string>)
    | Written(text: string)

  /** `_parse_hlc`. */
  function Issued(ts: Timestamp): Option<real> {
    match ts
    case Native(_, time, _) => time
    case Written(text) => IssuedAt(text)
  }

  /** `_parse_origin_zid`; empty for nobody. */
  function Sender(ts: Timestamp): string {
    match ts
    case Native(_, _, id) => (match id case Some(zid) => zid case None => "")
    case Written(text) => OriginZid(text)
  }

  function Zeros(k: nat): string {
    if k == 0 then "" else "0" + Zeros(k - 1)
  }

  /** Python's `f'{n:016x}'`. */
  function Hex16(n: nat): string {
    var s := Write(n, 16);
    if |s| < 16 then Zeros(16 - |s|) + s else s
  }

  lemma EpochIsTheFraction(ntp: nat)
    ensures Epoch(ntp) == ntp as real / TWO_32 as real
  {
    var q, r := ntp / TWO_32, ntp % TWO_32;
    assert ntp == q * TWO_32 + r;
    assert ntp as real == q as real * TWO_32 as real + r as real;
  }

  /** A run of decimal digits short enough to be a hexadecimal stamp never reads as a plausible decimal. */
  lemma SixteenDigitsAreNoEpoch(raw: string)
    requires |raw| == 16
    ensures PlausibleEpoch(Parse(raw, 10)).None?
  {
    if Parse(raw, 10).Some? {
      ParseBound(raw, 10);
      Powers();
    }
  }

  /** Both renderings of a plausible NTP value decode to it: the base is never mistaken. */
  lemma BothBasesDecode(n: nat)
    requires n < TWO_64 && Plausible(n)
    ensures NtpSeconds(Dec(n)) == Some(n as real / TWO_32 as real)
    ensures NtpSeconds(Hex16(n)) == Some(n as real / TWO_32 as real)
  {
    EpochIsTheFraction(n);
    ParseWrite(n, 10);
    ParseWrite(n, 16);
    Powers();
    DigitCount(n, 16, 16);
    SixteenDigitsAreNoEpoch(Hex16(n));
  }

  lemma {:induction false} HalvesSplit(p: string, id: string)
    requires '/' !in p
    ensures NumericHalf(p + "/" + id) == p && OriginZid(p + "/" + id) == id && '/' in p + "/" + id
  {
    var s := p + "/" + id;
    assert s[|p|] == '/';
    if p != "" {
      HalvesSplit(p[1..], id);
      assert s[1..] == p[1..] + "/" + id;
    }
  }

  /** A stamp that has its string form alone gives back its time and its sender, the same as Zenoh's own does; and one
      whose accessors raise tells neither, whatever its string says. */
  lemma StampReadsBack(n: nat, id: string, text: string)
    requires n < TWO_64 && Plausible(n)
    ensures Issued(Written(Stamp(n, id))) == Some(n as real / TWO_32 as real)
    ensures Sender(Written(Stamp(n, id))) == id
    ensures var native := Native(text, Some(n as real / TWO_32 as real), Some(id));
      Issued(native) == Issued(Written(Stamp(n, id))) && Sender(native) == Sender(Written(Stamp(n, id)))
    ensures Issued(Native(text, None, None)) == None && Sender(Native(text, None, None)) == ""
  {
    DecHasNoSlash(n);
    HalvesSplit(Dec(n), id);
    BothBasesDecode(n);
  }

  /** A time from the start of 2000 to that of 2100. */
  predicate ThisCentury(ntp: Option<nat>) {
    ntp.Some? && 946684800 <= ntp.value / 0x1_0000_0000 <= 4102444800
  }

  /** Which strings have a time: those with a slash whose front is, in decimal or else in hexadecimal, a time of this
      century; and a sender, those with a slash. */
  lemma TimeIsReadExactly(front: string, id: string, text: string)
    requires '/' !in front && '/' !in text
    ensures var decimal, hex := Parse(front, 10), Parse(front, 16);
      Issued(Written(front + "/" + id)) ==
        if ThisCentury(decimal) then Some(decimal.value as real / TWO_32 as real)
        else if ThisCentury(hex) then Some(hex.value as real / TWO_32 as real)
        else None
    ensures Sender(Written(front + "/" + id)) == id
    ensures Issued(Written(text)) == None && Sender(Written(text)) == ""
  {
    HalvesSplit(front, id);
    if Parse(front, 10).Some? {
      EpochIsTheFraction(Parse(front, 10).value);
    }
    if Parse(front, 16).Some? {
      EpochIsTheFraction(Parse(front, 16).value);
    }
    NobodyWithoutASlash(text);
  }

  lemma {:induction false} NobodyWithoutASlash(text: string)
    requires '/' !in text
    ensures OriginZid(text) == ""
  {
    if text != "" {
      assert text[0] in text;
      NobodyWithoutASlash(text[1..]);
    }
  }
}
