/** String helpers: ASCII case mapping (the model of `toLowerCase` and
    `toUpperCase`), substring search (`includes`), the part before the first
    occurrence of a character (`split(c)[0]`), decimal rendering of a count,
    and copy templates whose interpolated values stay visible. */
module Text {

  function LowerChar(c: char): char {
    if 'A' <= c <= 'Z' then (c as int + 32) as char else c
  }

  function UpperChar(c: char): char {
    if 'a' <= c <= 'z' then (c as int - 32) as char else c
  }

  /** ASCII lower-casing, character by character. */
  function Lower(s: string): (r: string)
    ensures |r| == |s|
    ensures forall i :: 0 <= i < |s| ==> r[i] == LowerChar(s[i])
  {
    if s == [] then [] else [LowerChar(s[0])] + Lower(s[1..])
  }

  /** `s.includes(sub)`: some suffix of `s` starts with `sub`. */
  predicate Contains(s: string, sub: string)
    decreases |s|
  {
    sub <= s || (s != [] && Contains(s[1..], sub))
  }

  /** `sub` occurs in `s` starting at position `i`. */
  predicate OccursAt(s: string, sub: string, i: int) {
    0 <= i <= |s| - |sub| && sub == s[i..i + |sub|]
  }

  /** An occurrence at a position makes the substring contained. */
  lemma {:induction false} OccursAtContained(s: string, sub: string, i: int)
    requires OccursAt(s, sub, i)
    ensures Contains(s, sub)
    decreases i
  {
    if i > 0 {
      assert OccursAt(s[1..], sub, i - 1);
      OccursAtContained(s[1..], sub, i - 1);
    }
  }

  /** Contains agrees with the positional definition of a substring. */
  lemma {:induction false} ContainsAt(s: string, sub: string)
    ensures Contains(s, sub) <==> exists i :: OccursAt(s, sub, i)
    decreases |s|
  {
    if exists i :: OccursAt(s, sub, i) {
      var i :| OccursAt(s, sub, i);
      OccursAtContained(s, sub, i);
    }
    if sub <= s {
      assert OccursAt(s, sub, 0);
    } else if s != [] && Contains(s[1..], sub) {
      ContainsAt(s[1..], sub);
      var i :| OccursAt(s[1..], sub, i);
      assert OccursAt(s, sub, i + 1);
    }
  }

  /** The empty string is contained in every string. */
  lemma EmptyContained(s: string)
    ensures Contains(s, "")
  {
  }

  /** A string placed anywhere in a concatenation is contained in it. */
  lemma {:induction false} ContainedInConcat(a: string, sub: string, b: string)
    ensures Contains(a + sub + b, sub)
    decreases |a|
  {
    if a == [] {
      assert a + sub + b == sub + b;
      assert sub <= sub + b;
    } else {
      assert (a + sub + b)[1..] == a[1..] + sub + b;
      ContainedInConcat(a[1..], sub, b);
    }
  }

  /** `s.split(c)[0]`: everything before the first `c`, or all of `s`. */
  function BeforeFirst(s: string, c: char): (r: string)
    ensures r <= s
    ensures c !in r
    ensures r != s ==> s[|r|] == c
  {
    if s == [] then []
    else if s[0] == c then []
    else [s[0]] + BeforeFirst(s[1..], c)
  }

  /** Splitting `a + b` at `c` gives `a` when `a` holds no `c` and `b`
      starts with one. */
  lemma {:induction false} BeforeFirstConcat(a: string, c: char, b: string)
    requires c !in a && |b| > 0 && b[0] == c
    ensures BeforeFirst(a + b, c) == a
  {
    if a == [] {
      assert a + b == b;
    } else {
      assert (a + b)[1..] == a[1..] + b;
      BeforeFirstConcat(a[1..], c, b);
    }
  }

  function DigitChar(d: nat): char
    requires d < 10
  {
    "0123456789"[d]
  }

  /** The decimal rendering of a count, as JSX prints a number. */
  function NatToString(n: nat): (r: string)
    ensures |r| >= 1
    ensures forall i :: 0 <= i < |r| ==> '0' <= r[i] <= '9'
    ensures n < 10 <==> |r| == 1
    decreases n
  {
    if n < 10 then [DigitChar(n)] else NatToString(n / 10) + [DigitChar(n % 10)]
  }

  /** The number a decimal rendering denotes. */
  function DecimalValue(s: string): nat
    requires forall i :: 0 <= i < |s| ==> '0' <= s[i] <= '9'
  {
    if s == [] then 0 else 10 * DecimalValue(s[..|s| - 1]) + (s[|s| - 1] as int - '0' as int)
  }

  /** Reading the rendering back gives the count. */
  lemma {:induction false} NatToStringRoundTrip(n: nat)
    ensures DecimalValue(NatToString(n)) == n
    decreases n
  {
    if n >= 10 {
      NatToStringRoundTrip(n / 10);
      var r := NatToString(n);
      assert r[..|r| - 1] == NatToString(n / 10);
    }
  }

  /** A piece of user-facing copy: fixed text, or a value interpolated into
      it. Keeping interpolations apart lets properties speak about the fixed
      text without the values getting in the way. */
  datatype Piece = Fixed(text: string) | Value(text: string)

  /** The rendered string of a template. */
  function Render(ps: seq<Piece>): string {
    if ps == [] then [] else ps[0].text + Render(ps[1..])
  }

  /** Every interpolated or fixed piece appears in the rendered copy. */
  lemma {:induction false} RenderContains(ps: seq<Piece>, k: nat)
    requires k < |ps|
    ensures Contains(Render(ps), ps[k].text)
  {
    if k == 0 {
      ContainedInConcat([], ps[0].text, Render(ps[1..]));
      assert [] + ps[0].text + Render(ps[1..]) == Render(ps);
    } else {
      RenderContains(ps[1..], k - 1);
      ContainsSuffix(ps[0].text, Render(ps[1..]), ps[k].text);
    }
  }

  /** A substring of the tail is a substring of the whole. */
  lemma {:induction false} ContainsSuffix(a: string, b: string, sub: string)
    requires Contains(b, sub)
    ensures Contains(a + b, sub)
    decreases |a|
  {
    if a != [] {
      assert (a + b)[1..] == a[1..] + b;
      ContainsSuffix(a[1..], b, sub);
    } else {
      assert a + b == b;
    }
  }
}
