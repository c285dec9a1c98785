/** Evaluation of an untagged JavaScript template literal
    `c0${e0}c1${e1}...${e(n-1)}cn`: the n + 1 literal chunks and the string
    values of the n substitutions, joined in order (ECMA-262, section 13.2.8,
    "Template Literals"). The lemmas locate each substituted value, with the
    literal text around it, inside the result. */
module TemplateLiteral {

  // Facts about one string occurring inside another

  predicate EndsWith(s: string, suffix: string) {
    |suffix| <= |s| && s[|s| - |suffix|..] == suffix
  }

  /** `w` occurs in `s` starting at position `p`. */
  predicate OccursAt(s: string, p: int, w: string) {
    0 <= p && p + |w| <= |s| && s[p..p + |w|] == w
  }

  lemma EndsWithJoin(x: string, y: string)
    ensures EndsWith(x + y, y)
  {
    assert (x + y)[|x|..] == y;
  }

  lemma StartsWithJoin(x: string, y: string, z: string, w: string)
    ensures x <= x + y && x <= x + y + z && x <= x + y + z + w
  {
    assert (x + y + z)[..|x|] == x;
    assert (x + y + z + w)[..|x|] == x;
  }

  lemma EndsWithTrans(s: string, t: string, u: string)
    requires EndsWith(s, t) && EndsWith(t, u)
    ensures EndsWith(s, u)
  {
    assert s[|s| - |u|..] == s[|s| - |t|..][|t| - |u|..];
  }

  lemma OccursAfter(x: string, v: string, c: string)
    ensures OccursAt(x + v + c, |x|, v + c)
  {
    assert (x + v + c)[|x|..|x| + |v + c|] == v + c;
  }

  lemma OccursInPrefix(a: string, b: string, p: int, w: string)
    requires a <= b && OccursAt(a, p, w)
    ensures OccursAt(b, p, w)
  {
    assert b[p..p + |w|] == a[p..p + |w|];
  }

  /** A text ending with `open`, followed by four more pieces, ends with
      `open` and those pieces. */
  lemma Closed(x: string, open: string, b: string, c: string, d: string, e: string)
    requires EndsWith(x, open)
    ensures EndsWith(x + b + c + d + e, open + b + c + d + e)
  {
    var y := x[..|x| - |open|];
    assert x == y + open;
    assert x + b + c + d + e == y + (open + b + c + d + e);
    EndsWithJoin(y, open + b + c + d + e);
  }

  /** Regrouping the last two pieces of a concatenation. */
  lemma Regroup(a: string, b: string, c: string, d: string, e: string, f: string)
    ensures a + b + c + d + (e + f) == a + b + c + d + e + f
  {
  }

  /** Two occurrences side by side are one occurrence of the joined text. */
  lemma Adjoin(r: string, p: int, a: string, b: string)
    requires OccursAt(r, p, a) && OccursAt(r, p + |a|, b)
    ensures OccursAt(r, p, a + b)
  {
    assert r[p..p + |a| + |b|] == r[p..p + |a|] + r[p + |a|..p + |a| + |b|];
  }

  /** An occurrence of a text is an occurrence of each of its prefixes. */
  lemma Narrow(r: string, p: int, a: string, b: string)
    requires OccursAt(r, p, b) && a <= b
    ensures OccursAt(r, p, a)
  {
    assert r[p..p + |a|] == r[p..p + |b|][..|a|];
  }

  /** An occurrence of `a + w + c` holds an occurrence of `w` after `a`. */
  lemma Inner(r: string, p: int, a: string, w: string, c: string)
    requires OccursAt(r, p, a + w + c)
    ensures OccursAt(r, p + |a|, w)
  {
    var whole := a + w + c;
    forall i | 0 <= i < |w|
      ensures r[p + |a| + i] == w[i]
    {
      assert r[p + |a| + i] == r[p..p + |whole|][|a| + i] == whole[|a| + i];
    }
    assert r[p + |a|..p + |a| + |w|] == w;
  }

  /** A prefix of `r` that ends with `w` places an occurrence of `w` in `r`. */
  lemma SuffixOfPrefix(b: string, r: string, w: string)
    requires b <= r && EndsWith(b, w)
    ensures OccursAt(r, |b| - |w|, w)
  {
    assert r[|b| - |w|..|b|] == b[|b| - |w|..];
  }

  lemma Surround(r: string, p: int, open: string, v: string, close: string)
    requires OccursAt(r, p - |open|, open) && OccursAt(r, p, v + close)
    ensures OccursAt(r, p - |open|, open + v + close)
  {
    Adjoin(r, p - |open|, open, v + close);
    assert open + (v + close) == open + v + close;
  }

  // Evaluating a template literal

  /** A template literal with `n` substitutions: its `n + 1` literal chunks
      and the `n` substituted strings, alternated, chunk first. */
  function Interpolate(chunks: seq<string>, values: seq<string>): string
    requires |chunks| == |values| + 1
    decreases |values|
  {
    if |values| == 0 then chunks[0]
    else
      var n := |values|;
      Interpolate(chunks[..n], values[..n - 1]) + values[n - 1] + chunks[n]
  }

  /** The result begins with the first literal chunk and ends with the last. */
  lemma {:induction false} InterpolateEnds(chunks: seq<string>, values: seq<string>)
    requires |chunks| == |values| + 1
    ensures chunks[0] <= Interpolate(chunks, values)
    ensures EndsWith(Interpolate(chunks, values), chunks[|values|])
    decreases |values|
  {
    if |values| > 0 {
      var n := |values|;
      var init := Interpolate(chunks[..n], values[..n - 1]);
      InterpolateEnds(chunks[..n], values[..n - 1]);
      assert chunks[..n][0] == chunks[0];
      StartsWithJoin(init, values[n - 1], chunks[n], "");
      EndsWithJoin(init + values[n - 1], chunks[n]);
    }
  }

  /** The text that precedes substitution `k`. */
  function Before(chunks: seq<string>, values: seq<string>, k: nat): string
    requires |chunks| == |values| + 1 && k <= |values|
  {
    Interpolate(chunks[..k + 1], values[..k])
  }

  /** Where the value of substitution `k` begins in the result. */
  function Offset(chunks: seq<string>, values: seq<string>, k: nat): nat
    requires |chunks| == |values| + 1 && k <= |values|
  {
    |Before(chunks, values, k)|
  }

  lemma BeforeStep(chunks: seq<string>, values: seq<string>, k: nat)
    requires |chunks| == |values| + 1 && k < |values|
    ensures Before(chunks, values, k + 1)
         == Before(chunks, values, k) + values[k] + chunks[k + 1]
  {
    var c, v := chunks[..k + 2], values[..k + 1];
    assert c[..k + 1] == chunks[..k + 1];
    assert v[..k] == values[..k];
  }

  lemma BeforeWhole(chunks: seq<string>, values: seq<string>)
    requires |chunks| == |values| + 1
    ensures Before(chunks, values, |values|) == Interpolate(chunks, values)
  {
    assert chunks[..|values| + 1] == chunks;
    assert values[..|values|] == values;
  }

  /** The text before an earlier substitution is a prefix of the text before
      a later one, and so of the whole result. */
  lemma {:induction false} BeforeGrows(chunks: seq<string>, values: seq<string>, i: nat, j: nat)
    requires |chunks| == |values| + 1 && i <= j <= |values|
    ensures Before(chunks, values, i) <= Before(chunks, values, j)
    ensures Before(chunks, values, i) <= Interpolate(chunks, values)
    decreases |values| - i
  {
    if i < |values| {
      BeforeStep(chunks, values, i);
      BeforeGrows(chunks, values, i + 1, if j == i then i + 1 else j);
    } else {
      BeforeWhole(chunks, values);
    }
  }

  /** Chunk `k` ends the text before substitution `k`. */
  lemma BeforeEndsWithChunk(chunks: seq<string>, values: seq<string>, k: nat)
    requires |chunks| == |values| + 1 && k <= |values|
    ensures EndsWith(Before(chunks, values, k), chunks[k])
    ensures Before(chunks, values, k) <= Interpolate(chunks, values)
  {
    assert chunks[..k + 1][k] == chunks[k];
    InterpolateEnds(chunks[..k + 1], values[..k]);
    BeforeGrows(chunks, values, k, k);
  }

  /** Substitution `k` contributes its value verbatim at Offset(k), followed
      by the next literal chunk. */
  lemma SubstitutionAt(chunks: seq<string>, values: seq<string>, k: nat)
    requires |chunks| == |values| + 1 && k < |values|
    ensures OccursAt(Interpolate(chunks, values), Offset(chunks, values, k), values[k] + chunks[k + 1])
  {
    var b, v, c := Before(chunks, values, k), values[k], chunks[k + 1];
    var next := Before(chunks, values, k + 1);
    BeforeStep(chunks, values, k);
    assert next == b + v + c;
    OccursAfter(b, v, c);
    assert OccursAt(next, |b|, v + c);
    BeforeGrows(chunks, values, k + 1, k + 1);
    OccursInPrefix(next, Interpolate(chunks, values), |b|, v + c);
  }

  /** Substitution values appear in the order of their substitutions, each
      with the literal chunk that follows it before the next one begins. */
  lemma {:induction false} SubstitutionsInOrder(chunks: seq<string>, values: seq<string>, i: nat, j: nat)
    requires |chunks| == |values| + 1 && i < j <= |values|
    ensures Offset(chunks, values, i) + |values[i]| + |chunks[i + 1]| <= Offset(chunks, values, j)
  {
    BeforeStep(chunks, values, i);
    BeforeGrows(chunks, values, i + 1, j);
  }

  /** Between two substitutions that are not adjacent lie at least the chunk
      after the first and the chunk before the second. */
  lemma SubstitutionsApart(chunks: seq<string>, values: seq<string>, i: nat, j: nat)
    requires |chunks| == |values| + 1 && i + 1 < j <= |values|
    ensures Offset(chunks, values, i) + |values[i]| + |chunks[i + 1]| + |chunks[j]|
            <= Offset(chunks, values, j)
  {
    SubstitutionsInOrder(chunks, values, i, j - 1);
    BeforeStep(chunks, values, j - 1);
  }

  /** The end of chunk `k` stands right before substitution `k`. */
  lemma OpenBefore(chunks: seq<string>, values: seq<string>, k: nat, open: string)
    requires |chunks| == |values| + 1 && k <= |values| && EndsWith(chunks[k], open)
    ensures Offset(chunks, values, k) >= |open|
    ensures OccursAt(Interpolate(chunks, values), Offset(chunks, values, k) - |open|, open)
  {
    var b, r := Before(chunks, values, k), Interpolate(chunks, values);
    BeforeEndsWithChunk(chunks, values, k);
    assert EndsWith(b, chunks[k]) && b <= r;
    EndsWithTrans(b, chunks[k], open);
    SuffixOfPrefix(b, r, open);
    assert Offset(chunks, values, k) == |b|;
  }

  /** The start of chunk `k + 1` stands right after substitution `k`. */
  lemma CloseAfter(chunks: seq<string>, values: seq<string>, k: nat, close: string)
    requires |chunks| == |values| + 1 && k < |values| && close <= chunks[k + 1]
    ensures OccursAt(Interpolate(chunks, values), Offset(chunks, values, k), values[k] + close)
  {
    var r, p, v := Interpolate(chunks, values), Offset(chunks, values, k), values[k];
    SubstitutionAt(chunks, values, k);
    assert OccursAt(r, p, v + chunks[k + 1]);
    assert v + close <= v + chunks[k + 1];
    Narrow(r, p, v + close, v + chunks[k + 1]);
  }

  /** When chunk `k` ends with `open` and chunk `k + 1` begins with `close`,
      the result holds `open`, the value of substitution `k`, and `close`,
      contiguously, ending where the value does. */
  lemma {:induction false} Framed(chunks: seq<string>, values: seq<string>, k: nat, open: string, close: string)
    requires |chunks| == |values| + 1 && k < |values|
    requires EndsWith(chunks[k], open) && close <= chunks[k + 1]
    ensures Offset(chunks, values, k) >= |open|
    ensures OccursAt(Interpolate(chunks, values), Offset(chunks, values, k) - |open|,
                     open + values[k] + close)
  {
    var r := Interpolate(chunks, values);
    var p := Offset(chunks, values, k);
    OpenBefore(chunks, values, k, open);
    assert OccursAt(r, p - |open|, open);
    CloseAfter(chunks, values, k, close);
    assert OccursAt(r, p, values[k] + close);
    Surround(r, p, open, values[k], close);
  }

  /** The text of the last two substitutions, with the end of the chunk
      before them, ends the result; it begins `|open|` before substitution
      `n - 2`. */
  lemma {:induction false} Closing(chunks: seq<string>, values: seq<string>, open: string)
    requires |chunks| == |values| + 1 && |values| >= 2
    requires EndsWith(chunks[|values| - 2], open)
    ensures var n := |values|;
            var tail := open + values[n - 2] + chunks[n - 1] + values[n - 1] + chunks[n];
            EndsWith(Interpolate(chunks, values), tail) &&
            Offset(chunks, values, n - 2) - |open| + |tail| == |Interpolate(chunks, values)|
  {
    var n := |values|;
    var a, b := chunks[n - 2], values[n - 2];
    var c, d, e := chunks[n - 1], values[n - 1], chunks[n];
    var before := Before(chunks, values, n - 2);
    BeforeStep(chunks, values, n - 2);
    BeforeStep(chunks, values, n - 1);
    BeforeWhole(chunks, values);
    assert Interpolate(chunks, values) == before + b + c + d + e;
    BeforeEndsWithChunk(chunks, values, n - 2);
    EndsWithTrans(before, a, open);
    Closed(before, open, b, c, d, e);
  }
}
