/**
 * The fragment of regular expressions that the name validators use: a pattern anchored at both
 * ends (`^ ... $`, which in Go's regexp syntax match only at the start and the end of the text)
 * made of bracket expressions, each repeated a bounded or unbounded number of times.
 */
module Pattern {
  import opened Common

  /** A bracket expression such as `[-\da-zA-Z]`, as its list of inclusive character ranges. */
  datatype CharClass = CharClass(ranges: seq<(char, char)>)

  /** One element of a pattern: a bracket expression and its repetition count, `{min,max}` or `{min,}`. */
  datatype Repeat = Repeat(cls: CharClass, min: nat, max: Option<nat>)

  type Pattern = seq<Repeat>

  predicate InClass(c: char, cls: CharClass) {
    exists r :: r in cls.ranges && r.0 <= c <= r.1
  }

  predicate AllInClass(s: string, cls: CharClass) {
    forall i :: 0 <= i < |s| ==> InClass(s[i], cls)
  }

  predicate CountFits(r: Repeat, k: nat) {
    r.min <= k && (r.max.None? || k <= r.max.value)
  }

  /** A bracket expression without a repetition count: exactly one character. */
  function Once(cls: CharClass): Repeat {
    Repeat(cls, 1, Some(1))
  }

  /** The whole of `s` is matched by `p`: some prefix by `p[0]`, the rest by `p[1..]`. */
  predicate FullMatch(p: Pattern, s: string)
    decreases |p|
  {
    if p == [] then s == []
    else exists k :: 0 <= k <= |s| && CountFits(p[0], k) && AllInClass(s[..k], p[0].cls) && FullMatch(p[1..], s[k..])
  }

  /** A single repeated class matches exactly the strings of an allowed length made of its characters. */
  lemma FullMatchSingle(r: Repeat, s: string)
    ensures FullMatch([r], s) <==> CountFits(r, |s|) && AllInClass(s, r.cls)
  {
    var p := [r];
    assert p[1..] == [];
    if CountFits(r, |s|) && AllInClass(s, r.cls) {
      assert s[..|s|] == s && s[|s|..] == [];
    }
    if FullMatch(p, s) {
      var k :| 0 <= k <= |s| && CountFits(r, k) && AllInClass(s[..k], r.cls) && FullMatch(p[1..], s[k..]);
      assert k == |s| && s[..k] == s;
    }
  }

  /** A pattern that starts with one character of `a` matches `s` iff `s[0]` is in `a` and the rest matches. */
  lemma FullMatchOnceThen(a: CharClass, rest: Pattern, s: string)
    ensures FullMatch([Once(a)] + rest, s) <==> |s| >= 1 && InClass(s[0], a) && FullMatch(rest, s[1..])
  {
    var p := [Once(a)] + rest;
    assert p[0] == Once(a) && p[1..] == rest;
    if |s| >= 1 && InClass(s[0], a) && FullMatch(rest, s[1..]) {
      assert AllInClass(s[..1], a);
    }
    if FullMatch(p, s) {
      var k :| 0 <= k <= |s| && CountFits(p[0], k) && AllInClass(s[..k], a) && FullMatch(rest, s[k..]);
      assert k == 1 && s[..k][0] == s[0];
    }
  }

  /** `[b, Once(a)]` matches `s` iff its last character is in `a` and all before it is matched by `b`. */
  lemma FullMatchThenOnce(b: Repeat, a: CharClass, s: string)
    ensures FullMatch([b, Once(a)], s) <==>
      |s| >= 1 && InClass(s[|s| - 1], a) && CountFits(b, |s| - 1) && AllInClass(s[..|s| - 1], b.cls)
  {
    var p := [b, Once(a)];
    assert p[0] == b && p[1..] == [Once(a)];
    if FullMatch(p, s) {
      var k :| 0 <= k <= |s| && CountFits(b, k) && AllInClass(s[..k], b.cls) && FullMatch([Once(a)], s[k..]);
      FullMatchSingle(Once(a), s[k..]);
      assert k == |s| - 1;
      assert s[k..][0] == s[|s| - 1];
    }
    if |s| >= 1 && InClass(s[|s| - 1], a) && CountFits(b, |s| - 1) && AllInClass(s[..|s| - 1], b.cls) {
      var k := |s| - 1;
      FullMatchSingle(Once(a), s[k..]);
      assert AllInClass(s[k..], a) by {
        assert |s[k..]| == 1 && s[k..][0] == s[|s| - 1];
      }
    }
  }

  /**
   * The shape of both Front Door name patterns, `(^a)(b{lo,hi})(a$)`: one character of `a`, a run
   * of the middle repeat, and one character of `a`.
   */
  lemma FullMatchBracketed(a: CharClass, b: Repeat, s: string)
    ensures FullMatch([Once(a), b, Once(a)], s) <==>
      |s| >= 2 && InClass(s[0], a) && InClass(s[|s| - 1], a) &&
      CountFits(b, |s| - 2) && AllInClass(s[1..|s| - 1], b.cls)
  {
    assert [Once(a), b, Once(a)] == [Once(a)] + [b, Once(a)];
    FullMatchOnceThen(a, [b, Once(a)], s);
    if |s| >= 1 {
      var t := s[1..];
      FullMatchThenOnce(b, a, t);
      if |t| >= 1 {
        assert t[|t| - 1] == s[|s| - 1];
        assert t[..|t| - 1] == s[1..|s| - 1];
      }
    }
  }
}
