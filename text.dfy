/**
 * Text primitives shared by the scorers, the mitigators and the pipeline:
 * ASCII case folding, Python's word and whitespace character classes,
 * substring tests, whitespace word counting, and the regular-expression
 * engine, which is foreign and modelled as an oracle over pattern sources.
 */
module Text {

  // ---------------------------------------------------------------------
  // Characters and strings
  // ---------------------------------------------------------------------

  /** `str.lower()` restricted to ASCII: upper-case letters map to lower case. */
  function LowerChar(c: char): (r: char)
    ensures 'A' <= c <= 'Z' ==> 'a' <= r <= 'z' && r as int == c as int + 32
    ensures !('A' <= c <= 'Z') ==> r == c
  {
    if 'A' <= c <= 'Z' then (c as int + 32) as char else c
  }

  /** `s.lower()`, character by character. */
  function LowerStr(s: string): (r: string)
    ensures |r| == |s|
  {
    seq(|s|, i requires 0 <= i < |s| => LowerChar(s[i]))
  }

  /** Lower-casing twice is lower-casing once: `text.lower()` on lower-cased text changes nothing. */
  lemma LowerTwice(s: string)
    ensures LowerStr(LowerStr(s)) == LowerStr(s)
  {
    var l := LowerStr(s);
    forall i | 0 <= i < |s| ensures LowerChar(l[i]) == l[i] {
    }
  }

  /** Python's `\w` restricted to ASCII: letters, digits and underscore. */
  predicate IsWordChar(c: char)
  {
    ('a' <= c <= 'z') || ('A' <= c <= 'Z') || ('0' <= c <= '9') || c == '_'
  }

  /** Python's `str.isspace()`, which is also what `\s` and `str.split()` use. */
  predicate IsSpace(c: char)
  {
    var n := c as int;
    (0x09 <= n <= 0x0D) || (0x1C <= n <= 0x20) || n == 0x85 || n == 0xA0
    || n == 0x1680 || (0x2000 <= n <= 0x200A) || n == 0x2028 || n == 0x2029
    || n == 0x202F || n == 0x205F || n == 0x3000
  }

  /** `sub` occurs in `s` starting at index `i`. */
  predicate OccursAt(s: string, sub: string, i: nat)
  {
    i + |sub| <= |s| && s[i..i + |sub|] == sub
  }

  /** Python's `sub in s`. */
  predicate Contains(s: string, sub: string)
  {
    exists i | 0 <= i <= |s| :: OccursAt(s, sub, i)
  }

  /** Lower-casing works character by character, so it distributes over concatenation. */
  lemma LowerConcat(a: string, b: string)
    ensures LowerStr(a + b) == LowerStr(a) + LowerStr(b)
  {
    var l, r := LowerStr(a + b), LowerStr(a) + LowerStr(b);
    forall i | 0 <= i < |l| ensures l[i] == r[i] {
      if i < |a| {
        assert (a + b)[i] == a[i];
      } else {
        assert (a + b)[i] == b[i - |a|];
      }
    }
  }

  /** Text added around `s` never removes a substring of `s`. */
  lemma ContainsExtend(pre: string, s: string, post: string, sub: string)
    requires Contains(s, sub)
    ensures Contains(pre + s + post, sub)
  {
    var i :| 0 <= i <= |s| && OccursAt(s, sub, i);
    assert (pre + s + post)[|pre| + i..|pre| + i + |sub|] == s[i..i + |sub|];
    assert OccursAt(pre + s + post, sub, |pre| + i);
  }

  /** `len(s.split())`: the number of maximal runs of non-whitespace characters. */
  function WordCount(s: string): (n: nat)
    ensures n <= |s|
    ensures n == 0 <==> forall i :: 0 <= i < |s| ==> IsSpace(s[i])
    decreases |s|
  {
    if |s| == 0 then 0
    else
      var k := |s| - 1;
      WordCount(s[..k]) + (if !IsSpace(s[k]) && (k == 0 || IsSpace(s[k - 1])) then 1 else 0)
  }

  /** Python's `sum(1 for t in terms if t in s)`. */
  function CountContained(terms: seq<string>, s: string): (n: nat)
    ensures n <= |terms|
    ensures n == 0 <==> forall i :: 0 <= i < |terms| ==> !Contains(s, terms[i])
  {
    if |terms| == 0 then 0
    else CountContained(terms[..|terms| - 1], s) + (if Contains(s, terms[|terms| - 1]) then 1 else 0)
  }

  /** A string that contains every term `s` contains contains at least as many of `terms`. */
  lemma {:induction false} CountContainedMono(terms: seq<string>, s: string, s2: string)
    requires forall i :: 0 <= i < |terms| && Contains(s, terms[i]) ==> Contains(s2, terms[i])
    ensures CountContained(terms, s) <= CountContained(terms, s2)
    decreases |terms|
  {
    if |terms| > 0 {
      CountContainedMono(terms[..|terms| - 1], s, s2);
    }
  }

  /** Adding text around `s` never lowers the number of terms its lower-cased form contains. */
  lemma CountContainedExtend(terms: seq<string>, pre: string, s: string, post: string)
    ensures CountContained(terms, LowerStr(s)) <= CountContained(terms, LowerStr(pre + s + post))
  {
    LowerConcat(pre + s, post);
    LowerConcat(pre, s);
    forall i | 0 <= i < |terms| && Contains(LowerStr(s), terms[i])
      ensures Contains(LowerStr(pre + s + post), terms[i])
    {
      ContainsExtend(LowerStr(pre), LowerStr(s), LowerStr(post), terms[i]);
    }
    CountContainedMono(terms, LowerStr(s), LowerStr(pre + s + post));
  }

  /** A string holding `s` at index `i` contains at least as many of `terms`, after lower-casing, as `s`. */
  lemma CountContainedWithin(terms: seq<string>, s: string, t: string, i: nat)
    requires i + |s| <= |t| && t[i..i + |s|] == s
    ensures CountContained(terms, LowerStr(s)) <= CountContained(terms, LowerStr(t))
  {
    CountContainedExtend(terms, t[..i], s, t[i + |s|..]);
    assert t[..i] + s + t[i + |s|..] == t;
  }

  // ---------------------------------------------------------------------
  // The regular-expression engine, as an oracle
  // ---------------------------------------------------------------------

  /**
   * Python's `re` module applied to a pattern and a subject string:
   * `search(p, s)` is `re.search(p, s) is not None` and `findall(p, s)` is
   * `len(re.findall(p, s))`. Patterns are opaque values of type `P`, each
   * module naming its own and giving their regular-expression source; the
   * engine's internals are not modelled.
   */
  datatype Regex<!P> = Regex(search: (P, string) -> bool, findall: (P, string) -> nat)

  /** `findall` finds something exactly when `search` does. */
  ghost predicate Coherent<P(!new)>(rx: Regex<P>)
  {
    forall p, s :: rx.findall(p, s) > 0 <==> rx.search(p, s)
  }

  /** `any(re.search(p, s) for p in pats)`. */
  predicate AnyMatch<P>(rx: Regex<P>, pats: seq<P>, s: string)
  {
    exists i | 0 <= i < |pats| :: rx.search(pats[i], s)
  }

  /** The index of the first pattern that matches, as a scan that stops at the first hit does. */
  function FirstMatch<P>(rx: Regex<P>, pats: seq<P>, s: string): (r: Option<nat>)
    ensures r.Some? ==> r.value < |pats| && rx.search(pats[r.value], s)
    ensures r.Some? ==> forall j :: 0 <= j < r.value ==> !rx.search(pats[j], s)
    ensures r.None? <==> !AnyMatch(rx, pats, s)
    decreases |pats|
  {
    if |pats| == 0 then None
    else if rx.search(pats[0], s) then Some(0)
    else
      match FirstMatch(rx, pats[1..], s)
      case None => None
      case Some(k) => Some(k + 1)
  }

  /** `sum(1 for p in pats if re.search(p, s))`. */
  function CountMatching<P>(rx: Regex<P>, pats: seq<P>, s: string): (n: nat)
    ensures n <= |pats|
    ensures n == 0 <==> !AnyMatch(rx, pats, s)
    ensures n == |pats| <==> forall i :: 0 <= i < |pats| ==> rx.search(pats[i], s)
    decreases |pats|
  {
    if |pats| == 0 then 0
    else
      var k := |pats| - 1;
      CountMatching(rx, pats[..k], s) + (if rx.search(pats[k], s) then 1 else 0)
  }

  /** `[p for p in pats if re.search(p, s)]`: the patterns that match, in order. */
  function MatchingPatterns<P>(rx: Regex<P>, pats: seq<P>, s: string): (r: seq<P>)
    ensures |r| == CountMatching(rx, pats, s)
    decreases |pats|
  {
    if |pats| == 0 then []
    else
      var k := |pats| - 1;
      MatchingPatterns(rx, pats[..k], s) + (if rx.search(pats[k], s) then [pats[k]] else [])
  }

  /** The matching patterns are exactly the patterns of the list that match. */
  lemma {:induction false} MatchingPatternsExactly<P>(rx: Regex<P>, pats: seq<P>, s: string)
    ensures forall x :: x in MatchingPatterns(rx, pats, s) <==> x in pats && rx.search(x, s)
    decreases |pats|
  {
    if |pats| > 0 {
      var k := |pats| - 1;
      MatchingPatternsExactly(rx, pats[..k], s);
      assert pats == pats[..k] + [pats[k]];
    }
  }

  /** `sum(len(re.findall(p, s)) for p in pats)`. */
  function SumFindall<P(!new)>(rx: Regex<P>, pats: seq<P>, s: string): (n: nat)
    ensures Coherent(rx) ==> (n == 0 <==> !AnyMatch(rx, pats, s))
    ensures Coherent(rx) ==> n >= CountMatching(rx, pats, s)
    decreases |pats|
  {
    if |pats| == 0 then 0
    else
      var k := |pats| - 1;
      SumFindall(rx, pats[..k], s) + rx.findall(pats[k], s)
  }

  datatype Option<T> = None | Some(value: T)

  // ---------------------------------------------------------------------
  // Reals
  // ---------------------------------------------------------------------

  function Min(a: real, b: real): (r: real)
    ensures r <= a && r <= b && (r == a || r == b)
  {
    if a <= b then a else b
  }

  function Max(a: real, b: real): (r: real)
    ensures r >= a && r >= b && (r == a || r == b)
  {
    if a >= b then a else b
  }

  /** `max(lo, min(hi, x))`. */
  function Clamp(x: real, lo: real, hi: real): (r: real)
    requires lo <= hi
    ensures lo <= r <= hi
    ensures lo <= x <= hi ==> r == x
    ensures x < lo ==> r == lo
    ensures x > hi ==> r == hi
  {
    Max(lo, Min(hi, x))
  }
}
