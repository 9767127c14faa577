/**
 * String building blocks shared by the extractor and the task planner:
 * repeated `+=` (Concat), Python's `sep.join(parts)` (Join) and
 * `str.lower()` on ASCII letters (Lower).
 */
module Text {

  /** The parts in order, one after the other, as a loop of `s += part` builds them. */
  function Concat(parts: seq<string>): string
  {
    if parts == [] then "" else Concat(parts[..|parts| - 1]) + parts[|parts| - 1]
  }

  /** The sum of the lengths of the parts. */
  function TotalLength(parts: seq<string>): nat
  {
    if parts == [] then 0 else TotalLength(parts[..|parts| - 1]) + |parts[|parts| - 1]|
  }

  lemma {:induction false} ConcatLength(parts: seq<string>)
    ensures |Concat(parts)| == TotalLength(parts)
  {
    if parts != [] {
      ConcatLength(parts[..|parts| - 1]);
    }
  }

  lemma {:induction false} ConcatAppend(a: seq<string>, b: seq<string>)
    ensures Concat(a + b) == Concat(a) + Concat(b)
  {
    if b == [] {
      assert a + b == a;
    } else {
      var front := b[..|b| - 1];
      assert (a + b)[..|a + b| - 1] == a + front;
      ConcatAppend(a, front);
    }
  }

  /** Part `i` sits in the concatenation right after the parts before it, unchanged. */
  lemma ConcatAt(parts: seq<string>, i: nat)
    requires i < |parts|
    ensures TotalLength(parts[..i]) + |parts[i]| <= |Concat(parts)|
    ensures Concat(parts)[TotalLength(parts[..i])..TotalLength(parts[..i]) + |parts[i]|] == parts[i]
  {
    assert parts == parts[..i] + [parts[i]] + parts[i + 1..];
    ConcatAppend(parts[..i] + [parts[i]], parts[i + 1..]);
    ConcatAppend(parts[..i], [parts[i]]);
    assert [parts[i]][..0] == [];
    ConcatLength(parts[..i]);
  }

  /** Python's `sep.join(parts)`: the parts in order with `sep` between neighbours. */
  function Join(sep: string, parts: seq<string>): string
  {
    if parts == [] then ""
    else if |parts| == 1 then parts[0]
    else Join(sep, parts[..|parts| - 1]) + sep + parts[|parts| - 1]
  }

  lemma {:induction false} JoinLength(sep: string, parts: seq<string>)
    requires parts != []
    ensures |Join(sep, parts)| == TotalLength(parts) + |sep| * (|parts| - 1)
  {
    if |parts| > 1 {
      var front := parts[..|parts| - 1];
      JoinLength(sep, front);
      assert parts[|parts| - 1] == parts[|front|];
      assert TotalLength(parts) == TotalLength(front) + |parts[|front|]|;
      MulStep(|sep|, |front| - 1);
    }
  }

  lemma MulStep(a: nat, b: nat)
    ensures a * (b + 1) == a * b + a
  {
  }

  /** The join of the first `i` parts is a prefix of the join of all of them. */
  lemma {:induction false} JoinPrefix(sep: string, parts: seq<string>, i: nat)
    requires i <= |parts|
    ensures |Join(sep, parts[..i])| <= |Join(sep, parts)|
    ensures Join(sep, parts)[..|Join(sep, parts[..i])|] == Join(sep, parts[..i])
  {
    if i < |parts| {
      var front := parts[..|parts| - 1];
      JoinPrefix(sep, front, i);
      assert front[..i] == parts[..i];
      if |parts| == 1 {
        assert parts[..i] == [];
      }
    } else {
      assert parts[..i] == parts;
    }
  }

  /**
   * Part `i` of a join comes whole right after the join of the parts before
   * it and, unless it is the first, one separator.
   */
  lemma JoinAt(sep: string, parts: seq<string>, i: nat)
    requires i < |parts|
    ensures var start := if i == 0 then 0 else |Join(sep, parts[..i])| + |sep|;
      && start + |parts[i]| <= |Join(sep, parts)|
      && Join(sep, parts)[start..start + |parts[i]|] == parts[i]
      && (i > 0 ==> Join(sep, parts)[start - |sep|..start] == sep)
  {
    JoinPrefix(sep, parts, i + 1);
    assert parts[..i + 1][..i] == parts[..i];
    assert i == 0 ==> parts[..i + 1] == [parts[0]];
  }

  function LowerChar(c: char): char
  {
    if 'A' <= c <= 'Z' then (c as int + 32) as char else c
  }

  function UpperChar(c: char): char
  {
    if 'a' <= c <= 'z' then (c as int - 32) as char else c
  }

  /** `str.lower()` on ASCII letters; every other character is kept. */
  function Lower(s: string): string
  {
    seq(|s|, i requires 0 <= i < |s| => LowerChar(s[i]))
  }

  predicate IsLowerWord(w: string)
  {
    forall i :: 0 <= i < |w| ==> 'a' <= w[i] <= 'z'
  }

  /** `t` spells the lower-case word `w` with any mix of upper- and lower-case letters. */
  predicate MatchesIgnoringCase(t: string, w: string)
  {
    |t| == |w| && forall i :: 0 <= i < |t| ==> t[i] == w[i] || t[i] == UpperChar(w[i])
  }

  lemma LowerMatches(t: string, w: string)
    requires IsLowerWord(w)
    ensures Lower(t) == w <==> MatchesIgnoringCase(t, w)
  {
    if MatchesIgnoringCase(t, w) {
      assert forall i :: 0 <= i < |t| ==> Lower(t)[i] == w[i];
    }
    if Lower(t) == w {
      forall i | 0 <= i < |t| ensures t[i] == w[i] || t[i] == UpperChar(w[i]) {
        assert LowerChar(t[i]) == w[i];
      }
    }
  }
}
