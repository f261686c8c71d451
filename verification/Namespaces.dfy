/** Containment of dot-separated namespaces. */
module Namespaces {
  predicate StartsWith(s: string, prefix: string) {
    |prefix| <= |s| && s[..|prefix|] == prefix
  }

  /** `namespace_contiene`: the empty namespace contains all; otherwise the parent must end where a segment does. */
  predicate Contains(parent: string, child: string) {
    || parent == ""
    || parent == child
    || (StartsWith(child, parent) && StartsWith(child[|parent|..], "."))
  }

  /** The pieces between the dots; there is always at least one. */
  function Segments(s: string): (r: seq<string>)
    ensures |r| >= 1
  {
    if s == "" then [""]
    else
      var rest := Segments(s[1..]);
      if s[0] == '.' then [""] + rest else [[s[0]] + rest[0]] + rest[1..]
  }

  function Join(segments: seq<string>): string
    requires |segments| >= 1
  {
    if |segments| == 1 then segments[0] else segments[0] + "." + Join(segments[1..])
  }

  lemma {:induction false} JoinSegments(s: string)
    ensures Join(Segments(s)) == s
  {
    if s != "" {
      var rest := Segments(s[1..]);
      JoinSegments(s[1..]);
      if s[0] == '.' {
        assert Segments(s)[1..] == rest;
      } else if |rest| > 1 {
        assert Segments(s)[1..] == rest[1..];
      }
    }
  }

  /** A string extended by a dot and more has its segments extended by the segments of the rest. */
  lemma {:induction false} SegmentsOfDotted(p: string, rest: string)
    ensures Segments(p + "." + rest) == Segments(p) + Segments(rest)
  {
    if p == "" {
      assert (p + "." + rest)[1..] == rest;
    } else {
      assert (p + "." + rest)[1..] == p[1..] + "." + rest;
      SegmentsOfDotted(p[1..], rest);
    }
  }

  lemma {:induction false} JoinOfParts(a: seq<string>, b: seq<string>)
    requires |a| >= 1 && |b| >= 1
    ensures Join(a + b) == Join(a) + "." + Join(b)
  {
    if |a| == 1 {
      assert (a + b)[1..] == b;
    } else {
      assert (a + b)[1..] == a[1..] + b;
      JoinOfParts(a[1..], b);
    }
  }

  lemma ContainedHasPrefix(p: string, c: string)
    requires Contains(p, c) && p != "" && p != c
    ensures Segments(p) <= Segments(c)
  {
    var rest := c[|p| + 1..];
    assert c == p + "." + rest;
    SegmentsOfDotted(p, rest);
  }

  lemma PrefixIsContained(p: string, c: string)
    requires Segments(p) <= Segments(c) && p != c
    ensures Contains(p, c)
  {
    var more := Segments(c)[|Segments(p)|..];
    assert Segments(c) == Segments(p) + more;
    assert more == [] ==> Segments(c) == Segments(p);
    JoinSegments(p);
    JoinSegments(c);
    if more != [] {
      JoinOfParts(Segments(p), more);
      DottedIsContained(p, Join(more));
    }
  }

  lemma DottedIsContained(p: string, rest: string)
    ensures Contains(p, p + "." + rest)
  {
    var c := p + "." + rest;
    assert c[..|p|] == p;
    assert c[|p|..] == "." + rest;
  }

  /** Containment is what it is meant to be: the parent is empty, or its segments are a prefix of the child's. */
  lemma ContainsIsSegmentPrefix(p: string, c: string)
    ensures Contains(p, c) <==> p == "" || Segments(p) <= Segments(c)
  {
    if p != "" && p != c {
      if Contains(p, c) { ContainedHasPrefix(p, c); }
      if Segments(p) <= Segments(c) { PrefixIsContained(p, c); }
    }
  }

  /** Containment is a partial order on all strings, with the empty one on top. */
  lemma ContainsIsPartialOrder(a: string, b: string, c: string)
    ensures Contains("", a) && Contains(a, a)
    ensures Contains(a, b) && Contains(b, a) ==> a == b
    ensures Contains(a, b) && Contains(b, c) ==> Contains(a, c)
  {
    ContainsIsSegmentPrefix(a, b);
    ContainsIsSegmentPrefix(b, a);
    ContainsIsSegmentPrefix(b, c);
    ContainsIsSegmentPrefix(a, c);
  }
}
