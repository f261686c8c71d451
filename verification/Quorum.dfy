/** Counting distinct signers, and why two large enough sets of them meet. */
module Quorum {
  import opened Protocol

  function Signers(sigs: set<Signature>): set<Key> {
    set s | s in sigs :: s.signer
  }

  /** The allowed signers among those whose signature verifies; the rest are skipped. */
  function ValidSigners(c: Crypto, sigs: set<Signature>, content: Content, allowed: set<Key>): set<Key> {
    set s | s in sigs && c.verifies(s, content) && s.signer in allowed :: s.signer
  }

  lemma SubsetCardinality<T>(a: set<T>, b: set<T>)
    requires a <= b
    ensures |a| <= |b|
  {
    if a != {} {
      var x :| x in a;
      SubsetCardinality(a - {x}, b - {x});
    }
  }

  ghost function Image<A, B>(s: set<A>, f: A -> B): set<B> {
    set x | x in s :: f(x)
  }

  /** A set mapped one to one keeps its size. */
  lemma {:induction false} ImageSize<A, B>(s: set<A>, f: A -> B)
    requires forall x, y :: x in s && y in s && f(x) == f(y) ==> x == y
    ensures |Image(s, f)| == |s|
  {
    if s != {} {
      var x :| x in s;
      var rest := s - {x};
      ImageSize(rest, f);
      assert Image(s, f) == Image(rest, f) + {f(x)};
    }
  }

  /** Two subsets of s that together outnumber s share a member. */
  lemma {:induction false} Pigeonhole<T>(a: set<T>, b: set<T>, s: set<T>)
    requires a <= s && b <= s
    requires |a| + |b| > |s|
    ensures a * b != {}
  {
    if a * b == {} {
      assert |a + b| == |a| + |b|;
      SubsetCardinality(a + b, s);
    }
  }

  /** A quorum and the number of refusals that make it unreachable, as the completer and the ledger compute it. */
  function NegativeQuorum(n: nat, quorum: nat): nat
    requires quorum <= n
  {
    n - quorum + 1
  }

  /** `Quorum::MAJORITY`: the least number that is more than half. */
  function Majority(n: nat): (q: nat)
    ensures 2 * q > n && 2 * (q - 1) <= n
    ensures n >= 1 ==> 1 <= q <= n
  {
    n / 2 + 1
  }
}
