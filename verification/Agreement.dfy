/** Why two nodes cannot hold different histories of one subject. */
module Agreement {
  import opened Protocol
  import opened Subjects
  import opened Quorum
  import opened Verify
  import opened Store
  import opened LedgerSteps
  import opened LedgerInvariant
  import opened LedgerRuns
  import V = Validator

  // ---- two certificates share a validator ----

  /** The quorums of two proofs are too large to be met by disjoint validators. */
  ghost predicate QuorumsMeet(env: Env, p: Proof, q: Proof) {
    match (StageOf(env.gov, p.GetMetadata(), Validate), StageOf(env.gov, q.GetMetadata(), Validate))
    case (Some((a, m)), Some((b, n))) => m + n > |a + b|
    case _ => false
  }

  /** `Quorum::MAJORITY`, asked twice of one governance version, always meets itself. */
  lemma MajorityMeets(env: Env, p: Proof, q: Proof)
    requires p.GetMetadata() == q.GetMetadata()
    requires var stage := StageOf(env.gov, p.GetMetadata(), Validate);
      stage.Some? && stage.value.1 == Majority(|stage.value.0|)
    ensures QuorumsMeet(env, p, q)
  {
    var a := StageOf(env.gov, p.GetMetadata(), Validate).value.0;
    assert a + a == a;
  }

  /** Key k may validate both proofs, and put valid signatures on both. */
  ghost predicate SignedBoth(env: Env, k: Key, p: Proof, q: Proof) {
    && env.gov.signers(p.GetMetadata(), Validate).Some? && k in env.gov.signers(p.GetMetadata(), Validate).value
    && env.gov.signers(q.GetMetadata(), Validate).Some? && k in env.gov.signers(q.GetMetadata(), Validate).value
    && (exists s: Signature :: s.signer == k && env.crypto.verifies(s, OfProof(p)))
    && (exists s: Signature :: s.signer == k && env.crypto.verifies(s, OfProof(q)))
  }

  lemma CommonValidator(env: Env, sigs: set<Signature>, p: Proof, sigs': set<Signature>, q: Proof) returns (k: Key)
    requires Certified(env, sigs, p) && Certified(env, sigs', q) && QuorumsMeet(env, p, q)
    ensures SignedBoth(env, k, p, q)
  {
    var (a, m) := StageOf(env.gov, p.GetMetadata(), Validate).value;
    var (b, n) := StageOf(env.gov, q.GetMetadata(), Validate).value;
    var mine, theirs := ValidSigners(env.crypto, sigs, OfProof(p), a), ValidSigners(env.crypto, sigs', OfProof(q), b);
    Pigeonhole(mine, theirs, a + b);
    k :| k in mine * theirs;
  }

  // ---- no fork ----

  /** Whatever carries k's valid signature was signed in one run of the validation manager. */
  ghost predicate SignsOnlyInRun(env: Env, k: Key, ds: seq<V.Delivery>) {
    forall s: Signature, p: Proof :: s.signer == k && env.crypto.verifies(s, OfProof(p)) ==>
      p in V.SignedOver(env, map[], ds)
  }

  ghost predicate Honest(env: Env, k: Key) {
    exists ds :: SignsOnlyInRun(env, k, ds)
  }

  lemma HonestIsConsistent(env: Env, k: Key, p: Proof, q: Proof)
    requires Honest(env, k) && SignedBoth(env, k, p, q)
    ensures V.Consistent(p, q)
  {
    var ds :| SignsOnlyInRun(env, k, ds);
    V.NeverEquivocates(env, ds, p, q);
  }

  /** Some validator that signed both p and q keeps to the validation manager. */
  ghost predicate SomeHonestSigner(env: Env, p: Proof, q: Proof) {
    exists k :: SignedBoth(env, k, p, q) && Honest(env, k)
  }

  /** No fork: two certified proofs of one subject whose quorums meet name the same event at the same sn, and
      consecutive ones are hash-linked; otherwise every validator that signed both broke the rules, and there is one. */
  lemma NoFork(env: Env, sigs: set<Signature>, p: Proof, sigs': set<Signature>, q: Proof)
    requires Certified(env, sigs, p) && Certified(env, sigs', q) && QuorumsMeet(env, p, q)
    requires p.subjectId == q.subjectId
    ensures exists k :: SignedBoth(env, k, p, q)
    ensures V.Consistent(p, q) || forall k :: SignedBoth(env, k, p, q) ==> !Honest(env, k)
  {
    var k := CommonValidator(env, sigs, p, sigs', q);
    forall k | SignedBoth(env, k, p, q) && Honest(env, k) ensures V.Consistent(p, q) {
      HonestIsConsistent(env, k, p, q);
    }
  }

  // ---- one head, one history ----

  ghost predicate SameContents(a: map<nat, SignedEvent>, b: map<nat, SignedEvent>, n: nat) {
    forall i :: 0 <= i <= n ==> i in a && i in b && a[i].content == b[i].content
  }

  /** Two linked chains that end in the same event are the same from their genesis on. */
  lemma {:induction false} OneHistory(c: Crypto, a: map<nat, SignedEvent>, b: map<nat, SignedEvent>, n: nat)
    requires CollisionFree(c) && Linked(c, a, n) && Linked(c, b, n)
    requires n in a && n in b && a[n].content == b[n].content
    ensures SameContents(a, b, n)
  {
    if n > 0 {
      assert LinkedAt(c, a, n) && LinkedAt(c, b, n);
      OneHistory(c, a, b, n - 1);
    }
  }

  /** The replay sees nothing of an event but its content. */
  lemma {:induction false} ReplaySeesContents(env: Env, a: map<nat, SignedEvent>, b: map<nat, SignedEvent>, n: nat)
    requires SameContents(a, b, n)
    ensures Replay(env, a, n) == Replay(env, b, n)
  {
    if n > 0 { ReplaySeesContents(env, a, b, n - 1); }
  }

  /** Two nodes of one network: the same digests, keys and governance. */
  ghost predicate SameNetwork(a: Env, b: Env) {
    a.crypto == b.crypto && a.gov == b.gov
  }

  lemma {:induction false} ReplayInNetwork(a: Env, b: Env, events: map<nat, SignedEvent>, n: nat)
    requires SameNetwork(a, b)
    ensures Replay(a, events, n) == Replay(b, events, n)
  {
    if n > 0 { ReplayInNetwork(a, b, events, n - 1); }
  }

  /** The replica of id is up to date at c. */
  ghost predicate UpToDate(env: Env, id: Digest, r: Replica, c: nat) {
    Inv(env, id, r) && r.state == Some(LedgerState(Some(c), None))
  }

  ghost predicate SameSubject(a: Rows, b: Rows, c: nat) {
    && SameContents(a.events, b.events, c)
    && a.subject.Some? && b.subject.Some?
    && a.subject.value.Public() == b.subject.value.Public()
  }

  /** Two replicas up to date on the same event hold the same subject and the same events from genesis on. */
  lemma SameLastEvent(env: Env, env': Env, id: Digest, r: Replica, r': Replica, c: nat)
    requires CollisionFree(env.crypto) && SameNetwork(env, env')
    requires UpToDate(env, id, r, c) && UpToDate(env', id, r', c)
    requires r.rows.events[c].content == r'.rows.events[c].content
    ensures SameSubject(r.rows, r'.rows, c)
  {
    OneHistory(env.crypto, r.rows.events, r'.rows.events, c);
    ReplaySeesContents(env, r.rows.events, r'.rows.events, c);
    ReplayInNetwork(env, env', r'.rows.events, c);
  }

  /** Two replicas up to date at the same sn, however each got there, hold the same events from genesis on and
      the same subject up to private keys, if their two certificates' quorums meet in an honest signer. */
  lemma ReplicasAgree(env: Env, env': Env, id: Digest, r: Replica, r': Replica, c: nat)
    requires SameNetwork(env, env') && CollisionFree(env.crypto)
    requires c >= 1 && UpToDate(env, id, r, c) && UpToDate(env', id, r', c)
    requires QuorumsMeet(env, r.rows.certs[c].proof, r'.rows.certs[c].proof)
    requires SomeHonestSigner(env, r.rows.certs[c].proof, r'.rows.certs[c].proof)
    ensures SameSubject(r.rows, r'.rows, c)
  {
    var cert, cert' := r.rows.certs[c], r'.rows.certs[c];
    assert Certified(env, cert'.signatures, cert'.proof) by { assert Certified(env', cert'.signatures, cert'.proof); }
    NoFork(env, cert.signatures, cert.proof, cert'.signatures, cert'.proof);
    assert cert.proof.eventHash == cert'.proof.eventHash;
    SameLastEvent(env, env', id, r, r', c);
  }

  /** Having once agreed, two nodes never come to disagree about those events, whatever each receives. */
  lemma AgreeForever(env: Env, env': Env, id: Digest, n: Node, n': Node, c: nat, ms: seq<Message>, ms': seq<Message>)
    requires NodeInv(env, n) && OrderlyRun(env, n, ms)
    requires NodeInv(env', n') && OrderlyRun(env', n', ms')
    requires n.StateOf(id).Some? && n.states[id].currentSn == Some(c)
    requires n'.StateOf(id).Some? && n'.states[id].currentSn == Some(c)
    requires SameContents(n.db.Get(id).events, n'.db.Get(id).events, c)
    ensures SameContents(Run(env, n, ms).db.Get(id).events, Run(env', n', ms').db.Get(id).events, c)
  {
    RunExtends(env, n, ms, id);
    RunExtends(env', n', ms', id);
  }
}
