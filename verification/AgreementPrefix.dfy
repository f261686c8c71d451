/** Agreement between replicas that are not equally far: the shorter history is the beginning of the longer one. */
module AgreementPrefix {
  import opened Protocol
  import opened Subjects
  import opened Quorum
  import opened Verify
  import opened Store
  import opened LedgerSteps
  import opened LedgerInvariant
  import opened Agreement
  import V = Validator

  /** The run of every validator. */
  type Runs = Key -> seq<V.Delivery>

  ghost function SignedBy(env: Env, runs: Runs, k: Key): set<Proof> {
    V.SignedOver(env, map[], runs(k))
  }

  // ---- one subject under changing governance versions ----

  /** The subject's metadata but for the governance version. */
  function IdentityOf(s: Subject): Metadata {
    Metadata(s.namespace, s.subjectId, s.governanceId, 0, s.schemaId)
  }

  predicate IsOf(p: Proof, m: Metadata) {
    p.GetMetadata() == m.(governanceVersion := p.governanceVersion)
  }

  /** Who validates the subject at a version, and how many must. */
  function StageAt(env: Env, m: Metadata, v: nat): Option<(set<Key>, nat)> {
    StageOf(env.gov, m.(governanceVersion := v), Validate)
  }

  // ---- hypotheses ----

  predicate MayValidate(env: Env, m: Metadata, v: nat, k: Key) {
    StageAt(env, m, v).Some? && k in StageAt(env, m, v).value.0
  }

  /** Everyone who may ever validate the subject signs only in its run. */
  ghost predicate AllHonest(env: Env, runs: Runs, m: Metadata) {
    forall v, k :: MayValidate(env, m, v, k) ==> SignsOnlyInRun(env, k, runs(k))
  }

  /** Any two quorums of the subject meet, whatever the governance versions. */
  ghost predicate AlwaysMeet(env: Env, m: Metadata) {
    forall v, w :: StageAt(env, m, v).Some? && StageAt(env, m, w).Some? ==>
      StageAt(env, m, v).value.1 + StageAt(env, m, w).value.1 > |StageAt(env, m, v).value.0 + StageAt(env, m, w).value.0|
  }

  /** Proofs presented to validators name the predecessor their event names; validators never see the event. */
  ghost predicate Faithful(env: Env, runs: Runs) {
    forall k, p, e :: p in SignedBy(env, runs, k) && env.crypto.hashEvent(e) == p.eventHash ==> e.hashPrev == p.prevEventHash
  }

  ghost predicate GoodNetwork(env: Env, runs: Runs, m: Metadata) {
    CollisionFree(env.crypto) && AllHonest(env, runs, m) && AlwaysMeet(env, m) && Faithful(env, runs)
  }

  // ---- endorsement ----

  ghost predicate SignedFor(env: Env, runs: Runs, k: Key, m: Metadata, sn: nat, h: Digest) {
    exists p :: p in SignedBy(env, runs, k) && IsOf(p, m) && p.sn == sn && p.eventHash == h
  }

  /** These validators are a quorum at version v and each signed, perhaps on different proofs, that event h is at sn. */
  ghost predicate EndorsedBy(env: Env, runs: Runs, m: Metadata, sn: nat, h: Digest, v: nat, ks: set<Key>) {
    && StageAt(env, m, v).Some?
    && ks <= StageAt(env, m, v).value.0
    && |ks| >= StageAt(env, m, v).value.1
    && forall k :: k in ks ==> SignedFor(env, runs, k, m, sn, h)
  }

  ghost predicate Endorsed(env: Env, runs: Runs, m: Metadata, sn: nat, h: Digest) {
    exists v, ks :: EndorsedBy(env, runs, m, sn, h, v, ks)
  }

  lemma CertifiedIsEndorsed(env: Env, runs: Runs, m: Metadata, sigs: set<Signature>, p: Proof)
    requires AllHonest(env, runs, m) && IsOf(p, m) && Certified(env, sigs, p)
    ensures Endorsed(env, runs, m, p.sn, p.eventHash)
  {
    var v := p.governanceVersion;
    var allowed := StageAt(env, m, v).value.0;
    var ks := ValidSigners(env.crypto, sigs, OfProof(p), allowed);
    forall k | k in ks ensures SignedFor(env, runs, k, m, p.sn, p.eventHash) {
      var s :| s in sigs && env.crypto.verifies(s, OfProof(p)) && s.signer == k;
      assert MayValidate(env, m, v, k);
      assert p in SignedBy(env, runs, k);
    }
    assert EndorsedBy(env, runs, m, p.sn, p.eventHash, v, ks);
  }

  lemma SignedForOnce(env: Env, runs: Runs, k: Key, m: Metadata, sn: nat, h: Digest, h': Digest)
    requires SignedFor(env, runs, k, m, sn, h) && SignedFor(env, runs, k, m, sn, h')
    ensures h == h'
  {
    var p :| p in SignedBy(env, runs, k) && IsOf(p, m) && p.sn == sn && p.eventHash == h;
    var q :| q in SignedBy(env, runs, k) && IsOf(q, m) && q.sn == sn && q.eventHash == h';
    assert p.GetMetadata().subjectId == q.GetMetadata().subjectId;
    V.NeverEquivocates(env, runs(k), p, q);
  }

  /** One event is endorsed at one sn. */
  lemma EndorsedOnce(env: Env, runs: Runs, m: Metadata, sn: nat, h: Digest, h': Digest)
    requires AlwaysMeet(env, m)
    requires Endorsed(env, runs, m, sn, h) && Endorsed(env, runs, m, sn, h')
    ensures h == h'
  {
    var v, ks :| EndorsedBy(env, runs, m, sn, h, v, ks);
    var w, ls :| EndorsedBy(env, runs, m, sn, h', w, ls);
    Pigeonhole(ks, ls, StageAt(env, m, v).value.0 + StageAt(env, m, w).value.0);
    var k :| k in ks * ls;
    SignedForOnce(env, runs, k, m, sn, h, h');
  }

  /** A quorum that a validator accepts for a previous proof certifies it. */
  lemma CheckedIsCertified(env: Env, p: Proof, sigs: set<Signature>)
    requires V.CheckQuorum(env, p, sigs).None?
    ensures Certified(env, sigs, p)
  {
    var allowed := StageOf(env.gov, p.GetMetadata(), Validate).value.0;
    assert ValidSigners(env.crypto, sigs, OfProof(p), allowed) == Signers(sigs) by {
      forall s | s in sigs ensures s.signer in allowed { assert s.signer in Signers(sigs); }
    }
  }

  lemma CheckedIsEndorsed(env: Env, runs: Runs, m: Metadata, p: Proof, sigs: set<Signature>)
    requires AllHonest(env, runs, m) && IsOf(p, m) && V.CheckQuorum(env, p, sigs).None?
    ensures Endorsed(env, runs, m, p.sn, p.eventHash)
  {
    CheckedIsCertified(env, p, sigs);
    CertifiedIsEndorsed(env, runs, m, sigs, p);
  }

  lemma RootIsKnown(env: Env, runs: Runs, k: Key, m: Metadata, q: Proof)
    requires AllHonest(env, runs, m) && q in SignedBy(env, runs, k) && IsOf(q, m) && q.sn >= 1
    ensures Endorsed(env, runs, m, q.sn - 1, q.prevEventHash) || SignedFor(env, runs, k, m, q.sn - 1, q.prevEventHash)
  {
    V.SignedAreRooted(env, runs(k), q);
    if p :| p in SignedBy(env, runs, k) && V.Continues(p, q) {
      assert IsOf(p, m);
    } else {
      var p, sigs :| V.CheckQuorum(env, p, sigs).None? && V.Continues(p, q);
      CheckedIsEndorsed(env, runs, m, p, sigs);
    }
  }

  /** Of one signer of event e: either its predecessor was certified, or the signer signed for it as well. */
  lemma SignerKnowsPredecessor(env: Env, runs: Runs, k: Key, m: Metadata, sn: nat, e: Event)
    requires AllHonest(env, runs, m) && Faithful(env, runs)
    requires SignedFor(env, runs, k, m, sn + 1, env.crypto.hashEvent(e))
    ensures Endorsed(env, runs, m, sn, e.hashPrev) || SignedFor(env, runs, k, m, sn, e.hashPrev)
  {
    var q :| q in SignedBy(env, runs, k) && IsOf(q, m) && q.sn == sn + 1 && q.eventHash == env.crypto.hashEvent(e);
    assert e.hashPrev == q.prevEventHash;
    RootIsKnown(env, runs, k, m, q);
  }

  /** The predecessor of an endorsed event is endorsed. */
  lemma EndorsedPredecessor(env: Env, runs: Runs, m: Metadata, sn: nat, e: Event)
    requires AllHonest(env, runs, m) && Faithful(env, runs) && Endorsed(env, runs, m, sn + 1, env.crypto.hashEvent(e))
    ensures Endorsed(env, runs, m, sn, e.hashPrev)
  {
    var v, ks :| EndorsedBy(env, runs, m, sn + 1, env.crypto.hashEvent(e), v, ks);
    if !Endorsed(env, runs, m, sn, e.hashPrev) {
      forall k | k in ks ensures SignedFor(env, runs, k, m, sn, e.hashPrev) {
        SignerKnowsPredecessor(env, runs, k, m, sn, e);
      }
      assert EndorsedBy(env, runs, m, sn, e.hashPrev, v, ks);
    }
  }

  lemma EndorsedOneBelow(env: Env, runs: Runs, m: Metadata, events: map<nat, SignedEvent>, n: nat)
    requires AllHonest(env, runs, m) && Faithful(env, runs) && LinkedAt(env.crypto, events, n)
    requires Endorsed(env, runs, m, n, env.crypto.hashEvent(events[n].content))
    ensures Endorsed(env, runs, m, n - 1, env.crypto.hashEvent(events[n - 1].content))
  {
    EndorsedPredecessor(env, runs, m, n - 1, events[n].content);
  }

  /** So every event below an endorsed one in a linked chain is endorsed. */
  lemma {:induction false} EndorsedBelow(env: Env, runs: Runs, m: Metadata, events: map<nat, SignedEvent>, n: nat, i: nat)
    requires AllHonest(env, runs, m) && Faithful(env, runs)
    requires Linked(env.crypto, events, n) && i <= n && n in events
    requires Endorsed(env, runs, m, n, env.crypto.hashEvent(events[n].content))
    ensures i in events && Endorsed(env, runs, m, i, env.crypto.hashEvent(events[i].content))
    decreases n
  {
    if i < n {
      assert LinkedAt(env.crypto, events, n);
      assert Linked(env.crypto, events, n - 1);
      EndorsedOneBelow(env, runs, m, events, n);
      EndorsedBelow(env, runs, m, events, n - 1, i);
    }
  }

  lemma UpToDateIsEndorsed(env: Env, runs: Runs, id: Digest, r: Replica, c: nat)
    requires c >= 1 && UpToDate(env, id, r, c) && AllHonest(env, runs, IdentityOf(r.rows.subject.value))
    ensures Endorsed(env, runs, IdentityOf(r.rows.subject.value), c, env.crypto.hashEvent(r.rows.events[c].content))
  {
    CertifiedIsEndorsed(env, runs, IdentityOf(r.rows.subject.value), r.rows.certs[c].signatures, r.rows.certs[c].proof);
  }

  /** Two replicas of one id are of one subject, because the id fixes namespace, schema and governance. */
  lemma SameIdentity(env: Env, id: Digest, a: Rows, c: nat, b: Rows, d: nat)
    requires CollisionFree(env.crypto) && Chain(env, id, a, c) && Chain(env, id, b, d)
    ensures IdentityOf(a.subject.value) == IdentityOf(b.subject.value)
  {
    ReplayIdentity(env, a.events, c);
    ReplayIdentity(env, b.events, d);
  }

  /** Two replicas up to date at c and at d, c the smaller: the events of the first are the beginning of the second's,
      and its subject is what the second had after event c. */
  lemma PrefixAgreement(env: Env, env': Env, runs: Runs, id: Digest, r: Replica, r': Replica, c: nat, d: nat)
    requires SameNetwork(env, env')
    requires 1 <= c <= d && UpToDate(env, id, r, c) && UpToDate(env', id, r', d)
    requires GoodNetwork(env, runs, IdentityOf(r.rows.subject.value))
    ensures SameContents(r.rows.events, r'.rows.events, c)
    ensures Replay(env', r'.rows.events, c) == Some(r.rows.subject.value.Public())
  {
    var a, b := r.rows.events, r'.rows.events;
    var m := IdentityOf(r.rows.subject.value);
    assert UpToDate(env, id, r', d) by { SameInvariant(env', env, id, r', d); }
    SameIdentity(env, id, r.rows, c, r'.rows, d);
    UpToDateIsEndorsed(env, runs, id, r, c);
    UpToDateIsEndorsed(env, runs, id, r', d);
    EndorsedBelow(env, runs, m, b, d, c);
    EndorsedOnce(env, runs, m, c, env.crypto.hashEvent(a[c].content), env.crypto.hashEvent(b[c].content));
    assert Linked(env.crypto, b, c) by {
      forall i: nat | 1 <= i <= c ensures LinkedAt(env.crypto, b, i) {}
    }
    OneHistory(env.crypto, a, b, c);
    ReplaySeesContents(env, a, b, c);
    ReplayInNetwork(env, env', b, c);
  }

  /** The invariant does not depend on which node of the network looks at the replica. */
  lemma SameInvariant(env: Env, env': Env, id: Digest, r: Replica, c: nat)
    requires SameNetwork(env, env') && UpToDate(env, id, r, c)
    ensures UpToDate(env', id, r, c)
  {
    ReplayInNetwork(env, env', r.rows.events, c);
  }
}
