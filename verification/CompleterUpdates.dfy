/** A governance update while an event is being validated: what it does to the signatures already collected. */
module CompleterUpdates {
  import opened Protocol
  import opened Subjects
  import opened Quorum
  import opened Store
  import opened LedgerSteps
  import opened Verify
  import opened Completer
  import opened CompleterEvents

  // ---- when the update fails ----

  /** The update fails at a subject because of its request exactly when the request kept for it is no fact. */
  lemma UpdateBlockedIff(env: Env, db: Db, live: Option<nat>, st: Flow, id: Digest, version: nat)
    ensures NewGovernanceVersion(env, db, live, st, id, version).1 == Failed(GenesisInGovUpdate)
            <==> id in st.requests && !st.requests[id].content.Fact?
  {
    if id in st.requests && st.requests[id].content.Fact? {
      assert NewEvent(env, db, live, st, st.requests[id]).1 != Failed(GenesisInGovUpdate);
    }
  }

  /** A transfer or an end of life whose validation has begun is such a request. */
  lemma PlainEventBlocksUpdate(env: Env, db: Db, st: Flow, id: Digest, s: Subject, request: SignedRequest, version: nat,
                               live: Option<nat>, next: nat)
    requires request.content.Transfer? || request.content.Eol?
    requires NewPlain(env, db, st, id, s, request, version).1.Done?
    ensures var st' := NewPlain(env, db, st, id, s, request, version).0;
      NewGovernanceVersion(env, db, live, st', id, next) == (st', Failed(GenesisInGovUpdate))
  {}

  // ---- what survives the update ----

  /** As many as the stage asks for this answer, all of them its signers. */
  predicate Suffices(sigs: set<Signature>, allowed: set<Key>, quorum: nat, yes: bool)
    requires quorum <= |allowed|
  {
    Signers(sigs) <= allowed && |Signers(sigs)| >= (if yes then quorum else NegativeQuorum(|allowed|, quorum))
  }

  /** A fact that was in order when the update came is validated again with the proof of the new version; the next ledger
      checks it under that version's stages, and it passes exactly when those who evaluated and approved it are still
      allowed to and still enough. */
  lemma SurvivesUpdate(env: Env, db: Db, live: Option<nat>, st: Flow, id: Digest, s: Subject, before: nat, version: nat,
                       evaluate: (set<Key>, nat), approve: (set<Key>, nat))
    requires id in st.prevalidated && id !in st.requests && db.Get(id).subject == Some(s) && s.subjectId == id
    requires var e := st.prevalidated[id];
      && e.request.content.Fact?
      && CheckEvent(env, e, MetadataOf(s, id, before), s.GetContext(e.request.signature.signer)).Accepted?
    requires NewGovernanceVersion(env, db, live, st, id, version).1.Done?
    requires StageOf(env.gov, MetadataOf(s, id, version), Evaluate) == Some(evaluate) && evaluate.1 <= |evaluate.0|
    requires StageOf(env.gov, MetadataOf(s, id, version), Approve) == Some(approve) && approve.1 <= |approve.0|
    ensures var st', e := NewGovernanceVersion(env, db, live, st, id, version).0, st.prevalidated[id];
      var h := env.crypto.hashEvent(e);
      && h in st'.proofs
      && (CheckEvent(env, e, st'.proofs[h].GetMetadata(), s.GetContext(e.request.signature.signer)).Accepted?
          <==> && Suffices(e.evaluators, evaluate.0, evaluate.1, e.evalSuccess)
               && ((e.approved && !e.apprRequired) || Suffices(e.approvers, approve.0, approve.1, e.approved)))
  {
    var st', e := NewGovernanceVersion(env, db, live, st, id, version).0, st.prevalidated[id];
    assert st'.proofs[env.crypto.hashEvent(e)].GetMetadata() == MetadataOf(s, id, version);
  }

  /** A fact request that is kept starts again at evaluation under the present version, and votes on what had been proposed
      for it are refused from then on. */
  lemma UpdateRestarts(env: Env, db: Db, st: Flow, id: Digest, s: Subject, version: nat, signers: set<Key>, quorum: nat)
    requires id in st.requests && id !in st.prevalidated && db.Get(id).subject == Some(s)
    requires var request := st.requests[id];
      && request.content.Fact? && request.content.subjectId == id && s.active && s.keys.Some?
      && (request.signature.signer == env.ourId
          || env.gov.mayInvoke(MetadataOf(s, id, version), Invoke, request.signature.signer) == Some(true))
    requires StageOf(env.gov, MetadataOf(s, id, version), Evaluate) == Some((signers, quorum)) && quorum <= |signers|
    ensures var (st', r) := NewGovernanceVersion(env, db, Some(version), st, id, version);
      var req := FactEvaluation(s, st.requests[id], version);
      && r == Done && st'.preEvaluations == st.preEvaluations[env.crypto.hashEvaluation(req) := req]
      && st'.completing == st.completing[id := Phase(Evaluate, signers, quorum, NegativeQuorum(|signers|, quorum))]
      && forall m: SignedApproval, live :: var h := m.content.apprReqHash;
           h in st'.approvalRequests && st'.approvalRequests[h].request.content == st.requests[id].content ==>
             ApproverSignatures(env, db, live, st', m) == (st', Failed(WrongEventPhase))
  {}

  /** Where a kept fact request cannot start again, the update fails as the request does, and an event of the subject under
      validation is not validated again. */
  lemma UpdateFailsWithRequest(env: Env, db: Db, live: Option<nat>, st: Flow, id: Digest, version: nat)
    requires id in st.requests && st.requests[id].content.Fact?
    ensures var (started, r) := NewEvent(env, db, live, st, st.requests[id]);
      r.Failed? || r.Panics? ==>
        && NewGovernanceVersion(env, db, live, st, id, version) == (started, r)
        && started.proofs == st.proofs && started.completing == st.completing
  {}

  /** The evaluation asked for before the update is not forgotten, and the version it was asked for is compared with
      nothing: when answers to it still complete the quorum the event built passes no node's check. */
  lemma FormerAnswersAreWasted(env: Env, db: Db, live: Option<nat>, st: Flow, id: Digest, version: nat, m: SignedResponse,
                               signers: set<Key>, appr: StageInfo)
    requires CollisionFree(env.crypto) && SignaturesBind(env.crypto) && live == Some(version)
    requires var h := m.content.evalReqHash;
      && h in st.preEvaluations && env.crypto.hashEvaluation(st.preEvaluations[h]) == h
      && st.preEvaluations[h].request.content.Fact? && st.preEvaluations[h].request.content.subjectId == id
      && st.preEvaluations[h].govVersion != version
      && TallyOk(env.crypto, h, signers, SetAt(st.evaluations, h))
    requires id in st.completing && st.completing[id].stage.Evaluate? && st.completing[id].signers <= signers
    requires st.completing[id].quorum <= |signers| && st.completing[id].negQuorum == NegativeQuorum(|signers|, st.completing[id].quorum)
    requires EvaluationFault(env, db, live, st, m).None? && !m.content.apprRequired
    ensures var r := m.content;
      var es := Replaced(SetAt(st.evaluations, r.evalReqHash), Counted(m.signature, r.evalSuccess, ResponseHash(env.crypto, r)));
      var reached := Reached(st.completing[id], es, ResponseHash(env.crypto, r));
      reached.Some? ==> forall hashPrev ::
        !VerifyEvalAppr(env.crypto,
           EvaluatedEvent(id, st.preEvaluations[r.evalReqHash], r, version, hashPrev,
             SignaturesOf(Matching(es, ResponseHash(env.crypto, r), reached.value))),
           st.preEvaluations[r.evalReqHash].context,
           StageInfo(signers, st.completing[id].quorum, st.completing[id].negQuorum), appr)
  {
    var r, req := m.content, st.preEvaluations[m.content.evalReqHash];
    var es := Replaced(SetAt(st.evaluations, r.evalReqHash), Counted(m.signature, r.evalSuccess, ResponseHash(env.crypto, r)));
    var reached := Reached(st.completing[id], es, ResponseHash(env.crypto, r));
    if reached.Some? {
      TallyReplaced(env.crypto, signers, SetAt(st.evaluations, r.evalReqHash), m);
      forall hashPrev
        ensures !VerifyEvalAppr(env.crypto,
          EvaluatedEvent(id, req, r, version, hashPrev, SignaturesOf(Matching(es, ResponseHash(env.crypto, r), reached.value))),
          req.context, StageInfo(signers, st.completing[id].quorum, st.completing[id].negQuorum), appr)
      {
        EvaluatedEventVerifies(env.crypto, id, req, r, version, hashPrev, signers, st.completing[id], es, m.signature,
          reached.value, appr);
      }
    }
  }

  // ---- from an update to the hand-over ----

  /** Validations that come one after the other and do not complete the quorum yet. */
  ghost predicate AllWaiting(env: Env, db: Db, live: Option<nat>, st: Flow, h: Digest, version: nat, sigs: seq<Signature>)
    decreases |sigs|
  {
    sigs == [] ||
    (&& ValidationSignatures(env, db, live, st, h, sigs[0], version).1.Done?
     && AllWaiting(env, db, live, ValidationSignatures(env, db, live, st, h, sigs[0], version).0, h, version, sigs[1..]))
  }

  function AfterAll(env: Env, db: Db, live: Option<nat>, st: Flow, h: Digest, version: nat, sigs: seq<Signature>): Flow
    decreases |sigs|
  {
    if sigs == [] then st
    else AfterAll(env, db, live, ValidationSignatures(env, db, live, st, h, sigs[0], version).0, h, version, sigs[1..])
  }

  /** The event under validation: its subject, its hash, its present proof, who may sign that and how many must. */
  datatype Round = Round(id: Digest, h: Digest, event: Event, proof: Proof, allowed: set<Key>, quorum: nat)

  /** The signature is on a proof of another governance version. */
  ghost predicate OnFormer(c: Crypto, proof: Proof, s: Signature) {
    exists former: Proof :: former.governanceVersion != proof.governanceVersion && c.verifies(s, OfProof(former))
  }

  /** recent are those who signed the present proof; all other signatures kept are on former ones. */
  ghost predicate Collecting(env: Env, st: Flow, r: Round, recent: set<Key>) {
    && r.h in st.toValidate && st.toValidate[r.h] == r.event && SubjectIdOf(env.crypto, r.event) == r.id
    && r.h in st.proofs && st.proofs[r.h] == r.proof
    && r.id in st.completing && st.completing[r.id] == Phase(Validate, r.allowed - recent, r.quorum, 0)
    && recent <= r.allowed
    && Split(env.crypto, r.proof, SetAt(st.validations, r.h), recent)
  }

  ghost predicate Split(c: Crypto, proof: Proof, ss: set<Signature>, recent: set<Key>) {
    && (forall s :: s in ss ==> if s.signer in recent then c.verifies(s, OfProof(proof)) else OnFormer(c, proof, s))
    && recent <= Signers(ss)
  }

  lemma SplitMore(c: Crypto, proof: Proof, ss: set<Signature>, recent: set<Key>, s: Signature)
    requires Split(c, proof, ss, recent) && c.verifies(s, OfProof(proof)) && s.signer !in recent
    ensures Split(c, proof, ReplacedSignature(ss, s), recent + {s.signer})
  {
    var ss' := ReplacedSignature(ss, s);
    forall k | k in recent + {s.signer} ensures k in Signers(ss') {
      if k in recent {
        var t :| t in ss && t.signer == k;
        assert t in ss';
      } else {
        assert s in ss';
      }
    }
  }

  /** Only the recent ones count for the present proof. */
  lemma OnlyFreshCount(c: Crypto, proof: Proof, ss: set<Signature>, recent: set<Key>, allowed: set<Key>)
    requires SignaturesBind(c) && Split(c, proof, ss, recent) && recent <= allowed
    ensures ValidSigners(c, ss, OfProof(proof), allowed) == recent
  {
    forall s | s in ss && s.signer !in recent ensures !c.verifies(s, OfProof(proof)) {
      var former: Proof :| former.governanceVersion != proof.governanceVersion && c.verifies(s, OfProof(former));
      assert OfProof(former) != OfProof(proof);
    }
    forall k | k in recent ensures k in ValidSigners(c, ss, OfProof(proof), allowed) {
      assert k in Signers(ss);
      var s :| s in ss && s.signer == k;
    }
  }

  /** A validation that is not refused adds its signer to the recent ones. */
  lemma FreshMore(env: Env, db: Db, live: Option<nat>, st: Flow, r: Round, recent: set<Key>, s: Signature, version: nat)
    requires Collecting(env, st, r, recent)
    requires var x := ValidationSignatures(env, db, live, st, r.h, s, version).1; x.Done? || x.ToLedger?
    ensures s.signer in r.allowed && s.signer !in recent && env.crypto.verifies(s, OfProof(r.proof))
    ensures var (st', x) := ValidationSignatures(env, db, live, st, r.h, s, version);
      && (x.Done? ==> Collecting(env, st', r, recent + {s.signer}))
      && (x.ToLedger? ==> x == ToLedger(r.event, ReplacedSignature(SetAt(st.validations, r.h), s), r.proof))
  {
    SplitMore(env.crypto, r.proof, SetAt(st.validations, r.h), recent, s);
    assert r.allowed - recent - {s.signer} == r.allowed - (recent + {s.signer});
  }

  lemma {:induction false} FreshAll(env: Env, db: Db, live: Option<nat>, st: Flow, r: Round, recent: set<Key>,
                                    version: nat, sigs: seq<Signature>) returns (recent': set<Key>)
    requires Collecting(env, st, r, recent) && AllWaiting(env, db, live, st, r.h, version, sigs)
    ensures Collecting(env, AfterAll(env, db, live, st, r.h, version, sigs), r, recent')
    ensures |recent'| == |recent| + |sigs|
    decreases |sigs|
  {
    if sigs == [] { return recent; }
    FreshMore(env, db, live, st, r, recent, sigs[0], version);
    recent' := FreshAll(env, db, live, ValidationSignatures(env, db, live, st, r.h, sigs[0], version).0, r,
      recent + {sigs[0].signer}, version, sigs[1..]);
  }

  /** What an update leaves of an event under validation: a new proof and a new round of signers, and every signature
      collected for the former proof. */
  lemma UpdateStartsRound(env: Env, db: Db, live: Option<nat>, st: Flow, id: Digest, version: nat) returns (r: Round)
    requires id in st.prevalidated && id !in st.requests
    requires var e := st.prevalidated[id];
      && var h := env.crypto.hashEvent(e);
      && h in st.toValidate && st.toValidate[h] == e && SubjectIdOf(env.crypto, e) == id
      && forall s :: s in SetAt(st.validations, h) ==>
           exists former: Proof :: former.governanceVersion != version && env.crypto.verifies(s, OfProof(former))
    requires NewGovernanceVersion(env, db, live, st, id, version).1.Done?
    requires db.Get(id).subject.Some? ==> db.Get(id).subject.value.subjectId == id
    ensures var st' := NewGovernanceVersion(env, db, live, st, id, version).0;
      && st'.validations == st.validations && Collecting(env, st', r, {})
    ensures r.id == id && r.h == env.crypto.hashEvent(st.prevalidated[id]) && r.proof.governanceVersion == version
    ensures StageOf(env.gov, r.proof.GetMetadata(), Validate) == Some((r.allowed, r.quorum))
  {
    var e, s := st.prevalidated[id], db.Get(id).subject.value;
    var stage := StageOf(env.gov, MetadataOf(s, id, version), Validate).value;
    r := Round(id, env.crypto.hashEvent(e), e, ProofOf(env.crypto, db, s, id, e, version).value, stage.0, stage.1);
    assert r.allowed - {} == r.allowed;
    assert r.proof.GetMetadata() == MetadataOf(s, id, version);
  }

  /** From an update to the hand-over: what is handed over carries a certificate exactly when as many validations have come
      since the update as the quorum asks. The kept signatures count for the completer, so it may hand over before. */
  lemma HandOverAfterUpdate(env: Env, db: Db, live: Option<nat>, st: Flow, id: Digest, version: nat,
                            sigs: seq<Signature>, last: Signature)
    requires SignaturesBind(env.crypto)
    requires id in st.prevalidated && id !in st.requests
    requires var e := st.prevalidated[id];
      && var h := env.crypto.hashEvent(e);
      && h in st.toValidate && st.toValidate[h] == e && SubjectIdOf(env.crypto, e) == id
      && forall s :: s in SetAt(st.validations, h) ==>
           exists former: Proof :: former.governanceVersion != version && env.crypto.verifies(s, OfProof(former))
    requires NewGovernanceVersion(env, db, live, st, id, version).1.Done?
    requires db.Get(id).subject.Some? ==> db.Get(id).subject.value.subjectId == id
    requires var st', h := NewGovernanceVersion(env, db, live, st, id, version).0, env.crypto.hashEvent(st.prevalidated[id]);
      && AllWaiting(env, db, live, st', h, version, sigs)
      && ValidationSignatures(env, db, live, AfterAll(env, db, live, st', h, version, sigs), h, last, version).1.ToLedger?
    ensures var st', h := NewGovernanceVersion(env, db, live, st, id, version).0, env.crypto.hashEvent(st.prevalidated[id]);
      var x := ValidationSignatures(env, db, live, AfterAll(env, db, live, st', h, version, sigs), h, last, version).1;
      var stage := StageOf(env.gov, x.proof.GetMetadata(), Validate);
      && x.proof.governanceVersion == version && stage.Some?
      && |ValidSigners(env.crypto, x.signatures, OfProof(x.proof), stage.value.0)| == |sigs| + 1
      && (Certified(env, x.signatures, x.proof) <==> |sigs| + 1 >= stage.value.1)
  {
    var st' := NewGovernanceVersion(env, db, live, st, id, version).0;
    var r := UpdateStartsRound(env, db, live, st, id, version);
    var recent := FreshAll(env, db, live, st', r, {}, version, sigs);
    HandOverCounts(env, db, live, AfterAll(env, db, live, st', r.h, version, sigs), r, recent, last, version);
  }

  lemma HandOverCounts(env: Env, db: Db, live: Option<nat>, st: Flow, r: Round, recent: set<Key>, last: Signature, version: nat)
    requires SignaturesBind(env.crypto) && Collecting(env, st, r, recent)
    requires ValidationSignatures(env, db, live, st, r.h, last, version).1.ToLedger?
    requires StageOf(env.gov, r.proof.GetMetadata(), Validate) == Some((r.allowed, r.quorum))
    ensures var x := ValidationSignatures(env, db, live, st, r.h, last, version).1;
      && x.proof == r.proof
      && |ValidSigners(env.crypto, x.signatures, OfProof(x.proof), r.allowed)| == |recent| + 1
  {
    FreshMore(env, db, live, st, r, recent, last, version);
    var ss := SetAt(st.validations, r.h);
    SplitMore(env.crypto, r.proof, ss, recent, last);
    OnlyFreshCount(env.crypto, r.proof, ReplacedSignature(ss, last), recent + {last.signer}, r.allowed);
  }
}
