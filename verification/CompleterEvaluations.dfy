/** The evaluation stage moves on at its quorum, no later and no sooner. */
module CompleterEvaluations {
  import opened Protocol
  import opened Subjects
  import opened Quorum
  import opened Store
  import opened LedgerSteps
  import opened Completer

  // ---- counting evaluators ----

  function Evaluators(es: set<Counted>): set<Key> {
    set e | e in es :: e.signature.signer
  }

  /** Who has reported this result. */
  function Agreeing(es: set<Counted>, hash: Digest, success: bool): set<Key> {
    set e | e in es && e.hash == hash && e.accepted == success :: e.signature.signer
  }

  /** How many have to agree. */
  function Needed(evaluators: set<Key>, q: nat, success: bool): int {
    if success then q else |evaluators| - q + 1
  }

  /** One answer an evaluator. */
  ghost predicate OneEach(es: set<Counted>) {
    forall e, f :: e in es && f in es && e.signature.signer == f.signature.signer ==> e == f
  }

  lemma AgreeingCount(es: set<Counted>, hash: Digest, success: bool)
    requires OneEach(es)
    ensures |Agreeing(es, hash, success)| == |Matching(es, hash, success)|
  {
    var f := (e: Counted) => e.signature.signer;
    var ms := Matching(es, hash, success);
    ImageSize(ms, f);
    assert Agreeing(es, hash, success) <= Image(ms, f) by {
      forall k | k in Agreeing(es, hash, success) ensures k in Image(ms, f) {
        var e :| e in es && e.hash == hash && e.accepted == success && e.signature.signer == k;
        assert e in ms && f(e) == k;
      }
    }
    assert Image(ms, f) <= Agreeing(es, hash, success);
    assert Image(ms, f) == Agreeing(es, hash, success);
  }

  // ---- a subject under evaluation ----

  /** Those who have answered and those still asked make up the evaluators, and no result has enough of them. */
  ghost predicate Undecided(ph: Phase, es: set<Counted>, evaluators: set<Key>, q: nat) {
    && 1 <= q <= |evaluators|
    && ph.stage.Evaluate? && ph.quorum == q && ph.negQuorum == |evaluators| - q + 1
    && OneEach(es)
    && Evaluators(es) + ph.signers == evaluators && Evaluators(es) !! ph.signers
    && forall hash, success :: |Agreeing(es, hash, success)| < Needed(evaluators, q, success)
  }

  /** Request h of subject id is being evaluated. */
  ghost predicate UnderEvaluation(st: Flow, id: Digest, h: Digest, evaluators: set<Key>, q: nat) {
    && h in st.preEvaluations
    && st.preEvaluations[h].request.content.Fact? && st.preEvaluations[h].request.content.subjectId == id
    && id in st.completing && Undecided(st.completing[id], SetAt(st.evaluations, h), evaluators, q)
  }

  /** The result is what the response says it is: the state after its patch, or the state as it was if evaluation failed. */
  predicate TellsState(c: Crypto, s: Subject, r: EvaluationResponse) {
    var state := if r.evalSuccess then c.patch(s.properties, r.patch) else Some(s.properties);
    state.Some? && c.hashState(state.value) == r.stateHash
  }

  /** A response of an evaluator still asked, really signed, that tells the state. */
  predicate Counts(env: Env, db: Db, st: Flow, id: Digest, h: Digest, m: SignedResponse) {
    && id in st.completing && m.signature.signer in st.completing[id].signers
    && m.content.evalReqHash == h
    && env.crypto.verifies(m.signature, OfEvaluation(m.content))
    && db.Get(id).subject.Some? && TellsState(env.crypto, db.Get(id).subject.value, m.content)
  }

  /** Nothing but answers can stand in the way of what follows an evaluation with this result. */
  predicate CanProceed(env: Env, db: Db, live: Option<nat>, id: Digest, r: EvaluationResponse) {
    && live.Some? && db.Get(id).subject.Some? && (r.apprRequired ==> r.evalSuccess)
    && var s := db.Get(id).subject.value;
    && s.keys.Some? && s.sn in db.Get(id).certs && s.sn in db.Get(id).events
    && var stage := if r.apprRequired then Approve else Validate;
    && var signers, quorum := env.gov.signers(MetadataOf(s, id, live.value), stage), env.gov.quorum(MetadataOf(s, id, live.value), stage);
    && signers.Some? && quorum.Some? && quorum.value <= |signers.value|
  }

  /** Evaluation is over: the subject waits for approvers or for validators. */
  ghost predicate MovedOn(st: Flow, id: Digest, h: Digest, approval: bool) {
    && h !in st.preEvaluations
    && id in st.completing && st.completing[id].stage == (if approval then Approve else Validate)
  }

  /** What the next stage is about: this response, with these signatures. */
  ghost predicate CarriedOver(env: Env, db: Db, st: Flow, id: Digest, req: EvaluationRequest, version: nat, r: EvaluationResponse,
                              sigs: set<Signature>) {
    && db.Get(id).subject.Some? && db.Get(id).subject.value.sn in db.Get(id).events
    && var s := db.Get(id).subject.value;
    && var hashPrev := env.crypto.hashEvent(db.Get(id).events[s.sn].content);
    if r.apprRequired then
      var proposal := ApprovalRequest(req.request, req.sn, version, r.patch, r.stateHash, hashPrev, s.governanceId);
      var ah := env.crypto.hashApproval(proposal);
      && ah in st.approvalRequests && st.approvalRequests[ah] == proposal
      && ah in st.approvalEvals && st.approvalEvals[ah] == sigs
    else
      && id in st.prevalidated && id !in st.requests
      && st.prevalidated[id] == Event(id, req.request, req.sn, version, r.patch, r.stateHash, r.evalSuccess, false, true, hashPrev, sigs, {})
      && var eh := env.crypto.hashEvent(st.prevalidated[id]);
      && eh in st.toValidate && st.toValidate[eh] == st.prevalidated[id] && eh in st.proofs
  }

  /** The signatures of those who reported this result. */
  function SignaturesFor(es: set<Counted>, hash: Digest, success: bool): set<Signature> {
    set e | e in es && e.hash == hash && e.accepted == success :: e.signature
  }

  // ---- one answer ----

  /** An answer is recorded exactly when it counts; otherwise nothing changes. */
  lemma RecordedExactly(env: Env, db: Db, live: Option<nat>, st: Flow, id: Digest, h: Digest, evaluators: set<Key>, q: nat,
                        m: SignedResponse)
    requires UnderEvaluation(st, id, h, evaluators, q) && live.Some? && m.content.evalReqHash == h
    ensures EvaluationFault(env, db, live, st, m).None? <==> Counts(env, db, st, id, h, m)
    ensures !Counts(env, db, st, id, h, m) ==>
      EvaluatorSignatures(env, db, live, st, m).0 == st && EvaluatorSignatures(env, db, live, st, m).1.Failed?
  {
    CountsIsNoFault(env, db, live, st, id, h, m);
    if EvaluationFault(env, db, live, st, m).Some? { FaultChangesNothing(env, db, live, st, m); }
  }

  lemma FaultChangesNothing(env: Env, db: Db, live: Option<nat>, st: Flow, m: SignedResponse)
    requires EvaluationFault(env, db, live, st, m).Some?
    ensures EvaluatorSignatures(env, db, live, st, m) == (st, Failed(EvaluationFault(env, db, live, st, m).value))
  {}

  lemma CountsIsNoFault(env: Env, db: Db, live: Option<nat>, st: Flow, id: Digest, h: Digest, m: SignedResponse)
    requires live.Some? && m.content.evalReqHash == h && h in st.preEvaluations
    requires st.preEvaluations[h].request.content.Fact? && st.preEvaluations[h].request.content.subjectId == id
    requires id in st.completing && st.completing[id].stage.Evaluate?
    ensures EvaluationFault(env, db, live, st, m).None? <==> Counts(env, db, st, id, h, m)
  {}

  lemma NewEvaluator(es: set<Counted>, e: Counted)
    requires OneEach(es) && e.signature.signer !in Evaluators(es)
    ensures Replaced(es, e) == es + {e} && OneEach(es + {e})
    ensures Evaluators(es + {e}) == Evaluators(es) + {e.signature.signer}
  {
    forall x | x in es ensures x.signature.signer != e.signature.signer { assert x.signature.signer in Evaluators(es); }
  }

  lemma NewAnswer(es: set<Counted>, e: Counted, hash: Digest, success: bool)
    requires e.signature.signer !in Evaluators(es)
    ensures |Agreeing(es + {e}, hash, success)| ==
            |Agreeing(es, hash, success)| + (if e.hash == hash && e.accepted == success then 1 else 0)
  {
    var before, after, k := Agreeing(es, hash, success), Agreeing(es + {e}, hash, success), e.signature.signer;
    forall x | x in before ensures x in after && x in Evaluators(es) {
      var f :| f in es && f.hash == hash && f.accepted == success && f.signature.signer == x;
      assert f in es + {e};
    }
    forall x | x in after && x !in before ensures x == k && e.hash == hash && e.accepted == success {
      var f :| f in es + {e} && f.hash == hash && f.accepted == success && f.signature.signer == x;
      assert f in es ==> x in before;
    }
    if e.hash == hash && e.accepted == success {
      assert e in es + {e} && k in after;
      assert after == before + {k};
    } else {
      assert after == before;
    }
  }

  /** With one more answer a result is reached exactly when that answer's result has as many as it needs. */
  lemma ReachedExactly(ph: Phase, es: set<Counted>, evaluators: set<Key>, q: nat, e: Counted)
    requires Undecided(ph, es, evaluators, q) && e.signature.signer in ph.signers
    ensures Reached(ph, Replaced(es, e), e.hash) ==
      if |Agreeing(es, e.hash, e.accepted)| + 1 == Needed(evaluators, q, e.accepted) then Some(e.accepted) else None
  {
    NewEvaluator(es, e);
    NewAnswer(es, e, e.hash, true);
    NewAnswer(es, e, e.hash, false);
    AgreeingCount(es + {e}, e.hash, true);
    AgreeingCount(es + {e}, e.hash, false);
    assert |Agreeing(es, e.hash, true)| < Needed(evaluators, q, true) && |Agreeing(es, e.hash, false)| < Needed(evaluators, q, false);
  }

  function EntryOf(c: Crypto, m: SignedResponse): Counted {
    Counted(m.signature, m.content.evalSuccess, c.hashResponse(m.content.evalReqHash, m.content.stateHash,
      m.content.evalSuccess, m.content.apprRequired))
  }

  lemma StillUndecided(ph: Phase, es: set<Counted>, evaluators: set<Key>, q: nat, e: Counted)
    requires Undecided(ph, es, evaluators, q) && e.signature.signer in ph.signers
    requires |Agreeing(es, e.hash, e.accepted)| + 1 < Needed(evaluators, q, e.accepted)
    ensures Undecided(ph.(signers := ph.signers - {e.signature.signer}), es + {e}, evaluators, q)
  {
    var k := e.signature.signer;
    NewEvaluator(es, e);
    assert Evaluators(es) + {k} + (ph.signers - {k}) == Evaluators(es) + ph.signers;
    forall hash, success ensures |Agreeing(es + {e}, hash, success)| < Needed(evaluators, q, success) {
      NewAnswer(es, e, hash, success);
    }
  }

  /** What follows once the result stands. */
  lemma ProceedsAsSaid(env: Env, db: Db, st: Flow, id: Digest, s: Subject, version: nat, req: EvaluationRequest,
                       r: EvaluationResponse, sigs: set<Signature>)
    requires CanProceed(env, db, Some(version), id, r) && db.Get(id).subject == Some(s)
    ensures var st' := Evaluated(env, db, st, id, s, version, req, r, sigs).0;
      && MovedOn(st', id, r.evalReqHash, r.apprRequired)
      && CarriedOver(env, db, st', id, req, version, r, sigs)
  {}

  lemma AnswerWaits(env: Env, db: Db, live: Option<nat>, st: Flow, id: Digest, h: Digest, m: SignedResponse)
    requires live.Some? && EvaluationFault(env, db, live, st, m).None? && m.content.evalReqHash == h
    requires st.preEvaluations[h].request.content.subjectId == id
    requires var e := EntryOf(env.crypto, m); Reached(st.completing[id], Replaced(SetAt(st.evaluations, h), e), e.hash).None?
    ensures EvaluatorSignatures(env, db, live, st, m).0 ==
      st.(evaluations := st.evaluations[h := Replaced(SetAt(st.evaluations, h), EntryOf(env.crypto, m))],
          completing := st.completing[id := st.completing[id].(signers := st.completing[id].signers - {m.signature.signer})])
  {}

  lemma AnswerDecides(env: Env, db: Db, live: Option<nat>, st: Flow, id: Digest, h: Digest, m: SignedResponse, sigs: set<Signature>)
    requires CanProceed(env, db, live, id, m.content) && EvaluationFault(env, db, live, st, m).None? && m.content.evalReqHash == h
    requires st.preEvaluations[h].request.content.subjectId == id
    requires var e := EntryOf(env.crypto, m);
      var es := Replaced(SetAt(st.evaluations, h), e);
      && Reached(st.completing[id], es, e.hash) == Some(e.accepted)
      && sigs == SignaturesOf(Matching(es, e.hash, e.accepted))
    ensures var st' := EvaluatorSignatures(env, db, live, st, m).0;
      && MovedOn(st', id, h, m.content.apprRequired)
      && CarriedOver(env, db, st', id, st.preEvaluations[h], live.value, m.content, sigs)
  {
    var e := EntryOf(env.crypto, m);
    var es := Replaced(SetAt(st.evaluations, h), e);
    ProceedsAsSaid(env, db, st.(evaluations := st.evaluations[h := es]), id, db.Get(id).subject.value, live.value,
      st.preEvaluations[h], m.content, sigs);
  }

  /** An answer that counts moves the subject on exactly when with it as many evaluators as are needed have reported its
      result: to approval if the response asks for it, to validation if not, with this response and all their signatures.
      Until then the subject stays under evaluation, this evaluator no longer asked. */
  lemma EvaluationStep(env: Env, db: Db, live: Option<nat>, st: Flow, id: Digest, h: Digest, evaluators: set<Key>, q: nat,
                       m: SignedResponse)
    requires UnderEvaluation(st, id, h, evaluators, q) && Counts(env, db, st, id, h, m)
    requires CanProceed(env, db, live, id, m.content)
    ensures var (r, e, es) := (m.content, EntryOf(env.crypto, m), SetAt(st.evaluations, h));
      var st' := EvaluatorSignatures(env, db, live, st, m).0;
      if |Agreeing(es, e.hash, r.evalSuccess)| + 1 == Needed(evaluators, q, r.evalSuccess) then
        && MovedOn(st', id, h, r.apprRequired)
        && CarriedOver(env, db, st', id, st.preEvaluations[h], live.value, r, SignaturesFor(es + {e}, e.hash, r.evalSuccess))
      else
        && UnderEvaluation(st', id, h, evaluators, q)
        && SetAt(st'.evaluations, h) == es + {e} && m.signature.signer !in st'.completing[id].signers
        && st'.completing[id].signers == st.completing[id].signers - {m.signature.signer}
  {
    var e, es := EntryOf(env.crypto, m), SetAt(st.evaluations, h);
    if |Agreeing(es, e.hash, e.accepted)| + 1 == Needed(evaluators, q, e.accepted) {
      StepMoves(env, db, live, st, id, h, evaluators, q, m, EvaluatorSignatures(env, db, live, st, m).0);
    } else {
      StepStays(env, db, live, st, id, h, evaluators, q, m, EvaluatorSignatures(env, db, live, st, m).0);
    }
  }

  lemma StepMoves(env: Env, db: Db, live: Option<nat>, st: Flow, id: Digest, h: Digest, evaluators: set<Key>, q: nat,
                  m: SignedResponse, st': Flow)
    requires UnderEvaluation(st, id, h, evaluators, q) && Counts(env, db, st, id, h, m)
    requires CanProceed(env, db, live, id, m.content) && st' == EvaluatorSignatures(env, db, live, st, m).0
    requires var e := EntryOf(env.crypto, m);
      |Agreeing(SetAt(st.evaluations, h), e.hash, e.accepted)| + 1 == Needed(evaluators, q, e.accepted)
    ensures MovedOn(st', id, h, m.content.apprRequired)
    ensures var e := EntryOf(env.crypto, m);
      CarriedOver(env, db, st', id, st.preEvaluations[h], live.value, m.content,
        SignaturesFor(SetAt(st.evaluations, h) + {e}, e.hash, e.accepted))
  {
    var e, es := EntryOf(env.crypto, m), SetAt(st.evaluations, h);
    CountsIsNoFault(env, db, live, st, id, h, m);
    LastAnswer(st.completing[id], es, evaluators, q, e);
    AnswerDecides(env, db, live, st, id, h, m, SignaturesFor(es + {e}, e.hash, e.accepted));
  }

  lemma LastAnswer(ph: Phase, es: set<Counted>, evaluators: set<Key>, q: nat, e: Counted)
    requires Undecided(ph, es, evaluators, q) && e.signature.signer in ph.signers
    requires |Agreeing(es, e.hash, e.accepted)| + 1 == Needed(evaluators, q, e.accepted)
    ensures Reached(ph, Replaced(es, e), e.hash) == Some(e.accepted)
    ensures SignaturesFor(es + {e}, e.hash, e.accepted) == SignaturesOf(Matching(Replaced(es, e), e.hash, e.accepted))
  {
    ReachedExactly(ph, es, evaluators, q, e);
    NewEvaluator(es, e);
    SameSignatures(es + {e}, e.hash, e.accepted);
  }

  lemma SameSignatures(es: set<Counted>, hash: Digest, success: bool)
    ensures SignaturesFor(es, hash, success) == SignaturesOf(Matching(es, hash, success))
  {
    forall s | s in SignaturesFor(es, hash, success) ensures s in SignaturesOf(Matching(es, hash, success)) {
      var e :| e in es && e.hash == hash && e.accepted == success && e.signature == s;
      assert e in Matching(es, hash, success);
    }
  }

  lemma StepStays(env: Env, db: Db, live: Option<nat>, st: Flow, id: Digest, h: Digest, evaluators: set<Key>, q: nat,
                  m: SignedResponse, st': Flow)
    requires UnderEvaluation(st, id, h, evaluators, q) && Counts(env, db, st, id, h, m)
    requires live.Some? && st' == EvaluatorSignatures(env, db, live, st, m).0
    requires var e := EntryOf(env.crypto, m);
      |Agreeing(SetAt(st.evaluations, h), e.hash, e.accepted)| + 1 != Needed(evaluators, q, e.accepted)
    ensures UnderEvaluation(st', id, h, evaluators, q)
    ensures st' == st.(evaluations := st.evaluations[h := SetAt(st.evaluations, h) + {EntryOf(env.crypto, m)}],
      completing := st.completing[id := st.completing[id].(signers := st.completing[id].signers - {m.signature.signer})])
  {
    var e, es := EntryOf(env.crypto, m), SetAt(st.evaluations, h);
    CountsIsNoFault(env, db, live, st, id, h, m);
    ReachedExactly(st.completing[id], es, evaluators, q, e);
    NewEvaluator(es, e);
    AnswerWaits(env, db, live, st, id, h, m);
    EvaluationGoesOn(st, st', id, h, evaluators, q, e);
  }

  lemma EvaluationGoesOn(st: Flow, st': Flow, id: Digest, h: Digest, evaluators: set<Key>, q: nat, e: Counted)
    requires UnderEvaluation(st, id, h, evaluators, q) && e.signature.signer in st.completing[id].signers
    requires |Agreeing(SetAt(st.evaluations, h), e.hash, e.accepted)| + 1 != Needed(evaluators, q, e.accepted)
    requires st' == st.(evaluations := st.evaluations[h := SetAt(st.evaluations, h) + {e}],
      completing := st.completing[id := st.completing[id].(signers := st.completing[id].signers - {e.signature.signer})])
    ensures UnderEvaluation(st', id, h, evaluators, q)
  {
    var es := SetAt(st.evaluations, h);
    assert |Agreeing(es, e.hash, e.accepted)| < Needed(evaluators, q, e.accepted);
    StillUndecided(st.completing[id], es, evaluators, q, e);
  }

  // ---- all the answers ----

  function AnswerAll(env: Env, db: Db, live: Option<nat>, st: Flow, ms: seq<SignedResponse>): Flow
    decreases |ms|
  {
    if ms == [] then st else AnswerAll(env, db, live, EvaluatorSignatures(env, db, live, st, ms[0]).0, ms[1..])
  }

  /** Answers that count, from evaluators all different, that report the same result. */
  ghost predicate SameAnswers(env: Env, db: Db, live: Option<nat>, asked: set<Key>, id: Digest, h: Digest, result: Counted,
                              approval: bool, ms: seq<SignedResponse>)
    decreases |ms|
  {
    ms == [] ||
    (&& ms[0].signature.signer in asked && ms[0].content.evalReqHash == h
     && env.crypto.verifies(ms[0].signature, OfEvaluation(ms[0].content))
     && db.Get(id).subject.Some? && TellsState(env.crypto, db.Get(id).subject.value, ms[0].content)
     && CanProceed(env, db, live, id, ms[0].content) && ms[0].content.apprRequired == approval
     && EntryOf(env.crypto, ms[0]).hash == result.hash && ms[0].content.evalSuccess == result.accepted
     && SameAnswers(env, db, live, asked - {ms[0].signature.signer}, id, h, result, approval, ms[1..]))
  }

  lemma {:induction false} MovedOnStays(env: Env, db: Db, live: Option<nat>, st: Flow, asked: set<Key>, id: Digest, h: Digest,
                                        result: Counted, approval: bool, ms: seq<SignedResponse>)
    requires MovedOn(st, id, h, approval) && SameAnswers(env, db, live, asked, id, h, result, approval, ms)
    ensures AnswerAll(env, db, live, st, ms) == st
    decreases |ms|
  {
    if ms != [] {
      assert EvaluationFault(env, db, live, st, ms[0]) == Some(UnknownHash);
      MovedOnStays(env, db, live, st, asked - {ms[0].signature.signer}, id, h, result, approval, ms[1..]);
    }
  }

  /** Agreeing answers move the subject on exactly when, with those that agreed before, they are as many as are needed. */
  lemma {:induction false} AgreementMovesOn(env: Env, db: Db, live: Option<nat>, st: Flow, id: Digest, h: Digest,
                                            evaluators: set<Key>, q: nat, result: Counted, approval: bool, ms: seq<SignedResponse>)
    requires UnderEvaluation(st, id, h, evaluators, q)
    requires SameAnswers(env, db, live, st.completing[id].signers, id, h, result, approval, ms)
    ensures var st' := AnswerAll(env, db, live, st, ms);
      if |Agreeing(SetAt(st.evaluations, h), result.hash, result.accepted)| + |ms| >= Needed(evaluators, q, result.accepted)
      then MovedOn(st', id, h, approval)
      else UnderEvaluation(st', id, h, evaluators, q)
    decreases |ms|
  {
    var es := SetAt(st.evaluations, h);
    assert |Agreeing(es, result.hash, result.accepted)| < Needed(evaluators, q, result.accepted);
    if ms != [] {
      var m, e := ms[0], EntryOf(env.crypto, ms[0]);
      var st' := EvaluatorSignatures(env, db, live, st, m).0;
      EvaluationStep(env, db, live, st, id, h, evaluators, q, m);
      AnswererIsNew(st, id, h, evaluators, q, m.signature.signer);
      NewAnswer(es, e, result.hash, result.accepted);
      if |Agreeing(es, e.hash, e.accepted)| + 1 == Needed(evaluators, q, e.accepted) {
        MovedOnStays(env, db, live, st', st.completing[id].signers - {m.signature.signer}, id, h, result, approval, ms[1..]);
      } else {
        AgreementMovesOn(env, db, live, st', id, h, evaluators, q, result, approval, ms[1..]);
      }
    }
  }

  lemma AnswererIsNew(st: Flow, id: Digest, h: Digest, evaluators: set<Key>, q: nat, k: Key)
    requires UnderEvaluation(st, id, h, evaluators, q) && k in st.completing[id].signers
    ensures k !in Evaluators(SetAt(st.evaluations, h))
  {}

  /** When a request has just been sent out and all evaluators report the same, success or failure, the subject has moved on
      by the last answer. */
  lemma AllAgreeingClose(env: Env, db: Db, live: Option<nat>, st: Flow, id: Digest, h: Digest, evaluators: set<Key>, q: nat,
                         result: Counted, approval: bool, ms: seq<SignedResponse>)
    requires UnderEvaluation(st, id, h, evaluators, q) && SetAt(st.evaluations, h) == {}
    requires SameAnswers(env, db, live, st.completing[id].signers, id, h, result, approval, ms) && |ms| == |evaluators|
    ensures MovedOn(AnswerAll(env, db, live, st, ms), id, h, approval)
  {
    AgreementMovesOn(env, db, live, st, id, h, evaluators, q, result, approval, ms);
  }

  /** What a fact's evaluators are asked. */
  function AskedOf(s: Subject, request: SignedRequest, version: nat): EvaluationRequest {
    EvaluationRequest(request, SubjectContext(s.governanceId, s.schemaId, request.signature.signer == s.owner, s.properties, s.namespace),
      s.sn + 1, version)
  }

  /** A fact is taken exactly when it is signed and not seen before, for an active subject that this node has the keys of, with
      nothing else in progress; when its signer is this node or may invoke; and when governance tells its version and the
      evaluators, who can reach their quorum (a quorum out of their reach panics). All of them are then asked. */
  lemma FactIsAsked(env: Env, db: Db, live: Option<nat>, st: Flow, request: SignedRequest, id: Digest, s: Subject)
    requires request.content.Fact? && request.content.subjectId == id && db.Get(id).subject == Some(s)
    ensures var (st', r) := PreNewEvent(env, db, live, st, request);
      && (r == Done <==>
            && env.crypto.verifies(request.signature, OfRequest(request.content))
            && env.crypto.hashRequest(request) !in db.requests && id !in st.completing
            && s.active && s.keys.Some? && live.Some?
            && (request.signature.signer == env.ourId
                || env.gov.mayInvoke(MetadataOf(s, id, live.value), Invoke, request.signature.signer) == Some(true))
            && var evaluators, quorum := env.gov.signers(MetadataOf(s, id, live.value), Evaluate), env.gov.quorum(MetadataOf(s, id, live.value), Evaluate);
               evaluators.Some? && quorum.Some? && quorum.value <= |evaluators.value|)
      && (r == Done ==>
            var h := env.crypto.hashEvaluation(AskedOf(s, request, live.value));
            && h in st'.preEvaluations && st'.preEvaluations[h] == AskedOf(s, request, live.value)
            && id in st'.requests && st'.requests[id] == request
            && id in st'.completing && st'.completing[id].stage.Evaluate?
            && Some(st'.completing[id].signers) == env.gov.signers(MetadataOf(s, id, live.value), Evaluate)
            && Some(st'.completing[id].quorum) == env.gov.quorum(MetadataOf(s, id, live.value), Evaluate)
            && st'.completing[id].negQuorum == |st'.completing[id].signers| - st'.completing[id].quorum + 1)
  {}

  /** With nobody's answer counted yet, that is a subject under evaluation. */
  lemma AskedIsUnderEvaluation(env: Env, db: Db, live: Option<nat>, st: Flow, request: SignedRequest, id: Digest, s: Subject)
    requires request.content.Fact? && request.content.subjectId == id && db.Get(id).subject == Some(s)
    requires PreNewEvent(env, db, live, st, request).1 == Done
    requires env.crypto.hashEvaluation(AskedOf(s, request, live.value)) !in st.evaluations
    requires env.gov.quorum(MetadataOf(s, id, live.value), Evaluate) != Some(0)
    ensures var st', h := PreNewEvent(env, db, live, st, request).0, env.crypto.hashEvaluation(AskedOf(s, request, live.value));
      && id in st'.completing
      && UnderEvaluation(st', id, h, st'.completing[id].signers, st'.completing[id].quorum) && SetAt(st'.evaluations, h) == {}
  {
    FactIsAsked(env, db, live, st, request, id, s);
    forall hash, success ensures Agreeing({}, hash, success) == {} {}
  }
}
