/** One flow a subject, and why a flow survives what happens to other subjects. */
module CompleterFrames {
  import opened Protocol
  import opened Subjects
  import opened Quorum
  import opened Store
  import opened LedgerSteps
  import opened Completer
  import opened CompleterEvents
  import opened CompleterRuns

  // ---- one flow a subject ----

  function RequestSubject(r: EventRequest): Digest {
    if r.Create? then NoDigest else r.subjectId
  }

  function RequestIds(m: map<Digest, EvaluationRequest>): map<Digest, Digest> {
    map h | h in m :: RequestSubject(m[h].request.content)
  }

  function ProposalIds(m: map<Digest, ApprovalRequest>): map<Digest, Digest> {
    map h | h in m :: RequestSubject(m[h].request.content)
  }

  function EventIds(m: map<Digest, Event>): map<Digest, Digest> {
    map h | h in m :: RequestSubject(m[h].request.content)
  }

  /** Of the entries with these subjects no two share one, and each subject waits in this stage. */
  ghost predicate Tied(ids: map<Digest, Digest>, completing: map<Digest, Phase>, stage: Stage) {
    && (forall h :: h in ids ==> ids[h] in completing && completing[ids[h]].stage == stage)
    && (forall h, k :: h in ids && k in ids && ids[h] == ids[k] ==> h == k)
  }

  /** Every entry belongs to the one phase its subject is in. */
  ghost predicate Tidy(st: Flow) {
    && Tied(RequestIds(st.preEvaluations), st.completing, Evaluate)
    && Tied(ProposalIds(st.approvalRequests), st.completing, Approve)
    && Tied(EventIds(st.toValidate), st.completing, Validate)
  }

  /** The subject's phase is replaced by one of another stage, or of the same. */
  lemma TiedElsewhere(ids: map<Digest, Digest>, completing: map<Digest, Phase>, stage: Stage, id: Digest, ph: Phase)
    requires Tied(ids, completing, stage) && (ph.stage == stage || id !in ids.Values)
    ensures Tied(ids, completing[id := ph], stage)
  {
    forall h | h in ids ensures ids[h] in completing[id := ph] && completing[id := ph][ids[h]].stage == stage {
      assert ids[h] in ids.Values;
    }
  }

  lemma TiedAdded(ids: map<Digest, Digest>, completing: map<Digest, Phase>, id: Digest, h: Digest, ph: Phase)
    requires Tied(ids, completing, ph.stage) && id !in ids.Values
    ensures Tied(ids[h := id], completing[id := ph], ph.stage)
  {
    forall k | k in ids ensures ids[k] != id { assert ids[k] in ids.Values; }
  }

  lemma TiedDropped(ids: map<Digest, Digest>, completing: map<Digest, Phase>, stage: Stage, h: Digest)
    requires Tied(ids, completing, stage)
    ensures Tied(ids - {h}, completing, stage)
    ensures h in ids ==> ids[h] !in (ids - {h}).Values
  {}

  /** A subject that waits for nothing, or in another stage, has no entry. */
  lemma NotTied(ids: map<Digest, Digest>, completing: map<Digest, Phase>, stage: Stage, id: Digest)
    requires Tied(ids, completing, stage) && (id in completing ==> completing[id].stage != stage)
    ensures id !in ids.Values
  {}

  lemma TiedWithout(ids: map<Digest, Digest>, completing: map<Digest, Phase>, stage: Stage, id: Digest)
    requires Tied(ids, completing, stage) && id !in ids.Values
    ensures Tied(ids, completing - {id}, stage)
  {
    forall h | h in ids ensures ids[h] in completing - {id} { assert ids[h] in ids.Values; }
  }

  // ---- steps keep it ----

  lemma NewFactTidy(w: World, st: Flow, id: Digest, s: Subject, request: SignedRequest)
    requires EnvOk(w.env) && Tidy(st) && id !in st.completing
    requires request.content.Fact? && request.content.subjectId == id
    ensures Tidy(NewFact(w.env, st, id, s, request, Version(w, id)).0)
  {
    var stage := StageOf(w.env.gov, MetadataOf(s, id, Version(w, id)), Evaluate);
    if stage.Some? {
      var req := FactEvaluation(s, request, Version(w, id));
      var h := w.env.crypto.hashEvaluation(req);
      var (signers, q) := stage.value;
      assert q <= |signers|;
      var ph := Phase(Evaluate, signers, q, NegativeQuorum(|signers|, q));
      NotTied(RequestIds(st.preEvaluations), st.completing, Evaluate, id);
      NotTied(ProposalIds(st.approvalRequests), st.completing, Approve, id);
      NotTied(EventIds(st.toValidate), st.completing, Validate, id);
      TiedAdded(RequestIds(st.preEvaluations), st.completing, id, h, ph);
      TiedElsewhere(ProposalIds(st.approvalRequests), st.completing, Approve, id, ph);
      TiedElsewhere(EventIds(st.toValidate), st.completing, Validate, id, ph);
      assert RequestIds(st.preEvaluations[h := req]) == RequestIds(st.preEvaluations)[h := id];
    }
  }

  /** An event goes to validation, its subject having no other one there. */
  lemma ToValidationTidy(st: Flow, id: Digest, h: Digest, e: Event, ph: Phase, st': Flow)
    requires Tidy(st) && RequestSubject(e.request.content) == id && ph.stage == Validate
    requires id in st.completing ==> st.completing[id].stage != Validate
    requires id !in RequestIds(st'.preEvaluations).Values && id !in ProposalIds(st'.approvalRequests).Values
    requires Tied(RequestIds(st'.preEvaluations), st.completing, Evaluate)
    requires Tied(ProposalIds(st'.approvalRequests), st.completing, Approve)
    requires st'.toValidate == st.toValidate[h := e] && st'.completing == st.completing[id := ph]
    ensures Tidy(st')
  {
    NotTied(EventIds(st.toValidate), st.completing, Validate, id);
    TiedAdded(EventIds(st.toValidate), st.completing, id, h, ph);
    TiedElsewhere(RequestIds(st'.preEvaluations), st.completing, Evaluate, id, ph);
    TiedElsewhere(ProposalIds(st'.approvalRequests), st.completing, Approve, id, ph);
    assert EventIds(st'.toValidate) == EventIds(st.toValidate)[h := id];
  }

  lemma AskedShape(w: World, st: Flow, id: Digest, s: Subject, e: Event)
    requires s.keys.Some? && s.sn in w.db.Get(id).certs
    requires StageOf(w.env.gov, MetadataOf(s, id, Version(w, id)), Validate).Some?
    ensures var st' := AskValidation(w.env, w.db, st, id, s, Version(w, id), e).0;
      var (signers, q) := StageOf(w.env.gov, MetadataOf(s, id, Version(w, id)), Validate).value;
      && st'.preEvaluations == st.preEvaluations && st'.approvalRequests == st.approvalRequests
      && st'.toValidate == st.toValidate[w.env.crypto.hashEvent(e) := e]
      && st'.completing == st.completing[id := Phase(Validate, signers, q, 0)]
  {}

  lemma AskValidationTidy(w: World, st: Flow, id: Digest, s: Subject, e: Event)
    requires Tidy(st) && id !in st.completing && RequestSubject(e.request.content) == id
    requires s.keys.Some? && s.sn in w.db.Get(id).certs
    requires StageOf(w.env.gov, MetadataOf(s, id, Version(w, id)), Validate).Some?
    ensures Tidy(AskValidation(w.env, w.db, st, id, s, Version(w, id), e).0)
  {
    var (signers, q) := StageOf(w.env.gov, MetadataOf(s, id, Version(w, id)), Validate).value;
    NotTied(RequestIds(st.preEvaluations), st.completing, Evaluate, id);
    NotTied(ProposalIds(st.approvalRequests), st.completing, Approve, id);
    AskedShape(w, st, id, s, e);
    ToValidationTidy(st, id, w.env.crypto.hashEvent(e), e, Phase(Validate, signers, q, 0),
      AskValidation(w.env, w.db, st, id, s, Version(w, id), e).0);
  }

  /** What a subject must be for its owner to start an event: its last certificate is held, and governance answers. */
  predicate Askable(w: World, id: Digest) {
    match Of(w, id)
    case None => true
    case Some(s) => (s.keys.Some? ==> s.sn in w.db.Get(id).certs) && StageAt(w, id, Validate).Some?
  }

  lemma PlainTidy(w: World, st: Flow, id: Digest, s: Subject, request: SignedRequest)
    requires Tidy(st) && id !in st.completing && Of(w, id) == Some(s) && Askable(w, id) && s.keys.Some?
    requires (request.content.Transfer? || request.content.Eol?) && request.content.subjectId == id
    ensures Tidy(NewPlain(w.env, w.db, st, id, s, request, Version(w, id)).0)
  {
    if s.sn in w.db.Get(id).events {
      AskValidationTidy(w, st, id, s, PlainEvent(w.env.crypto, s, request, Version(w, id),
        w.env.crypto.hashEvent(w.db.Get(id).events[s.sn].content)));
    }
  }

  lemma RequestTidy(w: World, st: Flow, request: SignedRequest)
    requires EnvOk(w.env) && Tidy(st) && (!request.content.Create? ==> Askable(w, request.content.subjectId))
    ensures Tidy(Step(w, st, Request(request)).0)
  {
    if !request.content.Create? && request.content.subjectId !in st.completing && Of(w, request.content.subjectId).Some? {
      var id := request.content.subjectId;
      var s := Of(w, id).value;
      if request.content.Fact? {
        NewFactTidy(w, st, id, s, request);
      } else if s.keys.Some? {
        PlainTidy(w, st, id, s, request);
      }
    }
  }

  /** The same phase with fewer signers. */
  lemma FewerSignersTidy(st: Flow, id: Digest, signers: set<Key>, st': Flow)
    requires Tidy(st) && id in st.completing
    requires st'.completing == st.completing[id := st.completing[id].(signers := signers)]
    requires st'.preEvaluations == st.preEvaluations && st'.approvalRequests == st.approvalRequests
    requires st'.toValidate == st.toValidate
    ensures Tidy(st')
  {}

  /** The evaluation h of the subject is over, and its event goes to validation. */
  lemma EvaluatedTidy(st: Flow, st': Flow, id: Digest, h: Digest, h': Digest, e: Event, ph: Phase)
    requires Tidy(st) && id in st.completing && st.completing[id].stage == Evaluate && ph.stage == Validate
    requires h in st.preEvaluations && RequestSubject(st.preEvaluations[h].request.content) == id
    requires RequestSubject(e.request.content) == id
    requires st'.preEvaluations == st.preEvaluations - {h} && st'.approvalRequests == st.approvalRequests
    requires st'.toValidate == st.toValidate[h' := e] && st'.completing == st.completing[id := ph]
    ensures Tidy(st')
  {
    var pre := RequestIds(st.preEvaluations);
    TiedDropped(pre, st.completing, Evaluate, h);
    assert RequestIds(st'.preEvaluations) == pre - {h} && pre[h] == id;
    NotTied(ProposalIds(st.approvalRequests), st.completing, Approve, id);
    ToValidationTidy(st, id, h', e, ph, st');
  }

  /** The evaluation h of the subject is over, and is proposed to the approvers. */
  lemma ProposedTidy(st: Flow, st': Flow, id: Digest, h: Digest, h': Digest, areq: ApprovalRequest, ph: Phase)
    requires Tidy(st) && id in st.completing && st.completing[id].stage == Evaluate && ph.stage == Approve
    requires h in st.preEvaluations && RequestSubject(st.preEvaluations[h].request.content) == id
    requires RequestSubject(areq.request.content) == id
    requires st'.preEvaluations == st.preEvaluations - {h} && st'.toValidate == st.toValidate
    requires st'.approvalRequests == st.approvalRequests[h' := areq] && st'.completing == st.completing[id := ph]
    ensures Tidy(st')
  {
    var pre := RequestIds(st.preEvaluations);
    TiedDropped(pre, st.completing, Evaluate, h);
    assert RequestIds(st'.preEvaluations) == pre - {h} && pre[h] == id;
    TiedElsewhere(pre - {h}, st.completing, Evaluate, id, ph);
    NotTied(EventIds(st.toValidate), st.completing, Validate, id);
    TiedElsewhere(EventIds(st.toValidate), st.completing, Validate, id, ph);
    NotTied(ProposalIds(st.approvalRequests), st.completing, Approve, id);
    TiedAdded(ProposalIds(st.approvalRequests), st.completing, id, h', ph);
    assert ProposalIds(st'.approvalRequests) == ProposalIds(st.approvalRequests)[h' := id];
  }

  /** Proposal ah is decided: the event goes to validation, if nothing fails. */
  lemma DecidedTidy(st: Flow, st': Flow, id: Digest, ah: Digest, h: Digest, e: Event, ph: Phase)
    requires Tidy(st) && id in st.completing && st.completing[id].stage == Approve && ph.stage == Validate
    requires ah in st.approvalRequests && RequestSubject(st.approvalRequests[ah].request.content) == id
    requires RequestSubject(e.request.content) == id
    requires st'.preEvaluations == st.preEvaluations && st'.approvalRequests == st.approvalRequests - {ah}
    requires st'.toValidate == st.toValidate[h := e] && st'.completing == st.completing[id := ph]
    ensures Tidy(st')
  {
    var proposals := ProposalIds(st.approvalRequests);
    TiedDropped(proposals, st.completing, Approve, ah);
    assert ProposalIds(st'.approvalRequests) == proposals - {ah} && proposals[ah] == id;
    NotTied(RequestIds(st.preEvaluations), st.completing, Evaluate, id);
    ToValidationTidy(st, id, h, e, ph, st');
  }

  /** A proposal, and nothing else, is dropped. */
  lemma DroppedTidy(st: Flow, ah: Digest)
    requires Tidy(st)
    ensures Tidy(DropProposal(st, ah))
  {
    var st' := DropProposal(st, ah);
    TiedDropped(ProposalIds(st.approvalRequests), st.completing, Approve, ah);
    assert ProposalIds(st'.approvalRequests) == ProposalIds(st.approvalRequests) - {ah};
    assert st'.preEvaluations == st.preEvaluations && st'.toValidate == st.toValidate && st'.completing == st.completing;
  }

  /** The event is handed over: nothing of its subject is left in the flow. */
  lemma HandedTidy(st: Flow, id: Digest, h: Digest)
    requires Tidy(st) && id in st.completing && st.completing[id].stage == Validate
    requires h in st.toValidate && RequestSubject(st.toValidate[h].request.content) == id
    ensures Tidy(DropEvent(st, id, h))
  {
    var events := EventIds(st.toValidate);
    TiedDropped(events, st.completing, Validate, h);
    assert EventIds(st.toValidate - {h}) == events - {h} && events[h] == id;
    TiedWithout(events - {h}, st.completing, Validate, id);
    NotTied(RequestIds(st.preEvaluations), st.completing, Evaluate, id);
    TiedWithout(RequestIds(st.preEvaluations), st.completing, Evaluate, id);
    NotTied(ProposalIds(st.approvalRequests), st.completing, Approve, id);
    TiedWithout(ProposalIds(st.approvalRequests), st.completing, Approve, id);
  }

  // ---- the handlers ----

  /** Where an advance leads when governance answers and the quorum can be reached. */
  lemma AdvanceTo(w: World, st: Flow, id: Digest, s: Subject, h: Digest, stage: Stage) returns (ph: Phase)
    requires EnvOk(w.env) && StageOf(w.env.gov, MetadataOf(s, id, Version(w, id)), stage).Some?
    ensures ph.stage == stage
    ensures Advance(w.env, st, id, s, Version(w, id), h, stage).0 ==
      st.(evaluations := st.evaluations - {h}, preEvaluations := st.preEvaluations - {h}, completing := st.completing[id := ph])
  {
    var (signers, q) := StageOf(w.env.gov, MetadataOf(s, id, Version(w, id)), stage).value;
    assert q <= |signers|;
    ph := Phase(stage, signers, q, NegativeQuorum(|signers|, q));
  }

  lemma AfterEvaluationTidy(w: World, st: Flow, id: Digest, s: Subject, req: EvaluationRequest, r: EvaluationResponse,
                            sigs: set<Signature>)
    requires EnvOk(w.env) && Tidy(st) && id in st.completing && st.completing[id].stage == Evaluate
    requires r.evalReqHash in st.preEvaluations && st.preEvaluations[r.evalReqHash] == req
    requires req.request.content.Fact? && req.request.content.subjectId == id
    requires StageOf(w.env.gov, MetadataOf(s, id, Version(w, id)), Evaluate).Some?
    ensures Tidy(Evaluated(w.env, w.db, st, id, s, Version(w, id), req, r, sigs).0)
  {
    var c, v := w.env.crypto, Version(w, id);
    if s.sn in w.db.Get(id).events && s.keys.Some? && (r.apprRequired ==> r.evalSuccess) {
      var hashPrev := c.hashEvent(w.db.Get(id).events[s.sn].content);
      var st' := Evaluated(w.env, w.db, st, id, s, v, req, r, sigs).0;
      if r.apprRequired {
        var areq := Proposal(req, r, s, v, hashPrev);
        var ph := AdvanceTo(w, Propose(c, st, areq, sigs), id, s, r.evalReqHash, Approve);
        ProposedTidy(st, st', id, r.evalReqHash, c.hashApproval(areq), areq, ph);
      } else {
        var e := EvaluatedEvent(id, req, r, v, hashPrev, sigs);
        var proof := ProofOf(c, w.db, s, id, e, v);
        if proof.Some? {
          var ph := AdvanceTo(w, Prevalidate(c, st, id, e, proof.value), id, s, r.evalReqHash, Validate);
          EvaluatedTidy(st, st', id, r.evalReqHash, c.hashEvent(e), e, ph);
        }
      }
    }
  }

  lemma RecordedTidy(w: World, st: Flow, id: Digest, s: Subject, req: EvaluationRequest, ph: Phase, m: SignedResponse)
    requires EnvOk(w.env) && Tidy(st) && id in st.completing && st.completing[id] == ph && ph.stage == Evaluate
    requires m.content.evalReqHash in st.preEvaluations && st.preEvaluations[m.content.evalReqHash] == req
    requires req.request.content.Fact? && req.request.content.subjectId == id
    requires StageOf(w.env.gov, MetadataOf(s, id, Version(w, id)), Evaluate).Some?
    ensures Tidy(RecordedEvaluation(w.env, w.db, st, id, s, Version(w, id), req, ph, m).0)
  {
    var r := m.content;
    var hash := ResponseHash(w.env.crypto, r);
    var es := Replaced(SetAt(st.evaluations, r.evalReqHash), Counted(m.signature, r.evalSuccess, hash));
    match Reached(ph, es, hash)
    case None =>
      FewerSignersTidy(st, id, ph.signers - {m.signature.signer},
        RecordedEvaluation(w.env, w.db, st, id, s, Version(w, id), req, ph, m).0);
    case Some(accepted) =>
      AfterEvaluationTidy(w, st.(evaluations := st.evaluations[r.evalReqHash := es]), id, s, req, r,
        SignaturesOf(Matching(es, hash, accepted)));
  }

  lemma RequestHasStage(w: World, st: Flow, h: Digest, req: EvaluationRequest)
    requires EvaluationsOk(w, st.preEvaluations, st.evaluations) && h in st.preEvaluations && st.preEvaluations[h] == req
    ensures var id := req.request.content.subjectId;
      Of(w, id).Some? && StageOf(w.env.gov, MetadataOf(Of(w, id).value, id, Version(w, id)), Evaluate).Some?
  {
    assert RequestOk(w, h, req);
  }

  /** An evaluation that is not refused is recorded. */
  lemma EvaluationShape(w: World, st: Flow, m: SignedResponse, live: Option<nat>)
    requires live == LiveFor(w, st, Evaluation(m)) && EvaluationFault(w.env, w.db, live, st, m).None?
    ensures var req := st.preEvaluations[m.content.evalReqHash];
      var id := req.request.content.subjectId;
      && Of(w, id).Some?
      && EvaluatorSignatures(w.env, w.db, live, st, m) ==
         RecordedEvaluation(w.env, w.db, st, id, Of(w, id).value, Version(w, id), req, st.completing[id], m)
  {}

  lemma EvaluationTidy(w: World, st: Flow, m: SignedResponse, live: Option<nat>)
    requires EnvOk(w.env) && EvaluationsOk(w, st.preEvaluations, st.evaluations) && Tidy(st)
    requires live == LiveFor(w, st, Evaluation(m))
    ensures Tidy(EvaluatorSignatures(w.env, w.db, live, st, m).0)
  {
    if EvaluationFault(w.env, w.db, live, st, m).None? {
      var req := st.preEvaluations[m.content.evalReqHash];
      var id := req.request.content.subjectId;
      EvaluationShape(w, st, m, live);
      RequestHasStage(w, st, m.content.evalReqHash, req);
      RecordedTidy(w, st, id, Of(w, id).value, req, st.completing[id], m);
    }
  }

  lemma AfterVoteTidy(w: World, st: Flow, id: Digest, s: Subject, ah: Digest, yes: bool, sigs: set<Signature>, live: Option<nat>)
    requires Tidy(st) && id in st.completing && st.completing[id].stage == Approve
    requires ah in st.approvalRequests && RequestSubject(st.approvalRequests[ah].request.content) == id
    ensures Tidy(Decided(w.env, w.db, live, st, id, s, ah, yes, sigs).0)
  {
    DroppedTidy(st, ah);
    if live.Some? && ah in st.approvalEvals {
      var e := DecidedEvent(id, st.approvalRequests[ah], live.value, yes, st.approvalEvals[ah], sigs);
      var stage := StageOf(w.env.gov, MetadataOf(s, id, live.value), Validate);
      if s.keys.Some? && ProofOf(w.env.crypto, w.db, s, id, e, live.value).Some? && stage.Some? {
        DecidedTidy(st, Decided(w.env, w.db, live, st, id, s, ah, yes, sigs).0, id, ah, w.env.crypto.hashEvent(e), e,
          Phase(Validate, stage.value.0, stage.value.1, 0));
      }
    }
  }

  /** A vote that is not refused is recorded, and then waits or decides. */
  lemma ApprovalShape(w: World, st: Flow, m: SignedApproval, live: Option<nat>)
    requires ApprovalFault(w.env, w.db, st, m).None?
    ensures var ah, yes := m.content.apprReqHash, m.content.approved;
      var id := st.approvalRequests[ah].request.content.subjectId;
      var ph, vs := st.completing[id], ReplacedVote(SetAt(st.approvals, ah), m);
      var st' := st.(approvals := st.approvals[ah := vs]);
      ApproverSignatures(w.env, w.db, live, st, m).0 ==
        if |VotesFor(vs, yes)| < (if yes then ph.quorum else ph.negQuorum)
        then st'.(completing := st.completing[id := ph.(signers := ph.signers - {m.signature.signer})])
        else Decided(w.env, w.db, live, st', id, Of(w, id).value, ah, yes, VoteSignatures(VotesFor(vs, yes))).0
  {}

  lemma ApprovalTidy(w: World, st: Flow, m: SignedApproval, live: Option<nat>, st': Flow)
    requires Tidy(st) && st' == ApproverSignatures(w.env, w.db, live, st, m).0
    ensures Tidy(st')
  {
    if ApprovalFault(w.env, w.db, st, m).None? {
      ApprovalShape(w, st, m, live);
      var ah, yes := m.content.apprReqHash, m.content.approved;
      var id := st.approvalRequests[ah].request.content.subjectId;
      var ph, vs := st.completing[id], ReplacedVote(SetAt(st.approvals, ah), m);
      VotedTidy(w, st, st', id, ph, ah, yes, vs, m.signature.signer, live);
    }
  }

  lemma VotedTidy(w: World, st: Flow, st': Flow, id: Digest, ph: Phase, ah: Digest, yes: bool, vs: set<SignedApproval>,
                  signer: Key, live: Option<nat>)
    requires Tidy(st) && id in st.completing && st.completing[id] == ph && ph.stage == Approve && Of(w, id).Some?
    requires ah in st.approvalRequests && RequestSubject(st.approvalRequests[ah].request.content) == id
    requires var recorded := st.(approvals := st.approvals[ah := vs]);
      || st' == recorded.(completing := st.completing[id := ph.(signers := ph.signers - {signer})])
      || st' == Decided(w.env, w.db, live, recorded, id, Of(w, id).value, ah, yes, VoteSignatures(VotesFor(vs, yes))).0
    ensures Tidy(st')
  {
    var recorded := st.(approvals := st.approvals[ah := vs]);
    if st' == recorded.(completing := st.completing[id := ph.(signers := ph.signers - {signer})]) {
      FewerSignersTidy(st, id, ph.signers - {signer}, st');
    } else {
      AfterVoteTidy(w, recorded, id, Of(w, id).value, ah, yes, VoteSignatures(VotesFor(vs, yes)), live);
    }
  }

  lemma ValidationTidy(w: World, st: Flow, h: Digest, sig: Signature, version: nat, live: Option<nat>)
    requires WorldOk(w) && FlowInv(w, st) && Tidy(st)
    ensures Tidy(ValidationSignatures(w.env, w.db, live, st, h, sig, version).0)
  {
    ValidationShape(w, st, h, sig, version, live);
    var (st', r) := ValidationSignatures(w.env, w.db, live, st, h, sig, version);
    if st' != st {
      var id := SubjectIdOf(w.env.crypto, st.toValidate[h]);
      assert EventCheck(w)(st.toValidate[h]);
      if r.ToLedger? {
        HandedTidy(st, id, h);
      } else {
        FewerSignersTidy(st, id, st.completing[id].signers - {sig.signer}, st');
      }
    }
  }

  /** Every message leaves the flow tidy, if a request finds its subject askable. */
  lemma StepTidy(w: World, st: Flow, m: Message)
    requires WorldOk(w) && FlowInv(w, st) && Tidy(st)
    requires m.Request? && !m.request.content.Create? ==> Askable(w, m.request.content.subjectId)
    ensures Tidy(Step(w, st, m).0)
  {
    var live := LiveFor(w, st, m);
    match m
    case Request(request) => RequestTidy(w, st, request);
    case Evaluation(response) => EvaluationTidy(w, st, response, live);
    case Approval(approval) => ApprovalTidy(w, st, approval, live, Step(w, st, m).0);
    case Validation(h, sig, version) => ValidationTidy(w, st, h, sig, version, live);
  }
}
