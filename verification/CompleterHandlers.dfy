/** The event completer as it is: maps that its handlers insert into and remove from. */
module CompleterHandlers {
  import opened Protocol
  import opened Subjects
  import opened Quorum
  import opened Store
  import opened LedgerSteps
  import C = Completer

  class EventCompleter {
    const env: Env
    var subjectsCompletingEvent: map<Digest, C.Phase>
    var requests: map<Digest, SignedRequest>
    var prevalidated: map<Digest, Event>
    var eventPreEvaluations: map<Digest, EvaluationRequest>
    var eventEvaluations: map<Digest, set<C.Counted>>
    var approvalEvalSignatures: map<Digest, set<Signature>>
    var approvalRequests: map<Digest, ApprovalRequest>
    var eventApprovations: map<Digest, set<C.SignedApproval>>
    var eventsToValidate: map<Digest, Event>
    var eventValidationProofs: map<Digest, Proof>
    var eventValidations: map<Digest, set<Signature>>

    constructor (env: Env)
      ensures this.env == env && State() == C.IDLE
    {
      this.env := env;
      subjectsCompletingEvent, requests, prevalidated := map[], map[], map[];
      eventPreEvaluations, eventEvaluations := map[], map[];
      approvalEvalSignatures, approvalRequests, eventApprovations := map[], map[], map[];
      eventsToValidate, eventValidationProofs, eventValidations := map[], map[], map[];
    }

    function State(): C.Flow
      reads this
    {
      C.Flow(subjectsCompletingEvent, requests, prevalidated, eventPreEvaluations, eventEvaluations,
        approvalEvalSignatures, approvalRequests, eventApprovations, eventsToValidate, eventValidationProofs,
        eventValidations)
    }

    // ---- counting ----

    /** The loop counts, for one response hash, the signatures for success and for failure. */
    method CountSignatures(signatures: set<C.Counted>, target: Digest) returns (ok: nat, ko: nat)
      ensures ok == |C.Matching(signatures, target, true)| && ko == |C.Matching(signatures, target, false)|
    {
      ok, ko := 0, 0;
      var rest := signatures;
      while rest != {}
        invariant rest <= signatures
        invariant ok == |C.Matching(signatures - rest, target, true)|
        invariant ko == |C.Matching(signatures - rest, target, false)|
        decreases rest
      {
        var e :| e in rest;
        ghost var seen := signatures - rest;
        assert signatures - (rest - {e}) == seen + {e};
        MatchingOneMore(seen, e, target, true);
        MatchingOneMore(seen, e, target, false);
        rest := rest - {e};
        if e.hash == target {
          if e.accepted { ok := ok + 1; } else { ko := ko + 1; }
        }
      }
      assert signatures - rest == signatures;
    }

    static lemma MatchingOneMore(seen: set<C.Counted>, e: C.Counted, target: Digest, accepted: bool)
      requires e !in seen
      ensures |C.Matching(seen + {e}, target, accepted)| ==
              |C.Matching(seen, target, accepted)| + (if e.hash == target && e.accepted == accepted then 1 else 0)
    {
      if e.hash == target && e.accepted == accepted {
        assert C.Matching(seen + {e}, target, accepted) == C.Matching(seen, target, accepted) + {e};
      } else {
        assert C.Matching(seen + {e}, target, accepted) == C.Matching(seen, target, accepted);
      }
    }

    /** `Some(true)` at the quorum, `Some(false)` at the negative one. */
    method QuorumReached(ph: C.Phase, es: set<C.Counted>, hash: Digest) returns (r: Option<bool>)
      ensures r == C.Reached(ph, es, hash)
    {
      var ok, ko := CountSignatures(es, hash);
      if ok >= ph.quorum { return Some(true); }
      if ko >= ph.negQuorum { return Some(false); }
      r := Option.None;
    }

    // ---- new events ----

    method NewFact(id: Digest, subject: Subject, request: SignedRequest, version: nat) returns (r: C.Result)
      modifies this
      ensures (State(), r) == C.NewFact(env, old(State()), id, subject, request, version)
    {
      var meta := C.MetadataOf(subject, id, version);
      if request.signature.signer != env.ourId {
        var mayInvoke := env.gov.mayInvoke(meta, Invoke, request.signature.signer);
        if mayInvoke.None? { return C.Failed(C.GovernanceFailed); }
        if !mayInvoke.value { return C.Failed(C.InvokePermissionDenied); }
      }
      var stage := StageOf(env.gov, meta, Evaluate);
      if stage.None? { return C.Failed(C.GovernanceFailed); }
      var (signers, quorum) := stage.value;
      var preEvaluation := C.FactEvaluation(subject, request, version);
      eventPreEvaluations := eventPreEvaluations[env.crypto.hashEvaluation(preEvaluation) := preEvaluation];
      if quorum > |signers| { return C.Panics; }
      subjectsCompletingEvent := subjectsCompletingEvent[id := C.Phase(Evaluate, signers, quorum, |signers| - quorum + 1)];
      requests := requests[id := request];
      r := C.Done;
    }

    method AskValidation(db: Db, id: Digest, subject: Subject, version: nat, e: Event) returns (r: C.Result)
      modifies this
      ensures (State(), r) == C.AskValidation(env, db, old(State()), id, subject, version, e)
    {
      var h := env.crypto.hashEvent(e);
      eventsToValidate := eventsToValidate[h := e];
      prevalidated := prevalidated[id := e];
      requests := requests - {id};
      var proof := C.ProofOf(env.crypto, db, subject, id, e, version);
      if proof.None? { return C.Failed(C.DatabaseFailed); }
      eventValidationProofs := eventValidationProofs[h := proof.value];
      r := AwaitValidators(id, subject, version, e);
    }

    method AwaitValidators(id: Digest, subject: Subject, version: nat, e: Event) returns (r: C.Result)
      modifies this
      ensures (State(), r) == C.AwaitValidators(env, old(State()), id, subject, version, e)
    {
      var stage := StageOf(env.gov, C.MetadataOf(subject, id, version), Validate);
      if stage.None? { return C.Failed(C.GovernanceFailed); }
      subjectsCompletingEvent := subjectsCompletingEvent[id := C.Phase(Validate, stage.value.0, stage.value.1, 0)];
      requests := requests[id := e.request];
      r := C.Done;
    }

    method NewPlain(db: Db, id: Digest, subject: Subject, request: SignedRequest, version: nat) returns (r: C.Result)
      requires request.content.Transfer? || request.content.Eol?
      modifies this
      ensures (State(), r) == C.NewPlain(env, db, old(State()), id, subject, request, version)
    {
      var signer := request.signature.signer;
      if id in subjectsCompletingEvent { return C.Failed(C.EventAlreadyInProgress); }
      if request.content.Transfer? {
        if signer == env.ourId && request.content.publicKey !in db.keys { return C.Failed(C.OwnTransferKeysDbError); }
      } else if subject.owner != signer {
        return C.Failed(C.CloseNotAuthorized);
      }
      if subject.sn !in db.Get(id).events { return C.Failed(C.DatabaseFailed); }
      var hashPrev := env.crypto.hashEvent(db.Get(id).events[subject.sn].content);
      r := AskValidation(db, id, subject, version, C.PlainEvent(env.crypto, subject, request, version, hashPrev));
    }

    method NewEvent(db: Db, live: Option<nat>, request: SignedRequest) returns (r: C.Result)
      modifies this
      ensures (State(), r) == C.NewEvent(env, db, live, old(State()), request)
    {
      if request.content.Create? { return C.Failed(C.CreationNotModelled); }
      var id := request.content.subjectId;
      var stored := db.Get(id).subject;
      if stored.None? { return C.Failed(C.NoSubject); }
      var subject := stored.value;
      if !subject.active { return C.Failed(C.LifeEnded); }
      if subject.keys.None? { return C.Failed(C.SubjectNotOwned); }
      if live.None? { return C.Failed(C.GovernanceFailed); }
      if request.content.Fact? {
        r := NewFact(id, subject, request, live.value);
      } else {
        r := NewPlain(db, id, subject, request, live.value);
      }
    }

    method PreNewEvent(db: Db, live: Option<nat>, request: SignedRequest) returns (r: C.Result)
      modifies this
      ensures (State(), r) == C.PreNewEvent(env, db, live, old(State()), request)
    {
      if !env.crypto.verifies(request.signature, OfRequest(request.content)) { return C.Failed(C.NotVerified); }
      if env.crypto.hashRequest(request) in db.requests { return C.Failed(C.RequestAlreadyKnown); }
      if !request.content.Create? && request.content.subjectId in subjectsCompletingEvent {
        return C.Failed(C.EventAlreadyInProgress);
      }
      r := NewEvent(db, live, request);
    }

    // ---- evaluations ----

    method Prevalidate(id: Digest, e: Event, proof: Proof)
      modifies this
      ensures State() == C.Prevalidate(env.crypto, old(State()), id, e, proof)
    {
      var h := env.crypto.hashEvent(e);
      eventValidationProofs := eventValidationProofs[h := proof];
      eventsToValidate := eventsToValidate[h := e];
      prevalidated := prevalidated[id := e];
      requests := requests - {id};
    }

    method Advance(id: Digest, subject: Subject, version: nat, h: Digest, stage: Stage) returns (r: C.Result)
      modifies this
      ensures (State(), r) == C.Advance(env, old(State()), id, subject, version, h, stage)
    {
      eventEvaluations := eventEvaluations - {h};
      eventPreEvaluations := eventPreEvaluations - {h};
      var asked := StageOf(env.gov, C.MetadataOf(subject, id, version), stage);
      if asked.None? { return C.Failed(C.GovernanceFailed); }
      var (signers, quorum) := asked.value;
      if quorum > |signers| { return C.Panics; }
      subjectsCompletingEvent := subjectsCompletingEvent[id := C.Phase(stage, signers, quorum, |signers| - quorum + 1)];
      r := C.Done;
    }

    method Evaluated(db: Db, id: Digest, subject: Subject, version: nat, req: EvaluationRequest, response: EvaluationResponse,
                     evaluators: set<Signature>) returns (r: C.Result)
      modifies this
      ensures (State(), r) == C.Evaluated(env, db, old(State()), id, subject, version, req, response, evaluators)
    {
      if subject.sn !in db.Get(id).events { return C.Failed(C.DatabaseFailed); }
      var hashPrev := env.crypto.hashEvent(db.Get(id).events[subject.sn].content);
      if response.apprRequired && !response.evalSuccess { return C.Failed(C.ApprovalRequiredWhenEvalFailed); }
      if subject.keys.None? { return C.Panics; }
      if response.apprRequired {
        var areq := C.Proposal(req, response, subject, version, hashPrev);
        var ah := env.crypto.hashApproval(areq);
        approvalEvalSignatures := approvalEvalSignatures[ah := evaluators];
        approvalRequests := approvalRequests[ah := areq];
        r := Advance(id, subject, version, response.evalReqHash, Approve);
      } else {
        var e := C.EvaluatedEvent(id, req, response, version, hashPrev, evaluators);
        var proof := C.ProofOf(env.crypto, db, subject, id, e, version);
        if proof.None? { return C.Failed(C.DatabaseFailed); }
        Prevalidate(id, e, proof.value);
        r := Advance(id, subject, version, response.evalReqHash, Validate);
      }
    }

    method EvaluatorSignatures(db: Db, live: Option<nat>, m: C.SignedResponse) returns (r: C.Result)
      modifies this
      ensures (State(), r) == C.EvaluatorSignatures(env, db, live, old(State()), m)
    {
      var fault := C.EvaluationFault(env, db, live, State(), m);
      if fault.Some? { return C.Failed(fault.value); }
      var req := eventPreEvaluations[m.content.evalReqHash];
      var id := req.request.content.subjectId;
      r := RecordEvaluation(db, id, db.Get(id).subject.value, live.value, req, subjectsCompletingEvent[id], m);
    }

    method RecordEvaluation(db: Db, id: Digest, subject: Subject, version: nat, req: EvaluationRequest, ph: C.Phase,
                            m: C.SignedResponse) returns (r: C.Result)
      modifies this
      ensures (State(), r) == C.RecordedEvaluation(env, db, old(State()), id, subject, version, req, ph, m)
    {
      var h := m.content.evalReqHash;
      var hash := C.ResponseHash(env.crypto, m.content);
      var es := C.Replaced(C.SetAt(eventEvaluations, h), C.Counted(m.signature, m.content.evalSuccess, hash));
      eventEvaluations := eventEvaluations[h := es];
      var reached := QuorumReached(ph, es, hash);
      if reached.None? {
        subjectsCompletingEvent := subjectsCompletingEvent[id := ph.(signers := ph.signers - {m.signature.signer})];
        return C.Done;
      }
      r := Evaluated(db, id, subject, version, req, m.content, C.SignaturesOf(C.Matching(es, hash, reached.value)));
    }

    // ---- approvals ----

    method Decided(db: Db, live: Option<nat>, id: Digest, subject: Subject, ah: Digest, approved: bool, approvers: set<Signature>)
      returns (r: C.Result)
      requires ah in approvalRequests
      modifies this
      ensures (State(), r) == C.Decided(env, db, live, old(State()), id, subject, ah, approved, approvers)
    {
      if live.None? { return C.Failed(C.GovernanceFailed); }
      if ah !in approvalEvalSignatures || subject.keys.None? { return C.Panics; }
      var e := C.DecidedEvent(id, approvalRequests[ah], live.value, approved, approvalEvalSignatures[ah], approvers);
      var proof := C.ProofOf(env.crypto, db, subject, id, e, live.value);
      if proof.None? { return C.Failed(C.DatabaseFailed); }
      approvalEvalSignatures := approvalEvalSignatures - {ah};
      approvalRequests := approvalRequests - {ah};
      eventApprovations := eventApprovations - {ah};
      var stage := StageOf(env.gov, C.MetadataOf(subject, id, live.value), Validate);
      if stage.None? { return C.Failed(C.GovernanceFailed); }
      Prevalidate(id, e, proof.value);
      subjectsCompletingEvent := subjectsCompletingEvent[id := C.Phase(Validate, stage.value.0, stage.value.1, 0)];
      r := C.Done;
    }

    method ApproverSignatures(db: Db, live: Option<nat>, m: C.SignedApproval) returns (r: C.Result)
      modifies this
      ensures (State(), r) == C.ApproverSignatures(env, db, live, old(State()), m)
    {
      var fault := C.ApprovalFault(env, db, State(), m);
      if fault.Some? { return C.Failed(fault.value); }
      var ah, yes := m.content.apprReqHash, m.content.approved;
      var id := approvalRequests[ah].request.content.subjectId;
      var ph := subjectsCompletingEvent[id];
      var vs := C.ReplacedVote(C.SetAt(eventApprovations, ah), m);
      eventApprovations := eventApprovations[ah := vs];
      var quorumNow := if yes then ph.quorum else ph.negQuorum;
      if |C.VotesFor(vs, yes)| < quorumNow {
        subjectsCompletingEvent := subjectsCompletingEvent[id := ph.(signers := ph.signers - {m.signature.signer})];
        return C.Done;
      }
      r := Decided(db, live, id, db.Get(id).subject.value, ah, yes, C.VoteSignatures(C.VotesFor(vs, yes)));
    }

    // ---- validations ----

    method ValidationSignatures(db: Db, live: Option<nat>, h: Digest, sig: Signature, version: nat) returns (r: C.Result)
      modifies this
      ensures (State(), r) == C.ValidationSignatures(env, db, live, old(State()), h, sig, version)
    {
      if h !in eventsToValidate { return C.Failed(C.UnknownHash); }
      if h !in eventValidationProofs { return C.Panics; }
      var e, proof := eventsToValidate[h], eventValidationProofs[h];
      var id := SubjectIdOf(env.crypto, e);
      var own := C.OwnVersion(db, live, id, e);
      if own.None? { return C.Failed(C.NoSubject); }
      if own.value != version { return C.Ignored; }
      if id !in subjectsCompletingEvent { return C.Failed(C.WrongEventPhase); }
      var ph := subjectsCompletingEvent[id];
      if !ph.stage.Validate? { return C.Failed(C.WrongEventPhase); }
      if sig.signer !in ph.signers { return C.Failed(C.NotASigner); }
      if !env.crypto.verifies(sig, OfProof(proof)) { return C.Failed(C.NotVerified); }
      var ss := C.ReplacedSignature(C.SetAt(eventValidations, h), sig);
      if |ss| < ph.quorum {
        eventValidations := eventValidations[h := ss];
        subjectsCompletingEvent := subjectsCompletingEvent[id := ph.(signers := ph.signers - {sig.signer})];
        return C.Done;
      }
      DropEvent(id, h);
      r := C.ToLedger(e, ss, proof);
    }

    method DropEvent(id: Digest, h: Digest)
      modifies this
      ensures State() == C.DropEvent(old(State()), id, h)
    {
      prevalidated, requests := prevalidated - {id}, requests - {id};
      eventsToValidate, eventValidationProofs := eventsToValidate - {h}, eventValidationProofs - {h};
      eventValidations, subjectsCompletingEvent := eventValidations - {h}, subjectsCompletingEvent - {id};
    }

    // ---- a new governance version ----

    method NewGovernanceVersion(db: Db, live: Option<nat>, id: Digest, version: nat) returns (r: C.Result)
      modifies this
      ensures (State(), r) == C.NewGovernanceVersion(env, db, live, old(State()), id, version)
    {
      if id in requests {
        if !requests[id].content.Fact? { return C.Failed(C.GenesisInGovUpdate); }
        r := NewEvent(db, live, requests[id]);
        if r.Failed? || r.Panics? { return; }
      }
      r := Revalidate(db, id, version);
    }

    method Revalidate(db: Db, id: Digest, version: nat) returns (r: C.Result)
      modifies this
      ensures (State(), r) == C.Revalidate(env, db, old(State()), id, version)
    {
      if id !in prevalidated { return C.Done; }
      var stored := db.Get(id).subject;
      if stored.None? { return C.Failed(C.DatabaseFailed); }
      var e := prevalidated[id];
      var proof := C.ProofOf(env.crypto, db, stored.value, id, e, version);
      if proof.None? { return C.Failed(C.DatabaseFailed); }
      var stage := StageOf(env.gov, C.MetadataOf(stored.value, id, version), Validate);
      if stage.None? { return C.Failed(C.GovernanceFailed); }
      eventValidationProofs := eventValidationProofs[env.crypto.hashEvent(e) := proof.value];
      subjectsCompletingEvent := subjectsCompletingEvent[id := C.Phase(Validate, stage.value.0, stage.value.1, 0)];
      r := C.Done;
    }
  }
}
