/** The event completer's handlers as functions: how an owner takes one request through its phases. */
module Completer {
  import opened Protocol
  import opened Subjects
  import opened Quorum
  import opened Verify
  import opened Store
  import opened LedgerSteps

  datatype SignedResponse = SignedResponse(content: EvaluationResponse, signature: Signature)
  datatype SignedApproval = SignedApproval(content: ApprovalResponse, signature: Signature)

  /** What a subject waits for: who may still sign, and how many must for a yes and for a no. */
  datatype Phase = Phase(stage: Stage, signers: set<Key>, quorum: nat, negQuorum: nat)

  /** An evaluation as it is remembered: not the response, only whether it succeeded and its hash, which
      leaves out the patch. */
  datatype Counted = Counted(signature: Signature, accepted: bool, hash: Digest)

  /** completing, requests and prevalidated are by subject; the rest by the hash of what is being signed. */
  datatype Flow = Flow(
    completing: map<Digest, Phase>,
    requests: map<Digest, SignedRequest>,
    prevalidated: map<Digest, Event>,
    preEvaluations: map<Digest, EvaluationRequest>,
    evaluations: map<Digest, set<Counted>>,
    approvalEvals: map<Digest, set<Signature>>,
    approvalRequests: map<Digest, ApprovalRequest>,
    approvals: map<Digest, set<SignedApproval>>,
    toValidate: map<Digest, Event>,
    proofs: map<Digest, Proof>,
    validations: map<Digest, set<Signature>>)

  const IDLE := Flow(map[], map[], map[], map[], map[], map[], map[], map[], map[], map[], map[])

  datatype EventError =
    | RequestAlreadyKnown | EventAlreadyInProgress | NoSubject | LifeEnded | SubjectNotOwned | GovernanceFailed
    | InvokePermissionDenied | CloseNotAuthorized | OwnTransferKeysDbError | CreationNotModelled
    | UnknownHash | NotAFact | WrongEventPhase | NotASigner | NotVerified | ErrorApplyingPatch
    | StateHashMismatch | ApprovalRequiredWhenEvalFailed | DatabaseFailed | GenesisInGovUpdate

  datatype Result =
    | Done
    | Ignored
    | Failed(error: EventError)
    | Panics
    | ToLedger(event: Event, signatures: set<Signature>, proof: Proof)

  function MetadataOf(s: Subject, id: Digest, version: nat): Metadata {
    Metadata(s.namespace, id, s.governanceId, version, s.schemaId)
  }

  /** A map's set at this key, empty when there is none yet. */
  function SetAt<T>(m: map<Digest, set<T>>, h: Digest): set<T> {
    if h in m then m[h] else {}
  }

  // ---- building events and proofs ----

  /** `create_validation_event`: needs the keys, and the certificate of the subject's last event. */
  function ProofOf(c: Crypto, db: Db, s: Subject, id: Digest, e: Event, version: nat): Option<Proof> {
    if s.keys.None? || s.sn !in db.Get(id).certs then Option.None
    else Some(Proof(s.subjectId, s.schemaId, s.namespace, s.name, ProofKey(s, e), s.governanceId,
      s.genesisGovVersion, e.sn, e.hashPrev, c.hashEvent(e), version))
  }

  /** The event and its proof are remembered; the request is not, any more. */
  function Prevalidate(c: Crypto, st: Flow, id: Digest, e: Event, proof: Proof): Flow {
    st.(proofs := st.proofs[c.hashEvent(e) := proof],
        toValidate := st.toValidate[c.hashEvent(e) := e],
        prevalidated := st.prevalidated[id := e],
        requests := st.requests - {id})
  }

  // ---- a new request ----

  function FactEvaluation(s: Subject, request: SignedRequest, version: nat): EvaluationRequest {
    EvaluationRequest(request, s.GetContext(request.signature.signer), s.sn + 1, version)
  }

  function NewFact(env: Env, st: Flow, id: Digest, s: Subject, request: SignedRequest, version: nat): (Flow, Result) {
    var meta := MetadataOf(s, id, version);
    var mayInvoke := if request.signature.signer == env.ourId then Some(true)
                     else env.gov.mayInvoke(meta, Invoke, request.signature.signer);
    if mayInvoke.None? then (st, Failed(GovernanceFailed))
    else if !mayInvoke.value then (st, Failed(InvokePermissionDenied))
    else
      match StageOf(env.gov, meta, Evaluate)
      case None => (st, Failed(GovernanceFailed))
      case Some((signers, q)) =>
        var req := FactEvaluation(s, request, version);
        var st' := st.(preEvaluations := st.preEvaluations[env.crypto.hashEvaluation(req) := req]);
        if q > |signers| then (st', Panics)
        else
          (st'.(completing := st.completing[id := Phase(Evaluate, signers, q, NegativeQuorum(|signers|, q))],
                requests := st.requests[id := request]), Done)
  }

  /** Neither evaluated nor approved: an empty patch on the present state. */
  function PlainEvent(c: Crypto, s: Subject, request: SignedRequest, version: nat, hashPrev: Digest): Event {
    Event(s.subjectId, request, s.sn + 1, version, EMPTY_PATCH, c.hashState(s.properties), true, false, true,
      hashPrev, {}, {})
  }

  function NewPlain(env: Env, db: Db, st: Flow, id: Digest, s: Subject, request: SignedRequest, version: nat): (Flow, Result)
    requires request.content.Transfer? || request.content.Eol?
  {
    var signer := request.signature.signer;
    if id in st.completing then (st, Failed(EventAlreadyInProgress))
    else if request.content.Transfer? && signer == env.ourId && request.content.publicKey !in db.keys then
      (st, Failed(OwnTransferKeysDbError))
    else if request.content.Eol? && s.owner != signer then (st, Failed(CloseNotAuthorized))
    else if s.sn !in db.Get(id).events then (st, Failed(DatabaseFailed))
    else
      AskValidation(env, db, st, id, s, version,
        PlainEvent(env.crypto, s, request, version, env.crypto.hashEvent(db.Get(id).events[s.sn].content)))
  }

  function Remember(c: Crypto, st: Flow, id: Digest, e: Event): Flow {
    st.(toValidate := st.toValidate[c.hashEvent(e) := e], prevalidated := st.prevalidated[id := e],
        requests := st.requests - {id})
  }

  /** The event is remembered first, then its proof, then the phase with the request. */
  function AskValidation(env: Env, db: Db, st: Flow, id: Digest, s: Subject, version: nat, e: Event): (Flow, Result) {
    var built := Remember(env.crypto, st, id, e);
    match ProofOf(env.crypto, db, s, id, e, version)
    case None => (built, Failed(DatabaseFailed))
    case Some(proof) => AwaitValidators(env, built.(proofs := st.proofs[env.crypto.hashEvent(e) := proof]), id, s, version, e)
  }

  function AwaitValidators(env: Env, st: Flow, id: Digest, s: Subject, version: nat, e: Event): (Flow, Result) {
    match StageOf(env.gov, MetadataOf(s, id, version), Validate)
    case None => (st, Failed(GovernanceFailed))
    case Some((signers, q)) =>
      (st.(completing := st.completing[id := Phase(Validate, signers, q, 0)], requests := st.requests[id := e.request]), Done)
  }

  /** `new_event` for a subject this node owns; live is governance's present version. */
  function NewEvent(env: Env, db: Db, live: Option<nat>, st: Flow, request: SignedRequest): (Flow, Result) {
    if request.content.Create? then (st, Failed(CreationNotModelled))
    else
      var id := request.content.subjectId;
      match db.Get(id).subject
      case None => (st, Failed(NoSubject))
      case Some(s) =>
        if !s.active then (st, Failed(LifeEnded))
        else if s.keys.None? then (st, Failed(SubjectNotOwned))
        else if live.None? then (st, Failed(GovernanceFailed))
        else if request.content.Fact? then NewFact(env, st, id, s, request, live.value)
        else NewPlain(env, db, st, id, s, request, live.value)
  }

  /** `pre_new_event`: one event at a time for a subject. */
  function PreNewEvent(env: Env, db: Db, live: Option<nat>, st: Flow, request: SignedRequest): (Flow, Result) {
    if !env.crypto.verifies(request.signature, OfRequest(request.content)) then (st, Failed(NotVerified))
    else if env.crypto.hashRequest(request) in db.requests then (st, Failed(RequestAlreadyKnown))
    else if !request.content.Create? && request.content.subjectId in st.completing then
      (st, Failed(EventAlreadyInProgress))
    else NewEvent(env, db, live, st, request)
  }

  // ---- evaluations ----

  /** `hash_match_after_patch`; None when the patch does not apply. */
  function HashMatches(c: Crypto, r: EvaluationResponse, properties: Value): Option<bool> {
    if !r.evalSuccess then Some(c.hashState(properties) == r.stateHash)
    else
      match c.patch(properties, r.patch)
      case None => Option.None
      case Some(v) => Some(c.hashState(v) == r.stateHash)
  }

  function ResponseHash(c: Crypto, r: EvaluationResponse): Digest {
    c.hashResponse(r.evalReqHash, r.stateHash, r.evalSuccess, r.apprRequired)
  }

  predicate SameEntry(a: Counted, b: Counted) {
    a.signature.signer == b.signature.signer && a.accepted == b.accepted && a.hash == b.hash
  }

  /** `insert_or_replace_and_check` on a set whose elements are equal by signer, acceptance and hash. */
  function Replaced(es: set<Counted>, e: Counted): set<Counted> {
    (set x | x in es && !SameEntry(x, e)) + {e}
  }

  /** The entries `count_signatures_with_event_content_hash` counts for one acceptance. */
  function Matching(es: set<Counted>, hash: Digest, accepted: bool): set<Counted> {
    set e | e in es && e.hash == hash && e.accepted == accepted
  }

  function SignaturesOf(es: set<Counted>): set<Signature> {
    set e | e in es :: e.signature
  }

  /** Some(true) at the quorum, Some(false) at the negative one. */
  function Reached(ph: Phase, es: set<Counted>, hash: Digest): Option<bool> {
    if |Matching(es, hash, true)| >= ph.quorum then Some(true)
    else if |Matching(es, hash, false)| >= ph.negQuorum then Some(false)
    else Option.None
  }

  /** Why an evaluation is not even recorded. */
  function EvaluationFault(env: Env, db: Db, live: Option<nat>, st: Flow, m: SignedResponse): Option<EventError> {
    var r := m.content;
    if r.evalReqHash !in st.preEvaluations then Some(UnknownHash)
    else
      var req := st.preEvaluations[r.evalReqHash];
      if !req.request.content.Fact? then Some(NotAFact)
      else
        var id := req.request.content.subjectId;
        if id !in st.completing || !st.completing[id].stage.Evaluate? then Some(WrongEventPhase)
        else if m.signature.signer !in st.completing[id].signers then Some(NotASigner)
        else if !env.crypto.verifies(m.signature, OfEvaluation(r)) then Some(NotVerified)
        else
          match db.Get(id).subject
          case None => Some(NoSubject)
          case Some(s) =>
            if live.None? then Some(GovernanceFailed)
            else
              match HashMatches(env.crypto, r, s.properties)
              case None => Some(ErrorApplyingPatch)
              case Some(matches) => if matches then Option.None else Some(StateHashMismatch)
  }

  function Proposal(req: EvaluationRequest, r: EvaluationResponse, s: Subject, version: nat, hashPrev: Digest): ApprovalRequest {
    ApprovalRequest(req.request, req.sn, version, r.patch, r.stateHash, hashPrev, s.governanceId)
  }

  function EvaluatedEvent(id: Digest, req: EvaluationRequest, r: EvaluationResponse, version: nat, hashPrev: Digest,
                          evaluators: set<Signature>): Event {
    Event(id, req.request, req.sn, version, r.patch, r.stateHash, r.evalSuccess, r.apprRequired, true, hashPrev,
      evaluators, {})
  }

  function Propose(c: Crypto, st: Flow, areq: ApprovalRequest, evaluators: set<Signature>): Flow {
    st.(approvalEvals := st.approvalEvals[c.hashApproval(areq) := evaluators],
        approvalRequests := st.approvalRequests[c.hashApproval(areq) := areq])
  }

  /** The evaluation h is over; the subject waits for the next stage. */
  function Advance(env: Env, st: Flow, id: Digest, s: Subject, version: nat, h: Digest, stage: Stage): (Flow, Result) {
    var st' := st.(evaluations := st.evaluations - {h}, preEvaluations := st.preEvaluations - {h});
    match StageOf(env.gov, MetadataOf(s, id, version), stage)
    case None => (st', Failed(GovernanceFailed))
    case Some((signers, q)) =>
      if q > |signers| then (st', Panics)
      else
        (st'.(completing := st.completing[id := Phase(stage, signers, q, NegativeQuorum(|signers|, q))]), Done)
  }

  /** The quorum is reached: on to approval or to validation, if nothing in the way fails. */
  function Evaluated(env: Env, db: Db, st: Flow, id: Digest, s: Subject, version: nat, req: EvaluationRequest,
                     r: EvaluationResponse, evaluators: set<Signature>): (Flow, Result) {
    if s.sn !in db.Get(id).events then (st, Failed(DatabaseFailed))
    else
      var hashPrev := env.crypto.hashEvent(db.Get(id).events[s.sn].content);
      if r.apprRequired && !r.evalSuccess then (st, Failed(ApprovalRequiredWhenEvalFailed))
      else if s.keys.None? then (st, Panics)
      else if r.apprRequired then
        Advance(env, Propose(env.crypto, st, Proposal(req, r, s, version, hashPrev), evaluators), id, s, version,
          r.evalReqHash, Approve)
      else
        var e := EvaluatedEvent(id, req, r, version, hashPrev, evaluators);
        match ProofOf(env.crypto, db, s, id, e, version)
        case None => (st, Failed(DatabaseFailed))
        case Some(proof) =>
          Advance(env, Prevalidate(env.crypto, st, id, e, proof), id, s, version, r.evalReqHash, Validate)
  }

  /** `evaluator_signatures`. */
  function EvaluatorSignatures(env: Env, db: Db, live: Option<nat>, st: Flow, m: SignedResponse): (Flow, Result) {
    var fault := EvaluationFault(env, db, live, st, m);
    if fault.Some? then (st, Failed(fault.value))
    else
      var req := st.preEvaluations[m.content.evalReqHash];
      var id := req.request.content.subjectId;
      RecordedEvaluation(env, db, st, id, db.Get(id).subject.value, live.value, req, st.completing[id], m)
  }

  /** The evaluation is recorded; it may complete a quorum. */
  function RecordedEvaluation(env: Env, db: Db, st: Flow, id: Digest, s: Subject, version: nat, req: EvaluationRequest, ph: Phase,
                    m: SignedResponse): (Flow, Result) {
    var r := m.content;
    var hash := ResponseHash(env.crypto, r);
    var es := Replaced(SetAt(st.evaluations, r.evalReqHash), Counted(m.signature, r.evalSuccess, hash));
    var st' := st.(evaluations := st.evaluations[r.evalReqHash := es]);
    match Reached(ph, es, hash)
    case None =>
      (st'.(completing := st.completing[id := ph.(signers := ph.signers - {m.signature.signer})]), Done)
    case Some(accepted) =>
      Evaluated(env, db, st', id, s, version, req, r, SignaturesOf(Matching(es, hash, accepted)))
  }

  // ---- approvals ----

  function ReplacedVote(vs: set<SignedApproval>, v: SignedApproval): set<SignedApproval> {
    (set x | x in vs && x.signature.signer != v.signature.signer) + {v}
  }

  function VotesFor(vs: set<SignedApproval>, approved: bool): set<SignedApproval> {
    set v | v in vs && v.content.approved == approved
  }

  function VoteSignatures(vs: set<SignedApproval>): set<Signature> {
    set v | v in vs :: v.signature
  }

  function ApprovalFault(env: Env, db: Db, st: Flow, m: SignedApproval): Option<EventError> {
    var ah := m.content.apprReqHash;
    if ah !in st.approvalRequests then Some(UnknownHash)
    else if !st.approvalRequests[ah].request.content.Fact? then Some(NotAFact)
    else
      var id := st.approvalRequests[ah].request.content.subjectId;
      if id !in st.completing || !st.completing[id].stage.Approve? then Some(WrongEventPhase)
      else if m.signature.signer !in st.completing[id].signers then Some(NotASigner)
      else if !env.crypto.verifies(m.signature, OfApproval(m.content)) then Some(NotVerified)
      else if db.Get(id).subject.None? then Some(NoSubject)
      else Option.None
  }

  function DecidedEvent(id: Digest, areq: ApprovalRequest, version: nat, approved: bool, evaluators: set<Signature>,
                        approvers: set<Signature>): Event {
    Event(id, areq.request, areq.sn, version, areq.patch, areq.stateHash, true, true, approved, areq.hashPrev,
      evaluators, approvers)
  }

  function DropProposal(st: Flow, ah: Digest): Flow {
    st.(approvalEvals := st.approvalEvals - {ah}, approvalRequests := st.approvalRequests - {ah},
        approvals := st.approvals - {ah})
  }

  /** Enough approvers agree: on to validation, if nothing in the way fails. */
  function Decided(env: Env, db: Db, live: Option<nat>, st: Flow, id: Digest, s: Subject, ah: Digest, approved: bool,
                   approvers: set<Signature>): (Flow, Result)
    requires ah in st.approvalRequests
  {
    if live.None? then (st, Failed(GovernanceFailed))
    else if ah !in st.approvalEvals || s.keys.None? then (st, Panics)
    else
      var e := DecidedEvent(id, st.approvalRequests[ah], live.value, approved, st.approvalEvals[ah], approvers);
      match ProofOf(env.crypto, db, s, id, e, live.value)
      case None => (st, Failed(DatabaseFailed))
      case Some(proof) =>
        var cleaned := DropProposal(st, ah);
        match StageOf(env.gov, MetadataOf(s, id, live.value), Validate)
        case None => (cleaned, Failed(GovernanceFailed))
        case Some((signers, q)) =>
          (Prevalidate(env.crypto, cleaned, id, e, proof).(completing := st.completing[id := Phase(Validate, signers, q, 0)]),
           Done)
  }

  /** `approver_signatures`. */
  function ApproverSignatures(env: Env, db: Db, live: Option<nat>, st: Flow, m: SignedApproval): (Flow, Result) {
    var fault := ApprovalFault(env, db, st, m);
    if fault.Some? then (st, Failed(fault.value))
    else
      var ah, yes := m.content.apprReqHash, m.content.approved;
      var id := st.approvalRequests[ah].request.content.subjectId;
      var ph := st.completing[id];
      var vs := ReplacedVote(SetAt(st.approvals, ah), m);
      var st' := st.(approvals := st.approvals[ah := vs]);
      if |VotesFor(vs, yes)| < (if yes then ph.quorum else ph.negQuorum) then
        (st'.(completing := st.completing[id := ph.(signers := ph.signers - {m.signature.signer})]), Done)
      else
        Decided(env, db, live, st', id, db.Get(id).subject.value, ah, yes, VoteSignatures(VotesFor(vs, yes)))
  }

  // ---- validations ----

  function ReplacedSignature(ss: set<Signature>, s: Signature): set<Signature> {
    (set x | x in ss && x.signer != s.signer) + {s}
  }

  /** The version validations of e must be for; None when there is no telling. */
  function OwnVersion(db: Db, live: Option<nat>, id: Digest, e: Event): Option<nat> {
    match db.Get(id).subject
    case None =>
      if e.sn == 0 && e.request.content.Create? then
        if e.request.content.start.schemaId == "governance" then Some(0) else live
      else Option.None
    case Some(s) =>
      if e.sn == 0 then Option.None
      else if s.schemaId == "governance" then Some(s.sn) else live
  }

  /** `validation_signatures`. */
  function ValidationSignatures(env: Env, db: Db, live: Option<nat>, st: Flow, h: Digest, sig: Signature, version: nat): (Flow, Result) {
    if h !in st.toValidate then (st, Failed(UnknownHash))
    else if h !in st.proofs then (st, Panics)
    else
      var e, proof := st.toValidate[h], st.proofs[h];
      var id := SubjectIdOf(env.crypto, e);
      match OwnVersion(db, live, id, e)
      case None => (st, Failed(NoSubject))
      case Some(v) =>
        if v != version then (st, Ignored)
        else if id !in st.completing || !st.completing[id].stage.Validate? then (st, Failed(WrongEventPhase))
        else if sig.signer !in st.completing[id].signers then (st, Failed(NotASigner))
        else if !env.crypto.verifies(sig, OfProof(proof)) then (st, Failed(NotVerified))
        else
          var ph, ss := st.completing[id], ReplacedSignature(SetAt(st.validations, h), sig);
          if |ss| < ph.quorum then
            (st.(validations := st.validations[h := ss],
                 completing := st.completing[id := ph.(signers := ph.signers - {sig.signer})]), Done)
          else (DropEvent(st, id, h), ToLedger(e, ss, proof))
  }

  function DropEvent(st: Flow, id: Digest, h: Digest): Flow {
    st.(prevalidated := st.prevalidated - {id}, requests := st.requests - {id}, toValidate := st.toValidate - {h},
        proofs := st.proofs - {h}, validations := st.validations - {h}, completing := st.completing - {id})
  }

  // ---- a new governance version ----

  /** What `new_governance_version` does to an event of this subject already being validated. */
  function Revalidate(env: Env, db: Db, st: Flow, id: Digest, version: nat): (Flow, Result) {
    if id !in st.prevalidated then (st, Done)
    else
      match db.Get(id).subject
      case None => (st, Failed(DatabaseFailed))
      case Some(s) =>
        var e := st.prevalidated[id];
        match ProofOf(env.crypto, db, s, id, e, version)
        case None => (st, Failed(DatabaseFailed))
        case Some(proof) =>
          match StageOf(env.gov, MetadataOf(s, id, version), Validate)
          case None => (st, Failed(GovernanceFailed))
          case Some((signers, q)) =>
            (st.(proofs := st.proofs[env.crypto.hashEvent(e) := proof],
                 completing := st.completing[id := Phase(Validate, signers, q, 0)]), Done)
  }

  /** What it does to one affected subject: the request starts again, and the event is validated again. That the subject is
      among the affected ones is taken for granted: for an event after genesis the source files its governance under
      itself, where the subject is meant. */
  function NewGovernanceVersion(env: Env, db: Db, live: Option<nat>, st: Flow, id: Digest, version: nat): (Flow, Result) {
    if id in st.requests then
      if !st.requests[id].content.Fact? then (st, Failed(GenesisInGovUpdate))
      else
        var (st', r) := NewEvent(env, db, live, st, st.requests[id]);
        if r.Failed? || r.Panics? then (st', r) else Revalidate(env, db, st', id, version)
    else Revalidate(env, db, st, id, version)
  }
}
