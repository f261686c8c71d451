/** What every step of the completer keeps: everything it hands on is accepted. */
module CompleterRuns {
  import opened Protocol
  import opened Subjects
  import opened Quorum
  import opened Verify
  import opened Store
  import opened LedgerSteps
  import opened LedgerInvariant
  import LedgerPreserved
  import opened Completer
  import opened CompleterEvents

  /** This node and what it stores. */
  datatype World = World(env: Env, db: Db)

  /** `get_governance_version` of a stored subject: the sn of its governance, itself if it is one. */
  function LiveVersion(db: Db, id: Digest): Option<nat> {
    match db.Get(id).subject
    case None => Option.None
    case Some(s) =>
      match db.Get(GovernanceOf(s, id)).subject
      case None => Option.None
      case Some(g) => if g.governanceId != NoDigest then Option.None else Some(g.sn)
  }

  function GovernanceOf(s: Subject, id: Digest): Digest {
    if s.governanceId == NoDigest then id else s.governanceId
  }

  function Version(w: World, id: Digest): nat {
    match LiveVersion(w.db, id)
    case None => 0
    case Some(v) => v
  }

  datatype Message =
    | Request(request: SignedRequest)
    | Evaluation(response: SignedResponse)
    | Approval(approval: SignedApproval)
    | Validation(eventHash: Digest, signature: Signature, version: nat)

  /** The subject a message is about, as the flow knows it. */
  function SubjectOfMessage(w: World, st: Flow, m: Message): Option<Digest> {
    match m
    case Request(request) => if request.content.Create? then Option.None else Some(request.content.subjectId)
    case Evaluation(response) =>
      var h := response.content.evalReqHash;
      if h !in st.preEvaluations || !st.preEvaluations[h].request.content.Fact? then Option.None
      else Some(st.preEvaluations[h].request.content.subjectId)
    case Approval(approval) =>
      var h := approval.content.apprReqHash;
      if h !in st.approvalRequests || !st.approvalRequests[h].request.content.Fact? then Option.None
      else Some(st.approvalRequests[h].request.content.subjectId)
    case Validation(h, _, _) => if h !in st.toValidate then Option.None else Some(SubjectIdOf(w.env.crypto, st.toValidate[h]))
  }

  /** Governance's present version for the subject of a message, asked of what is stored. */
  function LiveFor(w: World, st: Flow, m: Message): Option<nat> {
    match SubjectOfMessage(w, st, m)
    case None => Option.None
    case Some(id) => LiveVersion(w.db, id)
  }

  function Step(w: World, st: Flow, m: Message): (Flow, Result) {
    var live := LiveFor(w, st, m);
    match m
    case Request(request) => PreNewEvent(w.env, w.db, live, st, request)
    case Evaluation(response) => EvaluatorSignatures(w.env, w.db, live, st, response)
    case Approval(approval) => ApproverSignatures(w.env, w.db, live, st, approval)
    case Validation(h, sig, version) => ValidationSignatures(w.env, w.db, live, st, h, sig, version)
  }

  // ---- hypotheses ----

  /** Every stage has a quorum that can be reached and refused, as `Quorum::MAJORITY` gives. */
  ghost predicate ReachableQuorums(env: Env) {
    forall meta, stage :: StageOf(env.gov, meta, stage).Some? ==>
      1 <= StageOf(env.gov, meta, stage).value.1 <= |StageOf(env.gov, meta, stage).value.0|
  }

  /** Governance that answers for one stage answers for every stage. */
  ghost predicate AnswersAllStages(env: Env) {
    forall meta, stage, other :: StageOf(env.gov, meta, stage).Some? ==> StageOf(env.gov, meta, other).Some?
  }

  /** Evaluators that report the same result report the same patch. */
  ghost predicate PatchesAgree(c: Crypto) {
    forall s, r: EvaluationResponse, t, x: EvaluationResponse ::
      c.verifies(s, OfEvaluation(r)) && c.verifies(t, OfEvaluation(x)) && ResponseHash(c, r) == ResponseHash(c, x) ==>
      r.patch == x.patch
  }

  /** What the ledger's invariant says of stored subjects. */
  ghost predicate SubjectsOk(db: Db) {
    forall id :: db.Get(id).subject.Some? ==> db.Get(id).subject.value.subjectId == id
  }

  ghost predicate EnvOk(env: Env) {
    && CollisionFree(env.crypto) && SignaturesBind(env.crypto) && PatchesAgree(env.crypto)
    && ReachableQuorums(env) && AnswersAllStages(env)
  }

  ghost predicate WorldOk(w: World) {
    EnvOk(w.env) && SubjectsOk(w.db)
  }

  // ---- the invariant ----

  function Of(w: World, id: Digest): Option<Subject> {
    w.db.Get(id).subject
  }

  /** Signers and quorum of a stage for a subject of this node. */
  function StageAt(w: World, id: Digest, stage: Stage): Option<(set<Key>, nat)> {
    match Of(w, id)
    case None => Option.None
    case Some(s) => StageOf(w.env.gov, MetadataOf(s, id, Version(w, id)), stage)
  }

  /** This node's own key, or one that governance lets invoke. */
  predicate MayAsk(env: Env, meta: Metadata, signer: Key) {
    signer == env.ourId || env.gov.mayInvoke(meta, Invoke, signer) == Some(true)
  }

  /** What a request was found to be when work on it began: signed, for an active subject this node has the keys of, and by
      one who may make it: for the end of the subject's life that is its owner. */
  ghost predicate Requested(w: World, request: SignedRequest) {
    && !request.content.Create? && w.env.crypto.verifies(request.signature, OfRequest(request.content))
    && var id := request.content.subjectId;
    && Of(w, id).Some? && Of(w, id).value.active && Of(w, id).value.keys.Some?
    && (request.content.Fact? ==> MayAsk(w.env, MetadataOf(Of(w, id).value, id, Version(w, id)), request.signature.signer))
    && (request.content.Eol? ==> Of(w, id).value.owner == request.signature.signer)
  }

  ghost predicate RequestOk(w: World, h: Digest, req: EvaluationRequest) {
    && w.env.crypto.hashEvaluation(req) == h
    && req.request.content.Fact? && Requested(w, req.request)
    && req == FactEvaluation(Of(w, req.request.content.subjectId).value, req.request, Version(w, req.request.content.subjectId))
    && StageAt(w, req.request.content.subjectId, Evaluate).Some?
  }

  ghost predicate PhaseOk(w: World, id: Digest, ph: Phase) {
    && StageAt(w, id, ph.stage).Some?
    && var (signers, q) := StageAt(w, id, ph.stage).value;
    && ph.signers <= signers
    && ph.quorum == q
    && (ph.stage.Validate? || (q <= |signers| && ph.negQuorum == NegativeQuorum(|signers|, q)))
  }

  /** What any event of the flow shares: it follows the stored subject. */
  ghost predicate FollowsOn(w: World, id: Digest, sn: nat, version: nat, hashPrev: Digest) {
    && Of(w, id).Some?
    && sn == Of(w, id).value.sn + 1 && version == Version(w, id)
    && sn - 1 in w.db.Get(id).events
    && hashPrev == w.env.crypto.hashEvent(w.db.Get(id).events[sn - 1].content)
  }

  ghost predicate ProposalOk(w: World, areq: ApprovalRequest, evaluators: set<Signature>) {
    && areq.request.content.Fact? && Requested(w, areq.request)
    && var id := areq.request.content.subjectId;
    && w.env.crypto.patch(Of(w, id).value.properties, areq.patch).Some?
    && FollowsOn(w, id, areq.sn, areq.govVersion, areq.hashPrev)
    && areq.govId == Of(w, id).value.governanceId
    && StageAt(w, id, Evaluate).Some?
    && var (signers, q) := StageAt(w, id, Evaluate).value;
    && var ctx := Of(w, id).value.GetContext(areq.request.signature.signer);
    && StageHolds(w.env.crypto, evaluators, OfEvaluation(ProposedResponse(w.env.crypto, areq, ctx)), signers, q)
  }

  /** The event carries out a request that could be made, follows the stored subject, and passes another node's check of
      its evaluation and its approval. Whether that node lets the signer make the request is not in here. */
  ghost predicate EventOk(w: World, e: Event) {
    && Requested(w, e.request)
    && var id := e.request.content.subjectId;
    && FollowsOn(w, id, e.sn, e.govVersion, e.hashPrev)
    && e.subjectId == id && OnlyFactsRejected(e)
    && (e.request.content.Fact? && e.evalSuccess ==> w.env.crypto.patch(Of(w, id).value.properties, e.patch).Some?)
    && (if e.request.content.Fact?
        then CheckEvent(w.env, e, MetadataOf(Of(w, id).value, id, Version(w, id)),
               Of(w, id).value.GetContext(e.request.signature.signer)).Accepted?
        else CheckTransfer(e).Accepted?)
  }

  ghost predicate ProofOk(w: World, e: Event, proof: Proof) {
    && !e.request.content.Create?
    && Of(w, e.request.content.subjectId).Some?
    && ProofOf(w.env.crypto, w.db, Of(w, e.request.content.subjectId).value, e.request.content.subjectId, e, Version(w, e.request.content.subjectId))
       == Some(proof)
  }

  ghost predicate SignaturesOn(w: World, e: Event, proof: Proof, ss: set<Signature>) {
    && !e.request.content.Create?
    && var id := e.request.content.subjectId;
    && StageAt(w, id, Validate).Some?
    && DistinctSigners(ss)
    && Signers(ss) <= StageAt(w, id, Validate).value.0
    && forall s :: s in ss ==> w.env.crypto.verifies(s, OfProof(proof))
  }

  ghost predicate EvaluationOk(w: World, h: Digest, req: EvaluationRequest, es: set<Counted>) {
    && req.request.content.Fact?
    && StageAt(w, req.request.content.subjectId, Evaluate).Some?
    && TallyOk(w.env.crypto, h, StageAt(w, req.request.content.subjectId, Evaluate).value.0, es)
  }

  ghost predicate VotingOk(w: World, h: Digest, areq: ApprovalRequest, vs: set<SignedApproval>) {
    && areq.request.content.Fact?
    && StageAt(w, areq.request.content.subjectId, Approve).Some?
    && VotesOk(w.env.crypto, h, StageAt(w, areq.request.content.subjectId, Approve).value.0, vs)
  }

  ghost predicate PhasesOk(w: World, completing: map<Digest, Phase>) {
    forall id :: id in completing ==> PhaseOk(w, id, completing[id])
  }

  ghost predicate EvaluationsOk(w: World, requests: map<Digest, EvaluationRequest>, entries: map<Digest, set<Counted>>) {
    && (forall h :: h in requests ==> RequestOk(w, h, requests[h]))
    && (forall h :: h in entries ==> h in requests && EvaluationOk(w, h, requests[h], entries[h]))
  }

  ghost function ProposalCheck(w: World): (ApprovalRequest, set<Signature>) -> bool {
    (areq: ApprovalRequest, evaluators: set<Signature>) => ProposalOk(w, areq, evaluators)
  }

  ghost predicate ApprovalsOk(w: World, ok: (ApprovalRequest, set<Signature>) -> bool, evaluators: map<Digest, set<Signature>>, proposals: map<Digest, ApprovalRequest>,
                              votes: map<Digest, set<SignedApproval>>) {
    && (forall h :: h in proposals ==>
          h in evaluators && w.env.crypto.hashApproval(proposals[h]) == h && ok(proposals[h], evaluators[h]))
    && (forall h :: h in votes ==> h in proposals && VotingOk(w, h, proposals[h], votes[h]))
  }

  ghost function EventCheck(w: World): Event -> bool {
    (e: Event) => EventOk(w, e)
  }

  /** ok: what is asked of each event, left open because most steps do not look inside it. */
  ghost predicate ValidationsOk(w: World, ok: Event -> bool, events: map<Digest, Event>, proofs: map<Digest, Proof>,
                                signatures: map<Digest, set<Signature>>) {
    && (forall h :: h in events ==> w.env.crypto.hashEvent(events[h]) == h && ok(events[h]))
    && (forall h :: h in proofs ==> h in events && ProofOk(w, events[h], proofs[h]))
    && (forall h :: h in signatures ==> h in proofs && SignaturesOn(w, events[h], proofs[h], signatures[h]))
  }

  ghost predicate FlowOk(w: World, okEvent: Event -> bool, okProposal: (ApprovalRequest, set<Signature>) -> bool, st: Flow) {
    && PhasesOk(w, st.completing)
    && EvaluationsOk(w, st.preEvaluations, st.evaluations)
    && ApprovalsOk(w, okProposal, st.approvalEvals, st.approvalRequests, st.approvals)
    && ValidationsOk(w, okEvent, st.toValidate, st.proofs, st.validations)
  }

  ghost predicate FlowInv(w: World, st: Flow) {
    FlowOk(w, EventCheck(w), ProposalCheck(w), st)
  }

  // ---- one event ----

  lemma PlainEventOk(w: World, id: Digest, s: Subject, request: SignedRequest)
    requires WorldOk(w) && Of(w, id) == Some(s)
    requires (request.content.Transfer? || request.content.Eol?) && request.content.subjectId == id && Requested(w, request)
    requires s.sn in w.db.Get(id).events
    ensures var e := PlainEvent(w.env.crypto, s, request, Version(w, id), w.env.crypto.hashEvent(w.db.Get(id).events[s.sn].content));
      EventOk(w, e)
  {}

  lemma SameCount(c: Crypto, sigs: set<Signature>, r: EvaluationResponse)
    requires PatchesAgree(c) && CollisionFree(c)
    requires forall s :: s in sigs ==> exists p :: c.verifies(s, OfEvaluation(r.(patch := p)))
    requires SignaturesBind(c)
    requires exists t :: c.verifies(t, OfEvaluation(r))
    ensures SamePatch(c, sigs, r)
  {
    var t :| c.verifies(t, OfEvaluation(r));
    forall s, x: EvaluationResponse | s in sigs && c.verifies(s, OfEvaluation(x)) ensures x.patch == r.patch {
      var p :| c.verifies(s, OfEvaluation(r.(patch := p)));
      assert OfEvaluation(x) == OfEvaluation(r.(patch := p));
      assert ResponseHash(c, r.(patch := p)) == ResponseHash(c, r);
    }
  }

  /** The patch of a successful evaluation applies to the subject. */
  ghost predicate PatchFits(w: World, id: Digest, r: EvaluationResponse) {
    Of(w, id).Some? && (r.evalSuccess ==> w.env.crypto.patch(Of(w, id).value.properties, r.patch).Some?)
  }

  /** The event built when an evaluation quorum is reached without need of approval is accepted. */
  lemma EvaluatedEventOk(w: World, req: EvaluationRequest, m: SignedResponse, ph: Phase, es: set<Counted>, accepted: bool)
    requires WorldOk(w) && RequestOk(w, m.content.evalReqHash, req)
    requires var id := req.request.content.subjectId;
      && PhaseOk(w, id, ph) && ph.stage.Evaluate?
      && TallyOk(w.env.crypto, m.content.evalReqHash, StageAt(w, id, Evaluate).value.0, es)
      && Of(w, id).value.sn in w.db.Get(id).events
    requires Counted(m.signature, m.content.evalSuccess, ResponseHash(w.env.crypto, m.content)) in es
    requires w.env.crypto.verifies(m.signature, OfEvaluation(m.content)) && !m.content.apprRequired
    requires PatchFits(w, req.request.content.subjectId, m.content)
    requires Reached(ph, es, ResponseHash(w.env.crypto, m.content)) == Some(accepted)
    ensures var id := req.request.content.subjectId;
      var c := w.env.crypto;
      var e := EvaluatedEvent(id, req, m.content, Version(w, id), c.hashEvent(w.db.Get(id).events[Of(w, id).value.sn].content),
                 SignaturesOf(Matching(es, ResponseHash(c, m.content), accepted)));
      EventOk(w, e)
  {
    var c, id, r := w.env.crypto, req.request.content.subjectId, m.content;
    var (signers, q) := StageAt(w, id, Evaluate).value;
    var (approvers, aq) := StageAt(w, id, Approve).value;
    var hashPrev := c.hashEvent(w.db.Get(id).events[Of(w, id).value.sn].content);
    EvaluatorsHold(c, r, signers, ph, es, m.signature, accepted);
    SameCount(c, SignaturesOf(Matching(es, ResponseHash(c, r), accepted)), r);
    EvaluatedEventVerifies(c, id, req, r, Version(w, id), hashPrev, signers, ph, es, m.signature, accepted,
      StageInfo(approvers, aq, NegativeQuorum(|approvers|, aq)));
  }

  /** What is proposed to the approvers when an evaluation quorum is reached stands on evaluators that hold. */
  lemma ProposalStands(w: World, req: EvaluationRequest, m: SignedResponse, ph: Phase, es: set<Counted>, accepted: bool)
    requires WorldOk(w) && RequestOk(w, m.content.evalReqHash, req)
    requires var id := req.request.content.subjectId;
      && PhaseOk(w, id, ph) && ph.stage.Evaluate?
      && TallyOk(w.env.crypto, m.content.evalReqHash, StageAt(w, id, Evaluate).value.0, es)
      && Of(w, id).value.sn in w.db.Get(id).events
    requires Counted(m.signature, m.content.evalSuccess, ResponseHash(w.env.crypto, m.content)) in es
    requires w.env.crypto.verifies(m.signature, OfEvaluation(m.content)) && m.content.apprRequired && m.content.evalSuccess
    requires PatchFits(w, req.request.content.subjectId, m.content)
    requires Reached(ph, es, ResponseHash(w.env.crypto, m.content)) == Some(accepted)
    ensures var id, c := req.request.content.subjectId, w.env.crypto;
      var areq := Proposal(req, m.content, Of(w, id).value, Version(w, id), c.hashEvent(w.db.Get(id).events[Of(w, id).value.sn].content));
      ProposalOk(w, areq, SignaturesOf(Matching(es, ResponseHash(c, m.content), accepted)))
  {
    var c, id, r := w.env.crypto, req.request.content.subjectId, m.content;
    var signers := StageAt(w, id, Evaluate).value.0;
    var areq := Proposal(req, r, Of(w, id).value, Version(w, id), c.hashEvent(w.db.Get(id).events[Of(w, id).value.sn].content));
    EvaluatorsHold(c, r, signers, ph, es, m.signature, accepted);
    SameCount(c, SignaturesOf(Matching(es, ResponseHash(c, r), accepted)), r);
    assert ProposedResponse(c, areq, Of(w, id).value.GetContext(areq.request.signature.signer)) == r;
  }

  /** The event built when an approval quorum is reached, either way, is accepted. */
  lemma DecidedEventOk(w: World, areq: ApprovalRequest, evaluators: set<Signature>, vs: set<SignedApproval>,
                       ph: Phase, yes: bool)
    requires WorldOk(w) && ProposalOk(w, areq, evaluators) && VotingOk(w, w.env.crypto.hashApproval(areq), areq, vs)
    requires PhaseOk(w, areq.request.content.subjectId, ph) && ph.stage.Approve?
    requires VotesFor(vs, yes) != {} && |VotesFor(vs, yes)| >= (if yes then ph.quorum else ph.negQuorum)
    ensures var e := DecidedEvent(areq.request.content.subjectId, areq, Version(w, areq.request.content.subjectId), yes, evaluators,
                                  VoteSignatures(VotesFor(vs, yes)));
      EventOk(w, e)
  {
    var c, id := w.env.crypto, areq.request.content.subjectId;
    var (signers, q) := StageAt(w, id, Evaluate).value;
    var (approvers, aq) := StageAt(w, id, Approve).value;
    DecidedEventVerifies(c, id, areq, Version(w, id), yes, evaluators, vs, Of(w, id).value.GetContext(areq.request.signature.signer),
      StageInfo(signers, q, NegativeQuorum(|signers|, q)), StageInfo(approvers, aq, ph.negQuorum));
  }

  // ---- one step ----

  lemma EventAdded(w: World, ok: Event -> bool, events: map<Digest, Event>, proofs: map<Digest, Proof>,
                   signatures: map<Digest, set<Signature>>, e: Event)
    requires ValidationsOk(w, ok, events, proofs, signatures) && CollisionFree(w.env.crypto) && ok(e)
    ensures ValidationsOk(w, ok, events[w.env.crypto.hashEvent(e) := e], proofs, signatures)
  {
    if w.env.crypto.hashEvent(e) in events { assert events[w.env.crypto.hashEvent(e)] == e; }
  }

  lemma ProofAdded(w: World, ok: Event -> bool, events: map<Digest, Event>, proofs: map<Digest, Proof>,
                   signatures: map<Digest, set<Signature>>, h: Digest, proof: Proof)
    requires ValidationsOk(w, ok, events, proofs, signatures)
    requires h in events && ProofOk(w, events[h], proof)
    ensures ValidationsOk(w, ok, events, proofs[h := proof], signatures)
  {
    if h in proofs { assert ProofOk(w, events[h], proofs[h]) && proofs[h] == proof; }
  }

  lemma RequestAdded(w: World, requests: map<Digest, EvaluationRequest>, entries: map<Digest, set<Counted>>,
                     h: Digest, req: EvaluationRequest)
    requires EvaluationsOk(w, requests, entries) && CollisionFree(w.env.crypto)
    requires RequestOk(w, h, req)
    ensures EvaluationsOk(w, requests[h := req], entries)
  {
    if h in requests { assert RequestOk(w, h, requests[h]) && requests[h] == req; }
  }

  lemma PhaseSet(w: World, completing: map<Digest, Phase>, id: Digest, ph: Phase)
    requires PhasesOk(w, completing) && PhaseOk(w, id, ph)
    ensures PhasesOk(w, completing[id := ph])
  {}

  /** What has been checked by the time a request is told from other kinds. */
  ghost predicate SignedAndOwned(w: World, request: SignedRequest, s: Subject) {
    w.env.crypto.verifies(request.signature, OfRequest(request.content)) && s.active && s.keys.Some?
  }

  lemma NewFactKeeps(w: World, st: Flow, id: Digest, s: Subject, request: SignedRequest)
    requires WorldOk(w) && FlowInv(w, st) && Of(w, id) == Some(s)
    requires request.content.Fact? && request.content.subjectId == id && SignedAndOwned(w, request, s)
    ensures FlowInv(w, NewFact(w.env, st, id, s, request, Version(w, id)).0)
  {
    FactKeeps(w, EventCheck(w), ProposalCheck(w), st, id, s, request);
  }

  lemma FactKeeps(w: World, okEvent: Event -> bool, okProposal: (ApprovalRequest, set<Signature>) -> bool, st: Flow,
                  id: Digest, s: Subject, request: SignedRequest)
    requires WorldOk(w) && FlowOk(w, okEvent, okProposal, st) && Of(w, id) == Some(s)
    requires request.content.Fact? && request.content.subjectId == id && SignedAndOwned(w, request, s)
    ensures FlowOk(w, okEvent, okProposal, NewFact(w.env, st, id, s, request, Version(w, id)).0)
  {
    if StageAt(w, id, Evaluate).Some? && MayAsk(w.env, MetadataOf(s, id, Version(w, id)), request.signature.signer) {
      var req := FactEvaluation(s, request, Version(w, id));
      var (signers, q) := StageAt(w, id, Evaluate).value;
      RequestAdded(w, st.preEvaluations, st.evaluations, w.env.crypto.hashEvaluation(req), req);
      assert q <= |signers|;
      PhaseSet(w, st.completing, id, Phase(Evaluate, signers, q, NegativeQuorum(|signers|, q)));
    }
  }

  lemma RememberKeeps(w: World, okEvent: Event -> bool, okProposal: (ApprovalRequest, set<Signature>) -> bool, st: Flow,
                      id: Digest, e: Event)
    requires FlowOk(w, okEvent, okProposal, st) && CollisionFree(w.env.crypto) && okEvent(e)
    ensures FlowOk(w, okEvent, okProposal, Remember(w.env.crypto, st, id, e))
  {
    EventAdded(w, okEvent, st.toValidate, st.proofs, st.validations, e);
  }

  lemma ProveKeeps(w: World, okEvent: Event -> bool, okProposal: (ApprovalRequest, set<Signature>) -> bool, st: Flow,
                   h: Digest, proof: Proof)
    requires FlowOk(w, okEvent, okProposal, st)
    requires h in st.toValidate && ProofOk(w, st.toValidate[h], proof)
    ensures FlowOk(w, okEvent, okProposal, st.(proofs := st.proofs[h := proof]))
  {
    ProofAdded(w, okEvent, st.toValidate, st.proofs, st.validations, h, proof);
  }

  lemma AwaitKeeps(w: World, okEvent: Event -> bool, okProposal: (ApprovalRequest, set<Signature>) -> bool, st: Flow,
                   id: Digest, s: Subject, e: Event)
    requires FlowOk(w, okEvent, okProposal, st) && Of(w, id) == Some(s)
    ensures FlowOk(w, okEvent, okProposal, AwaitValidators(w.env, st, id, s, Version(w, id), e).0)
  {
    if StageAt(w, id, Validate).Some? {
      var (signers, q) := StageAt(w, id, Validate).value;
      PhaseSet(w, st.completing, id, Phase(Validate, signers, q, 0));
    }
  }

  lemma AskValidationKeeps(w: World, okEvent: Event -> bool, okProposal: (ApprovalRequest, set<Signature>) -> bool, st: Flow,
                           id: Digest, s: Subject, e: Event)
    requires FlowOk(w, okEvent, okProposal, st) && CollisionFree(w.env.crypto) && okEvent(e)
    requires Of(w, id) == Some(s) && !e.request.content.Create? && e.request.content.subjectId == id
    ensures FlowOk(w, okEvent, okProposal, AskValidation(w.env, w.db, st, id, s, Version(w, id), e).0)
  {
    var h, proof := w.env.crypto.hashEvent(e), ProofOf(w.env.crypto, w.db, s, id, e, Version(w, id));
    var built := Remember(w.env.crypto, st, id, e);
    RememberKeeps(w, okEvent, okProposal, st, id, e);
    if proof.Some? {
      ProveKeeps(w, okEvent, okProposal, built, h, proof.value);
      AwaitKeeps(w, okEvent, okProposal, built.(proofs := built.proofs[h := proof.value]), id, s, e);
    }
  }

  lemma NewPlainKeeps(w: World, st: Flow, id: Digest, s: Subject, request: SignedRequest)
    requires WorldOk(w) && FlowInv(w, st) && Of(w, id) == Some(s)
    requires (request.content.Transfer? || request.content.Eol?) && request.content.subjectId == id
    requires SignedAndOwned(w, request, s)
    ensures FlowInv(w, NewPlain(w.env, w.db, st, id, s, request, Version(w, id)).0)
  {
    if s.sn in w.db.Get(id).events && (request.content.Eol? ==> s.owner == request.signature.signer) {
      var e := PlainEvent(w.env.crypto, s, request, Version(w, id), w.env.crypto.hashEvent(w.db.Get(id).events[s.sn].content));
      assert EventCheck(w)(e) by { PlainEventOk(w, id, s, request); }
      AskValidationKeeps(w, EventCheck(w), ProposalCheck(w), st, id, s, e);
    }
  }

  lemma NewEventKeeps(w: World, st: Flow, request: SignedRequest, live: Option<nat>)
    requires WorldOk(w) && FlowInv(w, st)
    requires !request.content.Create? ==> live == LiveVersion(w.db, request.content.subjectId)
    requires w.env.crypto.verifies(request.signature, OfRequest(request.content))
    ensures FlowInv(w, NewEvent(w.env, w.db, live, st, request).0)
  {
    if !request.content.Create? && Of(w, request.content.subjectId).Some? {
      var id := request.content.subjectId;
      var s := Of(w, id).value;
      if !s.active || s.keys.None? {
      } else if request.content.Fact? {
        NewFactKeeps(w, st, id, s, request);
      } else {
        NewPlainKeeps(w, st, id, s, request);
      }
    }
  }

  lemma EntryRecorded(w: World, requests: map<Digest, EvaluationRequest>, entries: map<Digest, set<Counted>>,
                      m: SignedResponse, signers: set<Key>)
    requires EvaluationsOk(w, requests, entries)
    requires m.content.evalReqHash in requests
    requires var id := requests[m.content.evalReqHash].request.content.subjectId;
      StageAt(w, id, Evaluate).Some? && signers <= StageAt(w, id, Evaluate).value.0
    requires m.signature.signer in signers && w.env.crypto.verifies(m.signature, OfEvaluation(m.content))
    ensures var h := m.content.evalReqHash;
      var es := Replaced(SetAt(entries, h), Counted(m.signature, m.content.evalSuccess, ResponseHash(w.env.crypto, m.content)));
      EvaluationOk(w, h, requests[h], es) && EvaluationsOk(w, requests, entries[h := es])
  {
    var h := m.content.evalReqHash;
    var allowed := StageAt(w, requests[h].request.content.subjectId, Evaluate).value.0;
    if h in entries { assert EvaluationOk(w, h, requests[h], entries[h]); }
    assert TallyOk(w.env.crypto, h, allowed, SetAt(entries, h));
    TallyReplaced(w.env.crypto, allowed, SetAt(entries, h), m);
  }

  lemma RequestDropped(w: World, requests: map<Digest, EvaluationRequest>, entries: map<Digest, set<Counted>>, h: Digest)
    requires EvaluationsOk(w, requests, entries)
    ensures EvaluationsOk(w, requests - {h}, entries - {h})
  {}

  lemma ProposalAdded(w: World, ok: (ApprovalRequest, set<Signature>) -> bool, st: Flow, areq: ApprovalRequest,
                      sigs: set<Signature>)
    requires ApprovalsOk(w, ok, st.approvalEvals, st.approvalRequests, st.approvals)
    requires CollisionFree(w.env.crypto) && ok(areq, sigs)
    ensures var st' := Propose(w.env.crypto, st, areq, sigs);
      ApprovalsOk(w, ok, st'.approvalEvals, st'.approvalRequests, st'.approvals)
  {
    var h := w.env.crypto.hashApproval(areq);
    if h in st.approvalRequests { assert st.approvalRequests[h] == areq; }
  }

  // ---- evaluations ----

  lemma AdvancePhases(w: World, st: Flow, id: Digest, s: Subject, h: Digest, stage: Stage)
    requires Of(w, id) == Some(s) && PhasesOk(w, st.completing)
    ensures PhasesOk(w, Advance(w.env, st, id, s, Version(w, id), h, stage).0.completing)
  {
    if StageAt(w, id, stage).Some? {
      var (signers, q) := StageAt(w, id, stage).value;
      if q <= |signers| { PhaseSet(w, st.completing, id, Phase(stage, signers, q, NegativeQuorum(|signers|, q))); }
    }
  }

  lemma AdvanceShape(env: Env, st: Flow, id: Digest, s: Subject, version: nat, h: Digest, stage: Stage)
    ensures var st' := Advance(env, st, id, s, version, h, stage).0;
      st' == st.(evaluations := st.evaluations - {h}, preEvaluations := st.preEvaluations - {h}, completing := st'.completing)
  {}

  lemma AdvanceKeeps(w: World, st: Flow, id: Digest, s: Subject, h: Digest, stage: Stage)
    requires Of(w, id) == Some(s) && FlowInv(w, st)
    ensures FlowInv(w, Advance(w.env, st, id, s, Version(w, id), h, stage).0)
  {
    RequestDropped(w, st.preEvaluations, st.evaluations, h);
    AdvancePhases(w, st, id, s, h, stage);
    AdvanceShape(w.env, st, id, s, Version(w, id), h, stage);
  }

  lemma PrevalidateEvents(w: World, ok: Event -> bool, st: Flow, id: Digest, e: Event, proof: Proof)
    requires CollisionFree(w.env.crypto) && ValidationsOk(w, ok, st.toValidate, st.proofs, st.validations)
    requires ok(e) && ProofOk(w, e, proof)
    ensures var st' := Prevalidate(w.env.crypto, st, id, e, proof);
      ValidationsOk(w, ok, st'.toValidate, st'.proofs, st'.validations)
  {
    var h := w.env.crypto.hashEvent(e);
    EventAdded(w, ok, st.toValidate, st.proofs, st.validations, e);
    ProofAdded(w, ok, st.toValidate[h := e], st.proofs, st.validations, h, proof);
  }

  /** What the counted evaluators sign is fit to be proposed, or to be validated. */
  ghost predicate ResultOk(w: World, id: Digest, s: Subject, req: EvaluationRequest, r: EvaluationResponse, sigs: set<Signature>) {
    s.sn in w.db.Get(id).events ==>
      var hashPrev := w.env.crypto.hashEvent(w.db.Get(id).events[s.sn].content);
      && (r.apprRequired && r.evalSuccess ==> ProposalCheck(w)(Proposal(req, r, s, Version(w, id), hashPrev), sigs))
      && (!r.apprRequired ==> EventCheck(w)(EvaluatedEvent(id, req, r, Version(w, id), hashPrev, sigs)))
  }

  lemma EvaluatedKeeps(w: World, st: Flow, id: Digest, s: Subject, req: EvaluationRequest, r: EvaluationResponse,
                       sigs: set<Signature>)
    requires FlowInv(w, st) && CollisionFree(w.env.crypto) && Of(w, id) == Some(s)
    requires req.request.content.Fact? && req.request.content.subjectId == id
    requires ResultOk(w, id, s, req, r, sigs)
    ensures FlowInv(w, Evaluated(w.env, w.db, st, id, s, Version(w, id), req, r, sigs).0)
  {
    if s.sn in w.db.Get(id).events && s.keys.Some? && (r.apprRequired ==> r.evalSuccess) {
      var hashPrev := w.env.crypto.hashEvent(w.db.Get(id).events[s.sn].content);
      if r.apprRequired {
        var areq := Proposal(req, r, s, Version(w, id), hashPrev);
        ProposalAdded(w, ProposalCheck(w), st, areq, sigs);
        AdvanceKeeps(w, Propose(w.env.crypto, st, areq, sigs), id, s, r.evalReqHash, Approve);
      } else {
        var e := EvaluatedEvent(id, req, r, Version(w, id), hashPrev, sigs);
        var proof := ProofOf(w.env.crypto, w.db, s, id, e, Version(w, id));
        if proof.Some? {
          PrevalidateEvents(w, EventCheck(w), st, id, e, proof.value);
          AdvanceKeeps(w, Prevalidate(w.env.crypto, st, id, e, proof.value), id, s, r.evalReqHash, Validate);
        }
      }
    }
  }

  lemma QuorumIsOk(w: World, req: EvaluationRequest, m: SignedResponse, ph: Phase, es: set<Counted>, accepted: bool)
    requires WorldOk(w) && RequestOk(w, m.content.evalReqHash, req)
    requires var id := req.request.content.subjectId;
      && PhaseOk(w, id, ph) && ph.stage.Evaluate?
      && TallyOk(w.env.crypto, m.content.evalReqHash, StageAt(w, id, Evaluate).value.0, es)
    requires Counted(m.signature, m.content.evalSuccess, ResponseHash(w.env.crypto, m.content)) in es
    requires w.env.crypto.verifies(m.signature, OfEvaluation(m.content)) && PatchFits(w, req.request.content.subjectId, m.content)
    requires Reached(ph, es, ResponseHash(w.env.crypto, m.content)) == Some(accepted)
    ensures var id := req.request.content.subjectId;
      ResultOk(w, id, Of(w, id).value, req, m.content, SignaturesOf(Matching(es, ResponseHash(w.env.crypto, m.content), accepted)))
  {
    var id := req.request.content.subjectId;
    if Of(w, id).value.sn in w.db.Get(id).events {
      if !m.content.apprRequired {
        EvaluatedEventOk(w, req, m, ph, es, accepted);
      } else if m.content.evalSuccess {
        ProposalStands(w, req, m, ph, es, accepted);
      }
    }
  }

  lemma RecordedKeeps(w: World, st: Flow, id: Digest, s: Subject, req: EvaluationRequest, ph: Phase, m: SignedResponse)
    requires WorldOk(w) && FlowInv(w, st) && Of(w, id) == Some(s)
    requires m.content.evalReqHash in st.preEvaluations && st.preEvaluations[m.content.evalReqHash] == req
    requires req.request.content.Fact? && req.request.content.subjectId == id
    requires PhaseOk(w, id, ph) && ph.stage.Evaluate? && m.signature.signer in ph.signers
    requires w.env.crypto.verifies(m.signature, OfEvaluation(m.content)) && PatchFits(w, id, m.content)
    ensures FlowInv(w, RecordedEvaluation(w.env, w.db, st, id, s, Version(w, id), req, ph, m).0)
  {
    var r, c := m.content, w.env.crypto;
    assert RequestOk(w, r.evalReqHash, req);
    var hash := ResponseHash(c, r);
    var es := Replaced(SetAt(st.evaluations, r.evalReqHash), Counted(m.signature, r.evalSuccess, hash));
    EntryRecorded(w, st.preEvaluations, st.evaluations, m, ph.signers);
    var st' := st.(evaluations := st.evaluations[r.evalReqHash := es]);
    match Reached(ph, es, hash)
    case None =>
      PhaseSet(w, st.completing, id, ph.(signers := ph.signers - {m.signature.signer}));
    case Some(accepted) =>
      QuorumIsOk(w, req, m, ph, es, accepted);
      EvaluatedKeeps(w, st', id, s, req, r, SignaturesOf(Matching(es, hash, accepted)));
  }

  /** One more verified evaluation, whether or not it completes a quorum. */
  lemma EvaluatorKeeps(w: World, st: Flow, m: SignedResponse, live: Option<nat>)
    requires WorldOk(w) && FlowInv(w, st) && live == LiveFor(w, st, Evaluation(m))
    ensures FlowInv(w, EvaluatorSignatures(w.env, w.db, live, st, m).0)
  {
    if EvaluationFault(w.env, w.db, live, st, m).None? {
      var req := st.preEvaluations[m.content.evalReqHash];
      var id := req.request.content.subjectId;
      assert PhaseOk(w, id, st.completing[id]);
      RecordedKeeps(w, st, id, Of(w, id).value, req, st.completing[id], m);
    }
  }

  // ---- approvals ----

  lemma VoteRecorded(w: World, ok: (ApprovalRequest, set<Signature>) -> bool, st: Flow, m: SignedApproval, signers: set<Key>)
    requires ApprovalsOk(w, ok, st.approvalEvals, st.approvalRequests, st.approvals)
    requires m.content.apprReqHash in st.approvalRequests
    requires var areq := st.approvalRequests[m.content.apprReqHash];
      && areq.request.content.Fact?
      && StageAt(w, areq.request.content.subjectId, Approve).Some?
      && signers <= StageAt(w, areq.request.content.subjectId, Approve).value.0
    requires m.signature.signer in signers && w.env.crypto.verifies(m.signature, OfApproval(m.content))
    ensures var ah := m.content.apprReqHash;
      var vs := ReplacedVote(SetAt(st.approvals, ah), m);
      VotingOk(w, ah, st.approvalRequests[ah], vs)
      && ApprovalsOk(w, ok, st.approvalEvals, st.approvalRequests, st.approvals[ah := vs])
  {
    var ah := m.content.apprReqHash;
    if ah in st.approvals { assert VotingOk(w, ah, st.approvalRequests[ah], st.approvals[ah]); }
  }

  lemma DecidedPhases(w: World, st: Flow, id: Digest, s: Subject, ah: Digest, yes: bool, sigs: set<Signature>)
    requires ah in st.approvalRequests && Of(w, id) == Some(s) && PhasesOk(w, st.completing)
    ensures PhasesOk(w, Decided(w.env, w.db, Some(Version(w, id)), st, id, s, ah, yes, sigs).0.completing)
  {
    if StageAt(w, id, Validate).Some? {
      var (signers, q) := StageAt(w, id, Validate).value;
      PhaseSet(w, st.completing, id, Phase(Validate, signers, q, 0));
    }
  }

  lemma DecidedShape(w: World, st: Flow, id: Digest, s: Subject, ah: Digest, yes: bool, sigs: set<Signature>)
    requires ah in st.approvalRequests && ah in st.approvalEvals
    ensures var st' := Decided(w.env, w.db, Some(Version(w, id)), st, id, s, ah, yes, sigs).0;
      var e := DecidedEvent(id, st.approvalRequests[ah], Version(w, id), yes, st.approvalEvals[ah], sigs);
      var proof := ProofOf(w.env.crypto, w.db, s, id, e, Version(w, id));
      || st' == st
      || st' == DropProposal(st, ah)
      || (proof.Some?
          && st' == Prevalidate(w.env.crypto, DropProposal(st, ah), id, e, proof.value).(completing := st'.completing))
  {}

  lemma ProposalDropped(w: World, okEvent: Event -> bool, okProposal: (ApprovalRequest, set<Signature>) -> bool, st: Flow,
                        ah: Digest)
    requires FlowOk(w, okEvent, okProposal, st)
    ensures FlowOk(w, okEvent, okProposal, DropProposal(st, ah))
  {}

  lemma PrevalidateKeeps(w: World, okEvent: Event -> bool, okProposal: (ApprovalRequest, set<Signature>) -> bool, st: Flow,
                         id: Digest, e: Event, proof: Proof, completing: map<Digest, Phase>)
    requires CollisionFree(w.env.crypto) && FlowOk(w, okEvent, okProposal, st)
    requires okEvent(e) && ProofOk(w, e, proof) && PhasesOk(w, completing)
    ensures FlowOk(w, okEvent, okProposal, Prevalidate(w.env.crypto, st, id, e, proof).(completing := completing))
  {
    PrevalidateEvents(w, okEvent, st, id, e, proof);
  }

  lemma DecidedKeeps(w: World, okEvent: Event -> bool, okProposal: (ApprovalRequest, set<Signature>) -> bool, st: Flow,
                     id: Digest, s: Subject, ah: Digest, yes: bool, sigs: set<Signature>, st': Flow)
    requires CollisionFree(w.env.crypto) && FlowOk(w, okEvent, okProposal, st) && Of(w, id) == Some(s)
    requires ah in st.approvalRequests && ah in st.approvalEvals
    requires st.approvalRequests[ah].request.content.Fact? && st.approvalRequests[ah].request.content.subjectId == id
    requires okEvent(DecidedEvent(id, st.approvalRequests[ah], Version(w, id), yes, st.approvalEvals[ah], sigs))
    requires st' == Decided(w.env, w.db, Some(Version(w, id)), st, id, s, ah, yes, sigs).0
    ensures FlowOk(w, okEvent, okProposal, st')
  {
    DecidedPhases(w, st, id, s, ah, yes, sigs);
    DecidedShape(w, st, id, s, ah, yes, sigs);
    DecidedCases(w, okEvent, okProposal, st, id, s, ah,
      DecidedEvent(id, st.approvalRequests[ah], Version(w, id), yes, st.approvalEvals[ah], sigs), st');
  }

  lemma DecidedCases(w: World, okEvent: Event -> bool, okProposal: (ApprovalRequest, set<Signature>) -> bool, st: Flow,
                     id: Digest, s: Subject, ah: Digest, e: Event, st': Flow)
    requires CollisionFree(w.env.crypto) && FlowOk(w, okEvent, okProposal, st) && Of(w, id) == Some(s)
    requires e.request.content.Fact? && e.request.content.subjectId == id && okEvent(e)
    requires PhasesOk(w, st'.completing)
    requires var proof := ProofOf(w.env.crypto, w.db, s, id, e, Version(w, id));
      || st' == st
      || st' == DropProposal(st, ah)
      || (proof.Some?
          && st' == Prevalidate(w.env.crypto, DropProposal(st, ah), id, e, proof.value).(completing := st'.completing))
    ensures FlowOk(w, okEvent, okProposal, st')
  {
    var proof := ProofOf(w.env.crypto, w.db, s, id, e, Version(w, id));
    ProposalDropped(w, okEvent, okProposal, st, ah);
    if proof.Some? {
      assert ProofOk(w, e, proof.value);
      PrevalidateKeeps(w, okEvent, okProposal, DropProposal(st, ah), id, e, proof.value, st'.completing);
    }
  }

  /** The event a completed vote builds is accepted. */
  lemma VoteIsOk(w: World, st: Flow, m: SignedApproval, vs: set<SignedApproval>, ph: Phase)
    requires WorldOk(w) && FlowInv(w, st)
    requires var ah := m.content.apprReqHash;
      && ah in st.approvalRequests
      && PhaseOk(w, st.approvalRequests[ah].request.content.subjectId, ph) && ph.stage.Approve?
      && VotingOk(w, ah, st.approvalRequests[ah], vs)
    requires m in vs && |VotesFor(vs, m.content.approved)| >= (if m.content.approved then ph.quorum else ph.negQuorum)
    ensures var ah, yes := m.content.apprReqHash, m.content.approved;
      var areq := st.approvalRequests[ah];
      ah in st.approvalEvals
      && EventCheck(w)(DecidedEvent(areq.request.content.subjectId, areq, Version(w, areq.request.content.subjectId), yes, st.approvalEvals[ah],
                                    VoteSignatures(VotesFor(vs, yes))))
  {
    var ah := m.content.apprReqHash;
    var areq := st.approvalRequests[ah];
    assert ProposalCheck(w)(areq, st.approvalEvals[ah]);
    assert m in VotesFor(vs, m.content.approved);
    DecidedEventOk(w, areq, st.approvalEvals[ah], vs, ph, m.content.approved);
  }

  /** One more verified vote, whether or not it completes a quorum. */
  lemma ApproverKeeps(w: World, st: Flow, m: SignedApproval, live: Option<nat>)
    requires WorldOk(w) && FlowInv(w, st) && live == LiveFor(w, st, Approval(m))
    ensures FlowInv(w, ApproverSignatures(w.env, w.db, live, st, m).0)
  {
    if ApprovalFault(w.env, w.db, st, m).None? {
      var ah, yes := m.content.apprReqHash, m.content.approved;
      var id := st.approvalRequests[ah].request.content.subjectId;
      var ph := st.completing[id];
      var vs := ReplacedVote(SetAt(st.approvals, ah), m);
      assert PhaseOk(w, id, ph);
      VoteRecorded(w, ProposalCheck(w), st, m, ph.signers);
      if |VotesFor(vs, yes)| >= (if yes then ph.quorum else ph.negQuorum) { VoteIsOk(w, st, m, vs, ph); }
      VoteTaken(w, EventCheck(w), ProposalCheck(w), st, m, live, id, ph, vs);
    }
  }

  lemma VoteTaken(w: World, okEvent: Event -> bool, okProposal: (ApprovalRequest, set<Signature>) -> bool, st: Flow,
                  m: SignedApproval, live: Option<nat>, id: Digest, ph: Phase, vs: set<SignedApproval>)
    requires live == LiveVersion(w.db, id)
    requires CollisionFree(w.env.crypto) && FlowOk(w, okEvent, okProposal, st)
    requires ApprovalFault(w.env, w.db, st, m).None?
    requires vs == ReplacedVote(SetAt(st.approvals, m.content.apprReqHash), m)
    requires id == st.approvalRequests[m.content.apprReqHash].request.content.subjectId && ph == st.completing[id]
    requires PhaseOk(w, id, ph)
    requires ApprovalsOk(w, okProposal, st.approvalEvals, st.approvalRequests, st.approvals[m.content.apprReqHash := vs])
    requires |VotesFor(vs, m.content.approved)| >= (if m.content.approved then ph.quorum else ph.negQuorum) ==>
      && m.content.apprReqHash in st.approvalEvals
      && okEvent(DecidedEvent(id, st.approvalRequests[m.content.apprReqHash], Version(w, id), m.content.approved,
           st.approvalEvals[m.content.apprReqHash], VoteSignatures(VotesFor(vs, m.content.approved))))
    ensures FlowOk(w, okEvent, okProposal, ApproverSignatures(w.env, w.db, live, st, m).0)
  {
    var ah, yes := m.content.apprReqHash, m.content.approved;
    var st' := st.(approvals := st.approvals[ah := vs]);
    if |VotesFor(vs, yes)| < (if yes then ph.quorum else ph.negQuorum) {
      PhaseSet(w, st.completing, id, ph.(signers := ph.signers - {m.signature.signer}));
    } else if live.Some? {
      DecidedKeeps(w, okEvent, okProposal, st', id, Of(w, id).value, ah, yes, VoteSignatures(VotesFor(vs, yes)),
        ApproverSignatures(w.env, w.db, live, st, m).0);
    }
  }

  // ---- validations ----

  lemma SignatureRecorded(w: World, st: Flow, h: Digest, sig: Signature, ph: Phase)
    requires h in st.proofs && h in st.toValidate && !st.toValidate[h].request.content.Create?
    requires PhaseOk(w, st.toValidate[h].request.content.subjectId, ph) && ph.stage.Validate?
    requires h in st.validations ==> SignaturesOn(w, st.toValidate[h], st.proofs[h], st.validations[h])
    requires sig.signer in ph.signers && w.env.crypto.verifies(sig, OfProof(st.proofs[h]))
    ensures SignaturesOn(w, st.toValidate[h], st.proofs[h], ReplacedSignature(SetAt(st.validations, h), sig))
  {}

  lemma DistinctCount(ss: set<Signature>)
    requires DistinctSigners(ss)
    ensures |Signers(ss)| == |ss|
  {
    var f := (s: Signature) => s.signer;
    ImageSize(ss, f);
    assert Signers(ss) == Image(ss, f);
  }

  /** What is handed to the ledger is an event that passes the checks of evaluation and approval, with a proof that is of
      it and enough validators' signatures on that. */
  ghost predicate Handed(w: World, e: Event, ss: set<Signature>, proof: Proof) {
    && EventOk(w, e) && ProofOk(w, e, proof) && proof.subjectId == e.request.content.subjectId
    && Certified(w.env, ss, proof)
  }

  lemma HandedIsCertified(w: World, e: Event, ss: set<Signature>, proof: Proof, q: nat)
    requires WorldOk(w) && EventOk(w, e) && ProofOk(w, e, proof) && SignaturesOn(w, e, proof, ss)
    requires StageAt(w, e.request.content.subjectId, Validate).value.1 == q && |ss| >= q
    ensures Handed(w, e, ss, proof)
  {
    var id := e.request.content.subjectId;
    var signers := StageAt(w, id, Validate).value.0;
    assert proof.GetMetadata() == MetadataOf(Of(w, id).value, id, Version(w, id));
    assert ValidSigners(w.env.crypto, ss, OfProof(proof), signers) == Signers(ss) by {
      forall s | s in ss ensures s.signer in signers && w.env.crypto.verifies(s, OfProof(proof)) {
        assert s.signer in Signers(ss);
      }
    }
    DistinctCount(ss);
  }

  lemma EventDropped(w: World, okEvent: Event -> bool, okProposal: (ApprovalRequest, set<Signature>) -> bool, st: Flow,
                     id: Digest, h: Digest)
    requires FlowOk(w, okEvent, okProposal, st)
    ensures FlowOk(w, okEvent, okProposal, DropEvent(st, id, h))
  {}

  /** What a signature that is not refused leads to. */
  lemma ValidationShape(w: World, st: Flow, h: Digest, sig: Signature, version: nat, live: Option<nat>)
    ensures var (st', r) := ValidationSignatures(w.env, w.db, live, st, h, sig, version);
      || (st' == st && !r.ToLedger?)
      || (&& h in st.toValidate && h in st.proofs
          && var e, id := st.toValidate[h], SubjectIdOf(w.env.crypto, st.toValidate[h]);
          && id in st.completing && st.completing[id].stage.Validate?
          && var ph, ss := st.completing[id], ReplacedSignature(SetAt(st.validations, h), sig);
          && sig.signer in ph.signers && w.env.crypto.verifies(sig, OfProof(st.proofs[h]))
          && if |ss| < ph.quorum then
               !r.ToLedger? && st' == st.(validations := st.validations[h := ss],
                                          completing := st.completing[id := ph.(signers := ph.signers - {sig.signer})])
             else r == ToLedger(e, ss, st.proofs[h]) && st' == DropEvent(st, id, h))
  {}

  /** One more verified validation. */
  lemma ValidationKeeps(w: World, okEvent: Event -> bool, okProposal: (ApprovalRequest, set<Signature>) -> bool, st: Flow,
                        h: Digest, sig: Signature, version: nat, live: Option<nat>, st': Flow, r: Result)
    requires FlowOk(w, okEvent, okProposal, st)
    requires forall e :: okEvent(e) ==> !e.request.content.Create?
    requires (st', r) == ValidationSignatures(w.env, w.db, live, st, h, sig, version)
    ensures FlowOk(w, okEvent, okProposal, st')
    ensures r.ToLedger? ==>
      && okEvent(r.event) && ProofOk(w, r.event, r.proof) && SignaturesOn(w, r.event, r.proof, r.signatures)
      && |r.signatures| >= StageAt(w, r.event.request.content.subjectId, Validate).value.1
  {
    ValidationShape(w, st, h, sig, version, live);
    if st' != st || r.ToLedger? {
      SignatureFits(w, okEvent, st, h, sig);
      var id := SubjectIdOf(w.env.crypto, st.toValidate[h]);
      var ph, ss := st.completing[id], ReplacedSignature(SetAt(st.validations, h), sig);
      var waiting := ph.(signers := ph.signers - {sig.signer});
      PhaseSet(w, st.completing, id, waiting);
      SignatureAdded(w, okEvent, okProposal, st, h, ss, st.completing[id := waiting]);
      EventDropped(w, okEvent, okProposal, st, id, h);
    }
  }

  lemma SignatureAdded(w: World, okEvent: Event -> bool, okProposal: (ApprovalRequest, set<Signature>) -> bool, st: Flow,
                       h: Digest, ss: set<Signature>, completing: map<Digest, Phase>)
    requires FlowOk(w, okEvent, okProposal, st) && PhasesOk(w, completing)
    requires h in st.toValidate && h in st.proofs && SignaturesOn(w, st.toValidate[h], st.proofs[h], ss)
    ensures FlowOk(w, okEvent, okProposal, st.(validations := st.validations[h := ss], completing := completing))
  {}

  lemma SignatureFits(w: World, ok: Event -> bool, st: Flow, h: Digest, sig: Signature)
    requires PhasesOk(w, st.completing) && ValidationsOk(w, ok, st.toValidate, st.proofs, st.validations)
    requires forall e :: ok(e) ==> !e.request.content.Create?
    requires h in st.toValidate && h in st.proofs
    requires var id := SubjectIdOf(w.env.crypto, st.toValidate[h]);
      && id in st.completing && st.completing[id].stage.Validate? && sig.signer in st.completing[id].signers
      && w.env.crypto.verifies(sig, OfProof(st.proofs[h]))
    ensures var e, id := st.toValidate[h], SubjectIdOf(w.env.crypto, st.toValidate[h]);
      && ok(e) && ProofOk(w, e, st.proofs[h])
      && SignaturesOn(w, e, st.proofs[h], ReplacedSignature(SetAt(st.validations, h), sig))
      && id == e.request.content.subjectId && PhaseOk(w, id, st.completing[id])
      && StageAt(w, id, Validate).value.1 == st.completing[id].quorum
  {
    var e, id := st.toValidate[h], SubjectIdOf(w.env.crypto, st.toValidate[h]);
    assert ok(e);
    assert PhaseOk(w, id, st.completing[id]);
    SignatureRecorded(w, st, h, sig, st.completing[id]);
  }

  // ---- any message ----

  lemma ValidationHands(w: World, st: Flow, h: Digest, sig: Signature, version: nat, live: Option<nat>)
    requires WorldOk(w) && FlowInv(w, st)
    ensures var (st', r) := ValidationSignatures(w.env, w.db, live, st, h, sig, version);
      FlowInv(w, st') && (r.ToLedger? ==> Handed(w, r.event, r.signatures, r.proof))
  {
    var (st', r) := ValidationSignatures(w.env, w.db, live, st, h, sig, version);
    ValidationKeeps(w, EventCheck(w), ProposalCheck(w), st, h, sig, version, live, st', r);
    if r.ToLedger? {
      HandedIsCertified(w, r.event, r.signatures, r.proof, StageAt(w, r.event.request.content.subjectId, Validate).value.1);
    }
  }

  lemma OnlyValidationsHandOver(w: World, st: Flow, m: Message)
    ensures Step(w, st, m).1.ToLedger? ==> m.Validation?
  {}

  /** Any message keeps the invariant, and anything handed to the ledger by it is fit for the ledger. */
  lemma StepKeeps(w: World, st: Flow, m: Message)
    requires WorldOk(w) && FlowInv(w, st)
    ensures var (st', r) := Step(w, st, m);
      FlowInv(w, st') && (r.ToLedger? ==> Handed(w, r.event, r.signatures, r.proof))
  {
    OnlyValidationsHandOver(w, st, m);
    var live := LiveFor(w, st, m);
    match m
    case Request(request) =>
      if w.env.crypto.verifies(request.signature, OfRequest(request.content)) { NewEventKeeps(w, st, request, live); }
    case Evaluation(response) => EvaluatorKeeps(w, st, response, live);
    case Approval(approval) => ApproverKeeps(w, st, approval, live);
    case Validation(h, sig, version) => ValidationHands(w, st, h, sig, version, live);
  }

  /** What is handed over is exactly what the ledger's invariant expects of this node's own events. */
  lemma HandedIsOrderly(w: World, e: Event, ss: set<Signature>, proof: Proof, r: Replica)
    requires Handed(w, e, ss, proof)
    requires r.rows == w.db.Get(e.request.content.subjectId)
    requires r.state == Some(LedgerState(Some(Of(w, e.request.content.subjectId).value.sn), Option.None))
    ensures LedgerPreserved.OrderlyOwn(w.env, e.request.content.subjectId, r, e, ss, proof)
  {}
}
