/** The completer and the ledger of one node together: what the one hands over the other takes in, and the flows of other
    subjects go on over the database as it then is. */
module JointRuns {
  import opened Protocol
  import opened Subjects
  import opened Quorum
  import opened Verify
  import opened Store
  import opened LedgerSteps
  import opened LedgerInvariant
  import LedgerPreserved
  import opened LedgerCatchUp
  import LedgerRefusals
  import L = LedgerRuns
  import A = Agreement
  import opened Completer
  import opened CompleterEvents
  import C = CompleterRuns
  import opened CompleterFrames
  import D = Delivery
  import LedgerClosing

  // ---- a flow does not see other subjects ----

  /** The two worlds hold the same of this subject, and the same version of its governance. */
  ghost predicate AgreeAt(w: C.World, w': C.World, id: Digest) {
    w.env == w'.env && w.db.Get(id) == w'.db.Get(id) && C.Version(w, id) == C.Version(w', id)
  }

  lemma PhaseFrame(w: C.World, w': C.World, id: Digest, ph: Phase)
    requires AgreeAt(w, w', id) && C.PhaseOk(w, id, ph)
    ensures C.PhaseOk(w', id, ph)
  {}

  lemma RequestFrame(w: C.World, w': C.World, h: Digest, req: EvaluationRequest)
    requires C.RequestOk(w, h, req) && AgreeAt(w, w', req.request.content.subjectId)
    ensures C.RequestOk(w', h, req)
  {}

  lemma EvaluationFrame(w: C.World, w': C.World, h: Digest, req: EvaluationRequest, es: set<Counted>)
    requires C.EvaluationOk(w, h, req, es) && AgreeAt(w, w', req.request.content.subjectId)
    ensures C.EvaluationOk(w', h, req, es)
  {}

  lemma ProposalFrame(w: C.World, w': C.World, areq: ApprovalRequest, sigs: set<Signature>)
    requires C.ProposalOk(w, areq, sigs) && AgreeAt(w, w', areq.request.content.subjectId)
    ensures C.ProposalOk(w', areq, sigs)
  {}

  lemma VotingFrame(w: C.World, w': C.World, h: Digest, areq: ApprovalRequest, vs: set<SignedApproval>)
    requires C.VotingOk(w, h, areq, vs) && AgreeAt(w, w', areq.request.content.subjectId)
    ensures C.VotingOk(w', h, areq, vs)
  {}

  lemma EventFrame(w: C.World, w': C.World, e: Event)
    requires C.EventOk(w, e) && AgreeAt(w, w', e.request.content.subjectId)
    ensures C.EventOk(w', e)
  {}

  lemma ProofFrame(w: C.World, w': C.World, e: Event, proof: Proof)
    requires C.ProofOk(w, e, proof) && AgreeAt(w, w', e.request.content.subjectId)
    ensures C.ProofOk(w', e, proof)
  {}

  lemma SignaturesFrame(w: C.World, w': C.World, e: Event, proof: Proof, ss: set<Signature>)
    requires C.SignaturesOn(w, e, proof, ss) && AgreeAt(w, w', e.request.content.subjectId)
    ensures C.SignaturesOn(w', e, proof, ss)
  {}

  /** The worlds agree on every subject that has a flow. */
  ghost predicate AgreeOn(w: C.World, w': C.World, st: Flow) {
    forall id :: id in st.completing ==> AgreeAt(w, w', id)
  }

  lemma PhasesFrame(w: C.World, w': C.World, st: Flow)
    requires C.PhasesOk(w, st.completing) && AgreeOn(w, w', st)
    ensures C.PhasesOk(w', st.completing)
  {
    forall id | id in st.completing ensures C.PhaseOk(w', id, st.completing[id]) { PhaseFrame(w, w', id, st.completing[id]); }
  }

  lemma EvaluationsFrame(w: C.World, w': C.World, st: Flow)
    requires C.EvaluationsOk(w, st.preEvaluations, st.evaluations) && Tidy(st) && AgreeOn(w, w', st)
    ensures C.EvaluationsOk(w', st.preEvaluations, st.evaluations)
  {
    forall h | h in st.preEvaluations ensures C.RequestOk(w', h, st.preEvaluations[h]) {
      assert h in RequestIds(st.preEvaluations);
      assert C.RequestOk(w, h, st.preEvaluations[h]);
      RequestFrame(w, w', h, st.preEvaluations[h]);
    }
    forall h | h in st.evaluations
      ensures h in st.preEvaluations && C.EvaluationOk(w', h, st.preEvaluations[h], st.evaluations[h])
    {
      assert h in RequestIds(st.preEvaluations);
      assert C.RequestOk(w, h, st.preEvaluations[h]);
      EvaluationFrame(w, w', h, st.preEvaluations[h], st.evaluations[h]);
    }
  }

  lemma ApprovalsFrame(w: C.World, w': C.World, st: Flow)
    requires C.ApprovalsOk(w, C.ProposalCheck(w), st.approvalEvals, st.approvalRequests, st.approvals)
    requires Tidy(st) && AgreeOn(w, w', st)
    ensures C.ApprovalsOk(w', C.ProposalCheck(w'), st.approvalEvals, st.approvalRequests, st.approvals)
  {
    forall h | h in st.approvalRequests
      ensures h in st.approvalEvals && w'.env.crypto.hashApproval(st.approvalRequests[h]) == h
           && C.ProposalCheck(w')(st.approvalRequests[h], st.approvalEvals[h])
    {
      assert h in ProposalIds(st.approvalRequests);
      assert C.ProposalCheck(w)(st.approvalRequests[h], st.approvalEvals[h]);
      ProposalFrame(w, w', st.approvalRequests[h], st.approvalEvals[h]);
    }
    forall h | h in st.approvals
      ensures h in st.approvalRequests && C.VotingOk(w', h, st.approvalRequests[h], st.approvals[h])
    {
      assert h in ProposalIds(st.approvalRequests);
      assert C.ProposalCheck(w)(st.approvalRequests[h], st.approvalEvals[h]);
      VotingFrame(w, w', h, st.approvalRequests[h], st.approvals[h]);
    }
  }

  lemma ValidationsFrame(w: C.World, w': C.World, st: Flow)
    requires C.ValidationsOk(w, C.EventCheck(w), st.toValidate, st.proofs, st.validations)
    requires Tidy(st) && AgreeOn(w, w', st)
    ensures C.ValidationsOk(w', C.EventCheck(w'), st.toValidate, st.proofs, st.validations)
  {
    forall h | h in st.toValidate
      ensures AgreeAt(w, w', st.toValidate[h].request.content.subjectId)
      ensures w'.env.crypto.hashEvent(st.toValidate[h]) == h && C.EventCheck(w')(st.toValidate[h])
    {
      assert h in EventIds(st.toValidate);
      assert C.EventCheck(w)(st.toValidate[h]);
      EventFrame(w, w', st.toValidate[h]);
    }
    forall h | h in st.proofs ensures h in st.toValidate && C.ProofOk(w', st.toValidate[h], st.proofs[h]) {
      ProofFrame(w, w', st.toValidate[h], st.proofs[h]);
    }
    forall h | h in st.validations
      ensures h in st.proofs && C.SignaturesOn(w', st.toValidate[h], st.proofs[h], st.validations[h])
    {
      SignaturesFrame(w, w', st.toValidate[h], st.proofs[h], st.validations[h]);
    }
  }

  /** A flow survives any change of the database at subjects that have none. */
  lemma FlowFrame(w: C.World, w': C.World, st: Flow)
    requires w.env == w'.env && C.FlowInv(w, st) && Tidy(st) && AgreeOn(w, w', st)
    ensures C.FlowInv(w', st)
  {
    PhasesFrame(w, w', st);
    EvaluationsFrame(w, w', st);
    ApprovalsFrame(w, w', st);
    ValidationsFrame(w, w', st);
  }

  // ---- the node as a whole ----

  datatype Joint = Joint(node: Node, flow: Flow)

  /** flow: a message to the completer, with this node's signature for a hand-over and what governance says of the subject's
      kind. ledger: a message to the ledger from elsewhere. */
  datatype Message =
    | ToCompleter(flow: C.Message, seal: Signature, gov: bool)
    | ToLedgerDirectly(ledger: L.Message)

  function WorldOf(env: Env, n: Node): C.World {
    C.World(env, n.db)
  }

  /** A request that work has begun on is filed as known. */
  function Began(env: Env, n: Node, flow: C.Message, r: Result): Node {
    if flow.Request? && r.Done? then n.(db := n.db.Finish(env.crypto.hashRequest(flow.request))) else n
  }

  /** A hand-over is taken in by the ledger before the completer goes on. */
  function Step(env: Env, j: Joint, m: Message): Joint {
    match m
    case ToCompleter(flow, seal, gov) =>
      var (st, r) := C.Step(WorldOf(env, j.node), j.flow, flow);
      if r.ToLedger? then
        Joint(OwnEvent(env, j.node, SignedEvent(r.event, seal), r.signatures, r.proof, gov).0, st)
      else Joint(Began(env, j.node, flow, r), st)
    case ToLedgerDirectly(ledger) => Joint(L.Step(env, j.node, ledger).0, j.flow)
  }

  /** A subject this node holds keys of is owned by it, and at sn 0 has the certificate of its genesis. */
  ghost predicate Ours(env: Env, r: Replica) {
    && Owned(env, r.rows.subject)
    && (r.rows.subject.Some? && r.rows.subject.value.keys.Some? ==>
          (r.state == Some(LedgerState(Some(0), Option.None)) ==> 0 in r.rows.certs))
  }

  predicate Owned(env: Env, s: Option<Subject>) {
    s.Some? && s.value.keys.Some? ==> s.value.owner == env.ourId
  }

  /** A subject with a flow is up to date. */
  ghost predicate Aligned(j: Joint) {
    forall id :: id in j.flow.completing ==>
      && j.node.db.Get(id).subject.Some?
      && j.node.StateOf(id) == Some(LedgerState(Some(j.node.db.Get(id).subject.value.sn), Option.None))
  }

  ghost predicate JointInv(env: Env, j: Joint) {
    && NodeInv(env, j.node)
    && (forall id :: Ours(env, j.node.At(id)))
    && C.FlowInv(WorldOf(env, j.node), j.flow)
    && Tidy(j.flow)
    && Aligned(j)
  }

  // ---- what a run may bring ----

  /** No subject with a flow, this one aside, has it as its governance. */
  predicate NoDependents(j: Joint, id: Digest) {
    forall k :: k in j.flow.completing && k != id && j.node.db.Get(k).subject.Some? ==>
      C.GovernanceOf(j.node.db.Get(k).subject.value, k) != id
  }

  /** This node builds the genesis of no subject but its own. */
  predicate OwnGenesisIsOurs(env: Env, m: L.Message) {
    m.Genesis? ==> m.event.content.request.signature.signer == env.ourId
  }

  /** A request is for a subject that is up to date and that governance answers for; what advances a governance finds no
      flow under it; and what comes from elsewhere is orderly and about a subject without a flow. */
  ghost predicate Guard(env: Env, j: Joint, m: Message) {
    match m
    case ToCompleter(flow, _, _) =>
      (match flow
       case Request(request) =>
         !request.content.Create? && j.node.db.Get(request.content.subjectId).subject.Some? ==>
           && var id := request.content.subjectId;
           && j.node.StateOf(id) == Some(LedgerState(Some(j.node.db.Get(id).subject.value.sn), Option.None))
           && C.StageAt(WorldOf(env, j.node), id, Validate).Some?
       case Validation(h, _, _) =>
         h in j.flow.toValidate ==> NoDependents(j, SubjectIdOf(env.crypto, j.flow.toValidate[h]))
       case _ => true)
    case ToLedgerDirectly(ledger) =>
      var id := SubjectIdOf(env.crypto, ledger.event.content);
      !ledger.Own? && OwnGenesisIsOurs(env, ledger) && L.Orderly(env, j.node, ledger) && id !in j.flow.completing && NoDependents(j, id)
  }

  // ---- the ledger's part ----

  lemma SubjectsFiled(env: Env, n: Node)
    requires NodeInv(env, n)
    ensures C.SubjectsOk(n.db)
  {
    forall id | n.db.Get(id).subject.Some? ensures n.db.Get(id).subject.value.subjectId == id {
      assert Inv(env, id, n.At(id));
    }
  }

  lemma StepLeavesOurs(env: Env, n: Node, m: L.Message)
    requires var id := SubjectIdOf(env.crypto, m.event.content);
      Inv(env, id, n.At(id)) && Recorded(env, n, id) && Ours(env, n.At(id))
    requires L.Orderly(env, n, m) && OwnGenesisIsOurs(env, m)
    ensures Ours(env, L.Step(env, n, m).0.At(SubjectIdOf(env.crypto, m.event.content)))
  {
    var id := SubjectIdOf(env.crypto, m.event.content);
    match m
    case Genesis(e, sigs, proof, live) =>
    case Own(e, sigs, proof, gov) =>
      if !e.content.request.content.Create? { OwnLeavesOurs(env, n, e, sigs, proof, gov); }
    case External(e, sigs, proof, admitted) =>
      if L.Step(env, n, m).1.Accepted? { ExternalLeavesOurs(env, n, e, sigs, proof, admitted); }
      else { L.RefusedExternalIsClean(env, n, e, sigs, proof, admitted); }
    case Intermediate(e) =>
      LedgerRefusals.IntermediateExactly(env, n, e);
      if L.Step(env, n, m).1.Accepted? { IntermediateLeavesOurs(env, n, L.Step(env, n, m).0, id, e); }
  }

  lemma OwnLeavesOurs(env: Env, n: Node, e: SignedEvent, sigs: set<Signature>, proof: Proof, gov: bool)
    requires !e.content.request.content.Create? && Ours(env, n.At(e.content.request.content.subjectId))
    requires var id := e.content.request.content.subjectId;
      Inv(env, id, n.At(id)) && LedgerPreserved.OrderlyOwn(env, id, n.At(id), e.content, sigs, proof)
    ensures Ours(env, OwnEvent(env, n, e, sigs, proof, gov).0.At(e.content.request.content.subjectId))
  {
    var id := e.content.request.content.subjectId;
    var s := n.db.Get(id).subject.value;
    if OwnEffect(env, n.db, s, e.content).Effect? {
      StoredLeavesOurs(env, n, id, OwnEffect(env, n.db, s, e.content).subject, e, sigs, proof,
        if id in n.isGov then n.isGov[id] else gov);
    }
  }

  lemma StoredLeavesOurs(env: Env, n: Node, id: Digest, s: Subject, e: SignedEvent, sigs: set<Signature>, proof: Proof, isGov: bool)
    requires n.StateOf(id).Some? && n.states[id].currentSn.Some? && Owned(env, Some(s))
    ensures Ours(env, StoreOwn(env, n, id, s, e, sigs, proof, isGov).0.At(id))
  {
    assert StoreOwn(env, n, id, s, e, sigs, proof, isGov).0.db.Get(id).subject == Some(s);
  }

  lemma NextLeavesOurs(env: Env, n: Node, id: Digest, s: Subject, e: SignedEvent, sigs: set<Signature>, proof: Proof)
    requires id in n.states && id in n.isGov && !e.content.request.content.Create? && e.content.sn >= 1
    requires n.db.Get(id).subject == Some(s) && Owned(env, Some(s))
    requires NextEvent(env, n, id, n.states[id], s, e, sigs, proof).1.Accepted?
    ensures Ours(env, NextEvent(env, n, id, n.states[id], s, e, sigs, proof).0.At(id))
  {
    var n', effect := NextEvent(env, n, id, n.states[id], s, e, sigs, proof).0, NextEffect(env, n.db, s, e.content);
    assert n'.db.Get(id).subject == Some(effect.subject);
  }

  lemma LaterLeavesOurs(env: Env, n: Node, id: Digest, s: Subject, e: SignedEvent, sigs: set<Signature>, proof: Proof)
    requires id in n.states && id in n.isGov && !e.content.request.content.Create?
    requires Owned(env, n.db.Get(id).subject)
    requires LaterEvent(env, n, id, n.states[id], s, e, sigs, proof).1.Accepted?
    ensures Ours(env, LaterEvent(env, n, id, n.states[id], s, e, sigs, proof).0.At(id))
  {}

  lemma ExternalLeavesOurs(env: Env, n: Node, e: SignedEvent, sigs: set<Signature>, proof: Proof, admitted: bool)
    requires ExternalEvent(env, n, e, sigs, proof, admitted).1.Accepted?
    requires var id := SubjectIdOf(env.crypto, e.content);
      Inv(env, id, n.At(id)) && Recorded(env, n, id) && Ours(env, n.At(id))
    ensures Ours(env, ExternalEvent(env, n, e, sigs, proof, admitted).0.At(SubjectIdOf(env.crypto, e.content)))
  {
    var id := SubjectIdOf(env.crypto, e.content);
    if e.content.request.content.Create? {
      ExternalGenesisLeavesOurs(env, n, e, admitted);
    } else if n.StateOf(id).None? {
      UnknownLeavesOurs(env, n, id, e, sigs, proof, admitted);
    } else {
      KnownLeavesOurs(env, n, id, e, sigs, proof, admitted);
    }
  }

  lemma ExternalGenesisLeavesOurs(env: Env, n: Node, e: SignedEvent, admitted: bool)
    requires e.content.request.content.Create? && ExternalGenesis(env, n, e, admitted).1.Accepted?
    ensures Ours(env, ExternalGenesis(env, n, e, admitted).0.At(SubjectIdOf(env.crypto, e.content)))
  {}

  lemma UnknownLeavesOurs(env: Env, n: Node, id: Digest, e: SignedEvent, sigs: set<Signature>, proof: Proof, admitted: bool)
    requires !e.content.request.content.Create? && n.db.Get(id).subject.None?
    ensures Ours(env, ExternalUnknown(env, n, id, e, sigs, proof, admitted).0.At(id))
  {}

  lemma KnownLeavesOurs(env: Env, n: Node, id: Digest, e: SignedEvent, sigs: set<Signature>, proof: Proof, admitted: bool)
    requires !e.content.request.content.Create? && Ours(env, n.At(id)) && n.StateOf(id).Some?
    requires Inv(env, id, n.At(id)) && Recorded(env, n, id)
    requires ExternalKnown(env, n, id, n.states[id], e, sigs, proof, admitted).1.Accepted?
    ensures Ours(env, ExternalKnown(env, n, id, n.states[id], e, sigs, proof, admitted).0.At(id))
  {
    var s := n.db.Get(id).subject.value;
    if e.content.sn == s.sn + 1 && n.states[id].head.None? {
      NextLeavesOurs(env, n, id, s, e, sigs, proof);
    } else {
      LaterLeavesOurs(env, n, id, s, e, sigs, proof);
    }
  }

  lemma SourcingLeavesOwned(env: Env, db: Db, id: Digest, e: Event)
    requires Sourceable(e, id) && Owned(env, db.Get(id).subject) && EventSourcing(env, db, e).Sourced?
    ensures Owned(env, EventSourcing(env, db, e).db.Get(id).subject)
  {}

  lemma CompleteLeavesOwned(env: Env, n: Node, id: Digest, s: Subject, h: nat)
    requires HeadOk(env, id, n.db.Get(id), h) && Owned(env, n.db.Get(id).subject)
    requires Complete(env, n, id, s, h).1.Accepted?
    ensures Owned(env, Complete(env, n, id, s, h).0.db.Get(id).subject)
  {
    SourcingLeavesOwned(env, n.db, id, n.db.Get(id).events[h].content);
  }

  lemma SourceNextLeavesOwned(env: Env, n: Node, id: Digest, c: nat, h: nat, e: SignedEvent)
    requires Sourceable(e.content, id) && HeadOk(env, id, n.db.Get(id), h) && Owned(env, n.db.Get(id).subject)
    requires SourceNext(env, n, id, c, h, e.content).1.Accepted?
    ensures Owned(env, SourceNext(env, n, id, c, h, e.content).0.db.Get(id).subject)
  {
    SourcingLeavesOwned(env, n.db, id, e.content);
    SourcingApplies(env, n.db, id, e.content);
    var x := EventSourcing(env, n.db, e.content);
    if h == c + 2 { CompleteLeavesOwned(env, n.(db := x.db), id, x.subject, h); }
  }

  lemma IntermediateLeavesOwned(env: Env, n: Node, id: Digest, e: SignedEvent)
    requires SubjectIdOf(env.crypto, e.content) == id && Inv(env, id, n.At(id)) && Owned(env, n.db.Get(id).subject)
    requires LedgerRefusals.ReachesStore(env, n, e) && IntermediateEvent(env, n, e).1.Accepted?
    ensures Owned(env, IntermediateEvent(env, n, e).0.db.Get(id).subject)
  {
    var h := n.states[id].head.value;
    match n.states[id].currentSn
    case Some(c) =>
      LedgerRefusals.ReachedNext(env, n, e, c);
      var stored := LedgerRefusals.Stored(env, n, e);
      assert stored.Get(id) == n.db.Get(id).SetEvent(e);
      SourceNextLeavesOwned(env, n.(db := stored), id, c, h, e);
    case None =>
      LedgerRefusals.ReachedGenesis(env, n, e);
      var db, s := LedgerRefusals.GenesisShape(env, n, id, h, e);
      if h == 1 { CompleteLeavesOwned(env, n.(db := db), id, s, 1); }
  }

  lemma IntermediateLeavesOurs(env: Env, n: Node, n': Node, id: Digest, e: SignedEvent)
    requires SubjectIdOf(env.crypto, e.content) == id && Inv(env, id, n.At(id)) && Ours(env, n.At(id))
    requires LedgerRefusals.ReachesStore(env, n, e) && IntermediateEvent(env, n, e) == (n', Accepted)
    ensures Ours(env, n'.At(id))
  {
    IntermediateKeeps(env, n, e);
    IntermediateLeavesOwned(env, n, id, e);
  }

  /** Whatever the ledger takes in that is orderly keeps its part of the invariant, and no other subject changes. */
  lemma LedgerStepKeeps(env: Env, n: Node, m: L.Message)
    requires NodeInv(env, n) && (forall id :: Ours(env, n.At(id))) && L.Orderly(env, n, m)
    requires OwnGenesisIsOurs(env, m)
    ensures var n', id := L.Step(env, n, m).0, SubjectIdOf(env.crypto, m.event.content);
      && NodeInv(env, n') && (forall k :: Ours(env, n'.At(k)))
      && (forall k :: k != id ==> n'.At(k) == n.At(k))
  {
    var n', id := L.Step(env, n, m).0, SubjectIdOf(env.crypto, m.event.content);
    L.StepKeeps(env, n, m);
    L.StepTouches(env, n, m);
    assert Inv(env, id, n.At(id)) && Recorded(env, n, id) && Ours(env, n.At(id));
    StepLeavesOurs(env, n, m);
    forall k | k != id ensures n'.At(k) == n.At(k) {}
    forall k ensures Ours(env, n'.At(k)) { if k != id { assert Ours(env, n.At(k)); } }
  }

  // ---- one step ----

  /** The database changes at one subject, which has no flow, and no flow is under it: the flows go on. */
  lemma OthersGoOn(env: Env, j: Joint, n': Node, id: Digest)
    requires JointInv(env, j) && NodeInv(env, n') && (forall k :: Ours(env, n'.At(k)))
    requires forall k :: k != id ==> n'.At(k) == j.node.At(k)
    requires id !in j.flow.completing && NoDependents(j, id)
    ensures JointInv(env, Joint(n', j.flow))
  {
    var w, w' := WorldOf(env, j.node), WorldOf(env, n');
    forall k | k in j.flow.completing
      ensures AgreeAt(w, w', k)
      ensures n'.StateOf(k) == j.node.StateOf(k) && n'.db.Get(k) == j.node.db.Get(k)
    {
      assert n'.At(k) == j.node.At(k);
      var g := C.GovernanceOf(j.node.db.Get(k).subject.value, k);
      assert n'.At(g) == j.node.At(g);
    }
    FlowFrame(w, w', j.flow);
  }

  lemma AlignedStays(env: Env, j: Joint, st: Flow, id: Digest)
    requires Aligned(j) && forall k :: k in st.completing ==> k in j.flow.completing || k == id
    requires id in st.completing ==>
      j.node.db.Get(id).subject.Some?
      && j.node.StateOf(id) == Some(LedgerState(Some(j.node.db.Get(id).subject.value.sn), Option.None))
    ensures Aligned(Joint(j.node, st))
  {}

  /** Which subjects can have a flow after a message to the completer: no new ones but a request's own. */
  lemma AdvanceKeys(w: C.World, st: Flow, id: Digest, s: Subject, version: nat, h: Digest, stage: Stage)
    requires id in st.completing
    ensures Advance(w.env, st, id, s, version, h, stage).0.completing.Keys == st.completing.Keys
  {
    var asked := StageOf(w.env.gov, MetadataOf(s, id, version), stage);
    if asked.Some? && asked.value.1 <= |asked.value.0| {
      var ph := Phase(stage, asked.value.0, asked.value.1, NegativeQuorum(|asked.value.0|, asked.value.1));
      assert Advance(w.env, st, id, s, version, h, stage).0.completing == st.completing[id := ph];
      assert st.completing[id := ph].Keys == st.completing.Keys + {id} == st.completing.Keys;
    }
  }

  lemma EvaluatedKeys(w: C.World, st: Flow, id: Digest, s: Subject, version: nat, req: EvaluationRequest, r: EvaluationResponse,
                      sigs: set<Signature>)
    requires id in st.completing
    ensures Evaluated(w.env, w.db, st, id, s, version, req, r, sigs).0.completing.Keys == st.completing.Keys
  {
    if s.sn in w.db.Get(id).events {
      var hashPrev := w.env.crypto.hashEvent(w.db.Get(id).events[s.sn].content);
      if r.apprRequired {
        AdvanceKeys(w, Propose(w.env.crypto, st, Proposal(req, r, s, version, hashPrev), sigs), id, s, version, r.evalReqHash, Approve);
      } else {
        var e := EvaluatedEvent(id, req, r, version, hashPrev, sigs);
        var proof := ProofOf(w.env.crypto, w.db, s, id, e, version);
        if proof.Some? {
          AdvanceKeys(w, Prevalidate(w.env.crypto, st, id, e, proof.value), id, s, version, r.evalReqHash, Validate);
        }
      }
    }
  }

  lemma RecordedKeys(w: C.World, st: Flow, id: Digest, s: Subject, version: nat, req: EvaluationRequest, ph: Phase, m: SignedResponse)
    requires id in st.completing
    ensures RecordedEvaluation(w.env, w.db, st, id, s, version, req, ph, m).0.completing.Keys == st.completing.Keys
  {
    var r := m.content;
    var es := Replaced(SetAt(st.evaluations, r.evalReqHash), Counted(m.signature, r.evalSuccess, ResponseHash(w.env.crypto, r)));
    var accepted := Reached(ph, es, ResponseHash(w.env.crypto, r));
    if accepted.Some? {
      EvaluatedKeys(w, st.(evaluations := st.evaluations[r.evalReqHash := es]), id, s, version, req, r,
        SignaturesOf(Matching(es, ResponseHash(w.env.crypto, r), accepted.value)));
    }
  }

  lemma EvaluationKeys(w: C.World, st: Flow, m: SignedResponse, live: Option<nat>)
    ensures EvaluatorSignatures(w.env, w.db, live, st, m).0.completing.Keys == st.completing.Keys
  {
    if EvaluationFault(w.env, w.db, live, st, m).None? {
      var req := st.preEvaluations[m.content.evalReqHash];
      var id := req.request.content.subjectId;
      RecordedKeys(w, st, id, w.db.Get(id).subject.value, live.value, req, st.completing[id], m);
    }
  }

  lemma DecidedKeys(w: C.World, st: Flow, id: Digest, s: Subject, ah: Digest, yes: bool, sigs: set<Signature>, live: Option<nat>)
    requires id in st.completing && ah in st.approvalRequests
    ensures Decided(w.env, w.db, live, st, id, s, ah, yes, sigs).0.completing.Keys == st.completing.Keys
  {}

  lemma ApprovalKeys(w: C.World, st: Flow, m: SignedApproval, live: Option<nat>, st': Flow)
    requires st' == ApproverSignatures(w.env, w.db, live, st, m).0
    ensures st'.completing.Keys == st.completing.Keys
  {
    if ApprovalFault(w.env, w.db, st, m).None? {
      ApprovalShape(w, st, m, live);
      var ah, yes := m.content.apprReqHash, m.content.approved;
      var id := st.approvalRequests[ah].request.content.subjectId;
      var vs := ReplacedVote(SetAt(st.approvals, ah), m);
      DecidedKeys(w, st.(approvals := st.approvals[ah := vs]), id, w.db.Get(id).subject.value, ah, yes,
        VoteSignatures(VotesFor(vs, yes)), live);
    }
  }

  lemma FactKeys(w: C.World, st: Flow, id: Digest, s: Subject, request: SignedRequest, version: nat)
    ensures NewFact(w.env, st, id, s, request, version).0.completing.Keys <= st.completing.Keys + {id}
  {}

  lemma PlainKeys(w: C.World, st: Flow, id: Digest, s: Subject, request: SignedRequest, version: nat)
    requires request.content.Transfer? || request.content.Eol?
    ensures NewPlain(w.env, w.db, st, id, s, request, version).0.completing.Keys <= st.completing.Keys + {id}
  {
    if s.sn in w.db.Get(id).events {
      AskedKeys(w, st, id, s, version,
        PlainEvent(w.env.crypto, s, request, version, w.env.crypto.hashEvent(w.db.Get(id).events[s.sn].content)));
    }
  }

  lemma AskedKeys(w: C.World, st: Flow, id: Digest, s: Subject, version: nat, e: Event)
    ensures AskValidation(w.env, w.db, st, id, s, version, e).0.completing.Keys <= st.completing.Keys + {id}
  {}

  lemma RequestKeys(w: C.World, st: Flow, request: SignedRequest, live: Option<nat>, k: Digest)
    requires k in PreNewEvent(w.env, w.db, live, st, request).0.completing
    ensures k in st.completing || (!request.content.Create? && k == request.content.subjectId && C.Of(w, k).Some?)
  {
    if !request.content.Create? && C.Of(w, request.content.subjectId).Some? && live.Some? {
      var id := request.content.subjectId;
      if request.content.Fact? { FactKeys(w, st, id, C.Of(w, id).value, request, live.value); }
      else { PlainKeys(w, st, id, C.Of(w, id).value, request, live.value); }
    }
  }

  lemma FlowsAfter(w: C.World, st: Flow, m: C.Message, k: Digest)
    requires k in C.Step(w, st, m).0.completing
    ensures k in st.completing || (m.Request? && !m.request.content.Create? && k == m.request.content.subjectId
                                   && C.Of(w, k).Some?)
  {
    var live, st' := C.LiveFor(w, st, m), C.Step(w, st, m).0;
    match m
    case Request(request) => RequestKeys(w, st, request, live, k);
    case Evaluation(response) => EvaluationKeys(w, st, response, live);
    case Approval(approval) => ApprovalKeys(w, st, approval, live, st');
    case Validation(h, sig, version) => C.ValidationShape(w, st, h, sig, version, live);
  }

  lemma RequestAskable(env: Env, j: Joint, request: SignedRequest, seal: Signature, gov: bool)
    requires JointInv(env, j) && Guard(env, j, ToCompleter(C.Request(request), seal, gov)) && !request.content.Create?
    ensures Askable(WorldOf(env, j.node), request.content.subjectId)
  {
    var id := request.content.subjectId;
    assert Inv(env, id, j.node.At(id)) && Ours(env, j.node.At(id));
  }

  /** What any message to the completer leaves of the flow. */
  lemma FlowStepKeeps(env: Env, j: Joint, m: Message, st: Flow, r: Result)
    requires C.EnvOk(env) && JointInv(env, j) && Guard(env, j, m) && m.ToCompleter?
    requires (st, r) == C.Step(WorldOf(env, j.node), j.flow, m.flow)
    ensures C.FlowInv(WorldOf(env, j.node), st) && Tidy(st)
    ensures r.ToLedger? ==> C.Handed(WorldOf(env, j.node), r.event, r.signatures, r.proof)
  {
    var w := WorldOf(env, j.node);
    SubjectsFiled(env, j.node);
    C.StepKeeps(w, j.flow, m.flow);
    if m.flow.Request? && !m.flow.request.content.Create? { RequestAskable(env, j, m.flow.request, m.seal, m.gov); }
    StepTidy(w, j.flow, m.flow);
  }

  lemma FlowStepAligned(env: Env, j: Joint, m: Message, st: Flow)
    requires Aligned(j) && Guard(env, j, m) && m.ToCompleter?
    requires st == C.Step(WorldOf(env, j.node), j.flow, m.flow).0
    ensures Aligned(Joint(j.node, st))
  {
    forall k | k in st.completing
      ensures j.node.db.Get(k).subject.Some?
           && j.node.StateOf(k) == Some(LedgerState(Some(j.node.db.Get(k).subject.value.sn), Option.None))
    {
      FlowsAfter(WorldOf(env, j.node), j.flow, m.flow, k);
    }
  }

  lemma CompleterStepKeeps(env: Env, j: Joint, m: Message, st: Flow, r: Result)
    requires C.EnvOk(env) && JointInv(env, j) && Guard(env, j, m) && m.ToCompleter?
    requires (st, r) == C.Step(WorldOf(env, j.node), j.flow, m.flow)
    ensures JointInv(env, Joint(j.node, st))
  {
    FlowStepKeeps(env, j, m, st, r);
    FlowStepAligned(env, j, m, st);
  }

  /** That a request is filed as known changes nothing the flows or the ledger rest on. */
  lemma BeganKeeps(env: Env, j: Joint, flow: C.Message, r: Result)
    requires JointInv(env, j)
    ensures JointInv(env, Joint(Began(env, j.node, flow, r), j.flow))
  {
    var n' := Began(env, j.node, flow, r);
    forall id ensures n'.At(id) == j.node.At(id) && Inv(env, id, n'.At(id)) && Recorded(env, n', id) && Ours(env, n'.At(id)) {
      assert Inv(env, id, j.node.At(id)) && Recorded(env, j.node, id) && Ours(env, j.node.At(id));
    }
    FlowFrame(WorldOf(env, j.node), WorldOf(env, n'), j.flow);
  }

  /** A hand-over: the event's subject has had its flow, the ledger takes the event in as its own, and every other flow
      goes on over the new database. */
  lemma HandOverKeeps(env: Env, j: Joint, m: Message, st: Flow, r: Result)
    requires C.EnvOk(env) && JointInv(env, j) && Guard(env, j, m) && m.ToCompleter?
    requires (st, r) == C.Step(WorldOf(env, j.node), j.flow, m.flow) && r.ToLedger?
    ensures JointInv(env, Joint(OwnEvent(env, j.node, SignedEvent(r.event, m.seal), r.signatures, r.proof, m.gov).0, st))
  {
    var own := L.Own(SignedEvent(r.event, m.seal), r.signatures, r.proof, m.gov);
    CompleterStepKeeps(env, j, m, st, r);
    OwnIsOrderly(env, j, m, st, r);
    TakenIn(env, Joint(j.node, st), own, L.Step(env, j.node, own).0);
  }

  lemma OwnIsOrderly(env: Env, j: Joint, m: Message, st: Flow, r: Result)
    requires C.EnvOk(env) && JointInv(env, j) && Guard(env, j, m) && m.ToCompleter?
    requires (st, r) == C.Step(WorldOf(env, j.node), j.flow, m.flow) && r.ToLedger?
    ensures L.Orderly(env, j.node, L.Own(SignedEvent(r.event, m.seal), r.signatures, r.proof, m.gov))
    ensures var id := SubjectIdOf(env.crypto, r.event); id !in st.completing && NoDependents(Joint(j.node, st), id)
  {
    HandedFits(env, j, m.flow, st, r);
  }

  lemma TakenIn(env: Env, j: Joint, own: L.Message, n': Node)
    requires JointInv(env, j) && L.Orderly(env, j.node, own) && OwnGenesisIsOurs(env, own) && n' == L.Step(env, j.node, own).0
    requires var id := SubjectIdOf(env.crypto, own.event.content); id !in j.flow.completing && NoDependents(j, id)
    ensures JointInv(env, Joint(n', j.flow))
  {
    LedgerStepKeeps(env, j.node, own);
    OthersGoOn(env, j, n', SubjectIdOf(env.crypto, own.event.content));
  }

  /** A hand-over is of a subject whose flow it ends, and is an own event as the ledger wants it. */
  lemma HandedFits(env: Env, j: Joint, m: C.Message, st: Flow, r: Result)
    requires C.EnvOk(env) && JointInv(env, j)
    requires (st, r) == C.Step(WorldOf(env, j.node), j.flow, m) && r.ToLedger?
    ensures C.Handed(WorldOf(env, j.node), r.event, r.signatures, r.proof)
    ensures var id := r.event.request.content.subjectId;
      && m.Validation? && m.eventHash in j.flow.toValidate && SubjectIdOf(env.crypto, j.flow.toValidate[m.eventHash]) == id
      && st.completing == j.flow.completing - {id}
      && !r.event.request.content.Create?
      && LedgerPreserved.OrderlyOwn(env, id, j.node.At(id), r.event, r.signatures, r.proof)
  {
    var w := WorldOf(env, j.node);
    SubjectsFiled(env, j.node);
    C.StepKeeps(w, j.flow, m);
    C.OnlyValidationsHandOver(w, j.flow, m);
    C.ValidationShape(w, j.flow, m.eventHash, m.signature, m.version, C.LiveFor(w, j.flow, m));
    C.HandedIsOrderly(w, r.event, r.signatures, r.proof, j.node.At(r.event.request.content.subjectId));
  }

  /** Every step keeps the whole node's invariant. */
  lemma StepKeeps(env: Env, j: Joint, m: Message)
    requires C.EnvOk(env) && JointInv(env, j) && Guard(env, j, m)
    ensures JointInv(env, Step(env, j, m))
  {
    match m
    case ToCompleter(flow, seal, gov) =>
      var (st, r) := C.Step(WorldOf(env, j.node), j.flow, flow);
      if r.ToLedger? { HandOverKeeps(env, j, m, st, r); } else {
        CompleterStepKeeps(env, j, m, st, r);
        BeganKeeps(env, Joint(j.node, st), flow, r);
      }
    case ToLedgerDirectly(ledger) =>
      TakenIn(env, j, ledger, L.Step(env, j.node, ledger).0);
  }

  // ---- runs ----

  function Run(env: Env, j: Joint, ms: seq<Message>): Joint
    decreases |ms|
  {
    if ms == [] then j else Run(env, Step(env, j, ms[0]), ms[1..])
  }

  ghost predicate GuardedRun(env: Env, j: Joint, ms: seq<Message>)
    decreases |ms|
  {
    ms == [] || (Guard(env, j, ms[0]) && GuardedRun(env, Step(env, j, ms[0]), ms[1..]))
  }

  lemma {:induction false} RunKeeps(env: Env, j: Joint, ms: seq<Message>)
    requires C.EnvOk(env) && JointInv(env, j) && GuardedRun(env, j, ms)
    ensures JointInv(env, Run(env, j, ms))
    decreases |ms|
  {
    if ms != [] {
      StepKeeps(env, j, ms[0]);
      RunKeeps(env, Step(env, j, ms[0]), ms[1..]);
    }
  }

  /** What is known as a request stays known. */
  lemma RequestsGrow(env: Env, j: Joint, m: Message)
    requires C.EnvOk(env) && JointInv(env, j) && Guard(env, j, m)
    ensures j.node.db.requests <= Step(env, j, m).node.db.requests
  {
    match m
    case ToCompleter(flow, seal, gov) =>
      var (st, r) := C.Step(WorldOf(env, j.node), j.flow, flow);
      if r.ToLedger? {
        OwnIsOrderly(env, j, m, st, r);
        L.StepTouches(env, j.node, L.Own(SignedEvent(r.event, seal), r.signatures, r.proof, gov));
      }
    case ToLedgerDirectly(ledger) =>
      L.StepTouches(env, j.node, ledger);
  }

  /** Work on one request never begins twice: once it has, the request is refused in any state a run leads to, even if its
      event has come to nothing. */
  lemma {:induction false} BegunOnce(env: Env, j: Joint, ms: seq<Message>, request: SignedRequest)
    requires C.EnvOk(env) && JointInv(env, j) && GuardedRun(env, j, ms)
    requires env.crypto.hashRequest(request) in j.node.db.requests
    ensures var after := Run(env, j, ms);
      var (st, r) := C.Step(WorldOf(env, after.node), after.flow, C.Request(request)); st == after.flow && r.Failed?
    decreases |ms|
  {
    if ms != [] {
      RequestsGrow(env, j, ms[0]);
      StepKeeps(env, j, ms[0]);
      BegunOnce(env, Step(env, j, ms[0]), ms[1..], request);
    }
  }

  // ---- what is handed over, here and elsewhere ----

  /** Both nodes are up to date on one and the same event of the subject. */
  ghost predicate StandTogether(env: Env, n: Node, env': Env, n': Node, id: Digest) {
    && A.SameNetwork(env, env') && n.StateOf(id).Some? && n.states[id].head.None? && n.states[id].currentSn.Some?
    && n'.StateOf(id) == n.StateOf(id)
    && var c, events, events' := n.states[id].currentSn.value, n.db.Get(id).events, n'.db.Get(id).events;
    c in events && c in events' && events[c].content == events'[c].content
  }

  /** Then they also hold the same public subject. */
  lemma TogetherIsSame(env: Env, n: Node, env': Env, n': Node, id: Digest)
    requires CollisionFree(env.crypto) && StandTogether(env, n, env', n', id)
    requires Inv(env, id, n.At(id)) && Inv(env', id, n'.At(id)) && Recorded(env', n', id)
    ensures D.StandsWith(WorldOf(env, n), env', n', id)
  {
    A.SameLastEvent(env, env', id, n.At(id), n'.At(id), n.states[id].currentSn.value);
  }

  /** The patch of a fact whose evaluation failed, of which the completer has not made sure, applies. */
  predicate FailedStillApplies(env: Env, s: Subject, e: Event) {
    e.request.content.Fact? && e.approved && !e.evalSuccess ==> env.crypto.patch(s.properties, e.patch).Some?
  }

  /** The node's ledger takes a handed-over event in exactly when it can be carried out. */
  ghost predicate TakenHere(env: Env, n: Node, r: Result, seal: Signature, gov: bool)
    requires r.ToLedger? && !r.event.request.content.Create?
  {
    var s := n.db.Get(r.event.request.content.subjectId).subject;
    && s.Some?
    && (OwnEvent(env, n, SignedEvent(r.event, seal), r.signatures, r.proof, gov).1.Accepted?
        <==> FailedStillApplies(env, s.value, r.event) && LedgerClosing.KeyHeld(env, n.db.keys, r.event))
  }

  /** Another node that stands where this one does takes it in exactly when besides that an end of life is not the doing of an
      owner who is not the creator; and if both nodes take it in they stand together again. */
  ghost predicate TakenElsewhere(env: Env, n: Node, r: Result, seal: Signature, gov: bool, env': Env, n': Node)
    requires r.ToLedger? && !r.event.request.content.Create?
  {
    var e, id := SignedEvent(r.event, seal), r.event.request.content.subjectId;
    var (own, here) := OwnEvent(env, n, e, r.signatures, r.proof, gov);
    var (other, elsewhere) := ExternalEvent(env', n', e, r.signatures, r.proof, true);
    && n.db.Get(id).subject.Some?
    && var s := n.db.Get(id).subject.value;
    && (elsewhere.Accepted? <==>
          && (r.event.request.content.Eol? ==> s.creator == s.owner)
          && FailedStillApplies(env, s, r.event) && LedgerClosing.KeyHeld(env', n'.db.keys, r.event))
    && (elsewhere.Accepted? ==> Inv(env', id, other.At(id)))
    && (here.Accepted? && elsewhere.Accepted? ==> StandTogether(env, own, env', other, id))
  }

  /** Whoever this node's completer let make the request, other nodes do, but for the end of life of an owner who is not
      the creator. */
  lemma OwnersArePermitted(env: Env, n: Node, e: Event, ss: set<Signature>, proof: Proof)
    requires C.Handed(WorldOf(env, n), e, ss, proof) && Ours(env, n.At(e.request.content.subjectId))
    ensures var s := n.db.Get(e.request.content.subjectId).subject.value;
      && (D.Permitted(env, s, proof.GetMetadata(), e) <==> (e.request.content.Eol? ==> s.creator == s.owner))
      && forall keys, env': Env :: env'.crypto == env.crypto ==>
           (D.CanApply(env', keys, s, e) <==> FailedStillApplies(env, s, e) && LedgerClosing.KeyHeld(env', keys, e))
  {
    var id := e.request.content.subjectId;
    var w := WorldOf(env, n);
    assert proof.GetMetadata() == MetadataOf(C.Of(w, id).value, id, C.Version(w, id));
  }

  lemma OwnEffectExactly(env: Env, n: Node, e: Event)
    requires C.EventOk(WorldOf(env, n), e)
    ensures var s := n.db.Get(e.request.content.subjectId).subject.value;
      OwnEffect(env, n.db, s, e).Effect? <==> FailedStillApplies(env, s, e) && LedgerClosing.KeyHeld(env, n.db.keys, e)
  {}

  lemma OwnEventShape(env: Env, n: Node, id: Digest, c: nat, s: Subject, e: SignedEvent, sigs: set<Signature>, proof: Proof, gov: bool)
    requires !e.content.request.content.Create? && e.content.request.content.subjectId == id
    requires n.db.Get(id).subject == Some(s) && n.StateOf(id) == Some(LedgerState(Some(c), Option.None)) && e.content.sn == c + 1
    ensures var (n', r) := OwnEvent(env, n, e, sigs, proof, gov);
      && (r.Accepted? <==> OwnEffect(env, n.db, s, e.content).Effect?)
      && (r.Accepted? ==>
            && n'.StateOf(id) == Some(LedgerState(Some(c + 1), Option.None))
            && c + 1 in n'.db.Get(id).events && n'.db.Get(id).events[c + 1] == e)
  {}

  lemma IsTakenHere(env: Env, n: Node, r: Result, seal: Signature, gov: bool)
    requires r.ToLedger? && C.EventOk(WorldOf(env, n), r.event)
    requires LedgerPreserved.OrderlyOwn(env, r.event.request.content.subjectId, n.At(r.event.request.content.subjectId), r.event,
               r.signatures, r.proof)
    ensures TakenHere(env, n, r, seal, gov)
    ensures var (own, here), id := OwnEvent(env, n, SignedEvent(r.event, seal), r.signatures, r.proof, gov),
              r.event.request.content.subjectId;
      here.Accepted? ==>
        && own.StateOf(id) == Some(LedgerState(Some(r.event.sn), Option.None))
        && r.event.sn in own.db.Get(id).events && own.db.Get(id).events[r.event.sn].content == r.event
  {
    var id := r.event.request.content.subjectId;
    OwnEffectExactly(env, n, r.event);
    OwnEventShape(env, n, id, n.states[id].currentSn.value, n.db.Get(id).subject.value, SignedEvent(r.event, seal),
      r.signatures, r.proof, gov);
  }

  lemma AcceptedElsewhere(env: Env, n: Node, r: Result, seal: Signature, env': Env, n': Node)
    requires C.EnvOk(env) && r.ToLedger? && C.Handed(WorldOf(env, n), r.event, r.signatures, r.proof)
    requires var id := r.event.request.content.subjectId;
      && Ours(env, n.At(id)) && D.StandsWith(WorldOf(env, n), env', n', id) && Inv(env', id, n'.At(id)) && Recorded(env', n', id)
    requires env.crypto.hashRequest(r.event.request) !in n'.db.requests && env.crypto.verifies(seal, OfEvent(r.event))
    ensures var id, s := r.event.request.content.subjectId, n.db.Get(r.event.request.content.subjectId).subject.value;
      var (other, elsewhere) := ExternalEvent(env', n', SignedEvent(r.event, seal), r.signatures, r.proof, true);
      && (elsewhere.Accepted? <==>
            && (r.event.request.content.Eol? ==> s.creator == s.owner)
            && FailedStillApplies(env, s, r.event) && LedgerClosing.KeyHeld(env', n'.db.keys, r.event))
      && (elsewhere.Accepted? ==>
            && Inv(env', id, other.At(id)) && other.StateOf(id) == Some(LedgerState(Some(r.event.sn), Option.None))
            && r.event.sn in other.db.Get(id).events && other.db.Get(id).events[r.event.sn].content == r.event)
  {
    var w := WorldOf(env, n);
    D.DeliveredExactly(w, r.event, r.signatures, r.proof, env', n', seal);
    OwnersArePermitted(env, n, r.event, r.signatures, r.proof);
    if ExternalEvent(env', n', SignedEvent(r.event, seal), r.signatures, r.proof, true).1.Accepted? {
      D.DeliveredStands(w, r.event, r.signatures, r.proof, env', n', seal);
    }
  }

  lemma IsTakenElsewhere(env: Env, j: Joint, r: Result, seal: Signature, gov: bool, env': Env, n': Node)
    requires C.EnvOk(env) && JointInv(env, j) && r.ToLedger? && C.Handed(WorldOf(env, j.node), r.event, r.signatures, r.proof)
    requires var id := r.event.request.content.subjectId;
      && LedgerPreserved.OrderlyOwn(env, id, j.node.At(id), r.event, r.signatures, r.proof)
      && StandTogether(env, j.node, env', n', id) && Inv(env', id, n'.At(id)) && Recorded(env', n', id)
    requires env.crypto.hashRequest(r.event.request) !in n'.db.requests && env.crypto.verifies(seal, OfEvent(r.event))
    ensures TakenElsewhere(env, j.node, r, seal, gov, env', n')
  {
    var id := r.event.request.content.subjectId;
    assert Inv(env, id, j.node.At(id)) && Ours(env, j.node.At(id));
    TogetherIsSame(env, j.node, env', n', id);
    AcceptedElsewhere(env, j.node, r, seal, env', n');
    IsTakenHere(env, j.node, r, seal, gov);
  }

  /** What the completer hands over is certified, and is an own event the ledger's invariant asks for and takes in if it can
      be carried out. */
  ghost predicate HandsOverWell(env: Env, j: Joint, r: Result, seal: Signature, gov: bool) {
    r.ToLedger? ==>
      && C.Handed(WorldOf(env, j.node), r.event, r.signatures, r.proof)
      && var id := r.event.request.content.subjectId;
      && LedgerPreserved.OrderlyOwn(env, id, j.node.At(id), r.event, r.signatures, r.proof)
      && TakenHere(env, j.node, r, seal, gov)
  }

  /** Brought to another node of the network that stands where this one does, that knows nothing of the request yet. */
  ghost predicate AgreesElsewhere(env: Env, j: Joint, r: Result, seal: Signature, gov: bool, env': Env, n': Node) {
    r.ToLedger? && !r.event.request.content.Create? && NodeInv(env', n')
    && StandTogether(env, j.node, env', n', r.event.request.content.subjectId)
    && env.crypto.hashRequest(r.event.request) !in n'.db.requests && env.crypto.verifies(seal, OfEvent(r.event)) ==>
      TakenElsewhere(env, j.node, r, seal, gov, env', n')
  }

  /** Completer, verifier and ledger agree, here and elsewhere. Over any guarded run from a new node, with any number of events
      of any subjects and under changing governance versions: the ledger's invariant holds throughout; every event under
      validation passes another node's check of its evaluation and approval; and whatever the next message makes the completer
      hand over is taken in by its own ledger exactly when it can be carried out, and by any other node that stands on the
      same event exactly when besides that an end of life comes from the creator. */
  lemma CompleterAgrees(env: Env, keys: map<Key, KeyPair>, requests: set<Digest>, ms: seq<Message>, m: C.Message, h: Digest,
                        seal: Signature, gov: bool, env': Env, n': Node)
    requires C.EnvOk(env) && GuardedRun(env, Joint(L.NewNode(keys, requests), IDLE), ms)
    ensures var j := Run(env, Joint(L.NewNode(keys, requests), IDLE), ms);
      && NodeInv(env, j.node)
      && (h in j.flow.toValidate ==> C.EventOk(WorldOf(env, j.node), j.flow.toValidate[h]))
      && HandsOverWell(env, j, C.Step(WorldOf(env, j.node), j.flow, m).1, seal, gov)
      && AgreesElsewhere(env, j, C.Step(WorldOf(env, j.node), j.flow, m).1, seal, gov, env', n')
  {
    var start := Joint(L.NewNode(keys, requests), IDLE);
    StartInv(env, keys, requests);
    RunKeeps(env, start, ms);
    AgreesNow(env, Run(env, start, ms), m, h, seal, gov, env', n');
  }

  lemma AgreesNow(env: Env, j: Joint, m: C.Message, h: Digest, seal: Signature, gov: bool, env': Env, n': Node)
    requires C.EnvOk(env) && JointInv(env, j)
    ensures h in j.flow.toValidate ==> C.EventOk(WorldOf(env, j.node), j.flow.toValidate[h])
    ensures HandsOverWell(env, j, C.Step(WorldOf(env, j.node), j.flow, m).1, seal, gov)
    ensures AgreesElsewhere(env, j, C.Step(WorldOf(env, j.node), j.flow, m).1, seal, gov, env', n')
  {
    if h in j.flow.toValidate { assert C.EventCheck(WorldOf(env, j.node))(j.flow.toValidate[h]); }
    var (st, r) := C.Step(WorldOf(env, j.node), j.flow, m);
    if r.ToLedger? {
      HandedFits(env, j, m, st, r);
      IsTakenHere(env, j.node, r, seal, gov);
      var id := r.event.request.content.subjectId;
      if NodeInv(env', n') && StandTogether(env, j.node, env', n', id) && env.crypto.hashRequest(r.event.request) !in n'.db.requests
         && env.crypto.verifies(seal, OfEvent(r.event)) {
        assert Inv(env', id, n'.At(id)) && Recorded(env', n', id);
        IsTakenElsewhere(env, j, r, seal, gov, env', n');
      }
    }
  }

  lemma StartInv(env: Env, keys: map<Key, KeyPair>, requests: set<Digest>)
    ensures JointInv(env, Joint(L.NewNode(keys, requests), IDLE))
  {
    var n := L.NewNode(keys, requests);
    forall id ensures Inv(env, id, n.At(id)) && Recorded(env, n, id) && Ours(env, n.At(id)) {
      assert n.db.Get(id) == NO_ROWS;
    }
  }
}
