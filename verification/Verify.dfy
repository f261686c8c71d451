/** What a node checks of the evaluation and the approval of an event it did not build. */
module Verify {
  import opened Protocol
  import opened Quorum

  /** Who may sign a stage, and how many must for a yes and for a no. */
  datatype StageInfo = StageInfo(signers: set<Key>, quorum: nat, negQuorum: nat)

  datatype Verdict = Passed | RepeatedSigner | BadSignature | WrongSigner | NotEnough

  function EvaluationOf(c: Crypto, e: Event, ctx: SubjectContext): EvaluationResponse {
    EvaluationResponse(e.patch, c.hashEvaluation(EvaluationRequest(e.request, ctx, e.sn, e.govVersion)),
      e.stateHash, e.evalSuccess, e.apprRequired)
  }

  function ApprovalRequestOf(e: Event, govId: Digest): ApprovalRequest {
    ApprovalRequest(e.request, e.sn, e.govVersion, e.patch, e.stateHash, e.hashPrev, govId)
  }

  function ApprovalOf(c: Crypto, e: Event, govId: Digest): ApprovalResponse {
    ApprovalResponse(c.hashApproval(ApprovalRequestOf(e, govId)), e.approved)
  }

  predicate DistinctSigners(sigs: set<Signature>) {
    forall a, b :: a in sigs && b in sigs && a.signer == b.signer ==> a == b
  }

  /** One stage holds: distinct, allowed signers, every signature over this content, enough of them. */
  predicate StageHolds(c: Crypto, sigs: set<Signature>, content: Content, allowed: set<Key>, quorum: nat) {
    && DistinctSigners(sigs)
    && (forall s :: s in sigs ==> c.verifies(s, content))
    && Signers(sigs) <= allowed
    && |Signers(sigs)| >= quorum
  }

  predicate EvaluationHolds(c: Crypto, e: Event, ctx: SubjectContext, eval: StageInfo) {
    StageHolds(c, e.evaluators, OfEvaluation(EvaluationOf(c, e, ctx)), eval.signers,
      if e.evalSuccess then eval.quorum else eval.negQuorum)
  }

  predicate ApprovalHolds(c: Crypto, e: Event, govId: Digest, appr: StageInfo) {
    StageHolds(c, e.approvers, OfApproval(ApprovalOf(c, e, govId)), appr.signers,
      if e.approved then appr.quorum else appr.negQuorum)
  }

  /** `Signed<Event>::verify_eval_appr` returns `Ok`. */
  predicate VerifyEvalAppr(c: Crypto, e: Event, ctx: SubjectContext, eval: StageInfo, appr: StageInfo) {
    || (!e.request.content.RequiresEvalAppr() && e.evalSuccess && e.approved && !e.apprRequired)
    || (EvaluationHolds(c, e, ctx, eval)
        && ((e.approved && !e.apprRequired) || ApprovalHolds(c, e, ctx.governanceId, appr)))
  }

  /** The loop over one signature set. Which fault is reported first depends on the set's iteration order. */
  method CheckStage(c: Crypto, sigs: set<Signature>, content: Content, allowed: set<Key>, quorum: nat)
    returns (v: Verdict)
    ensures v.Passed? <==> StageHolds(c, sigs, content, allowed, quorum)
  {
    var seen: set<Key> := {};
    var rest := sigs;
    while rest != {}
      invariant rest <= sigs
      invariant seen == Signers(sigs - rest)
      invariant forall s :: s in sigs - rest ==> c.verifies(s, content)
      invariant forall a, b :: a in sigs - rest && b in sigs - rest && a.signer == b.signer ==> a == b
      decreases rest
    {
      var s :| s in rest;
      if s.signer in seen {
        ghost var t :| t in sigs - rest && t.signer == s.signer;
        return RepeatedSigner;
      }
      seen := seen + {s.signer};
      if !c.verifies(s, content) { return BadSignature; }
      assert sigs - (rest - {s}) == (sigs - rest) + {s};
      rest := rest - {s};
    }
    assert sigs - rest == sigs;
    if !(seen <= allowed) { return WrongSigner; }
    v := if |seen| < quorum then NotEnough else Passed;
  }

  method RunVerifyEvalAppr(c: Crypto, e: Event, ctx: SubjectContext, eval: StageInfo, appr: StageInfo)
    returns (v: Verdict)
    ensures v.Passed? <==> VerifyEvalAppr(c, e, ctx, eval, appr)
  {
    if !e.request.content.RequiresEvalAppr() && e.evalSuccess && e.approved && !e.apprRequired {
      return Passed;
    }
    v := CheckStage(c, e.evaluators, OfEvaluation(EvaluationOf(c, e, ctx)), eval.signers,
      if e.evalSuccess then eval.quorum else eval.negQuorum);
    if !v.Passed? || (e.approved && !e.apprRequired) { return; }
    v := CheckStage(c, e.approvers, OfApproval(ApprovalOf(c, e, ctx.governanceId)), appr.signers,
      if e.approved then appr.quorum else appr.negQuorum);
  }

  /** Someone allowed to approve signed both answers to the same request. */
  ghost predicate SignedBothAnswers(c: Crypto, k: Key, request: Digest, yes: set<Signature>, no: set<Signature>) {
    exists a, b ::
      && a in yes && b in no && a.signer == b.signer == k
      && c.verifies(a, OfApproval(ApprovalResponse(request, true)))
      && c.verifies(b, OfApproval(ApprovalResponse(request, false)))
  }

  /** One approval request cannot give an approved and a rejected event unless an approver answered both ways. */
  lemma NoTwoOutcomes(c: Crypto, yes: Event, no: Event, ctx: SubjectContext,
                      eval: StageInfo, appr: StageInfo) returns (k: Key)
    requires appr.quorum <= |appr.signers| && appr.negQuorum == NegativeQuorum(|appr.signers|, appr.quorum)
    requires yes.approved && yes.apprRequired && !no.approved
    requires ApprovalRequestOf(yes, ctx.governanceId) == ApprovalRequestOf(no, ctx.governanceId)
    requires VerifyEvalAppr(c, yes, ctx, eval, appr) && VerifyEvalAppr(c, no, ctx, eval, appr)
    ensures k in appr.signers
    ensures SignedBothAnswers(c, k, c.hashApproval(ApprovalRequestOf(yes, ctx.governanceId)), yes.approvers, no.approvers)
  {
    Pigeonhole(Signers(yes.approvers), Signers(no.approvers), appr.signers);
    k :| k in Signers(yes.approvers) * Signers(no.approvers);
    var a :| a in yes.approvers && a.signer == k;
    var b :| b in no.approvers && b.signer == k;
    assert c.verifies(a, OfApproval(ApprovalOf(c, yes, ctx.governanceId)));
    assert c.verifies(b, OfApproval(ApprovalOf(c, no, ctx.governanceId)));
  }
}
