/** When an event the completer has built passes the checks of another node. */
module CompleterEvents {
  import opened Protocol
  import opened Quorum
  import opened Verify
  import opened Completer

  // ---- recorded evaluations ----

  /** This entry stands for a verified response to the request h. */
  ghost predicate Backed(c: Crypto, h: Digest, e: Counted) {
    exists r: EvaluationResponse ::
      && c.verifies(e.signature, OfEvaluation(r))
      && r.evalReqHash == h && ResponseHash(c, r) == e.hash && r.evalSuccess == e.accepted
  }

  ghost predicate TallyOk(c: Crypto, h: Digest, allowed: set<Key>, es: set<Counted>) {
    && (forall e :: e in es ==> e.signature.signer in allowed && Backed(c, h, e))
    && (forall e, f :: e in es && f in es && SameEntry(e, f) ==> e == f)
  }

  lemma TallyReplaced(c: Crypto, allowed: set<Key>, es: set<Counted>, m: SignedResponse)
    requires TallyOk(c, m.content.evalReqHash, allowed, es)
    requires m.signature.signer in allowed && c.verifies(m.signature, OfEvaluation(m.content))
    ensures TallyOk(c, m.content.evalReqHash, allowed,
      Replaced(es, Counted(m.signature, m.content.evalSuccess, ResponseHash(c, m.content))))
  {
    assert Backed(c, m.content.evalReqHash, Counted(m.signature, m.content.evalSuccess, ResponseHash(c, m.content)));
  }

  /** One entry a signer: counting entries counts signers. */
  lemma MatchingCountsSigners(c: Crypto, h: Digest, allowed: set<Key>, es: set<Counted>, hash: Digest, accepted: bool)
    requires TallyOk(c, h, allowed, es)
    ensures var sigs := SignaturesOf(Matching(es, hash, accepted));
      DistinctSigners(sigs) && Signers(sigs) <= allowed && |Signers(sigs)| == |Matching(es, hash, accepted)|
  {
    var ms := Matching(es, hash, accepted);
    var f := (e: Counted) => e.signature.signer;
    ImageSize(ms, f);
    var image := Image(ms, f);
    forall k | k in image ensures k in Signers(SignaturesOf(ms)) {
      var e :| e in ms && f(e) == k;
      assert e.signature in SignaturesOf(ms);
    }
    assert Signers(SignaturesOf(ms)) == image;
  }

  /** The response hash fixes everything of a response but its patch. */
  lemma BackedByHash(c: Crypto, r: EvaluationResponse, e: Counted)
    requires CollisionFree(c) && Backed(c, r.evalReqHash, e) && e.hash == ResponseHash(c, r)
    ensures e.accepted == r.evalSuccess
    ensures exists p :: c.verifies(e.signature, OfEvaluation(r.(patch := p)))
  {
    var x: EvaluationResponse :| c.verifies(e.signature, OfEvaluation(x))
      && x.evalReqHash == r.evalReqHash && ResponseHash(c, x) == e.hash && x.evalSuccess == e.accepted;
    assert x == r.(patch := x.patch);
  }

  /** Whoever is counted evaluated to the same patch as r. */
  ghost predicate SamePatch(c: Crypto, sigs: set<Signature>, r: EvaluationResponse) {
    forall s, x: EvaluationResponse :: s in sigs && c.verifies(s, OfEvaluation(x)) ==> x.patch == r.patch
  }

  /** The evaluators counted when r completes the quorum satisfy a verifier exactly when all of them evaluated to
      r's patch; and, with a quorum of zero, only if r succeeded. */
  lemma EvaluatorsHold(c: Crypto, r: EvaluationResponse, allowed: set<Key>, ph: Phase, es: set<Counted>,
                       signature: Signature, accepted: bool)
    requires CollisionFree(c) && SignaturesBind(c)
    requires TallyOk(c, r.evalReqHash, allowed, es) && Counted(signature, r.evalSuccess, ResponseHash(c, r)) in es
    requires ph.quorum <= |allowed| && ph.negQuorum == NegativeQuorum(|allowed|, ph.quorum)
    requires Reached(ph, es, ResponseHash(c, r)) == Some(accepted)
    ensures var sigs := SignaturesOf(Matching(es, ResponseHash(c, r), accepted));
      StageHolds(c, sigs, OfEvaluation(r), allowed, if r.evalSuccess then ph.quorum else ph.negQuorum)
      <==> (ph.quorum >= 1 || r.evalSuccess) && SamePatch(c, sigs, r)
    ensures var sigs := SignaturesOf(Matching(es, ResponseHash(c, r), accepted));
      (sigs == {} ==> !r.evalSuccess && ph.quorum == 0)
      && forall s :: s in sigs ==> exists p :: c.verifies(s, OfEvaluation(r.(patch := p)))
  {
    var hash := ResponseHash(c, r);
    var ms := Matching(es, hash, accepted);
    var sigs := SignaturesOf(ms);
    MatchingCountsSigners(c, r.evalReqHash, allowed, es, hash, accepted);
    forall e | e in es && e.hash == hash
      ensures e.accepted == r.evalSuccess && exists p :: c.verifies(e.signature, OfEvaluation(r.(patch := p)))
    {
      BackedByHash(c, r, e);
    }
    if accepted != r.evalSuccess {
      assert ms == {};
    } else {
      assert signature in sigs;
      if SamePatch(c, sigs, r) {
        forall s | s in sigs ensures c.verifies(s, OfEvaluation(r)) {
          var p :| c.verifies(s, OfEvaluation(r.(patch := p)));
          assert r.(patch := p).patch == r.patch;
        }
      }
    }
  }

  /** Signatures on responses to one request are no quorum for another request. */
  lemma OtherRequestFails(c: Crypto, r: EvaluationResponse, seen: EvaluationResponse, sigs: set<Signature>)
    requires SignaturesBind(c) && seen.evalReqHash != r.evalReqHash
    requires forall s :: s in sigs ==> exists p :: c.verifies(s, OfEvaluation(r.(patch := p)))
    ensures sigs == {} || exists s :: s in sigs && !c.verifies(s, OfEvaluation(seen))
  {
    if sigs != {} {
      var s :| s in sigs;
      var p :| c.verifies(s, OfEvaluation(r.(patch := p)));
      assert !c.verifies(s, OfEvaluation(seen));
    }
  }

  /** An event that goes from evaluation straight to validation passes another node's check exactly when governance's
      version is still the one evaluated for and the counted evaluators agree on the patch. */
  lemma EvaluatedEventVerifies(c: Crypto, id: Digest, req: EvaluationRequest, r: EvaluationResponse, version: nat,
                               hashPrev: Digest, allowed: set<Key>, ph: Phase, es: set<Counted>, signature: Signature,
                               accepted: bool, appr: StageInfo)
    requires CollisionFree(c) && SignaturesBind(c)
    requires r.evalReqHash == c.hashEvaluation(req) && req.request.content.Fact? && !r.apprRequired
    requires TallyOk(c, r.evalReqHash, allowed, es) && Counted(signature, r.evalSuccess, ResponseHash(c, r)) in es
    requires ph.quorum <= |allowed| && ph.negQuorum == NegativeQuorum(|allowed|, ph.quorum)
    requires Reached(ph, es, ResponseHash(c, r)) == Some(accepted)
    ensures var sigs := SignaturesOf(Matching(es, ResponseHash(c, r), accepted));
      VerifyEvalAppr(c, EvaluatedEvent(id, req, r, version, hashPrev, sigs), req.context,
        StageInfo(allowed, ph.quorum, ph.negQuorum), appr)
      <==> version == req.govVersion && (ph.quorum >= 1 || r.evalSuccess) && SamePatch(c, sigs, r)
  {
    var sigs := SignaturesOf(Matching(es, ResponseHash(c, r), accepted));
    var e := EvaluatedEvent(id, req, r, version, hashPrev, sigs);
    var seen := EvaluationOf(c, e, req.context);
    EvaluatorsHold(c, r, allowed, ph, es, signature, accepted);
    if version == req.govVersion {
      assert req == EvaluationRequest(e.request, req.context, e.sn, e.govVersion);
      assert seen == r;
    } else {
      assert seen.evalReqHash != r.evalReqHash;
      OtherRequestFails(c, r, seen, sigs);
    }
  }

  // ---- recorded votes ----

  ghost predicate VotesOk(c: Crypto, ah: Digest, allowed: set<Key>, vs: set<SignedApproval>) {
    && (forall v :: v in vs ==> v.signature.signer in allowed && v.content.apprReqHash == ah
                                && c.verifies(v.signature, OfApproval(v.content)))
    && (forall v, w :: v in vs && w in vs && v.signature.signer == w.signature.signer ==> v == w)
  }

  lemma VotesCountSigners(c: Crypto, ah: Digest, allowed: set<Key>, vs: set<SignedApproval>, yes: bool)
    requires VotesOk(c, ah, allowed, vs)
    ensures var sigs := VoteSignatures(VotesFor(vs, yes));
      && DistinctSigners(sigs) && Signers(sigs) <= allowed && |Signers(sigs)| == |VotesFor(vs, yes)|
      && forall s :: s in sigs ==> c.verifies(s, OfApproval(ApprovalResponse(ah, yes)))
  {
    var ms := VotesFor(vs, yes);
    var f := (v: SignedApproval) => v.signature.signer;
    ImageSize(ms, f);
    var image := Image(ms, f);
    forall k | k in image ensures k in Signers(VoteSignatures(ms)) {
      var v :| v in ms && f(v) == k;
      assert v.signature in VoteSignatures(ms);
    }
    assert Signers(VoteSignatures(ms)) == image;
    forall s | s in VoteSignatures(ms) ensures c.verifies(s, OfApproval(ApprovalResponse(ah, yes))) {
      var v :| v in ms && v.signature == s;
      assert v.content == ApprovalResponse(ah, yes);
    }
  }

  /** The response the evaluators of a proposal gave. */
  function ProposedResponse(c: Crypto, areq: ApprovalRequest, ctx: SubjectContext): EvaluationResponse {
    EvaluationResponse(areq.patch, c.hashEvaluation(EvaluationRequest(areq.request, ctx, areq.sn, areq.govVersion)),
      areq.stateHash, true, true)
  }

  /** An event that went through approval passes another node's check exactly when governance's version is still the
      proposal's and the proposal's evaluators hold. */
  lemma DecidedEventVerifies(c: Crypto, id: Digest, areq: ApprovalRequest, version: nat, yes: bool,
                             evaluators: set<Signature>, vs: set<SignedApproval>, ctx: SubjectContext,
                             eval: StageInfo, appr: StageInfo)
    requires CollisionFree(c) && SignaturesBind(c)
    requires areq.request.content.Fact? && areq.govId == ctx.governanceId
    requires VotesOk(c, c.hashApproval(areq), appr.signers, vs)
    requires VotesFor(vs, yes) != {} && |VotesFor(vs, yes)| >= (if yes then appr.quorum else appr.negQuorum)
    ensures VerifyEvalAppr(c, DecidedEvent(id, areq, version, yes, evaluators, VoteSignatures(VotesFor(vs, yes))), ctx, eval, appr)
      <==> version == areq.govVersion
           && StageHolds(c, evaluators, OfEvaluation(ProposedResponse(c, areq, ctx)), eval.signers, eval.quorum)
  {
    var sigs := VoteSignatures(VotesFor(vs, yes));
    var e := DecidedEvent(id, areq, version, yes, evaluators, sigs);
    VotesCountSigners(c, c.hashApproval(areq), appr.signers, vs, yes);
    if version == areq.govVersion {
      assert ApprovalRequestOf(e, ctx.governanceId) == areq;
      assert EvaluationOf(c, e, ctx) == ProposedResponse(c, areq, ctx);
    } else {
      var v :| v in VotesFor(vs, yes);
      assert v.signature in sigs;
      assert c.hashApproval(ApprovalRequestOf(e, ctx.governanceId)) != c.hashApproval(areq);
      assert !c.verifies(v.signature, OfApproval(ApprovalOf(c, e, ctx.governanceId)));
    }
  }
}
