/** What becomes of a handed-over event at another node of the network. */
module Delivery {
  import opened Protocol
  import opened Subjects
  import opened Verify
  import opened Store
  import opened LedgerSteps
  import opened LedgerInvariant
  import LedgerPreserved
  import opened LedgerClosing
  import opened Agreement
  import opened Completer
  import opened CompleterRuns
  import opened CompleterFrames

  /** The other node's replica of the subject stands where this node's does: on the same event, with the same public state. */
  ghost predicate StandsWith(w: World, env': Env, n': Node, id: Digest) {
    && SameNetwork(w.env, env') && Of(w, id).Some? && id in n'.isGov
    && var s, rows, rows' := Of(w, id).value, w.db.Get(id), n'.db.Get(id);
    && n'.StateOf(id) == Some(LedgerState(Some(s.sn), Option.None))
    && rows'.subject.Some? && rows'.subject.value.Public() == s.Public() && s.subjectId == id
    && s.sn in rows.events && s.sn in rows'.events && rows'.events[s.sn].content == rows.events[s.sn].content
  }

  /** What a ledger asks of the signer of a request: for the end of life to be the creator, where the completer asks for the
      owner; for a fact to be the owner or allowed to invoke, where the completer takes its own key for the owner's. */
  predicate Permitted(env: Env, s: Subject, meta: Metadata, e: Event) {
    var signer := e.request.signature.signer;
    && (e.request.content.Eol? ==> s.creator == signer)
    && (e.request.content.Fact? ==> s.owner == signer || env.gov.mayInvoke(meta, Invoke, signer) == Some(true))
  }

  /** The event can be carried out: its patch applies, and a transfer to the node finds its key pair there. */
  predicate CanApply(env: Env, keys: map<Key, KeyPair>, s: Subject, e: Event) {
    && (e.request.content.Fact? && e.approved ==> env.crypto.patch(s.properties, e.patch).Some?)
    && KeyHeld(env, keys, e)
  }

  // ---- check by check ----

  /** An end of life has neither evaluation nor approval to check, but governance has to answer for both. */
  lemma PlainPasses(env: Env, e: Event, meta: Metadata, ctx: SubjectContext)
    requires ReachableQuorums(env) && AnswersAllStages(env) && StageOf(env.gov, meta, Validate).Some?
    requires e.request.content.Eol? && CheckTransfer(e).Accepted?
    ensures CheckEvent(env, e, meta, ctx).Accepted?
  {
    assert StageOf(env.gov, meta, Evaluate).Some? && StageOf(env.gov, meta, Approve).Some?;
  }

  lemma CheckInNetwork(env: Env, env': Env, e: Event, meta: Metadata, ctx: SubjectContext)
    requires SameNetwork(env, env')
    ensures CheckEvent(env', e, meta, ctx) == CheckEvent(env, e, meta, ctx)
  {}

  /** The checks by kind of request come down to who signed it. */
  lemma KindElsewhere(w: World, e: Event, ss: set<Signature>, proof: Proof, env': Env, n': Node)
    requires EnvOk(w.env) && Handed(w, e, ss, proof) && StandsWith(w, env', n', e.request.content.subjectId)
    ensures var id := e.request.content.subjectId;
      CheckKind(env', n', id, n'.states[id], n'.db.Get(id).subject.value, e, proof, true).Accepted?
      <==> Permitted(w.env, Of(w, id).value, proof.GetMetadata(), e)
  {
    var id := e.request.content.subjectId;
    var s, s', signer := Of(w, id).value, n'.db.Get(id).subject.value, e.request.signature.signer;
    assert proof.GetMetadata() == MetadataOf(s, id, Version(w, id));
    assert s'.GetContext(signer) == s.GetContext(signer) && s'.active && s'.owner == s.owner && s'.creator == s.creator;
    CheckInNetwork(w.env, env', e, proof.GetMetadata(), s.GetContext(signer));
    if e.request.content.Eol? { PlainPasses(w.env, e, proof.GetMetadata(), s.GetContext(signer)); }
  }

  /** The certificate holds, and the proof is of this event on this subject. */
  lemma ProofElsewhere(w: World, e: Event, ss: set<Signature>, proof: Proof, env': Env, n': Node)
    requires Handed(w, e, ss, proof) && StandsWith(w, env', n', e.request.content.subjectId)
    ensures CheckCertificate(env', ss, proof).Accepted?
    ensures var s' := n'.db.Get(e.request.content.subjectId).subject.value;
      CheckValidationProof(env'.crypto, n'.db, proof, s', env'.crypto.hashEvent(e), ProofKey(s', e)).Accepted?
  {
    assert Certified(env', ss, proof) by { assert Certified(w.env, ss, proof); }
  }

  lemma EffectElsewhere(w: World, e: Event, env': Env, n': Node)
    requires EventOk(w, e) && StandsWith(w, env', n', e.request.content.subjectId)
    ensures var id := e.request.content.subjectId;
      NextEffect(env', n'.db, n'.db.Get(id).subject.value, e).Effect? <==> CanApply(env', n'.db.keys, Of(w, id).value, e)
  {
    var id := e.request.content.subjectId;
    assert n'.db.Get(id).subject.value.properties == Of(w, id).value.properties;
  }

  // ---- the event as a whole ----

  /** Brought with its certificate to a node that stands where its builder stood and has not seen the request, a handed-over
      event is accepted exactly when that node permits it and can carry it out. */
  lemma DeliveredExactly(w: World, e: Event, ss: set<Signature>, proof: Proof, env': Env, n': Node, seal: Signature)
    requires EnvOk(w.env) && Handed(w, e, ss, proof) && StandsWith(w, env', n', e.request.content.subjectId)
    requires env'.crypto.hashRequest(e.request) !in n'.db.requests && env'.crypto.verifies(seal, OfEvent(e))
    ensures var s := Of(w, e.request.content.subjectId).value;
      ExternalEvent(env', n', SignedEvent(e, seal), ss, proof, true).1.Accepted?
      <==> Permitted(w.env, s, proof.GetMetadata(), e) && CanApply(env', n'.db.keys, s, e)
  {
    KindElsewhere(w, e, ss, proof, env', n');
    ProofElsewhere(w, e, ss, proof, env', n');
    EffectElsewhere(w, e, env', n');
  }

  /** Accepted, it leaves the other node's replica in order, up to date on this event. */
  lemma DeliveredStands(w: World, e: Event, ss: set<Signature>, proof: Proof, env': Env, n': Node, seal: Signature)
    requires Handed(w, e, ss, proof) && StandsWith(w, env', n', e.request.content.subjectId)
    requires var id := e.request.content.subjectId; Inv(env', id, n'.At(id)) && Recorded(env', n', id)
    requires ExternalEvent(env', n', SignedEvent(e, seal), ss, proof, true).1.Accepted?
    ensures var id, after := e.request.content.subjectId, ExternalEvent(env', n', SignedEvent(e, seal), ss, proof, true).0;
      && Inv(env', id, after.At(id)) && after.StateOf(id) == Some(LedgerState(Some(e.sn), Option.None))
      && e.sn in after.db.Get(id).events && after.db.Get(id).events[e.sn].content == e
  {
    LedgerPreserved.ExternalKeepsIff(env', n', SignedEvent(e, seal), ss, proof, true);
  }

  // ---- the end of life of an owner who is not the creator ----

  lemma EndOfLifeElsewhere(env': Env, n': Node, id: Digest, s: Subject, e: SignedEvent, ss: set<Signature>, proof: Proof,
                           admitted: bool)
    requires e.content.request.content == Eol(id) && s.creator != e.content.request.signature.signer
    requires n'.StateOf(id).Some? && n'.db.Get(id).subject.Some? && n'.db.Get(id).subject.value.Public() == s.Public()
    ensures !ExternalEvent(env', n', e, ss, proof, admitted).1.Accepted?
  {
    assert n'.db.Get(id).subject.value.creator == s.creator;
  }

  /** After a transfer the new owner can end the subject's life only for itself: its completer takes the request and asks
      for validation, its own ledger takes the event in, and any other node with the same subject refuses it, whatever
      certificate comes with it. */
  lemma NewOwnersEndOfLife(w: World, st: Flow, request: SignedRequest)
    requires WorldOk(w) && FlowInv(w, st)
    requires request.content.Eol? && Askable(w, request.content.subjectId)
    requires Of(w, request.content.subjectId).Some? && LiveVersion(w.db, request.content.subjectId).Some?
    requires var id := request.content.subjectId; var s := Of(w, id).value;
      && s.active && s.keys.Some? && s.sn in w.db.Get(id).events && id !in st.completing
      && s.owner == request.signature.signer && s.creator != s.owner
    requires w.env.crypto.verifies(request.signature, OfRequest(request.content))
    requires w.env.crypto.hashRequest(request) !in w.db.requests
    ensures var id, (st', r) := request.content.subjectId, Step(w, st, Request(request));
      var e := PlainEvent(w.env.crypto, Of(w, id).value, request, Version(w, id),
                 w.env.crypto.hashEvent(w.db.Get(id).events[Of(w, id).value.sn].content));
      && r == Done && w.env.crypto.hashEvent(e) in st'.toValidate && st'.toValidate[w.env.crypto.hashEvent(e)] == e
      && EventOk(w, e)
      && (forall n: Node, seal, ss, proof, gov :: n.db == w.db && n.StateOf(id) == Some(LedgerState(Some(e.sn - 1), Option.None)) ==>
            OwnEvent(w.env, n, SignedEvent(e, seal), ss, proof, gov).1.Accepted?)
      && (forall env', n', seal, ss, proof, admitted :: StandsWith(w, env', n', id) ==>
            !ExternalEvent(env', n', SignedEvent(e, seal), ss, proof, admitted).1.Accepted?)
  {
    var id := request.content.subjectId;
    var s := Of(w, id).value;
    var e := PlainEvent(w.env.crypto, s, request, Version(w, id), w.env.crypto.hashEvent(w.db.Get(id).events[s.sn].content));
    PlainEventOk(w, id, s, request);
    forall env', n', seal, ss, proof, admitted | StandsWith(w, env', n', id)
      ensures !ExternalEvent(env', n', SignedEvent(e, seal), ss, proof, admitted).1.Accepted?
    {
      EndOfLifeElsewhere(env', n', id, s, SignedEvent(e, seal), ss, proof, admitted);
    }
  }
}
