/** What an event must be for the ledger to take it in, said of its signatures, of what governance answers and of what is
    stored. */
module LedgerAdmission {
  import opened Protocol
  import opened Subjects
  import opened Quorum
  import V = Verify
  import opened Store
  import opened LedgerSteps
  import opened LedgerInvariant
  import opened LedgerCatchUp
  import opened LedgerRefusals

  // ---- who signed ----

  /** Governance names the signers of this stage, and a quorum that they can reach. */
  predicate Answers(env: Env, meta: Metadata, stage: Stage) {
    var signers, quorum := env.gov.signers(meta, stage), env.gov.quorum(meta, stage);
    signers.Some? && quorum.Some? && quorum.value <= |signers.value|
  }

  /** All these signatures are of the stage's signers on this content, one each, and as many as a yes or a no takes. */
  ghost predicate SignedOff(env: Env, meta: Metadata, stage: Stage, sigs: set<Signature>, content: Content, yes: bool)
    requires Answers(env, meta, stage)
  {
    var signers, quorum := env.gov.signers(meta, stage).value, env.gov.quorum(meta, stage).value;
    && (forall a, b :: a in sigs && b in sigs && a != b ==> a.signer != b.signer)
    && (forall s :: s in sigs ==> s.signer in signers && env.crypto.verifies(s, content))
    && |sigs| >= (if yes then quorum else |signers| - quorum + 1)
  }

  /** What the evaluators must have signed, rebuilt from the event and the stored subject. */
  function EvaluatedBy(c: Crypto, e: Event, s: Subject): Content {
    var context := SubjectContext(s.governanceId, s.schemaId, e.request.signature.signer == s.owner, s.properties, s.namespace);
    OfEvaluation(EvaluationResponse(e.patch, c.hashEvaluation(EvaluationRequest(e.request, context, e.sn, e.govVersion)),
      e.stateHash, e.evalSuccess, e.apprRequired))
  }

  /** What the approvers must have signed, rebuilt the same way. */
  function ApprovedBy(c: Crypto, e: Event, s: Subject): Content {
    OfApproval(ApprovalResponse(
      c.hashApproval(ApprovalRequest(e.request, e.sn, e.govVersion, e.patch, e.stateHash, e.hashPrev, s.governanceId)), e.approved))
  }

  /** The event was evaluated as its stage asks and, if approval was required or refused, voted on as that stage asks. */
  ghost predicate Endorsed(env: Env, e: Event, meta: Metadata, s: Subject) {
    && Answers(env, meta, Evaluate) && Answers(env, meta, Approve)
    && SignedOff(env, meta, Evaluate, e.evaluators, EvaluatedBy(env.crypto, e, s), e.evalSuccess)
    && (e.apprRequired || !e.approved ==> SignedOff(env, meta, Approve, e.approvers, ApprovedBy(env.crypto, e, s), e.approved))
  }

  /** Neither evaluated nor voted on, as a transfer or an end of life is built. */
  predicate Plain(e: Event) {
    e.evalSuccess && e.approved && !e.apprRequired
  }

  /** Enough of the validators of the proof's version, each counted once, really signed it. */
  ghost predicate Validated(env: Env, sigs: set<Signature>, proof: Proof) {
    var signers, quorum := env.gov.signers(proof.GetMetadata(), Validate), env.gov.quorum(proof.GetMetadata(), Validate);
    && signers.Some? && quorum.Some?
    && |set s | s in sigs && s.signer in signers.value && env.crypto.verifies(s, OfProof(proof)) :: s.signer| >= quorum.value
  }

  // ---- the checks ----

  lemma DistinctAreAsMany(sigs: set<Signature>)
    requires forall a, b :: a in sigs && b in sigs && a != b ==> a.signer != b.signer
    ensures |Signers(sigs)| == |sigs|
  {
    var f := (s: Signature) => s.signer;
    ImageSize(sigs, f);
    assert Signers(sigs) == Image(sigs, f);
  }

  lemma HoldsExactly(env: Env, meta: Metadata, stage: Stage, sigs: set<Signature>, content: Content, yes: bool)
    requires Answers(env, meta, stage)
    ensures var signers, quorum := env.gov.signers(meta, stage).value, env.gov.quorum(meta, stage).value;
      V.StageHolds(env.crypto, sigs, content, signers, if yes then quorum else NegativeQuorum(|signers|, quorum))
      <==> SignedOff(env, meta, stage, sigs, content, yes)
  {
    if V.DistinctSigners(sigs) { DistinctAreAsMany(sigs); }
    SignersAmong(sigs, env.gov.signers(meta, stage).value);
  }

  lemma SignersAmong(sigs: set<Signature>, allowed: set<Key>)
    ensures Signers(sigs) <= allowed <==> forall s :: s in sigs ==> s.signer in allowed
  {
    if Signers(sigs) <= allowed {
      forall s | s in sigs ensures s.signer in allowed { assert s.signer in Signers(sigs); }
    }
  }

  /** A fact passes the event check exactly when it is endorsed. */
  lemma FactPassesExactly(env: Env, e: Event, meta: Metadata, s: Subject)
    requires e.request.content.Fact?
    ensures CheckEvent(env, e, meta, s.GetContext(e.request.signature.signer)).Accepted? <==> Endorsed(env, e, meta, s)
  {
    if Answers(env, meta, Evaluate) && Answers(env, meta, Approve) {
      HoldsExactly(env, meta, Evaluate, e.evaluators, EvaluatedBy(env.crypto, e, s), e.evalSuccess);
      HoldsExactly(env, meta, Approve, e.approvers, ApprovedBy(env.crypto, e, s), e.approved);
    }
  }

  /** An end of life passes it exactly when it is plain, or endorsed like a fact. */
  lemma EolPassesExactly(env: Env, e: Event, meta: Metadata, s: Subject)
    requires e.request.content.Eol?
    ensures CheckEvent(env, e, meta, s.GetContext(e.request.signature.signer)).Accepted?
            <==> Answers(env, meta, Evaluate) && Answers(env, meta, Approve) && (Plain(e) || Endorsed(env, e, meta, s))
  {
    if Answers(env, meta, Evaluate) && Answers(env, meta, Approve) {
      HoldsExactly(env, meta, Evaluate, e.evaluators, EvaluatedBy(env.crypto, e, s), e.evalSuccess);
      HoldsExactly(env, meta, Approve, e.approvers, ApprovedBy(env.crypto, e, s), e.approved);
    }
  }

  lemma ValidatedExactly(env: Env, sigs: set<Signature>, proof: Proof)
    ensures CheckCertificate(env, sigs, proof).Accepted? <==> Validated(env, sigs, proof)
  {
    var signers := env.gov.signers(proof.GetMetadata(), Validate);
    if signers.Some? {
      assert ValidSigners(env.crypto, sigs, OfProof(proof), signers.value) ==
        set s | s in sigs && s.signer in signers.value && env.crypto.verifies(s, OfProof(proof)) :: s.signer;
    }
  }

  // ---- an event of a subject this node has ----

  /** The signer may ask for this, and the event is what such a request is to become. */
  ghost predicate Allowed(env: Env, s: Subject, e: Event, meta: Metadata) {
    var signer := e.request.signature.signer;
    match e.request.content
    case Create(_) => false
    case Fact(_, _) => (s.owner == signer || env.gov.mayInvoke(meta, Invoke, signer) == Some(true)) && Endorsed(env, e, meta, s)
    case Transfer(_, _) => Plain(e) && e.patch == EMPTY_PATCH
    case Eol(_) =>
      && s.creator == signer
      && Answers(env, meta, Evaluate) && Answers(env, meta, Approve) && (Plain(e) || Endorsed(env, e, meta, s))
  }

  /** The proof is of this event on this subject: everything in it but the governance version. */
  predicate ProofOf(c: Crypto, proof: Proof, s: Subject, e: Event, prevEventHash: Digest) {
    proof == Proof(s.subjectId, s.schemaId, s.namespace, s.name,
      if e.request.content.Transfer? then e.request.content.publicKey else s.publicKey,
      s.governanceId, s.genesisGovVersion, s.sn + 1, prevEventHash, c.hashEvent(e), proof.governanceVersion)
  }

  /** The event can be carried out: an approved fact's patch applies, a transfer to this node finds the key pair. */
  predicate Applicable(env: Env, keys: map<Key, KeyPair>, s: Subject, e: Event) {
    && (e.request.content.Fact? && e.approved ==> env.crypto.patch(s.properties, e.patch).Some?)
    && (e.request.content.Transfer? && e.request.signature.signer == env.ourId ==> e.request.content.publicKey in keys)
  }

  lemma KindExactly(env: Env, n: Node, id: Digest, ls: LedgerState, s: Subject, e: Event, proof: Proof, admitted: bool)
    requires !e.request.content.Create? && id in n.isGov
    ensures CheckKind(env, n, id, ls, s, e, proof, admitted).Accepted? <==>
      && s.active && admitted && Allowed(env, s, e, proof.GetMetadata())
      && (n.isGov[id] ==> if e.request.content.Transfer? then ls.head != Some(e.sn) else e.sn <= s.sn + 1)
  {
    if e.request.content.Fact? { FactPassesExactly(env, e, proof.GetMetadata(), s); }
    if e.request.content.Eol? { EolPassesExactly(env, e, proof.GetMetadata(), s); }
  }

  lemma ProofExactly(env: Env, n: Node, id: Digest, s: Subject, e: Event, proof: Proof)
    requires s.subjectId == id && s.sn in n.db.Get(id).events && !e.request.content.Create?
    ensures CheckValidationProof(env.crypto, n.db, proof, s, env.crypto.hashEvent(e), ProofKey(s, e)).Accepted?
            <==> ProofOf(env.crypto, proof, s, e, env.crypto.hashEvent(n.db.Get(id).events[s.sn].content))
  {}

  lemma EffectExactly(env: Env, db: Db, s: Subject, e: Event)
    requires !e.request.content.Create?
    ensures NextEffect(env, db, s, e).Effect? <==> Applicable(env, db.keys, s, e)
  {}

  /** What is asked of the event that directly follows, when nothing later is waiting. */
  ghost predicate NextAdmitted(env: Env, n: Node, id: Digest, s: Subject, e: Event, sigs: set<Signature>, proof: Proof)
    requires s.sn in n.db.Get(id).events
  {
    && s.active && Allowed(env, s, e, proof.GetMetadata()) && Validated(env, sigs, proof)
    && ProofOf(env.crypto, proof, s, e, env.crypto.hashEvent(n.db.Get(id).events[s.sn].content))
    && Applicable(env, n.db.keys, s, e)
  }

  /** What is asked of one further on, or of any beyond the subject while a head is waiting: its proof is not looked at, nor
      whether it can be carried out; but it is of no governance, not above the head, and no end of life beside a head. */
  ghost predicate LaterAdmitted(env: Env, n: Node, id: Digest, ls: LedgerState, s: Subject, e: Event, sigs: set<Signature>,
                                proof: Proof)
    requires id in n.isGov
  {
    && s.active && Allowed(env, s, e, proof.GetMetadata()) && Validated(env, sigs, proof)
    && !n.isGov[id]
    && (ls.head.Some? ==> e.sn <= ls.head.value && !e.request.content.Eol?)
  }

  /** An event of a subject this node has up to c, from elsewhere, is accepted exactly when it is new and signed, this node is
      to keep it, and it is admitted as the next event or as a later one. */
  lemma KnownExactly(env: Env, n: Node, id: Digest, c: nat, s: Subject, e: SignedEvent, sigs: set<Signature>, proof: Proof,
                     admitted: bool)
    requires !e.content.request.content.Create? && e.content.request.content.subjectId == id
    requires n.StateOf(id).Some? && n.states[id].currentSn == Some(c) && id in n.isGov
    requires n.db.Get(id).subject == Some(s) && s.subjectId == id && s.sn == c && c in n.db.Get(id).events
    ensures ExternalEvent(env, n, e, sigs, proof, admitted).1.Accepted? <==>
      && env.crypto.hashRequest(e.content.request) !in n.db.requests
      && env.crypto.verifies(e.signature, OfEvent(e.content))
      && env.crypto.verifies(e.content.request.signature, OfRequest(e.content.request.content))
      && admitted && e.content.sn > c
      && (if e.content.sn == c + 1 && n.states[id].head.None? then NextAdmitted(env, n, id, s, e.content, sigs, proof)
          else LaterAdmitted(env, n, id, n.states[id], s, e.content, sigs, proof))
  {
    KindExactly(env, n, id, n.states[id], s, e.content, proof, admitted);
    ValidatedExactly(env, sigs, proof);
    ProofExactly(env, n, id, s, e.content, proof);
    EffectExactly(env, n.db, s, e.content);
  }

  /** Why an event of a held subject is refused at first, in this order: its request is known, it is not signed, it is not
      beyond c, the subject has ended, its signer may not ask for it, it is of a governance that is further behind, this node
      is not to keep the subject. */
  lemma WhyKnownRefused(env: Env, n: Node, id: Digest, c: nat, s: Subject, e: SignedEvent, sigs: set<Signature>, proof: Proof,
                        admitted: bool)
    requires !e.content.request.content.Create? && e.content.request.content.subjectId == id
    requires n.StateOf(id).Some? && n.states[id].currentSn == Some(c) && id in n.isGov
    requires n.db.Get(id).subject == Some(s) && s.subjectId == id && s.sn == c && c in n.db.Get(id).events
    ensures var (n', r), request := ExternalEvent(env, n, e, sigs, proof, admitted), e.content.request;
      var may := if request.content.Eol? then Some(s.creator == request.signature.signer)
                 else if request.content.Transfer? || s.owner == request.signature.signer then Some(true)
                 else env.gov.mayInvoke(proof.GetMetadata(), Invoke, request.signature.signer);
      if env.crypto.hashRequest(request) in n.db.requests then r == Refused(RepeatedRequestId)
      else if !env.crypto.verifies(e.signature, OfEvent(e.content))
              || !env.crypto.verifies(request.signature, OfRequest(request.content)) then r == Refused(InvalidSignature)
      else if e.content.sn <= c then r == Refused(EventAlreadyExists)
      else if !s.active then r == Refused(SubjectLifeEnd)
      else if request.content.Transfer? then
        if n.isGov[id] && n.states[id].head == Some(e.content.sn) then r == Refused(GovernanceLce)
        else !admitted ==> r == Refused(WeAreNotWitnesses)
      else if request.content.Eol? && may == Some(false) then r == Refused(Unauthorized)
      else if n.isGov[id] && e.content.sn > c + 1 then r == Refused(GovernanceLce)
      else if may.None? then r == Refused(GovernanceError)
      else if may == Some(false) then r == Refused(Unauthorized)
      else !admitted ==> r == Refused(WeAreNotWitnesses)
    ensures var (n', r) := ExternalEvent(env, n, e, sigs, proof, admitted); !r.Accepted? ==> n' == n
  {}

  // ---- an event of a subject this node does not have ----

  /** An event of a subject nothing is known of is accepted exactly when it is new and signed, this node is to keep it, the
      proof with it is of no governance and validated, and a transfer is plain. Of a fact neither signer nor evaluators are
      looked at. */
  lemma UnknownExactly(env: Env, n: Node, id: Digest, e: SignedEvent, sigs: set<Signature>, proof: Proof, admitted: bool)
    requires !e.content.request.content.Create? && e.content.request.content.subjectId == id && n.StateOf(id).None?
    ensures ExternalEvent(env, n, e, sigs, proof, admitted).1.Accepted? <==>
      && env.crypto.hashRequest(e.content.request) !in n.db.requests
      && env.crypto.verifies(e.signature, OfEvent(e.content))
      && env.crypto.verifies(e.content.request.signature, OfRequest(e.content.request.content))
      && admitted && proof.schemaId != "governance" && Validated(env, sigs, proof)
      && (e.content.request.content.Transfer? ==> Plain(e.content) && e.content.patch == EMPTY_PATCH)
    ensures var (n', r) := ExternalEvent(env, n, e, sigs, proof, admitted);
      r.Accepted? ==> n'.StateOf(id) == Some(LedgerState(None, Some(e.content.sn))) && id in n'.isGov && !n'.isGov[id]
  {
    ValidatedExactly(env, sigs, proof);
  }

  /** The creator may create: a governance anyone, any other subject whom governance lets. */
  predicate MayStart(env: Env, e: Event, id: Digest)
    requires e.request.content.Create?
  {
    var start := e.request.content.start;
    || start.schemaId == "governance"
    || env.gov.mayInvoke(Metadata(start.namespace, id, start.governanceId, e.govVersion, start.schemaId), Creation,
         e.request.signature.signer) == Some(true)
  }

  /** A genesis from elsewhere is accepted exactly when it is new and signed, this node is to keep it and has no such subject,
      it was not evaluated as failed, its signer may create, and governance knows the initial state. The subject's kind is
      then known by its schema, its state is what governance said, and its owner and creator are who signed. */
  lemma GenesisExactly(env: Env, n: Node, e: SignedEvent, sigs: set<Signature>, proof: Proof, admitted: bool)
    requires e.content.request.content.Create?
    ensures var start := e.content.request.content.start;
      var id := env.crypto.subjectId(start.namespace, start.schemaId, start.publicKey, start.governanceId, e.content.govVersion);
      var (n', r) := ExternalEvent(env, n, e, sigs, proof, admitted);
      && (r.Accepted? <==>
            && env.crypto.hashRequest(e.content.request) !in n.db.requests
            && env.crypto.verifies(e.signature, OfEvent(e.content))
            && env.crypto.verifies(e.content.request.signature, OfRequest(e.content.request.content))
            && admitted && e.content.evalSuccess && n.db.Get(id).subject.None?
            && MayStart(env, e.content, id)
            && env.gov.initState(start.governanceId, start.schemaId, e.content.govVersion).Some?)
      && (r.Accepted? ==>
            && id in n'.isGov && n'.isGov[id] == (start.schemaId == "governance")
            && n'.StateOf(id).Some? && n'.states[id].currentSn == Some(0)
            && n'.db.Get(id).subject == Some(Subject(Option.None, id, start.governanceId, 0, e.content.govVersion, start.publicKey,
                 start.namespace, start.name, start.schemaId, e.content.request.signature.signer, e.content.request.signature.signer,
                 env.gov.initState(start.governanceId, start.schemaId, e.content.govVersion).value, true)))
  {}

  /** This node's own genesis, once validated, is taken in exactly when the key pair is there and governance answers at its
      present version; the subject is then this node's. */
  lemma OwnGenesisExactly(env: Env, n: Node, e: SignedEvent, sigs: set<Signature>, proof: Proof, live: Option<nat>)
    requires e.content.request.content.Create?
    ensures var start := e.content.request.content.start;
      var id := env.crypto.subjectId(start.namespace, start.schemaId, start.publicKey, start.governanceId, e.content.govVersion);
      var version := if start.schemaId == "governance" && start.governanceId == NoDigest then Some(0) else live;
      var (n', r) := OwnGenesis(env, n, e, sigs, proof, live);
      && (r.Accepted? <==>
            version.Some? && start.publicKey in n.db.keys && env.gov.initState(start.governanceId, start.schemaId, version.value).Some?)
      && (r.Accepted? ==>
            && id in n'.isGov && n'.isGov[id] == (start.schemaId == "governance") && n'.db.keys == n.db.keys
            && n'.db.Get(id).subject == Some(Subject(Some(n.db.keys[start.publicKey]), id, start.governanceId, 0, e.content.govVersion,
                 start.publicKey, start.namespace, start.name, start.schemaId, e.content.request.signature.signer,
                 e.content.request.signature.signer, env.gov.initState(start.governanceId, start.schemaId, version.value).value, true)))
      && (!r.Accepted? ==> n' == n)
  {}

  // ---- catching up ----

  /** What is asked of a catch-up event before it is stored: of a fact that it is endorsed under its own governance version, of
      a transfer that it is plain; signed by whom is not looked at, and neither is a certificate. */
  lemma ReachesStoreExactly(env: Env, n: Node, id: Digest, c: nat, s: Subject, e: SignedEvent)
    requires SubjectIdOf(env.crypto, e.content) == id && n.db.Get(id).subject == Some(s)
    requires n.StateOf(id).Some? && n.states[id].currentSn == Some(c)
    ensures ReachesStore(env, n, e) <==>
      && env.crypto.hashRequest(e.content.request) !in n.db.requests
      && env.crypto.verifies(e.signature, OfEvent(e.content))
      && env.crypto.verifies(e.content.request.signature, OfRequest(e.content.request.content))
      && e.content.subjectId == id && n.states[id].head.Some? && e.content.sn == c + 1
      && match e.content.request.content
         case Fact(_, _) =>
           Endorsed(env, e.content, Metadata(s.namespace, s.subjectId, s.governanceId, e.content.govVersion, s.schemaId), s)
         case Transfer(_, _) => Plain(e.content) && e.content.patch == EMPTY_PATCH
         case _ => false
  {
    if e.content.request.content.Fact? {
      FactPassesExactly(env, e.content, Metadata(s.namespace, s.subjectId, s.governanceId, e.content.govVersion, s.schemaId), s);
    }
  }

  /** And of event 0, when nothing but a head is held: what is asked of any genesis but that this node is to keep it. */
  lemma GenesisReachesStoreExactly(env: Env, n: Node, id: Digest, e: SignedEvent)
    requires SubjectIdOf(env.crypto, e.content) == id
    requires n.StateOf(id).Some? && n.states[id].currentSn.None?
    ensures ReachesStore(env, n, e) <==>
      && env.crypto.hashRequest(e.content.request) !in n.db.requests
      && env.crypto.verifies(e.signature, OfEvent(e.content))
      && env.crypto.verifies(e.content.request.signature, OfRequest(e.content.request.content))
      && e.content.subjectId == id && n.states[id].head.Some? && e.content.sn == 0
      && e.content.request.content.Create? && MayStart(env, e.content, id)
      && var start := e.content.request.content.start;
         env.gov.initState(start.governanceId, start.schemaId, e.content.govVersion).Some?
  {}

  // ---- what taking an event in changes ----

  /** The key pair this node holds of the subject after the event: by a transfer to it the one of the new key, by a transfer to
      another none, otherwise what it held. */
  function PairAfter(env: Env, keys: map<Key, KeyPair>, s: Subject, e: Event): Option<KeyPair> {
    if !e.request.content.Transfer? then s.keys
    else if e.request.signature.signer == env.ourId && e.request.content.publicKey in keys then Some(keys[e.request.content.publicKey])
    else Option.None
  }

  /** Key pairs waiting for a transfer: the one a transfer to this node uses is taken out. */
  function PairsLeft(env: Env, keys: map<Key, KeyPair>, e: Event): map<Key, KeyPair> {
    if e.request.content.Transfer? && e.request.signature.signer == env.ourId then keys - {e.request.content.publicKey} else keys
  }

  ghost predicate OthersAlone(n: Node, n': Node, id: Digest) {
    forall k :: k != id ==> n'.At(k) == n.At(k) && (k in n'.isGov <==> k in n.isGov) && (k in n.isGov ==> n'.isGov[k] == n.isGov[k])
  }

  /** The certificate of event sn: these signatures with those already stored for it, on this proof. */
  predicate CertifiedWith(before: Rows, after: Rows, sn: nat, sigs: set<Signature>, proof: Proof) {
    sn in after.certs && after.certs[sn].proof == proof
    && after.certs[sn].signatures == sigs + (if sn in before.certs then before.certs[sn].signatures else {})
  }

  lemma NextRowsLeave(rows: Rows, s: Subject, e: SignedEvent, sigs: set<Signature>, proof: Proof, isGov: bool)
    requires e.content.sn >= 1
    ensures var after, sn := NextRows(rows, s, e, sigs, proof, isGov), e.content.sn;
      && after.events == rows.events[sn := e] && after.lceProof == rows.lceProof && after.subject == Some(s)
      && CertifiedWith(rows, after, sn, sigs, proof)
      && (forall i :: i != sn ==>
            (i in after.certs <==> i in rows.certs && (isGov || i != sn - 1)) && (i in after.certs ==> after.certs[i] == rows.certs[i]))
  {}

  /** The next event, taken in: stored with its certificate, its request known, the key pair it used moved into the subject;
      the certificate before it stays with a governance and goes with any other subject. Nothing else changes. */
  lemma NextLeaves(env: Env, n: Node, id: Digest, ls: LedgerState, s: Subject, e: SignedEvent, sigs: set<Signature>, proof: Proof)
    requires !e.content.request.content.Create? && id in n.isGov && n.StateOf(id) == Some(ls)
    requires n.db.Get(id).subject == Some(s) && e.content.sn == s.sn + 1
    requires NextEvent(env, n, id, ls, s, e, sigs, proof).1.Accepted?
    ensures var n' := NextEvent(env, n, id, ls, s, e, sigs, proof).0;
      var before, after := n.db.Get(id), n'.db.Get(id);
      && OthersAlone(n, n', id) && n'.isGov == n.isGov && n'.StateOf(id) == Some(LedgerState(Some(s.sn + 1), ls.head))
      && n'.db.requests == n.db.requests + {env.crypto.hashRequest(e.content.request)}
      && n'.db.keys == PairsLeft(env, n.db.keys, e.content)
      && after.events == before.events[s.sn + 1 := e] && after.lceProof == before.lceProof
      && after.subject.Some? && after.subject.value.keys == PairAfter(env, n.db.keys, s, e.content)
      && CertifiedWith(before, after, s.sn + 1, sigs, proof)
      && (forall i :: i != s.sn + 1 ==>
            (i in after.certs <==> i in before.certs && (n.isGov[id] || i != s.sn))
            && (i in after.certs ==> after.certs[i] == before.certs[i]))
  {
    NextRowsLeave(n.db.Get(id), NextEffect(env, n.db, s, e.content).subject, e, sigs, proof, n.isGov[id]);
  }

  /** A later event, taken in: it is the head, with its certificate and its proof kept for it; the head before it goes with its
      certificate, or if there was none the certificate of the last event. Subject and keys stay. */
  lemma LaterLeaves(env: Env, n: Node, id: Digest, ls: LedgerState, s: Subject, e: SignedEvent, sigs: set<Signature>, proof: Proof)
    requires !e.content.request.content.Create? && id in n.isGov && n.StateOf(id) == Some(ls)
    requires n.db.Get(id).subject == Some(s) && e.content.sn > s.sn && ls.head != Some(e.content.sn)
    requires LaterEvent(env, n, id, ls, s, e, sigs, proof).1.Accepted?
    ensures var n', sn, gone := LaterEvent(env, n, id, ls, s, e, sigs, proof).0, e.content.sn,
              match ls.head case Some(h) => h case None => s.sn;
      var before, after := n.db.Get(id), n'.db.Get(id);
      && OthersAlone(n, n', id) && n'.isGov == n.isGov && n'.StateOf(id) == Some(LedgerState(ls.currentSn, Some(sn)))
      && n'.db.requests == n.db.requests + {env.crypto.hashRequest(e.content.request)} && n'.db.keys == n.db.keys
      && after.subject == before.subject && after.lceProof == Some(proof) && CertifiedWith(before, after, sn, sigs, proof)
      && sn in after.events && after.events[sn] == e
      && (forall i :: i != sn ==>
            (i in after.certs <==> i in before.certs && i != gone) && (i in after.certs ==> after.certs[i] == before.certs[i])
            && (i in after.events <==> i in before.events && (ls.head.Some? ==> i != gone))
            && (i in after.events ==> after.events[i] == before.events[i]))
  {}

  /** An own event, taken in: as the next event, but the key pair of a transfer to this node is left where it was. */
  lemma OwnLeaves(env: Env, n: Node, id: Digest, s: Subject, c: nat, e: SignedEvent, sigs: set<Signature>, proof: Proof, gov: bool)
    requires !e.content.request.content.Create? && e.content.request.content.subjectId == id && id in n.isGov
    requires n.db.Get(id).subject == Some(s) && e.content.sn == s.sn + 1 && n.StateOf(id).Some? && n.states[id].currentSn == Some(c)
    requires OwnEvent(env, n, e, sigs, proof, gov).1.Accepted?
    ensures var n' := OwnEvent(env, n, e, sigs, proof, gov).0;
      var before, after := n.db.Get(id), n'.db.Get(id);
      && OthersAlone(n, n', id) && n'.isGov == n.isGov && n'.StateOf(id) == Some(LedgerState(Some(c + 1), n.states[id].head))
      && n'.db.requests == n.db.requests + {env.crypto.hashRequest(e.content.request)} && n'.db.keys == n.db.keys
      && after.events == before.events[s.sn + 1 := e] && after.lceProof == before.lceProof
      && after.subject.Some? && after.subject.value.keys == PairAfter(env, n.db.keys, s, e.content)
      && CertifiedWith(before, after, s.sn + 1, sigs, proof)
      && (forall i :: i != s.sn + 1 ==>
            (i in after.certs <==> i in before.certs && (n.isGov[id] || i != s.sn))
            && (i in after.certs ==> after.certs[i] == before.certs[i]))
  {
    NextRowsLeave(n.db.Get(id), OwnEffect(env, n.db, s, e.content).subject, e, sigs, proof, n.isGov[id]);
  }

  /** An own event refused: nothing changes but that a fact's signatures have been stored by then. */
  lemma OwnRefusedLeaves(env: Env, n: Node, id: Digest, s: Subject, e: SignedEvent, sigs: set<Signature>, proof: Proof, gov: bool)
    requires !e.content.request.content.Create? && e.content.request.content.subjectId == id && n.db.Get(id).subject == Some(s)
    requires OwnEvent(env, n, e, sigs, proof, gov).1.Refused?
    ensures var n' := OwnEvent(env, n, e, sigs, proof, gov).0;
      if e.content.request.content.Fact? then
        && OthersAlone(n, n', id) && n'.states == n.states && n'.db.keys == n.db.keys && n'.db.requests == n.db.requests
        && n'.db.Get(id).events == n.db.Get(id).events && n'.db.Get(id).subject == n.db.Get(id).subject
        && CertifiedWith(n.db.Get(id), n'.db.Get(id), e.content.sn, sigs, proof)
      else n' == n
  {}

  /** A stored event applied in catching up moves key pairs as the direct path does. */
  lemma SourcingMovesPairs(env: Env, db: Db, id: Digest, s: Subject, e: Event)
    requires !e.request.content.Create? && e.request.content.subjectId == id && e.approved && db.Get(id).subject == Some(s)
    requires EventSourcing(env, db, e).Sourced?
    ensures var x := EventSourcing(env, db, e);
      && x.db.keys == PairsLeft(env, db.keys, e) && x.db.Get(id).subject == Some(x.subject)
      && x.subject.keys == PairAfter(env, db.keys, s, e)
  {}

  lemma SourcingLeaves(env: Env, db: Db, id: Digest, e: Event)
    requires Sourceable(e, id) && EventSourcing(env, db, e).Sourced?
    ensures var x := EventSourcing(env, db, e);
      && x.db.requests == db.requests && (forall k :: k != id ==> x.db.Get(k) == db.Get(k))
      && x.db.Get(id) == db.Get(id).SetSubject(x.subject)
      && x.db.keys == (if e.approved then PairsLeft(env, db.keys, e) else db.keys)
  {}

  /** A stored event can be applied exactly when it names the stored event before it and its subject is stored: carried out, when
      it is no creation and can be, whatever the subject's sn; rejected, when it is the subject's next. */
  lemma SourcedExactly(env: Env, db: Db, e: Event)
    ensures EventSourcing(env, db, e).Sourced? <==>
      && (e.approved ==> !e.request.content.Create?)
      && var id := if e.approved then e.request.content.subjectId else e.subjectId;
      && e.sn >= 1 && e.sn - 1 in db.Get(id).events && env.crypto.hashEvent(db.Get(id).events[e.sn - 1].content) == e.hashPrev
      && db.Get(id).subject.Some?
      && (if e.approved then Applicable(env, db.keys, db.Get(id).subject.value, e) else e.sn == db.Get(id).subject.value.sn + 1)
  {}

  /** Key pairs waiting after the event, carried out or not. */
  function PairsAfter(env: Env, keys: map<Key, KeyPair>, e: Event): map<Key, KeyPair> {
    if e.approved then PairsLeft(env, keys, e) else keys
  }

  /** A catch-up event taken in after genesis: stored, its request known, and the key pair it used gone; no certificate
      changes. With it the head, if it was next, has used its own, and the proof kept for it is gone; otherwise that stays. */
  lemma CatchUpLeaves(env: Env, n: Node, n': Node, id: Digest, c: nat, h: nat, e: SignedEvent)
    requires SubjectIdOf(env.crypto, e.content) == id && Inv(env, id, n.At(id))
    requires n.StateOf(id) == Some(LedgerState(Some(c), Some(h))) && IntermediateEvent(env, n, e) == (n', Accepted)
    ensures var before, after, keys := n.db.Get(id), n'.db.Get(id), PairsAfter(env, n.db.keys, e.content);
      && OthersAlone(n, n', id) && n'.isGov == n.isGov && h in before.events
      && n'.db.requests == n.db.requests + {env.crypto.hashRequest(e.content.request)}
      && after.events == before.events[c + 1 := e] && after.certs == before.certs
      && n'.db.keys == (if h == c + 2 then PairsAfter(env, keys, before.events[h].content) else keys)
      && after.lceProof == (if h == c + 2 then Option.None else before.lceProof)
  {
    TakenIsSourced(env, n, id, c, h, e);
    var stored := n.(db := n.db.Put(id, n.db.Get(id).SetEvent(e)).Finish(env.crypto.hashRequest(e.content.request)));
    assert stored.db.Get(id) == n.db.Get(id).SetEvent(e);
    SourceNextLeaves(env, stored, id, c, h, e.content);
    StillAlone(n, stored, n', id);
  }

  lemma TakenIsSourced(env: Env, n: Node, id: Digest, c: nat, h: nat, e: SignedEvent)
    requires SubjectIdOf(env.crypto, e.content) == id && n.StateOf(id) == Some(LedgerState(Some(c), Some(h)))
    requires IntermediateEvent(env, n, e).1.Accepted?
    ensures Sourceable(e.content, id) && e.content.sn == c + 1
    ensures var stored := n.db.Put(id, n.db.Get(id).SetEvent(e)).Finish(env.crypto.hashRequest(e.content.request));
      IntermediateEvent(env, n, e) == SourceNext(env, n.(db := stored), id, c, h, e.content)
  {
    IntermediateDispatch(env, n, e);
    IntermediateNextShape(env, n, id, c, h, e);
  }

  lemma StillAlone(n: Node, m: Node, n': Node, id: Digest)
    requires OthersAlone(n, m, id) && OthersAlone(m, n', id)
    ensures OthersAlone(n, n', id)
  {
    forall k | k != id ensures n'.At(k) == n.At(k) { assert m.At(k) == n.At(k); }
  }

  lemma SourceNextLeaves(env: Env, n: Node, id: Digest, c: nat, h: nat, e: Event)
    requires Sourceable(e, id) && HeadOk(env, id, n.db.Get(id), h) && SourceNext(env, n, id, c, h, e).1.Accepted?
    ensures var n' := SourceNext(env, n, id, c, h, e).0;
      var before, after, keys := n.db.Get(id), n'.db.Get(id), PairsAfter(env, n.db.keys, e);
      && OthersAlone(n, n', id) && n'.isGov == n.isGov && n'.db.requests == n.db.requests
      && after.events == before.events && after.certs == before.certs
      && n'.db.keys == (if h == c + 2 then PairsAfter(env, keys, before.events[h].content) else keys)
      && after.lceProof == (if h == c + 2 then Option.None else before.lceProof)
  {
    SourcingLeaves(env, n.db, id, e);
    var x := EventSourcing(env, n.db, e);
    if h == c + 2 { HeadLeaves(env, n.(db := x.db), id, x.subject, h); }
  }

  lemma HeadLeaves(env: Env, n: Node, id: Digest, s: Subject, h: nat)
    requires HeadOk(env, id, n.db.Get(id), h) && Complete(env, n, id, s, h).1.Accepted?
    ensures var n' := Complete(env, n, id, s, h).0;
      var before, after := n.db.Get(id), n'.db.Get(id);
      && OthersAlone(n, n', id) && n'.isGov == n.isGov && n'.db.requests == n.db.requests
      && after.events == before.events && after.certs == before.certs && after.lceProof.None?
      && n'.db.keys == PairsAfter(env, n.db.keys, before.events[h].content)
  {
    SourcingLeaves(env, n.db, id, n.db.Get(id).events[h].content);
  }

  /** An own event is taken in exactly when its subject is stored, it is the subject's next if a fact, and it can be carried
      out; where the subject waits for its genesis the node panics instead. */
  lemma OwnExactly(env: Env, n: Node, id: Digest, s: Subject, e: SignedEvent, sigs: set<Signature>, proof: Proof, gov: bool)
    requires !e.content.request.content.Create? && e.content.request.content.subjectId == id && n.db.Get(id).subject == Some(s)
    ensures var r := OwnEvent(env, n, e, sigs, proof, gov).1;
      var fits := (e.content.request.content.Fact? ==> e.content.sn == s.sn + 1) && Applicable(env, n.db.keys, s, e.content);
      && (r.Refused? <==> !fits)
      && (r.Panicked? <==> fits && n.StateOf(id).Some? && n.states[id].currentSn.None?)
  {}

  /** An own event of a subject of which nothing is known in memory starts its state at 0, whatever its sn. */
  lemma OwnOfUnknownStartsAtZero(env: Env, n: Node, id: Digest, e: SignedEvent, sigs: set<Signature>, proof: Proof, gov: bool)
    requires !e.content.request.content.Create? && e.content.request.content.subjectId == id && n.StateOf(id).None?
    requires OwnEvent(env, n, e, sigs, proof, gov).1.Accepted?
    ensures OwnEvent(env, n, e, sigs, proof, gov).0.StateOf(id) == Some(LedgerState(Some(0), None))
  {}
}
