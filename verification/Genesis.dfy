/** A new subject: the event and the proof its creator builds, and how other nodes receive them. */
module Genesis {
  import opened Protocol
  import opened Subjects
  import opened Verify
  import opened Store
  import opened LedgerSteps
  import opened LedgerInvariant
  import opened LedgerPreserved
  import V = Validator

  /** `from_genesis_request`; patch is the difference between the empty document and the initial state. */
  function FromGenesisRequest(c: Crypto, request: SignedRequest, version: nat, patch: Value, initState: Value): Event
    requires request.content.Create?
  {
    Event(c.GenerateSubjectId(request.content.start, version), request, 0, version, patch, c.hashState(initState), true, false, true,
      NoDigest, {}, {})
  }

  /** `ValidationProof::new_from_genesis_event`. */
  function GenesisProof(start: StartRequest, eventHash: Digest, version: nat, id: Digest): Proof {
    Proof(id, start.schemaId, start.namespace, start.name, start.publicKey, start.governanceId, version, 0, NoDigest,
      eventHash, version)
  }

  datatype Creation = Created(event: Event, proof: Proof) | NotCreated(error: CreationError)

  datatype CreationError = ExternalGenesisEvent | SubjectKeysNotFound | GovernanceUnknown | CreatingPermissionDenied

  /** The Create branch of `new_event`, up to the event and its proof; live is governance's present version. The invoker
      must be this node, and permission is asked without naming the subject. */
  function Create(env: Env, keys: map<Key, KeyPair>, live: Option<nat>, request: SignedRequest, patch: Value): Creation
    requires request.content.Create?
  {
    var start := request.content.start;
    var isGov := start.schemaId == "governance";
    if request.signature.signer != env.ourId then NotCreated(ExternalGenesisEvent)
    else if start.publicKey !in keys then NotCreated(SubjectKeysNotFound)
    else if !isGov && live.None? then NotCreated(GovernanceUnknown)
    else
      var version := if isGov then 0 else live.value;
      var permission := if isGov then Some(true) else
        env.gov.mayInvoke(Metadata(start.namespace, NoDigest, start.governanceId, version, start.schemaId), Stage.Creation, env.ourId);
      match (permission, env.gov.initState(start.governanceId, start.schemaId, version))
      case (Some(true), Some(v)) =>
        var e := FromGenesisRequest(env.crypto, request, version, patch, v);
        Created(e, GenesisProof(start, env.crypto.hashEvent(e), version, e.subjectId))
      case (Some(false), _) => NotCreated(CreatingPermissionDenied)
      case _ => NotCreated(GovernanceUnknown)
  }

  /** A creator builds an event exactly when the request is its own, it has the subject's keys, governance lets it create (a
      governance always) and knows the initial state; the event and the proof say what the request, the version and that state
      make of them. */
  lemma CreatedExactly(env: Env, keys: map<Key, KeyPair>, live: Option<nat>, request: SignedRequest, patch: Value)
    requires request.content.Create?
    ensures var start, x := request.content.start, Create(env, keys, live, request, patch);
      var version := if start.schemaId == "governance" then Some(0) else live;
      && (x.Created? <==>
            && request.signature.signer == env.ourId && start.publicKey in keys && version.Some?
            && (start.schemaId == "governance"
                || env.gov.mayInvoke(Metadata(start.namespace, NoDigest, start.governanceId, version.value, start.schemaId),
                     Stage.Creation, env.ourId) == Some(true))
            && env.gov.initState(start.governanceId, start.schemaId, version.value).Some?)
      && (x.Created? ==>
            var id := env.crypto.subjectId(start.namespace, start.schemaId, start.publicKey, start.governanceId, version.value);
            var state := env.gov.initState(start.governanceId, start.schemaId, version.value).value;
            && x.event == Event(id, request, 0, version.value, patch, env.crypto.hashState(state), true, false, true, NoDigest, {}, {})
            && x.proof == Proof(id, start.schemaId, start.namespace, start.name, start.publicKey, start.governanceId, version.value, 0,
                 NoDigest, env.crypto.hashEvent(x.event), version.value))
  {}

  /** Permission to create does not depend on the subject that is to be. */
  ghost predicate CreationIgnoresSubject(gov: Governance) {
    forall m: Metadata, k ::
      gov.mayInvoke(m, Stage.Creation, k) == gov.mayInvoke(m.(subjectId := NoDigest), Stage.Creation, k)
  }

  /** Any node of the network that may hold the subject and does not have it takes in what its creator built, and its
      replica then keeps the invariant exactly unless it is waiting for this very event with an LCE of sn 1. */
  lemma CreatedIsTakenIn(env: Env, keys: map<Key, KeyPair>, live: Option<nat>, request: SignedRequest, patch: Value,
                         env': Env, n: Node, e: SignedEvent, sigs: set<Signature>, proof: Proof)
    requires env.crypto == env'.crypto && env.gov == env'.gov && CreationIgnoresSubject(env.gov)
    requires request.content.Create?
    requires var x := Create(env, keys, live, request, patch); x.Created? && x.event == e.content
    requires SignaturesOk(env.crypto, e) && env.crypto.hashRequest(request) !in n.db.requests
    requires Inv(env', e.content.subjectId, n.At(e.content.subjectId)) && n.db.Get(e.content.subjectId).subject.None?
    ensures var id := e.content.subjectId;
      var (n', r) := ExternalEvent(env', n, e, sigs, proof, true);
      && r.Accepted? && n'.StateOf(id).Some? && n'.states[id].currentSn == Some(0)
      && n'.db.Get(id).subject.Some? && n'.db.Get(id).subject.value.owner == env.ourId
      && (Inv(env', id, n'.At(id)) <==> n.StateOf(id) != Some(LedgerState(None, Some(1))))
  {
    var start, id := request.content.start, e.content.subjectId;
    var meta := Metadata(start.namespace, id, start.governanceId, e.content.govVersion, start.schemaId);
    assert meta.(subjectId := NoDigest) == Metadata(start.namespace, NoDigest, start.governanceId, e.content.govVersion, start.schemaId);
    assert CheckGenesis(env', n.db, e, id).1.Accepted?;
    assert ExternalEvent(env', n, e, sigs, proof, true) == ExternalGenesis(env', n, e, true);
    ExternalGenesisKeepsIff(env', n, e, true);
  }

  /** A validator that has nothing registered for the subject signs the creator's proof exactly when its governance is at
      the creator's version and the proof is signed with the subject's key. */
  lemma CreatedIsValidated(env: Env, keys: map<Key, KeyPair>, live: Option<nat>, request: SignedRequest, patch: Value,
                           reg: V.Register, theirs: nat, s: Signature)
    requires request.content.Create?
    requires var x := Create(env, keys, live, request, patch); x.Created? && x.proof.subjectId !in reg
    ensures var p := Create(env, keys, live, request, patch).proof;
      V.Decide(env, reg, V.Version(theirs), V.ValidationEvent(p, s, Option.None, {})).Signed? <==>
        && (request.content.start.schemaId == "governance" || Some(theirs) == live)
        && env.crypto.verifies(s, OfProof(p)) && s.signer == request.content.start.publicKey
  {}
}
