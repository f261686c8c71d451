/** The messages, proofs and stored entities of the protocol. */
module Protocol {
  import Json

  datatype Option<+T> = None | Some(value: T)

  type Value = Json.Value

  /** A digest identifier; the default one is empty. */
  datatype Digest = NoDigest | Digest(id: nat)

  /** A public key identifier. */
  datatype Key = Key(id: nat)

  type KeyPair = nat

  /** A signature: who signed, and the time stamp and bits that `verify` looks at. */
  datatype Signature = Signature(signer: Key, stamp: nat)

  datatype Stage = Approve | Evaluate | Validate | Witness | Creation | Invoke

  datatype StartRequest = StartRequest(
    governanceId: Digest, schemaId: string, namespace: string, name: string, publicKey: Key)

  datatype EventRequest =
    | Create(start: StartRequest)
    | Fact(subjectId: Digest, payload: Value)
    | Transfer(subjectId: Digest, publicKey: Key)
    | Eol(subjectId: Digest)
  {
    predicate RequiresEvalAppr() {
      Fact?
    }
  }

  datatype SignedRequest = SignedRequest(content: EventRequest, signature: Signature)

  datatype Event = Event(
    subjectId: Digest,
    request: SignedRequest,
    sn: nat,
    govVersion: nat,
    patch: Value,
    stateHash: Digest,
    evalSuccess: bool,
    apprRequired: bool,
    approved: bool,
    hashPrev: Digest,
    evaluators: set<Signature>,
    approvers: set<Signature>)

  datatype SignedEvent = SignedEvent(content: Event, signature: Signature)

  datatype Metadata = Metadata(
    namespace: string, subjectId: Digest, governanceId: Digest, governanceVersion: nat, schemaId: string)

  datatype SubjectContext = SubjectContext(
    governanceId: Digest, schemaId: string, isOwner: bool, state: Value, namespace: string)

  datatype EvaluationRequest = EvaluationRequest(
    request: SignedRequest, context: SubjectContext, sn: nat, govVersion: nat)

  datatype EvaluationResponse = EvaluationResponse(
    patch: Value, evalReqHash: Digest, stateHash: Digest, evalSuccess: bool, apprRequired: bool)

  datatype ApprovalRequest = ApprovalRequest(
    request: SignedRequest, sn: nat, govVersion: nat, patch: Value, stateHash: Digest,
    hashPrev: Digest, govId: Digest)

  datatype ApprovalResponse = ApprovalResponse(apprReqHash: Digest, approved: bool)

  datatype Proof = Proof(
    subjectId: Digest,
    schemaId: string,
    namespace: string,
    name: string,
    subjectPublicKey: Key,
    governanceId: Digest,
    genesisGovVersion: nat,
    sn: nat,
    prevEventHash: Digest,
    eventHash: Digest,
    governanceVersion: nat)
  {
    function GetMetadata(): Metadata {
      Metadata(namespace, subjectId, governanceId, governanceVersion, schemaId)
    }

    /** Equal in every field but the governance version. */
    predicate IsSimilar(other: Proof) {
      && governanceId == other.governanceId
      && subjectId == other.subjectId
      && sn == other.sn
      && schemaId == other.schemaId
      && namespace == other.namespace
      && prevEventHash == other.prevEventHash
      && eventHash == other.eventHash
      && subjectPublicKey == other.subjectPublicKey
      && genesisGovVersion == other.genesisGovVersion
      && name == other.name
    }
  }

  /** Whatever is signed. */
  datatype Content =
    | OfProof(proof: Proof)
    | OfEvent(event: Event)
    | OfSignedEvent(signed: SignedEvent)
    | OfRequest(request: EventRequest)
    | OfEvaluation(evaluation: EvaluationResponse)
    | OfApproval(approval: ApprovalResponse)

  /** Digests, signatures and JSON Patch, left uninterpreted. */
  datatype Crypto = Crypto(
    hashEvent: Event -> Digest,
    hashRequest: SignedRequest -> Digest,
    hashEvaluation: EvaluationRequest -> Digest,
    hashResponse: (Digest, Digest, bool, bool) -> Digest,
    hashApproval: ApprovalRequest -> Digest,
    hashState: Value -> Digest,
    subjectId: (string, string, Key, Digest, nat) -> Digest,
    verifies: (Signature, Content) -> bool,
    patch: (Value, Value) -> Option<Value>)
  {
    /** `generate_subject_id`; the name of the subject is no part of it. */
    function GenerateSubjectId(start: StartRequest, govVersion: nat): Digest {
      subjectId(start.namespace, start.schemaId, start.publicKey, start.governanceId, govVersion)
    }
  }

  /** What governance answers; every answer names the version it is for. */
  datatype Governance = Governance(
    signers: (Metadata, Stage) -> Option<set<Key>>,
    quorum: (Metadata, Stage) -> Option<nat>,
    mayInvoke: (Metadata, Stage, Key) -> Option<bool>,
    initState: (Digest, string, nat) -> Option<Value>)

  datatype Env = Env(crypto: Crypto, gov: Governance, ourId: Key)

  ghost predicate CollisionFree(c: Crypto) {
    && (forall e, f :: c.hashEvent(e) == c.hashEvent(f) ==> e == f)
    && (forall r, s :: c.hashRequest(r) == c.hashRequest(s) ==> r == s)
    && (forall r, s :: c.hashEvaluation(r) == c.hashEvaluation(s) ==> r == s)
    && (forall r, s :: c.hashApproval(r) == c.hashApproval(s) ==> r == s)
    && (forall d, e, b, a, d', e', b', a' :: c.hashResponse(d, e, b, a) == c.hashResponse(d', e', b', a') ==>
          d == d' && e == e' && b == b' && a == a')
    && (forall n, s, k, g, v, n', s', k', g', v' :: c.subjectId(n, s, k, g, v) == c.subjectId(n', s', k', g', v') ==>
          n == n' && s == s' && k == k' && g == g' && v == v')
  }

  /** A signature is on one content only. */
  ghost predicate SignaturesBind(c: Crypto) {
    forall s, a, b :: c.verifies(s, a) && c.verifies(s, b) ==> a == b
  }

  /** The JSON text `[]`. */
  const EMPTY_PATCH: Value := Json.Arr([])

  /** Section 4 of RFC 6902: a patch without operations changes nothing. */
  ghost predicate EmptyPatchIsIdentity(c: Crypto) {
    forall v :: c.patch(v, EMPTY_PATCH) == Some(v)
  }
}
