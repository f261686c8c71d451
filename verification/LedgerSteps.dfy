/** The ledger's handlers as functions from one node state to the next. */
module LedgerSteps {
  import opened Protocol
  import opened Subjects
  import opened Quorum
  import opened Verify
  import opened Store

  /** The subject an event is about, as its request tells. */
  function SubjectIdOf(c: Crypto, e: Event): Digest {
    if e.request.content.Create? then c.GenerateSubjectId(e.request.content.start, e.govVersion)
    else e.request.content.subjectId
  }

  // ---- checks ----

  predicate SignaturesOk(c: Crypto, e: SignedEvent) {
    && c.verifies(e.signature, OfEvent(e.content))
    && c.verifies(e.content.request.signature, OfRequest(e.content.request.content))
  }

  /** Signers and quorum of a stage, with the negative quorum of `check_event`; None when governance errs. */
  function StageOf(gov: Governance, meta: Metadata, stage: Stage): Option<(set<Key>, nat)> {
    match (gov.signers(meta, stage), gov.quorum(meta, stage))
    case (Some(s), Some(q)) => Some((s, q))
    case _ => None
  }

  /** `check_event`. The unsigned subtraction panics when a quorum exceeds its signers. */
  function CheckEvent(env: Env, e: Event, meta: Metadata, ctx: SubjectContext): Outcome {
    match StageOf(env.gov, meta, Evaluate)
    case None => Refused(GovernanceError)
    case Some((es, eq)) =>
      if eq > |es| then Panicked
      else
        match StageOf(env.gov, meta, Approve)
        case None => Refused(GovernanceError)
        case Some((as_, aq)) =>
          if aq > |as_| then Panicked
          else if VerifyEvalAppr(env.crypto, e, ctx, StageInfo(es, eq, NegativeQuorum(|es|, eq)),
                    StageInfo(as_, aq, NegativeQuorum(|as_|, aq))) then Accepted
          else Refused(SignersError)
  }

  function CheckTransfer(e: Event): Outcome {
    if !e.evalSuccess || e.patch != EMPTY_PATCH then Refused(EvaluationInTransferEvent)
    else if e.apprRequired || !e.approved then Refused(ApprovalInTransferEvent)
    else Accepted
  }

  /** `verify_signatures` on a proof: enough allowed validators really signed it. */
  predicate Certified(env: Env, sigs: set<Signature>, proof: Proof) {
    match StageOf(env.gov, proof.GetMetadata(), Validate)
    case None => false
    case Some((allowed, q)) => |ValidSigners(env.crypto, sigs, OfProof(proof), allowed)| >= q
  }

  function CheckCertificate(env: Env, sigs: set<Signature>, proof: Proof): Outcome {
    if StageOf(env.gov, proof.GetMetadata(), Validate).None? then Refused(GovernanceError)
    else if !Certified(env, sigs, proof) then Refused(NotEnoughSignatures)
    else Accepted
  }

  /** The proof extends this subject by exactly this event. */
  predicate ProofFits(proof: Proof, s: Subject, hashPrev: Digest, eventHash: Digest, pk: Key) {
    && s.governanceId == proof.governanceId
    && proof.subjectId == s.subjectId
    && proof.sn == s.sn + 1
    && proof.schemaId == s.schemaId
    && proof.namespace == s.namespace
    && proof.prevEventHash == hashPrev
    && proof.eventHash == eventHash
    && proof.subjectPublicKey == pk
    && proof.name == s.name
    && proof.genesisGovVersion == s.genesisGovVersion
  }

  /** `check_validation_proof`. */
  function CheckValidationProof(c: Crypto, db: Db, proof: Proof, s: Subject, eventHash: Digest, pk: Key): Outcome {
    var events := db.Get(s.subjectId).events;
    if s.sn !in events && s.sn != 0 then Refused(DatabaseError)
    else
      var hashPrev := if s.sn in events then c.hashEvent(events[s.sn].content) else NoDigest;
      if ProofFits(proof, s, hashPrev, eventHash, pk) then Accepted else Refused(ValidationProofError)
  }

  /** The public key a proof of this event must name. */
  function ProofKey(s: Subject, e: Event): Key {
    match e.request.content
    case Transfer(_, key) => key
    case _ => s.publicKey
  }

  // ---- genesis ----

  /** `check_genesis`: permission, initial state, and the rows of the new subject. */
  function CheckGenesis(env: Env, db: Db, e: SignedEvent, id: Digest): (Db, Outcome) {
    if !e.content.request.content.Create? then (db, Refused(StateInGenesis))
    else
      var start := e.content.request.content.start;
      var invoker := e.content.request.signature.signer;
      var meta := Metadata(start.namespace, id, start.governanceId, e.content.govVersion, start.schemaId);
      var permission := if start.schemaId == "governance" then Some(true)
                        else env.gov.mayInvoke(meta, Creation, invoker);
      if permission.None? then (db, Refused(GovernanceError))
      else if !permission.value then (db, Refused(Unauthorized))
      else
        match env.gov.initState(start.governanceId, start.schemaId, e.content.govVersion)
        case None => (db, Refused(GovernanceError))
        case Some(v) =>
          var s := FromGenesisEvent(env.crypto, e.content, v, None);
          (db.Put(id, db.Get(id).SetEvent(e).SetSubject(s)).Finish(env.crypto.hashRequest(e.content.request)), Accepted)
  }

  /** `genesis`: this node's own new subject, validated. liveVersion is governance's version by now. */
  function OwnGenesis(env: Env, n: Node, e: SignedEvent, sigs: set<Signature>, proof: Proof,
                      liveVersion: Option<nat>): (Node, Outcome) {
    if !e.content.request.content.Create? then (n, Refused(StateInGenesis))
    else
      var start := e.content.request.content.start;
      var version := if start.schemaId == "governance" && start.governanceId == NoDigest then Some(0) else liveVersion;
      if version.None? then (n, Refused(GovernanceError))
      else
        match env.gov.initState(start.governanceId, start.schemaId, version.value)
        case None => (n, Refused(GovernanceError))
        case Some(v) =>
          if start.publicKey !in n.db.keys then (n, Refused(CryptoError))
          else
            var s := FromGenesisEvent(env.crypto, e.content, v, Some(n.db.keys[start.publicKey]));
            var id := s.subjectId;
            var rows := n.db.Get(id).SetSubject(s).SetCert(e.content.sn, sigs, proof).SetEvent(e);
            var head := if id in n.states then n.states[id].head else None;
            (Node(n.db.Put(id, rows).Finish(env.crypto.hashRequest(e.content.request)),
                  n.states[id := LedgerState(Some(0), head)],
                  n.isGov[id := start.schemaId == "governance"]), Accepted)
  }

  /** The Create branch of `external_event`. */
  function ExternalGenesis(env: Env, n: Node, e: SignedEvent, admitted: bool): (Node, Outcome)
    requires e.content.request.content.Create?
  {
    var start := e.content.request.content.start;
    var id := env.crypto.GenerateSubjectId(start, e.content.govVersion);
    if !e.content.evalSuccess then (n, Refused(EvaluationFailedInGenesis))
    else if n.db.Get(id).subject.Some? then (n, Refused(SubjectAlreadyExists))
    else if !admitted then (n, Refused(WeAreNotWitnesses))
    else
      var (db, r) := CheckGenesis(env, n.db, e, id);
      if !r.Accepted? then (n, r)
      else
        var head := if id in n.states then n.states[id].head else None;
        (Node(db, n.states[id := LedgerState(Some(0), head)],
              n.isGov[id := start.schemaId == "governance"]), Accepted)
  }

  // ---- an external event of a known subject ----

  /** The checks of `external_event` that depend on the kind of request, in the order of its branches. */
  function CheckKind(env: Env, n: Node, id: Digest, ls: LedgerState, s: Subject, e: Event, proof: Proof,
                     admitted: bool): Outcome
    requires !e.request.content.Create?
  {
    var signer := e.request.signature.signer;
    var meta := proof.GetMetadata();
    if !s.active then Refused(SubjectLifeEnd)
    else
      match e.request.content
      case Transfer(_, _) =>
        if id !in n.isGov then Panicked
        else if n.isGov[id] && ls.head == Some(e.sn) then Refused(GovernanceLce)
        else if !admitted then Refused(WeAreNotWitnesses)
        else CheckTransfer(e)
      case Fact(_, _) =>
        if id !in n.isGov then Panicked
        else if n.isGov[id] && e.sn > s.sn + 1 then Refused(GovernanceLce)
        else
          var mayInvoke := if s.owner == signer then Some(true) else env.gov.mayInvoke(meta, Invoke, signer);
          if mayInvoke.None? then Refused(GovernanceError)
          else if !mayInvoke.value then Refused(Unauthorized)
          else if !admitted then Refused(WeAreNotWitnesses)
          else CheckEvent(env, e, meta, s.GetContext(signer))
      case _ =>
        if s.creator != signer then Refused(Unauthorized)
        else if id !in n.isGov then Panicked
        else if n.isGov[id] && e.sn > s.sn + 1 then Refused(GovernanceLce)
        else if !admitted then Refused(WeAreNotWitnesses)
        else CheckEvent(env, e, meta, s.GetContext(signer))
  }

  /** How the next event changes the stored subject: the subject, and the key pair row it uses up. */
  datatype Effect = Effect(subject: Subject, usedKey: Option<Key>) | NoEffect(error: Error)

  /** A transfer takes the key pair out of the database when it is to this node. */
  function TransferEffect(env: Env, db: Db, s: Subject, e: Event, key: Key): Effect {
    var signer := e.request.signature.signer;
    if signer == env.ourId then
      if key in db.keys then Effect(s.TransferSubject(signer, key, Some(db.keys[key]), e.sn), Some(key))
      else NoEffect(UnexpectedTransfer)
    else Effect(s.TransferSubject(signer, key, None, e.sn), Option.None)
  }

  function NextEffect(env: Env, db: Db, s: Subject, e: Event): Effect
    requires !e.request.content.Create?
  {
    match e.request.content
    case Transfer(_, key) => TransferEffect(env, db, s, e, key)
    case Fact(_, _) =>
      if !e.approved then Effect(s.(sn := e.sn), Option.None)
      else
        (match s.UpdateSubject(env.crypto, e.patch, e.sn)
         case None => NoEffect(PatchError)
         case Some(s') => Effect(s', Option.None))
    case _ => Effect(s.(sn := e.sn).EolEvent(), Option.None)
  }

  function UseKey(db: Db, k: Option<Key>): Db {
    match k
    case None => db
    case Some(key) => db.DelKeys(key)
  }

  /** The rows once the next event is taken in; only a governance keeps the certificate before it. */
  function NextRows(rows: Rows, s: Subject, e: SignedEvent, sigs: set<Signature>, proof: Proof, isGov: bool): Rows {
    var rows' := rows.SetCert(e.content.sn, sigs, proof).SetEvent(e).SetSubject(s);
    if isGov then rows' else rows'.DelCert(e.content.sn - 1)
  }

  /** The event follows the subject directly and nothing later is pending. */
  function NextEvent(env: Env, n: Node, id: Digest, ls: LedgerState, s: Subject, e: SignedEvent,
                     sigs: set<Signature>, proof: Proof): (Node, Outcome)
    requires !e.content.request.content.Create? && id in n.isGov
  {
    var ev := e.content;
    var checked := CheckValidationProof(env.crypto, n.db, proof, s, env.crypto.hashEvent(ev), ProofKey(s, ev));
    if !checked.Accepted? then (n, checked)
    else
      match NextEffect(env, n.db, s, ev)
      case NoEffect(error) => (n, Refused(error))
      case Effect(s', used) =>
        (Node(UseKey(n.db.Put(id, NextRows(n.db.Get(id), s', e, sigs, proof, n.isGov[id])).Finish(env.crypto.hashRequest(ev.request)), used),
              n.states[id := LedgerState(Some(ev.sn), ls.head)], n.isGov), Accepted)
  }

  /** A later event that came with some certificate: it becomes the head, in place of a higher one. */
  function LaterEvent(env: Env, n: Node, id: Digest, ls: LedgerState, s: Subject, e: SignedEvent,
                      sigs: set<Signature>, proof: Proof): (Node, Outcome)
    requires !e.content.request.content.Create? && id in n.isGov
  {
    var sn := e.content.sn;
    if n.isGov[id] then (n, Refused(GovernanceLce))
    else if ls.head.Some? && sn > ls.head.value then (n, Refused(LceBiggerSn))
    else if ls.head.Some? && e.content.request.content.Eol? then (n, Refused(EolWhenActiveLce))
    else
      var rows := n.db.Get(id).SetCert(sn, sigs, proof).SetEvent(e).SetLceProof(proof);
      var rows' := match ls.head
                   case Some(h) => rows.DelCert(h).DelEvent(h)
                   case None => rows.DelCert(s.sn);
      (Node(n.db.Put(id, rows').Finish(env.crypto.hashRequest(e.content.request)),
            n.states[id := LedgerState(ls.currentSn, Some(sn))], n.isGov), Accepted)
  }

  function ExternalKnown(env: Env, n: Node, id: Digest, ls: LedgerState, e: SignedEvent,
                         sigs: set<Signature>, proof: Proof, admitted: bool): (Node, Outcome)
    requires !e.content.request.content.Create?
  {
    var ev := e.content;
    if ls.currentSn.None? then (n, Refused(LceBiggerSn))
    else if ev.sn <= ls.currentSn.value then (n, Refused(EventAlreadyExists))
    else
      match n.db.Get(id).subject
      case None => (n, Refused(SubjectNotFound))
      case Some(s) =>
        var kind := CheckKind(env, n, id, ls, s, ev, proof, admitted);
        var cert := CheckCertificate(env, sigs, proof);
        if !kind.Accepted? then (n, kind)
        else if !cert.Accepted? then (n, cert)
        else if ev.sn == s.sn + 1 && ls.head.None? then NextEvent(env, n, id, ls, s, e, sigs, proof)
        else if ev.sn > s.sn then LaterEvent(env, n, id, ls, s, e, sigs, proof)
        else (n, Refused(EventAlreadyExists))
  }

  /** An event, with some certificate, of a subject nothing is known of. */
  function ExternalUnknown(env: Env, n: Node, id: Digest, e: SignedEvent,
                           sigs: set<Signature>, proof: Proof, admitted: bool): (Node, Outcome)
    requires !e.content.request.content.Create?
  {
    var sn := e.content.sn;
    var isGov := proof.GetMetadata().schemaId == "governance";
    var n' := n.(isGov := n.isGov[id := isGov]);
    if isGov then (n', Refused(GovernanceLce))
    else if !admitted then (n', Refused(WeAreNotWitnesses))
    else
      var kind := if e.content.request.content.Transfer? then CheckTransfer(e.content) else Accepted;
      var cert := CheckCertificate(env, sigs, proof);
      if !kind.Accepted? then (n', kind)
      else if !cert.Accepted? then (n', cert)
      else
        var rows := n.db.Get(id).SetCert(sn, sigs, proof).SetLceProof(proof).SetEvent(e);
        (n'.(db := n.db.Put(id, rows).Finish(env.crypto.hashRequest(e.content.request)),
             states := n.states[id := LedgerState(None, Some(sn))]), Accepted)
  }

  /** `external_event`. admitted: this node is a witness, or the subject is preauthorized. */
  function ExternalEvent(env: Env, n: Node, e: SignedEvent, sigs: set<Signature>, proof: Proof,
                         admitted: bool): (Node, Outcome) {
    if env.crypto.hashRequest(e.content.request) in n.db.requests then (n, Refused(RepeatedRequestId))
    else if !SignaturesOk(env.crypto, e) then (n, Refused(InvalidSignature))
    else
      match e.content.request.content
      case Create(_) => ExternalGenesis(env, n, e, admitted)
      case request =>
        var id := request.subjectId;
        match n.StateOf(id)
        case None => ExternalUnknown(env, n, id, e, sigs, proof, admitted)
        case Some(ls) => ExternalKnown(env, n, id, ls, e, sigs, proof, admitted)
  }

  // ---- catching up ----

  /** The stored predecessor of e is the event e says it follows. */
  predicate FitsHash(c: Crypto, rows: Rows, e: Event) {
    e.sn >= 1 && e.sn - 1 in rows.events && c.hashEvent(rows.events[e.sn - 1].content) == e.hashPrev
  }

  function LinkError(c: Crypto, rows: Rows, e: Event): Option<Error> {
    if e.sn == 0 || e.sn - 1 !in rows.events then Some(MissingEvent)
    else if !FitsHash(c, rows, e) then Some(EventDoesNotFitHash)
    else Option.None
  }

  datatype Sourced = Sourced(db: Db, subject: Subject) | NotSourced(error: Error)

  /** `event_sourcing_rejected_event`: the sn moves, the state does not. */
  function SourceRejected(c: Crypto, db: Db, e: Event): Sourced {
    var rows := db.Get(e.subjectId);
    match LinkError(c, rows, e)
    case Some(error) => NotSourced(error)
    case None =>
      match rows.subject
      case None => NotSourced(DatabaseError)
      case Some(s) =>
        if e.sn != s.sn + 1 then NotSourced(EventNotNext)
        else Sourced(db.Put(e.subjectId, rows.SetSubject(s.(sn := e.sn))), s.(sn := e.sn))
  }

  /** `event_sourcing` of a stored event: check its link, apply it to the stored subject, store the result. */
  function EventSourcing(env: Env, db: Db, e: Event): Sourced {
    if !e.approved then SourceRejected(env.crypto, db, e)
    else if e.request.content.Create? then NotSourced(UnexpectedCreateEvent)
    else
      var id := e.request.content.subjectId;
      var rows := db.Get(id);
      match LinkError(env.crypto, rows, e)
      case Some(error) => NotSourced(error)
      case None =>
        match rows.subject
        case None => NotSourced(DatabaseError)
        case Some(s) =>
          match e.request.content
          case Transfer(_, key) =>
            (match TransferEffect(env, db, s, e, key)
             case NoEffect(error) => NotSourced(error)
             case Effect(s', used) => Sourced(UseKey(db.Put(id, rows.SetSubject(s')), used), s'))
          case Fact(_, _) =>
            (match s.UpdateSubject(env.crypto, e.patch, e.sn)
             case None => NotSourced(PatchError)
             case Some(s') => Sourced(db.Put(id, rows.SetSubject(s')), s'))
          case _ =>
            Sourced(db.Put(id, rows.SetSubject(s.EolEvent())), s.EolEvent())
  }

  /** The LCE directly follows the subject by now: check its proof, apply it, and the catch-up is over. */
  function Complete(env: Env, n: Node, id: Digest, s: Subject, head: nat): (Node, Outcome) {
    var rows := n.db.Get(id);
    if head !in rows.events then (n, Refused(MissingEvent))
    else if rows.lceProof.None? then (n, Refused(DatabaseError))
    else
      var e := rows.events[head].content;
      var checked := CheckValidationProof(env.crypto, n.db, rows.lceProof.value, s, env.crypto.hashEvent(e), ProofKey(s, e));
      if !checked.Accepted? then (n, checked)
      else
        match EventSourcing(env, n.db, e)
        case NotSourced(error) => (n, Refused(error))
        case Sourced(db, _) =>
          (Node(db.Put(id, db.Get(id).DelLceProof()), n.states[id := LedgerState(Some(head), None)], n.isGov), Accepted)
  }

  /** What is checked of a catch-up event before it is stored: of a transfer its flags alone. */
  function IntermediateKind(env: Env, s: Subject, ev: Event): Outcome {
    match ev.request.content
    case Create(_) => Refused(UnexpectedCreateEvent)
    case Fact(_, _) =>
      CheckEvent(env, ev, Metadata(s.namespace, s.subjectId, s.governanceId, ev.govVersion, s.schemaId),
        s.GetContext(ev.request.signature.signer))
    case _ => CheckTransfer(ev)
  }

  /** The event wanted next on the way from currentSn to head. */
  function IntermediateNext(env: Env, n: Node, id: Digest, current: nat, head: nat, e: SignedEvent): (Node, Outcome)
    requires !e.content.request.content.Eol?
  {
    var ev := e.content;
    match n.db.Get(id).subject
    case None => (n, Refused(SubjectNotFound))
    case Some(s) =>
      if ev.sn != current + 1 then (n, Refused(EventNotNext))
      else
        var kind := IntermediateKind(env, s, ev);
        if !kind.Accepted? then (n, kind)
        else
          var stored := n.db.Put(id, n.db.Get(id).SetEvent(e)).Finish(env.crypto.hashRequest(ev.request));
          SourceNext(env, n.(db := stored), id, current, head, ev)
  }

  /** The event is stored by now: apply it, and the head too when nothing is missing before it. */
  function SourceNext(env: Env, n: Node, id: Digest, current: nat, head: nat, ev: Event): (Node, Outcome) {
    match EventSourcing(env, n.db, ev)
    case NotSourced(error) => (n, Refused(error))
    case Sourced(db, s) =>
      var n' := n.(db := db);
      if head == current + 2 then Complete(env, n', id, s, head)
      else (n'.SetState(id, LedgerState(Some(current + 1), Some(head))), Accepted)
  }

  /** Event 0 of a subject of which only an LCE is held. */
  function IntermediateGenesis(env: Env, n: Node, id: Digest, head: nat, e: SignedEvent): (Node, Outcome) {
    if e.content.sn != 0 then (n, Refused(UnsignedUnknownEvent))
    else
      var (db, r) := CheckGenesis(env, n.db, e, id);
      if !r.Accepted? then (n, r)
      else if head == 1 then Complete(env, n.(db := db), id, db.Get(id).subject.value, 1)
      else (n.(db := db).SetState(id, LedgerState(Some(0), Some(head))), Accepted)
  }

  /** `external_intermediate_event`. */
  function IntermediateEvent(env: Env, n: Node, e: SignedEvent): (Node, Outcome) {
    var ev := e.content;
    if env.crypto.hashRequest(ev.request) in n.db.requests then (n, Refused(RepeatedRequestId))
    else if !SignaturesOk(env.crypto, e) then (n, Refused(InvalidSignature))
    else if ev.request.content.Eol? then (n, Refused(IntermediateEol))
    else
      var id := SubjectIdOf(env.crypto, ev);
      if id != ev.subjectId then (n, Refused(SubjectIdError))
      else
        match n.StateOf(id)
        case None => (n, Refused(UnsignedUnknownEvent))
        case Some(ls) =>
          match ls.head
          case None => (n, Refused(UnsignedUnknownEvent))
          case Some(head) =>
            match ls.currentSn
            case Some(current) => IntermediateNext(env, n, id, current, head, e)
            case None => IntermediateGenesis(env, n, id, head, e)
  }

  // ---- this node's own events ----

  /** How `event_validated` changes the stored subject; a transfer to this node keeps the key pair row. */
  function OwnEffect(env: Env, db: Db, s: Subject, e: Event): Effect
    requires !e.request.content.Create?
  {
    match e.request.content
    case Fact(_, _) =>
      if s.sn + 1 != e.sn then NoEffect(WrongSnInSubject)
      else if !e.approved then Effect(s.(sn := e.sn), Option.None)
      else
        (match s.UpdateSubject(env.crypto, e.patch, e.sn)
         case None => NoEffect(PatchError)
         case Some(s') => Effect(s', Option.None))
    case Transfer(_, key) =>
      var signer := e.request.signature.signer;
      if signer != env.ourId then Effect(s.TransferSubject(signer, key, None, e.sn), Option.None)
      else if key in db.keys then Effect(s.TransferSubject(signer, key, Some(db.keys[key]), e.sn), Option.None)
      else NoEffect(DatabaseError)
    case _ => Effect(s.(sn := e.sn).EolEvent(), Option.None)
  }

  /** `event_validated`. gov: what governance says of a subject missing from the in-memory map. */
  function OwnEvent(env: Env, n: Node, e: SignedEvent, sigs: set<Signature>, proof: Proof, gov: bool): (Node, Outcome) {
    var ev := e.content;
    if ev.request.content.Create? then (n, Refused(StateInGenesis))
    else
      var id := ev.request.content.subjectId;
      match n.db.Get(id).subject
      case None => (n, Refused(SubjectNotFound))
      case Some(s) =>
        match OwnEffect(env, n.db, s, ev)
        case NoEffect(error) =>
          // a fact is refused only after its signatures have been stored
          (if ev.request.content.Fact? then n.(db := n.db.Put(id, n.db.Get(id).SetCert(ev.sn, sigs, proof))) else n,
           Refused(error))
        case Effect(s', _) =>
          StoreOwn(env, n, id, s', e, sigs, proof, if id in n.isGov then n.isGov[id] else gov)
  }

  /** The part of `event_validated` that stores the event and counts it. */
  function StoreOwn(env: Env, n: Node, id: Digest, s: Subject, e: SignedEvent, sigs: set<Signature>, proof: Proof,
                    isGov: bool): (Node, Outcome) {
    var db := n.db.Put(id, NextRows(n.db.Get(id), s, e, sigs, proof, isGov)).Finish(env.crypto.hashRequest(e.content.request));
    var n' := Node(db, n.states, n.isGov[id := isGov]);
    match n.StateOf(id)
    case None => (n'.SetState(id, LedgerState(Some(0), None)), Accepted)
    case Some(ls) =>
      if ls.currentSn.None? then (n', Panicked)
      else (n'.SetState(id, LedgerState(Some(ls.currentSn.value + 1), ls.head)), Accepted)
  }
}
