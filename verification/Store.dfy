/** What a node keeps: its database, and the ledger's in-memory maps over it. */
module Store {
  import opened Protocol
  import opened Subjects

  datatype Certificate = Certificate(signatures: set<Signature>, proof: Proof)

  /** The rows of one subject: itself, its events and certificates by sn, and the proof of its LCE. */
  datatype Rows = Rows(
    subject: Option<Subject>,
    events: map<nat, SignedEvent>,
    certs: map<nat, Certificate>,
    lceProof: Option<Proof>)
  {
    function SetSubject(s: Subject): Rows {
      this.(subject := Some(s))
    }

    /** `set_event` files an event under its own sn. */
    function SetEvent(e: SignedEvent): Rows {
      this.(events := events[e.content.sn := e])
    }

    function DelEvent(sn: nat): Rows {
      this.(events := events - {sn})
    }

    /** `set_signatures` keeps the signatures already stored under this sn and takes the new proof. */
    function SetCert(sn: nat, sigs: set<Signature>, proof: Proof): Rows {
      var stored := if sn in certs then certs[sn].signatures else {};
      this.(certs := certs[sn := Certificate(sigs + stored, proof)])
    }

    function DelCert(sn: int): Rows {
      this.(certs := map k | k in certs && k != sn :: certs[k])
    }

    function SetLceProof(proof: Proof): Rows {
      this.(lceProof := Some(proof))
    }

    function DelLceProof(): Rows {
      this.(lceProof := None)
    }
  }

  const NO_ROWS := Rows(None, map[], map[], None)

  datatype Db = Db(rows: map<Digest, Rows>, requests: set<Digest>, keys: map<Key, KeyPair>) {
    function Get(id: Digest): Rows {
      if id in rows then rows[id] else NO_ROWS
    }

    function Put(id: Digest, r: Rows): (d: Db)
      ensures d.Get(id) == r
      ensures forall j :: j != id ==> d.Get(j) == Get(j)
    {
      this.(rows := rows[id := r])
    }

    /** `set_finished_request`. */
    function Finish(request: Digest): Db {
      this.(requests := requests + {request})
    }

    function DelKeys(k: Key): Db {
      this.(keys := keys - {k})
    }
  }

  /** currentSn is how far the subject has been replayed; head is the sn of a certified later event. */
  datatype LedgerState = LedgerState(currentSn: Option<nat>, head: Option<nat>)

  datatype Node = Node(db: Db, states: map<Digest, LedgerState>, isGov: map<Digest, bool>) {
    function StateOf(id: Digest): Option<LedgerState> {
      if id in states then Some(states[id]) else None
    }

    function SetState(id: Digest, s: LedgerState): Node {
      this.(states := states[id := s])
    }

    function At(id: Digest): Replica {
      Replica(StateOf(id), db.Get(id))
    }
  }

  const NEW_NODE := Node(Db(map[], {}, map[]), map[], map[])

  /** One subject as one node sees it. */
  datatype Replica = Replica(state: Option<LedgerState>, rows: Rows)

  datatype Error =
    | RepeatedRequestId | InvalidSignature | StateInGenesis | EventAlreadyExists | LceBiggerSn
    | SubjectNotFound | SubjectAlreadyExists | SubjectLifeEnd | GovernanceLce | Unauthorized
    | WeAreNotWitnesses | EvaluationInTransferEvent | ApprovalInTransferEvent | SignersError
    | NotEnoughSignatures | GovernanceError | ValidationProofError | UnexpectedTransfer
    | EolWhenActiveLce | IntermediateEol | SubjectIdError | UnexpectedCreateEvent | EventNotNext
    | UnsignedUnknownEvent | EventDoesNotFitHash | MissingEvent | WrongSnInSubject | CryptoError
    | PatchError | DatabaseError | EvaluationFailedInGenesis | ZeroEventsSubject

  datatype Outcome = Accepted | Refused(error: Error) | Panicked
}
