/** The ledger as it is: a database and two maps, which the handlers update in place. */
module LedgerHandlers {
  import opened Protocol
  import opened Subjects
  import opened Quorum
  import opened Verify
  import opened Store
  import S = LedgerSteps

  class Database {
    var data: Db

    constructor (d: Db)
      ensures data == d
    {
      data := d;
    }

    method SetEvent(id: Digest, e: SignedEvent)
      modifies this
      ensures data == old(data).Put(id, old(data).Get(id).SetEvent(e))
    {
      data := data.Put(id, data.Get(id).SetEvent(e));
    }

    method DelEvent(id: Digest, sn: nat)
      modifies this
      ensures data == old(data).Put(id, old(data).Get(id).DelEvent(sn))
    {
      data := data.Put(id, data.Get(id).DelEvent(sn));
    }

    method SetSubject(id: Digest, s: Subject)
      modifies this
      ensures data == old(data).Put(id, old(data).Get(id).SetSubject(s))
    {
      data := data.Put(id, data.Get(id).SetSubject(s));
    }

    method SetSignatures(id: Digest, sn: nat, signatures: set<Signature>, proof: Proof)
      modifies this
      ensures data == old(data).Put(id, old(data).Get(id).SetCert(sn, signatures, proof))
    {
      data := data.Put(id, data.Get(id).SetCert(sn, signatures, proof));
    }

    method DelSignatures(id: Digest, sn: int)
      modifies this
      ensures data == old(data).Put(id, old(data).Get(id).DelCert(sn))
    {
      data := data.Put(id, data.Get(id).DelCert(sn));
    }

    method SetLceValidationProof(id: Digest, proof: Proof)
      modifies this
      ensures data == old(data).Put(id, old(data).Get(id).SetLceProof(proof))
    {
      data := data.Put(id, data.Get(id).SetLceProof(proof));
    }

    method DelLceValidationProof(id: Digest)
      modifies this
      ensures data == old(data).Put(id, old(data).Get(id).DelLceProof())
    {
      data := data.Put(id, data.Get(id).DelLceProof());
    }

    method SetFinishedRequest(request: Digest)
      modifies this
      ensures data == old(data).Finish(request)
    {
      data := data.Finish(request);
    }

    method DelKeys(key: Key)
      modifies this
      ensures data == old(data).DelKeys(key)
    {
      data := data.DelKeys(key);
    }
  }

  /** Two writes to one subject's rows are the second one, with or without a finished request in between. */
  lemma PutPut()
    ensures forall d: Db, id, a, b :: d.Put(id, a).Put(id, b) == d.Put(id, b)
    ensures forall d: Db, id, a, b, q :: d.Put(id, a).Finish(q).Put(id, b) == d.Put(id, b).Finish(q)
  {
    forall d: Db, id, a, b ensures d.Put(id, a).Put(id, b) == d.Put(id, b) {
      assert d.rows[id := a][id := b] == d.rows[id := b];
    }
    forall d: Db, id, a, b, q ensures d.Put(id, a).Finish(q).Put(id, b) == d.Put(id, b).Finish(q) {
      assert d.rows[id := a][id := b] == d.rows[id := b];
    }
  }

  class Ledger {
    const env: Env
    const database: Database
    var ledgerState: map<Digest, LedgerState>
    var subjectIsGov: map<Digest, bool>

    constructor (env: Env, database: Database)
      ensures this.env == env && this.database == database
      ensures State() == Node(database.data, map[], map[])
    {
      this.env, this.database := env, database;
      ledgerState, subjectIsGov := map[], map[];
    }

    function State(): Node
      reads this, database
    {
      Node(database.data, ledgerState, subjectIsGov)
    }

    // ---- checks ----

    /** The loop skips signatures that do not verify or whose signer is not allowed or already counted. */
    method VerifySignatures(signatures: set<Signature>, signers: set<Key>, quorum: nat, proof: Proof)
      returns (r: Outcome)
      ensures r == if |ValidSigners(env.crypto, signatures, OfProof(proof), signers)| >= quorum
                   then Accepted else Refused(NotEnoughSignatures)
    {
      var actual: set<Key> := {};
      var rest := signatures;
      while rest != {}
        invariant rest <= signatures
        invariant actual == ValidSigners(env.crypto, signatures - rest, OfProof(proof), signers)
        decreases rest
      {
        var s :| s in rest;
        assert signatures - (rest - {s}) == (signatures - rest) + {s};
        rest := rest - {s};
        if !env.crypto.verifies(s, OfProof(proof)) { continue; }
        if s.signer !in signers { continue; }
        actual := actual + {s.signer};
      }
      assert signatures - rest == signatures;
      r := if |actual| < quorum then Refused(NotEnoughSignatures) else Accepted;
    }

    method CheckCertificate(signatures: set<Signature>, proof: Proof) returns (r: Outcome)
      ensures r == S.CheckCertificate(env, signatures, proof)
    {
      var stage := S.StageOf(env.gov, proof.GetMetadata(), Validate);
      if stage.None? { return Refused(GovernanceError); }
      r := VerifySignatures(signatures, stage.value.0, stage.value.1, proof);
    }

    method CheckEvent(e: Event, meta: Metadata, ctx: SubjectContext) returns (r: Outcome)
      ensures r == S.CheckEvent(env, e, meta, ctx)
    {
      var eval := S.StageOf(env.gov, meta, Evaluate);
      if eval.None? { return Refused(GovernanceError); }
      var (es, eq) := eval.value;
      if eq > |es| { return Panicked; }
      var appr := S.StageOf(env.gov, meta, Approve);
      if appr.None? { return Refused(GovernanceError); }
      var (ps, pq) := appr.value;
      if pq > |ps| { return Panicked; }
      var v := RunVerifyEvalAppr(env.crypto, e, ctx, StageInfo(es, eq, NegativeQuorum(|es|, eq)),
        StageInfo(ps, pq, NegativeQuorum(|ps|, pq)));
      r := if v.Passed? then Accepted else Refused(SignersError);
    }

    // ---- genesis ----

    method CheckGenesis(e: SignedEvent, id: Digest) returns (r: Outcome)
      modifies database
      ensures (database.data, r) == S.CheckGenesis(env, old(database.data), e, id)
    {
      PutPut();
      if !e.content.request.content.Create? { return Refused(StateInGenesis); }
      var start := e.content.request.content.start;
      var meta := Metadata(start.namespace, id, start.governanceId, e.content.govVersion, start.schemaId);
      if start.schemaId != "governance" {
        var permission := env.gov.mayInvoke(meta, Creation, e.content.request.signature.signer);
        if permission.None? { return Refused(GovernanceError); }
        if !permission.value { return Refused(Unauthorized); }
      }
      var initState := env.gov.initState(start.governanceId, start.schemaId, e.content.govVersion);
      if initState.None? { return Refused(GovernanceError); }
      var s := FromGenesisEvent(env.crypto, e.content, initState.value, None);
      database.SetEvent(id, e);
      database.SetFinishedRequest(env.crypto.hashRequest(e.content.request));
      database.SetSubject(id, s);
      r := Accepted;
    }

    /** Records how far the subject is, keeping its head. */
    method Started(id: Digest)
      modifies this`ledgerState
      ensures ledgerState == old(ledgerState)[id := LedgerState(Some(0),
        if id in old(ledgerState) then old(ledgerState)[id].head else None)]
    {
      var head := if id in ledgerState then ledgerState[id].head else None;
      ledgerState := ledgerState[id := LedgerState(Some(0), head)];
    }

    method Genesis(e: SignedEvent, sigs: set<Signature>, proof: Proof, liveVersion: Option<nat>)
      returns (r: Outcome)
      modifies this, database
      ensures (State(), r) == S.OwnGenesis(env, old(State()), e, sigs, proof, liveVersion)
    {
      PutPut();
      if !e.content.request.content.Create? { return Refused(StateInGenesis); }
      var start := e.content.request.content.start;
      var version := liveVersion;
      if start.schemaId == "governance" && start.governanceId == NoDigest { version := Some(0); }
      if version.None? { return Refused(GovernanceError); }
      var initState := env.gov.initState(start.governanceId, start.schemaId, version.value);
      if initState.None? { return Refused(GovernanceError); }
      if start.publicKey !in database.data.keys { return Refused(CryptoError); }
      var s := FromGenesisEvent(env.crypto, e.content, initState.value, Some(database.data.keys[start.publicKey]));
      var id := s.subjectId;
      subjectIsGov := subjectIsGov[id := start.schemaId == "governance"];
      database.SetSubject(id, s);
      database.SetSignatures(id, e.content.sn, sigs, proof);
      database.SetEvent(id, e);
      database.SetFinishedRequest(env.crypto.hashRequest(e.content.request));
      Started(id);
      r := Accepted;
    }

    method ExternalGenesis(e: SignedEvent, admitted: bool) returns (r: Outcome)
      requires e.content.request.content.Create?
      modifies this, database
      ensures (State(), r) == S.ExternalGenesis(env, old(State()), e, admitted)
    {
      var start := e.content.request.content.start;
      var id := env.crypto.GenerateSubjectId(start, e.content.govVersion);
      if !e.content.evalSuccess { return Refused(EvaluationFailedInGenesis); }
      if database.data.Get(id).subject.Some? { return Refused(SubjectAlreadyExists); }
      if !admitted { return Refused(WeAreNotWitnesses); }
      r := CheckGenesis(e, id);
      if !r.Accepted? { return; }
      subjectIsGov := subjectIsGov[id := start.schemaId == "governance"];
      Started(id);
    }

    // ---- external events of known subjects ----

    /** The event that directly follows the stored subject. */
    method NextEvent(id: Digest, subject: Subject, e: SignedEvent, sigs: set<Signature>, proof: Proof)
      returns (r: Outcome)
      requires !e.content.request.content.Create? && id in subjectIsGov && id in ledgerState
      modifies this`ledgerState, database
      ensures (State(), r) == S.NextEvent(env, old(State()), id, old(ledgerState[id]), subject, e, sigs, proof)
    {
      var ev := e.content;
      r := S.CheckValidationProof(env.crypto, database.data, proof, subject, env.crypto.hashEvent(ev), S.ProofKey(subject, ev));
      if !r.Accepted? { return; }
      var effect := S.NextEffect(env, database.data, subject, ev);
      if effect.NoEffect? { return Refused(effect.error); }
      StoreNext(id, effect.subject, e, sigs, proof, subjectIsGov[id]);
      if effect.usedKey.Some? { database.DelKeys(effect.usedKey.value); }
      ledgerState := ledgerState[id := LedgerState(Some(ev.sn), ledgerState[id].head)];
    }

    /** The event further on: it becomes the head. */
    method LaterEvent(id: Digest, subject: Subject, e: SignedEvent, sigs: set<Signature>, proof: Proof)
      returns (r: Outcome)
      requires !e.content.request.content.Create? && id in subjectIsGov && id in ledgerState
      modifies this`ledgerState, database
      ensures (State(), r) == S.LaterEvent(env, old(State()), id, old(ledgerState[id]), subject, e, sigs, proof)
    {
      PutPut();
      var sn := e.content.sn;
      if subjectIsGov[id] { return Refused(GovernanceLce); }
      var lastLce := ledgerState[id].head;
      if lastLce.Some? {
        if sn > lastLce.value { return Refused(LceBiggerSn); }
        if e.content.request.content.Eol? { return Refused(EolWhenActiveLce); }
      }
      database.SetSignatures(id, sn, sigs, proof);
      database.SetLceValidationProof(id, proof);
      database.SetFinishedRequest(env.crypto.hashRequest(e.content.request));
      database.SetEvent(id, e);
      if lastLce.Some? {
        database.DelSignatures(id, lastLce.value);
        database.DelEvent(id, lastLce.value);
      } else {
        database.DelSignatures(id, subject.sn);
      }
      ledgerState := ledgerState[id := LedgerState(ledgerState[id].currentSn, Some(sn))];
      r := Accepted;
    }

    method ExternalKnown(id: Digest, e: SignedEvent, sigs: set<Signature>, proof: Proof, admitted: bool)
      returns (r: Outcome)
      requires !e.content.request.content.Create? && id in ledgerState
      modifies this`ledgerState, database
      ensures (State(), r) == S.ExternalKnown(env, old(State()), id, old(ledgerState[id]), e, sigs, proof, admitted)
    {
      var ls := ledgerState[id];
      if ls.currentSn.None? { return Refused(LceBiggerSn); }
      if e.content.sn <= ls.currentSn.value { return Refused(EventAlreadyExists); }
      var stored := database.data.Get(id).subject;
      if stored.None? { return Refused(SubjectNotFound); }
      var subject := stored.value;
      r := S.CheckKind(env, State(), id, ls, subject, e.content, proof, admitted);
      if !r.Accepted? { return; }
      r := CheckCertificate(sigs, proof);
      if !r.Accepted? { return; }
      if e.content.sn == subject.sn + 1 && ls.head.None? {
        r := NextEvent(id, subject, e, sigs, proof);
      } else if e.content.sn > subject.sn {
        r := LaterEvent(id, subject, e, sigs, proof);
      } else {
        r := Refused(EventAlreadyExists);
      }
    }

    method ExternalUnknown(id: Digest, e: SignedEvent, sigs: set<Signature>, proof: Proof, admitted: bool)
      returns (r: Outcome)
      requires !e.content.request.content.Create?
      modifies this, database
      ensures (State(), r) == S.ExternalUnknown(env, old(State()), id, e, sigs, proof, admitted)
    {
      PutPut();
      if proof.GetMetadata().schemaId == "governance" {
        subjectIsGov := subjectIsGov[id := true];
        return Refused(GovernanceLce);
      }
      subjectIsGov := subjectIsGov[id := false];
      if !admitted { return Refused(WeAreNotWitnesses); }
      if e.content.request.content.Transfer? {
        r := S.CheckTransfer(e.content);
        if !r.Accepted? { return; }
      }
      r := CheckCertificate(sigs, proof);
      if !r.Accepted? { return; }
      database.SetSignatures(id, e.content.sn, sigs, proof);
      database.SetLceValidationProof(id, proof);
      database.SetEvent(id, e);
      database.SetFinishedRequest(env.crypto.hashRequest(e.content.request));
      ledgerState := ledgerState[id := LedgerState(None, Some(e.content.sn))];
    }

    method ExternalEvent(e: SignedEvent, sigs: set<Signature>, proof: Proof, admitted: bool) returns (r: Outcome)
      modifies this, database
      ensures (State(), r) == S.ExternalEvent(env, old(State()), e, sigs, proof, admitted)
    {
      if env.crypto.hashRequest(e.content.request) in database.data.requests { return Refused(RepeatedRequestId); }
      if !S.SignaturesOk(env.crypto, e) { return Refused(InvalidSignature); }
      if e.content.request.content.Create? {
        r := ExternalGenesis(e, admitted);
      } else {
        var id := e.content.request.content.subjectId;
        if id in ledgerState {
          r := ExternalKnown(id, e, sigs, proof, admitted);
        } else {
          r := ExternalUnknown(id, e, sigs, proof, admitted);
        }
      }
    }

    // ---- catching up ----

    /** `event_sourcing`: the subject as stored afterwards, or why it was not changed. */
    method EventSourcing(e: Event) returns (x: S.Sourced)
      modifies database
      ensures x == S.EventSourcing(env, old(database.data), e)
      ensures database.data == if x.Sourced? then x.db else old(database.data)
    {
      PutPut();
      if e.approved && e.request.content.Create? { return S.NotSourced(UnexpectedCreateEvent); }
      var id := if e.approved then e.request.content.subjectId else e.subjectId;
      var rows := database.data.Get(id);
      var unlinked := S.LinkError(env.crypto, rows, e);
      if unlinked.Some? { return S.NotSourced(unlinked.value); }
      if rows.subject.None? { return S.NotSourced(DatabaseError); }
      var subject := rows.subject.value;
      var usedKey := Option.None;
      if !e.approved {
        if e.sn != subject.sn + 1 { return S.NotSourced(EventNotNext); }
        subject := subject.(sn := e.sn);
      } else if e.request.content.Transfer? {
        var effect := S.TransferEffect(env, database.data, subject, e, e.request.content.publicKey);
        if effect.NoEffect? { return S.NotSourced(effect.error); }
        subject, usedKey := effect.subject, effect.usedKey;
      } else if e.request.content.Fact? {
        var updated := subject.UpdateSubject(env.crypto, e.patch, e.sn);
        if updated.None? { return S.NotSourced(PatchError); }
        subject := updated.value;
      } else {
        subject := subject.EolEvent();
      }
      database.SetSubject(id, subject);
      if usedKey.Some? { database.DelKeys(usedKey.value); }
      x := S.Sourced(database.data, subject);
    }

    method Complete(id: Digest, subject: Subject, head: nat) returns (r: Outcome)
      modifies this`ledgerState, database
      ensures (State(), r) == S.Complete(env, old(State()), id, subject, head)
    {
      PutPut();
      var rows := database.data.Get(id);
      if head !in rows.events { return Refused(MissingEvent); }
      if rows.lceProof.None? { return Refused(DatabaseError); }
      var e := rows.events[head].content;
      r := S.CheckValidationProof(env.crypto, database.data, rows.lceProof.value, subject, env.crypto.hashEvent(e),
        S.ProofKey(subject, e));
      if !r.Accepted? { return; }
      var x := EventSourcing(e);
      if x.NotSourced? { return Refused(x.error); }
      ledgerState := ledgerState[id := LedgerState(Some(head), None)];
      database.DelLceValidationProof(id);
    }

    method IntermediateNext(id: Digest, current: nat, head: nat, e: SignedEvent) returns (r: Outcome)
      requires !e.content.request.content.Eol?
      modifies this`ledgerState, database
      ensures (State(), r) == S.IntermediateNext(env, old(State()), id, current, head, e)
    {
      PutPut();
      var ev := e.content;
      if database.data.Get(id).subject.None? { return Refused(SubjectNotFound); }
      var subject := database.data.Get(id).subject.value;
      if ev.sn != current + 1 { return Refused(EventNotNext); }
      if ev.request.content.Create? { return Refused(UnexpectedCreateEvent); }
      if ev.request.content.Fact? {
        var meta := Metadata(subject.namespace, subject.subjectId, subject.governanceId, ev.govVersion, subject.schemaId);
        r := CheckEvent(ev, meta, subject.GetContext(ev.request.signature.signer));
      } else {
        r := S.CheckTransfer(ev);
      }
      if !r.Accepted? { return; }
      database.SetEvent(id, e);
      database.SetFinishedRequest(env.crypto.hashRequest(ev.request));
      var x := EventSourcing(ev);
      if x.NotSourced? { return Refused(x.error); }
      if head == current + 2 {
        r := Complete(id, x.subject, head);
      } else {
        ledgerState := ledgerState[id := LedgerState(Some(current + 1), Some(head))];
      }
    }

    method IntermediateGenesis(id: Digest, head: nat, e: SignedEvent) returns (r: Outcome)
      modifies this`ledgerState, database
      ensures (State(), r) == S.IntermediateGenesis(env, old(State()), id, head, e)
    {
      if e.content.sn != 0 { return Refused(UnsignedUnknownEvent); }
      r := CheckGenesis(e, id);
      if !r.Accepted? { return; }
      if head == 1 {
        r := Complete(id, database.data.Get(id).subject.value, 1);
      } else {
        ledgerState := ledgerState[id := LedgerState(Some(0), Some(head))];
      }
    }

    method ExternalIntermediateEvent(e: SignedEvent) returns (r: Outcome)
      modifies this`ledgerState, database
      ensures (State(), r) == S.IntermediateEvent(env, old(State()), e)
    {
      var ev := e.content;
      if env.crypto.hashRequest(ev.request) in database.data.requests { return Refused(RepeatedRequestId); }
      if !S.SignaturesOk(env.crypto, e) { return Refused(InvalidSignature); }
      if ev.request.content.Eol? { return Refused(IntermediateEol); }
      var id := S.SubjectIdOf(env.crypto, ev);
      if id != ev.subjectId { return Refused(SubjectIdError); }
      if id !in ledgerState || ledgerState[id].head.None? { return Refused(UnsignedUnknownEvent); }
      var ls := ledgerState[id];
      if ls.currentSn.Some? {
        r := IntermediateNext(id, ls.currentSn.value, ls.head.value, e);
      } else {
        r := IntermediateGenesis(id, ls.head.value, e);
      }
    }

    // ---- own events ----

    method EventValidated(e: SignedEvent, sigs: set<Signature>, proof: Proof, gov: bool) returns (r: Outcome)
      modifies this, database
      ensures (State(), r) == S.OwnEvent(env, old(State()), e, sigs, proof, gov)
    {
      var ev := e.content;
      if ev.request.content.Create? { return Refused(StateInGenesis); }
      var id := ev.request.content.subjectId;
      if database.data.Get(id).subject.None? { return Refused(SubjectNotFound); }
      var effect := S.OwnEffect(env, database.data, database.data.Get(id).subject.value, ev);
      if effect.NoEffect? && !ev.request.content.Fact? { return Refused(effect.error); }
      if effect.NoEffect? {
        database.SetSignatures(id, ev.sn, sigs, proof);
        return Refused(effect.error);
      }
      r := StoreOwn(id, effect.subject, e, sigs, proof, if id in subjectIsGov then subjectIsGov[id] else gov);
    }

    /** Stores this node's own event and counts it. */
    method StoreOwn(id: Digest, subject: Subject, e: SignedEvent, sigs: set<Signature>, proof: Proof, isGov: bool)
      returns (r: Outcome)
      modifies this, database
      ensures (State(), r) == S.StoreOwn(env, old(State()), id, subject, e, sigs, proof, isGov)
    {
      StoreNext(id, subject, e, sigs, proof, isGov);
      subjectIsGov := subjectIsGov[id := isGov];
      if id !in ledgerState {
        ledgerState := ledgerState[id := LedgerState(Some(0), None)];
      } else if ledgerState[id].currentSn.None? {
        return Panicked;
      } else {
        ledgerState := ledgerState[id := LedgerState(Some(ledgerState[id].currentSn.value + 1), ledgerState[id].head)];
      }
      r := Accepted;
    }

    /** The writes common to every event that directly follows the stored subject. */
    method StoreNext(id: Digest, subject: Subject, e: SignedEvent, sigs: set<Signature>, proof: Proof, isGov: bool)
      modifies database
      ensures database.data ==
        old(database.data).Put(id, S.NextRows(old(database.data).Get(id), subject, e, sigs, proof, isGov))
                          .Finish(env.crypto.hashRequest(e.content.request))
    {
      PutPut();
      database.SetSignatures(id, e.content.sn, sigs, proof);
      database.SetFinishedRequest(env.crypto.hashRequest(e.content.request));
      database.SetEvent(id, e);
      database.SetSubject(id, subject);
      if !isGov { database.DelSignatures(id, e.content.sn - 1); }
    }
  }
}
