/** What begins validation and what ends it: the request, and the last validator it takes. */
module CompleterValidations {
  import opened Protocol
  import opened Subjects
  import opened Quorum
  import opened Verify
  import opened Store
  import opened LedgerSteps
  import opened Completer

  // ---- a subject under validation ----

  /** Event h of subject id is being validated: those who have signed its proof and those still asked make up the validators,
      one signature each, and they are not enough yet. */
  ghost predicate UnderValidation(c: Crypto, st: Flow, id: Digest, h: Digest, validators: set<Key>, q: nat) {
    && h in st.toValidate && h in st.proofs && SubjectIdOf(c, st.toValidate[h]) == id
    && id in st.completing && st.completing[id].stage.Validate? && st.completing[id].quorum == q && q <= |validators|
    && var signed := SetAt(st.validations, h);
    && DistinctSigners(signed) && |signed| < q
    && Signers(signed) + st.completing[id].signers == validators && Signers(signed) !! st.completing[id].signers
  }

  /** The version is the one the event's subject is under now: a governance's own sn, for any other subject governance's. */
  predicate IsPresent(db: Db, live: Option<nat>, id: Digest, e: Event, version: nat) {
    match db.Get(id).subject
    case Some(s) => e.sn >= 1 && (if s.schemaId == "governance" then version == s.sn else live == Some(version))
    case None =>
      && e.sn == 0 && e.request.content.Create?
      && (if e.request.content.start.schemaId == "governance" then version == 0 else live == Some(version))
  }

  /** The signature of a validator still asked, on the proof, for the version the subject's governance has now. */
  predicate Counts(env: Env, db: Db, live: Option<nat>, st: Flow, id: Digest, h: Digest, sig: Signature, version: nat) {
    && id in st.completing && sig.signer in st.completing[id].signers
    && h in st.proofs && env.crypto.verifies(sig, OfProof(st.proofs[h]))
    && h in st.toValidate && IsPresent(db, live, id, st.toValidate[h], version)
  }

  /** Nothing of the event is left. */
  predicate Gone(st: Flow, id: Digest, h: Digest) {
    && id !in st.completing && id !in st.prevalidated && id !in st.requests
    && h !in st.toValidate && h !in st.proofs && h !in st.validations
  }

  lemma NewSignature(signed: set<Signature>, sig: Signature)
    requires DistinctSigners(signed) && sig.signer !in Signers(signed)
    ensures ReplacedSignature(signed, sig) == signed + {sig} && DistinctSigners(signed + {sig}) && sig !in signed
    ensures Signers(signed + {sig}) == Signers(signed) + {sig.signer}
  {
    forall s | s in signed ensures s.signer != sig.signer { assert s.signer in Signers(signed); }
  }

  lemma NotCounted(env: Env, db: Db, live: Option<nat>, st: Flow, id: Digest, h: Digest, sig: Signature, version: nat)
    requires h in st.toValidate && h in st.proofs && SubjectIdOf(env.crypto, st.toValidate[h]) == id
    requires id in st.completing && st.completing[id].stage.Validate?
    requires !Counts(env, db, live, st, id, h, sig, version)
    ensures var (st', r) := ValidationSignatures(env, db, live, st, h, sig, version); st' == st && (r.Failed? || r.Ignored?)
  {}

  lemma Counted(env: Env, db: Db, live: Option<nat>, st: Flow, id: Digest, h: Digest, sig: Signature, version: nat)
    requires h in st.toValidate && h in st.proofs && SubjectIdOf(env.crypto, st.toValidate[h]) == id
    requires id in st.completing && st.completing[id].stage.Validate?
    requires Counts(env, db, live, st, id, h, sig, version)
    ensures var ph, ss := st.completing[id], ReplacedSignature(SetAt(st.validations, h), sig);
      ValidationSignatures(env, db, live, st, h, sig, version) ==
        if |ss| < ph.quorum then
          (st.(validations := st.validations[h := ss],
               completing := st.completing[id := ph.(signers := ph.signers - {sig.signer})]), Done)
        else (DropEvent(st, id, h), ToLedger(st.toValidate[h], ss, st.proofs[h]))
  {}

  /** What a validation leads to: it hands the event over exactly when with it the validators are as many as the quorum, with
      all their signatures and the proof, and nothing of it is left; until then the event waits, this validator no longer
      asked. One that does not count changes nothing. */
  ghost predicate Leads(c: Crypto, st: Flow, id: Digest, h: Digest, validators: set<Key>, q: nat, sig: Signature, counts: bool,
                        out: (Flow, Result))
    requires UnderValidation(c, st, id, h, validators, q)
  {
    var signed, st', r := SetAt(st.validations, h), out.0, out.1;
    if !counts then st' == st && (r.Failed? || r.Ignored?)
    else if |signed| + 1 == q then r == ToLedger(st.toValidate[h], signed + {sig}, st.proofs[h]) && Gone(st', id, h)
    else
      && r == Done && UnderValidation(c, st', id, h, validators, q)
      && SetAt(st'.validations, h) == signed + {sig} && st'.toValidate == st.toValidate && st'.proofs == st.proofs
      && st'.completing[id].signers == st.completing[id].signers - {sig.signer}
  }

  lemma ValidationStep(env: Env, db: Db, live: Option<nat>, st: Flow, id: Digest, h: Digest, validators: set<Key>, q: nat,
                       sig: Signature, version: nat)
    requires UnderValidation(env.crypto, st, id, h, validators, q)
    ensures Leads(env.crypto, st, id, h, validators, q, sig, Counts(env, db, live, st, id, h, sig, version),
              ValidationSignatures(env, db, live, st, h, sig, version))
  {
    if Counts(env, db, live, st, id, h, sig, version) {
      Counted(env, db, live, st, id, h, sig, version);
      CountedLeads(env.crypto, st, id, h, validators, q, sig, ValidationSignatures(env, db, live, st, h, sig, version));
    } else {
      NotCounted(env, db, live, st, id, h, sig, version);
    }
  }

  lemma CountedLeads(c: Crypto, st: Flow, id: Digest, h: Digest, validators: set<Key>, q: nat, sig: Signature, out: (Flow, Result))
    requires UnderValidation(c, st, id, h, validators, q) && sig.signer in st.completing[id].signers
    requires var ph, ss := st.completing[id], ReplacedSignature(SetAt(st.validations, h), sig);
      out == if |ss| < ph.quorum then
               (st.(validations := st.validations[h := ss],
                    completing := st.completing[id := ph.(signers := ph.signers - {sig.signer})]), Done)
             else (DropEvent(st, id, h), ToLedger(st.toValidate[h], ss, st.proofs[h]))
    ensures Leads(c, st, id, h, validators, q, sig, true, out)
  {
    NewSignature(SetAt(st.validations, h), sig);
    if |SetAt(st.validations, h)| + 1 < q { StillValidating(c, st, out.0, id, h, validators, q, sig); }
  }

  lemma StillValidating(c: Crypto, st: Flow, st': Flow, id: Digest, h: Digest, validators: set<Key>, q: nat, sig: Signature)
    requires UnderValidation(c, st, id, h, validators, q) && sig.signer in st.completing[id].signers
    requires |SetAt(st.validations, h)| + 1 < q
    requires st' == st.(validations := st.validations[h := SetAt(st.validations, h) + {sig}],
      completing := st.completing[id := st.completing[id].(signers := st.completing[id].signers - {sig.signer})])
    ensures UnderValidation(c, st', id, h, validators, q)
  {
    NewSignature(SetAt(st.validations, h), sig);
    MovesOver(Signers(SetAt(st.validations, h)), st.completing[id].signers, sig.signer);
  }

  /** One of those still asked joins those who have signed. */
  lemma MovesOver(done: set<Key>, asked: set<Key>, k: Key)
    requires done !! asked && k in asked
    ensures done + {k} + (asked - {k}) == done + asked && (done + {k}) !! (asked - {k})
  {}

  // ---- all the validators ----

  /** Signatures on the proof, from validators asked and all different. */
  ghost predicate AllCount(c: Crypto, proof: Proof, asked: set<Key>, sigs: seq<Signature>)
    decreases |sigs|
  {
    sigs == [] ||
    (sigs[0].signer in asked && c.verifies(sigs[0], OfProof(proof)) && AllCount(c, proof, asked - {sigs[0].signer}, sigs[1..]))
  }

  /** What the validations, one after the other, make the completer hand over first. */
  function HandOver(env: Env, db: Db, live: Option<nat>, st: Flow, h: Digest, version: nat, sigs: seq<Signature>): Result
    decreases |sigs|
  {
    if sigs == [] then Done
    else
      var (st', r) := ValidationSignatures(env, db, live, st, h, sigs[0], version);
      if r.ToLedger? then r else HandOver(env, db, live, st', h, version, sigs[1..])
  }

  function SetOf(sigs: seq<Signature>): set<Signature> {
    set s | s in sigs
  }

  /** The signatures held once so many more have come. */
  function HeldAfter(signed: set<Signature>, sigs: seq<Signature>, q: nat): set<Signature>
    requires |signed| < q <= |signed| + |sigs|
  {
    signed + SetOf(sigs[..q - |signed|])
  }

  lemma HeldAfterFirst(signed: set<Signature>, sigs: seq<Signature>, q: nat)
    requires |signed| < q <= |signed| + |sigs| && sigs[0] !in signed
    ensures |signed| + 1 == q ==> HeldAfter(signed, sigs, q) == signed + {sigs[0]}
    ensures |signed| + 1 < q ==>
      HeldAfter(signed, sigs, q) == HeldAfter(signed + {sigs[0]}, sigs[1..], q)
  {
    var k := q - |signed|;
    assert sigs[..k] == [sigs[0]] + sigs[1..][..k - 1];
    assert SetOf(sigs[..k]) == {sigs[0]} + SetOf(sigs[1..][..k - 1]);
  }

  lemma FirstHandsOver(env: Env, db: Db, live: Option<nat>, st: Flow, h: Digest, version: nat, sigs: seq<Signature>)
    requires sigs != []
    ensures var (st', r) := ValidationSignatures(env, db, live, st, h, sigs[0], version);
      HandOver(env, db, live, st, h, version, sigs) == if r.ToLedger? then r else HandOver(env, db, live, st', h, version, sigs[1..])
  {}

  /** The event is handed over exactly when those who have signed come to the quorum, whoever they are and in whatever order,
      and with the signatures that made it. */
  lemma {:induction false} ValidatorsHandOver(env: Env, db: Db, live: Option<nat>, st: Flow, id: Digest, h: Digest,
                                              validators: set<Key>, q: nat, version: nat, sigs: seq<Signature>)
    requires UnderValidation(env.crypto, st, id, h, validators, q)
    requires IsPresent(db, live, id, st.toValidate[h], version)
    requires AllCount(env.crypto, st.proofs[h], st.completing[id].signers, sigs)
    ensures var signed := SetAt(st.validations, h);
      HandOver(env, db, live, st, h, version, sigs) ==
        if |signed| + |sigs| >= q then ToLedger(st.toValidate[h], HeldAfter(signed, sigs, q), st.proofs[h]) else Done
    decreases |sigs|
  {
    var signed := SetAt(st.validations, h);
    if sigs != [] {
      var st' := StepOn(env, db, live, st, id, h, validators, q, version, sigs);
      if |signed| + |sigs| >= q { HeldAfterFirst(signed, sigs, q); }
      if |signed| + 1 < q { ValidatorsHandOver(env, db, live, st', id, h, validators, q, version, sigs[1..]); }
    }
  }

  /** The first of the signatures, and where it leads. */
  lemma StepOn(env: Env, db: Db, live: Option<nat>, st: Flow, id: Digest, h: Digest, validators: set<Key>, q: nat, version: nat,
               sigs: seq<Signature>) returns (st': Flow)
    requires UnderValidation(env.crypto, st, id, h, validators, q) && sigs != []
    requires IsPresent(db, live, id, st.toValidate[h], version)
    requires AllCount(env.crypto, st.proofs[h], st.completing[id].signers, sigs)
    ensures sigs[0] !in SetAt(st.validations, h) && |SetAt(st.validations, h) + {sigs[0]}| == |SetAt(st.validations, h)| + 1
    ensures |SetAt(st.validations, h)| + 1 == q ==>
      HandOver(env, db, live, st, h, version, sigs) == ToLedger(st.toValidate[h], SetAt(st.validations, h) + {sigs[0]}, st.proofs[h])
    ensures |SetAt(st.validations, h)| + 1 < q ==>
      && HandOver(env, db, live, st, h, version, sigs) == HandOver(env, db, live, st', h, version, sigs[1..])
      && UnderValidation(env.crypto, st', id, h, validators, q)
      && SetAt(st'.validations, h) == SetAt(st.validations, h) + {sigs[0]} && st'.toValidate == st.toValidate && st'.proofs == st.proofs
      && AllCount(env.crypto, st'.proofs[h], st'.completing[id].signers, sigs[1..])
  {
    var out := ValidationSignatures(env, db, live, st, h, sigs[0], version);
    st' := out.0;
    NewSignature(SetAt(st.validations, h), sigs[0]);
    ValidationStep(env, db, live, st, id, h, validators, q, sigs[0], version);
    assert Leads(env.crypto, st, id, h, validators, q, sigs[0], true, out);
    FirstHandsOver(env, db, live, st, h, version, sigs);
  }

  // ---- transfers and ends of life ----

  /** The proof validators are asked to sign: of this event, on this subject, for this version. */
  function ProofFor(c: Crypto, s: Subject, e: Event, version: nat): Proof {
    Proof(s.subjectId, s.schemaId, s.namespace, s.name,
      if e.request.content.Transfer? then e.request.content.publicKey else s.publicKey,
      s.governanceId, s.genesisGovVersion, e.sn, e.hashPrev, c.hashEvent(e), version)
  }

  /** What a transfer or an end of life becomes: the next event, with nothing to evaluate and nothing changed. */
  function PlainEventOf(c: Crypto, s: Subject, request: SignedRequest, version: nat, last: Event): Event {
    Event(s.subjectId, request, s.sn + 1, version, EMPTY_PATCH, c.hashState(s.properties), true, false, true, c.hashEvent(last), {}, {})
  }

  /** The request can be taken: signed, not seen before, for an active subject that this node has the keys of, with nothing else
      in progress; a transfer to this node needs the new key pair, and only the owner ends a life. */
  predicate MayBegin(env: Env, db: Db, st: Flow, id: Digest, s: Subject, request: SignedRequest) {
    && env.crypto.verifies(request.signature, OfRequest(request.content))
    && env.crypto.hashRequest(request) !in db.requests && id !in st.completing
    && s.active && s.keys.Some?
    && (request.content.Transfer? && request.signature.signer == env.ourId ==> request.content.publicKey in db.keys)
    && (request.content.Eol? ==> request.signature.signer == s.owner)
  }

  /** A transfer or an end of life is put to all the validators exactly when it can be taken, its predecessor is stored with
      its certificate, and governance tells its version and names the validators. */
  lemma PlainIsPutToAll(env: Env, db: Db, live: Option<nat>, st: Flow, request: SignedRequest, id: Digest, s: Subject)
    requires (request.content.Transfer? || request.content.Eol?) && request.content.subjectId == id
    requires db.Get(id).subject == Some(s) && s.subjectId == id
    ensures var (st', r) := PreNewEvent(env, db, live, st, request);
      && (r == Done <==>
            && MayBegin(env, db, st, id, s, request) && live.Some?
            && s.sn in db.Get(id).events && s.sn in db.Get(id).certs
            && env.gov.signers(MetadataOf(s, id, live.value), Validate).Some? && env.gov.quorum(MetadataOf(s, id, live.value), Validate).Some?)
      && (r == Done ==>
            var e := PlainEventOf(env.crypto, s, request, live.value, db.Get(id).events[s.sn].content);
            var h := env.crypto.hashEvent(e);
            && h in st'.toValidate && st'.toValidate[h] == e && h in st'.proofs && st'.proofs[h] == ProofFor(env.crypto, s, e, live.value)
            && id in st'.prevalidated && st'.prevalidated[id] == e && id in st'.requests && st'.requests[id] == request
            && id in st'.completing && st'.completing[id].stage.Validate?
            && Some(st'.completing[id].signers) == env.gov.signers(MetadataOf(s, id, live.value), Validate)
            && Some(st'.completing[id].quorum) == env.gov.quorum(MetadataOf(s, id, live.value), Validate))
  {}
}
