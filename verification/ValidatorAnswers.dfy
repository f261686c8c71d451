/** What a validator signs, said of the request and the register alone, and whose key it takes. */
module ValidatorAnswers {
  import opened Protocol
  import opened Quorum
  import opened Validator

  // ---- what is asked of a request ----

  /** The proof is for governance's present version, and for its first one when it creates a governance. */
  predicate ForPresentVersion(live: Live, p: Proof) {
    if p.schemaId == "governance" && p.sn == 0 then p.governanceVersion == 0 else live == Version(p.governanceVersion)
  }

  /** The subject's key: its holder signed the proof. */
  predicate SealedWith(env: Env, ev: ValidationEvent, key: Key) {
    env.crypto.verifies(ev.subjectSignature, OfProof(ev.proof)) && ev.subjectSignature.signer == key
  }

  /** The same proof, up to the governance version. */
  predicate SameProof(p: Proof, q: Proof) {
    p.(governanceVersion := q.governanceVersion) == q
  }

  /** Of the proof of one event later all is as it was but the event, the key and the governance version. */
  predicate OneLater(p: Proof, q: Proof) {
    q == p.(sn := p.sn + 1, prevEventHash := p.eventHash, eventHash := q.eventHash,
            subjectPublicKey := q.subjectPublicKey, governanceVersion := q.governanceVersion)
  }

  /** Nobody but validators of the proof's version signed it, every one of them rightly, and they are a quorum. */
  ghost predicate SignedByQuorum(env: Env, p: Proof, sigs: set<Signature>) {
    var allowed, quorum := env.gov.signers(p.GetMetadata(), Validate), env.gov.quorum(p.GetMetadata(), Validate);
    && allowed.Some? && quorum.Some?
    && (forall s :: s in sigs ==> env.crypto.verifies(s, OfProof(p)) && s.signer in allowed.value)
    && |set s | s in sigs :: s.signer| >= quorum.value
  }

  predicate HasBefore(ev: ValidationEvent) {
    ev.previousProof.Some? && OneLater(ev.previousProof.value, ev.proof)
  }

  // ---- one request ----

  lemma QuorumMeansQuorum(env: Env, p: Proof, sigs: set<Signature>)
    ensures CheckQuorum(env, p, sigs).None? <==> SignedByQuorum(env, p, sigs)
  {
    assert Signers(sigs) == set s | s in sigs :: s.signer;
    if SignedByQuorum(env, p, sigs) {
      assert Signers(sigs) <= env.gov.signers(p.GetMetadata(), Validate).value;
    }
    if CheckQuorum(env, p, sigs).None? {
      forall s | s in sigs ensures s.signer in env.gov.signers(p.GetMetadata(), Validate).value {
        assert s.signer in Signers(sigs);
      }
    }
  }

  /** The event after the registered one is signed exactly when it is for the present version, comes with the registered
      proof, continues it in everything, and is sealed with the key that proof names: at a transfer, the old key. */
  lemma NextIsSigned(env: Env, reg: Register, live: Live, ev: ValidationEvent)
    requires ev.proof.subjectId in reg && reg[ev.proof.subjectId].sn + 1 == ev.proof.sn
    ensures var l := reg[ev.proof.subjectId];
      Decide(env, reg, live, ev) == Signed(ev.proof) <==>
        && ForPresentVersion(live, ev.proof)
        && ev.previousProof.Some? && SameProof(l, ev.previousProof.value)
        && OneLater(l, ev.proof)
        && SealedWith(env, ev, l.subjectPublicKey)
  {}

  /** An event this validator has no predecessor of is signed exactly when a quorum of validators had signed the proof before
      it, which names the key. */
  lemma LaterIsSigned(env: Env, reg: Register, live: Live, ev: ValidationEvent)
    requires ev.proof.sn >= 1
    requires ev.proof.subjectId in reg ==> reg[ev.proof.subjectId].sn + 1 < ev.proof.sn
    ensures Decide(env, reg, live, ev) == Signed(ev.proof) <==>
      && ForPresentVersion(live, ev.proof)
      && HasBefore(ev) && SignedByQuorum(env, ev.previousProof.value, ev.previousSignatures)
      && SealedWith(env, ev, ev.previousProof.value.subjectPublicKey)
  {
    if ev.previousProof.Some? { QuorumMeansQuorum(env, ev.previousProof.value, ev.previousSignatures); }
  }

  /** The registered event is signed again exactly when the proof is the same up to the governance version; the key is the
      one the proof itself names. */
  lemma SameIsSignedAgain(env: Env, reg: Register, live: Live, ev: ValidationEvent)
    requires ev.proof.sn >= 1 && ev.proof.subjectId in reg && reg[ev.proof.subjectId].sn == ev.proof.sn
    ensures Decide(env, reg, live, ev) == Signed(ev.proof) <==>
      && ForPresentVersion(live, ev.proof) && SameProof(reg[ev.proof.subjectId], ev.proof)
      && SealedWith(env, ev, ev.proof.subjectPublicKey)
  {}

  /** A genesis is signed once and for all: what is registered must be this very proof, and nothing else. */
  lemma GenesisIsSigned(env: Env, reg: Register, live: Live, ev: ValidationEvent)
    requires ev.proof.sn == 0
    ensures Decide(env, reg, live, ev) == Signed(ev.proof) <==>
      && ForPresentVersion(live, ev.proof) && SealedWith(env, ev, ev.proof.subjectPublicKey)
      && (if ev.proof.subjectId in reg then reg[ev.proof.subjectId] == ev.proof
          else ev.proof.governanceVersion == ev.proof.genesisGovVersion)
  {}

  /** Nothing before the registered event is signed; and whatever is signed is the proof asked about, and registered. */
  lemma OlderIsRefused(env: Env, reg: Register, live: Live, ev: ValidationEvent)
    ensures ev.proof.subjectId in reg && reg[ev.proof.subjectId].sn > ev.proof.sn ==> Decide(env, reg, live, ev).Rejected?
    ensures var a := Decide(env, reg, live, ev);
      && (a.Signed? ==> a.proof == ev.proof && NextRegister(reg, a) == reg[ev.proof.subjectId := ev.proof])
      && (a.Rejected? ==> NextRegister(reg, a) == reg)
  {}

  /** Why a request is refused before its proofs are compared, and when they cannot be: the version first, in either direction
      by its own name, then the seal, then the order of events. */
  lemma WhyRefused(env: Env, reg: Register, live: Live, ev: ValidationEvent)
    ensures var p, a := ev.proof, Decide(env, reg, live, ev);
      var version := if p.schemaId == "governance" && p.sn == 0 then Version(0) else live;
      var inOrder := version == Version(p.governanceVersion) && env.crypto.verifies(ev.subjectSignature, OfProof(p));
      var last := if p.subjectId in reg then reg[p.subjectId].sn as int else -1;
      && (version.NoVersion? ==> a == Rejected(version.error))
      && (version.Version? ==>
            && (a == Rejected(GovernanceVersionTooHigh) <==> p.governanceVersion > version.v)
            && (a == Rejected(GovernanceVersionTooLow) <==> p.governanceVersion < version.v)
            && (version.v == p.governanceVersion && !inOrder ==> a == Rejected(SubjectSignatureNotValid))
            && (a == Rejected(EventSnLowerThanLastSigned) <==> inOrder && last > p.sn)
            && (a == Rejected(PreviousProofLeft) <==> inOrder && last < p.sn && p.sn >= 1 && ev.previousProof.None?))
  {}

  // ---- over a run ----

  /** A proof that was signed, and the key whose holder had sealed it. */
  datatype Sealed = Sealed(proof: Proof, key: Key)

  function SealedIn(a: Answer, ev: ValidationEvent): set<Sealed> {
    match a
    case Signed(p) => {Sealed(p, ev.subjectSignature.signer)}
    case Rejected(_) => {}
  }

  function SealedOver(env: Env, reg: Register, ds: seq<Delivery>): set<Sealed>
    decreases |ds|
  {
    if ds == [] then {}
    else
      var a := Decide(env, reg, ds[0].live, ds[0].event);
      SealedIn(a, ds[0].event) + SealedOver(env, NextRegister(reg, a), ds[1..])
  }

  /** The key that has to seal y when x is the event before it: the one x names, or again the one y itself names if y has
      been sealed with that of x before. */
  ghost predicate Inherits(sealed: set<Sealed>, x: Sealed, y: Sealed) {
    OneLater(x.proof, y.proof) ==>
      || y.key == x.proof.subjectPublicKey
      || (y.key == y.proof.subjectPublicKey
          && exists z :: z in sealed && SameProof(z.proof, y.proof) && z.key == x.proof.subjectPublicKey)
  }

  ghost predicate KeysOk(reg: Register, sealed: set<Sealed>) {
    && (forall id :: id in reg ==> reg[id].subjectId == id && exists x :: x in sealed && x.proof == reg[id])
    && (forall x :: x in sealed ==> x.proof.subjectId in reg && x.proof.sn <= reg[x.proof.subjectId].sn)
    && (forall x, y :: x in sealed && y in sealed && x.proof.subjectId == y.proof.subjectId && x.proof.sn == y.proof.sn ==>
          SameProof(x.proof, y.proof))
    && (forall x, y :: x in sealed && y in sealed ==> Inherits(sealed, x, y))
  }

  /** What the newly signed proof has to do with those signed before. */
  lemma NewIsLast(env: Env, reg: Register, sealed: set<Sealed>, live: Live, ev: ValidationEvent, x: Sealed)
    requires KeysOk(reg, sealed) && Decide(env, reg, live, ev).Signed? && x in sealed && x.proof.subjectId == ev.proof.subjectId
    ensures x.proof.sn <= ev.proof.sn && (x.proof.sn == ev.proof.sn ==> SameProof(x.proof, ev.proof))
    ensures Inherits(sealed, x, Sealed(ev.proof, ev.subjectSignature.signer))
  {
    var l := reg[ev.proof.subjectId];
    OlderIsRefused(env, reg, live, ev);
    var z :| z in sealed && z.proof == l;
    if ev.proof.sn >= 1 {
      if l.sn == ev.proof.sn {
        SameIsSignedAgain(env, reg, live, ev);
        assert Inherits(sealed, x, z);
        assert x.proof.sn == l.sn ==> SameProof(x.proof, l);
        if OneLater(x.proof, ev.proof) { assert OneLater(x.proof, l); }
      } else if l.sn + 1 == ev.proof.sn {
        NextIsSigned(env, reg, live, ev);
        assert x.proof.sn == l.sn ==> SameProof(x.proof, l);
      }
    }
  }

  lemma InheritsStill(sealed: set<Sealed>, more: set<Sealed>, x: Sealed, y: Sealed)
    requires sealed <= more && Inherits(sealed, x, y)
    ensures Inherits(more, x, y)
  {}

  lemma OneMoreRegistered(reg: Register, sealed: set<Sealed>, y: Sealed)
    requires forall id :: id in reg ==> reg[id].subjectId == id && exists x :: x in sealed && x.proof == reg[id]
    ensures var reg', after := reg[y.proof.subjectId := y.proof], sealed + {y};
      forall id :: id in reg' ==> reg'[id].subjectId == id && exists x :: x in after && x.proof == reg'[id]
  {
    var reg', after := reg[y.proof.subjectId := y.proof], sealed + {y};
    assert y in after;
    forall id | id in reg' ensures reg'[id].subjectId == id && exists x :: x in after && x.proof == reg'[id] {
      if id != y.proof.subjectId {
        var x :| x in sealed && x.proof == reg[id];
        assert x in after;
      }
    }
  }

  lemma OneMoreInherits(reg: Register, sealed: set<Sealed>, y: Sealed)
    requires KeysOk(reg, sealed)
    requires forall x :: x in sealed && x.proof.subjectId == y.proof.subjectId ==> x.proof.sn <= y.proof.sn && Inherits(sealed, x, y)
    ensures forall v, w :: v in sealed + {y} && w in sealed + {y} ==> Inherits(sealed + {y}, v, w)
  {
    forall v, w | v in sealed + {y} && w in sealed + {y} ensures Inherits(sealed + {y}, v, w) {
      if OneLater(v.proof, w.proof) {
        assert v.proof.subjectId == w.proof.subjectId && v.proof.sn < w.proof.sn;
        InheritsStill(sealed, sealed + {y}, v, w);
      }
    }
  }

  lemma OneMoreKey(reg: Register, sealed: set<Sealed>, y: Sealed)
    requires KeysOk(reg, sealed)
    requires forall x :: x in sealed && x.proof.subjectId == y.proof.subjectId ==>
      && x.proof.sn <= y.proof.sn && (x.proof.sn == y.proof.sn ==> SameProof(x.proof, y.proof))
      && Inherits(sealed, x, y)
    ensures KeysOk(reg[y.proof.subjectId := y.proof], sealed + {y})
  {
    OneMoreRegistered(reg, sealed, y);
    OneMoreInherits(reg, sealed, y);
  }

  lemma StepKeepsKeys(env: Env, reg: Register, sealed: set<Sealed>, live: Live, ev: ValidationEvent)
    requires KeysOk(reg, sealed)
    ensures var a := Decide(env, reg, live, ev); KeysOk(NextRegister(reg, a), sealed + SealedIn(a, ev))
  {
    var a := Decide(env, reg, live, ev);
    OlderIsRefused(env, reg, live, ev);
    if a.Rejected? {
      assert sealed + {} == sealed;
    } else {
      forall x | x in sealed && x.proof.subjectId == ev.proof.subjectId
        ensures x.proof.sn <= ev.proof.sn && (x.proof.sn == ev.proof.sn ==> SameProof(x.proof, ev.proof))
        ensures Inherits(sealed, x, Sealed(ev.proof, ev.subjectSignature.signer))
      {
        NewIsLast(env, reg, sealed, live, ev, x);
      }
      OneMoreKey(reg, sealed, Sealed(ev.proof, ev.subjectSignature.signer));
    }
  }

  lemma SealedSum(a: set<Sealed>, b: set<Sealed>, c: set<Sealed>)
    ensures a + b + c == a + (b + c)
  {}

  lemma {:induction false} RunKeepsKeys(env: Env, reg: Register, sealed: set<Sealed>, ds: seq<Delivery>)
    requires KeysOk(reg, sealed)
    ensures KeysOk(RegisterAfter(env, reg, ds), sealed + SealedOver(env, reg, ds))
    decreases |ds|
  {
    if ds == [] {
      assert sealed + SealedOver(env, reg, ds) == sealed;
    } else {
      var a := Decide(env, reg, ds[0].live, ds[0].event);
      StepKeepsKeys(env, reg, sealed, ds[0].live, ds[0].event);
      RunKeepsKeys(env, NextRegister(reg, a), sealed + SealedIn(a, ds[0].event), ds[1..]);
      SealedSum(sealed, SealedIn(a, ds[0].event), SealedOver(env, NextRegister(reg, a), ds[1..]));
    }
  }

  /** Over any run, of two signed proofs of consecutive events the later was sealed with the key the earlier names; with the
      key it names itself only to be signed again. So nobody but the holder of the old key gets a transfer signed. */
  lemma OldKeySeals(env: Env, ds: seq<Delivery>, x: Sealed, y: Sealed)
    requires x in SealedOver(env, map[], ds) && y in SealedOver(env, map[], ds)
    requires OneLater(x.proof, y.proof)
    ensures || y.key == x.proof.subjectPublicKey
            || (y.key == y.proof.subjectPublicKey
                && exists z :: z in SealedOver(env, map[], ds) && SameProof(z.proof, y.proof) && z.key == x.proof.subjectPublicKey)
  {
    RunKeepsKeys(env, map[], {}, ds);
    assert {} + SealedOver(env, map[], ds) == SealedOver(env, map[], ds);
    assert Inherits(SealedOver(env, map[], ds), x, y);
  }
}
