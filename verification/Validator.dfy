/** The validator: one registered proof per subject decides what this node will sign. */
module Validator {
  import opened Protocol
  import opened Quorum
  import opened LedgerSteps

  datatype ValidationEvent = ValidationEvent(
    proof: Proof, subjectSignature: Signature, previousProof: Option<Proof>, previousSignatures: set<Signature>)

  datatype ValidationError =
    | GovernanceNotFound | ChannelError | GovApiUnexpectedResponse
    | GovernanceVersionTooHigh | GovernanceVersionTooLow | SubjectSignatureNotValid
    | EventSnLowerThanLastSigned | DifferentProofForEvent | PreviousProofLeft | GenesisGovVersionsDoesNotMatch
    | InvalidSignature | InvalidSigner | QuorumNotReached

  /** Governance's present version, or why it has none to tell. */
  datatype Live = Version(v: nat) | NoVersion(error: ValidationError)

  /** The subject key that must have signed, or the refusal. */
  datatype Check = SignedBy(key: Key) | Fails(error: ValidationError)

  datatype Answer = Signed(proof: Proof) | Rejected(error: ValidationError)

  type Register = map<Digest, Proof>

  // ---- decisions ----

  /** Every signature verifies against the proof, every signer may validate, and they are enough. */
  function CheckQuorum(env: Env, proof: Proof, sigs: set<Signature>): Option<ValidationError> {
    if exists s :: s in sigs && !env.crypto.verifies(s, OfProof(proof)) then Some(InvalidSignature)
    else
      match StageOf(env.gov, proof.GetMetadata(), Validate)
      case None => Some(GovApiUnexpectedResponse)
      case Some((signers, quorum)) =>
        if !(Signers(sigs) <= signers) then Some(InvalidSigner)
        else if |Signers(sigs)| < quorum then Some(QuorumNotReached)
        else Option.None
  }

  /** The new proof continues the previous one in everything a later event cannot change. */
  predicate Continues(previous: Proof, next: Proof) {
    && previous.eventHash == next.prevEventHash
    && previous.sn + 1 == next.sn
    && previous.genesisGovVersion == next.genesisGovVersion
    && previous.namespace == next.namespace
    && previous.name == next.name
    && previous.subjectId == next.subjectId
    && previous.schemaId == next.schemaId
    && previous.governanceId == next.governanceId
  }

  function ValidatePreviousProof(env: Env, next: Proof, previous: Proof, sigs: Option<set<Signature>>): Check {
    if !Continues(previous, next) then Fails(DifferentProofForEvent)
    else
      match sigs
      case None => SignedBy(previous.subjectPublicKey)
      case Some(ss) =>
        match CheckQuorum(env, previous, ss)
        case Some(error) => Fails(error)
        case None => SignedBy(previous.subjectPublicKey)
  }

  function CheckProofs(env: Env, next: Proof, previous: Option<Proof>, sigs: set<Signature>, last: Option<Proof>): Check {
    match last
    case Some(l) =>
      if l.sn > next.sn then Fails(EventSnLowerThanLastSigned)
      else if l.sn == next.sn && l.sn != 0 then
        if l.IsSimilar(next) then SignedBy(l.subjectPublicKey) else Fails(DifferentProofForEvent)
      else if l.sn + 1 == next.sn then
        if previous.None? then Fails(PreviousProofLeft)
        else if !l.IsSimilar(previous.value) then Fails(DifferentProofForEvent)
        else ValidatePreviousProof(env, next, l, Option.None)
      else if next.sn == 0 then
        if l == next then SignedBy(next.subjectPublicKey) else Fails(DifferentProofForEvent)
      else if previous.None? then Fails(PreviousProofLeft)
      else ValidatePreviousProof(env, next, previous.value, Some(sigs))
    case None =>
      if next.sn == 0 then
        if next.governanceVersion != next.genesisGovVersion then Fails(GenesisGovVersionsDoesNotMatch)
        else SignedBy(next.subjectPublicKey)
      else if previous.None? then Fails(PreviousProofLeft)
      else ValidatePreviousProof(env, next, previous.value, Some(sigs))
  }

  function LastOf(reg: Register, id: Digest): Option<Proof> {
    if id in reg then Some(reg[id]) else Option.None
  }

  function Decide(env: Env, reg: Register, live: Live, ev: ValidationEvent): Answer {
    var p := ev.proof;
    var version := if p.schemaId == "governance" && p.sn == 0 then Version(0) else live;
    match version
    case NoVersion(error) => Rejected(error)
    case Version(v) =>
      if v < p.governanceVersion then Rejected(GovernanceVersionTooHigh)
      else if v > p.governanceVersion then Rejected(GovernanceVersionTooLow)
      else if !env.crypto.verifies(ev.subjectSignature, OfProof(p)) then Rejected(SubjectSignatureNotValid)
      else
        match CheckProofs(env, p, ev.previousProof, ev.previousSignatures, LastOf(reg, p.subjectId))
        case Fails(error) => Rejected(error)
        case SignedBy(key) =>
          if ev.subjectSignature.signer != key then Rejected(SubjectSignatureNotValid) else Signed(p)
  }

  function NextRegister(reg: Register, a: Answer): Register {
    match a
    case Signed(p) => reg[p.subjectId := p]
    case Rejected(_) => reg
  }

  /** The validation manager with its registers. */
  class Validation {
    const env: Env
    var register: Register

    constructor (env: Env)
      ensures this.env == env && register == map[]
    {
      this.env, register := env, map[];
    }

    method CheckSignatures(proof: Proof, sigs: set<Signature>) returns (fault: Option<ValidationError>)
      ensures fault == CheckQuorum(env, proof, sigs)
    {
      var actual: set<Key> := {};
      var rest := sigs;
      while rest != {}
        invariant rest <= sigs
        invariant actual == Signers(sigs - rest)
        invariant forall s :: s in sigs - rest ==> env.crypto.verifies(s, OfProof(proof))
        decreases rest
      {
        var s :| s in rest;
        if !env.crypto.verifies(s, OfProof(proof)) { return Some(InvalidSignature); }
        assert sigs - (rest - {s}) == (sigs - rest) + {s};
        rest := rest - {s};
        actual := actual + {s.signer};
      }
      assert sigs - rest == sigs;
      var stage := StageOf(env.gov, proof.GetMetadata(), Validate);
      if stage.None? { return Some(GovApiUnexpectedResponse); }
      if !(actual <= stage.value.0) { return Some(InvalidSigner); }
      if |actual| < stage.value.1 { return Some(QuorumNotReached); }
      fault := Option.None;
    }

    method CheckPreviousProof(next: Proof, previous: Proof, sigs: Option<set<Signature>>) returns (r: Check)
      ensures r == ValidatePreviousProof(env, next, previous, sigs)
    {
      if !Continues(previous, next) { return Fails(DifferentProofForEvent); }
      if sigs.Some? {
        var fault := CheckSignatures(previous, sigs.value);
        if fault.Some? { return Fails(fault.value); }
      }
      r := SignedBy(previous.subjectPublicKey);
    }

    method CheckNewProof(next: Proof, previous: Option<Proof>, sigs: set<Signature>, last: Option<Proof>)
      returns (r: Check)
      ensures r == CheckProofs(env, next, previous, sigs, last)
    {
      var known := last.Some?;
      if known && last.value.sn > next.sn { return Fails(EventSnLowerThanLastSigned); }
      if known && last.value.sn == next.sn && next.sn != 0 {
        return if last.value.IsSimilar(next) then SignedBy(last.value.subjectPublicKey) else Fails(DifferentProofForEvent);
      }
      if next.sn == 0 {
        if known { return if last.value == next then SignedBy(next.subjectPublicKey) else Fails(DifferentProofForEvent); }
        return if next.governanceVersion != next.genesisGovVersion then Fails(GenesisGovVersionsDoesNotMatch)
               else SignedBy(next.subjectPublicKey);
      }
      if previous.None? { return Fails(PreviousProofLeft); }
      if known && last.value.sn + 1 == next.sn {
        if !last.value.IsSimilar(previous.value) { return Fails(DifferentProofForEvent); }
        r := CheckPreviousProof(next, last.value, Option.None);
      } else {
        r := CheckPreviousProof(next, previous.value, Some(sigs));
      }
    }

    /** The register is overwritten before the proof is signed. */
    method HandleValidationEvent(live: Live, ev: ValidationEvent) returns (a: Answer)
      modifies this
      ensures a == Decide(env, old(register), live, ev)
      ensures register == NextRegister(old(register), a)
    {
      var p := ev.proof;
      var version := live;
      if p.schemaId == "governance" && p.sn == 0 { version := Version(0); }
      if version.NoVersion? { return Rejected(version.error); }
      if version.v < p.governanceVersion { return Rejected(GovernanceVersionTooHigh); }
      if version.v > p.governanceVersion { return Rejected(GovernanceVersionTooLow); }
      if !env.crypto.verifies(ev.subjectSignature, OfProof(p)) { return Rejected(SubjectSignatureNotValid); }
      var check := CheckNewProof(p, ev.previousProof, ev.previousSignatures, LastOf(register, p.subjectId));
      if check.Fails? { return Rejected(check.error); }
      if ev.subjectSignature.signer != check.key { return Rejected(SubjectSignatureNotValid); }
      register := register[p.subjectId := p];
      a := Signed(p);
    }
  }

  // ---- runs ----

  datatype Delivery = Delivery(live: Live, event: ValidationEvent)

  function RegisterAfter(env: Env, reg: Register, ds: seq<Delivery>): Register
    decreases |ds|
  {
    if ds == [] then reg
    else RegisterAfter(env, NextRegister(reg, Decide(env, reg, ds[0].live, ds[0].event)), ds[1..])
  }

  function Added(a: Answer): set<Proof> {
    match a
    case Signed(p) => {p}
    case Rejected(_) => {}
  }

  /** The proofs signed over a run. */
  function SignedOver(env: Env, reg: Register, ds: seq<Delivery>): set<Proof>
    decreases |ds|
  {
    if ds == [] then {}
    else
      var a := Decide(env, reg, ds[0].live, ds[0].event);
      Added(a) + SignedOver(env, NextRegister(reg, a), ds[1..])
  }

  /** Signed proofs of one subject agree at one sn, and link from one sn to the next. */
  ghost predicate Consistent(p: Proof, q: Proof) {
    p.subjectId == q.subjectId ==>
      && (p.sn == q.sn ==> p.IsSimilar(q) && (p.sn == 0 ==> p == q))
      && (p.sn + 1 == q.sn ==> Continues(p, q))
      && (q.sn + 1 == p.sn ==> Continues(q, p))
  }

  /** What the register remembers of all that was signed. */
  ghost predicate History(reg: Register, signed: set<Proof>) {
    && (forall id :: id in reg ==> reg[id].subjectId == id && reg[id] in signed)
    && (forall p :: p in signed ==> p.subjectId in reg && p.sn <= reg[p.subjectId].sn)
    && (forall p, q :: p in signed && q in signed ==> Consistent(p, q))
  }

  lemma StepKeepsHistory(env: Env, reg: Register, signed: set<Proof>, live: Live, ev: ValidationEvent)
    requires History(reg, signed)
    ensures var a := Decide(env, reg, live, ev); History(NextRegister(reg, a), signed + Added(a))
  {
    if Decide(env, reg, live, ev).Rejected? {
      assert signed + {} == signed;
      return;
    }
    var p := ev.proof;
    forall q | q in signed ensures Consistent(p, q) && Consistent(q, p) {
      if q.subjectId == p.subjectId {
        var last := reg[p.subjectId];
        assert q.sn <= last.sn <= p.sn && Consistent(q, last);
      }
    }
  }

  lemma SetSum(a: set<Proof>, b: set<Proof>, c: set<Proof>)
    ensures a + b + c == a + (b + c)
  {}

  lemma {:induction false} RunKeepsHistory(env: Env, reg: Register, signed: set<Proof>, ds: seq<Delivery>)
    requires History(reg, signed)
    ensures History(RegisterAfter(env, reg, ds), signed + SignedOver(env, reg, ds))
    decreases |ds|
  {
    if ds == [] {
      assert signed + SignedOver(env, reg, ds) == signed;
    } else {
      var a := Decide(env, reg, ds[0].live, ds[0].event);
      StepKeepsHistory(env, reg, signed, ds[0].live, ds[0].event);
      RunKeepsHistory(env, NextRegister(reg, a), signed + Added(a), ds[1..]);
      SetSum(signed, Added(a), SignedOver(env, NextRegister(reg, a), ds[1..]));
    }
  }

  /** A validator never equivocates, whatever it is sent: proofs it signed for one subject and sn differ in
      nothing but the governance version, at sn 0 in nothing at all, and consecutive ones are hash-linked. */
  lemma NeverEquivocates(env: Env, ds: seq<Delivery>, p: Proof, q: Proof)
    requires p in SignedOver(env, map[], ds) && q in SignedOver(env, map[], ds)
    ensures Consistent(p, q)
  {
    RunKeepsHistory(env, map[], {}, ds);
    assert {} + SignedOver(env, map[], ds) == SignedOver(env, map[], ds);
  }

  /** The predecessor of a signed proof: this validator signed it too, or saw it certified. */
  ghost predicate Rooted(env: Env, signed: set<Proof>, q: Proof) {
    q.sn >= 1 ==>
      || (exists p :: p in signed && Continues(p, q))
      || (exists p, sigs :: CheckQuorum(env, p, sigs).None? && Continues(p, q))
  }

  lemma StepIsRooted(env: Env, reg: Register, signed: set<Proof>, live: Live, ev: ValidationEvent)
    requires History(reg, signed) && forall q :: q in signed ==> Rooted(env, signed, q)
    requires Decide(env, reg, live, ev).Signed?
    ensures Rooted(env, signed, ev.proof)
  {
    var p := ev.proof;
    if p.subjectId in reg && reg[p.subjectId].sn == p.sn { assert Rooted(env, signed, reg[p.subjectId]); }
  }

  lemma {:induction false} RunIsRooted(env: Env, reg: Register, signed: set<Proof>, ds: seq<Delivery>)
    requires History(reg, signed) && forall q :: q in signed ==> Rooted(env, signed, q)
    ensures forall q :: q in signed + SignedOver(env, reg, ds) ==> Rooted(env, signed + SignedOver(env, reg, ds), q)
    decreases |ds|
  {
    if ds == [] {
      assert signed + SignedOver(env, reg, ds) == signed;
    } else {
      var a := Decide(env, reg, ds[0].live, ds[0].event);
      StepKeepsHistory(env, reg, signed, ds[0].live, ds[0].event);
      if a.Signed? { StepIsRooted(env, reg, signed, ds[0].live, ds[0].event); }
      RootedMonotone(env, signed, signed + Added(a));
      RunIsRooted(env, NextRegister(reg, a), signed + Added(a), ds[1..]);
      SetSum(signed, Added(a), SignedOver(env, NextRegister(reg, a), ds[1..]));
    }
  }

  lemma RootedMonotone(env: Env, signed: set<Proof>, more: set<Proof>)
    requires signed <= more
    ensures forall q :: Rooted(env, signed, q) ==> Rooted(env, more, q)
  {}

  /** Whatever a validator signs beyond genesis continues a proof it signed itself or saw certified. */
  lemma SignedAreRooted(env: Env, ds: seq<Delivery>, q: Proof)
    requires q in SignedOver(env, map[], ds)
    ensures Rooted(env, SignedOver(env, map[], ds), q)
  {
    RunIsRooted(env, map[], {}, ds);
    assert {} + SignedOver(env, map[], ds) == SignedOver(env, map[], ds);
  }

  /** A registered sn never falls, and at the same sn the registered proof stays similar. */
  lemma {:induction false} RegisterNeverFalls(env: Env, reg: Register, ds: seq<Delivery>, id: Digest)
    requires id in reg && forall j :: j in reg ==> reg[j].subjectId == j
    ensures var after := RegisterAfter(env, reg, ds);
      && id in after && reg[id].sn <= after[id].sn
      && (reg[id].sn == after[id].sn ==> reg[id].IsSimilar(after[id]))
    decreases |ds|
  {
    if ds != [] {
      RegisterNeverFalls(env, NextRegister(reg, Decide(env, reg, ds[0].live, ds[0].event)), ds[1..], id);
    }
  }

  /** Sending again what was just signed is signed again exactly when the proof names the key that signed it:
      at sn 0 always, later unless the event moved the subject to a new key. */
  lemma ResendIsSigned(env: Env, reg: Register, live: Live, ev: ValidationEvent)
    requires Decide(env, reg, live, ev).Signed?
    ensures Decide(env, NextRegister(reg, Signed(ev.proof)), live, ev).Signed? <==>
            ev.subjectSignature.signer == ev.proof.subjectPublicKey
  {}
}
