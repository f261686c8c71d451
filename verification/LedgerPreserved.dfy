/** Each handler keeps the replica invariant. */
module LedgerPreserved {
  import opened Protocol
  import opened Subjects
  import opened Verify
  import opened Store
  import opened LedgerSteps
  import opened LedgerInvariant
  import Q = Quorum

  // ---- exactly when a handler keeps the replica ----

  /** A later event that can be a head: catch-up will find it, and not in another subject's name. */
  predicate CanHead(e: Event) {
    e.sn >= 1 && !e.request.content.Create? && !e.request.content.Eol? && (!e.approved ==> e.subjectId == e.request.content.subjectId)
  }

  /** An event that the ledger accepts from elsewhere keeps the replica exactly when: genesis has sn 0 and meets no head at
      sn 1; the next event's proof names the predecessor the event names, and an end of life is not rejected; a later
      event leaves a gap, is not at the head's sn, and can be a head. */
  ghost predicate ExternalFits(env: Env, r: Replica, e: Event, proof: Proof) {
    if e.request.content.Create? then e.sn == 0 && (r.state.Some? ==> r.state.value.head != Some(1))
    else
      match r.state
      case None => CanHead(e)
      case Some(LedgerState(current, head)) =>
        current.Some? &&
        if e.sn == current.value + 1 && head.None?
        then proof.prevEventHash == e.hashPrev && (e.request.content.Eol? ==> e.approved)
        else e.sn >= current.value + 2 && head != Some(e.sn) && CanHead(e)
  }

  /** This node's own genesis: it has sn 0, the subject is not yet beyond one, no head directly follows, and governance's answer at the
      version asked is its answer at the event's version. */
  ghost predicate OwnGenesisFits(env: Env, r: Replica, e: Event, live: Option<nat>)
    requires e.request.content.Create?
  {
    var start := e.request.content.start;
    var version := if start.schemaId == "governance" && start.governanceId == NoDigest then Some(0) else live;
    && e.sn == 0
    && (version.Some? ==> env.gov.initState(start.governanceId, start.schemaId, e.govVersion) ==
                          env.gov.initState(start.governanceId, start.schemaId, version.value))
    && match r.state
       case None => true
       case Some(LedgerState(current, head)) => (current.None? || current == Some(0)) && head != Some(1)
  }

  function StoredSignatures(rows: Rows, sn: nat): set<Signature> {
    if sn in rows.certs then rows.certs[sn].signatures else {}
  }

  /** This node's own event follows directly and, when rejected, has no effect that would be carried out all the same;
      without a head it is also certified, with whatever was stored before. */
  ghost predicate OwnFits(env: Env, id: Digest, r: Replica, e: Event, sigs: set<Signature>, proof: Proof) {
    match r.state
    case Some(LedgerState(Some(c), head)) =>
      && e.sn == c + 1
      && c in r.rows.events && e.hashPrev == env.crypto.hashEvent(r.rows.events[c].content)
      && !e.request.content.Create? && r.rows.subject.Some? && IdleIfRejected(r.rows.subject.value, e)
      && (match head
          case Some(h) => h >= c + 3
          case None =>
            && Certified(env, sigs + StoredSignatures(r.rows, e.sn), proof)
            && proof.subjectId == id && proof.sn == e.sn && proof.eventHash == env.crypto.hashEvent(e)
            && AboutSubject(proof, r.rows.subject.value))
    case _ => false
  }

  /** An event this node built on its own up-to-date replica and had validated. */
  ghost predicate OrderlyOwn(env: Env, id: Digest, r: Replica, e: Event, sigs: set<Signature>, proof: Proof) {
    match r.state
    case Some(LedgerState(Some(c), None)) =>
      && e.sn == c + 1 && OnlyFactsRejected(e)
      && c in r.rows.events
      && e.hashPrev == env.crypto.hashEvent(r.rows.events[c].content)
      && Certified(env, sigs, proof)
      && proof.subjectId == id && proof.sn == e.sn && proof.eventHash == env.crypto.hashEvent(e)
      && r.rows.subject.Some? && AboutSubject(proof, r.rows.subject.value)
    case _ => false
  }

  // ---- certificates ----

  /** Adding signatures to a certificate of the same proof never undoes it. */
  lemma CertifiedMonotone(env: Env, a: set<Signature>, b: set<Signature>, proof: Proof)
    requires a <= b && Certified(env, a, proof)
    ensures Certified(env, b, proof)
  {
    var (allowed, q) := StageOf(env.gov, proof.GetMetadata(), Validate).value;
    Q.SubsetCardinality(Q.ValidSigners(env.crypto, a, OfProof(proof), allowed),
      Q.ValidSigners(env.crypto, b, OfProof(proof), allowed));
  }

  // ---- the next event of a subject that is up to date ----

  /** Rows that differ by one more linked, applied and certified event, and perhaps by older certificates. */
  ghost predicate Advances(env: Env, id: Digest, rows: Rows, rows': Rows, c: nat, e: SignedEvent, proof: Proof) {
    && rows'.events == rows.events[c + 1 := e]
    && rows.subject.Some? && rows'.subject.Some?
    && Apply(env.crypto, rows.subject.value.Public(), e.content) == Some(rows'.subject.value.Public())
    && c + 1 in rows'.certs && rows'.certs[c + 1].proof == proof
    && Certified(env, rows'.certs[c + 1].signatures, proof)
    && proof.subjectId == id && proof.sn == c + 1 && proof.eventHash == env.crypto.hashEvent(e.content)
    && AboutSubject(proof, rows.subject.value)
  }

  lemma AdvanceKeeps(env: Env, id: Digest, rows: Rows, rows': Rows, c: nat, e: SignedEvent, proof: Proof)
    requires Inv(env, id, Replica(Some(LedgerState(Some(c), None)), rows))
    requires Advances(env, id, rows, rows', c, e, proof)
    requires e.content.sn == c + 1 && e.content.hashPrev == env.crypto.hashEvent(rows.events[c].content)
    ensures Inv(env, id, Replica(Some(LedgerState(Some(c + 1), None)), rows'))
  {
    ExtendChain(env, id, rows, rows', rows.subject.value, e, rows'.subject.value);
  }

  /** Taking the next event into the rows advances the replica. */
  lemma NextRowsKeep(env: Env, id: Digest, rows: Rows, c: nat, s: Subject, s': Subject, e: SignedEvent,
                     sigs: set<Signature>, proof: Proof, isGov: bool)
    requires Inv(env, id, Replica(Some(LedgerState(Some(c), None)), rows)) && rows.subject == Some(s)
    requires e.content.sn == c + 1 && e.content.hashPrev == env.crypto.hashEvent(rows.events[c].content)
    requires Apply(env.crypto, s.Public(), e.content) == Some(s'.Public())
    requires Certified(env, sigs + StoredSignatures(rows, c + 1), proof) && AboutSubject(proof, s)
    requires proof.subjectId == id && proof.sn == c + 1 && proof.eventHash == env.crypto.hashEvent(e.content)
    ensures Inv(env, id, Replica(Some(LedgerState(Some(c + 1), None)), NextRows(rows, s', e, sigs, proof, isGov)))
  {
    var rows' := NextRows(rows, s', e, sigs, proof, isGov);
    assert c + 1 in rows'.certs && rows'.certs[c + 1] == Certificate(sigs + StoredSignatures(rows, c + 1), proof);
    AdvanceKeeps(env, id, rows, rows', c, e, proof);
  }

  /** The direct path compares the stored predecessor with the proof, never with the event: what it stores is
      linked exactly when the proof and the event name the same predecessor. */
  lemma NextEventLinkedIff(env: Env, n: Node, id: Digest, c: nat, s: Subject, e: SignedEvent,
                           sigs: set<Signature>, proof: Proof)
    requires Inv(env, id, n.At(id)) && n.StateOf(id) == Some(LedgerState(Some(c), None))
    requires n.db.Get(id).subject == Some(s)
    requires !e.content.request.content.Create? && id in n.isGov && e.content.sn == c + 1
    requires NextEvent(env, n, id, n.states[id], s, e, sigs, proof).1.Accepted?
    ensures LinkedAt(env.crypto, NextEvent(env, n, id, n.states[id], s, e, sigs, proof).0.db.Get(id).events, c + 1)
            <==> proof.prevEventHash == e.content.hashPrev
  {}

  /** The subject of a chain is the one before its last event, with that applied. */
  lemma ChainStep(env: Env, id: Digest, rows: Rows, rows': Rows, c: nat)
    requires Chain(env, id, rows, c) && Chain(env, id, rows', c + 1)
    requires forall i :: 0 <= i <= c ==> rows'.events[i] == rows.events[i]
    ensures Apply(env.crypto, rows.subject.value.Public(), rows'.events[c + 1].content) == Some(rows'.subject.value.Public())
  {
    ReplayFrame(env, rows.events, rows'.events, c);
  }

  /** An accepted next event keeps the replica exactly when proof and event name the same predecessor, and it is no
      rejected end of life of an active subject. */
  lemma NextEventKeepsIff(env: Env, n: Node, id: Digest, c: nat, s: Subject, e: SignedEvent,
                          sigs: set<Signature>, proof: Proof)
    requires Inv(env, id, n.At(id)) && n.StateOf(id) == Some(LedgerState(Some(c), None))
    requires n.db.Get(id).subject == Some(s)
    requires !e.content.request.content.Create? && (e.content.request.content.Transfer? ==> e.content.approved) && id in n.isGov
    requires e.content.sn == c + 1 && Certified(env, sigs, proof)
    requires NextEvent(env, n, id, n.states[id], s, e, sigs, proof).1.Accepted?
    ensures Inv(env, id, NextEvent(env, n, id, n.states[id], s, e, sigs, proof).0.At(id))
            <==> proof.prevEventHash == e.content.hashPrev && (e.content.request.content.Eol? && s.active ==> e.content.approved)
  {
    var effect := NextEffect(env, n.db, s, e.content);
    NextEffectApplies(env, n.db, s, e.content);
    NextEventShape(env, n, id, c, s, e, sigs, proof);
    NextRowsIff(env, id, n.db.Get(id), c, s, effect.subject, e, sigs, proof, n.isGov[id]);
  }

  /** What is known of an accepted next event, and what it leaves. */
  lemma NextEventShape(env: Env, n: Node, id: Digest, c: nat, s: Subject, e: SignedEvent, sigs: set<Signature>, proof: Proof)
    requires Inv(env, id, n.At(id)) && n.StateOf(id) == Some(LedgerState(Some(c), None))
    requires n.db.Get(id).subject == Some(s) && !e.content.request.content.Create? && id in n.isGov && e.content.sn == c + 1
    requires NextEvent(env, n, id, n.states[id], s, e, sigs, proof).1.Accepted?
    ensures var effect := NextEffect(env, n.db, s, e.content);
      && effect.Effect?
      && NextEvent(env, n, id, n.states[id], s, e, sigs, proof).0.At(id)
         == Replica(Some(LedgerState(Some(c + 1), None)), NextRows(n.db.Get(id), effect.subject, e, sigs, proof, n.isGov[id]))
    ensures proof.prevEventHash == env.crypto.hashEvent(n.db.Get(id).events[c].content) && AboutSubject(proof, s)
    ensures proof.subjectId == id && proof.sn == c + 1 && proof.eventHash == env.crypto.hashEvent(e.content)
  {}

  /** Rows that take in a certified next event keep the replica exactly when it is linked and has had its effect. */
  lemma NextRowsIff(env: Env, id: Digest, rows: Rows, c: nat, s: Subject, s': Subject, e: SignedEvent,
                    sigs: set<Signature>, proof: Proof, isGov: bool)
    requires Inv(env, id, Replica(Some(LedgerState(Some(c), None)), rows)) && rows.subject == Some(s)
    requires e.content.sn == c + 1 && Certified(env, sigs, proof) && AboutSubject(proof, s)
    requires proof.subjectId == id && proof.sn == c + 1 && proof.eventHash == env.crypto.hashEvent(e.content)
    ensures Inv(env, id, Replica(Some(LedgerState(Some(c + 1), None)), NextRows(rows, s', e, sigs, proof, isGov)))
            <==> && e.content.hashPrev == env.crypto.hashEvent(rows.events[c].content)
                 && Apply(env.crypto, s.Public(), e.content) == Some(s'.Public())
  {
    var rows' := NextRows(rows, s', e, sigs, proof, isGov);
    if e.content.hashPrev == env.crypto.hashEvent(rows.events[c].content) && Apply(env.crypto, s.Public(), e.content) == Some(s'.Public()) {
      CertifiedMonotone(env, sigs, sigs + StoredSignatures(rows, c + 1), proof);
      NextRowsKeep(env, id, rows, c, s, s', e, sigs, proof, isGov);
    } else if Chain(env, id, rows', c + 1) {
      assert LinkedAt(env.crypto, rows'.events, c + 1);
      ChainStep(env, id, rows, rows', c);
    }
  }

  // ---- a later event ----

  /** Rows in which e has taken the place of the head, if there was one. */
  ghost predicate Heads(env: Env, rows: Rows, rows': Rows, head: Option<nat>, e: SignedEvent, proof: Proof) {
    var sn := e.content.sn;
    && rows'.subject == rows.subject
    && rows'.events == (match head case Some(h) => rows.events[sn := e] - {h} case None => rows.events[sn := e])
    && head != Some(sn)
    && sn in rows'.certs && rows'.certs[sn].proof == proof && rows'.lceProof == Some(proof)
    && Certified(env, rows'.certs[sn].signatures, proof)
  }

  lemma HeadsKeeps(env: Env, id: Digest, rows: Rows, rows': Rows, c: nat, head: Option<nat>, e: SignedEvent, proof: Proof)
    requires Inv(env, id, Replica(Some(LedgerState(Some(c), head)), rows))
    requires Heads(env, rows, rows', head, e, proof)
    requires Sourceable(e.content, id) && e.content.sn >= c + 2
    ensures Inv(env, id, Replica(Some(LedgerState(Some(c), Some(e.content.sn))), rows'))
  {
    ChainFrame(env, id, rows, rows', c);
  }

  /** An accepted later event keeps the replica exactly when it leaves a gap, is not at the head's sn, and can be a head. */
  lemma LaterEventKeepsIff(env: Env, n: Node, id: Digest, c: nat, s: Subject, e: SignedEvent,
                           sigs: set<Signature>, proof: Proof)
    requires Inv(env, id, n.At(id))
    requires n.StateOf(id).Some? && n.states[id].currentSn == Some(c)
    requires n.db.Get(id).subject == Some(s)
    requires !e.content.request.content.Create? && (e.content.request.content.Transfer? ==> e.content.approved)
    requires e.content.request.content.subjectId == id && id in n.isGov && e.content.sn > c
    requires Certified(env, sigs, proof)
    requires LaterEvent(env, n, id, n.states[id], s, e, sigs, proof).1.Accepted?
    ensures Inv(env, id, LaterEvent(env, n, id, n.states[id], s, e, sigs, proof).0.At(id)) <==>
            e.content.sn >= c + 2 && n.states[id].head != Some(e.content.sn) && CanHead(e.content)
  {
    var n' := LaterEvent(env, n, id, n.states[id], s, e, sigs, proof).0;
    var rows, rows' := n.db.Get(id), n'.db.Get(id);
    var sn := e.content.sn;
    if sn >= c + 2 && n.states[id].head != Some(sn) && CanHead(e.content) {
      assert s.sn == c;
      assert sn in rows'.certs && rows'.certs[sn].proof == proof && sigs <= rows'.certs[sn].signatures;
      CertifiedMonotone(env, sigs, rows'.certs[sn].signatures, proof);
      HeadsKeeps(env, id, rows, rows', c, n.states[id].head, e, proof);
    }
  }

  /** Why the head's sn must not be met by a second event: the step would delete what it has just stored. */
  lemma SameSnLosesHead(env: Env, n: Node, id: Digest, s: Subject, e: SignedEvent,
                        sigs: set<Signature>, proof: Proof)
    requires id in n.states && id in n.isGov && !e.content.request.content.Create?
    requires LaterEvent(env, n, id, n.states[id], s, e, sigs, proof).1.Accepted?
    ensures var n' := LaterEvent(env, n, id, n.states[id], s, e, sigs, proof).0;
      e.content.sn in n'.db.Get(id).events <==> n.states[id].head != Some(e.content.sn)
  {}

  /** The first event of an unknown subject is kept well exactly when it can be a head. */
  lemma ExternalUnknownKeepsIff(env: Env, n: Node, id: Digest, e: SignedEvent, sigs: set<Signature>, proof: Proof,
                                admitted: bool)
    requires Inv(env, id, n.At(id)) && n.StateOf(id).None?
    requires !e.content.request.content.Create? && e.content.request.content.subjectId == id
    requires ExternalUnknown(env, n, id, e, sigs, proof, admitted).1.Accepted?
    ensures Inv(env, id, ExternalUnknown(env, n, id, e, sigs, proof, admitted).0.At(id))
            <==> CanHead(e.content)
  {
    var n' := ExternalUnknown(env, n, id, e, sigs, proof, admitted).0;
    var sn := e.content.sn;
    assert n'.db.Get(id).events.Keys == {sn};
    CertifiedMonotone(env, sigs, n'.db.Get(id).certs[sn].signatures, proof);
  }

  lemma ExternalKnownKeepsIff(env: Env, n: Node, id: Digest, e: SignedEvent, sigs: set<Signature>, proof: Proof,
                              admitted: bool)
    requires Inv(env, id, n.At(id)) && Recorded(env, n, id) && n.StateOf(id).Some?
    requires !e.content.request.content.Create? && e.content.request.content.subjectId == id
    requires ExternalKnown(env, n, id, n.states[id], e, sigs, proof, admitted).1.Accepted?
    ensures Inv(env, id, ExternalKnown(env, n, id, n.states[id], e, sigs, proof, admitted).0.At(id))
            <==> ExternalFits(env, n.At(id), e.content, proof)
  {
    var ls := n.states[id];
    var c, s := ls.currentSn.value, n.db.Get(id).subject.value;
    if e.content.sn == s.sn + 1 && ls.head.None? {
      NextEventKeepsIff(env, n, id, c, s, e, sigs, proof);
    } else {
      LaterEventKeepsIff(env, n, id, c, s, e, sigs, proof);
    }
  }

  // ---- genesis ----

  /** An accepted external genesis, whose sn nothing looks at, keeps the replica exactly when its sn is 0 and no event at
      sn 1 is waiting for it. */
  lemma ExternalGenesisKeepsIff(env: Env, n: Node, e: SignedEvent, admitted: bool)
    requires e.content.request.content.Create?
    requires Inv(env, SubjectIdOf(env.crypto, e.content), n.At(SubjectIdOf(env.crypto, e.content)))
    requires ExternalGenesis(env, n, e, admitted).1.Accepted?
    ensures var id := SubjectIdOf(env.crypto, e.content);
      Inv(env, id, ExternalGenesis(env, n, e, admitted).0.At(id))
      <==> e.content.sn == 0 && n.StateOf(id) != Some(LedgerState(None, Some(1)))
  {
    var id := SubjectIdOf(env.crypto, e.content);
    var rows' := ExternalGenesis(env, n, e, admitted).0.db.Get(id);
    assert rows'.events == n.db.Get(id).events[e.content.sn := e];
    if e.content.sn == 0 { GenesisChain(env, id, rows', e, rows'.subject.value); }
  }

  /** The rows and the state after an accepted own genesis. */
  lemma OwnGenesisShape(env: Env, n: Node, e: SignedEvent, sigs: set<Signature>, proof: Proof, live: Option<nat>)
    returns (r': Replica, v: Value)
    requires OwnGenesis(env, n, e, sigs, proof, live).1.Accepted?
    ensures e.content.request.content.Create?
    ensures var id, start := SubjectIdOf(env.crypto, e.content), e.content.request.content.start;
      var version := if start.schemaId == "governance" && start.governanceId == NoDigest then Some(0) else live;
      && version.Some? && env.gov.initState(start.governanceId, start.schemaId, version.value) == Some(v)
      && r' == OwnGenesis(env, n, e, sigs, proof, live).0.At(id)
      && r'.state == Some(LedgerState(Some(0), if id in n.states then n.states[id].head else None))
      && r'.rows.subject.Some?
      && r'.rows.subject.value.Public() == FromGenesisEvent(env.crypto, e.content, v, None)
      && r'.rows == n.db.Get(id).SetSubject(r'.rows.subject.value).SetCert(e.content.sn, sigs, proof).SetEvent(e)
  {
    var id, start := SubjectIdOf(env.crypto, e.content), e.content.request.content.start;
    var version := if start.schemaId == "governance" && start.governanceId == NoDigest then Some(0) else live;
    r' := OwnGenesis(env, n, e, sigs, proof, live).0.At(id);
    v := env.gov.initState(start.governanceId, start.schemaId, version.value).value;
  }

  lemma OwnGenesisFitting(env: Env, id: Digest, r: Replica, r': Replica, e: SignedEvent, sigs: set<Signature>, proof: Proof, v: Value)
    requires Inv(env, id, r) && e.content.request.content.Create? && SubjectIdOf(env.crypto, e.content) == id
    requires r'.state == Some(LedgerState(Some(0), if r.state.Some? then r.state.value.head else None))
    requires r'.rows.subject.Some? && r'.rows.subject.value.Public() == FromGenesisEvent(env.crypto, e.content, v, None)
    requires r'.rows == r.rows.SetSubject(r'.rows.subject.value).SetCert(e.content.sn, sigs, proof).SetEvent(e)
    ensures var start := e.content.request.content.start;
      Inv(env, id, r') <==>
      && e.content.sn == 0
      && env.gov.initState(start.governanceId, start.schemaId, e.content.govVersion) == Some(v)
      && (r.state.Some? ==> (r.state.value.currentSn.None? || r.state.value.currentSn == Some(0)) && r.state.value.head != Some(1))
  {
    var start := e.content.request.content.start;
    var rows, rows' := r.rows, r'.rows;
    var sn := e.content.sn;
    assert rows'.events == rows.events[sn := e];
    if sn == 0 && env.gov.initState(start.governanceId, start.schemaId, e.content.govVersion) == Some(v) {
      GenesisChain(env, id, rows', e, rows'.subject.value);
      assert forall h :: h >= 1 ==> (h in rows'.certs <==> h in rows.certs) && (h in rows.certs ==> rows'.certs[h] == rows.certs[h]);
    }
    if r.state.Some? && r.state.value.currentSn.Some? {
      assert 0 < r.state.value.currentSn.value ==> 1 in rows.events && 1 in rows'.events;
    }
    assert sn in rows'.events;
  }

  /** An accepted own genesis keeps the replica exactly when its sn is 0, nothing is stored beyond one, no head directly follows,
      and governance's present version gives the initial state the event's version gives. */
  lemma OwnGenesisKeepsIff(env: Env, n: Node, e: SignedEvent, sigs: set<Signature>, proof: Proof, live: Option<nat>)
    requires e.content.request.content.Create?
    requires Inv(env, SubjectIdOf(env.crypto, e.content), n.At(SubjectIdOf(env.crypto, e.content)))
    requires OwnGenesis(env, n, e, sigs, proof, live).1.Accepted?
    ensures var id := SubjectIdOf(env.crypto, e.content);
      Inv(env, id, OwnGenesis(env, n, e, sigs, proof, live).0.At(id)) <==> OwnGenesisFits(env, n.At(id), e.content, live)
  {
    var id := SubjectIdOf(env.crypto, e.content);
    var r', v := OwnGenesisShape(env, n, e, sigs, proof, live);
    OwnGenesisFitting(env, id, n.At(id), r', e, sigs, proof, v);
  }

  /** Any event from elsewhere that the ledger accepts. */
  lemma ExternalKeepsIff(env: Env, n: Node, e: SignedEvent, sigs: set<Signature>, proof: Proof, admitted: bool)
    requires var id := SubjectIdOf(env.crypto, e.content); Inv(env, id, n.At(id)) && Recorded(env, n, id)
    requires ExternalEvent(env, n, e, sigs, proof, admitted).1.Accepted?
    ensures var id := SubjectIdOf(env.crypto, e.content);
      Inv(env, id, ExternalEvent(env, n, e, sigs, proof, admitted).0.At(id)) <==> ExternalFits(env, n.At(id), e.content, proof)
  {
    var id := SubjectIdOf(env.crypto, e.content);
    if e.content.request.content.Create? { ExternalGenesisKeepsIff(env, n, e, admitted); }
    else if n.StateOf(id).None? { ExternalUnknownKeepsIff(env, n, id, e, sigs, proof, admitted); }
    else { ExternalKnownKeepsIff(env, n, id, e, sigs, proof, admitted); }
  }

  /** An end of life can pass the checks of evaluation and approval with a vote against it; taken in as the next event
      it is carried out all the same, and the subject is no longer what its events say. */
  lemma RejectedEolIsCarriedOut(env: Env, n: Node, id: Digest, c: nat, e: SignedEvent, sigs: set<Signature>, proof: Proof,
                                admitted: bool)
    requires e.content.request.content == Eol(id) && !e.content.approved && e.content.sn == c + 1
    requires Inv(env, id, n.At(id)) && Recorded(env, n, id) && n.StateOf(id) == Some(LedgerState(Some(c), None))
    requires ExternalEvent(env, n, e, sigs, proof, admitted).1.Accepted?
    ensures var n' := ExternalEvent(env, n, e, sigs, proof, admitted).0;
      && n.db.Get(id).subject.Some? && n'.db.Get(id).subject.Some?
      && !n'.db.Get(id).subject.value.active
      && Apply(env.crypto, n.db.Get(id).subject.value.Public(), e.content).value.active
      && !Inv(env, id, n'.At(id))
  {
    ExternalKeepsIff(env, n, e, sigs, proof, admitted);
  }

  // ---- own events ----

  lemma StoreOwnKeeps(env: Env, n: Node, id: Digest, c: nat, s: Subject, s': Subject, e: SignedEvent,
                      sigs: set<Signature>, proof: Proof, isGov: bool)
    requires Inv(env, id, n.At(id)) && n.StateOf(id).Some? && n.states[id].currentSn == Some(c)
    requires n.db.Get(id).subject == Some(s)
    requires Apply(env.crypto, s.Public(), e.content) == Some(s'.Public())
    requires OwnFits(env, id, n.At(id), e.content, sigs, proof)
    ensures var (n', r) := StoreOwn(env, n, id, s', e, sigs, proof, isGov); r.Accepted? && Inv(env, id, n'.At(id))
  {
    var rows := n.db.Get(id);
    if n.states[id].head.None? {
      NextRowsKeep(env, id, rows, c, s, s', e, sigs, proof, isGov);
    } else {
      ExtendChain(env, id, rows, NextRows(rows, s', e, sigs, proof, isGov), s, e, s');
    }
  }

  /** The event is at the next sn, names its predecessor and has had its effect. */
  lemma StoredOwnFollows(env: Env, id: Digest, rows: Rows, c: nat, s: Subject, s': Subject, e: SignedEvent,
                         sigs: set<Signature>, proof: Proof, isGov: bool)
    requires Chain(env, id, rows, c) && rows.subject == Some(s) && c + 1 !in rows.events
    requires Chain(env, id, NextRows(rows, s', e, sigs, proof, isGov), c + 1)
    ensures e.content.sn == c + 1 && e.content.hashPrev == env.crypto.hashEvent(rows.events[c].content)
    ensures Apply(env.crypto, s.Public(), e.content) == Some(s'.Public())
  {
    var rows' := NextRows(rows, s', e, sigs, proof, isGov);
    assert e.content.sn == c + 1 by {
      assert c + 1 in rows'.events && rows'.events.Keys == rows.events.Keys + {e.content.sn};
    }
    ChainStep(env, id, rows, rows', c);
    assert LinkedAt(env.crypto, rows'.events, c + 1);
  }

  lemma StoredOwnFits(env: Env, id: Digest, rows: Rows, c: nat, head: Option<nat>, s: Subject, s': Subject, e: SignedEvent,
                      sigs: set<Signature>, proof: Proof, isGov: bool)
    requires Inv(env, id, Replica(Some(LedgerState(Some(c), head)), rows)) && rows.subject == Some(s)
    requires !e.content.request.content.Create?
    requires Apply(env.crypto, s.Public(), e.content) == Some(s'.Public()) ==> IdleIfRejected(s, e.content)
    requires Inv(env, id, Replica(Some(LedgerState(Some(c + 1), head)), NextRows(rows, s', e, sigs, proof, isGov)))
    ensures OwnFits(env, id, Replica(Some(LedgerState(Some(c), head)), rows), e.content, sigs, proof)
  {
    var rows' := NextRows(rows, s', e, sigs, proof, isGov);
    StoredOwnFollows(env, id, rows, c, s, s', e, sigs, proof, isGov);
    assert c + 1 in rows'.certs && rows'.certs[c + 1] == Certificate(sigs + StoredSignatures(rows, c + 1), proof);
  }

  lemma StoreOwnKeepsIff(env: Env, n: Node, id: Digest, c: nat, s: Subject, s': Subject, e: SignedEvent,
                         sigs: set<Signature>, proof: Proof, isGov: bool)
    requires Inv(env, id, n.At(id)) && n.StateOf(id).Some? && n.states[id].currentSn == Some(c)
    requires n.db.Get(id).subject == Some(s) && !e.content.request.content.Create?
    requires Apply(env.crypto, s.Public(), e.content) == Some(s'.Public()) <==> IdleIfRejected(s, e.content)
    ensures var (n', r) := StoreOwn(env, n, id, s', e, sigs, proof, isGov);
      r.Accepted? && (Inv(env, id, n'.At(id)) <==> OwnFits(env, id, n.At(id), e.content, sigs, proof))
  {
    var n' := StoreOwn(env, n, id, s', e, sigs, proof, isGov).0;
    if OwnFits(env, id, n.At(id), e.content, sigs, proof) {
      StoreOwnKeeps(env, n, id, c, s, s', e, sigs, proof, isGov);
    } else if Inv(env, id, n'.At(id)) {
      StoredOwnFits(env, id, n.db.Get(id), c, n.states[id].head, s, s', e, sigs, proof, isGov);
    }
  }

  /** An accepted own event keeps the replica exactly when it fits. */
  lemma OwnEventKeepsIff(env: Env, n: Node, e: SignedEvent, sigs: set<Signature>, proof: Proof, gov: bool)
    requires !e.content.request.content.Create?
    requires Inv(env, e.content.request.content.subjectId, n.At(e.content.request.content.subjectId))
    requires OwnEvent(env, n, e, sigs, proof, gov).1.Accepted?
    ensures var id := e.content.request.content.subjectId;
      Inv(env, id, OwnEvent(env, n, e, sigs, proof, gov).0.At(id)) <==> OwnFits(env, id, n.At(id), e.content, sigs, proof)
  {
    var id := e.content.request.content.subjectId;
    var s := n.db.Get(id).subject.value;
    OwnEffectApplies(env, n.db, s, e.content);
    StoreOwnKeepsIff(env, n, id, s.sn, s, OwnEffect(env, n.db, s, e.content).subject, e, sigs, proof,
      if id in n.isGov then n.isGov[id] else gov);
  }

  /** An own event built on the replica leaves it one event further on, or where it was; it never panics. */
  lemma OwnEventKeeps(env: Env, n: Node, e: SignedEvent, sigs: set<Signature>, proof: Proof, gov: bool)
    requires !e.content.request.content.Create?
    requires var id := e.content.request.content.subjectId;
      Inv(env, id, n.At(id)) && OrderlyOwn(env, id, n.At(id), e.content, sigs, proof)
    ensures var id := e.content.request.content.subjectId;
      Inv(env, id, OwnEvent(env, n, e, sigs, proof, gov).0.At(id))
    ensures !OwnEvent(env, n, e, sigs, proof, gov).1.Panicked?
  {
    var id := e.content.request.content.subjectId;
    var rows := n.db.Get(id);
    var s := rows.subject.value;
    if OwnEffect(env, n.db, s, e.content).Effect? {
      CertifiedMonotone(env, sigs, sigs + StoredSignatures(rows, e.content.sn), proof);
      OwnEffectApplies(env, n.db, s, e.content);
      StoreOwnKeepsIff(env, n, id, s.sn, s, OwnEffect(env, n.db, s, e.content).subject, e, sigs, proof,
        if id in n.isGov then n.isGov[id] else gov);
    } else {
      ChainFrame(env, id, rows, rows.SetCert(e.content.sn, sigs, proof), s.sn);
    }
  }
}
