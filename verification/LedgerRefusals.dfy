/** Catch-up events that are refused: before they are stored nothing changes, afterwards the replica is spoilt. */
module LedgerRefusals {
  import opened Protocol
  import opened Subjects
  import opened Verify
  import opened Store
  import opened LedgerSteps
  import opened LedgerInvariant
  import opened LedgerCatchUp

  // ---- guards that can be read before the call ----

  /** `check_genesis` refuses nothing: the creator may create, and governance knows the initial state. */
  predicate MayCreate(env: Env, e: Event, id: Digest) {
    && e.request.content.Create?
    && var start := e.request.content.start;
    && (start.schemaId == "governance" ||
        env.gov.mayInvoke(Metadata(start.namespace, id, start.governanceId, e.govVersion, start.schemaId), Creation,
          e.request.signature.signer) == Some(true))
    && env.gov.initState(start.governanceId, start.schemaId, e.govVersion).Some?
  }

  /** Everything that is checked of a catch-up event before it is stored. */
  predicate ReachesStore(env: Env, n: Node, e: SignedEvent) {
    var ev, id := e.content, SubjectIdOf(env.crypto, e.content);
    && env.crypto.hashRequest(ev.request) !in n.db.requests
    && SignaturesOk(env.crypto, e)
    && !ev.request.content.Eol?
    && id == ev.subjectId
    && n.StateOf(id).Some? && n.states[id].head.Some?
    && (match n.states[id].currentSn
        case Some(c) =>
          ev.sn == c + 1 && n.db.Get(id).subject.Some? && IntermediateKind(env, n.db.Get(id).subject.value, ev).Accepted?
        case None => ev.sn == 0 && MayCreate(env, ev, id))
  }

  /** The head directly follows e, of which s is the outcome: head and kept proof name e, and the head can be applied. */
  predicate HeadFollows(env: Env, db: Db, rows: Rows, s: Subject, e: Event, h: nat) {
    && h in rows.events && rows.lceProof.Some?
    && var head := rows.events[h].content;
    && head.hashPrev == env.crypto.hashEvent(e)
    && ProofFits(rows.lceProof.value, s, env.crypto.hashEvent(e), env.crypto.hashEvent(head), ProofKey(s, head))
    && !head.request.content.Create? && NextEffect(env, db, s, head).Effect?
  }

  /** What is looked at only after the event has been stored: it names its stored predecessor and can be applied (a patch
      that applies, a transfer whose key is held when it is to this node), and the head, when next, follows it. */
  predicate FitsIn(env: Env, n: Node, e: SignedEvent) {
    var ev, id := e.content, SubjectIdOf(env.crypto, e.content);
    var rows := n.db.Get(id);
    && n.StateOf(id).Some? && n.states[id].head.Some?
    && var h := n.states[id].head.value;
    match n.states[id].currentSn
    case Some(c) =>
      && rows.subject.Some? && !ev.request.content.Create?
      && c in rows.events && ev.hashPrev == env.crypto.hashEvent(rows.events[c].content)
      && var effect := NextEffect(env, n.db, rows.subject.value, ev);
      && effect.Effect?
      && (h == c + 2 ==> HeadFollows(env, UseKey(n.db, effect.usedKey), rows, effect.subject, ev, h))
    case None =>
      && MayCreate(env, ev, id)
      && var start := ev.request.content.start;
      && (h == 1 ==> HeadFollows(env, n.db, rows,
            FromGenesisEvent(env.crypto, ev, env.gov.initState(start.governanceId, start.schemaId, ev.govVersion).value, None), ev, 1))
  }

  // ---- refused before the store ----

  lemma RefusedBeforeStore(env: Env, n: Node, e: SignedEvent)
    requires !ReachesStore(env, n, e)
    ensures IntermediateEvent(env, n, e).0 == n && !IntermediateEvent(env, n, e).1.Accepted?
  {}

  // ---- after the store ----

  /** The database once the event is stored. */
  function Stored(env: Env, n: Node, e: SignedEvent): Db {
    var id := SubjectIdOf(env.crypto, e.content);
    n.db.Put(id, n.db.Get(id).SetEvent(e)).Finish(env.crypto.hashRequest(e.content.request))
  }

  lemma ReachedNext(env: Env, n: Node, e: SignedEvent, c: nat)
    requires ReachesStore(env, n, e)
    requires n.states[SubjectIdOf(env.crypto, e.content)].currentSn == Some(c)
    ensures var id := SubjectIdOf(env.crypto, e.content);
      && Sourceable(e.content, id)
      && IntermediateEvent(env, n, e) == SourceNext(env, n.(db := Stored(env, n, e)), id, c, n.states[id].head.value, e.content)
  {}

  /** Sourcing a stored event succeeds exactly when it fits its stored predecessor and can be applied. */
  lemma SourcesExactly(env: Env, db: Db, id: Digest, s: Subject, e: Event)
    requires Sourceable(e, id) && db.Get(id).subject == Some(s) && e.sn == s.sn + 1
    ensures var x, effect := EventSourcing(env, db, e), NextEffect(env, db, s, e);
      && (x.Sourced? <==> FitsHash(env.crypto, db.Get(id), e) && effect.Effect?)
      && (x.Sourced? ==> x.subject == effect.subject && x.db == UseKey(db.Put(id, db.Get(id).SetSubject(x.subject)), effect.usedKey))
  {}

  /** Completing succeeds exactly when the head follows the event just applied. */
  lemma CompletesExactly(env: Env, n: Node, id: Digest, s: Subject, e: SignedEvent, h: nat)
    requires var rows := n.db.Get(id);
      && HeadOk(env, id, rows, h) && Filed(rows) && rows.subject == Some(s) && s.subjectId == id
      && h == s.sn + 1 && s.sn in rows.events && rows.events[s.sn] == e
    ensures var (n', r) := Complete(env, n, id, s, h);
      && (r.Accepted? <==> HeadFollows(env, n.db, n.db.Get(id), s, e.content, h))
      && (!r.Accepted? ==> n' == n)
  {
    SourcesExactly(env, n.db, id, s, n.db.Get(id).events[h].content);
  }

  /** What a step leaves of a replica when the event was stored and then refused: at most the subject has moved, and that
      only when the head was to follow. */
  ghost predicate Spoilt(env: Env, n: Node, n': Node, id: Digest, e: SignedEvent) {
    && n'.states == n.states && n'.isGov == n.isGov
    && n'.db.Get(id).events == n.db.Get(id).events[e.content.sn := e]
    && env.crypto.hashRequest(e.content.request) in n'.db.requests
    && n'.db.Get(id).subject.Some?
    && ((n'.db.Get(id).subject.value.sn == e.content.sn && n.StateOf(id).Some? && n.states[id].head == Some(e.content.sn + 1))
        || (n'.db.Get(id).subject == n.db.Get(id).subject && n'.db.Get(id).subject.value.sn + 1 == e.content.sn))
    && !Inv(env, id, n'.At(id))
  }

  lemma StoredIsSpoilt(env: Env, n: Node, n': Node, id: Digest, e: SignedEvent, c: nat, h: nat)
    requires Inv(env, id, n.At(id)) && n.StateOf(id) == Some(LedgerState(Some(c), Some(h))) && e.content.sn == c + 1
    requires n'.states == n.states && c + 1 in n'.db.Get(id).events
    ensures !Inv(env, id, n'.At(id))
  {}

  /** The stored event can be sourced exactly when it names its predecessor and can be applied. */
  lemma StoredSources(env: Env, n: Node, id: Digest, c: nat, s: Subject, e: SignedEvent)
    requires Inv(env, id, n.At(id)) && n.StateOf(id).Some? && n.states[id].currentSn == Some(c)
    requires n.db.Get(id).subject == Some(s)
    requires Sourceable(e.content, id) && e.content.sn == c + 1
    requires SubjectIdOf(env.crypto, e.content) == id
    ensures var stored := Stored(env, n, e);
      var x, effect := EventSourcing(env, stored, e.content), NextEffect(env, n.db, s, e.content);
      && stored.Get(id) == n.db.Get(id).SetEvent(e)
      && (x.Sourced? <==> e.content.hashPrev == env.crypto.hashEvent(n.db.Get(id).events[c].content) && effect.Effect?)
      && (x.Sourced? ==>
            && x.subject == effect.subject && x.subject.sn == c + 1 && x.subject.subjectId == id
            && x.db.Get(id) == n.db.Get(id).SetEvent(e).SetSubject(x.subject)
            && x.db.requests == stored.requests
            && NextEffectKeys(env, s, e.content, n.db, x.db))
  {
    var stored := Stored(env, n, e);
    assert stored.Get(id) == n.db.Get(id).SetEvent(e);
    SourcesExactly(env, stored, id, s, e.content);
    assert NextEffect(env, stored, s, e.content) == NextEffect(env, n.db, s, e.content);
  }

  lemma NotSourcedSpoils(env: Env, n: Node, id: Digest, c: nat, h: nat, e: SignedEvent)
    requires Inv(env, id, n.At(id)) && n.StateOf(id) == Some(LedgerState(Some(c), Some(h)))
    requires SubjectIdOf(env.crypto, e.content) == id && e.content.sn == c + 1
    ensures Spoilt(env, n, n.(db := Stored(env, n, e)), id, e)
  {
    var n' := n.(db := Stored(env, n, e));
    assert n'.db.Get(id) == n.db.Get(id).SetEvent(e);
    StoredIsSpoilt(env, n, n', id, e, c, h);
  }

  lemma HalfDoneSpoils(env: Env, n: Node, db: Db, id: Digest, c: nat, h: nat, s': Subject, e: SignedEvent)
    requires Inv(env, id, n.At(id)) && n.StateOf(id) == Some(LedgerState(Some(c), Some(h))) && e.content.sn == c + 1
    requires db.Get(id) == n.db.Get(id).SetEvent(e).SetSubject(s') && s'.sn == c + 1 && h == c + 2
    requires env.crypto.hashRequest(e.content.request) in db.requests
    ensures Spoilt(env, n, n.(db := db), id, e)
  {
    StoredIsSpoilt(env, n, n.(db := db), id, e, c, h);
  }

  /** The event is stored at c + 1: what follows succeeds exactly when the event fits in. */
  lemma NextExactly(env: Env, n: Node, n': Node, r: Outcome, id: Digest, c: nat, h: nat, e: SignedEvent)
    requires Inv(env, id, n.At(id)) && n.StateOf(id) == Some(LedgerState(Some(c), Some(h)))
    requires Sourceable(e.content, id) && e.content.sn == c + 1
    requires SourceNext(env, n.(db := Stored(env, n, e)), id, c, h, e.content) == (n', r)
    ensures r.Accepted? <==> FitsIn(env, n, e)
    ensures !r.Accepted? ==> Spoilt(env, n, n', id, e)
  {
    var s := n.db.Get(id).subject.value;
    StoredSources(env, n, id, c, s, e);
    var x := EventSourcing(env, Stored(env, n, e), e.content);
    FitsNext(env, n, id, c, h, s, e);
    if x.NotSourced? {
      NotSourcedSpoils(env, n, id, c, h, e);
    } else if h == c + 2 {
      HeadDecides(env, n, n', r, x.db, id, c, s, x.subject, e);
    }
  }

  lemma HeadDecides(env: Env, n: Node, n': Node, r: Outcome, db: Db, id: Digest, c: nat, s: Subject, s': Subject, e: SignedEvent)
    requires Inv(env, id, n.At(id)) && n.StateOf(id) == Some(LedgerState(Some(c), Some(c + 2)))
    requires n.db.Get(id).subject == Some(s) && e.content.sn == c + 1
    requires s'.sn == c + 1 && s'.subjectId == id && db.Get(id) == n.db.Get(id).SetEvent(e).SetSubject(s')
    requires NextEffectKeys(env, s, e.content, n.db, db) && env.crypto.hashRequest(e.content.request) in db.requests
    requires !e.content.request.content.Create? && NextEffect(env, n.db, s, e.content).Effect?
    requires Complete(env, n.(db := db), id, s', c + 2) == (n', r)
    ensures var effect := NextEffect(env, n.db, s, e.content);
      r.Accepted? <==> HeadFollows(env, UseKey(n.db, effect.usedKey), n.db.Get(id), s', e.content, c + 2)
    ensures !r.Accepted? ==> Spoilt(env, n, n', id, e)
  {
    HeadExactly(env, n, db, id, c, s, s', e);
    HalfDoneSpoils(env, n, db, id, c, c + 2, s', e);
  }

  /** `FitsIn` of an event after genesis. */
  lemma FitsNext(env: Env, n: Node, id: Digest, c: nat, h: nat, s: Subject, e: SignedEvent)
    requires n.StateOf(id) == Some(LedgerState(Some(c), Some(h))) && n.db.Get(id).subject == Some(s)
    requires !e.content.request.content.Create? && id == e.content.request.content.subjectId && c in n.db.Get(id).events
    ensures var effect := NextEffect(env, n.db, s, e.content);
      FitsIn(env, n, e) <==>
        && e.content.hashPrev == env.crypto.hashEvent(n.db.Get(id).events[c].content)
        && effect.Effect?
        && (h == c + 2 ==> HeadFollows(env, UseKey(n.db, effect.usedKey), n.db.Get(id), effect.subject, e.content, h))
  {}

  lemma HeadExactly(env: Env, n: Node, db: Db, id: Digest, c: nat, s: Subject, s': Subject, e: SignedEvent)
    requires Inv(env, id, n.At(id)) && n.StateOf(id) == Some(LedgerState(Some(c), Some(c + 2)))
    requires n.db.Get(id).subject == Some(s) && e.content.sn == c + 1
    requires s'.sn == c + 1 && s'.subjectId == id && db.Get(id) == n.db.Get(id).SetEvent(e).SetSubject(s')
    requires NextEffectKeys(env, s, e.content, n.db, db)
    requires !e.content.request.content.Create? && NextEffect(env, n.db, s, e.content).Effect?
    ensures var effect := NextEffect(env, n.db, s, e.content);
      var (n', r) := Complete(env, n.(db := db), id, s', c + 2);
      && (r.Accepted? <==> HeadFollows(env, UseKey(n.db, effect.usedKey), n.db.Get(id), s', e.content, c + 2))
      && (!r.Accepted? ==> n' == n.(db := db))
  {
    CompletesExactly(env, n.(db := db), id, s', e, c + 2);
  }

  /** The key pairs left after the event are those before it but for the one it used. */
  predicate NextEffectKeys(env: Env, s: Subject, e: Event, before: Db, after: Db)
  {
    !e.request.content.Create? ==>
      NextEffect(env, before, s, e).Effect? ==> after.keys == UseKey(before, NextEffect(env, before, s, e).usedKey).keys
  }

  /** What is stored of event 0, and that nothing more is looked at unless the head is at 1. */
  lemma GenesisShape(env: Env, n: Node, id: Digest, h: nat, e: SignedEvent) returns (db: Db, s: Subject)
    requires e.content.sn == 0 && MayCreate(env, e.content, id) && SubjectIdOf(env.crypto, e.content) == id
    ensures var start := e.content.request.content.start;
      s == FromGenesisEvent(env.crypto, e.content, env.gov.initState(start.governanceId, start.schemaId, e.content.govVersion).value, None)
    ensures db.Get(id) == n.db.Get(id).SetEvent(e).SetSubject(s) && db.keys == n.db.keys
    ensures env.crypto.hashRequest(e.content.request) in db.requests
    ensures IntermediateGenesis(env, n, id, h, e) ==
      if h == 1 then Complete(env, n.(db := db), id, s, 1)
      else (n.(db := db).SetState(id, LedgerState(Some(0), Some(h))), Accepted)
  {
    db := CheckGenesis(env, n.db, e, id).0;
    s := db.Get(id).subject.value;
  }

  lemma HeadAtOne(env: Env, n: Node, db: Db, id: Digest, s: Subject, e: SignedEvent, n': Node, r: Outcome)
    requires Inv(env, id, n.At(id)) && n.StateOf(id) == Some(LedgerState(None, Some(1)))
    requires e.content.sn == 0 && s.sn == 0 && s.subjectId == id
    requires db.Get(id) == n.db.Get(id).SetEvent(e).SetSubject(s) && db.keys == n.db.keys
    requires env.crypto.hashRequest(e.content.request) in db.requests
    requires Complete(env, n.(db := db), id, s, 1) == (n', r)
    ensures r.Accepted? <==> HeadFollows(env, n.db, n.db.Get(id), s, e.content, 1)
    ensures !r.Accepted? ==> Spoilt(env, n, n', id, e)
  {
    CompletesExactly(env, n.(db := db), id, s, e, 1);
  }

  /** Event 0 is stored with its subject: with the head at 1 what follows succeeds exactly when it fits in. */
  lemma GenesisExactly(env: Env, n: Node, n': Node, r: Outcome, id: Digest, h: nat, e: SignedEvent)
    requires Inv(env, id, n.At(id)) && n.StateOf(id) == Some(LedgerState(None, Some(h)))
    requires e.content.sn == 0 && e.content.request.content.Create? && SubjectIdOf(env.crypto, e.content) == id
    requires MayCreate(env, e.content, id)
    requires IntermediateGenesis(env, n, id, h, e) == (n', r)
    ensures r.Accepted? <==> FitsIn(env, n, e)
    ensures !r.Accepted? ==> Spoilt(env, n, n', id, e)
  {
    var db, s := GenesisShape(env, n, id, h, e);
    if h == 1 { HeadAtOne(env, n, db, id, s, e, n', r); }
  }

  /** A catch-up event is accepted exactly when it passes the checks before the store and fits in; and the replica is kept
      exactly when it is not stored or fits in. Refused in between it stays stored, its request finished. */
  lemma IntermediateExactly(env: Env, n: Node, e: SignedEvent)
    requires Inv(env, SubjectIdOf(env.crypto, e.content), n.At(SubjectIdOf(env.crypto, e.content)))
    ensures var id := SubjectIdOf(env.crypto, e.content);
      var (n', r) := IntermediateEvent(env, n, e);
      && (r.Accepted? <==> ReachesStore(env, n, e) && FitsIn(env, n, e))
      && (Inv(env, id, n'.At(id)) <==> ReachesStore(env, n, e) ==> FitsIn(env, n, e))
      && (!ReachesStore(env, n, e) ==> n' == n)
      && (ReachesStore(env, n, e) && !FitsIn(env, n, e) ==> Spoilt(env, n, n', id, e))
  {
    var id := SubjectIdOf(env.crypto, e.content);
    if !ReachesStore(env, n, e) {
      RefusedBeforeStore(env, n, e);
    } else {
      ReachedExactly(env, n, e);
      if IntermediateEvent(env, n, e).1.Accepted? { IntermediateKeeps(env, n, e); }
    }
  }

  lemma ReachedExactly(env: Env, n: Node, e: SignedEvent)
    requires Inv(env, SubjectIdOf(env.crypto, e.content), n.At(SubjectIdOf(env.crypto, e.content)))
    requires ReachesStore(env, n, e)
    ensures var id := SubjectIdOf(env.crypto, e.content);
      var (n', r) := IntermediateEvent(env, n, e);
      && (r.Accepted? <==> FitsIn(env, n, e))
      && (!FitsIn(env, n, e) ==> Spoilt(env, n, n', id, e))
  {
    var id := SubjectIdOf(env.crypto, e.content);
    var (n', r) := IntermediateEvent(env, n, e);
    var h := n.states[id].head.value;
    match n.states[id].currentSn
    case Some(c) =>
      ReachedNext(env, n, e, c);
      NextExactly(env, n, n', r, id, c, h, e);
    case None =>
      ReachedGenesis(env, n, e);
      GenesisExactly(env, n, n', r, id, h, e);
  }

  lemma ReachedGenesis(env: Env, n: Node, e: SignedEvent)
    requires ReachesStore(env, n, e)
    requires n.states[SubjectIdOf(env.crypto, e.content)].currentSn.None?
    ensures var id := SubjectIdOf(env.crypto, e.content);
      IntermediateEvent(env, n, e) == IntermediateGenesis(env, n, id, n.states[id].head.value, e)
  {}

  // ---- the failing input ----

  /** A transfer at the wanted sn needs nothing but its flags to be stored: signed by whomever, naming whatever
      predecessor. With a wrong one it is refused, stays stored at c + 1, and the replica is spoilt. */
  lemma WrongTransferIsStored(env: Env, n: Node, e: SignedEvent, c: nat)
    requires var ev := e.content;
      && ev.request.content.Transfer? && ev.request.content.subjectId == ev.subjectId && CheckTransfer(ev).Accepted? && ev.sn == c + 1
      && SignaturesOk(env.crypto, e) && env.crypto.hashRequest(ev.request) !in n.db.requests
      && Inv(env, ev.subjectId, n.At(ev.subjectId)) && n.StateOf(ev.subjectId).Some?
      && n.states[ev.subjectId].currentSn == Some(c) && n.states[ev.subjectId].head.Some?
      && ev.hashPrev != env.crypto.hashEvent(n.db.Get(ev.subjectId).events[c].content)
    ensures var id := e.content.subjectId;
      var (n', r) := IntermediateEvent(env, n, e);
      && r == Refused(EventDoesNotFitHash) && Spoilt(env, n, n', id, e) && n'.db.Get(id).events[c + 1] == e
  {
    IntermediateExactly(env, n, e);
    ReachedNext(env, n, e, c);
  }

  /** And once stored, whether or not it was refused, its request is finished: even the right event with that request
      is refused from then on, by either path, and changes nothing. */
  lemma RequestIsSpent(env: Env, n: Node, n': Node, id: Digest, e: SignedEvent, right: SignedEvent, sigs: set<Signature>,
                       proof: Proof, admitted: bool)
    requires Spoilt(env, n, n', id, e) && right.content.request == e.content.request
    ensures IntermediateEvent(env, n', right) == (n', Refused(RepeatedRequestId))
    ensures ExternalEvent(env, n', right, sigs, proof, admitted) == (n', Refused(RepeatedRequestId))
  {}
}
