/** What every replica keeps, whichever way its events arrive. */
module LedgerInvariant {
  import opened Protocol
  import opened Subjects
  import opened Verify
  import opened Store
  import opened LedgerSteps

  // ---- the invariant of one replica ----

  ghost predicate LinkedAt(c: Crypto, events: map<nat, SignedEvent>, i: nat) {
    && i >= 1 && i in events && i - 1 in events
    && events[i].content.hashPrev == c.hashEvent(events[i - 1].content)
  }

  /** Every event from 1 to n names the stored event before it. */
  ghost predicate Linked(c: Crypto, events: map<nat, SignedEvent>, n: nat) {
    forall i: nat :: 1 <= i <= n ==> LinkedAt(c, events, i)
  }

  /** The stored subject is the reference replay of the linked events 0 to n, up to private keys. */
  ghost predicate Chain(env: Env, id: Digest, rows: Rows, n: nat) {
    && (forall i :: 0 <= i <= n ==> i in rows.events)
    && rows.subject.Some?
    && rows.subject.value.subjectId == id
    && rows.subject.value.sn == n
    && Replay(env, rows.events, n) == Some(rows.subject.value.Public())
    && Linked(env.crypto, rows.events, n)
  }

  /** The proof names the subject's namespace, schema and governance. */
  predicate AboutSubject(p: Proof, s: Subject) {
    p.namespace == s.namespace && p.schemaId == s.schemaId && p.governanceId == s.governanceId
  }

  /** A certificate that passed `verify_signatures` and is about this event of this subject. */
  ghost predicate CertifiedAt(env: Env, id: Digest, rows: Rows, n: nat) {
    && n in rows.certs && n in rows.events
    && Certified(env, rows.certs[n].signatures, rows.certs[n].proof)
    && rows.certs[n].proof.subjectId == id
    && rows.certs[n].proof.sn == n
    && rows.certs[n].proof.eventHash == env.crypto.hashEvent(rows.events[n].content)
    && rows.subject.Some? && AboutSubject(rows.certs[n].proof, rows.subject.value)
  }

  /** Only a fact is rejected. */
  predicate OnlyFactsRejected(e: Event) {
    e.approved || e.request.content.Fact?
  }

  /** What catch-up makes of the event is an event after genesis of this subject. */
  predicate Sourceable(e: Event, id: Digest) {
    && e.sn >= 1
    && !e.request.content.Create? && !e.request.content.Eol? && e.request.content.subjectId == id
    && OnlyFactsRejected(e) && (!e.approved ==> e.subjectId == id)
  }

  /** The head waits with the proof that came with it, which is certified; nothing has compared the two yet. */
  ghost predicate HeadOk(env: Env, id: Digest, rows: Rows, h: nat) {
    && h >= 1
    && h in rows.events && h in rows.certs
    && Sourceable(rows.events[h].content, id)
    && rows.lceProof == Some(rows.certs[h].proof)
    && Certified(env, rows.certs[h].signatures, rows.certs[h].proof)
  }

  ghost predicate Filed(rows: Rows) {
    forall i :: i in rows.events ==> rows.events[i].content.sn == i
  }

  /** currentSn is where the subject stands, the head is strictly further on with something missing between,
      and nothing else is stored. */
  ghost predicate Inv(env: Env, id: Digest, r: Replica) {
    && Filed(r.rows)
    && match r.state
       case None => r.rows.subject.None? && r.rows.events == map[]
       case Some(LedgerState(None, head)) =>
         && r.rows.subject.None?
         && head.Some?
         && r.rows.events.Keys == {head.value}
         && HeadOk(env, id, r.rows, head.value)
       case Some(LedgerState(Some(c), None)) =>
         && Chain(env, id, r.rows, c)
         && (forall i :: i in r.rows.events ==> i <= c)
         && (c >= 1 ==> CertifiedAt(env, id, r.rows, c))
       case Some(LedgerState(Some(c), Some(h))) =>
         && Chain(env, id, r.rows, c)
         && (forall i :: i in r.rows.events ==> i <= c || i == h)
         && h >= c + 2
         && HeadOk(env, id, r.rows, h)
  }

  /** Every stored event is registered as a finished request, and its subject's kind is known. */
  ghost predicate Recorded(env: Env, n: Node, id: Digest) {
    && (forall i :: i in n.db.Get(id).events ==>
          env.crypto.hashRequest(n.db.Get(id).events[i].content.request) in n.db.requests)
    && (id in n.states ==> id in n.isGov)
  }

  ghost predicate NodeInv(env: Env, n: Node) {
    forall id :: Inv(env, id, n.At(id)) && Recorded(env, n, id)
  }

  // ---- every way of applying an event agrees with the reference ----

  /** The direct path changes the subject as the reference does, but for an end of life marked rejected: that it
      carries out. A rejected transfer it never gets to see. */
  lemma NextEffectApplies(env: Env, db: Db, s: Subject, e: Event)
    requires !e.request.content.Create? && (e.request.content.Transfer? ==> e.approved)
    ensures var x := NextEffect(env, db, s, e);
      x.Effect? ==> (Apply(env.crypto, s.Public(), e) == Some(x.subject.Public())
                     <==> (e.request.content.Eol? && s.active ==> e.approved))
  {
    if e.request.content.Eol? { assert NextEffect(env, db, s, e).subject == s.(sn := e.sn, active := false); }
  }

  /** An own event that is marked rejected and is no fact would change nothing if it were carried out. */
  predicate IdleIfRejected(s: Subject, e: Event) {
    && (e.request.content.Transfer? && !e.approved ==>
          s.owner == e.request.signature.signer && s.publicKey == e.request.content.publicKey)
    && (e.request.content.Eol? && !e.approved ==> !s.active)
  }

  /** The path of own events carries out transfers and ends of life marked rejected, too. */
  lemma OwnEffectApplies(env: Env, db: Db, s: Subject, e: Event)
    requires !e.request.content.Create?
    ensures var x := OwnEffect(env, db, s, e);
      x.Effect? ==> (Apply(env.crypto, s.Public(), e) == Some(x.subject.Public()) <==> IdleIfRejected(s, e))
  {
    if e.request.content.Eol? { assert OwnEffect(env, db, s, e).subject == s.(sn := e.sn, active := false); }
  }

  lemma LinkedFrame(c: Crypto, a: map<nat, SignedEvent>, b: map<nat, SignedEvent>, n: nat)
    requires Linked(c, a, n) && forall i :: 0 <= i <= n && i in a ==> i in b && b[i] == a[i]
    ensures Linked(c, b, n)
  {
    forall i: nat | 1 <= i <= n ensures LinkedAt(c, b, i) { assert LinkedAt(c, a, i); }
  }

  /** Extending a chain by one linked event, applied by whichever path. */
  lemma ExtendChain(env: Env, id: Digest, rows: Rows, rows': Rows, s: Subject, e: SignedEvent, s': Subject)
    requires Chain(env, id, rows, s.sn) && rows.subject == Some(s)
    requires e.content.sn == s.sn + 1
    requires e.content.hashPrev == env.crypto.hashEvent(rows.events[s.sn].content)
    requires Apply(env.crypto, s.Public(), e.content) == Some(s'.Public())
    requires rows'.events == rows.events[s.sn + 1 := e] && rows'.subject == Some(s')
    ensures Chain(env, id, rows', s.sn + 1)
  {
    ReplayFrame(env, rows.events, rows'.events, s.sn);
    LinkedFrame(env.crypto, rows.events, rows'.events, s.sn);
  }

  /** A change of rows that leaves the chain's events and the subject alone. */
  lemma ChainFrame(env: Env, id: Digest, rows: Rows, rows': Rows, n: nat)
    requires Chain(env, id, rows, n)
    requires rows'.subject == rows.subject
    requires forall i :: 0 <= i <= n ==> i in rows'.events && rows'.events[i] == rows.events[i]
    ensures Chain(env, id, rows', n)
  {
    ReplayFrame(env, rows.events, rows'.events, n);
    LinkedFrame(env.crypto, rows.events, rows'.events, n);
  }

  lemma GenesisChain(env: Env, id: Digest, rows: Rows, e: SignedEvent, s: Subject)
    requires e.content.request.content.Create? && e.content.sn == 0
    requires rows.subject == Some(s) && 0 in rows.events && rows.events[0] == e
    requires var start := e.content.request.content.start;
      && env.gov.initState(start.governanceId, start.schemaId, e.content.govVersion).Some?
      && s.Public() == FromGenesisEvent(env.crypto, e.content,
           env.gov.initState(start.governanceId, start.schemaId, e.content.govVersion).value, None)
    requires s.subjectId == id
    ensures Chain(env, id, rows, 0)
  {}
}
