/** Catching up: intermediate events keep the invariant and close the gap. */
module LedgerCatchUp {
  import opened Protocol
  import opened Subjects
  import opened Verify
  import opened Store
  import opened LedgerSteps
  import opened LedgerInvariant

  /** Sourcing a stored event checks its link and agrees with the reference. */
  lemma SourcingApplies(env: Env, db: Db, id: Digest, e: Event)
    requires Sourceable(e, id)
    requires EventSourcing(env, db, e).Sourced?
    ensures var x := EventSourcing(env, db, e);
      && FitsHash(env.crypto, db.Get(id), e)
      && db.Get(id).subject.Some?
      && x.db.Get(id) == db.Get(id).SetSubject(x.subject)
      && x.db.requests == db.requests
      && (forall j :: j != id ==> x.db.Get(j) == db.Get(j))
      && x.subject.sn == e.sn
      && Apply(env.crypto, db.Get(id).subject.value.Public(), e) == Some(x.subject.Public())
  {}

  /** A head that is an end of life is where catch-up and the reference part: the subject is closed but its
      sn stays behind by one. */
  lemma EolSourcingLagsBehind(env: Env, db: Db, id: Digest, e: Event, n: nat)
    requires e.approved && e.request.content == Eol(id) && e.sn == n + 1
    requires EventSourcing(env, db, e).Sourced? && db.Get(id).subject.value.sn == n
    ensures var x := EventSourcing(env, db, e);
      && x.subject.sn == n
      && Apply(env.crypto, db.Get(id).subject.value.Public(), e) == Some(x.subject.(sn := n + 1).Public())
      && Apply(env.crypto, db.Get(id).subject.value.Public(), e) != Some(x.subject.Public())
  {
    assert EventSourcing(env, db, e).subject == db.Get(id).subject.value.EolEvent();
  }

  lemma CompleteKeeps(env: Env, n: Node, id: Digest, s: Subject, c: nat)
    requires var rows := n.db.Get(id);
      Filed(rows) && Chain(env, id, rows, c) && rows.subject == Some(s) && HeadOk(env, id, rows, c + 1)
      && forall i :: i in rows.events ==> i <= c + 1
    requires Complete(env, n, id, s, c + 1).1.Accepted?
    ensures var n' := Complete(env, n, id, s, c + 1).0;
      && n'.StateOf(id) == Some(LedgerState(Some(c + 1), None))
      && Inv(env, id, n'.At(id))
      && n'.db.Get(id).events == n.db.Get(id).events
  {
    var rows := n.db.Get(id);
    var e := rows.events[c + 1];
    var x := EventSourcing(env, n.db, e.content);
    SourcingApplies(env, n.db, id, e.content);
    var rows' := Complete(env, n, id, s, c + 1).0.db.Get(id);
    assert rows.events[c + 1 := e] == rows.events;
    ExtendChain(env, id, rows, rows', s, e, x.subject);
  }

  /** What an accepted intermediate event at current + 1 leaves before the head is looked at. */
  lemma StoredAndSourced(env: Env, db: Db, id: Digest, c: nat, h: nat, e: SignedEvent, stored: Db)
    requires Inv(env, id, Replica(Some(LedgerState(Some(c), Some(h))), db.Get(id)))
    requires Sourceable(e.content, id) && e.content.sn == c + 1
    requires stored.Get(id) == db.Get(id).SetEvent(e)
    requires EventSourcing(env, stored, e.content).Sourced?
    ensures var x := EventSourcing(env, stored, e.content);
      var rows := x.db.Get(id);
      && rows.events == db.Get(id).events[c + 1 := e]
      && Filed(rows) && Chain(env, id, rows, c + 1) && rows.subject == Some(x.subject)
      && HeadOk(env, id, rows, h)
      && (forall i :: i in rows.events ==> i <= c + 1 || i == h)
  {
    var x := EventSourcing(env, stored, e.content);
    SourcingApplies(env, stored, id, e.content);
    ExtendChain(env, id, db.Get(id), x.db.Get(id), db.Get(id).subject.value, e, x.subject);
  }

  /** The state an accepted event at sn leads to when the head is at h. */
  function Closer(sn: nat, h: nat): LedgerState {
    if h == sn + 1 then LedgerState(Some(h), None) else LedgerState(Some(sn), Some(h))
  }

  /** The sn a replica that is catching up wants next. */
  function Wanted(ls: LedgerState): nat {
    match ls.currentSn
    case None => 0
    case Some(c) => c + 1
  }

  /** From n to n' the replica of id took in event e, the one it wanted. */
  ghost predicate Closes(env: Env, n: Node, n': Node, id: Digest, e: SignedEvent) {
    && n.StateOf(id).Some? && n.states[id].head.Some?
    && e.content.sn == Wanted(n.states[id])
    && Inv(env, id, n'.At(id))
    && n'.db.Get(id).events == n.db.Get(id).events[e.content.sn := e]
    && n'.StateOf(id) == Some(Closer(e.content.sn, n.states[id].head.value))
  }

  lemma SourceNextKeeps(env: Env, n: Node, n': Node, before: Node, id: Digest, c: nat, h: nat, e: SignedEvent)
    requires before.StateOf(id) == Some(LedgerState(Some(c), Some(h))) && Inv(env, id, before.At(id))
    requires n == before.(db := n.db) && n.db.Get(id) == before.db.Get(id).SetEvent(e)
    requires Sourceable(e.content, id) && e.content.sn == c + 1
    requires SourceNext(env, n, id, c, h, e.content) == (n', Accepted)
    ensures Closes(env, before, n', id, e)
  {
    StoredAndSourced(env, before.db, id, c, h, e, n.db);
    var x := EventSourcing(env, n.db, e.content);
    if h == c + 2 {
      CompleteKeeps(env, n.(db := x.db), id, x.subject, c + 1);
    }
  }

  /** What `external_intermediate_event` has checked and stored when it goes on to apply the event. */
  lemma IntermediateNextShape(env: Env, n: Node, id: Digest, c: nat, h: nat, e: SignedEvent)
    requires !e.content.request.content.Eol?
    requires IntermediateNext(env, n, id, c, h, e).1.Accepted?
    ensures e.content.sn == c + 1 && !e.content.request.content.Create? && OnlyFactsRejected(e.content)
    ensures var stored := n.db.Put(id, n.db.Get(id).SetEvent(e)).Finish(env.crypto.hashRequest(e.content.request));
      IntermediateNext(env, n, id, c, h, e) == SourceNext(env, n.(db := stored), id, c, h, e.content)
  {}

  lemma IntermediateNextKeeps(env: Env, n: Node, n': Node, id: Digest, c: nat, h: nat, e: SignedEvent)
    requires n.StateOf(id) == Some(LedgerState(Some(c), Some(h))) && Inv(env, id, n.At(id))
    requires !e.content.request.content.Eol? && e.content.subjectId == id
    requires !e.content.request.content.Create? ==> e.content.request.content.subjectId == id
    requires IntermediateNext(env, n, id, c, h, e) == (n', Accepted)
    ensures Closes(env, n, n', id, e)
  {
    IntermediateNextShape(env, n, id, c, h, e);
    var stored := n.db.Put(id, n.db.Get(id).SetEvent(e)).Finish(env.crypto.hashRequest(e.content.request));
    assert stored.Get(id) == n.db.Get(id).SetEvent(e);
    SourceNextKeeps(env, n.(db := stored), n', n, id, c, h, e);
  }

  lemma IntermediateGenesisKeeps(env: Env, n: Node, n': Node, h: nat, e: SignedEvent)
    requires e.content.request.content.Create?
    requires var id := SubjectIdOf(env.crypto, e.content);
      && n.StateOf(id) == Some(LedgerState(None, Some(h))) && Inv(env, id, n.At(id))
      && IntermediateGenesis(env, n, id, h, e) == (n', Accepted)
    ensures Closes(env, n, n', SubjectIdOf(env.crypto, e.content), e)
  {
    var id := SubjectIdOf(env.crypto, e.content);
    var db := CheckGenesis(env, n.db, e, id).0;
    var rows := db.Get(id);
    assert rows.events == n.db.Get(id).events[0 := e];
    GenesisChain(env, id, rows, e, rows.subject.value);
    if h == 1 {
      CompleteKeeps(env, n.(db := db), id, rows.subject.value, 0);
    }
  }

  /** Which of the two catch-up steps an accepted intermediate event takes. */
  lemma IntermediateDispatch(env: Env, n: Node, e: SignedEvent)
    requires IntermediateEvent(env, n, e).1.Accepted?
    ensures var id := SubjectIdOf(env.crypto, e.content);
      && n.StateOf(id).Some? && n.states[id].head.Some?
      && !e.content.request.content.Eol? && e.content.subjectId == id
      && (match n.states[id].currentSn
          case Some(c) => IntermediateEvent(env, n, e) == IntermediateNext(env, n, id, c, n.states[id].head.value, e)
          case None =>
            && e.content.sn == 0 && e.content.request.content.Create?
            && IntermediateEvent(env, n, e) == IntermediateGenesis(env, n, id, n.states[id].head.value, e))
  {}

  /** An accepted intermediate event keeps the invariant, is the one wanted, is stored, and moves the replica
      one step closer to its head, or onto it. */
  lemma IntermediateKeeps(env: Env, n: Node, e: SignedEvent)
    requires var id := SubjectIdOf(env.crypto, e.content); Inv(env, id, n.At(id))
    requires IntermediateEvent(env, n, e).1.Accepted?
    ensures Closes(env, n, IntermediateEvent(env, n, e).0, SubjectIdOf(env.crypto, e.content), e)
  {
    IntermediateDispatch(env, n, e);
    var id, n' := SubjectIdOf(env.crypto, e.content), IntermediateEvent(env, n, e).0;
    match n.states[id].currentSn
    case Some(c) => IntermediateNextKeeps(env, n, n', id, c, n.states[id].head.value, e);
    case None => IntermediateGenesisKeeps(env, n, n', n.states[id].head.value, e);
  }

  /** The event wanted next is never one already held, so catch-up rewrites nothing. */
  lemma WantedIsMissing(env: Env, id: Digest, r: Replica)
    requires Inv(env, id, r) && r.state.Some? && r.state.value.head.Some?
    ensures Wanted(r.state.value) !in r.rows.events
    ensures Wanted(r.state.value) < r.state.value.head.value
  {}
}
