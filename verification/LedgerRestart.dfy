/** Restart: the in-memory states are rebuilt from the last two stored events of every stored subject. */
module LedgerRestart {
  import opened Protocol
  import opened Subjects
  import opened Store
  import opened LedgerSteps
  import opened LedgerInvariant
  import opened LedgerRefusals
  import H = LedgerHandlers

  lemma {:induction false} MaxExists(s: set<nat>)
    requires s != {}
    ensures exists m :: m in s && forall k :: k in s ==> k <= m
  {
    var x :| x in s;
    if s != {x} {
      MaxExists(s - {x});
      var m :| m in s - {x} && forall k :: k in s - {x} ==> k <= m;
      var top := if x <= m then m else x;
      forall k | k in s ensures k <= top { if k != x { assert k in s - {x}; } }
      assert top in s;
    }
  }

  function Largest(s: set<nat>): (m: nat)
    requires s != {}
    ensures m in s && forall k :: k in s ==> k <= m
  {
    MaxExists(s);
    var m :| m in s && forall k :: k in s ==> k <= m;
    m
  }

  datatype Recovered = Recovered(state: LedgerState) | Lost(error: Error)

  /** What `init` makes of one stored subject. */
  function Recover(rows: Rows, s: Subject): Recovered {
    if rows.events == map[] then Lost(ZeroEventsSubject)
    else
      var top := Largest(rows.events.Keys);
      var below := rows.events.Keys - {top};
      if below == {} then Recovered(LedgerState(Some(0), None))
      else
        var last, preLast := rows.events[top].content.sn, rows.events[Largest(below)].content.sn;
        if last == preLast + 1 then
          if s.sn != last then Lost(WrongSnInSubject) else Recovered(LedgerState(Some(last), None))
        else
          if s.sn != preLast then Lost(WrongSnInSubject) else Recovered(LedgerState(Some(preLast), Some(last)))
  }

  // ---- one subject ----

  /** Every replica that keeps the invariant and has its subject is recovered exactly. */
  lemma RecoversExactly(env: Env, id: Digest, r: Replica)
    requires Inv(env, id, r) && r.rows.subject.Some?
    ensures r.state.Some? && Recover(r.rows, r.rows.subject.value) == Recovered(r.state.value)
  {
    var events, ls := r.rows.events, r.state.value;
    var c := ls.currentSn.value;
    assert c in events && 0 in events;
    var top := Largest(events.Keys);
    var below := events.Keys - {top};
    match ls.head
    case None =>
      assert top == c;
      if c == 0 {
        assert below == {};
      } else {
        assert c - 1 in below;
        assert Largest(below) == c - 1;
      }
    case Some(h) =>
      assert top == h;
      assert c in below && Largest(below) == c;
  }

  /** A subject without events stops start-up. */
  lemma NoEventsFailStart(rows: Rows, s: Subject)
    ensures Recover(rows, s) == Lost(ZeroEventsSubject) <==> rows.events.Keys == {}
  {}

  /** A subject of which one event is stored is recovered at sn 0, whatever the sn of either. */
  lemma LoneEventIsGenesis(rows: Rows, s: Subject, i: nat)
    requires rows.events.Keys == {i}
    ensures Recover(rows, s) == Recovered(LedgerState(Some(0), None))
  {
    assert Largest(rows.events.Keys) == i;
    assert rows.events.Keys - {i} == {};
  }

  /** Nothing stored beyond c, or one event and that not directly after c. */
  ghost predicate OneBeyondGap(events: map<nat, SignedEvent>, c: nat) {
    forall i, j :: i in events && j in events && i > c && j > c ==> i == j && i >= c + 2
  }

  lemma NothingBeyond(rows: Rows, s: Subject, c: nat)
    requires Filed(rows) && s.sn == c && forall i :: i in rows.events <==> 0 <= i <= c
    ensures Recover(rows, s) == Recovered(LedgerState(Some(c), None))
  {
    assert c in rows.events && Largest(rows.events.Keys) == c;
    var below := rows.events.Keys - {c};
    if c == 0 {
      assert below == {};
    } else {
      assert c - 1 in below && Largest(below) == c - 1;
    }
  }

  lemma SomethingBeyond(rows: Rows, s: Subject, c: nat, top: nat)
    requires Filed(rows) && s.sn == c && forall i :: 0 <= i <= c ==> i in rows.events
    requires top in rows.events && top > c && forall i :: i in rows.events ==> i <= top
    ensures Recover(rows, s) == (if OneBeyondGap(rows.events, c) then Recovered(LedgerState(Some(c), Some(top)))
                                 else Lost(WrongSnInSubject))
  {
    assert Largest(rows.events.Keys) == top;
    var below := rows.events.Keys - {top};
    assert c in below;
    var pre := Largest(below);
    if pre == c {
      forall i | i in rows.events && i != top ensures i <= pre { assert i in below; }
    } else {
      assert pre in rows.events && pre > c && pre != top;
    }
  }

  /** Start-up recovers a subject at c with its events 0 to c exactly when beyond c there is nothing, or a single event
      with a gap before it; whatever else is stored there makes it fail. */
  lemma RecoversExactlyWhen(rows: Rows, s: Subject, c: nat)
    requires Filed(rows) && s.sn == c && forall i :: 0 <= i <= c ==> i in rows.events
    ensures Recover(rows, s).Recovered? <==> OneBeyondGap(rows.events, c)
    ensures Recover(rows, s).Lost? ==> Recover(rows, s).error == WrongSnInSubject
    ensures Recover(rows, s).Recovered? ==>
      Recover(rows, s) == Recovered(LedgerState(Some(c), Recover(rows, s).state.head))
      && forall i :: (i in rows.events && i > c) <==> Recover(rows, s).state.head == Some(i)
  {
    assert c in rows.events;
    var top := Largest(rows.events.Keys);
    if top == c {
      NothingBeyond(rows, s, c);
    } else {
      SomethingBeyond(rows, s, c, top);
      assert top in rows.events;
    }
  }

  /** A catch-up event refused after it was stored makes every start-up fail from then on: the event itself stands
      directly above the subject, or, already applied, directly below the head. */
  lemma RefusedAfterStoreFailsStart(env: Env, n: Node, e: SignedEvent)
    requires Inv(env, SubjectIdOf(env.crypto, e.content), n.At(SubjectIdOf(env.crypto, e.content)))
    requires ReachesStore(env, n, e) && !FitsIn(env, n, e)
    ensures var rows := IntermediateEvent(env, n, e).0.db.Get(SubjectIdOf(env.crypto, e.content));
      rows.subject.Some? && Recover(rows, rows.subject.value) == Lost(WrongSnInSubject)
  {
    var id := SubjectIdOf(env.crypto, e.content);
    IntermediateExactly(env, n, e);
    SpoiltFailsStart(env, n, IntermediateEvent(env, n, e).0, id, e);
  }

  lemma SpoiltFailsStart(env: Env, n: Node, n': Node, id: Digest, e: SignedEvent)
    requires Inv(env, id, n.At(id)) && n.StateOf(id).Some? && n.states[id].head.Some?
    requires e.content.sn == (match n.states[id].currentSn case None => 0 case Some(c) => c + 1)
    requires Spoilt(env, n, n', id, e)
    ensures var rows := n'.db.Get(id); Recover(rows, rows.subject.value) == Lost(WrongSnInSubject)
  {
    var rows, h := n'.db.Get(id), n.states[id].head.value;
    var s := rows.subject.value;
    assert h in rows.events && e.content.sn in rows.events;
    RecoversExactlyWhen(rows, s, s.sn);
  }

  /** A subject closed by catch-up is one such case: its sn stays one below the end of life. */
  lemma ClosedByCatchUpFailsStart(rows: Rows, s: Subject, c: nat)
    requires Filed(rows) && s.sn == c && forall i :: i in rows.events <==> 0 <= i <= c + 1
    ensures Recover(rows, s) == Lost(WrongSnInSubject)
  {
    assert c + 1 in rows.events;
    RecoversExactlyWhen(rows, s, c);
  }

  // ---- the whole node ----

  function StoredSubjects(db: Db): set<Digest> {
    set id | id in db.rows && db.rows[id].subject.Some?
  }

  predicate Recovers(db: Db, kind: Digest -> Option<bool>, id: Digest) {
    && kind(id).Some?
    && db.Get(id).subject.Some? && Recover(db.Get(id), db.Get(id).subject.value).Recovered?
  }

  predicate AllRecovered(db: Db, kind: Digest -> Option<bool>) {
    forall id :: id in StoredSubjects(db) ==> Recovers(db, kind, id)
  }

  function StateIn(db: Db, kind: Digest -> Option<bool>, id: Digest): LedgerState
    requires Recovers(db, kind, id)
  {
    Recover(db.Get(id), db.Get(id).subject.value).state
  }

  function StatesIn(db: Db, kind: Digest -> Option<bool>, ids: set<Digest>): map<Digest, LedgerState>
    requires forall id :: id in ids ==> Recovers(db, kind, id)
  {
    map id | id in ids :: StateIn(db, kind, id)
  }

  function KindsIn(db: Db, kind: Digest -> Option<bool>, ids: set<Digest>): map<Digest, bool>
    requires forall id :: id in ids ==> Recovers(db, kind, id)
  {
    map id | id in ids :: assert Recovers(db, kind, id); kind(id).value
  }

  lemma OneMore(db: Db, kind: Digest -> Option<bool>, ids: set<Digest>, id: Digest)
    requires Recovers(db, kind, id) && forall j :: j in ids ==> Recovers(db, kind, j)
    ensures StatesIn(db, kind, ids + {id}) == StatesIn(db, kind, ids)[id := StateIn(db, kind, id)]
    ensures KindsIn(db, kind, ids + {id}) == KindsIn(db, kind, ids)[id := kind(id).value]
  {}

  /** The node after a restart that succeeds; kind is what governance says of a subject. */
  function Restarted(db: Db, kind: Digest -> Option<bool>): Node
    requires AllRecovered(db, kind)
  {
    var ids := StoredSubjects(db);
    Node(db, StatesIn(db, kind, ids), KindsIn(db, kind, ids))
  }

  /** `init`. Which subject's fault is reported depends on the order in which the database lists them. */
  method Init(ledger: H.Ledger, kind: Digest -> Option<bool>) returns (r: Outcome)
    requires ledger.ledgerState == map[] && ledger.subjectIsGov == map[]
    modifies ledger
    ensures ledger.database.data == old(ledger.database.data)
    ensures r.Accepted? <==> AllRecovered(ledger.database.data, kind)
    ensures r.Accepted? ==> ledger.State() == Restarted(ledger.database.data, kind)
  {
    var db := ledger.database.data;
    var ids := StoredSubjects(db);
    var rest := ids;
    while rest != {}
      invariant rest <= ids
      invariant ledger.database.data == db
      invariant forall id :: id in ids - rest ==> Recovers(db, kind, id)
      invariant ledger.ledgerState == StatesIn(db, kind, ids - rest)
      invariant ledger.subjectIsGov == KindsIn(db, kind, ids - rest)
      decreases rest
    {
      var id :| id in rest;
      var isGov := kind(id);
      if isGov.None? { return Refused(GovernanceError); }
      ledger.subjectIsGov := ledger.subjectIsGov[id := isGov.value];
      var x := Recover(db.Get(id), db.Get(id).subject.value);
      if x.Lost? { return Refused(x.error); }
      ledger.ledgerState := ledger.ledgerState[id := x.state];
      assert ids - (rest - {id}) == (ids - rest) + {id};
      OneMore(db, kind, ids - rest, id);
      rest := rest - {id};
    }
    assert ids - rest == ids;
    r := Accepted;
  }

  /** A restart of a node that keeps the invariant never fails, and each subject it stores has again the state
      it had; a subject of which only an LCE was held is forgotten. */
  lemma RestartRecovers(env: Env, n: Node, kind: Digest -> Option<bool>, id: Digest)
    requires NodeInv(env, n) && forall j :: kind(j).Some?
    ensures AllRecovered(n.db, kind)
    ensures Restarted(n.db, kind).StateOf(id) ==
      if n.StateOf(id).Some? && n.states[id].currentSn.Some? then n.StateOf(id) else None
  {
    forall j | j in StoredSubjects(n.db) ensures Recovers(n.db, kind, j) {
      assert Inv(env, j, n.At(j));
      RecoversExactly(env, j, n.At(j));
    }
    assert Inv(env, id, n.At(id));
    if id in StoredSubjects(n.db) { RecoversExactly(env, id, n.At(id)); }
  }

  /** So a restart is one more step that keeps the invariant exactly when no subject was waiting for its
      genesis: its event stays stored with nothing in memory that knows of it. */
  lemma RestartKeepsIff(env: Env, n: Node, kind: Digest -> Option<bool>)
    requires NodeInv(env, n) && AllRecovered(n.db, kind) && forall j :: kind(j).Some?
    ensures NodeInv(env, Restarted(n.db, kind)) <==> forall id :: id in n.states ==> n.states[id].currentSn.Some?
  {
    var n' := Restarted(n.db, kind);
    forall id ensures Inv(env, id, n'.At(id)) && Recorded(env, n', id) <==>
                      (id in n.states ==> n.states[id].currentSn.Some?) {
      RestartRecovers(env, n, kind, id);
      assert Inv(env, id, n.At(id)) && Recorded(env, n, id);
    }
    if NodeInv(env, n') {
      forall id | id in n.states ensures n.states[id].currentSn.Some? {
        assert Inv(env, id, n'.At(id)) && Recorded(env, n', id);
      }
    }
  }
}
