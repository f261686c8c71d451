/** Whole runs of a ledger: the invariant holds throughout, and nothing replayed is ever rewritten. */
module LedgerRuns {
  import opened Protocol
  import opened Subjects
  import opened Store
  import opened LedgerSteps
  import opened LedgerInvariant
  import opened LedgerPreserved
  import opened LedgerCatchUp
  import opened LedgerRefusals

  datatype Message =
    | Genesis(event: SignedEvent, sigs: set<Signature>, proof: Proof, live: Option<nat>)
    | Own(event: SignedEvent, sigs: set<Signature>, proof: Proof, gov: bool)
    | External(event: SignedEvent, sigs: set<Signature>, proof: Proof, admitted: bool)
    | Intermediate(event: SignedEvent)

  function Step(env: Env, n: Node, m: Message): (Node, Outcome) {
    match m
    case Genesis(e, sigs, proof, live) => OwnGenesis(env, n, e, sigs, proof, live)
    case Own(e, sigs, proof, gov) => OwnEvent(env, n, e, sigs, proof, gov)
    case External(e, sigs, proof, admitted) => ExternalEvent(env, n, e, sigs, proof, admitted)
    case Intermediate(e) => IntermediateEvent(env, n, e)
  }

  /** An event the ledger has no use for: the genesis of a subject it has, an event of one of which it has only a head, or
      one not beyond the current sn. */
  predicate NothingNew(r: Replica, e: Event) {
    if e.request.content.Create? then r.rows.subject.Some?
    else r.state.Some? && (r.state.value.currentSn.None? || e.sn <= r.state.value.currentSn.value)
  }

  /** What this node may be given in this state without spoiling a replica (`StepKeepsIff`) or starting one again. */
  ghost predicate Orderly(env: Env, n: Node, m: Message) {
    var e := m.event.content;
    var id := SubjectIdOf(env.crypto, e);
    match m
    case Genesis(_, _, _, live) =>
      e.request.content.Create? ==> OwnGenesisFits(env, n.At(id), e, live) && (id in n.states ==> n.states[id].currentSn.None?)
    case Own(_, sigs, proof, _) => !e.request.content.Create? ==> OrderlyOwn(env, id, n.At(id), e, sigs, proof)
    case External(_, _, proof, _) =>
      || env.crypto.hashRequest(e.request) in n.db.requests
      || NothingNew(n.At(id), e)
      || ExternalFits(env, n.At(id), e, proof)
    case Intermediate(_) => ReachesStore(env, n, m.event) ==> FitsIn(env, n, m.event)
  }

  /** The exact condition on a message that is accepted, and on a catch-up event whether accepted or not. */
  ghost predicate Fits(env: Env, n: Node, m: Message) {
    var e := m.event.content;
    var id := SubjectIdOf(env.crypto, e);
    match m
    case Genesis(_, _, _, live) => e.request.content.Create? && OwnGenesisFits(env, n.At(id), e, live)
    case Own(_, sigs, proof, _) => OwnFits(env, id, n.At(id), e, sigs, proof)
    case External(_, _, proof, _) => ExternalFits(env, n.At(id), e, proof)
    case Intermediate(_) => ReachesStore(env, n, m.event) ==> FitsIn(env, n, m.event)
  }

  // ---- what a step can touch ----

  /** From before to after only subject id changed, and its events only by taking in e (or dropping some). */
  ghost predicate Touches(env: Env, before: Node, after: Node, id: Digest, e: SignedEvent) {
    && before.db.requests <= after.db.requests
    && (forall j :: j != id ==> after.At(j) == before.At(j))
    && before.isGov.Keys <= after.isGov.Keys
    && (id in after.states ==> id in before.states || id in after.isGov)
    && (forall i :: i in after.db.Get(id).events ==>
          || (i in before.db.Get(id).events && after.db.Get(id).events[i] == before.db.Get(id).events[i])
          || (after.db.Get(id).events[i] == e && env.crypto.hashRequest(e.content.request) in after.db.requests))
  }

  lemma CheckGenesisTouches(env: Env, n: Node, e: SignedEvent, id: Digest)
    requires CheckGenesis(env, n.db, e, id).1.Accepted?
    ensures var db := CheckGenesis(env, n.db, e, id).0;
      && db.requests == n.db.requests + {env.crypto.hashRequest(e.content.request)}
      && (forall j :: j != id ==> db.Get(j) == n.db.Get(j))
      && db.Get(id).events == n.db.Get(id).events[e.content.sn := e]
      && db.Get(id).subject.Some?
  {}

  lemma OwnGenesisTouches(env: Env, n: Node, e: SignedEvent, sigs: set<Signature>, proof: Proof, live: Option<nat>)
    requires OwnGenesis(env, n, e, sigs, proof, live).1.Accepted?
    ensures Touches(env, n, OwnGenesis(env, n, e, sigs, proof, live).0, SubjectIdOf(env.crypto, e.content), e)
  {
    var id := SubjectIdOf(env.crypto, e.content);
    var n' := OwnGenesis(env, n, e, sigs, proof, live).0;
    assert n'.db.Get(id).events == n.db.Get(id).events[e.content.sn := e];
  }

  lemma ExternalGenesisTouches(env: Env, n: Node, e: SignedEvent, admitted: bool)
    requires e.content.request.content.Create? && ExternalGenesis(env, n, e, admitted).1.Accepted?
    ensures Touches(env, n, ExternalGenesis(env, n, e, admitted).0, SubjectIdOf(env.crypto, e.content), e)
  {
    CheckGenesisTouches(env, n, e, SubjectIdOf(env.crypto, e.content));
  }

  lemma NextTouches(env: Env, n: Node, id: Digest, s: Subject, e: SignedEvent, sigs: set<Signature>, proof: Proof)
    requires !e.content.request.content.Create? && id in n.isGov && id in n.states
    ensures Touches(env, n, NextEvent(env, n, id, n.states[id], s, e, sigs, proof).0, id, e)
  {}

  lemma LaterTouches(env: Env, n: Node, id: Digest, s: Subject, e: SignedEvent, sigs: set<Signature>, proof: Proof)
    requires !e.content.request.content.Create? && id in n.isGov && id in n.states
    ensures Touches(env, n, LaterEvent(env, n, id, n.states[id], s, e, sigs, proof).0, id, e)
  {}

  lemma UnknownTouches(env: Env, n: Node, id: Digest, e: SignedEvent, sigs: set<Signature>, proof: Proof, admitted: bool)
    requires !e.content.request.content.Create?
    ensures Touches(env, n, ExternalUnknown(env, n, id, e, sigs, proof, admitted).0, id, e)
  {}

  /** A refused external event leaves the database and the ledger states as they were. */
  lemma RefusedExternalIsClean(env: Env, n: Node, e: SignedEvent, sigs: set<Signature>, proof: Proof, admitted: bool)
    requires !ExternalEvent(env, n, e, sigs, proof, admitted).1.Accepted?
    ensures var n' := ExternalEvent(env, n, e, sigs, proof, admitted).0;
      && n'.db == n.db && n'.states == n.states
      && (n' == n || n'.isGov == n.isGov[SubjectIdOf(env.crypto, e.content) := proof.schemaId == "governance"])
  {}

  lemma ExternalTouches(env: Env, n: Node, e: SignedEvent, sigs: set<Signature>, proof: Proof, admitted: bool)
    requires ExternalEvent(env, n, e, sigs, proof, admitted).1.Accepted?
    ensures Touches(env, n, ExternalEvent(env, n, e, sigs, proof, admitted).0, SubjectIdOf(env.crypto, e.content), e)
  {
    var id := SubjectIdOf(env.crypto, e.content);
    if e.content.request.content.Create? {
      ExternalGenesisTouches(env, n, e, admitted);
    } else if id !in n.states {
      UnknownTouches(env, n, id, e, sigs, proof, admitted);
    } else {
      var s := n.db.Get(id).subject.value;
      if e.content.sn == s.sn + 1 && n.states[id].head.None? {
        NextTouches(env, n, id, s, e, sigs, proof);
      } else {
        LaterTouches(env, n, id, s, e, sigs, proof);
      }
    }
  }

  lemma StoreOwnTouches(env: Env, n: Node, id: Digest, s: Subject, e: SignedEvent, sigs: set<Signature>, proof: Proof, isGov: bool)
    ensures Touches(env, n, StoreOwn(env, n, id, s, e, sigs, proof, isGov).0, id, e)
  {}

  lemma OwnTouches(env: Env, n: Node, e: SignedEvent, sigs: set<Signature>, proof: Proof, gov: bool)
    ensures Touches(env, n, OwnEvent(env, n, e, sigs, proof, gov).0, SubjectIdOf(env.crypto, e.content), e)
  {
    if !e.content.request.content.Create? && n.db.Get(SubjectIdOf(env.crypto, e.content)).subject.Some? {
      var id := SubjectIdOf(env.crypto, e.content);
      var effect := OwnEffect(env, n.db, n.db.Get(id).subject.value, e.content);
      if effect.Effect? {
        StoreOwnTouches(env, n, id, effect.subject, e, sigs, proof, if id in n.isGov then n.isGov[id] else gov);
      }
    }
  }

  lemma CompleteTouches(env: Env, n: Node, id: Digest, s: Subject, h: nat, e: SignedEvent)
    requires h >= 1 && id in n.states && HeadOk(env, id, n.db.Get(id), h) && Filed(n.db.Get(id))
    requires Complete(env, n, id, s, h).1.Accepted?
    ensures Touches(env, n, Complete(env, n, id, s, h).0, id, e)
  {
    SourcingApplies(env, n.db, id, n.db.Get(id).events[h].content);
  }

  lemma TouchesTransitive(env: Env, a: Node, b: Node, c: Node, id: Digest, e: SignedEvent)
    requires Touches(env, a, b, id, e) && Touches(env, b, c, id, e)
    ensures Touches(env, a, c, id, e)
  {}

  lemma StoredTouches(env: Env, n: Node, id: Digest, e: SignedEvent)
    requires id in n.states
    ensures Touches(env, n,
      n.(db := n.db.Put(id, n.db.Get(id).SetEvent(e)).Finish(env.crypto.hashRequest(e.content.request))), id, e)
  {}

  lemma SourcedTouches(env: Env, n: Node, id: Digest, e: SignedEvent)
    requires id in n.states
    requires Sourceable(e.content, id)
    requires EventSourcing(env, n.db, e.content).Sourced?
    ensures Touches(env, n, n.(db := EventSourcing(env, n.db, e.content).db), id, e)
  {
    SourcingApplies(env, n.db, id, e.content);
  }

  lemma FinishTouches(env: Env, before: Node, mid: Node, id: Digest, s: Subject, h: nat, e: SignedEvent)
    requires Touches(env, before, mid, id, e)
    requires h >= 1 && id in mid.states && HeadOk(env, id, mid.db.Get(id), h) && Filed(mid.db.Get(id))
    requires Complete(env, mid, id, s, h).1.Accepted?
    ensures Touches(env, before, Complete(env, mid, id, s, h).0, id, e)
  {
    CompleteTouches(env, mid, id, s, h, e);
    TouchesTransitive(env, before, mid, Complete(env, mid, id, s, h).0, id, e);
  }

  lemma SourceNextTouches(env: Env, n: Node, before: Node, id: Digest, c: nat, h: nat, e: SignedEvent)
    requires before.StateOf(id) == Some(LedgerState(Some(c), Some(h))) && Inv(env, id, before.At(id))
    requires n == before.(db := before.db.Put(id, before.db.Get(id).SetEvent(e)).Finish(env.crypto.hashRequest(e.content.request)))
    requires Sourceable(e.content, id) && e.content.sn == c + 1
    requires SourceNext(env, n, id, c, h, e.content).1.Accepted?
    ensures Touches(env, before, SourceNext(env, n, id, c, h, e.content).0, id, e)
  {
    StoredTouches(env, before, id, e);
    SourcedTouches(env, n, id, e);
    var x := EventSourcing(env, n.db, e.content);
    var mid := n.(db := x.db);
    TouchesTransitive(env, before, n, mid, id, e);
    if h == c + 2 {
      assert n.db.Get(id) == before.db.Get(id).SetEvent(e);
      StoredAndSourced(env, before.db, id, c, h, e, n.db);
      FinishTouches(env, before, mid, id, x.subject, h, e);
    } else {
      var after := mid.SetState(id, LedgerState(Some(c + 1), Some(h)));
      assert Touches(env, mid, after, id, e);
      TouchesTransitive(env, before, mid, after, id, e);
    }
  }

  lemma IntermediateGenesisTouches(env: Env, n: Node, h: nat, e: SignedEvent)
    requires e.content.request.content.Create?
    requires var id := SubjectIdOf(env.crypto, e.content);
      n.StateOf(id) == Some(LedgerState(None, Some(h))) && Inv(env, id, n.At(id))
    requires IntermediateGenesis(env, n, SubjectIdOf(env.crypto, e.content), h, e).1.Accepted?
    ensures var id := SubjectIdOf(env.crypto, e.content);
      Touches(env, n, IntermediateGenesis(env, n, id, h, e).0, id, e)
  {
    var id := SubjectIdOf(env.crypto, e.content);
    CheckGenesisTouches(env, n, e, id);
    var db := CheckGenesis(env, n.db, e, id).0;
    if h == 1 { CompleteTouches(env, n.(db := db), id, db.Get(id).subject.value, 1, e); }
  }

  lemma IntermediateTouches(env: Env, n: Node, e: SignedEvent)
    requires var id := SubjectIdOf(env.crypto, e.content); Inv(env, id, n.At(id))
    requires IntermediateEvent(env, n, e).1.Accepted?
    ensures Touches(env, n, IntermediateEvent(env, n, e).0, SubjectIdOf(env.crypto, e.content), e)
  {
    var id := SubjectIdOf(env.crypto, e.content);
    IntermediateDispatch(env, n, e);
    var h := n.states[id].head.value;
    match n.states[id].currentSn
    case Some(c) =>
      var stored := n.db.Put(id, n.db.Get(id).SetEvent(e)).Finish(env.crypto.hashRequest(e.content.request));
      SourceNextTouches(env, n.(db := stored), n, id, c, h, e);
    case None =>
      IntermediateGenesisTouches(env, n, h, e);
  }

  // ---- one step ----

  lemma StepTouches(env: Env, n: Node, m: Message)
    requires NodeInv(env, n) && Orderly(env, n, m)
    ensures || Touches(env, n, Step(env, n, m).0, SubjectIdOf(env.crypto, m.event.content), m.event)
            || (Step(env, n, m).0.db == n.db && Step(env, n, m).0.states == n.states
                && n.isGov.Keys <= Step(env, n, m).0.isGov.Keys)
  {
    assert Inv(env, SubjectIdOf(env.crypto, m.event.content), n.At(SubjectIdOf(env.crypto, m.event.content)));
    match m
    case Genesis(e, sigs, proof, live) =>
      if Step(env, n, m).1.Accepted? { OwnGenesisTouches(env, n, e, sigs, proof, live); }
    case Own(e, sigs, proof, gov) => OwnTouches(env, n, e, sigs, proof, gov);
    case External(e, sigs, proof, admitted) =>
      if Step(env, n, m).1.Accepted? { ExternalTouches(env, n, e, sigs, proof, admitted); }
      else { RefusedExternalIsClean(env, n, e, sigs, proof, admitted); }
    case Intermediate(e) =>
      if ReachesStore(env, n, e) {
        IntermediateExactly(env, n, e);
        IntermediateTouches(env, n, e);
      } else {
        RefusedBeforeStore(env, n, e);
      }
  }

  /** The subject of the message keeps the invariant. */
  lemma StepKeepsOne(env: Env, n: Node, m: Message)
    requires NodeInv(env, n) && Orderly(env, n, m)
    ensures var id := SubjectIdOf(env.crypto, m.event.content); Inv(env, id, Step(env, n, m).0.At(id))
  {
    var id := SubjectIdOf(env.crypto, m.event.content);
    assert Inv(env, id, n.At(id)) && Recorded(env, n, id);
    match m
    case Genesis(e, sigs, proof, live) =>
      if Step(env, n, m).1.Accepted? { OwnGenesisKeepsIff(env, n, e, sigs, proof, live); }
    case Own(e, sigs, proof, gov) =>
      if !e.content.request.content.Create? { OwnEventKeeps(env, n, e, sigs, proof, gov); }
    case External(e, sigs, proof, admitted) =>
      if Step(env, n, m).1.Accepted? { ExternalKeepsIff(env, n, e, sigs, proof, admitted); }
      else { RefusedExternalIsClean(env, n, e, sigs, proof, admitted); }
    case Intermediate(e) => IntermediateExactly(env, n, e);
  }

  lemma OneChangedKeeps(env: Env, n: Node, n': Node, id0: Digest, e: SignedEvent)
    requires NodeInv(env, n) && Inv(env, id0, n'.At(id0))
    requires Touches(env, n, n', id0, e) || (n'.db == n.db && n'.states == n.states && n.isGov.Keys <= n'.isGov.Keys)
    ensures NodeInv(env, n')
  {
    forall id ensures Inv(env, id, n'.At(id)) && Recorded(env, n', id) {
      assert Inv(env, id, n.At(id)) && Recorded(env, n, id);
      if id != id0 { assert n'.At(id) == n.At(id); }
    }
  }

  lemma StepKeeps(env: Env, n: Node, m: Message)
    requires NodeInv(env, n) && Orderly(env, n, m)
    ensures NodeInv(env, Step(env, n, m).0)
  {
    StepTouches(env, n, m);
    StepKeepsOne(env, n, m);
    OneChangedKeeps(env, n, Step(env, n, m).0, SubjectIdOf(env.crypto, m.event.content), m.event);
  }

  /** What has been replayed stays: currentSn never falls, and no event up to it is changed or dropped. */
  ghost predicate Extends(before: Replica, after: Replica) {
    before.state.Some? && before.state.value.currentSn.Some? ==>
      && after.state.Some? && after.state.value.currentSn.Some?
      && before.state.value.currentSn.value <= after.state.value.currentSn.value
      && forall i :: 0 <= i <= before.state.value.currentSn.value ==>
           i in before.rows.events && i in after.rows.events && after.rows.events[i] == before.rows.events[i]
  }

  /** From n to n' the replica of id took in an event beyond c, and its currentSn did not fall. */
  ghost predicate Later(n': Node, id: Digest, e: SignedEvent, c: nat) {
    && e.content.sn > c && id in n'.states
    && n'.states[id].currentSn.Some? && n'.states[id].currentSn.value >= c
  }

  lemma OwnIsLater(env: Env, n: Node, e: SignedEvent, sigs: set<Signature>, proof: Proof, gov: bool, c: nat)
    requires !e.content.request.content.Create?
    requires var id := e.content.request.content.subjectId;
      n.StateOf(id) == Some(LedgerState(Some(c), None)) && OrderlyOwn(env, id, n.At(id), e.content, sigs, proof)
    ensures Later(OwnEvent(env, n, e, sigs, proof, gov).0, e.content.request.content.subjectId, e, c)
  {}

  lemma ExternalIsLater(env: Env, n: Node, e: SignedEvent, sigs: set<Signature>, proof: Proof, admitted: bool, c: nat)
    requires var id := SubjectIdOf(env.crypto, e.content);
      && id in n.states && n.states[id].currentSn == Some(c)
      && Inv(env, id, n.At(id))
    requires ExternalEvent(env, n, e, sigs, proof, admitted).1.Accepted?
    ensures Later(ExternalEvent(env, n, e, sigs, proof, admitted).0, SubjectIdOf(env.crypto, e.content), e, c)
  {}

  lemma IntermediateIsLater(env: Env, n: Node, n': Node, e: SignedEvent, c: nat)
    requires var id := SubjectIdOf(env.crypto, e.content);
      && id in n.states && n.states[id].currentSn == Some(c)
      && Inv(env, id, n.At(id))
    requires ReachesStore(env, n, e) ==> FitsIn(env, n, e)
    requires n' == IntermediateEvent(env, n, e).0 && n' != n
    ensures Later(n', SubjectIdOf(env.crypto, e.content), e, c)
  {
    IntermediateExactly(env, n, e);
    IntermediateKeeps(env, n, e);
  }

  lemma NoGenesisWritesNothing(env: Env, n: Node, e: SignedEvent, sigs: set<Signature>, proof: Proof, live: Option<nat>)
    requires !e.content.request.content.Create?
    ensures OwnGenesis(env, n, e, sigs, proof, live).0 == n
  {}

  /** A step that writes takes in an event beyond what has been replayed, and never lowers currentSn. */
  lemma WritesAreLater(env: Env, n: Node, n': Node, m: Message, c: nat)
    requires var id := SubjectIdOf(env.crypto, m.event.content);
      && Inv(env, id, n.At(id)) && id in n.states && n.states[id].currentSn == Some(c)
    requires Orderly(env, n, m)
    requires n' == Step(env, n, m).0 && (n'.db != n.db || n'.states != n.states)
    ensures Later(n', SubjectIdOf(env.crypto, m.event.content), m.event, c)
  {
    match m
    case Genesis(e, sigs, proof, live) =>
      if !e.content.request.content.Create? { NoGenesisWritesNothing(env, n, e, sigs, proof, live); }
    case Own(e, sigs, proof, gov) =>
      if !e.content.request.content.Create? { OwnIsLater(env, n, e, sigs, proof, gov, c); }
    case External(e, sigs, proof, admitted) =>
      if Step(env, n, m).1.Accepted? { ExternalIsLater(env, n, e, sigs, proof, admitted, c); }
      else { RefusedExternalIsClean(env, n, e, sigs, proof, admitted); }
    case Intermediate(e) => IntermediateIsLater(env, n, n', e, c);
  }

  /** A replica that takes in one later event extends what it had. */
  lemma TouchedExtends(env: Env, before: Node, after: Node, id: Digest, c: nat, e: SignedEvent)
    requires Touches(env, before, after, id, e) && e.content.sn > c
    requires id in before.states && before.states[id].currentSn == Some(c)
    requires Inv(env, id, before.At(id)) && Inv(env, id, after.At(id))
    requires id in after.states && after.states[id].currentSn.Some? && after.states[id].currentSn.value >= c
    ensures Extends(before.At(id), after.At(id))
  {
    forall i | 0 <= i <= c
      ensures i in before.db.Get(id).events && i in after.db.Get(id).events
      ensures after.db.Get(id).events[i] == before.db.Get(id).events[i]
    {
      assert after.db.Get(id).events[i].content.sn == i;
    }
  }

  lemma StepExtendsOne(env: Env, n: Node, m: Message)
    requires NodeInv(env, n) && Orderly(env, n, m)
    ensures var id := SubjectIdOf(env.crypto, m.event.content); Extends(n.At(id), Step(env, n, m).0.At(id))
  {
    var n', id := Step(env, n, m).0, SubjectIdOf(env.crypto, m.event.content);
    assert Inv(env, id, n.At(id));
    if n'.db == n.db && n'.states == n.states {
      assert n'.At(id) == n.At(id);
    } else if id in n.states && n.states[id].currentSn.Some? {
      StepTouches(env, n, m);
      StepKeepsOne(env, n, m);
      var c := n.states[id].currentSn.value;
      WritesAreLater(env, n, n', m, c);
      TouchedExtends(env, n, n', id, c, m.event);
    }
  }

  lemma StepExtends(env: Env, n: Node, m: Message, id: Digest)
    requires NodeInv(env, n) && Orderly(env, n, m)
    ensures Extends(n.At(id), Step(env, n, m).0.At(id))
  {
    StepTouches(env, n, m);
    StepExtendsOne(env, n, m);
    assert Inv(env, id, n.At(id));
    if id != SubjectIdOf(env.crypto, m.event.content) { assert Step(env, n, m).0.At(id) == n.At(id); }
  }

  // ---- runs ----

  function Run(env: Env, n: Node, ms: seq<Message>): Node
    decreases |ms|
  {
    if ms == [] then n else Run(env, Step(env, n, ms[0]).0, ms[1..])
  }

  ghost predicate OrderlyRun(env: Env, n: Node, ms: seq<Message>)
    decreases |ms|
  {
    ms == [] ||
    (Orderly(env, n, ms[0]) && OrderlyRun(env, Step(env, n, ms[0]).0, ms[1..]))
  }

  /** A node as it first starts: no rows, whatever keys and requests. */
  function NewNode(keys: map<Key, KeyPair>, requests: set<Digest>): Node {
    Node(Db(map[], requests, keys), map[], map[])
  }

  lemma {:induction false} RunKeeps(env: Env, n: Node, ms: seq<Message>)
    requires NodeInv(env, n) && OrderlyRun(env, n, ms)
    ensures NodeInv(env, Run(env, n, ms))
    decreases |ms|
  {
    if ms != [] {
      StepKeeps(env, n, ms[0]);
      RunKeeps(env, Step(env, n, ms[0]).0, ms[1..]);
    }
  }

  /** Every node an orderly network can lead to, from an empty database, satisfies the invariant for every
      subject: in particular each stored subject is the reference replay of its linked stored events. */
  lemma ReachableInv(env: Env, keys: map<Key, KeyPair>, requests: set<Digest>, ms: seq<Message>)
    requires OrderlyRun(env, NewNode(keys, requests), ms)
    ensures NodeInv(env, Run(env, NewNode(keys, requests), ms))
  {
    var n := NewNode(keys, requests);
    forall id ensures Inv(env, id, n.At(id)) && Recorded(env, n, id) {
      assert n.db.Get(id) == NO_ROWS;
    }
    RunKeeps(env, n, ms);
  }

  /** Over any orderly run, what a subject has replayed is never rewritten and never taken back. */
  lemma {:induction false} RunExtends(env: Env, n: Node, ms: seq<Message>, id: Digest)
    requires NodeInv(env, n) && OrderlyRun(env, n, ms)
    ensures Extends(n.At(id), Run(env, n, ms).At(id))
    decreases |ms|
  {
    if ms != [] {
      StepKeeps(env, n, ms[0]);
      StepExtends(env, n, ms[0], id);
      RunExtends(env, Step(env, n, ms[0]).0, ms[1..], id);
    } else {
      assert Inv(env, id, n.At(id));
    }
  }

  // ---- progress of catch-up ----

  /** The ledger takes e as an intermediate event of subject id. */
  ghost predicate Takes(env: Env, n: Node, id: Digest, e: SignedEvent) {
    SubjectIdOf(env.crypto, e.content) == id && IntermediateEvent(env, n, e).1.Accepted?
  }

  ghost predicate AllTaken(env: Env, n: Node, id: Digest, es: seq<SignedEvent>)
    decreases |es|
  {
    es == [] || (Takes(env, n, id, es[0]) && AllTaken(env, IntermediateEvent(env, n, es[0]).0, id, es[1..]))
  }

  function AfterIntermediates(env: Env, n: Node, es: seq<SignedEvent>): Node
    decreases |es|
  {
    if es == [] then n else AfterIntermediates(env, IntermediateEvent(env, n, es[0]).0, es[1..])
  }

  /** How many events are missing before the head. */
  function Gap(ls: LedgerState): int {
    match ls.head
    case None => 0
    case Some(h) => h - Wanted(ls)
  }

  /** Where k of the missing events bring a replica: short of its head, or onto it. */
  function Arrived(ls: LedgerState, k: nat): LedgerState
    requires k <= Gap(ls)
  {
    if k == 0 then ls
    else if k == Gap(ls) then LedgerState(ls.head, None)
    else LedgerState(Some(Wanted(ls) + k - 1), ls.head)
  }

  lemma TakesOne(env: Env, n: Node, id: Digest, e: SignedEvent)
    requires Inv(env, id, n.At(id)) && Takes(env, n, id, e)
    ensures id in n.states && 1 <= Gap(n.states[id])
    ensures var n' := IntermediateEvent(env, n, e).0;
      Inv(env, id, n'.At(id)) && n'.StateOf(id) == Some(Arrived(n.states[id], 1))
  {
    IntermediateKeeps(env, n, e);
    WantedIsMissing(env, id, n.At(id));
  }

  lemma ArrivedLater(ls: LedgerState, k: nat)
    requires 1 <= Gap(ls) && k <= Gap(Arrived(ls, 1))
    ensures k + 1 <= Gap(ls) && Arrived(Arrived(ls, 1), k) == Arrived(ls, k + 1)
  {}

  /** A node whose replica of id keeps the invariant and is in this state. */
  ghost predicate Stands(env: Env, n: Node, id: Digest, ls: LedgerState) {
    Inv(env, id, n.At(id)) && n.StateOf(id) == Some(ls)
  }

  lemma TakesNext(env: Env, n: Node, id: Digest, ls: LedgerState, e: SignedEvent, n': Node)
    requires Stands(env, n, id, ls) && Takes(env, n, id, e) && n' == IntermediateEvent(env, n, e).0
    ensures 1 <= Gap(ls) && Stands(env, n', id, Arrived(ls, 1))
  {
    TakesOne(env, n, id, e);
  }

  lemma GapNotNegative(env: Env, n: Node, id: Digest, ls: LedgerState)
    requires Stands(env, n, id, ls)
    ensures Gap(ls) >= 0
  {
    if ls.head.Some? { WantedIsMissing(env, id, n.At(id)); }
  }

  /** `Stands` as a value, for an induction that does not look inside it. */
  ghost function StandsAt(env: Env, id: Digest): (Node, LedgerState) -> bool {
    (n: Node, ls: LedgerState) => Stands(env, n, id, ls)
  }

  /** An event taken brings a replica that is on its way one further. */
  ghost predicate Advancing(env: Env, id: Digest, on: (Node, LedgerState) -> bool, n: Node, ls: LedgerState) {
    && Gap(ls) >= 0
    && forall e :: Takes(env, n, id, e) ==> 1 <= Gap(ls) && on(IntermediateEvent(env, n, e).0, Arrived(ls, 1))
  }

  lemma {:induction false} AdvancingArrives(env: Env, id: Digest, on: (Node, LedgerState) -> bool, n: Node, ls: LedgerState,
                                            es: seq<SignedEvent>)
    requires on(n, ls) && AllTaken(env, n, id, es)
    requires forall m: Node, l: LedgerState :: on(m, l) ==> Advancing(env, id, on, m, l)
    ensures |es| <= Gap(ls) && on(AfterIntermediates(env, n, es), Arrived(ls, |es|))
    decreases |es|
  {
    assert Advancing(env, id, on, n, ls);
    if es != [] {
      assert Takes(env, n, id, es[0]);
      AdvancingArrives(env, id, on, IntermediateEvent(env, n, es[0]).0, Arrived(ls, 1), es[1..]);
      ArrivedLater(ls, |es| - 1);
    }
  }

  /** Every accepted intermediate event closes the gap by one; when as many have been accepted as were
      missing the replica stands on the head, and before that it waits for the next one. */
  lemma CatchUpProgress(env: Env, n: Node, id: Digest, ls: LedgerState, es: seq<SignedEvent>)
    requires Stands(env, n, id, ls) && AllTaken(env, n, id, es)
    ensures |es| <= Gap(ls) && Stands(env, AfterIntermediates(env, n, es), id, Arrived(ls, |es|))
  {
    var on := StandsAt(env, id);
    forall m: Node, l: LedgerState | on(m, l) ensures Advancing(env, id, on, m, l) {
      GapNotNegative(env, m, id, l);
      forall e | Takes(env, m, id, e) ensures 1 <= Gap(l) && on(IntermediateEvent(env, m, e).0, Arrived(l, 1)) {
        TakesNext(env, m, id, l, e, IntermediateEvent(env, m, e).0);
      }
    }
    AdvancingArrives(env, id, on, n, ls, es);
  }

  /** A second LCE is never taken above the first, and it brings the end of catch-up nearer exactly when it is strictly
      below and still leaves a gap. */
  lemma LaterLceLowersGap(env: Env, n: Node, e: SignedEvent, sigs: set<Signature>, proof: Proof, admitted: bool)
    requires var id := SubjectIdOf(env.crypto, e.content);
      && Inv(env, id, n.At(id)) && Recorded(env, n, id)
      && n.StateOf(id).Some? && n.states[id].head.Some?
    requires !e.content.request.content.Create?
    requires ExternalEvent(env, n, e, sigs, proof, admitted).1.Accepted?
    ensures var id := SubjectIdOf(env.crypto, e.content);
      var ls, ls' := n.states[id], ExternalEvent(env, n, e, sigs, proof, admitted).0.states[id];
      && ls' == LedgerState(ls.currentSn, Some(e.content.sn)) && 0 <= Gap(ls') <= Gap(ls)
      && (0 < Gap(ls') < Gap(ls) <==> e.content.sn > Wanted(ls) && ls.head != Some(e.content.sn))
  {}

  /** Of a message that is accepted, and of any catch-up event: the node keeps its invariant exactly when the message
      fits. */
  lemma StepKeepsIff(env: Env, n: Node, m: Message)
    requires NodeInv(env, n)
    requires Step(env, n, m).1.Accepted? || m.Intermediate?
    ensures NodeInv(env, Step(env, n, m).0) <==> Fits(env, n, m)
  {
    var id, n' := SubjectIdOf(env.crypto, m.event.content), Step(env, n, m).0;
    assert Inv(env, id, n.At(id)) && Recorded(env, n, id);
    StepKeepsOneIff(env, n, m);
    if Fits(env, n, m) {
      FittingTouches(env, n, m);
      OneChangedKeeps(env, n, n', id, m.event);
    } else {
      assert !Inv(env, id, n'.At(id));
    }
  }

  lemma StepKeepsOneIff(env: Env, n: Node, m: Message)
    requires var id := SubjectIdOf(env.crypto, m.event.content); Inv(env, id, n.At(id)) && Recorded(env, n, id)
    requires Step(env, n, m).1.Accepted? || m.Intermediate?
    ensures var id := SubjectIdOf(env.crypto, m.event.content);
      Inv(env, id, Step(env, n, m).0.At(id)) <==> Fits(env, n, m)
  {
    match m
    case Genesis(e, sigs, proof, live) => OwnGenesisKeepsIff(env, n, e, sigs, proof, live);
    case Own(e, sigs, proof, gov) => OwnEventKeepsIff(env, n, e, sigs, proof, gov);
    case External(e, sigs, proof, admitted) => ExternalKeepsIff(env, n, e, sigs, proof, admitted);
    case Intermediate(e) => IntermediateExactly(env, n, e);
  }

  lemma FittingTouches(env: Env, n: Node, m: Message)
    requires var id := SubjectIdOf(env.crypto, m.event.content); Inv(env, id, n.At(id))
    requires Fits(env, n, m)
    requires Step(env, n, m).1.Accepted? || m.Intermediate?
    ensures var n' := Step(env, n, m).0;
      || Touches(env, n, n', SubjectIdOf(env.crypto, m.event.content), m.event)
      || (n'.db == n.db && n'.states == n.states && n.isGov.Keys <= n'.isGov.Keys)
  {
    match m
    case Genesis(e, sigs, proof, live) => OwnGenesisTouches(env, n, e, sigs, proof, live);
    case Own(e, sigs, proof, gov) => OwnTouches(env, n, e, sigs, proof, gov);
    case External(e, sigs, proof, admitted) => ExternalTouches(env, n, e, sigs, proof, admitted);
    case Intermediate(e) =>
      IntermediateExactly(env, n, e);
      if ReachesStore(env, n, e) { IntermediateTouches(env, n, e); }
  }
}
