/** Witness signatures: collected per subject for its last event, merged as they come. */
module Witnesses {
  import opened Protocol
  import opened Quorum
  import opened Subjects
  import opened Store
  import LedgerRuns

  /** The sn being witnessed and the signatures held for it. */
  datatype Record = Record(sn: nat, signatures: set<Signature>)

  /** Everything but the records: this node, what it stores, and how it signs. */
  datatype Context = Context(env: Env, db: Db, sign: SignedEvent -> Signature)

  datatype Outgoing =
    | Silent
    | Ask(targets: set<Key>, missing: set<Key>)
    | Cancel
    | Fail(error: WitnessError)

  datatype WitnessError = EventNotFound | UnknownSubject | GovernanceUnknown | SignaturesNotFound | InvalidBatch

  /** `get_targets`: the witnesses, and the owner always. */
  function Targets(x: Context, id: Digest, live: Option<nat>): Option<set<Key>> {
    match x.db.Get(id).subject
    case None => Option.None
    case Some(s) =>
      if live.None? then Option.None
      else
        match x.env.gov.signers(Metadata(s.namespace, s.subjectId, s.governanceId, live.value, s.schemaId), Witness)
        case None => Option.None
        case Some(witnesses) => Some(witnesses + {s.owner})
  }

  /** `get_remaining_signers`. */
  function Remaining(held: set<Signature>, targets: set<Key>): set<Key> {
    targets - Signers(held)
  }

  // ---- the handlers ----

  /** `start_distribution`: this node's own signature takes the place of whatever was held. */
  function Start(x: Context, rs: map<Digest, Record>, id: Digest, sn: nat, live: Option<nat>): (map<Digest, Record>, Outgoing) {
    if sn !in x.db.Get(id).events then (rs, Fail(EventNotFound))
    else
      var rs' := rs[id := Record(sn, {x.sign(x.db.Get(id).events[sn])})];
      match Targets(x, id, live)
      case None => (rs', Fail(if x.db.Get(id).subject.None? then UnknownSubject else GovernanceUnknown))
      case Some(targets) =>
        var others := targets - {x.env.ourId};
        (rs', if others == {} then Silent else Ask(others, others))
  }

  /** Every signature of the batch is a target's and is on the stored event. */
  predicate BatchOk(x: Context, id: Digest, sn: nat, targets: set<Key>, batch: set<Signature>)
    requires sn in x.db.Get(id).events
  {
    forall s :: s in batch ==> s.signer in targets && x.env.crypto.verifies(s, OfSignedEvent(x.db.Get(id).events[sn]))
  }

  /** `signatures_received`: a batch is merged as a whole or not at all. */
  function Receive(x: Context, rs: map<Digest, Record>, id: Digest, sn: nat, batch: set<Signature>, live: Option<nat>):
    (map<Digest, Record>, Outgoing)
  {
    if id !in rs then (rs, Silent)
    else if rs[id].sn != sn then (rs, Fail(SignaturesNotFound))
    else if sn !in x.db.Get(id).events then (rs, Fail(EventNotFound))
    else
      match Targets(x, id, live)
      case None => (rs, Fail(if x.db.Get(id).subject.None? then UnknownSubject else GovernanceUnknown))
      case Some(targets) =>
        if !BatchOk(x, id, sn, targets, batch) then (rs, Fail(InvalidBatch))
        else
          var held := rs[id].signatures + batch;
          var missing := Remaining(held, targets - {x.env.ourId});
          (rs[id := Record(sn, held)],
           if missing == {} then Cancel else Ask(targets - {x.env.ourId} + {x.db.Get(id).subject.value.owner}, missing))
  }

  /** The signatures `provide_signatures` answers with; None when it asks for newer events, or nothing, instead. */
  function Provide(rs: map<Digest, Record>, id: Digest, sn: nat, requested: set<Key>): Option<set<Signature>> {
    if id !in rs || rs[id].sn != sn then Option.None
    else Some(set s | s in rs[id].signatures && s.signer in requested)
  }

  class Distribution {
    var x: Context  // the database in it is the ledger's, which goes on writing
    var records: map<Digest, Record>

    constructor (x: Context)
      ensures this.x == x && records == map[]
    {
      this.x, records := x, map[];
    }

    method StartDistribution(id: Digest, sn: nat, live: Option<nat>) returns (o: Outgoing)
      modifies this`records
      ensures (records, o) == Start(x, old(records), id, sn, live)
    {
      if sn !in x.db.Get(id).events { return Fail(EventNotFound); }
      var signature := x.sign(x.db.Get(id).events[sn]);
      ghost var before := records;
      records := records - {id};
      records := records[id := Record(sn, {signature})];
      assert records == before[id := Record(sn, {signature})];
      if x.db.Get(id).subject.None? { return Fail(UnknownSubject); }
      var targets := Targets(x, id, live);
      if targets.None? { return Fail(GovernanceUnknown); }
      var others := targets.value - {x.env.ourId};
      o := if others == {} then Silent else Ask(others, others);
    }

    /** The loop over a batch stops at the first signature that will not do. */
    method CheckBatch(id: Digest, sn: nat, targets: set<Key>, batch: set<Signature>) returns (ok: bool)
      requires sn in x.db.Get(id).events
      ensures ok <==> BatchOk(x, id, sn, targets, batch)
    {
      var rest := batch;
      while rest != {}
        invariant rest <= batch
        invariant BatchOk(x, id, sn, targets, batch - rest)
        decreases rest
      {
        var s :| s in rest;
        if s.signer !in targets { return false; }
        if !x.env.crypto.verifies(s, OfSignedEvent(x.db.Get(id).events[sn])) { return false; }
        rest := rest - {s};
      }
      assert batch - rest == batch;
      ok := true;
    }

    method SignaturesReceived(id: Digest, sn: nat, batch: set<Signature>, live: Option<nat>) returns (o: Outgoing)
      modifies this`records
      ensures (records, o) == Receive(x, old(records), id, sn, batch, live)
    {
      if id !in records { return Silent; }
      if records[id].sn != sn { return Fail(SignaturesNotFound); }
      if sn !in x.db.Get(id).events { return Fail(EventNotFound); }
      if x.db.Get(id).subject.None? { return Fail(UnknownSubject); }
      var asked := Targets(x, id, live);
      if asked.None? { return Fail(GovernanceUnknown); }
      var ok := CheckBatch(id, sn, asked.value, batch);
      if !ok { return Fail(InvalidBatch); }
      var targets := asked.value - {x.env.ourId};
      var current := records[id].signatures + batch;
      var missing := Remaining(current, targets);
      records := records[id := Record(sn, current)];
      o := if missing == {} then Cancel else Ask(targets + {x.db.Get(id).subject.value.owner}, missing);
    }
  }

  // ---- what is held ----

  /** Who has been a target of which subject when one of its messages came. */
  type Seen = set<(Digest, Key)>

  /** Held signatures are on the stored event, and are this node's or came from someone who was a target then. */
  ghost predicate HeldOk(x: Context, seen: Seen, id: Digest, r: Record) {
    && r.sn in x.db.Get(id).events
    && forall s :: s in r.signatures ==>
         && x.env.crypto.verifies(s, OfSignedEvent(x.db.Get(id).events[r.sn]))
         && (s.signer == x.env.ourId || (id, s.signer) in seen)
  }

  ghost predicate RecordsOk(x: Context, seen: Seen, rs: map<Digest, Record>) {
    forall id :: id in rs ==> HeldOk(x, seen, id, rs[id])
  }

  /** This node signs with its own key, and its signatures verify. */
  ghost predicate OwnSignaturesOk(x: Context) {
    forall e :: x.sign(e).signer == x.env.ourId && x.env.crypto.verifies(x.sign(e), OfSignedEvent(e))
  }

  /** LedgerWrites: the ledger has written; db is the database from then on. */
  datatype Message =
    | StartDistribution(id: Digest, sn: nat, live: Option<nat>)
    | SignaturesReceived(id: Digest, sn: nat, batch: set<Signature>, live: Option<nat>)
    | LedgerWrites(db: Db)

  datatype Held = Held(x: Context, records: map<Digest, Record>)

  function Step(s: Held, m: Message): Held {
    match m
    case StartDistribution(id, sn, live) => s.(records := Start(s.x, s.records, id, sn, live).0)
    case SignaturesReceived(id, sn, batch, live) => s.(records := Receive(s.x, s.records, id, sn, batch, live).0)
    case LedgerWrites(db) => s.(x := s.x.(db := db))
  }

  /** The ledger may store events, change owners and subjects, and delete whatever is not being witnessed; the events
      being witnessed it leaves as they are. */
  ghost predicate LeavesWitnessed(s: Held, m: Message) {
    m.LedgerWrites? ==> forall id :: id in s.records && s.records[id].sn in s.x.db.Get(id).events ==>
      var sn := s.records[id].sn;
      sn in m.db.Get(id).events && m.db.Get(id).events[sn] == s.x.db.Get(id).events[sn]
  }

  /** What a ledger that never rewrites does: an event being witnessed is one its subject has been replayed to. */
  lemma LedgerLeavesWitnessed(s: Held, n: Node, n': Node)
    requires s.x.db == n.db && forall id :: LedgerRuns.Extends(n.At(id), n'.At(id))
    requires forall id :: id in s.records ==>
      id in n.states && n.states[id].currentSn.Some? && s.records[id].sn <= n.states[id].currentSn.value
    ensures LeavesWitnessed(s, LedgerWrites(n'.db))
  {
    forall id | id in s.records && s.records[id].sn in n.db.Get(id).events
      ensures var sn := s.records[id].sn;
        sn in n'.db.Get(id).events && n'.db.Get(id).events[sn] == n.db.Get(id).events[sn]
    {
      assert LedgerRuns.Extends(n.At(id), n'.At(id));
    }
  }

  /** The targets of a message's subject at the governance version asked, as the database then is. */
  function SeenAt(x: Context, m: Message): Seen {
    match m
    case SignaturesReceived(id, _, _, live) =>
      (match Targets(x, id, live)
       case None => {}
       case Some(targets) => set k | k in targets :: (id, k))
    case _ => {}
  }

  lemma HeldMonotone(x: Context, seen: Seen, more: Seen, id: Digest, r: Record)
    requires HeldOk(x, seen, id, r) && seen <= more
    ensures HeldOk(x, more, id, r)
  {}

  lemma MergeKeeps(x: Context, seen: Seen, rs: map<Digest, Record>, id: Digest, sn: nat, batch: set<Signature>, live: Option<nat>)
    requires RecordsOk(x, seen, rs) && Receive(x, rs, id, sn, batch, live).0 != rs
    ensures var rs' := Receive(x, rs, id, sn, batch, live).0;
      id in rs' && HeldOk(x, seen + SeenAt(x, SignaturesReceived(id, sn, batch, live)), id, rs'[id])
  {
    assert HeldOk(x, seen, id, rs[id]);
    var targets := Targets(x, id, live).value;
    forall s | s in batch ensures (id, s.signer) in SeenAt(x, SignaturesReceived(id, sn, batch, live)) {
      assert s.signer in targets;
    }
  }

  lemma StepKeeps(s: Held, seen: Seen, m: Message)
    requires OwnSignaturesOk(s.x) && RecordsOk(s.x, seen, s.records) && LeavesWitnessed(s, m)
    ensures OwnSignaturesOk(Step(s, m).x) && RecordsOk(Step(s, m).x, seen + SeenAt(s.x, m), Step(s, m).records)
  {
    var s', more := Step(s, m), seen + SeenAt(s.x, m);
    forall id | id in s'.records ensures HeldOk(s'.x, more, id, s'.records[id]) {
      if id in s.records { HeldMonotone(s.x, seen, more, id, s.records[id]); }
      if m.SignaturesReceived? && s'.records != s.records && id == m.id {
        MergeKeeps(s.x, seen, s.records, m.id, m.sn, m.batch, m.live);
      }
    }
  }

  function Run(s: Held, ms: seq<Message>): Held
    decreases |ms|
  {
    if ms == [] then s else Run(Step(s, ms[0]), ms[1..])
  }

  ghost predicate LeavesThroughout(s: Held, ms: seq<Message>)
    decreases |ms|
  {
    ms == [] || (LeavesWitnessed(s, ms[0]) && LeavesThroughout(Step(s, ms[0]), ms[1..]))
  }

  function SeenOver(s: Held, ms: seq<Message>): Seen
    decreases |ms|
  {
    if ms == [] then {} else SeenAt(s.x, ms[0]) + SeenOver(Step(s, ms[0]), ms[1..])
  }

  /** Over any run, the ledger writing all the while, every signature held verifies against the event at the recorded sn,
      and is this node's or came when its signer was a target. */
  lemma {:induction false} RunKeeps(s: Held, seen: Seen, ms: seq<Message>)
    requires OwnSignaturesOk(s.x) && RecordsOk(s.x, seen, s.records) && LeavesThroughout(s, ms)
    ensures RecordsOk(Run(s, ms).x, seen + SeenOver(s, ms), Run(s, ms).records)
    decreases |ms|
  {
    if ms == [] {
      assert seen + SeenOver(s, ms) == seen;
    } else {
      StepKeeps(s, seen, ms[0]);
      RunKeeps(Step(s, ms[0]), seen + SeenAt(s.x, ms[0]), ms[1..]);
      assert seen + SeenAt(s.x, ms[0]) + SeenOver(Step(s, ms[0]), ms[1..]) == seen + SeenOver(s, ms);
    }
  }

  /** So every signature given to others was asked for and verifies. */
  lemma ProvidedVerify(x: Context, ms: seq<Message>, id: Digest, sn: nat, requested: set<Key>, s: Signature)
    requires OwnSignaturesOk(x) && LeavesThroughout(Held(x, map[]), ms)
    requires var p := Provide(Run(Held(x, map[]), ms).records, id, sn, requested); p.Some? && s in p.value
    ensures var x' := Run(Held(x, map[]), ms).x;
      sn in x'.db.Get(id).events && x'.env.crypto.verifies(s, OfSignedEvent(x'.db.Get(id).events[sn]))
    ensures s.signer in requested
  {
    var start := Held(x, map[]);
    RunKeeps(start, {}, ms);
    assert HeldOk(Run(start, ms).x, {} + SeenOver(start, ms), id, Run(start, ms).records[id]);
  }

  // ---- merging ----

  ghost predicate Signed(r: Record, k: Key) {
    exists s :: s in r.signatures && s.signer == k
  }

  /** The merge is over exactly when every target but this node has signed. */
  lemma CancelExactly(x: Context, rs: map<Digest, Record>, id: Digest, sn: nat, batch: set<Signature>, live: Option<nat>)
    requires var o := Receive(x, rs, id, sn, batch, live).1; o.Cancel? || o.Ask?
    ensures var (rs', o) := Receive(x, rs, id, sn, batch, live);
      && id in rs' && Targets(x, id, live).Some?
      && (o.Cancel? <==> forall k :: k in Targets(x, id, live).value && k != x.env.ourId ==> Signed(rs'[id], k))
      && (o.Ask? ==> forall k :: k in o.missing <==> (k in Targets(x, id, live).value && k != x.env.ourId && !Signed(rs'[id], k)))
  {
    var (rs', o) := Receive(x, rs, id, sn, batch, live);
    var missing := Remaining(rs'[id].signatures, Targets(x, id, live).value - {x.env.ourId});
    assert o.Cancel? <==> missing == {};
    forall k ensures k in missing <==> (k in Targets(x, id, live).value && k != x.env.ourId && !Signed(rs'[id], k)) {
      assert Signed(rs'[id], k) <==> k in Signers(rs'[id].signatures);
    }
  }

  /** This key is to witness the subject: governance at this version names it, or it owns the subject. */
  predicate ToWitness(x: Context, id: Digest, version: nat, k: Key)
    requires x.db.Get(id).subject.Some?
  {
    var s := x.db.Get(id).subject.value;
    var witnesses := x.env.gov.signers(Metadata(s.namespace, s.subjectId, s.governanceId, version, s.schemaId), Witness);
    k == s.owner || (witnesses.Some? && k in witnesses.value)
  }

  /** Governance, at a version it tells, names the subject's witnesses. */
  predicate WitnessesKnown(x: Context, id: Digest, live: Option<nat>) {
    && x.db.Get(id).subject.Some? && live.Some?
    && var s := x.db.Get(id).subject.value;
    x.env.gov.signers(Metadata(s.namespace, s.subjectId, s.governanceId, live.value, s.schemaId), Witness).Some?
  }

  /** A stored event is signed and from then on is what is held, with that signature alone; where the witnesses are known all of
      them but this node are asked, and all of them are missing; where there is none to ask nobody is. Of an event that is not
      stored nothing is recorded. */
  lemma StartAsksAll(x: Context, rs: map<Digest, Record>, id: Digest, sn: nat, live: Option<nat>)
    ensures var (rs', o) := Start(x, rs, id, sn, live);
      if sn !in x.db.Get(id).events then rs' == rs && o == Fail(EventNotFound)
      else
        && rs' == rs[id := Record(sn, {x.sign(x.db.Get(id).events[sn])})]
        && (o.Fail? <==> !WitnessesKnown(x, id, live)) && !o.Cancel?
        && (o.Ask? ==> o.targets == o.missing && o.targets != {}
                       && forall k :: k in o.targets <==> k != x.env.ourId && ToWitness(x, id, live.value, k))
        && (o.Silent? ==> forall k :: ToWitness(x, id, live.value, k) ==> k == x.env.ourId)
  {
    if sn in x.db.Get(id).events && WitnessesKnown(x, id, live) {
      var targets := Targets(x, id, live).value;
      forall k ensures k in targets <==> ToWitness(x, id, live.value, k) {}
      if targets - {x.env.ourId} == {} {
        forall k | ToWitness(x, id, live.value, k) ensures k == x.env.ourId {
          assert k != x.env.ourId ==> k in targets - {x.env.ourId};
        }
      }
    }
  }

  /** A batch is merged exactly when it is for the event being witnessed, which is stored, the witnesses are known, and every
      signature in it is one of theirs, or the owner's, on that event. Those still missing are asked of all of them but this
      node, and of the owner again. */
  lemma MergedWhen(x: Context, rs: map<Digest, Record>, id: Digest, sn: nat, batch: set<Signature>, live: Option<nat>)
    ensures var (rs', o) := Receive(x, rs, id, sn, batch, live);
      && ((o.Cancel? || o.Ask?) <==>
            && id in rs && rs[id].sn == sn && sn in x.db.Get(id).events && WitnessesKnown(x, id, live)
            && forall s :: s in batch ==>
                 ToWitness(x, id, live.value, s.signer) && x.env.crypto.verifies(s, OfSignedEvent(x.db.Get(id).events[sn])))
      && (o.Cancel? || o.Ask? ==> rs' == rs[id := Record(sn, rs[id].signatures + batch)])
      && (!(o.Cancel? || o.Ask?) ==> rs' == rs)
      && (o.Ask? ==> forall k :: k in o.targets <==>
            (ToWitness(x, id, live.value, k) && k != x.env.ourId) || k == x.db.Get(id).subject.value.owner)
  {
    if WitnessesKnown(x, id, live) {
      var targets := Targets(x, id, live).value;
      forall k ensures k in targets <==> ToWitness(x, id, live.value, k) {}
    }
  }

  /** What is given out are exactly the held signatures that were asked for, and only of the event being witnessed. */
  lemma ProvidedExactly(rs: map<Digest, Record>, id: Digest, sn: nat, requested: set<Key>)
    ensures var p := Provide(rs, id, sn, requested);
      && (p.Some? <==> id in rs && rs[id].sn == sn)
      && (p.Some? ==> forall s :: s in p.value <==> s in rs[id].signatures && s.signer in requested)
  {}

  /** Receiving, one after the other, batches for one subject and sn while governance stays at one version. */
  function ReceiveAll(x: Context, rs: map<Digest, Record>, id: Digest, sn: nat, live: Option<nat>, batches: seq<set<Signature>>):
    map<Digest, Record>
    decreases |batches|
  {
    if batches == [] then rs
    else ReceiveAll(x, Receive(x, rs, id, sn, batches[0], live).0, id, sn, live, batches[1..])
  }

  /** The signature came in some batch that is acceptable by itself. */
  ghost predicate Came(x: Context, id: Digest, sn: nat, live: Option<nat>, batches: seq<set<Signature>>, s: Signature) {
    exists b :: b in batches && s in b && sn in x.db.Get(id).events && Targets(x, id, live).Some?
                && BatchOk(x, id, sn, Targets(x, id, live).value, b)
  }

  /** What is held at the end is what was held before and whatever came in acceptable batches, in any order: nothing is
      lost, and nothing depends on who was first. */
  lemma {:induction false} MergedExactly(x: Context, rs: map<Digest, Record>, id: Digest, sn: nat, live: Option<nat>,
                                         batches: seq<set<Signature>>)
    requires id in rs && rs[id].sn == sn
    ensures var rs' := ReceiveAll(x, rs, id, sn, live, batches);
      && rs'.Keys == rs.Keys && rs'[id].sn == sn
      && (forall j :: j in rs && j != id ==> rs'[j] == rs[j])
      && (forall s :: s in rs'[id].signatures <==> s in rs[id].signatures || Came(x, id, sn, live, batches, s))
    decreases |batches|
  {
    if batches != [] {
      var first := Receive(x, rs, id, sn, batches[0], live).0;
      MergedExactly(x, first, id, sn, live, batches[1..]);
      assert batches == [batches[0]] + batches[1..];
      forall s ensures s in first[id].signatures || Came(x, id, sn, live, batches[1..], s)
                  <==> s in rs[id].signatures || Came(x, id, sn, live, batches, s)
      {
        CameFirstOrLater(x, id, sn, live, batches, s);
      }
    }
  }

  lemma CameFirstOrLater(x: Context, id: Digest, sn: nat, live: Option<nat>, batches: seq<set<Signature>>, s: Signature)
    requires batches != []
    ensures Came(x, id, sn, live, batches, s) <==>
      Came(x, id, sn, live, [batches[0]], s) || Came(x, id, sn, live, batches[1..], s)
  {
    assert batches == [batches[0]] + batches[1..];
    if Came(x, id, sn, live, [batches[0]], s) { assert batches[0] in batches; }
  }

  /** So the order of the batches does not matter. */
  lemma OrderDoesNotMatter(x: Context, rs: map<Digest, Record>, id: Digest, sn: nat, live: Option<nat>,
                           a: seq<set<Signature>>, b: seq<set<Signature>>)
    requires id in rs && rs[id].sn == sn && multiset(a) == multiset(b)
    ensures ReceiveAll(x, rs, id, sn, live, a) == ReceiveAll(x, rs, id, sn, live, b)
  {
    MergedExactly(x, rs, id, sn, live, a);
    MergedExactly(x, rs, id, sn, live, b);
    assert forall batch :: batch in a <==> batch in multiset(a);
    assert forall batch :: batch in b <==> batch in multiset(b);
    var ra, rb := ReceiveAll(x, rs, id, sn, live, a), ReceiveAll(x, rs, id, sn, live, b);
    assert ra[id].signatures == rb[id].signatures;
    assert forall j :: j in rs ==> ra[j] == rb[j];
  }
}
