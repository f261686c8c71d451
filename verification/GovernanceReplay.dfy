/** The governance as it was at an earlier version, rebuilt from its events. */
module GovernanceReplay {
  import opened Protocol
  import opened Subjects
  import opened Store
  import opened LedgerInvariant

  datatype Historic = At(subject: Subject) | NotAt(error: HistoricError)

  datatype HistoricError = GovernanceNotFound | VersionTooHigh | EventNotFound | NotCreateEvent | PatchFailed

  /** The replay to version v: every event's patch is applied, whatever the event is. */
  function Fold(c: Crypto, events: map<nat, SignedEvent>, init: Value, v: nat): (r: Historic)
    ensures r.At? ==> forall i :: 0 <= i <= v ==> i in events
  {
    if v !in events then NotAt(EventNotFound)
    else if v == 0 then
      if events[0].content.request.content.Create? then At(FromGenesisEvent(c, events[0].content, init, None))
      else NotAt(NotCreateEvent)
    else
      var before := Fold(c, events, init, v - 1);
      if before.NotAt? then before
      else
        match before.subject.UpdateSubject(c, events[v].content.patch, v)
        case None => NotAt(PatchFailed)
        case Some(s) => At(s)
  }

  /** `governance_event_sourcing`: the live subject at its own version, a replay below it. */
  function HistoricAt(c: Crypto, rows: Rows, init: Value, v: nat): Historic {
    match rows.subject
    case None => NotAt(GovernanceNotFound)
    case Some(live) =>
      if live.sn == v then At(live)
      else if live.sn > v then Fold(c, rows.events, init, v)
      else NotAt(VersionTooHigh)
  }

  /** The loop of the replay. When several events fail, the error is that of the earliest. */
  method GovernanceEventSourcing(c: Crypto, rows: Rows, init: Value, v: nat) returns (r: Historic)
    ensures r.At? <==> HistoricAt(c, rows, init, v).At?
    ensures r.At? ==> r == HistoricAt(c, rows, init, v)
  {
    if rows.subject.None? { return NotAt(GovernanceNotFound); }
    var live := rows.subject.value;
    if live.sn == v { return At(live); }
    if live.sn < v { return NotAt(VersionTooHigh); }
    if 0 !in rows.events { FoldNeedsAll(c, rows.events, init, v, 0); return NotAt(EventNotFound); }
    if !rows.events[0].content.request.content.Create? {
      FoldNeedsAll(c, rows.events, init, v, 0);
      return NotAt(NotCreateEvent);
    }
    var subject := FromGenesisEvent(c, rows.events[0].content, init, None);
    for i := 0 to v
      invariant Fold(c, rows.events, init, i) == At(subject)
    {
      if i + 1 !in rows.events { FoldNeedsAll(c, rows.events, init, v, i + 1); return NotAt(EventNotFound); }
      var updated := subject.UpdateSubject(c, rows.events[i + 1].content.patch, i + 1);
      if updated.None? { FoldNeedsAll(c, rows.events, init, v, i + 1); return NotAt(PatchFailed); }
      subject := updated.value;
    }
    r := At(subject);
  }

  lemma {:induction false} FoldNeedsAll(c: Crypto, events: map<nat, SignedEvent>, init: Value, v: nat, i: nat)
    requires i <= v
    ensures Fold(c, events, init, v).At? ==> Fold(c, events, init, i).At?
  {
    if i < v { FoldNeedsAll(c, events, init, v - 1, i); }
  }

  // ---- what is answered at which version ----

  /** Events 0 to v are stored, the first creates, and these are the states their patches lead through. */
  ghost predicate Leads(c: Crypto, events: map<nat, SignedEvent>, init: Value, v: nat, states: seq<Value>) {
    && |states| == v + 1 && states[0] == init
    && (forall i :: 0 <= i <= v ==> i in events) && events[0].content.request.content.Create?
    && forall i :: 1 <= i <= v ==> c.patch(states[i - 1], events[i].content.patch) == Some(states[i])
  }

  lemma {:induction false} LeadsAlone(c: Crypto, events: map<nat, SignedEvent>, init: Value, v: nat, states: seq<Value>)
    requires Leads(c, events, init, v, states)
    ensures var r := Fold(c, events, init, v);
      r.At? && r.subject == FromGenesisEvent(c, events[0].content, init, None).(properties := states[v], sn := v)
  {
    if v > 0 { LeadsAlone(c, events, init, v - 1, states[..v]); }
  }

  lemma {:induction false} FoldLeads(c: Crypto, events: map<nat, SignedEvent>, init: Value, v: nat) returns (states: seq<Value>)
    requires Fold(c, events, init, v).At?
    ensures Leads(c, events, init, v, states)
  {
    if v == 0 {
      states := [init];
    } else {
      var before := FoldLeads(c, events, init, v - 1);
      LeadsAlone(c, events, init, v - 1, before);
      states := before + [Fold(c, events, init, v).subject.properties];
    }
  }

  /** A governance is answered for at its present version, as it is stored; at an earlier one exactly when its first events are
      stored and their patches apply one after the other, and then in the state they lead to; and at a later one never. */
  lemma AnsweredExactly(c: Crypto, rows: Rows, init: Value, v: nat)
    requires rows.subject.Some?
    ensures var live, r := rows.subject.value, HistoricAt(c, rows, init, v);
      && (v == live.sn ==> r == At(live))
      && (v > live.sn ==> r.NotAt?)
      && (v < live.sn ==> (r.At? <==> exists states :: Leads(c, rows.events, init, v, states)))
      && (v < live.sn ==> forall states :: Leads(c, rows.events, init, v, states) ==>
            r.At? && r.subject.properties == states[v] && r.subject.sn == v)
  {
    if v < rows.subject.value.sn {
      if Fold(c, rows.events, init, v).At? { var states := FoldLeads(c, rows.events, init, v); }
      forall states | Leads(c, rows.events, init, v, states)
        ensures Fold(c, rows.events, init, v).At? && Fold(c, rows.events, init, v).subject.properties == states[v]
             && Fold(c, rows.events, init, v).subject.sn == v
      {
        LeadsAlone(c, rows.events, init, v, states);
      }
    }
  }

  // ---- the historic governance and the live one ----

  /** The genesis event starts from this state, the one every governance starts from. */
  ghost predicate StartsFrom(env: Env, events: map<nat, SignedEvent>, init: Value) {
    && 0 in events && events[0].content.request.content.Create?
    && var start := events[0].content.request.content.start;
    && env.gov.initState(start.governanceId, start.schemaId, events[0].content.govVersion) == Some(init)
  }

  ghost predicate Agrees(env: Env, events: map<nat, SignedEvent>, init: Value, v: nat) {
    && Fold(env.crypto, events, init, v).At? && Replay(env, events, v).Some?
    && Fold(env.crypto, events, init, v).subject.properties == Replay(env, events, v).value.properties
    && Fold(env.crypto, events, init, v).subject.sn == Replay(env, events, v).value.sn
  }

  /** Event i is an approved fact, or applying its patch would have changed nothing. */
  ghost predicate Harmless(env: Env, events: map<nat, SignedEvent>, i: nat)
    requires i >= 1
  {
    i in events && Replay(env, events, i - 1).Some? &&
    (|| (events[i].content.approved && events[i].content.request.content.Fact?)
     || (var p := Replay(env, events, i - 1).value.properties;
         env.crypto.patch(p, events[i].content.patch) == Some(p)))
  }

  /** One event further: the replay still agrees exactly when the event is harmless. */
  lemma AgreesStep(env: Env, events: map<nat, SignedEvent>, init: Value, v: nat)
    requires v >= 1 && Replay(env, events, v).Some? && Agrees(env, events, init, v - 1)
    requires forall i :: i in events ==> events[i].content.sn == i
    ensures Agrees(env, events, init, v) <==> Harmless(env, events, v)
  {}

  /** The historic governance agrees with what the ledger's subject was, at every version up to n, exactly when every
      event that is not an approved fact carries a patch that would have changed nothing: transfers and ends of life
      do, and a rejected event with a real patch does not. */
  lemma {:induction false} HistoricAgreesIff(env: Env, events: map<nat, SignedEvent>, init: Value, n: nat)
    requires Replay(env, events, n).Some?
    requires forall i :: i in events ==> events[i].content.sn == i
    requires StartsFrom(env, events, init)
    ensures (forall v: nat :: v <= n ==> Agrees(env, events, init, v))
       <==> (forall i: nat :: 1 <= i <= n ==> Harmless(env, events, i))
  {
    if n == 0 {
      assert Agrees(env, events, init, 0);
    } else {
      ReplayDefinedBelow(env, events, n, n - 1);
      HistoricAgreesIff(env, events, init, n - 1);
      if forall v: nat :: v <= n - 1 ==> Agrees(env, events, init, v) {
        assert Agrees(env, events, init, n - 1);
        AgreesStep(env, events, init, n);
        if Harmless(env, events, n) {
          forall v: nat | v <= n ensures Agrees(env, events, init, v) {}
          forall i: nat | 1 <= i <= n ensures Harmless(env, events, i) {}
        }
      } else {
        var v: nat :| v <= n - 1 && !Agrees(env, events, init, v);
        assert v <= n;
        var i: nat :| 1 <= i <= n - 1 && !Harmless(env, events, i);
        assert i <= n;
      }
    }
  }

  /** On a chain of approved facts, transfers and ends of life the answer at any version up to the live one has the
      properties and the sn the ledger's subject had then, whether it comes from the shortcut or from the replay. */
  lemma ApprovedChainAgrees(env: Env, id: Digest, rows: Rows, init: Value, n: nat, v: nat)
    requires EmptyPatchIsIdentity(env.crypto)
    requires Filed(rows) && Chain(env, id, rows, n) && v <= n
    requires StartsFrom(env, rows.events, init)
    requires forall i :: 1 <= i <= n ==>
      rows.events[i].content.approved && (rows.events[i].content.request.content.Fact? || rows.events[i].content.patch == EMPTY_PATCH)
    ensures Replay(env, rows.events, v).Some?
    ensures var r := HistoricAt(env.crypto, rows, init, v);
      && r.At? && r.subject.sn == v
      && r.subject.properties == Replay(env, rows.events, v).value.properties
  {
    ReplayDefinedBelow(env, rows.events, n, v);
    ReplaySn(env, rows.events, v);
    forall i: nat | 1 <= i <= n ensures Harmless(env, rows.events, i) {
      ReplayDefinedBelow(env, rows.events, n, i - 1);
    }
    HistoricAgreesIff(env, rows.events, init, n);
    assert Agrees(env, rows.events, init, v);
  }

  lemma ReplaySn(env: Env, events: map<nat, SignedEvent>, n: nat)
    requires Replay(env, events, n).Some? && forall i :: i in events ==> events[i].content.sn == i
    ensures Replay(env, events, n).value.sn == n
  {}

  /** The replay never moves the owner: a transferred governance has its first owner again in every earlier version,
      and `get_signers` falls back on that one. */
  lemma {:induction false} HistoricOwnerIsTheCreator(c: Crypto, events: map<nat, SignedEvent>, init: Value, v: nat)
    requires Fold(c, events, init, v).At?
    ensures Fold(c, events, init, v).subject.owner == events[0].content.request.signature.signer
    ensures Fold(c, events, init, v).subject.active
  {
    if v > 0 { HistoricOwnerIsTheCreator(c, events, init, v - 1); }
  }
}
