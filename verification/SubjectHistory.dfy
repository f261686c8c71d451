/** What a chain makes of its subject, told from the events without applying them. */
module SubjectHistory {
  import opened Protocol
  import opened Subjects
  import opened Store
  import opened LedgerInvariant

  /** An event that is carried out, of this kind. */
  predicate Moves(events: map<nat, SignedEvent>, i: nat) {
    i in events && events[i].content.approved && events[i].content.request.content.Transfer?
  }

  predicate Ends(events: map<nat, SignedEvent>, i: nat) {
    i in events && events[i].content.approved && events[i].content.request.content.Eol?
  }

  predicate Patches(events: map<nat, SignedEvent>, i: nat) {
    i in events && events[i].content.approved && events[i].content.request.content.Fact?
  }

  /** The last transfer carried out up to n, or genesis. */
  function LastMove(events: map<nat, SignedEvent>, n: nat): (m: nat)
    ensures m <= n && (m > 0 ==> Moves(events, m)) && forall i :: m < i <= n ==> !Moves(events, i)
  {
    if n == 0 || Moves(events, n) then n else LastMove(events, n - 1)
  }

  /** The key this event hands the subject to. */
  function HandedTo(e: Event): Key {
    match e.request.content
    case Create(start) => start.publicKey
    case Transfer(_, key) => key
    case _ => Key(0)
  }

  /** The states the subject goes through: approved facts patch the state, nothing else touches it. */
  ghost predicate StatesOf(c: Crypto, events: map<nat, SignedEvent>, init: Value, n: nat, states: seq<Value>) {
    && |states| == n + 1 && states[0] == init
    && forall i :: 1 <= i <= n ==>
         if Patches(events, i) then c.patch(states[i - 1], events[i].content.patch) == Some(states[i]) else states[i] == states[i - 1]
  }

  lemma LastMoveStep(events: map<nat, SignedEvent>, n: nat)
    requires n >= 1
    ensures LastMove(events, n) == if Moves(events, n) then n else LastMove(events, n - 1)
  {}

  /** The subject at the end of a chain: created and named as event 0 says; owned by who signed the last transfer carried out,
      with the key it names, or by the creator with the first key; active as long as no end of life was carried out; in the
      state to which the approved facts alone have brought the first one. */
  lemma {:induction false} ReplayTells(env: Env, events: map<nat, SignedEvent>, n: nat) returns (states: seq<Value>)
    requires forall i :: 1 <= i <= n && i in events ==> events[i].content.sn == i
    requires Replay(env, events, n).Some?
    ensures 0 in events && events[0].content.request.content.Create? && LastMove(events, n) in events
    ensures var s, genesis, moved := Replay(env, events, n).value, events[0].content, events[LastMove(events, n)].content;
      var start := genesis.request.content.start;
      && s.sn == n && s.keys.None?
      && s.creator == genesis.request.signature.signer && s.genesisGovVersion == genesis.govVersion
      && s.namespace == start.namespace && s.name == start.name && s.schemaId == start.schemaId && s.governanceId == start.governanceId
      && s.owner == moved.request.signature.signer && s.publicKey == HandedTo(moved)
      && (s.active <==> forall i :: 1 <= i <= n ==> !Ends(events, i))
      && env.gov.initState(start.governanceId, start.schemaId, genesis.govVersion).Some?
      && StatesOf(env.crypto, events, env.gov.initState(start.governanceId, start.schemaId, genesis.govVersion).value, n, states)
      && s.properties == states[n]
  {
    if n == 0 {
      states := [Replay(env, events, 0).value.properties];
    } else {
      var before := ReplayTells(env, events, n - 1);
      states := before + [Replay(env, events, n).value.properties];
      LastMoveStep(events, n);
      forall i | 1 <= i <= n
        ensures if Patches(events, i) then env.crypto.patch(states[i - 1], events[i].content.patch) == Some(states[i])
                else states[i] == states[i - 1]
      {
        if i < n { assert states[i] == before[i] && states[i - 1] == before[i - 1]; }
      }
      assert (forall i :: 1 <= i <= n ==> !Ends(events, i)) <==> (forall i :: 1 <= i <= n - 1 ==> !Ends(events, i)) && !Ends(events, n);
    }
  }

  /** Nothing a chain does can change what identifies its subject, or who created it; and only transfers carried out change
      who owns it. */
  lemma OwnerMovesByTransfersOnly(env: Env, events: map<nat, SignedEvent>, i: nat, n: nat)
    requires i <= n && Replay(env, events, n).Some? && forall k :: 1 <= k <= n && k in events ==> events[k].content.sn == k
    requires forall k :: i < k <= n ==> !Moves(events, k)
    ensures Replay(env, events, i).Some?
    ensures var a, b := Replay(env, events, i).value, Replay(env, events, n).value;
      a.owner == b.owner && a.publicKey == b.publicKey && a.creator == b.creator && a.subjectId == b.subjectId
  {
    ReplayDefinedBelow(env, events, n, i);
    var s := ReplayTells(env, events, i);
    var t := ReplayTells(env, events, n);
    assert LastMove(events, i) == LastMove(events, n);
    ReplayIdentity(env, events, i);
    ReplayIdentity(env, events, n);
  }

  /** So it is with every replica that keeps its invariant: what is stored of the subject is what its events tell. */
  lemma StoredTells(env: Env, id: Digest, rows: Rows, n: nat) returns (states: seq<Value>)
    requires Filed(rows) && Chain(env, id, rows, n)
    ensures rows.subject.Some? && 0 in rows.events && rows.events[0].content.request.content.Create?
    ensures LastMove(rows.events, n) in rows.events
    ensures var s, genesis, moved := rows.subject.value, rows.events[0].content, rows.events[LastMove(rows.events, n)].content;
      var start := genesis.request.content.start;
      && s.sn == n && s.subjectId == id && s.creator == genesis.request.signature.signer
      && s.owner == moved.request.signature.signer && s.publicKey == HandedTo(moved)
      && (s.active <==> forall i :: 1 <= i <= n ==> !Ends(rows.events, i))
      && env.gov.initState(start.governanceId, start.schemaId, genesis.govVersion).Some?
      && StatesOf(env.crypto, rows.events, env.gov.initState(start.governanceId, start.schemaId, genesis.govVersion).value, n, states)
      && s.properties == states[n]
  {
    states := ReplayTells(env, rows.events, n);
    var s := rows.subject.value;
    assert s.Public().owner == s.owner && s.Public().properties == s.properties;
  }
}
