/** A subject and the ways an event changes it. */
module Subjects {
  import opened Protocol

  datatype Subject = Subject(
    keys: Option<KeyPair>,
    subjectId: Digest,
    governanceId: Digest,
    sn: nat,
    genesisGovVersion: nat,
    publicKey: Key,
    namespace: string,
    name: string,
    schemaId: string,
    owner: Key,
    creator: Key,
    properties: Value,
    active: bool)
  {
    function GetContext(invoker: Key): SubjectContext {
      SubjectContext(governanceId, schemaId, invoker == owner, properties, namespace)
    }

    function UpdateSubject(c: Crypto, jsonPatch: Value, newSn: nat): Option<Subject> {
      match c.patch(properties, jsonPatch)
      case None => None
      case Some(p) => Some(this.(properties := p, sn := newSn))
    }

    function TransferSubject(newOwner: Key, newKey: Key, newKeys: Option<KeyPair>, newSn: nat): Subject {
      this.(owner := newOwner, publicKey := newKey, keys := newKeys, sn := newSn)
    }

    function EolEvent(): Subject {
      this.(active := false)
    }

    /** The subject without the private keys this node happens to hold. */
    function Public(): Subject {
      this.(keys := None)
    }
  }

  function FromGenesisEvent(c: Crypto, e: Event, initState: Value, keys: Option<KeyPair>): (s: Subject)
    requires e.request.content.Create?
    ensures s.sn == 0 && s.active && s.subjectId == c.GenerateSubjectId(e.request.content.start, e.govVersion)
  {
    var start := e.request.content.start;
    Subject(keys, c.GenerateSubjectId(start, e.govVersion), start.governanceId, 0, e.govVersion, start.publicKey,
      start.namespace, start.name, start.schemaId, e.request.signature.signer, e.request.signature.signer,
      initState, true)
  }

  /** The reference meaning of one event after genesis; nothing is known of private keys. */
  function Apply(c: Crypto, s: Subject, e: Event): (r: Option<Subject>)
    ensures r.Some? ==>
      && r.value.sn == e.sn && r.value.subjectId == s.subjectId
      && r.value.namespace == s.namespace && r.value.schemaId == s.schemaId && r.value.governanceId == s.governanceId
  {
    if !e.approved then Some(s.(sn := e.sn))
    else
      match e.request.content
      case Create(_) => None
      case Fact(_, _) => s.UpdateSubject(c, e.patch, e.sn)
      case Transfer(_, key) => Some(s.TransferSubject(e.request.signature.signer, key, None, e.sn))
      case Eol(_) => Some(s.EolEvent().(sn := e.sn))
  }

  /** The reference meaning of a chain: the subject after events 0 to n. */
  function Replay(env: Env, events: map<nat, SignedEvent>, n: nat): (r: Option<Subject>)
    ensures r.Some? ==> forall i :: 0 <= i <= n ==> i in events
  {
    if n !in events then None
    else if n == 0 then
      var e := events[0].content;
      if !e.request.content.Create? then None
      else
        var start := e.request.content.start;
        match env.gov.initState(start.governanceId, start.schemaId, e.govVersion)
        case None => None
        case Some(v) => Some(FromGenesisEvent(env.crypto, e, v, None))
    else
      match Replay(env, events, n - 1)
      case None => None
      case Some(s) => Apply(env.crypto, s, events[n].content)
  }

  lemma {:induction false} ReplayFrame(env: Env, a: map<nat, SignedEvent>, b: map<nat, SignedEvent>, n: nat)
    requires forall i :: 0 <= i <= n ==> i in a && i in b && a[i] == b[i]
    ensures Replay(env, a, n) == Replay(env, b, n)
  {
    if n > 0 { ReplayFrame(env, a, b, n - 1); }
  }

  lemma {:induction false} ReplayDefinedBelow(env: Env, events: map<nat, SignedEvent>, n: nat, i: nat)
    requires Replay(env, events, n).Some? && i <= n
    ensures Replay(env, events, i).Some?
  {
    if i < n { ReplayDefinedBelow(env, events, n - 1, i); }
  }

  /** What a subject's id is made of never changes. */
  lemma {:induction false} ReplayIdentity(env: Env, events: map<nat, SignedEvent>, n: nat)
    requires Replay(env, events, n).Some?
    ensures 0 in events && events[0].content.request.content.Create?
    ensures var s, e := Replay(env, events, n).value, events[0].content;
      var start := e.request.content.start;
      && s.subjectId == env.crypto.GenerateSubjectId(start, e.govVersion)
      && s.namespace == start.namespace && s.schemaId == start.schemaId && s.governanceId == start.governanceId
  {
    if n > 0 { ReplayIdentity(env, events, n - 1); }
  }
}
