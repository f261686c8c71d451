/** When catch-up can still reach its head: exactly when what is stored is the head's own ancestry, the rest of it would be
    taken, and the proof kept for the head is of the head. */
module LedgerClosing {
  import opened Protocol
  import opened Subjects
  import opened Verify
  import opened Store
  import opened LedgerSteps
  import opened LedgerInvariant
  import opened LedgerPreserved
  import opened LedgerCatchUp
  import opened LedgerRefusals
  import opened LedgerRuns
  import opened Agreement

  /** A linked chain from genesis that ends in the event stored as head. */
  ghost predicate Ancestry(env: Env, n: Node, id: Digest, chain: map<nat, SignedEvent>, h: nat) {
    && Linked(env.crypto, chain, h)
    && h in chain && h in n.db.Get(id).events && chain[h].content == n.db.Get(id).events[h].content
  }

  /** These intermediate events, all taken, bring the replica onto its head. */
  ghost predicate Closed(env: Env, n: Node, id: Digest, h: nat, es: seq<SignedEvent>) {
    AllTaken(env, n, id, es) && AfterIntermediates(env, n, es).StateOf(id) == Some(LedgerState(Some(h), None))
  }

  /** Some intermediate events do. */
  ghost predicate CanClose(env: Env, n: Node, id: Digest, h: nat) {
    exists es :: Closed(env, n, id, h, es)
  }

  // ---- only the ancestry can be completed ----

  lemma {:induction false} TakenKeepStored(env: Env, n: Node, id: Digest, ls: LedgerState, es: seq<SignedEvent>)
    requires Stands(env, n, id, ls) && AllTaken(env, n, id, es)
    ensures var events, events' := n.db.Get(id).events, AfterIntermediates(env, n, es).db.Get(id).events;
      forall i :: i in events ==> i in events' && events'[i] == events[i]
    decreases |es|
  {
    if es != [] {
      var n' := IntermediateEvent(env, n, es[0]).0;
      TakesNext(env, n, id, ls, es[0], n');
      IntermediateKeeps(env, n, es[0]);
      if ls.head.Some? { WantedIsMissing(env, id, n.At(id)); }
      TakenKeepStored(env, n', id, Arrived(ls, 1), es[1..]);
    }
  }

  /** Whatever closes the gap, what was stored before is the beginning of every linked chain that ends in the head. */
  lemma ClosedIsAncestry(env: Env, n: Node, id: Digest, chain: map<nat, SignedEvent>, c: nat, h: nat, es: seq<SignedEvent>)
    requires CollisionFree(env.crypto) && Stands(env, n, id, LedgerState(Some(c), Some(h))) && Ancestry(env, n, id, chain, h)
    requires Closed(env, n, id, h, es)
    ensures SameContents(n.db.Get(id).events, chain, c)
  {
    var after := AfterIntermediates(env, n, es);
    CatchUpProgress(env, n, id, LedgerState(Some(c), Some(h)), es);
    TakenKeepStored(env, n, id, LedgerState(Some(c), Some(h)), es);
    assert Chain(env, id, after.db.Get(id), h);
    OneHistory(env.crypto, after.db.Get(id).events, chain, h);
  }

  // ---- the ancestry can be completed ----

  /** The event is a transfer to this node, for which it needs a key pair. */
  predicate ToUs(env: Env, e: Event) {
    e.approved && e.request.content.Transfer? && e.request.signature.signer == env.ourId
  }

  predicate KeyHeld(env: Env, keys: map<Key, KeyPair>, e: Event) {
    ToUs(env, e) ==> e.request.content.publicKey in keys
  }

  /** Event i of the chain passes, on the chain's own subject, whatever is checked of it alone. */
  ghost predicate EventAdmissible(env: Env, requests: set<Digest>, chain: map<nat, SignedEvent>, id: Digest, i: nat)
    requires i >= 1
  {
    && i in chain && Replay(env, chain, i - 1).Some?
    && var e := chain[i];
    && Sourceable(e.content, id) && e.content.sn == i && e.content.subjectId == id
    && SignaturesOk(env.crypto, e)
    && env.crypto.hashRequest(e.content.request) !in requests
    && IntermediateKind(env, Replay(env, chain, i - 1).value, e.content).Accepted?
  }

  /** The kept proof is of the chain's last event, on the chain's own subject. */
  ghost predicate HeadAdmissible(env: Env, proof: Option<Proof>, chain: map<nat, SignedEvent>, h: nat)
    requires h >= 1
  {
    && proof.Some? && h in chain && h - 1 in chain && Replay(env, chain, h - 1).Some?
    && var s := Replay(env, chain, h - 1).value;
    ProofFits(proof.value, s, env.crypto.hashEvent(chain[h - 1].content), env.crypto.hashEvent(chain[h].content),
      ProofKey(s, chain[h].content))
  }

  /** No two of the chain's events from i on share a request, or need one key pair. */
  ghost predicate Separate(env: Env, chain: map<nat, SignedEvent>, i: nat, h: nat) {
    forall j, k :: i <= j < k <= h && j in chain && k in chain ==>
      && (k < h ==> env.crypto.hashRequest(chain[j].content.request) != env.crypto.hashRequest(chain[k].content.request))
      && (ToUs(env, chain[j].content) && ToUs(env, chain[k].content) ==>
            chain[j].content.request.content.publicKey != chain[k].content.request.content.publicKey)
  }

  /** Nothing but its link stands in the way of any event of the chain from i to its end. */
  ghost predicate Admissible(env: Env, db: Db, proof: Option<Proof>, chain: map<nat, SignedEvent>, id: Digest, i: nat, h: nat)
    requires 1 <= i <= h
  {
    && Replay(env, chain, h).Some?
    && (forall j :: i <= j < h ==> EventAdmissible(env, db.requests, chain, id, j))
    && (forall j :: i <= j <= h && j in chain ==> KeyHeld(env, db.keys, chain[j].content))
    && HeadAdmissible(env, proof, chain, h)
    && Separate(env, chain, i, h)
  }

  /** The chain's events from i up to its end, that one left out. */
  function Missing(env: Env, chain: map<nat, SignedEvent>, i: nat, h: nat): (es: seq<SignedEvent>)
    requires Replay(env, chain, h).Some? && i <= h
    ensures |es| == h - i
    decreases h - i
  {
    if i == h then [] else [chain[i]] + Missing(env, chain, i + 1, h)
  }

  /** An event that applies to the public subject applies to the stored one, if a key pair it needs is held. */
  lemma EffectFollows(env: Env, db: Db, s: Subject, e: Event)
    requires OnlyFactsRejected(e) && !e.request.content.Create?
    requires Apply(env.crypto, s.Public(), e).Some? && KeyHeld(env, db.keys, e)
    ensures var x := NextEffect(env, db, s, e);
      && x.Effect? && Some(x.subject.Public()) == Apply(env.crypto, s.Public(), e)
      && x.usedKey == (if ToUs(env, e) then Some(e.request.content.publicKey) else Option.None)
  {}

  /** What is checked of an event before it is stored does not see private keys. */
  lemma KindSeesPublic(env: Env, s: Subject, e: Event)
    ensures IntermediateKind(env, s, e) == IntermediateKind(env, s.Public(), e)
    ensures forall proof, a, b, k :: ProofFits(proof, s, a, b, k) == ProofFits(proof, s.Public(), a, b, k)
    ensures ProofKey(s, e) == ProofKey(s.Public(), e)
  {}

  /** The stored subject is the chain's own. */
  lemma StoredIsReplay(env: Env, n: Node, id: Digest, chain: map<nat, SignedEvent>, c: nat, h: nat)
    requires Stands(env, n, id, LedgerState(Some(c), Some(h))) && SameContents(n.db.Get(id).events, chain, c)
    ensures n.db.Get(id).subject.Some? && Replay(env, chain, c) == Some(n.db.Get(id).subject.value.Public())
  {
    ReplaySeesContents(env, n.db.Get(id).events, chain, c);
  }

  lemma HeadWillFollow(env: Env, n: Node, id: Digest, chain: map<nat, SignedEvent>, c: nat, s': Subject, db: Db)
    requires Stands(env, n, id, LedgerState(Some(c), Some(c + 2))) && Ancestry(env, n, id, chain, c + 2)
    requires HeadAdmissible(env, n.db.Get(id).lceProof, chain, c + 2) && Replay(env, chain, c + 2).Some?
    requires Replay(env, chain, c + 1) == Some(s'.Public()) && c + 1 in chain
    requires KeyHeld(env, db.keys, chain[c + 2].content)
    ensures HeadFollows(env, db, n.db.Get(id), s', chain[c + 1].content, c + 2)
  {
    var head := n.db.Get(id).events[c + 2].content;
    assert LinkedAt(env.crypto, chain, c + 2);
    KindSeesPublic(env, s', head);
    EffectFollows(env, db, s', head);
  }

  /** The replica stands at c on the chain, and nothing but links could stop the rest of it. */
  ghost predicate OnTrack(env: Env, n: Node, id: Digest, chain: map<nat, SignedEvent>, c: nat, h: nat) {
    && Stands(env, n, id, LedgerState(Some(c), Some(h))) && h >= c + 2 && Ancestry(env, n, id, chain, h)
    && SameContents(n.db.Get(id).events, chain, c)
    && Admissible(env, n.db, n.db.Get(id).lceProof, chain, id, c + 1, h)
  }

  /** `OnTrack` as a value, for those who do not look inside it. */
  ghost function OnTrackAt(env: Env, id: Digest, chain: map<nat, SignedEvent>, h: nat): (Node, nat) -> bool {
    (n: Node, c: nat) => OnTrack(env, n, id, chain, c, h)
  }

  lemma NextReachesStore(env: Env, n: Node, id: Digest, chain: map<nat, SignedEvent>, c: nat, h: nat)
    requires Stands(env, n, id, LedgerState(Some(c), Some(h)))
    requires SameContents(n.db.Get(id).events, chain, c)
    requires EventAdmissible(env, n.db.requests, chain, id, c + 1)
    ensures ReachesStore(env, n, chain[c + 1])
  {
    StoredIsReplay(env, n, id, chain, c, h);
    KindSeesPublic(env, n.db.Get(id).subject.value, chain[c + 1].content);
  }

  lemma HeadFollowsNext(env: Env, n: Node, id: Digest, chain: map<nat, SignedEvent>, c: nat, s: Subject)
    requires OnTrack(env, n, id, chain, c, c + 2) && c + 1 in chain
    requires Replay(env, chain, c) == Some(s.Public()) && Replay(env, chain, c + 1).Some?
    requires OnlyFactsRejected(chain[c + 1].content) && !chain[c + 1].content.request.content.Create?
    ensures var x := NextEffect(env, n.db, s, chain[c + 1].content);
      x.Effect? && HeadFollows(env, UseKey(n.db, x.usedKey), n.db.Get(id), x.subject, chain[c + 1].content, c + 2)
  {
    EffectFollows(env, n.db, s, chain[c + 1].content);
    var x := NextEffect(env, n.db, s, chain[c + 1].content);
    StillHeld(env, n.db, chain, c + 1, c + 2, x.usedKey);
    HeadWillFollow(env, n, id, chain, c, x.subject, UseKey(n.db, x.usedKey));
  }

  lemma NextFitsIn(env: Env, n: Node, id: Digest, chain: map<nat, SignedEvent>, c: nat, h: nat)
    requires OnTrack(env, n, id, chain, c, h) && EventAdmissible(env, n.db.requests, chain, id, c + 1)
    ensures FitsIn(env, n, chain[c + 1])
  {
    var s := n.db.Get(id).subject.value;
    StoredIsReplay(env, n, id, chain, c, h);
    ReplayDefinedBelow(env, chain, h, c + 1);
    if h == c + 2 { HeadFollowsNext(env, n, id, chain, c, s); }
    EffectFollows(env, n.db, s, chain[c + 1].content);
    assert LinkedAt(env.crypto, chain, c + 1);
    FitsNext(env, n, id, c, h, s, chain[c + 1]);
  }

  lemma FittingIsTaken(env: Env, n: Node, id: Digest, e: SignedEvent)
    requires Inv(env, id, n.At(id)) && SubjectIdOf(env.crypto, e.content) == id
    requires ReachesStore(env, n, e) && FitsIn(env, n, e)
    ensures Takes(env, n, id, e)
  {
    IntermediateExactly(env, n, e);
  }

  /** The chain's next event is taken. */
  lemma NextIsTaken(env: Env, n: Node, id: Digest, chain: map<nat, SignedEvent>, c: nat, h: nat)
    requires OnTrack(env, n, id, chain, c, h)
    ensures c + 1 in chain && Takes(env, n, id, chain[c + 1])
  {
    assert EventAdmissible(env, n.db.requests, chain, id, c + 1);
    NextReachesStore(env, n, id, chain, c, h);
    NextFitsIn(env, n, id, chain, c, h);
    FittingIsTaken(env, n, id, chain[c + 1]);
  }

  /** The key pairs the later events need are still there after the event at i has used its own. */
  lemma StillHeld(env: Env, db: Db, chain: map<nat, SignedEvent>, i: nat, h: nat, used: Option<Key>)
    requires i in chain && Separate(env, chain, i, h)
    requires used == (if ToUs(env, chain[i].content) then Some(chain[i].content.request.content.publicKey) else Option.None)
    requires forall j :: i <= j <= h && j in chain ==> KeyHeld(env, db.keys, chain[j].content)
    ensures forall j :: i < j <= h && j in chain ==> KeyHeld(env, UseKey(db, used).keys, chain[j].content)
  {}

  /** What taking an event changes besides the replica's events: one more finished request, the key pair it used, and
      nothing of the proof kept for the head while that is still ahead. */
  lemma TakenFrame(env: Env, n: Node, n': Node, id: Digest, c: nat, h: nat, s: Subject, e: SignedEvent)
    requires Stands(env, n, id, LedgerState(Some(c), Some(h))) && h > c + 2 && Takes(env, n, id, e)
    requires n.db.Get(id).subject == Some(s) && !e.content.request.content.Create? && n' == IntermediateEvent(env, n, e).0
    ensures var effect := NextEffect(env, n.db, s, e.content);
      && effect.Effect?
      && n'.db.requests == n.db.requests + {env.crypto.hashRequest(e.content.request)}
      && n'.db.keys == UseKey(n.db, effect.usedKey).keys
      && n'.db.Get(id).lceProof == n.db.Get(id).lceProof
  {
    IntermediateExactly(env, n, e);
    ReachedNext(env, n, e, c);
    StoredSources(env, n, id, c, s, e);
    SourcesExactly(env, Stored(env, n, e), id, s, e.content);
  }

  lemma StaysAdmissible(env: Env, db: Db, db': Db, proof: Option<Proof>, chain: map<nat, SignedEvent>, id: Digest, i: nat, h: nat,
                        used: Option<Key>)
    requires 1 <= i < h && Admissible(env, db, proof, chain, id, i, h)
    requires db'.requests == db.requests + {env.crypto.hashRequest(chain[i].content.request)}
    requires used == (if ToUs(env, chain[i].content) then Some(chain[i].content.request.content.publicKey) else Option.None)
    requires db'.keys == UseKey(db, used).keys
    ensures Admissible(env, db', proof, chain, id, i + 1, h)
  {
    StillHeld(env, db, chain, i, h, used);
    forall j | i + 1 <= j < h ensures EventAdmissible(env, db'.requests, chain, id, j) {
      assert EventAdmissible(env, db.requests, chain, id, j) && EventAdmissible(env, db.requests, chain, id, i);
    }
  }

  lemma OneMoreStands(env: Env, n: Node, n': Node, id: Digest, c: nat, h: nat, e: SignedEvent)
    requires Stands(env, n, id, LedgerState(Some(c), Some(h))) && h > c + 2
    requires Takes(env, n, id, e) && n' == IntermediateEvent(env, n, e).0
    ensures Stands(env, n', id, LedgerState(Some(c + 1), Some(h))) && e.content.sn == c + 1
    ensures n'.db.Get(id).events == n.db.Get(id).events[c + 1 := e]
  {
    IntermediateKeeps(env, n, e);
  }

  lemma StillOnChain(env: Env, n: Node, n': Node, id: Digest, chain: map<nat, SignedEvent>, c: nat, h: nat)
    requires Ancestry(env, n, id, chain, h) && SameContents(n.db.Get(id).events, chain, c) && h > c + 1 && c + 1 in chain
    requires n'.db.Get(id).events == n.db.Get(id).events[c + 1 := chain[c + 1]]
    ensures Ancestry(env, n', id, chain, h) && SameContents(n'.db.Get(id).events, chain, c + 1)
  {}

  lemma StillAdmissible(env: Env, n: Node, n': Node, id: Digest, chain: map<nat, SignedEvent>, c: nat, h: nat, s: Subject)
    requires h > c + 2 && c + 1 in chain && Replay(env, chain, c) == Some(s.Public())
    requires Admissible(env, n.db, n.db.Get(id).lceProof, chain, id, c + 1, h)
    requires n'.db.Get(id).lceProof == n.db.Get(id).lceProof
    requires n'.db.requests == n.db.requests + {env.crypto.hashRequest(chain[c + 1].content.request)}
    requires !chain[c + 1].content.request.content.Create? && OnlyFactsRejected(chain[c + 1].content)
    requires NextEffect(env, n.db, s, chain[c + 1].content).Effect?
    requires n'.db.keys == UseKey(n.db, NextEffect(env, n.db, s, chain[c + 1].content).usedKey).keys
    ensures Admissible(env, n'.db, n'.db.Get(id).lceProof, chain, id, c + 2, h)
  {
    ReplayDefinedBelow(env, chain, h, c + 1);
    EffectFollows(env, n.db, s, chain[c + 1].content);
    StaysAdmissible(env, n.db, n'.db, n.db.Get(id).lceProof, chain, id, c + 1, h,
      NextEffect(env, n.db, s, chain[c + 1].content).usedKey);
  }

  lemma Together(env: Env, n: Node, id: Digest, chain: map<nat, SignedEvent>, c: nat, h: nat)
    requires Stands(env, n, id, LedgerState(Some(c), Some(h))) && h >= c + 2 && Ancestry(env, n, id, chain, h)
    requires SameContents(n.db.Get(id).events, chain, c)
    requires Admissible(env, n.db, n.db.Get(id).lceProof, chain, id, c + 1, h)
    ensures OnTrackAt(env, id, chain, h)(n, c)
  {}

  /** The chain's next event in its place leaves the replica on track. */
  lemma MovedOn(env: Env, n: Node, n': Node, id: Digest, chain: map<nat, SignedEvent>, c: nat, h: nat, s: Subject)
    requires OnTrack(env, n, id, chain, c, h) && h > c + 2 && c + 1 in chain && n.db.Get(id).subject == Some(s)
    requires Stands(env, n', id, LedgerState(Some(c + 1), Some(h)))
    requires n'.db.Get(id).events == n.db.Get(id).events[c + 1 := chain[c + 1]]
    requires n'.db.Get(id).lceProof == n.db.Get(id).lceProof
    requires n'.db.requests == n.db.requests + {env.crypto.hashRequest(chain[c + 1].content.request)}
    requires !chain[c + 1].content.request.content.Create? && OnlyFactsRejected(chain[c + 1].content)
    requires NextEffect(env, n.db, s, chain[c + 1].content).Effect?
    requires n'.db.keys == UseKey(n.db, NextEffect(env, n.db, s, chain[c + 1].content).usedKey).keys
    ensures OnTrackAt(env, id, chain, h)(n', c + 1)
  {
    StoredIsReplay(env, n, id, chain, c, h);
    StillOnChain(env, n, n', id, chain, c, h);
    StillAdmissible(env, n, n', id, chain, c, h, s);
    Together(env, n', id, chain, c + 1, h);
  }

  /** After the chain's next event the replica stands one further on the same chain. */
  lemma NextStaysOn(env: Env, n: Node, n': Node, id: Digest, chain: map<nat, SignedEvent>, c: nat, h: nat)
    requires OnTrack(env, n, id, chain, c, h) && h > c + 2
    requires c + 1 in chain && Takes(env, n, id, chain[c + 1]) && n' == IntermediateEvent(env, n, chain[c + 1]).0
    ensures OnTrackAt(env, id, chain, h)(n', c + 1)
  {
    assert EventAdmissible(env, n.db.requests, chain, id, c + 1);
    var s := n.db.Get(id).subject.value;
    OneMoreStands(env, n, n', id, c, h, chain[c + 1]);
    TakenFrame(env, n, n', id, c, h, s, chain[c + 1]);
    MovedOn(env, n, n', id, chain, c, h, s);
  }

  /** The chain's events from i on, sent in order, are all taken. */
  ghost predicate TakesMissing(env: Env, n: Node, id: Digest, chain: map<nat, SignedEvent>, i: nat, h: nat) {
    Replay(env, chain, h).Some? && i <= h && AllTaken(env, n, id, Missing(env, chain, i, h))
  }

  lemma OneFirst(env: Env, n: Node, n': Node, id: Digest, chain: map<nat, SignedEvent>, i: nat, h: nat)
    requires Replay(env, chain, h).Some? && i < h
    requires Takes(env, n, id, chain[i]) && n' == IntermediateEvent(env, n, chain[i]).0
    requires i + 1 == h || TakesMissing(env, n', id, chain, i + 1, h)
    ensures TakesMissing(env, n, id, chain, i, h)
  {
    assert Missing(env, chain, i, h)[0] == chain[i] && Missing(env, chain, i, h)[1..] == Missing(env, chain, i + 1, h);
  }

  /** What being on track gives: the chain's next event is taken, and afterwards, if more are missing, so it is again. */
  ghost predicate Onward(env: Env, id: Digest, chain: map<nat, SignedEvent>, h: nat, on: (Node, nat) -> bool, n: Node, c: nat) {
    && Replay(env, chain, h).Some? && c + 2 <= h && c + 1 in chain && Takes(env, n, id, chain[c + 1])
    && (c + 2 < h ==> on(IntermediateEvent(env, n, chain[c + 1]).0, c + 1))
  }

  lemma OneTaken(env: Env, n: Node, id: Digest, chain: map<nat, SignedEvent>, c: nat, h: nat)
    requires OnTrack(env, n, id, chain, c, h)
    ensures Onward(env, id, chain, h, OnTrackAt(env, id, chain, h), n, c)
  {
    NextIsTaken(env, n, id, chain, c, h);
    if h > c + 2 { NextStaysOn(env, n, IntermediateEvent(env, n, chain[c + 1]).0, id, chain, c, h); }
  }

  lemma {:induction false} OnwardIsTaken(env: Env, id: Digest, chain: map<nat, SignedEvent>, h: nat, on: (Node, nat) -> bool,
                                         n: Node, c: nat)
    requires on(n, c) && forall m: Node, i: nat :: on(m, i) ==> Onward(env, id, chain, h, on, m, i)
    ensures TakesMissing(env, n, id, chain, c + 1, h)
    decreases h - c
  {
    assert Onward(env, id, chain, h, on, n, c);
    var n' := IntermediateEvent(env, n, chain[c + 1]).0;
    if c + 2 < h { OnwardIsTaken(env, id, chain, h, on, n', c + 1); }
    OneFirst(env, n, n', id, chain, c + 1, h);
  }

  /** Sent in order, the missing events of the head's ancestry are all taken. */
  lemma AncestryIsTaken(env: Env, n: Node, id: Digest, chain: map<nat, SignedEvent>, c: nat, h: nat)
    requires OnTrack(env, n, id, chain, c, h)
    ensures TakesMissing(env, n, id, chain, c + 1, h)
  {
    var on := OnTrackAt(env, id, chain, h);
    forall m: Node, i: nat | on(m, i) ensures Onward(env, id, chain, h, on, m, i) {
      OneTaken(env, m, id, chain, i, h);
    }
    OnwardIsTaken(env, id, chain, h, on, n, c);
  }

  /** As many events as are missing bring the replica onto its head. */
  lemma MissingClose(env: Env, n: Node, id: Digest, ls: LedgerState, chain: map<nat, SignedEvent>, h: nat)
    requires Stands(env, n, id, ls) && ls.head == Some(h) && Wanted(ls) < h && TakesMissing(env, n, id, chain, Wanted(ls), h)
    ensures CanClose(env, n, id, h)
  {
    CatchUpProgress(env, n, id, ls, Missing(env, chain, Wanted(ls), h));
    assert Closed(env, n, id, h, Missing(env, chain, Wanted(ls), h));
  }

  /** Off the ancestry there is no way onto the head. */
  lemma OffAncestryNeverCloses(env: Env, n: Node, id: Digest, chain: map<nat, SignedEvent>, c: nat, h: nat)
    requires CollisionFree(env.crypto) && Stands(env, n, id, LedgerState(Some(c), Some(h))) && Ancestry(env, n, id, chain, h)
    requires !SameContents(n.db.Get(id).events, chain, c)
    ensures !CanClose(env, n, id, h)
  {
    if CanClose(env, n, id, h) {
      var es :| Closed(env, n, id, h, es);
      ClosedIsAncestry(env, n, id, chain, c, h, es);
    }
  }

  // ---- and nothing less is enough ----

  /** The chain's events from i up to its end are signed: all of them that is not in their contents. */
  ghost predicate SignedBetween(c: Crypto, chain: map<nat, SignedEvent>, i: nat, h: nat) {
    forall j :: i <= j < h && j in chain ==> SignaturesOk(c, chain[j])
  }

  /** An event with the content of the chain's next one, once taken, shows that to be admissible. */
  lemma TakenTells(env: Env, n: Node, id: Digest, chain: map<nat, SignedEvent>, c: nat, h: nat, s: Subject, e: SignedEvent)
    requires Stands(env, n, id, LedgerState(Some(c), Some(h))) && SameContents(n.db.Get(id).events, chain, c)
    requires n.db.Get(id).subject == Some(s)
    requires Takes(env, n, id, e) && c + 1 in chain && e.content == chain[c + 1].content && SignaturesOk(env.crypto, chain[c + 1])
    ensures Sourceable(e.content, id) && EventAdmissible(env, n.db.requests, chain, id, c + 1)
    ensures KeyHeld(env, n.db.keys, e.content)
    ensures var x := NextEffect(env, n.db, s, e.content);
      && x.Effect? && Replay(env, chain, c + 1) == Some(x.subject.Public())
      && x.usedKey == (if ToUs(env, e.content) then Some(e.content.request.content.publicKey) else Option.None)
      && (h == c + 2 ==> HeadFollows(env, UseKey(n.db, x.usedKey), n.db.Get(id), x.subject, e.content, h))
  {
    IntermediateExactly(env, n, e);
    ReachedNext(env, n, e, c);
    FitsNext(env, n, id, c, h, s, e);
    StoredIsReplay(env, n, id, chain, c, h);
    KindSeesPublic(env, s, e.content);
    NextEffectApplies(env, n.db, s, e.content);
  }

  /** What the head passed is what is asked of the chain's last event. */
  lemma FollowedIsAdmissible(env: Env, db: Db, rows: Rows, id: Digest, chain: map<nat, SignedEvent>, h: nat, s: Subject)
    requires h >= 1 && h - 1 in chain && h in chain && HeadOk(env, id, rows, h) && rows.events[h].content == chain[h].content
    requires Replay(env, chain, h - 1) == Some(s.Public())
    requires HeadFollows(env, db, rows, s, chain[h - 1].content, h)
    ensures HeadAdmissible(env, rows.lceProof, chain, h) && Replay(env, chain, h).Some? && KeyHeld(env, db.keys, chain[h].content)
  {
    KindSeesPublic(env, s, chain[h].content);
    NextEffectApplies(env, db, s, chain[h].content);
  }

  lemma WasSeparate(env: Env, db: Db, db': Db, proof: Option<Proof>, chain: map<nat, SignedEvent>, id: Digest, i: nat, h: nat,
                    used: Option<Key>)
    requires 1 <= i < h && i in chain && Admissible(env, db', proof, chain, id, i + 1, h)
    requires env.crypto.hashRequest(chain[i].content.request) in db'.requests
    requires used == (if ToUs(env, chain[i].content) then Some(chain[i].content.request.content.publicKey) else Option.None)
    requires db'.keys == UseKey(db, used).keys
    ensures Separate(env, chain, i, h)
  {
    forall j, k | i <= j < k <= h && j in chain && k in chain
      ensures k < h ==> env.crypto.hashRequest(chain[j].content.request) != env.crypto.hashRequest(chain[k].content.request)
      ensures ToUs(env, chain[j].content) && ToUs(env, chain[k].content) ==>
              chain[j].content.request.content.publicKey != chain[k].content.request.content.publicKey
    {
      assert KeyHeld(env, db'.keys, chain[k].content);
      assert k < h ==> EventAdmissible(env, db'.requests, chain, id, k);
    }
  }

  lemma WasAdmissible(env: Env, db: Db, db': Db, proof: Option<Proof>, chain: map<nat, SignedEvent>, id: Digest, i: nat, h: nat,
                      used: Option<Key>)
    requires 1 <= i < h && Admissible(env, db', proof, chain, id, i + 1, h)
    requires EventAdmissible(env, db.requests, chain, id, i) && KeyHeld(env, db.keys, chain[i].content)
    requires db'.requests == db.requests + {env.crypto.hashRequest(chain[i].content.request)}
    requires used == (if ToUs(env, chain[i].content) then Some(chain[i].content.request.content.publicKey) else Option.None)
    requires db'.keys == UseKey(db, used).keys
    ensures Admissible(env, db, proof, chain, id, i, h)
  {
    WasSeparate(env, db, db', proof, chain, id, i, h, used);
    forall j | i <= j < h ensures EventAdmissible(env, db.requests, chain, id, j) {
      if j > i { assert EventAdmissible(env, db'.requests, chain, id, j); }
    }
  }

  lemma LastTwo(env: Env, db: Db, proof: Option<Proof>, chain: map<nat, SignedEvent>, id: Digest, i: nat, h: nat,
                used: Option<Key>)
    requires i >= 1 && h == i + 1 && EventAdmissible(env, db.requests, chain, id, i) && KeyHeld(env, db.keys, chain[i].content)
    requires used == (if ToUs(env, chain[i].content) then Some(chain[i].content.request.content.publicKey) else Option.None)
    requires HeadAdmissible(env, proof, chain, h) && Replay(env, chain, h).Some?
    requires KeyHeld(env, UseKey(db, used).keys, chain[h].content)
    ensures Admissible(env, db, proof, chain, id, i, h)
  {
    forall j | i <= j < h ensures EventAdmissible(env, db.requests, chain, id, j) { assert j == i; }
    forall j | i <= j <= h && j in chain ensures KeyHeld(env, db.keys, chain[j].content) { assert j == i || j == h; }
    assert Separate(env, chain, i, h) by {
      forall j, k | i <= j < k <= h && j in chain && k in chain
        ensures ToUs(env, chain[j].content) && ToUs(env, chain[k].content) ==>
                chain[j].content.request.content.publicKey != chain[k].content.request.content.publicKey
        ensures k == h
      {
        assert j == i && k == h;
      }
    }
  }

  lemma LastFollowed(env: Env, db: Db, rows: Rows, id: Digest, chain: map<nat, SignedEvent>, i: nat, h: nat, s: Subject,
                     used: Option<Key>)
    requires i >= 1 && h == i + 1 && EventAdmissible(env, db.requests, chain, id, i) && KeyHeld(env, db.keys, chain[i].content)
    requires used == (if ToUs(env, chain[i].content) then Some(chain[i].content.request.content.publicKey) else Option.None)
    requires h in chain && HeadOk(env, id, rows, h) && rows.events[h].content == chain[h].content
    requires Replay(env, chain, i) == Some(s.Public()) && HeadFollows(env, UseKey(db, used), rows, s, chain[i].content, h)
    ensures Admissible(env, db, rows.lceProof, chain, id, i, h)
  {
    FollowedIsAdmissible(env, UseKey(db, used), rows, id, chain, h, s);
    LastTwo(env, db, rows.lceProof, chain, id, i, h, used);
  }

  /** The event that brings the replica onto its head. */
  lemma LastAdmissible(env: Env, n: Node, id: Digest, chain: map<nat, SignedEvent>, c: nat, s: Subject, e: SignedEvent)
    requires Stands(env, n, id, LedgerState(Some(c), Some(c + 2))) && Ancestry(env, n, id, chain, c + 2)
    requires SameContents(n.db.Get(id).events, chain, c) && n.db.Get(id).subject == Some(s)
    requires Takes(env, n, id, e) && c + 1 in chain && e.content == chain[c + 1].content && SignaturesOk(env.crypto, chain[c + 1])
    ensures Admissible(env, n.db, n.db.Get(id).lceProof, chain, id, c + 1, c + 2)
  {
    TakenTells(env, n, id, chain, c, c + 2, s, e);
    var x := NextEffect(env, n.db, s, e.content);
    LastFollowed(env, n.db, n.db.Get(id), id, chain, c + 1, c + 2, x.subject, x.usedKey);
  }

  lemma OneBack(env: Env, n: Node, n': Node, id: Digest, chain: map<nat, SignedEvent>, c: nat, h: nat, s: Subject, e: SignedEvent)
    requires Stands(env, n, id, LedgerState(Some(c), Some(h))) && h > c + 2 && n.db.Get(id).subject == Some(s)
    requires SameContents(n.db.Get(id).events, chain, c) && c + 1 in chain && e.content == chain[c + 1].content
    requires SignaturesOk(env.crypto, chain[c + 1]) && Takes(env, n, id, e) && n' == IntermediateEvent(env, n, e).0
    requires Admissible(env, n'.db, n'.db.Get(id).lceProof, chain, id, c + 2, h)
    ensures Admissible(env, n.db, n.db.Get(id).lceProof, chain, id, c + 1, h)
  {
    TakenTells(env, n, id, chain, c, h, s, e);
    TakenFrame(env, n, n', id, c, h, s, e);
    WasAdmissible(env, n.db, n'.db, n.db.Get(id).lceProof, chain, id, c + 1, h, NextEffect(env, n.db, s, e.content).usedKey);
  }

  lemma LastBack(env: Env, n: Node, n': Node, id: Digest, chain: map<nat, SignedEvent>, c: nat, s: Subject, e: SignedEvent)
    requires CollisionFree(env.crypto) && Stands(env, n, id, LedgerState(Some(c), Some(c + 2))) && Ancestry(env, n, id, chain, c + 2)
    requires SameContents(n.db.Get(id).events, chain, c) && n.db.Get(id).subject == Some(s)
    requires SignedBetween(env.crypto, chain, c + 1, c + 2) && Takes(env, n, id, e) && n' == IntermediateEvent(env, n, e).0
    ensures Admissible(env, n.db, n.db.Get(id).lceProof, chain, id, c + 1, c + 2)
  {
    IntermediateKeeps(env, n, e);
    OneHistory(env.crypto, n'.db.Get(id).events, chain, c + 2);
    assert n'.db.Get(id).events[c + 1] == e;
    LastAdmissible(env, n, id, chain, c, s, e);
  }

  lemma HeadStays(env: Env, n: Node, n': Node, id: Digest, chain: map<nat, SignedEvent>, c: nat, h: nat, e: SignedEvent)
    requires Ancestry(env, n, id, chain, h) && h > c + 2 && n'.db.Get(id).events == n.db.Get(id).events[c + 1 := e]
    ensures Ancestry(env, n', id, chain, h)
  {}

  /** The gap is closed by one event. */
  lemma ClosedByLast(env: Env, n: Node, id: Digest, chain: map<nat, SignedEvent>, c: nat, es: seq<SignedEvent>)
    requires CollisionFree(env.crypto) && Stands(env, n, id, LedgerState(Some(c), Some(c + 2))) && Ancestry(env, n, id, chain, c + 2)
    requires SameContents(n.db.Get(id).events, chain, c)
    requires SignedBetween(env.crypto, chain, c + 1, c + 2) && Closed(env, n, id, c + 2, es)
    ensures Admissible(env, n.db, n.db.Get(id).lceProof, chain, id, c + 1, c + 2)
  {
    LastBack(env, n, IntermediateEvent(env, n, es[0]).0, id, chain, c, n.db.Get(id).subject.value, es[0]);
  }

  /** The gap is closed by more than one event: the first leads to a replica from which the others close it. */
  lemma ClosedOneOn(env: Env, n: Node, id: Digest, chain: map<nat, SignedEvent>, c: nat, h: nat, es: seq<SignedEvent>)
    returns (n': Node)
    requires Stands(env, n, id, LedgerState(Some(c), Some(h))) && Ancestry(env, n, id, chain, h) && h > c + 2
    requires SameContents(n.db.Get(id).events, chain, c)
    requires SignedBetween(env.crypto, chain, c + 1, h) && Closed(env, n, id, h, es)
    ensures es != [] && Closed(env, n', id, h, es[1..])
    ensures Stands(env, n', id, LedgerState(Some(c + 1), Some(h))) && Ancestry(env, n', id, chain, h)
    ensures SameContents(n'.db.Get(id).events, chain, c + 1) && Admissible(env, n'.db, n'.db.Get(id).lceProof, chain, id, c + 2, h) ==>
            Admissible(env, n.db, n.db.Get(id).lceProof, chain, id, c + 1, h)
  {
    var e := es[0];
    n' := IntermediateEvent(env, n, e).0;
    OneMoreStands(env, n, n', id, c, h, e);
    HeadStays(env, n, n', id, chain, c, h, e);
    if SameContents(n'.db.Get(id).events, chain, c + 1) && Admissible(env, n'.db, n'.db.Get(id).lceProof, chain, id, c + 2, h) {
      assert n'.db.Get(id).events[c + 1] == e;
      OneBack(env, n, n', id, chain, c, h, n.db.Get(id).subject.value, e);
    }
  }

  /** Whatever closes the gap, the missing events were admissible and the kept proof was of the head. */
  lemma {:induction false} ClosedIsAdmissible(env: Env, n: Node, id: Digest, chain: map<nat, SignedEvent>, c: nat, h: nat,
                                              es: seq<SignedEvent>)
    requires CollisionFree(env.crypto) && Stands(env, n, id, LedgerState(Some(c), Some(h))) && Ancestry(env, n, id, chain, h)
    requires h >= c + 2 && SignedBetween(env.crypto, chain, c + 1, h) && Closed(env, n, id, h, es)
    ensures SameContents(n.db.Get(id).events, chain, c)
    ensures Admissible(env, n.db, n.db.Get(id).lceProof, chain, id, c + 1, h)
    decreases |es|
  {
    ClosedIsAncestry(env, n, id, chain, c, h, es);
    if h == c + 2 {
      ClosedByLast(env, n, id, chain, c, es);
    } else {
      var n' := ClosedOneOn(env, n, id, chain, c, h, es);
      ClosedIsAdmissible(env, n', id, chain, c + 1, h, es[1..]);
    }
  }

  /** Catch-up can still close exactly when the stored events are the beginning of the head's own ancestry, the missing ones
      are admissible, and the proof that came with the head is of the head, which nothing has looked at so far. */
  lemma ClosesExactly(env: Env, n: Node, id: Digest, chain: map<nat, SignedEvent>, c: nat, h: nat)
    requires CollisionFree(env.crypto) && Stands(env, n, id, LedgerState(Some(c), Some(h))) && Ancestry(env, n, id, chain, h)
    requires SignedBetween(env.crypto, chain, c + 1, h)
    ensures h >= c + 2
    ensures CanClose(env, n, id, h) <==>
            && SameContents(n.db.Get(id).events, chain, c)
            && Admissible(env, n.db, n.db.Get(id).lceProof, chain, id, c + 1, h)
  {
    assert h >= c + 2;
    if SameContents(n.db.Get(id).events, chain, c) && Admissible(env, n.db, n.db.Get(id).lceProof, chain, id, c + 1, h) {
      AdmissibleCloses(env, n, id, chain, c, h);
    }
    if CanClose(env, n, id, h) {
      var es :| Closed(env, n, id, h, es);
      ClosedIsAdmissible(env, n, id, chain, c, h, es);
    }
  }

  lemma AdmissibleCloses(env: Env, n: Node, id: Digest, chain: map<nat, SignedEvent>, c: nat, h: nat)
    requires Stands(env, n, id, LedgerState(Some(c), Some(h))) && Ancestry(env, n, id, chain, h) && h >= c + 2
    requires SameContents(n.db.Get(id).events, chain, c) && Admissible(env, n.db, n.db.Get(id).lceProof, chain, id, c + 1, h)
    ensures CanClose(env, n, id, h)
  {
    Together(env, n, id, chain, c, h);
    AncestryIsTaken(env, n, id, chain, c, h);
    MissingClose(env, n, id, LedgerState(Some(c), Some(h)), chain, h);
  }

  // ---- a head whose certificate is of something else ----

  /** The proof is of this event, as far as the event alone can tell. */
  ghost predicate ProofOfEvent(c: Crypto, proof: Proof, id: Digest, e: Event) {
    && proof.eventHash == c.hashEvent(e) && proof.prevEventHash == e.hashPrev
    && proof.subjectId == id && proof.sn == e.sn
  }

  /** The step onto the head compares it with the proof kept for it. */
  lemma OntoHead(env: Env, n: Node, id: Digest, ls: LedgerState, h: nat, e: SignedEvent)
    requires Stands(env, n, id, ls) && ls.head == Some(h) && h == Wanted(ls) + 1 && Takes(env, n, id, e)
    ensures ProofOfEvent(env.crypto, n.db.Get(id).lceProof.value, id, n.db.Get(id).events[h].content)
  {
    IntermediateExactly(env, n, e);
    if ls.currentSn.Some? { ReachedNext(env, n, e, ls.currentSn.value); }
  }

  lemma TakenIsNoGenesis(env: Env, n: Node, id: Digest, c: nat, h: nat, e: SignedEvent)
    requires Stands(env, n, id, LedgerState(Some(c), Some(h))) && Takes(env, n, id, e)
    ensures !e.content.request.content.Create?
  {
    IntermediateExactly(env, n, e);
    ReachedNext(env, n, e, c);
  }

  /** A step short of the head leaves it and its proof alone. */
  lemma BeforeHead(env: Env, n: Node, n': Node, id: Digest, ls: LedgerState, h: nat, e: SignedEvent)
    requires Stands(env, n, id, ls) && ls.head == Some(h) && h > Wanted(ls) + 1
    requires Takes(env, n, id, e) && n' == IntermediateEvent(env, n, e).0
    ensures Stands(env, n', id, LedgerState(Some(Wanted(ls)), Some(h)))
    ensures n'.db.Get(id).lceProof == n.db.Get(id).lceProof && n'.db.Get(id).events[h] == n.db.Get(id).events[h]
  {
    match ls.currentSn
    case Some(c) =>
      OneMoreStands(env, n, n', id, c, h, e);
      TakenIsNoGenesis(env, n, id, c, h, e);
      TakenFrame(env, n, n', id, c, h, n.db.Get(id).subject.value, e);
    case None =>
      GenesisFrame(env, n, n', id, h, e);
  }

  /** Catch-up never gets onto a head with the proof of another event, whatever is sent. */
  lemma {:induction false} ClosedHeadWasCertified(env: Env, n: Node, id: Digest, ls: LedgerState, h: nat, es: seq<SignedEvent>)
    requires Stands(env, n, id, ls) && ls.head == Some(h) && Closed(env, n, id, h, es)
    ensures ProofOfEvent(env.crypto, n.db.Get(id).lceProof.value, id, n.db.Get(id).events[h].content)
    decreases |es|
  {
    var n' := IntermediateEvent(env, n, es[0]).0;
    WantedIsMissing(env, id, n.At(id));
    if h == Wanted(ls) + 1 {
      OntoHead(env, n, id, ls, h, es[0]);
    } else {
      BeforeHead(env, n, n', id, ls, h, es[0]);
      ClosedHeadWasCertified(env, n', id, LedgerState(Some(Wanted(ls)), Some(h)), h, es[1..]);
    }
  }

  /** The certificate of any event admits any later one. A transfer with its flags in order, further on than the next sn, is
      made the head of a replica that is up to date, or unknown, with a certified proof of something else; and no
      catch-up ever gets there. */
  lemma UnrelatedCertificateBlocks(env: Env, n: Node, id: Digest, e: SignedEvent, sigs: set<Signature>, proof: Proof)
    requires e.content.request.content.Transfer? && e.content.request.content.subjectId == id && CheckTransfer(e.content).Accepted?
    requires SignaturesOk(env.crypto, e) && env.crypto.hashRequest(e.content.request) !in n.db.requests
    requires Inv(env, id, n.At(id)) && Recorded(env, n, id)
    requires match n.StateOf(id)
             case None => e.content.sn >= 1 && proof.schemaId != "governance"
             case Some(LedgerState(c, head)) =>
               c.Some? && head.None? && e.content.sn >= c.value + 2 && id in n.isGov && !n.isGov[id] && n.db.Get(id).subject.value.active
    requires Certified(env, sigs, proof) && !ProofOfEvent(env.crypto, proof, id, e.content)
    ensures var (n', r) := ExternalEvent(env, n, e, sigs, proof, true);
      && r.Accepted? && n'.StateOf(id).Some? && n'.states[id].head == Some(e.content.sn)
      && Inv(env, id, n'.At(id)) && !CanClose(env, n', id, e.content.sn)
  {
    var n' := ExternalEvent(env, n, e, sigs, proof, true).0;
    var h := e.content.sn;
    ExternalKeepsIff(env, n, e, sigs, proof, true);
    if CanClose(env, n', id, h) {
      var es :| Closed(env, n', id, h, es);
      ClosedHeadWasCertified(env, n', id, n'.states[id], h, es);
    }
  }

  lemma NotWantedIsRefused(env: Env, n: Node, id: Digest, c: nat, h: nat, e: SignedEvent)
    requires n.StateOf(id) == Some(LedgerState(Some(c), Some(h))) && SubjectIdOf(env.crypto, e.content) == id
    requires e.content.sn != c + 1
    ensures IntermediateEvent(env, n, e).0 == n && !IntermediateEvent(env, n, e).1.Accepted?
  {
    RefusedBeforeStore(env, n, e);
  }

  /** A linked event that is not of the head's ancestry, once taken, ends catch-up for good: the true event is refused
      from then on, and nothing can close the gap. */
  lemma ForgeryBlocks(env: Env, n: Node, n': Node, id: Digest, chain: map<nat, SignedEvent>, c: nat, h: nat, forged: SignedEvent)
    requires CollisionFree(env.crypto) && Stands(env, n, id, LedgerState(Some(c), Some(h))) && Ancestry(env, n, id, chain, h)
    requires h > c + 2 && c + 1 in chain && chain[c + 1].content.sn == c + 1 && SubjectIdOf(env.crypto, chain[c + 1].content) == id
    requires Takes(env, n, id, forged) && forged.content != chain[c + 1].content && n' == IntermediateEvent(env, n, forged).0
    ensures !IntermediateEvent(env, n', chain[c + 1]).1.Accepted? && IntermediateEvent(env, n', chain[c + 1]).0 == n'
    ensures !CanClose(env, n', id, h)
  {
    OneMoreStands(env, n, n', id, c, h, forged);
    NotWantedIsRefused(env, n', id, c + 1, h, chain[c + 1]);
    OffAncestryNeverCloses(env, n', id, chain, c + 1, h);
  }

  // ---- from nothing but the head ----

  /** Event 0 of the chain passes whatever is checked of it, and its request is not a later event's. */
  ghost predicate GenesisAdmissible(env: Env, requests: set<Digest>, chain: map<nat, SignedEvent>, id: Digest, h: nat) {
    && 0 in chain
    && var e := chain[0];
    && e.content.sn == 0 && MayCreate(env, e.content, id)
    && SubjectIdOf(env.crypto, e.content) == id && e.content.subjectId == id
    && SignaturesOk(env.crypto, e) && env.crypto.hashRequest(e.content.request) !in requests
    && forall j :: 1 <= j < h && j in chain ==>
         env.crypto.hashRequest(chain[j].content.request) != env.crypto.hashRequest(e.content.request)
  }

  /** A replica that has nothing but a head, and a chain to it of which nothing but links could stop an event. */
  ghost predicate AtStart(env: Env, n: Node, id: Digest, chain: map<nat, SignedEvent>, h: nat) {
    && Stands(env, n, id, LedgerState(None, Some(h))) && h >= 1 && Ancestry(env, n, id, chain, h)
    && GenesisAdmissible(env, n.db.requests, chain, id, h)
    && Admissible(env, n.db, n.db.Get(id).lceProof, chain, id, 1, h)
  }

  lemma GenesisIsReplay(env: Env, chain: map<nat, SignedEvent>, h: nat)
    requires Replay(env, chain, h).Some?
    ensures 0 in chain && chain[0].content.request.content.Create?
    ensures var e := chain[0].content;
      var start := e.request.content.start;
      var v := env.gov.initState(start.governanceId, start.schemaId, e.govVersion);
      v.Some? && Replay(env, chain, 0) == Some(FromGenesisEvent(env.crypto, e, v.value, None))
  {
    ReplayDefinedBelow(env, chain, h, 0);
  }

  lemma GenesisIsTaken(env: Env, n: Node, id: Digest, chain: map<nat, SignedEvent>, h: nat)
    requires AtStart(env, n, id, chain, h)
    ensures 0 in chain && Takes(env, n, id, chain[0])
  {
    GenesisIsReplay(env, chain, h);
    if h == 1 {
      var s := Replay(env, chain, 0).value;
      var head := n.db.Get(id).events[1].content;
      assert LinkedAt(env.crypto, chain, 1) && s.Public() == s;
      EffectFollows(env, n.db, s, head);
    }
    FittingIsTaken(env, n, id, chain[0]);
  }

  lemma GenesisFrame(env: Env, n: Node, n': Node, id: Digest, h: nat, e: SignedEvent)
    requires Stands(env, n, id, LedgerState(None, Some(h))) && h > 1 && Takes(env, n, id, e) && n' == IntermediateEvent(env, n, e).0
    ensures Stands(env, n', id, LedgerState(Some(0), Some(h))) && n'.db.Get(id).events == n.db.Get(id).events[0 := e]
    ensures n'.db.requests == n.db.requests + {env.crypto.hashRequest(e.content.request)}
    ensures n'.db.keys == n.db.keys && n'.db.Get(id).lceProof == n.db.Get(id).lceProof
  {
    IntermediateKeeps(env, n, e);
    IntermediateExactly(env, n, e);
    ReachedGenesis(env, n, e);
  }

  lemma GenesisOnTrack(env: Env, n: Node, n': Node, id: Digest, chain: map<nat, SignedEvent>, h: nat)
    requires AtStart(env, n, id, chain, h) && h > 1
    requires 0 in chain && Takes(env, n, id, chain[0]) && n' == IntermediateEvent(env, n, chain[0]).0
    ensures OnTrack(env, n', id, chain, 0, h)
  {
    GenesisFrame(env, n, n', id, h, chain[0]);
    forall j | 1 <= j < h ensures EventAdmissible(env, n'.db.requests, chain, id, j) {
      assert EventAdmissible(env, n.db.requests, chain, id, j);
    }
  }

  lemma AllFromStart(env: Env, n: Node, id: Digest, chain: map<nat, SignedEvent>, h: nat)
    requires AtStart(env, n, id, chain, h)
    ensures TakesMissing(env, n, id, chain, 0, h)
  {
    GenesisIsTaken(env, n, id, chain, h);
    var n' := IntermediateEvent(env, n, chain[0]).0;
    if h > 1 {
      GenesisOnTrack(env, n, n', id, chain, h);
      AncestryIsTaken(env, n', id, chain, 0, h);
    }
    OneFirst(env, n, n', id, chain, 0, h);
  }

  /** An event with the content of the chain's first, once taken, shows that to be admissible by itself. */
  lemma GenesisTells(env: Env, n: Node, id: Digest, chain: map<nat, SignedEvent>, h: nat, e: SignedEvent)
    requires Stands(env, n, id, LedgerState(None, Some(h))) && Takes(env, n, id, e)
    requires 0 in chain && e.content == chain[0].content && SignaturesOk(env.crypto, chain[0])
    ensures GenesisAdmissible(env, n.db.requests, chain, id, 0)
    ensures Replay(env, chain, 0).Some?
    ensures h == 1 ==> HeadFollows(env, n.db, n.db.Get(id), Replay(env, chain, 0).value, e.content, 1)
  {
    IntermediateExactly(env, n, e);
  }

  /** The head is at 1 and genesis closed the gap. */
  lemma ClosedByGenesis(env: Env, n: Node, id: Digest, chain: map<nat, SignedEvent>, e: SignedEvent)
    requires CollisionFree(env.crypto) && Stands(env, n, id, LedgerState(None, Some(1))) && Ancestry(env, n, id, chain, 1)
    requires SignedBetween(env.crypto, chain, 0, 1) && Takes(env, n, id, e)
    ensures AtStart(env, n, id, chain, 1)
  {
    IntermediateKeeps(env, n, e);
    assert LinkedAt(env.crypto, chain, 1);
    OneHistory(env.crypto, IntermediateEvent(env, n, e).0.db.Get(id).events, chain, 1);
    GenesisTells(env, n, id, chain, 1, e);
    var s := Replay(env, chain, 0).value;
    assert s.Public() == s;
    FollowedIsAdmissible(env, n.db, n.db.Get(id), id, chain, 1, s);
  }

  lemma GenesisBack(env: Env, n: Node, n': Node, id: Digest, chain: map<nat, SignedEvent>, h: nat, e: SignedEvent)
    requires Stands(env, n, id, LedgerState(None, Some(h))) && h > 1 && Ancestry(env, n, id, chain, h)
    requires SignedBetween(env.crypto, chain, 0, h) && Takes(env, n, id, e) && n' == IntermediateEvent(env, n, e).0
    requires SameContents(n'.db.Get(id).events, chain, 0) && Admissible(env, n'.db, n'.db.Get(id).lceProof, chain, id, 1, h)
    ensures AtStart(env, n, id, chain, h)
  {
    GenesisFrame(env, n, n', id, h, e);
    GenesisTells(env, n, id, chain, h, e);
    forall j | 1 <= j < h
      ensures EventAdmissible(env, n.db.requests, chain, id, j)
      ensures env.crypto.hashRequest(chain[j].content.request) != env.crypto.hashRequest(e.content.request)
    {
      assert EventAdmissible(env, n'.db.requests, chain, id, j);
    }
  }

  /** What closed the gap from nothing shows the whole chain admissible. */
  lemma ClosedFromNothing(env: Env, n: Node, id: Digest, chain: map<nat, SignedEvent>, h: nat, es: seq<SignedEvent>)
    requires CollisionFree(env.crypto) && Stands(env, n, id, LedgerState(None, Some(h))) && Ancestry(env, n, id, chain, h)
    requires SignedBetween(env.crypto, chain, 0, h) && Closed(env, n, id, h, es)
    ensures h >= 1 && AtStart(env, n, id, chain, h)
  {
    var e, n' := es[0], IntermediateEvent(env, n, es[0]).0;
    if h == 1 {
      ClosedByGenesis(env, n, id, chain, e);
    } else {
      GenesisFrame(env, n, n', id, h, e);
      ClosedIsAdmissible(env, n', id, chain, 0, h, es[1..]);
      GenesisBack(env, n, n', id, chain, h, e);
    }
  }

  /** A node that holds nothing but a head can reach it exactly when the head's whole ancestry is admissible and the proof
      that came with the head is of the head. */
  lemma FromNothingCloses(env: Env, n: Node, id: Digest, chain: map<nat, SignedEvent>, h: nat)
    requires CollisionFree(env.crypto) && Stands(env, n, id, LedgerState(None, Some(h))) && Ancestry(env, n, id, chain, h)
    requires SignedBetween(env.crypto, chain, 0, h)
    ensures h >= 1
    ensures CanClose(env, n, id, h) <==>
            && GenesisAdmissible(env, n.db.requests, chain, id, h)
            && Admissible(env, n.db, n.db.Get(id).lceProof, chain, id, 1, h)
  {
    if AtStart(env, n, id, chain, h) {
      AllFromStart(env, n, id, chain, h);
      MissingClose(env, n, id, LedgerState(None, Some(h)), chain, h);
    }
    if CanClose(env, n, id, h) {
      var es :| Closed(env, n, id, h, es);
      ClosedFromNothing(env, n, id, chain, h, es);
    }
  }
}
