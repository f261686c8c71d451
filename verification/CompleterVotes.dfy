/** The approval stage is decisive and ends, whatever the order of the votes. */
module CompleterVotes {
  import opened Protocol
  import opened Subjects
  import opened Quorum
  import opened Verify
  import opened Store
  import opened LedgerSteps
  import opened Completer

  function VotersOf(vs: set<SignedApproval>): set<Key> {
    set v | v in vs :: v.signature.signer
  }

  /** One vote a signer. */
  ghost predicate OneEach(vs: set<SignedApproval>) {
    forall v, w :: v in vs && w in vs && v.signature.signer == w.signature.signer ==> v == w
  }

  lemma VotersCount(vs: set<SignedApproval>)
    requires OneEach(vs)
    ensures |VotersOf(vs)| == |vs|
  {
    var f := (v: SignedApproval) => v.signature.signer;
    ImageSize(vs, f);
    assert VotersOf(vs) == Image(vs, f);
  }

  lemma YesAndNo(vs: set<SignedApproval>)
    ensures |VotesFor(vs, true)| + |VotesFor(vs, false)| == |vs|
  {
    assert VotesFor(vs, true) + VotesFor(vs, false) == vs;
    assert VotesFor(vs, true) * VotesFor(vs, false) == {};
  }

  /** The votes cast and those still asked make up the approvers, and neither quorum is reached. */
  ghost predicate Balanced(ph: Phase, vs: set<SignedApproval>, approvers: set<Key>, q: nat) {
    && 1 <= q <= |approvers|
    && ph.stage.Approve? && ph.quorum == q && ph.negQuorum == NegativeQuorum(|approvers|, q)
    && OneEach(vs)
    && VotersOf(vs) + ph.signers == approvers
    && VotersOf(vs) !! ph.signers
    && |VotesFor(vs, true)| < q
    && |VotesFor(vs, false)| < ph.negQuorum
  }

  /** Proposal ah of subject id is being voted on. */
  ghost predicate Open(st: Flow, id: Digest, ah: Digest, approvers: set<Key>, q: nat) {
    && ah in st.approvalRequests && ah in st.approvalEvals
    && st.approvalRequests[ah].request.content.Fact? && st.approvalRequests[ah].request.content.subjectId == id
    && id in st.completing
    && Balanced(st.completing[id], SetAt(st.approvals, ah), approvers, q)
  }

  /** While the vote is open someone is still asked. */
  lemma OpenAsksSomeone(st: Flow, id: Digest, ah: Digest, approvers: set<Key>, q: nat)
    requires Open(st, id, ah, approvers, q)
    ensures st.completing[id].signers != {}
  {
    var vs := SetAt(st.approvals, ah);
    YesAndNo(vs);
    VotersCount(vs);
    assert st.completing[id].signers == {} ==> VotersOf(vs) == approvers;
  }

  /** Nothing but the votes can stand in the way of an event being built. */
  ghost predicate CanBuild(env: Env, db: Db, live: Option<nat>, id: Digest) {
    && live.Some?
    && db.Get(id).subject.Some?
    && var s := db.Get(id).subject.value;
    && s.keys.Some? && s.sn in db.Get(id).certs
    && StageOf(env.gov, MetadataOf(s, id, live.value), Validate).Some?
  }

  /** A vote of someone asked, really signed. */
  ghost predicate Counts(env: Env, st: Flow, id: Digest, ah: Digest, m: SignedApproval) {
    && id in st.completing && m.signature.signer in st.completing[id].signers
    && m.content.apprReqHash == ah
    && env.crypto.verifies(m.signature, OfApproval(m.content))
  }

  /** The vote is over: an event with this answer is being validated, and proposal and request are gone. */
  ghost predicate Closed(st: Flow, id: Digest, ah: Digest, approved: bool) {
    && ah !in st.approvalRequests && id !in st.requests
    && id in st.completing && st.completing[id].stage.Validate?
    && id in st.prevalidated && st.prevalidated[id].approved == approved
  }

  lemma NewVote(vs: set<SignedApproval>, m: SignedApproval)
    requires OneEach(vs) && m.signature.signer !in VotersOf(vs)
    ensures ReplacedVote(vs, m) == vs + {m} && OneEach(vs + {m})
    ensures VotersOf(vs + {m}) == VotersOf(vs) + {m.signature.signer}
    ensures VotesFor(vs + {m}, m.content.approved) == VotesFor(vs, m.content.approved) + {m}
    ensures VotesFor(vs + {m}, !m.content.approved) == VotesFor(vs, !m.content.approved)
    ensures m !in VotesFor(vs, m.content.approved)
  {
    forall v | v in vs ensures v.signature.signer != m.signature.signer { assert v.signature.signer in VotersOf(vs); }
  }

  lemma VoteCloses(env: Env, db: Db, live: Option<nat>, st: Flow, id: Digest, ah: Digest, m: SignedApproval)
    requires CanBuild(env, db, live, id) && Counts(env, st, id, ah, m)
    requires ah in st.approvalRequests && ah in st.approvalEvals && st.completing[id].stage.Approve?
    requires st.approvalRequests[ah].request.content.Fact? && st.approvalRequests[ah].request.content.subjectId == id
    requires var ph, vs := st.completing[id], ReplacedVote(SetAt(st.approvals, ah), m);
      |VotesFor(vs, m.content.approved)| >= (if m.content.approved then ph.quorum else ph.negQuorum)
    ensures Closed(ApproverSignatures(env, db, live, st, m).0, id, ah, m.content.approved)
  {
    assert ApprovalFault(env, db, st, m).None?;
  }

  lemma VoteWaits(env: Env, db: Db, live: Option<nat>, st: Flow, id: Digest, ah: Digest, m: SignedApproval)
    requires CanBuild(env, db, live, id) && Counts(env, st, id, ah, m)
    requires ah in st.approvalRequests && st.completing[id].stage.Approve?
    requires st.approvalRequests[ah].request.content.Fact? && st.approvalRequests[ah].request.content.subjectId == id
    requires var ph, vs := st.completing[id], ReplacedVote(SetAt(st.approvals, ah), m);
      |VotesFor(vs, m.content.approved)| < (if m.content.approved then ph.quorum else ph.negQuorum)
    ensures ApproverSignatures(env, db, live, st, m).0 ==
      st.(approvals := st.approvals[ah := ReplacedVote(SetAt(st.approvals, ah), m)],
          completing := st.completing[id := st.completing[id].(signers := st.completing[id].signers - {m.signature.signer})])
  {
    assert ApprovalFault(env, db, st, m).None?;
  }

  lemma StillBalanced(ph: Phase, vs: set<SignedApproval>, approvers: set<Key>, q: nat, m: SignedApproval)
    requires Balanced(ph, vs, approvers, q) && m.signature.signer in ph.signers
    requires |VotesFor(vs, m.content.approved)| + 1 < (if m.content.approved then q else ph.negQuorum)
    ensures Balanced(ph.(signers := ph.signers - {m.signature.signer}), vs + {m}, approvers, q)
  {
    NewVote(vs, m);
    var k := m.signature.signer;
    assert VotersOf(vs) + {k} + (ph.signers - {k}) == VotersOf(vs) + ph.signers;
    if m.content.approved { assert VotesFor(vs + {m}, false) == VotesFor(vs, false); }
    else { assert VotesFor(vs + {m}, true) == VotesFor(vs, true); }
  }

  /** Every vote that counts either closes the vote with its own answer, once that answer has its quorum, or leaves it
      open with one approver fewer to ask. */
  lemma VoteStep(env: Env, db: Db, live: Option<nat>, st: Flow, id: Digest, ah: Digest, approvers: set<Key>, q: nat,
                 m: SignedApproval)
    requires Open(st, id, ah, approvers, q) && CanBuild(env, db, live, id) && Counts(env, st, id, ah, m)
    ensures var yes := m.content.approved;
      var st' := ApproverSignatures(env, db, live, st, m).0;
      if |VotesFor(SetAt(st.approvals, ah), yes)| + 1 == (if yes then q else NegativeQuorum(|approvers|, q))
      then Closed(st', id, ah, yes)
      else Open(st', id, ah, approvers, q)
           && SetAt(st'.approvals, ah) == SetAt(st.approvals, ah) + {m}
           && st'.completing[id].signers == st.completing[id].signers - {m.signature.signer}
  {
    var yes := m.content.approved;
    if |VotesFor(SetAt(st.approvals, ah), yes)| + 1 == (if yes then q else NegativeQuorum(|approvers|, q)) {
      LastVote(env, db, live, st, id, ah, approvers, q, m);
    } else {
      OtherVote(env, db, live, st, ApproverSignatures(env, db, live, st, m).0, id, ah, approvers, q, m);
    }
  }

  lemma LastVote(env: Env, db: Db, live: Option<nat>, st: Flow, id: Digest, ah: Digest, approvers: set<Key>, q: nat,
                 m: SignedApproval)
    requires Open(st, id, ah, approvers, q) && CanBuild(env, db, live, id) && Counts(env, st, id, ah, m)
    requires var yes := m.content.approved;
      |VotesFor(SetAt(st.approvals, ah), yes)| + 1 == (if yes then q else NegativeQuorum(|approvers|, q))
    ensures Closed(ApproverSignatures(env, db, live, st, m).0, id, ah, m.content.approved)
  {
    NewVote(SetAt(st.approvals, ah), m);
    VoteCloses(env, db, live, st, id, ah, m);
  }

  lemma OtherVote(env: Env, db: Db, live: Option<nat>, st: Flow, st': Flow, id: Digest, ah: Digest, approvers: set<Key>, q: nat,
                  m: SignedApproval)
    requires Open(st, id, ah, approvers, q) && CanBuild(env, db, live, id) && Counts(env, st, id, ah, m)
    requires var yes := m.content.approved;
      |VotesFor(SetAt(st.approvals, ah), yes)| + 1 != (if yes then q else NegativeQuorum(|approvers|, q))
    requires st' == ApproverSignatures(env, db, live, st, m).0
    ensures Open(st', id, ah, approvers, q)
    ensures SetAt(st'.approvals, ah) == SetAt(st.approvals, ah) + {m}
    ensures st'.completing[id].signers == st.completing[id].signers - {m.signature.signer}
  {
    NewVote(SetAt(st.approvals, ah), m);
    VoteWaits(env, db, live, st, id, ah, m);
    StillOpen(st, st', id, ah, approvers, q, m);
  }

  lemma StillOpen(st: Flow, st': Flow, id: Digest, ah: Digest, approvers: set<Key>, q: nat, m: SignedApproval)
    requires Open(st, id, ah, approvers, q) && m.signature.signer in st.completing[id].signers
    requires var yes := m.content.approved;
      |VotesFor(SetAt(st.approvals, ah), yes)| + 1 != (if yes then q else NegativeQuorum(|approvers|, q))
    requires st' == st.(approvals := st.approvals[ah := SetAt(st.approvals, ah) + {m}],
      completing := st.completing[id := st.completing[id].(signers := st.completing[id].signers - {m.signature.signer})])
    ensures Open(st', id, ah, approvers, q)
  {
    StillBalanced(st.completing[id], SetAt(st.approvals, ah), approvers, q, m);
  }

  /** Once closed, later votes on the proposal change nothing. */
  lemma ClosedStays(env: Env, db: Db, live: Option<nat>, st: Flow, id: Digest, ah: Digest, approved: bool, m: SignedApproval)
    requires Closed(st, id, ah, approved) && m.content.apprReqHash == ah
    ensures ApproverSignatures(env, db, live, st, m).0 == st
  {}

  // ---- all the votes ----

  function VoteAll(env: Env, db: Db, live: Option<nat>, st: Flow, ms: seq<SignedApproval>): Flow
    decreases |ms|
  {
    if ms == [] then st else VoteAll(env, db, live, ApproverSignatures(env, db, live, st, ms[0]).0, ms[1..])
  }

  function Yes(ms: seq<SignedApproval>): nat {
    if ms == [] then 0 else (if ms[0].content.approved then 1 else 0) + Yes(ms[1..])
  }

  /** Votes that count, from signers all different. */
  ghost predicate Ballot(env: Env, asked: set<Key>, ah: Digest, ms: seq<SignedApproval>)
    decreases |ms|
  {
    ms == [] ||
    (&& ms[0].signature.signer in asked && ms[0].content.apprReqHash == ah
     && env.crypto.verifies(ms[0].signature, OfApproval(ms[0].content))
     && Ballot(env, asked - {ms[0].signature.signer}, ah, ms[1..]))
  }

  lemma {:induction false} BallotOnProposal(env: Env, asked: set<Key>, ah: Digest, ms: seq<SignedApproval>)
    requires Ballot(env, asked, ah, ms)
    ensures forall m :: m in ms ==> m.content.apprReqHash == ah
    decreases |ms|
  {
    if ms != [] {
      BallotOnProposal(env, asked - {ms[0].signature.signer}, ah, ms[1..]);
      assert ms == [ms[0]] + ms[1..];
    }
  }

  lemma {:induction false} ClosedThroughout(env: Env, db: Db, live: Option<nat>, st: Flow, id: Digest, ah: Digest,
                                            approved: bool, ms: seq<SignedApproval>)
    requires Closed(st, id, ah, approved) && forall m :: m in ms ==> m.content.apprReqHash == ah
    ensures VoteAll(env, db, live, st, ms) == st
    decreases |ms|
  {
    if ms != [] {
      ClosedStays(env, db, live, st, id, ah, approved, ms[0]);
      ClosedThroughout(env, db, live, st, id, ah, approved, ms[1..]);
    }
  }

  lemma {:induction false} YesAtMostAll(ms: seq<SignedApproval>)
    ensures Yes(ms) <= |ms|
  {
    if ms != [] { YesAtMostAll(ms[1..]); }
  }

  /** From an open vote: when everyone still asked has voted it is closed, approved exactly when the votes in favour,
      early and late, make the quorum. Their order does not matter. */
  lemma {:induction false} VoteDecides(env: Env, db: Db, live: Option<nat>, st: Flow, id: Digest, ah: Digest,
                                       approvers: set<Key>, q: nat, ms: seq<SignedApproval>)
    requires Open(st, id, ah, approvers, q) && CanBuild(env, db, live, id)
    requires Ballot(env, st.completing[id].signers, ah, ms) && |ms| == |st.completing[id].signers|
    ensures Closed(VoteAll(env, db, live, st, ms), id, ah, |VotesFor(SetAt(st.approvals, ah), true)| + Yes(ms) >= q)
    decreases |ms|
  {
    OpenAsksSomeone(st, id, ah, approvers, q);
    var m, yes, vs := ms[0], ms[0].content.approved, SetAt(st.approvals, ah);
    var st' := ApproverSignatures(env, db, live, st, m).0;
    VoteStep(env, db, live, st, id, ah, approvers, q, m);
    Counting(st, id, ah, approvers, q, ms);
    if |VotesFor(vs, yes)| + 1 == (if yes then q else NegativeQuorum(|approvers|, q)) {
      BallotOnProposal(env, st.completing[id].signers, ah, ms);
      ClosedThroughout(env, db, live, st', id, ah, yes, ms[1..]);
    } else {
      NewVoteFor(st, id, ah, approvers, q, m);
      VoteDecides(env, db, live, st', id, ah, approvers, q, ms[1..]);
    }
  }

  lemma NewVoteFor(st: Flow, id: Digest, ah: Digest, approvers: set<Key>, q: nat, m: SignedApproval)
    requires Open(st, id, ah, approvers, q) && m.signature.signer in st.completing[id].signers
    ensures var vs := SetAt(st.approvals, ah);
      |VotesFor(vs + {m}, true)| == |VotesFor(vs, true)| + (if m.content.approved then 1 else 0)
  {
    NewVote(SetAt(st.approvals, ah), m);
  }

  /** Votes cast and votes to come, in favour or not, are as many as the approvers. */
  lemma Counting(st: Flow, id: Digest, ah: Digest, approvers: set<Key>, q: nat, ms: seq<SignedApproval>)
    requires Open(st, id, ah, approvers, q) && |ms| == |st.completing[id].signers|
    ensures var vs := SetAt(st.approvals, ah);
      |VotesFor(vs, true)| + |VotesFor(vs, false)| + |ms| == |approvers| && Yes(ms) <= |ms|
      && (ms != [] ==> Yes(ms) == Yes(ms[1..]) + (if ms[0].content.approved then 1 else 0) && Yes(ms[1..]) <= |ms| - 1)
  {
    var vs := SetAt(st.approvals, ah);
    YesAndNo(vs);
    VotersCount(vs);
    YesAtMostAll(ms);
    if ms != [] { YesAtMostAll(ms[1..]); }
    assert |VotersOf(vs) + st.completing[id].signers| == |VotersOf(vs)| + |st.completing[id].signers|;
  }
}
