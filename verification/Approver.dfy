/** The approver: the states of a request and the two indexes over the pending ones. */
module Approver {
  import opened Protocol
  import C = Completer
  import Q = Quorum

  datatype ApprovalState = Pending | RespondedAccepted | RespondedRejected | Obsolete

  datatype Entity = Entity(
    request: ApprovalRequest, response: Option<C.SignedApproval>, state: ApprovalState, sender: Key)
  {
    predicate Answered() {
      state.RespondedAccepted? || state.RespondedRejected?
    }
  }

  type Entities = map<Digest, Entity>

  datatype Votation = Normal | AlwaysAccept | AlwaysReject

  /** sign: this node's own signature on a response. */
  datatype Config = Config(crypto: Crypto, sign: ApprovalResponse -> Signature, votation: Votation)

  /** The stored entities and, for a subject and for a governance, the ids filed under it. */
  datatype Desk = Desk(
    approvals: Entities, bySubject: map<Digest, set<Digest>>, byGovernance: map<Digest, set<Digest>>)

  const EMPTY := Desk(map[], map[], map[])

  datatype ApprovalError =
    | RequestAlreadyKnown | RequestNotFound | RequestAlreadyResponded | PreviousEventDetected | GovernanceUnknown
    | OurGovIsHigher | OurGovIsLower | UnexpectedRequestType | MoreRequestThanMaxAllowed

  datatype Answer = Vote(response: C.SignedApproval, to: Key) | Waiting | Refused(error: ApprovalError)

  /** `subject_id_by_request`; only facts and creations have one. */
  function SubjectOf(c: Crypto, r: ApprovalRequest): Option<Digest> {
    match r.request.content
    case Fact(id, _) => Some(id)
    case Create(start) => Some(c.GenerateSubjectId(start, r.govVersion))
    case _ => Option.None
  }

  predicate IsPending(es: Entities, id: Digest) {
    id in es && es[id].state.Pending?
  }

  function PendingIn(es: Entities, ids: set<Digest>): set<Digest> {
    set id | id in ids && IsPending(es, id)
  }

  function Filed(index: map<Digest, set<Digest>>, key: Digest, id: Digest): map<Digest, set<Digest>> {
    index[key := C.SetAt(index, key) + {id}]
  }

  function Unfiled(index: map<Digest, set<Digest>>, key: Digest, id: Digest): map<Digest, set<Digest>> {
    index[key := C.SetAt(index, key) - {id}]
  }

  /** `get_approvals_by_subject`: what is no longer pending is dropped from the index on the way. */
  function PruneSubject(d: Desk, subject: Digest): Desk {
    d.(bySubject := d.bySubject[subject := PendingIn(d.approvals, C.SetAt(d.bySubject, subject))])
  }

  function PruneGovernance(d: Desk, governance: Digest): Desk {
    d.(byGovernance := d.byGovernance[governance := PendingIn(d.approvals, C.SetAt(d.byGovernance, governance))])
  }

  // ---- votes ----

  function AnsweredEntity(cfg: Config, e: Entity, id: Digest, acceptance: bool): Entity {
    var response := ApprovalResponse(id, acceptance);
    e.(state := if acceptance then RespondedAccepted else RespondedRejected,
       response := Some(C.SignedApproval(response, cfg.sign(response))))
  }

  /** `generate_vote`. */
  function GenerateVote(cfg: Config, d: Desk, id: Digest, acceptance: bool): (Desk, Answer) {
    if id !in d.approvals then (d, Refused(RequestNotFound))
    else
      var e := d.approvals[id];
      if e.Answered() then (d, Refused(RequestAlreadyResponded))
      else
        match SubjectOf(cfg.crypto, e.request)
        case None => (d, Refused(UnexpectedRequestType))
        case Some(subject) =>
          var answered := AnsweredEntity(cfg, e, id, acceptance);
          (Desk(d.approvals[id := answered], Unfiled(d.bySubject, subject, id), Unfiled(d.byGovernance, e.request.govId, id)),
           Vote(answered.response.value, e.sender))
  }

  // ---- requests ----

  function NewRequest(cfg: Config, d: Desk, id: Digest, subject: Digest, request: ApprovalRequest, sender: Key): (Desk, Answer) {
    var d' := Desk(d.approvals[id := Entity(request, Option.None, Pending, sender)], Filed(d.bySubject, subject, id),
      if request.govId == NoDigest then d.byGovernance else Filed(d.byGovernance, request.govId, id));
    match cfg.votation
    case Normal => (d', Waiting)
    case AlwaysAccept => GenerateVote(cfg, d', id, true)
    case AlwaysReject => GenerateVote(cfg, d', id, false)
  }

  /** A pending request of this subject is for the same event or a later one. */
  predicate PreviousDetected(es: Entities, queue: set<Digest>, sn: nat) {
    exists q :: q in queue && q in es && sn <= es[q].request.sn
  }

  /** `process_approval_request`; live is governance's present version. */
  function ProcessRequest(cfg: Config, d: Desk, request: ApprovalRequest, sender: Key, live: Option<nat>): (Desk, Answer) {
    var id := cfg.crypto.hashApproval(request);
    if id in d.approvals then
      var e := d.approvals[id];
      if e.response.Some? && e.Answered() then (d, Vote(e.response.value, e.sender))
      else (d, Refused(RequestAlreadyKnown))
    else
      match SubjectOf(cfg.crypto, request)
      case None => (d, Refused(UnexpectedRequestType))
      case Some(subject) =>
        var queue := PendingIn(d.approvals, C.SetAt(d.bySubject, subject));
        var pruned := PruneSubject(d, subject);
        if |queue| > 1 then (pruned, Refused(MoreRequestThanMaxAllowed))
        else if PreviousDetected(d.approvals, queue, request.sn) then (pruned, Refused(PreviousEventDetected))
        else if live.None? then (pruned, Refused(GovernanceUnknown))
        else if live.value > request.govVersion then (pruned, Refused(OurGovIsHigher))
        else if live.value < request.govVersion then (pruned, Refused(OurGovIsLower))
        else NewRequest(cfg, pruned, id, subject, request, sender)
  }

  // ---- a new governance version, and an event that makes a request obsolete ----

  /** The subjects' indexes without these ids, each under its own subject. */
  function WithoutAffected(c: Crypto, d: Desk, affected: set<Digest>): map<Digest, set<Digest>>
    requires affected <= d.approvals.Keys
  {
    map k | k in d.bySubject ::
      set id | id in d.bySubject[k] && !(id in affected && SubjectOf(c, d.approvals[id].request) == Some(k))
  }

  /** `new_governance_version`: the pending requests of this governance are deleted. */
  function NewGovernanceVersion(c: Crypto, d: Desk, governance: Digest): Desk {
    var affected := PendingIn(d.approvals, C.SetAt(d.byGovernance, governance));
    Desk(d.approvals - affected, WithoutAffected(c, d, affected), d.byGovernance[governance := {}])
  }

  /** What the ledger does to the request of an event it has stored. */
  function MakeObsolete(d: Desk, id: Digest): Desk {
    if IsPending(d.approvals, id) then d.(approvals := d.approvals[id := d.approvals[id].(state := Obsolete)]) else d
  }

  // ---- the invariant ----

  ghost predicate EntityOk(cfg: Config, id: Digest, e: Entity) {
    && cfg.crypto.hashApproval(e.request) == id
    && SubjectOf(cfg.crypto, e.request).Some?
    && (e.Answered() <==> e.response.Some?)
    && (e.Answered() ==>
          e.response.value.content == ApprovalResponse(id, e.state.RespondedAccepted?)
          && e.response.value.signature == cfg.sign(e.response.value.content))
  }

  type Index = map<Digest, set<Digest>>
  type KeyOf = ApprovalRequest -> Digest

  /** Whatever is filed is filed under its own key, stored, and not answered; every pending request with a key
      can be found under it. */
  ghost predicate IndexOk(es: Entities, index: Index, keyOf: KeyOf) {
    && (forall k, id :: k in index && id in index[k] ==>
          id in es && !es[id].Answered() && keyOf(es[id].request) == k)
    && (forall id :: IsPending(es, id) && keyOf(es[id].request) != NoDigest ==> id in C.SetAt(index, keyOf(es[id].request)))
  }

  ghost function SubjectKey(c: Crypto): ApprovalRequest -> Digest {
    (r: ApprovalRequest) => match SubjectOf(c, r) case Some(s) => s case None => NoDigest
  }

  ghost function GovernanceKey(): ApprovalRequest -> Digest {
    (r: ApprovalRequest) => r.govId
  }

  /** No subject has more than two pending requests. */
  ghost predicate QueuesShort(es: Entities, index: Index) {
    forall s :: |PendingIn(es, C.SetAt(index, s))| <= 2
  }

  ghost predicate DeskInv(cfg: Config, d: Desk) {
    && (forall id :: id in d.approvals ==> EntityOk(cfg, id, d.approvals[id]))
    && IndexOk(d.approvals, d.bySubject, SubjectKey(cfg.crypto))
    && IndexOk(d.approvals, d.byGovernance, GovernanceKey())
    && QueuesShort(d.approvals, d.bySubject)
  }

  // ---- single steps ----

  /** An answered request is final. */
  ghost predicate Final(before: Desk, after: Desk) {
    forall id :: id in before.approvals && before.approvals[id].Answered() ==>
      id in after.approvals && after.approvals[id] == before.approvals[id]
  }

  /** Queues that only lose members stay short. */
  lemma QueuesShrink(es: Entities, index: Index, es': Entities, index': Index)
    requires QueuesShort(es, index)
    requires forall s, id :: id in C.SetAt(index', s) && IsPending(es', id) ==> id in C.SetAt(index, s) && IsPending(es, id)
    ensures QueuesShort(es', index')
  {
    forall s ensures |PendingIn(es', C.SetAt(index', s))| <= 2 {
      Q.SubsetCardinality(PendingIn(es', C.SetAt(index', s)), PendingIn(es, C.SetAt(index, s)));
    }
  }

  lemma PruneKeeps(cfg: Config, d: Desk, subject: Digest)
    requires DeskInv(cfg, d)
    ensures DeskInv(cfg, PruneSubject(d, subject))
  {
    QueuesShrink(d.approvals, d.bySubject, d.approvals, PruneSubject(d, subject).bySubject);
  }

  lemma AnswerUnfiles(es: Entities, index: Index, keyOf: KeyOf, id: Digest, e: Entity)
    requires IndexOk(es, index, keyOf)
    requires id in es && e.Answered() && e.request == es[id].request
    ensures IndexOk(es[id := e], Unfiled(index, keyOf(e.request), id), keyOf)
  {}

  lemma VoteKeeps(cfg: Config, d: Desk, id: Digest, acceptance: bool)
    requires DeskInv(cfg, d)
    ensures var (d', a) := GenerateVote(cfg, d, id, acceptance);
      && DeskInv(cfg, d') && Final(d, d')
      && (a.Vote? ==> id in d'.approvals && d'.approvals[id].response == Some(a.response)
                      && a.response.content.apprReqHash == id)
  {
    var (d', a) := GenerateVote(cfg, d, id, acceptance);
    if a.Vote? {
      var e := d'.approvals[id];
      assert EntityOk(cfg, id, d.approvals[id]) && EntityOk(cfg, id, e);
      AnswerUnfiles(d.approvals, d.bySubject, SubjectKey(cfg.crypto), id, e);
      AnswerUnfiles(d.approvals, d.byGovernance, GovernanceKey(), id, e);
      QueuesShrink(d.approvals, d.bySubject, d'.approvals, d'.bySubject);
    }
  }

  lemma NewIsFiled(es: Entities, index: Index, keyOf: KeyOf, id: Digest, e: Entity)
    requires IndexOk(es, index, keyOf)
    requires id !in es && e.state.Pending?
    ensures IndexOk(es[id := e], Filed(index, keyOf(e.request), id), keyOf)
    ensures keyOf(e.request) == NoDigest ==> IndexOk(es[id := e], index, keyOf)
  {}

  lemma QueueGrows(es: Entities, index: Index, k: Digest, id: Digest, e: Entity)
    requires QueuesShort(es, index)
    requires id !in es && forall s :: id !in C.SetAt(index, s)
    requires |PendingIn(es, C.SetAt(index, k))| <= 1
    ensures QueuesShort(es[id := e], Filed(index, k, id))
  {
    var es', index' := es[id := e], Filed(index, k, id);
    forall s ensures |PendingIn(es', C.SetAt(index', s))| <= 2 {
      var before, after := PendingIn(es, C.SetAt(index, s)), PendingIn(es', C.SetAt(index', s));
      if s == k {
        assert after <= before + {id};
        Q.SubsetCardinality(after, before + {id});
      } else {
        assert after == before;
      }
    }
  }

  /** The desk once the request is filed as pending. */
  lemma FilingKeeps(cfg: Config, d: Desk, subject: Digest, e: Entity)
    requires DeskInv(cfg, d) && SubjectOf(cfg.crypto, e.request) == Some(subject)
    requires e.state.Pending? && e.response.None?
    requires cfg.crypto.hashApproval(e.request) !in d.approvals
    requires |PendingIn(d.approvals, C.SetAt(d.bySubject, subject))| <= 1
    ensures var id := cfg.crypto.hashApproval(e.request);
      DeskInv(cfg, Desk(d.approvals[id := e], Filed(d.bySubject, subject, id),
        if e.request.govId == NoDigest then d.byGovernance else Filed(d.byGovernance, e.request.govId, id)))
  {
    var id := cfg.crypto.hashApproval(e.request);
    assert EntityOk(cfg, id, e);
    NewIsFiled(d.approvals, d.bySubject, SubjectKey(cfg.crypto), id, e);
    NewIsFiled(d.approvals, d.byGovernance, GovernanceKey(), id, e);
    QueueGrows(d.approvals, d.bySubject, subject, id, e);
  }

  lemma NewRequestKeeps(cfg: Config, d: Desk, subject: Digest, request: ApprovalRequest, sender: Key)
    requires DeskInv(cfg, d) && SubjectOf(cfg.crypto, request) == Some(subject)
    requires cfg.crypto.hashApproval(request) !in d.approvals
    requires |PendingIn(d.approvals, C.SetAt(d.bySubject, subject))| <= 1
    ensures var id := cfg.crypto.hashApproval(request);
      var (d', a) := NewRequest(cfg, d, id, subject, request, sender);
      && DeskInv(cfg, d') && Final(d, d')
      && (a.Vote? ==> id in d'.approvals && d'.approvals[id].response == Some(a.response)
                      && a.response.content.apprReqHash == id)
  {
    var id := cfg.crypto.hashApproval(request);
    var e := Entity(request, Option.None, Pending, sender);
    var filed := Desk(d.approvals[id := e], Filed(d.bySubject, subject, id),
      if request.govId == NoDigest then d.byGovernance else Filed(d.byGovernance, request.govId, id));
    FilingKeeps(cfg, d, subject, e);
    assert Final(d, filed);
    if !cfg.votation.Normal? { VoteKeeps(cfg, filed, id, cfg.votation.AlwaysAccept?); }
  }

  /** How a request is dealt with, besides being filed as new. */
  lemma RequestShape(cfg: Config, d: Desk, request: ApprovalRequest, sender: Key, live: Option<nat>)
    ensures var id := cfg.crypto.hashApproval(request);
      var (d', a) := ProcessRequest(cfg, d, request, sender, live);
      || (d' == d && id in d.approvals && d.approvals[id].response.Some?
          && a == Vote(d.approvals[id].response.value, d.approvals[id].sender))
      || (d' == d && !a.Vote?)
      || (id !in d.approvals && SubjectOf(cfg.crypto, request).Some?
          && var subject := SubjectOf(cfg.crypto, request).value;
          && ((d' == PruneSubject(d, subject) && !a.Vote?)
              || (|PendingIn(d.approvals, C.SetAt(d.bySubject, subject))| <= 1
                  && (d', a) == NewRequest(cfg, PruneSubject(d, subject), id, subject, request, sender))))
  {}

  lemma RequestKeeps(cfg: Config, d: Desk, request: ApprovalRequest, sender: Key, live: Option<nat>)
    requires DeskInv(cfg, d)
    ensures var id := cfg.crypto.hashApproval(request);
      var (d', a) := ProcessRequest(cfg, d, request, sender, live);
      && DeskInv(cfg, d') && Final(d, d')
      && (a.Vote? ==> id in d'.approvals && d'.approvals[id].response == Some(a.response)
                      && a.response.content.apprReqHash == id)
  {
    var id := cfg.crypto.hashApproval(request);
    RequestShape(cfg, d, request, sender, live);
    if id in d.approvals {
      assert EntityOk(cfg, id, d.approvals[id]);
    } else if SubjectOf(cfg.crypto, request).Some? {
      var subject := SubjectOf(cfg.crypto, request).value;
      var pruned := PruneSubject(d, subject);
      PruneKeeps(cfg, d, subject);
      var queue := PendingIn(d.approvals, C.SetAt(d.bySubject, subject));
      assert PendingIn(pruned.approvals, C.SetAt(pruned.bySubject, subject)) == queue;
      if |queue| <= 1 { NewRequestKeeps(cfg, pruned, subject, request, sender); }
    }
  }

  lemma ObsoleteStaysFiled(es: Entities, index: Index, keyOf: KeyOf, id: Digest)
    requires IndexOk(es, index, keyOf) && IsPending(es, id)
    ensures IndexOk(es[id := es[id].(state := Obsolete)], index, keyOf)
  {
    var es' := es[id := es[id].(state := Obsolete)];
    forall i | IsPending(es', i) && keyOf(es'[i].request) != NoDigest ensures i in C.SetAt(index, keyOf(es'[i].request)) {
      assert IsPending(es, i);
    }
  }

  lemma ObsoleteKeeps(cfg: Config, d: Desk, id: Digest)
    requires DeskInv(cfg, d)
    ensures DeskInv(cfg, MakeObsolete(d, id)) && Final(d, MakeObsolete(d, id))
  {
    if IsPending(d.approvals, id) {
      ObsoleteStaysFiled(d.approvals, d.bySubject, SubjectKey(cfg.crypto), id);
      ObsoleteStaysFiled(d.approvals, d.byGovernance, GovernanceKey(), id);
      QueuesShrink(d.approvals, d.bySubject, MakeObsolete(d, id).approvals, d.bySubject);
      assert EntityOk(cfg, id, d.approvals[id]);
    }
  }

  /** Between the two indexes, under this key, this id: what leaves is affected or not pending. */
  ghost predicate Leaves(es: Entities, affected: set<Digest>, index: Index, index': Index, k: Digest, id: Digest) {
    && (id in C.SetAt(index', k) ==> id in C.SetAt(index, k) && id !in affected)
    && (id in C.SetAt(index, k) && IsPending(es, id) && id !in affected ==> id in C.SetAt(index', k))
  }

  lemma AffectedLeave(es: Entities, index: Index, keyOf: KeyOf, affected: set<Digest>, index': Index)
    requires IndexOk(es, index, keyOf)
    requires forall k, id :: Leaves(es, affected, index, index', k, id)
    ensures IndexOk(es - affected, index', keyOf)
  {
    forall id | IsPending(es - affected, id) && keyOf((es - affected)[id].request) != NoDigest
      ensures id in C.SetAt(index', keyOf((es - affected)[id].request))
    {
      assert IsPending(es, id);
      assert Leaves(es, affected, index, index', keyOf(es[id].request), id);
    }
    forall k, id | k in index' && id in index'[k]
      ensures id in es - affected && !(es - affected)[id].Answered() && keyOf((es - affected)[id].request) == k
    {
      assert Leaves(es, affected, index, index', k, id);
    }
  }

  lemma NewVersionIndexes(cfg: Config, d: Desk, governance: Digest)
    requires DeskInv(cfg, d)
    ensures var affected := PendingIn(d.approvals, C.SetAt(d.byGovernance, governance));
      && IndexOk(d.approvals - affected, WithoutAffected(cfg.crypto, d, affected), SubjectKey(cfg.crypto))
      && IndexOk(d.approvals - affected, d.byGovernance[governance := {}], GovernanceKey())
  {
    var affected := PendingIn(d.approvals, C.SetAt(d.byGovernance, governance));
    var index' := WithoutAffected(cfg.crypto, d, affected);
    forall k, id ensures Leaves(d.approvals, affected, d.bySubject, index', k, id) {
      if id in C.SetAt(d.bySubject, k) && id in affected {
        assert EntityOk(cfg, id, d.approvals[id]);
        assert SubjectKey(cfg.crypto)(d.approvals[id].request) == k;
      }
    }
    AffectedLeave(d.approvals, d.bySubject, SubjectKey(cfg.crypto), affected, index');
    var emptied := d.byGovernance[governance := {}];
    forall k, id ensures Leaves(d.approvals, affected, d.byGovernance, emptied, k, id) {
      if id in C.SetAt(d.byGovernance, k) && id in affected {
        assert GovernanceKey()(d.approvals[id].request) == k == governance;
      }
    }
    AffectedLeave(d.approvals, d.byGovernance, GovernanceKey(), affected, emptied);
  }

  /** A new version deletes exactly the pending requests of its governance. */
  lemma NewVersionKeeps(cfg: Config, d: Desk, governance: Digest)
    requires DeskInv(cfg, d)
    ensures var d' := NewGovernanceVersion(cfg.crypto, d, governance);
      && DeskInv(cfg, d') && Final(d, d')
      && (governance != NoDigest ==> forall id :: id in d.approvals ==>
           (id in d'.approvals <==> !(d.approvals[id].state.Pending? && d.approvals[id].request.govId == governance)))
  {
    var affected := PendingIn(d.approvals, C.SetAt(d.byGovernance, governance));
    var d' := NewGovernanceVersion(cfg.crypto, d, governance);
    NewVersionIndexes(cfg, d, governance);
    QueuesShrink(d.approvals, d.bySubject, d'.approvals, d'.bySubject);
    forall id | id in d.approvals && governance != NoDigest
      ensures id in affected <==> d.approvals[id].state.Pending? && d.approvals[id].request.govId == governance
    {
      assert IsPending(d.approvals, id) <==> d.approvals[id].state.Pending?;
      assert GovernanceKey()(d.approvals[id].request) == d.approvals[id].request.govId;
    }
  }

  // ---- runs ----

  datatype Message =
    | Request(request: ApprovalRequest, sender: Key, live: Option<nat>)
    | UserVote(id: Digest, acceptance: bool)
    | NewVersion(governance: Digest)
    | EventStored(id: Digest)

  function Step(cfg: Config, d: Desk, m: Message): (Desk, Answer) {
    match m
    case Request(request, sender, live) => ProcessRequest(cfg, d, request, sender, live)
    case UserVote(id, acceptance) => GenerateVote(cfg, d, id, acceptance)
    case NewVersion(governance) => (NewGovernanceVersion(cfg.crypto, d, governance), Waiting)
    case EventStored(id) => (MakeObsolete(d, id), Waiting)
  }

  /** A step keeps the invariant and every answer given before, and what it answers is what it has stored. */
  lemma StepKeeps(cfg: Config, d: Desk, m: Message)
    requires DeskInv(cfg, d)
    ensures var (d', a) := Step(cfg, d, m);
      && DeskInv(cfg, d') && Final(d, d')
      && (a.Vote? ==> var id := a.response.content.apprReqHash;
            id in d'.approvals && d'.approvals[id].response == Some(a.response))
  {
    match m
    case Request(request, sender, live) => RequestKeeps(cfg, d, request, sender, live);
    case UserVote(id, acceptance) => VoteKeeps(cfg, d, id, acceptance);
    case NewVersion(governance) => NewVersionKeeps(cfg, d, governance);
    case EventStored(id) => ObsoleteKeeps(cfg, d, id);
  }

  function Run(cfg: Config, d: Desk, ms: seq<Message>): Desk
    decreases |ms|
  {
    if ms == [] then d else Run(cfg, Step(cfg, d, ms[0]).0, ms[1..])
  }

  function ResponseIn(a: Answer): set<C.SignedApproval> {
    match a
    case Vote(response, _) => {response}
    case _ => {}
  }

  /** Every response this node gives out over a run, the repeated ones included. */
  function Given(cfg: Config, d: Desk, ms: seq<Message>): set<C.SignedApproval>
    decreases |ms|
  {
    if ms == [] then {} else ResponseIn(Step(cfg, d, ms[0]).1) + Given(cfg, Step(cfg, d, ms[0]).0, ms[1..])
  }

  /** Each given response is the stored one, and stays. */
  ghost predicate StoredIn(d: Desk, responses: set<C.SignedApproval>) {
    forall r :: r in responses ==>
      r.content.apprReqHash in d.approvals && d.approvals[r.content.apprReqHash].response == Some(r)
  }

  lemma StoredStays(cfg: Config, d: Desk, m: Message, r: C.SignedApproval)
    requires DeskInv(cfg, d) && StoredIn(d, {r})
    ensures StoredIn(Step(cfg, d, m).0, {r})
  {
    StepKeeps(cfg, d, m);
    assert r in {r};
    assert EntityOk(cfg, r.content.apprReqHash, d.approvals[r.content.apprReqHash]);
  }

  lemma {:induction false} RunKeeps(cfg: Config, d: Desk, ms: seq<Message>)
    requires DeskInv(cfg, d)
    ensures DeskInv(cfg, Run(cfg, d, ms)) && StoredIn(Run(cfg, d, ms), Given(cfg, d, ms))
    decreases |ms|
  {
    if ms != [] {
      StepKeeps(cfg, d, ms[0]);
      RunKeeps(cfg, Step(cfg, d, ms[0]).0, ms[1..]);
      forall r | r in ResponseIn(Step(cfg, d, ms[0]).1) ensures StoredIn(Run(cfg, d, ms), {r}) {
        StaysThroughout(cfg, Step(cfg, d, ms[0]).0, ms[1..], r);
      }
      forall r | r in Given(cfg, d, ms)
        ensures r.content.apprReqHash in Run(cfg, d, ms).approvals
             && Run(cfg, d, ms).approvals[r.content.apprReqHash].response == Some(r)
      {
        if r in ResponseIn(Step(cfg, d, ms[0]).1) { assert r in {r} && StoredIn(Run(cfg, d, ms), {r}); }
      }
    }
  }

  lemma {:induction false} StaysThroughout(cfg: Config, d: Desk, ms: seq<Message>, r: C.SignedApproval)
    requires DeskInv(cfg, d) && StoredIn(d, {r})
    ensures StoredIn(Run(cfg, d, ms), {r})
    decreases |ms|
  {
    if ms != [] {
      StepKeeps(cfg, d, ms[0]);
      StoredStays(cfg, d, ms[0], r);
      StaysThroughout(cfg, Step(cfg, d, ms[0]).0, ms[1..], r);
    }
  }

  /** An approver answers each request at most once: over any run, two responses given for one request are the same,
      whatever is asked again, voted, updated or made obsolete in between. */
  lemma AnswersOnce(cfg: Config, ms: seq<Message>, a: C.SignedApproval, b: C.SignedApproval)
    requires a in Given(cfg, EMPTY, ms) && b in Given(cfg, EMPTY, ms)
    requires a.content.apprReqHash == b.content.apprReqHash
    ensures a == b
  {
    forall s ensures PendingIn(EMPTY.approvals, C.SetAt(EMPTY.bySubject, s)) == {} {}
    RunKeeps(cfg, EMPTY, ms);
  }

  lemma TooManyPending(cfg: Config, d: Desk, request: ApprovalRequest, sender: Key, live: Option<nat>, subject: Digest)
    requires cfg.crypto.hashApproval(request) !in d.approvals && SubjectOf(cfg.crypto, request) == Some(subject)
    ensures ProcessRequest(cfg, d, request, sender, live).1 == Refused(MoreRequestThanMaxAllowed)
            <==> |PendingIn(d.approvals, C.SetAt(d.bySubject, subject))| > 1
  {}

  /** A subject with two pending requests takes no third one, whatever its sn. */
  lemma TwoPendingBlock(cfg: Config, d: Desk, request: ApprovalRequest, sender: Key, live: Option<nat>)
    requires cfg.crypto.hashApproval(request) !in d.approvals && SubjectOf(cfg.crypto, request).Some?
    requires DeskInv(cfg, d)
    ensures var queue := PendingIn(d.approvals, C.SetAt(d.bySubject, SubjectOf(cfg.crypto, request).value));
      ProcessRequest(cfg, d, request, sender, live).1 == Refused(MoreRequestThanMaxAllowed) <==> |queue| == 2
  {
    TooManyPending(cfg, d, request, sender, live, SubjectOf(cfg.crypto, request).value);
    assert QueuesShort(d.approvals, d.bySubject);
  }
}
