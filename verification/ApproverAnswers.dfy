/** What an approver answers, said of the request, the vote and what is stored. */
module ApproverAnswers {
  import opened Protocol
  import C = Completer
  import opened Approver

  /** Only facts and creations are voted on. */
  predicate NamesSubject(request: ApprovalRequest) {
    request.request.content.Fact? || request.request.content.Create?
  }

  /** The subject a request is filed under: the one a fact names, or the one a creation makes under the request's version. */
  lemma FiledUnder(c: Crypto, r: ApprovalRequest)
    ensures SubjectOf(c, r) ==
      match r.request.content
      case Fact(id, _) => Some(id)
      case Create(start) => Some(c.subjectId(start.namespace, start.schemaId, start.publicKey, start.governanceId, r.govVersion))
      case _ => Option.None
  {}

  /** The entity says what was answered, to the one who asked, over this node's signature. */
  predicate AnsweredWith(cfg: Config, before: Entity, after: Entity, a: Answer, id: Digest, yes: bool) {
    var content := ApprovalResponse(id, yes);
    && a == Vote(C.SignedApproval(content, cfg.sign(content)), before.sender)
    && after.request == before.request && after.sender == before.sender
    && after.response == Some(a.response)
    && (if yes then after.state.RespondedAccepted? else after.state.RespondedRejected?)
  }

  /** A user's vote is given exactly when the request is stored, unanswered and of a subject; then what is signed, sent to
      the asker and stored is that very vote, and no other entity changes. Otherwise nothing does. */
  lemma VoteIsTheUsers(cfg: Config, d: Desk, id: Digest, yes: bool)
    ensures var (d', a) := Step(cfg, d, UserVote(id, yes));
      && (a.Vote? <==> id in d.approvals && !d.approvals[id].Answered() && NamesSubject(d.approvals[id].request))
      && (a.Vote? ==> d'.approvals.Keys == d.approvals.Keys && AnsweredWith(cfg, d.approvals[id], d'.approvals[id], a, id, yes))
      && (forall k :: k in d.approvals && k != id ==> k in d'.approvals && d'.approvals[k] == d.approvals[k])
      && (!a.Vote? ==> d' == d)
  {
    if id in d.approvals { assert NamesSubject(d.approvals[id].request) <==> SubjectOf(cfg.crypto, d.approvals[id].request).Some?; }
  }

  /** The subject's pending requests, wherever they are filed. */
  function PendingOf(c: Crypto, d: Desk, subject: Digest): set<Digest> {
    set id | id in d.approvals && d.approvals[id].state.Pending? && SubjectOf(c, d.approvals[id].request) == Some(subject)
  }

  /** What the index tells of a subject are its pending requests. */
  lemma QueueIsPending(cfg: Config, d: Desk, subject: Digest)
    requires DeskInv(cfg, d) && subject != NoDigest
    ensures PendingIn(d.approvals, C.SetAt(d.bySubject, subject)) == PendingOf(cfg.crypto, d, subject)
  {
    forall id ensures id in PendingIn(d.approvals, C.SetAt(d.bySubject, subject)) <==> id in PendingOf(cfg.crypto, d, subject) {
      if id in d.approvals && IsPending(d.approvals, id) {
        assert EntityOk(cfg, id, d.approvals[id]);
        assert SubjectKey(cfg.crypto)(d.approvals[id].request) == SubjectOf(cfg.crypto, d.approvals[id].request).value;
      }
    }
  }

  lemma NothingPrevious(es: Entities, queue: set<Digest>, sn: nat)
    requires queue <= es.Keys
    ensures !PreviousDetected(es, queue, sn) <==> forall k :: k in queue ==> es[k].request.sn < sn
  {}

  predicate Timely(d: Desk, queue: set<Digest>, request: ApprovalRequest, live: Option<nat>) {
    live == Some(request.govVersion) && |queue| <= 1 && !PreviousDetected(d.approvals, queue, request.sn)
  }

  lemma TimelyIsFiled(cfg: Config, d: Desk, id: Digest, subject: Digest, request: ApprovalRequest, sender: Key, live: Option<nat>)
    requires id == cfg.crypto.hashApproval(request) && id !in d.approvals && SubjectOf(cfg.crypto, request) == Some(subject)
    ensures ProcessRequest(cfg, d, request, sender, live).0 ==
      if Timely(d, PendingIn(d.approvals, C.SetAt(d.bySubject, subject)), request, live)
      then NewRequest(cfg, PruneSubject(d, subject), id, subject, request, sender).0
      else PruneSubject(d, subject)
  {}

  lemma FiledByQueue(cfg: Config, d: Desk, request: ApprovalRequest, sender: Key, live: Option<nat>, queue: set<Digest>)
    requires cfg.crypto.hashApproval(request) !in d.approvals && NamesSubject(request)
    requires queue == PendingIn(d.approvals, C.SetAt(d.bySubject, SubjectOf(cfg.crypto, request).value))
    ensures cfg.crypto.hashApproval(request) in ProcessRequest(cfg, d, request, sender, live).0.approvals <==>
      live == Some(request.govVersion) && |queue| <= 1 && forall k :: k in queue ==> d.approvals[k].request.sn < request.sn
  {
    var id, subject := cfg.crypto.hashApproval(request), SubjectOf(cfg.crypto, request).value;
    TimelyIsFiled(cfg, d, id, subject, request, sender, live);
    NewRequestShape(cfg, PruneSubject(d, subject), id, subject, request, sender);
    NothingPrevious(d.approvals, queue, request.sn);
  }

  /** A request seen for the first time is taken in exactly when it is for governance's present version and at most one other
      of its subject is pending, that for an earlier event. */
  lemma FiledExactly(cfg: Config, d: Desk, request: ApprovalRequest, sender: Key, live: Option<nat>)
    requires DeskInv(cfg, d) && cfg.crypto.hashApproval(request) !in d.approvals
    requires SubjectOf(cfg.crypto, request) != Some(NoDigest)
    ensures var id, d' := cfg.crypto.hashApproval(request), Step(cfg, d, Request(request, sender, live)).0;
      id in d'.approvals <==>
        && NamesSubject(request) && live == Some(request.govVersion)
        && var pending := PendingOf(cfg.crypto, d, SubjectOf(cfg.crypto, request).value);
           |pending| <= 1 && forall k :: k in pending ==> d.approvals[k].request.sn < request.sn
  {
    if NamesSubject(request) {
      var subject := SubjectOf(cfg.crypto, request).value;
      QueueIsPending(cfg, d, subject);
      FiledByQueue(cfg, d, request, sender, live, PendingOf(cfg.crypto, d, subject));
    }
  }

  /** Not taken in, it is refused for the first of these that holds: it names no subject; the subject has two requests pending;
      one pending is for the same event or a later one; governance does not tell its version; it is higher, or lower, than the
      request's. */
  lemma WhyNotFiled(cfg: Config, d: Desk, request: ApprovalRequest, sender: Key, live: Option<nat>)
    requires DeskInv(cfg, d) && cfg.crypto.hashApproval(request) !in d.approvals
    requires SubjectOf(cfg.crypto, request) != Some(NoDigest)
    ensures var a := Step(cfg, d, Request(request, sender, live)).1;
      && (!NamesSubject(request) ==> a == Refused(UnexpectedRequestType))
      && (NamesSubject(request) ==>
            var pending := PendingOf(cfg.crypto, d, SubjectOf(cfg.crypto, request).value);
            if |pending| > 1 then a == Refused(MoreRequestThanMaxAllowed)
            else if exists k :: k in pending && d.approvals[k].request.sn >= request.sn then a == Refused(PreviousEventDetected)
            else if live.None? then a == Refused(GovernanceUnknown)
            else if live.value > request.govVersion then a == Refused(OurGovIsHigher)
            else live.value < request.govVersion ==> a == Refused(OurGovIsLower))
  {
    if NamesSubject(request) {
      var subject := SubjectOf(cfg.crypto, request).value;
      QueueIsPending(cfg, d, subject);
      NothingPrevious(d.approvals, PendingOf(cfg.crypto, d, subject), request.sn);
    }
  }

  /** Why a user's vote is not given. */
  lemma WhyNotVoted(cfg: Config, d: Desk, id: Digest, yes: bool)
    ensures var a := Step(cfg, d, UserVote(id, yes)).1;
      && (a == Refused(RequestNotFound) <==> id !in d.approvals)
      && (a == Refused(RequestAlreadyResponded) <==> id in d.approvals && d.approvals[id].Answered())
      && (a == Refused(UnexpectedRequestType) <==>
            id in d.approvals && !d.approvals[id].Answered() && !NamesSubject(d.approvals[id].request))
  {
    if id in d.approvals { assert NamesSubject(d.approvals[id].request) <==> SubjectOf(cfg.crypto, d.approvals[id].request).Some?; }
  }

  /** Taken in, it is answered at once exactly when the node does not leave votes to its user, with a yes exactly when it
      always accepts; until then it is pending. Not taken in, no vote is given and no entity changes. */
  lemma NewRequestIsAnswered(cfg: Config, d: Desk, request: ApprovalRequest, sender: Key, live: Option<nat>)
    requires cfg.crypto.hashApproval(request) !in d.approvals
    ensures var id, (d', a) := cfg.crypto.hashApproval(request), Step(cfg, d, Request(request, sender, live));
      && (id !in d'.approvals ==> a.Refused? && d'.approvals == d.approvals)
      && (id in d'.approvals ==>
            && d'.approvals.Keys == d.approvals.Keys + {id} && (forall k :: k in d.approvals ==> d'.approvals[k] == d.approvals[k])
            && d'.approvals[id].request == request && d'.approvals[id].sender == sender
            && match cfg.votation
               case Normal => a == Waiting && d'.approvals[id].state.Pending? && d'.approvals[id].response.None?
               case AlwaysAccept => AnsweredWith(cfg, d'.approvals[id], d'.approvals[id], a, id, true)
               case AlwaysReject => AnsweredWith(cfg, d'.approvals[id], d'.approvals[id], a, id, false))
  {
    var id := cfg.crypto.hashApproval(request);
    RequestShape(cfg, d, request, sender, live);
    if SubjectOf(cfg.crypto, request).Some? {
      NewRequestShape(cfg, PruneSubject(d, SubjectOf(cfg.crypto, request).value), id, SubjectOf(cfg.crypto, request).value, request, sender);
    }
  }

  lemma NewRequestShape(cfg: Config, d: Desk, id: Digest, subject: Digest, request: ApprovalRequest, sender: Key)
    requires id !in d.approvals && SubjectOf(cfg.crypto, request) == Some(subject)
    ensures var (d', a) := NewRequest(cfg, d, id, subject, request, sender);
      && d'.approvals.Keys == d.approvals.Keys + {id} && (forall k :: k in d.approvals ==> d'.approvals[k] == d.approvals[k])
      && d'.approvals[id].request == request && d'.approvals[id].sender == sender
      && match cfg.votation
         case Normal => a == Waiting && d'.approvals[id].state.Pending? && d'.approvals[id].response.None?
         case AlwaysAccept => AnsweredWith(cfg, d'.approvals[id], d'.approvals[id], a, id, true)
         case AlwaysReject => AnsweredWith(cfg, d'.approvals[id], d'.approvals[id], a, id, false)
  {
    var filed := Desk(d.approvals[id := Entity(request, Option.None, Pending, sender)], Filed(d.bySubject, subject, id),
      if request.govId == NoDigest then d.byGovernance else Filed(d.byGovernance, request.govId, id));
    VoteIsTheUsers(cfg, filed, id, cfg.votation.AlwaysAccept?);
  }

  /** Asked again, an answered request gets the answer it got, sent to the first asker, and one not yet answered gets none. */
  lemma AskedAgain(cfg: Config, d: Desk, request: ApprovalRequest, sender: Key, live: Option<nat>)
    requires DeskInv(cfg, d) && cfg.crypto.hashApproval(request) in d.approvals
    ensures var e, (d', a) := d.approvals[cfg.crypto.hashApproval(request)], Step(cfg, d, Request(request, sender, live));
      && d' == d
      && (a.Vote? <==> e.state.RespondedAccepted? || e.state.RespondedRejected?)
      && (a.Vote? ==> a.to == e.sender && Some(a.response) == e.response
                      && a.response.content == ApprovalResponse(cfg.crypto.hashApproval(request), e.state.RespondedAccepted?))
  {
    assert EntityOk(cfg, cfg.crypto.hashApproval(request), d.approvals[cfg.crypto.hashApproval(request)]);
  }

  /** A stored event takes its request out of the pending ones, if it was among them, and touches nothing else. */
  lemma StoredEventRetires(cfg: Config, d: Desk, id: Digest)
    ensures var (d', a) := Step(cfg, d, EventStored(id));
      && a == Waiting && d'.approvals.Keys == d.approvals.Keys && d'.bySubject == d.bySubject && d'.byGovernance == d.byGovernance
      && forall k :: k in d.approvals ==>
           d'.approvals[k] == (if k == id && d.approvals[k].state.Pending? then d.approvals[k].(state := Obsolete) else d.approvals[k])
  {}
}
