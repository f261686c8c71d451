/** The approval manager over its stored collections, updated in place. */
module ApproverHandlers {
  import opened Protocol
  import C = Completer
  import A = Approver

  class ApprovalManager {
    const cfg: A.Config
    var approvals: map<Digest, A.Entity>
    var subjectIndex: map<Digest, set<Digest>>
    var governanceIndex: map<Digest, set<Digest>>

    constructor (cfg: A.Config)
      ensures this.cfg == cfg && State() == A.EMPTY
    {
      this.cfg := cfg;
      approvals, subjectIndex, governanceIndex := map[], map[], map[];
    }

    function State(): A.Desk
      reads this
    {
      A.Desk(approvals, subjectIndex, governanceIndex)
    }

    /** Separates the ids whose entity is still pending from the rest; both index reads loop like this. */
    method SplitPending(ids: set<Digest>) returns (result: set<Digest>, toDelete: set<Digest>)
      ensures result == A.PendingIn(approvals, ids) && toDelete == ids - result
    {
      result, toDelete := {}, {};
      var rest := ids;
      while rest != {}
        invariant rest <= ids
        invariant result == A.PendingIn(approvals, ids - rest)
        invariant toDelete == (ids - rest) - result
        decreases rest
      {
        var id :| id in rest;
        rest := rest - {id};
        if id in approvals && approvals[id].state.Pending? {
          result := result + {id};
        } else {
          toDelete := toDelete + {id};
        }
      }
      assert ids - rest == ids;
    }

    method GetApprovalsBySubject(subject: Digest) returns (queue: set<Digest>)
      modifies this`subjectIndex
      ensures queue == A.PendingIn(approvals, C.SetAt(old(subjectIndex), subject))
      ensures State() == A.PruneSubject(old(State()), subject)
    {
      var toDelete;
      queue, toDelete := SplitPending(C.SetAt(subjectIndex, subject));
      assert C.SetAt(subjectIndex, subject) - toDelete == queue;
      subjectIndex := subjectIndex[subject := C.SetAt(subjectIndex, subject) - toDelete];
    }

    method GetApprovalsByGovernance(governance: Digest) returns (queue: set<Digest>)
      modifies this`governanceIndex
      ensures queue == A.PendingIn(approvals, C.SetAt(old(governanceIndex), governance))
      ensures State() == A.PruneGovernance(old(State()), governance)
    {
      var toDelete;
      queue, toDelete := SplitPending(C.SetAt(governanceIndex, governance));
      assert C.SetAt(governanceIndex, governance) - toDelete == queue;
      governanceIndex := governanceIndex[governance := C.SetAt(governanceIndex, governance) - toDelete];
    }

    method GenerateVote(id: Digest, acceptance: bool) returns (a: A.Answer)
      modifies this
      ensures (State(), a) == A.GenerateVote(cfg, old(State()), id, acceptance)
    {
      if id !in approvals { return A.Refused(A.RequestNotFound); }
      var data := approvals[id];
      if data.Answered() { return A.Refused(A.RequestAlreadyResponded); }
      var response := ApprovalResponse(id, acceptance);
      var subject := A.SubjectOf(cfg.crypto, data.request);
      if subject.None? { return A.Refused(A.UnexpectedRequestType); }
      data := data.(state := if acceptance then A.RespondedAccepted else A.RespondedRejected);
      data := data.(response := Some(C.SignedApproval(response, cfg.sign(response))));
      approvals := approvals[id := data];
      subjectIndex := subjectIndex[subject.value := C.SetAt(subjectIndex, subject.value) - {id}];
      governanceIndex := governanceIndex[data.request.govId := C.SetAt(governanceIndex, data.request.govId) - {id}];
      a := A.Vote(data.response.value, data.sender);
    }

    method NewRequest(id: Digest, subject: Digest, request: ApprovalRequest, sender: Key) returns (a: A.Answer)
      modifies this
      ensures (State(), a) == A.NewRequest(cfg, old(State()), id, subject, request, sender)
    {
      subjectIndex := subjectIndex[subject := C.SetAt(subjectIndex, subject) + {id}];
      if request.govId != NoDigest {
        governanceIndex := governanceIndex[request.govId := C.SetAt(governanceIndex, request.govId) + {id}];
      }
      approvals := approvals[id := A.Entity(request, Option.None, A.Pending, sender)];
      match cfg.votation
      case Normal => a := A.Waiting;
      case AlwaysAccept => a := GenerateVote(id, true);
      case AlwaysReject => a := GenerateVote(id, false);
    }

    method ProcessApprovalRequest(request: ApprovalRequest, sender: Key, live: Option<nat>) returns (a: A.Answer)
      modifies this
      ensures (State(), a) == A.ProcessRequest(cfg, old(State()), request, sender, live)
    {
      var id := cfg.crypto.hashApproval(request);
      if id in approvals {
        var data := approvals[id];
        if data.response.Some? && data.Answered() { return A.Vote(data.response.value, data.sender); }
        return A.Refused(A.RequestAlreadyKnown);
      }
      var subject := A.SubjectOf(cfg.crypto, request);
      if subject.None? { return A.Refused(A.UnexpectedRequestType); }
      var queue := GetApprovalsBySubject(subject.value);
      if |queue| == 1 {
        var q :| q in queue;
        assert queue == {q} by { OnlyOne(queue, q); }
        if request.sn <= approvals[q].request.sn { return A.Refused(A.PreviousEventDetected); }
      } else if |queue| != 0 {
        return A.Refused(A.MoreRequestThanMaxAllowed);
      }
      if live.None? { return A.Refused(A.GovernanceUnknown); }
      if live.value > request.govVersion { return A.Refused(A.OurGovIsHigher); }
      if live.value < request.govVersion { return A.Refused(A.OurGovIsLower); }
      a := NewRequest(id, subject.value, request, sender);
    }

    static lemma OnlyOne(s: set<Digest>, x: Digest)
      requires |s| == 1 && x in s
      ensures s == {x}
    {
      assert |s - {x}| == 0;
    }

    /** The desk when this part of the affected requests has been deleted. */
    ghost function Progress(d: A.Desk, governance: Digest, affected: set<Digest>, done: set<Digest>): A.Desk
      requires done <= d.approvals.Keys
    {
      A.Desk(d.approvals - done, A.WithoutAffected(cfg.crypto, d, done), d.byGovernance[governance := affected - done])
    }

    lemma OneMoreSubject(d: A.Desk, done: set<Digest>, id: Digest, s: Digest)
      requires done <= d.approvals.Keys && id in d.approvals && A.SubjectOf(cfg.crypto, d.approvals[id].request) == Some(s)
      ensures var before, after := A.WithoutAffected(cfg.crypto, d, done), A.WithoutAffected(cfg.crypto, d, done + {id});
        after == if s in before then before[s := before[s] - {id}] else before
    {
      var before, after := A.WithoutAffected(cfg.crypto, d, done), A.WithoutAffected(cfg.crypto, d, done + {id});
      forall k | k in d.bySubject ensures after[k] == if k == s then before[k] - {id} else before[k] {}
    }

    lemma OneMoreDeleted(d: A.Desk, governance: Digest, affected: set<Digest>, done: set<Digest>, id: Digest, s: Digest)
      requires affected <= d.approvals.Keys && done <= affected && id in affected - done
      requires A.SubjectOf(cfg.crypto, d.approvals[id].request) == Some(s)
      ensures var p := Progress(d, governance, affected, done);
        Progress(d, governance, affected, done + {id}) ==
        A.Desk(p.approvals - {id}, if s in p.bySubject then p.bySubject[s := p.bySubject[s] - {id}] else p.bySubject,
               p.byGovernance[governance := C.SetAt(p.byGovernance, governance) - {id}])
    {
      OneMoreSubject(d, done, id, s);
      assert d.approvals - (done + {id}) == d.approvals - done - {id};
      assert affected - (done + {id}) == affected - done - {id};
      assert d.byGovernance[governance := affected - done][governance := affected - done - {id}]
          == d.byGovernance[governance := affected - done - {id}];
    }

    /** Deletes the pending requests of a governance one by one; stops at one that names no subject. */
    method NewGovernanceVersion(governance: Digest) returns (ok: bool)
      modifies this
      ensures ok ==> State() == A.NewGovernanceVersion(cfg.crypto, old(State()), governance)
      ensures (forall id :: id in old(approvals) ==> A.SubjectOf(cfg.crypto, old(approvals)[id].request).Some?) ==> ok
    {
      ghost var start := State();
      var affected := GetApprovalsByGovernance(governance);
      var rest := affected;
      assert Progress(start, governance, affected, {}) == State() by {
        assert start.approvals - {} == start.approvals;
        ghost var same := A.WithoutAffected(cfg.crypto, start, {});
        assert same == start.bySubject by {
          forall k | k in start.bySubject ensures same[k] == start.bySubject[k] {}
        }
        assert affected - {} == affected;
      }
      assert affected - rest == {};
      while rest != {}
        invariant rest <= affected <= start.approvals.Keys
        invariant State() == Progress(start, governance, affected, affected - rest)
        decreases rest
      {
        var id :| id in rest;
        var subject := A.SubjectOf(cfg.crypto, approvals[id].request);
        if subject.None? { return false; }
        OneMoreDeleted(start, governance, affected, affected - rest, id, subject.value);
        assert affected - (rest - {id}) == affected - rest + {id};
        DeleteOne(governance, id, subject.value);
        rest := rest - {id};
      }
      assert affected - rest == affected && affected - affected == {};
      ok := true;
    }

    method DeleteOne(governance: Digest, id: Digest, subject: Digest)
      modifies this
      ensures approvals == old(approvals) - {id}
      ensures governanceIndex == old(governanceIndex)[governance := C.SetAt(old(governanceIndex), governance) - {id}]
      ensures subjectIndex == if subject in old(subjectIndex)
        then old(subjectIndex)[subject := old(subjectIndex)[subject] - {id}] else old(subjectIndex)
    {
      approvals := approvals - {id};
      governanceIndex := governanceIndex[governance := C.SetAt(governanceIndex, governance) - {id}];
      if subject in subjectIndex {
        subjectIndex := subjectIndex[subject := subjectIndex[subject] - {id}];
      }
    }
  }
}
