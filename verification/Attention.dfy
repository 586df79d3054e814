/** Requests for a person's attention, and the deliveries parked until they answer (go/agentdb/attention.go). */
module Attention {
  import opened Text

  type ReqId = nat
  type Sid = string

  // answered and timedOut are instants; 0 is not yet.
  datatype Req = Req(project: string, session: Sid, notice: bool, answered: int, timedOut: int)
  datatype Session = Session(customer: string, stamped: bool)
  datatype Status = Parked | Done | Elsewhere
  datatype Delivery = Delivery(project: string, session: Sid, status: Status, ended: int)

  datatype State = State(reqs: map<ReqId, Req>, sessions: map<Sid, Session>, deliveries: map<nat, Delivery>)

  predicate Open(r: Req) {
    r.answered == 0 && r.timedOut == 0
  }

  predicate OpenAt(s: State, id: ReqId, sid: Sid) {
    id in s.reqs && s.reqs[id].session == sid && Open(s.reqs[id])
  }

  // Another request of the session is open: any project's, notices included.
  predicate OtherOpen(s: State, id: ReqId, sid: Sid) {
    exists j :: j in s.reqs && j != id && OpenAt(s, j, sid)
  }

  predicate AnyOpen(s: State, sid: Sid) {
    exists j :: j in s.reqs && OpenAt(s, j, sid)
  }

  function Stamped(s: State, sid: Sid, on: bool): State {
    if sid in s.sessions then s.(sessions := s.sessions[sid := s.sessions[sid].(stamped := on)]) else s
  }

  function SettledOne(d: Delivery, project: string, sid: Sid, at: int): Delivery {
    if d.project == project && d.session == sid && d.status == Parked then d.(status := Done, ended := at) else d
  }

  function Settled(s: State, project: string, sid: Sid, at: int): State {
    if project == "" || sid == "" then s
    else s.(deliveries := map i | i in s.deliveries :: SettledOne(s.deliveries[i], project, sid, at))
  }

  // CreateAttentionRequest: the row, and the stamp where the session is the project's own.
  function Created(s: State, id: ReqId, project: string, sid: Sid, notice: bool): State {
    var next := s.(reqs := s.reqs[id := Req(project, sid, notice, 0, 0)]);
    if sid in s.sessions && s.sessions[sid].customer == project then Stamped(next, sid, true) else next
  }

  datatype Close = Answer | TimeOut

  function ClosedReq(r: Req, how: Close, at: int): Req {
    if how == Answer then r.(answered := at) else r.(timedOut := at)
  }

  // resolveAttentionTx.
  function Resolved(s: State, id: ReqId, how: Close, at: int): State {
    if id !in s.reqs || !Open(s.reqs[id]) then s
    else
      var r := s.reqs[id];
      var next := s.(reqs := s.reqs[id := ClosedReq(r, how, at)]);
      if OtherOpen(s, id, r.session) then next
      else if how == TimeOut then Stamped(next, r.session, false)
      else Settled(Stamped(next, r.session, false), r.project, r.session, at)
  }

  // ---- answering a whole session ----

  predicate Mine(r: Req, project: string, sid: Sid) {
    r.project == project && r.session == sid && Open(r)
  }

  // What the query returns: the session's open requests of this project, each once.
  ghost predicate IsOpenList(s: State, project: string, sid: Sid, open: seq<ReqId>) {
    (forall id :: id in open <==> id in s.reqs && Mine(s.reqs[id], project, sid)) &&
    (forall i, j :: 0 <= i < j < |open| ==> open[i] != open[j])
  }

  function AnsweredReqs(s: State, project: string, sid: Sid, at: int): map<ReqId, Req> {
    map id | id in s.reqs :: if Mine(s.reqs[id], project, sid) then ClosedReq(s.reqs[id], Answer, at) else s.reqs[id]
  }

  // A request of another project keeps the session waiting.
  predicate ForeignOpen(s: State, project: string, sid: Sid) {
    exists j :: j in s.reqs && OpenAt(s, j, sid) && s.reqs[j].project != project
  }

  predicate AnyMine(s: State, project: string, sid: Sid) {
    exists j :: j in s.reqs && Mine(s.reqs[j], project, sid)
  }

  // The outcome, said at once and not request by request.
  function AllAnswered(s: State, project: string, sid: Sid, at: int): State {
    var next := s.(reqs := AnsweredReqs(s, project, sid, at));
    if !AnyMine(s, project, sid) || ForeignOpen(s, project, sid) then next
    else Settled(Stamped(next, sid, false), project, sid, at)
  }

  // After the first few of the list.
  function PartlyAnswered(s: State, done: set<ReqId>, at: int): map<ReqId, Req> {
    map id | id in s.reqs :: if id in done then ClosedReq(s.reqs[id], Answer, at) else s.reqs[id]
  }

  class Store {
    var reqs: map<ReqId, Req>
    var sessions: map<Sid, Session>
    var deliveries: map<nat, Delivery>

    function Contents(): State
      reads this
    {
      State(reqs, sessions, deliveries)
    }

    method CreateRequest(id: ReqId, project: string, sid: Sid, message: string, notice: bool) returns (ok: bool)
      modifies this
      ensures ok <==> !Blank(project) && !Blank(sid) && !Blank(message) && id !in old(reqs)
      ensures Contents() == if ok then Created(old(Contents()), id, project, sid, notice) else old(Contents())
    {
      if Blank(project) || Blank(sid) || Blank(message) || id in reqs {
        return false;
      }
      reqs := reqs[id := Req(project, sid, notice, 0, 0)];
      if sid in sessions && sessions[sid].customer == project {
        sessions := sessions[sid := sessions[sid].(stamped := true)];
      }
      return true;
    }

    method SettleParked(project: string, sid: Sid, at: int)
      modifies this`deliveries
      ensures Contents() == Settled(old(Contents()), project, sid, at)
    {
      if project == "" || sid == "" {
        return;
      }
      deliveries := map i | i in deliveries :: SettledOne(deliveries[i], project, sid, at);
    }

    method Resolve(id: ReqId, how: Close, at: int)
      modifies this
      ensures Contents() == Resolved(old(Contents()), id, how, at)
    {
      if id !in reqs || !Open(reqs[id]) {
        return;
      }
      var r := reqs[id];
      var waiting := OtherOpen(Contents(), id, r.session);
      reqs := reqs[id := ClosedReq(r, how, at)];
      if waiting {
        return;
      }
      if r.session in sessions {
        sessions := sessions[r.session := sessions[r.session].(stamped := false)];
      }
      if how == Answer {
        SettleParked(r.project, r.session, at);
      }
    }

    // `at` is a unix time, so not 0.
    method AnswerSession(project: string, sid: Sid, at: int, open: seq<ReqId>) returns (closed: nat)
      requires project != "" && sid != "" && at != 0 && IsOpenList(Contents(), project, sid, open)
      modifies this
      ensures Contents() == AllAnswered(old(Contents()), project, sid, at) && closed == |open|
    {
      closed := 0;
      ghost var s := Contents();
      NoneYet(s, at);
      for i := 0 to |open|
        invariant closed == i && s == old(Contents()) && IsOpenList(s, project, sid, open)
        invariant Contents() == Midway(s, project, sid, open, i, at)
      {
        MidwayStep(s, project, sid, open, i, at);
        Resolve(open[i], Answer, at);
        closed := closed + 1;
      }
      MidwayEnd(s, project, sid, open, at);
    }
  }

  // The state after `i` of the requests: nothing but the rows has changed until the last of them.
  function Midway(s: State, project: string, sid: Sid, open: seq<ReqId>, i: nat, at: int): State
    requires i <= |open|
  {
    var next := s.(reqs := PartlyAnswered(s, (set k | 0 <= k < i :: open[k]), at));
    if i == 0 || i < |open| || ForeignOpen(s, project, sid) then next
    else Settled(Stamped(next, sid, false), project, sid, at)
  }

  lemma NoneYet(s: State, at: int)
    ensures s.(reqs := PartlyAnswered(s, {}, at)) == s
  {
  }

  lemma MidwayEnd(s: State, project: string, sid: Sid, open: seq<ReqId>, at: int)
    requires IsOpenList(s, project, sid, open)
    ensures Midway(s, project, sid, open, |open|, at) == AllAnswered(s, project, sid, at)
  {
    var done := set k | 0 <= k < |open| :: open[k];
    assert PartlyAnswered(s, done, at) == AnsweredReqs(s, project, sid, at) by {
      assert forall id :: id in s.reqs ==> (id in done <==> Mine(s.reqs[id], project, sid));
    }
    assert AnyMine(s, project, sid) <==> |open| > 0 by {
      if |open| > 0 {
        assert open[0] in open;
      }
    }
  }

  lemma MidwayStep(s: State, project: string, sid: Sid, open: seq<ReqId>, i: nat, at: int)
    requires IsOpenList(s, project, sid, open) && i < |open| && at != 0
    ensures Resolved(Midway(s, project, sid, open, i, at), open[i], Answer, at) ==
            Midway(s, project, sid, open, i + 1, at)
  {
    hide Settled, Stamped;
    var done, more := set k | 0 <= k < i :: open[k], set k | 0 <= k < i + 1 :: open[k];
    var m := Midway(s, project, sid, open, i, at);
    assert more == done + {open[i]};
    assert open[i] in open && open[i] !in done;
    assert PartlyAnswered(s, done, at)[open[i] := ClosedReq(s.reqs[open[i]], Answer, at)] ==
           PartlyAnswered(s, more, at);
    StillOpen(s, project, sid, open, i, at);
  }

  // While one request is being answered, another of the session is open exactly if the list goes on or another project
  // has one.
  lemma StillOpen(s: State, project: string, sid: Sid, open: seq<ReqId>, i: nat, at: int)
    requires IsOpenList(s, project, sid, open) && i < |open| && at != 0
    ensures var m := s.(reqs := PartlyAnswered(s, (set k | 0 <= k < i :: open[k]), at));
            OtherOpen(m, open[i], sid) <==> i + 1 < |open| || ForeignOpen(s, project, sid)
  {
    var done := set k | 0 <= k < i :: open[k];
    var m := s.(reqs := PartlyAnswered(s, done, at));
    if i + 1 < |open| {
      assert open[i + 1] in open && open[i + 1] !in done;
      assert OpenAt(m, open[i + 1], sid);
    }
    if ForeignOpen(s, project, sid) {
      var j :| j in s.reqs && OpenAt(s, j, sid) && s.reqs[j].project != project;
      assert j !in open;
      assert OpenAt(m, j, sid) && open[i] in open;
    }
    if OtherOpen(m, open[i], sid) {
      var j :| j in m.reqs && j != open[i] && OpenAt(m, j, sid);
      assert j !in done;
      if s.reqs[j].project == project {
        assert j in open;
      } else {
        assert OpenAt(s, j, sid);
      }
    }
  }
}
