/** What any sequence of asks, answers, acknowledgements, timeouts and stamp clears keeps. */
module AttentionTheorems {
  import opened Text
  import opened Attention

  datatype Event =
    | Ask(id: ReqId, project: string, sid: Sid, notice: bool)
    | Answered(project: string, sid: Sid, at: int)        // AnswerSessionAttention
    | MarkAnswered(id: ReqId, at: int)
    | Acknowledge(project: string, id: ReqId, at: int)
    | TimedOut(id: ReqId, at: int)
    | ClearStamp(sid: Sid)                                // the emitter, after copying the flag

  predicate AtSomeTime(e: Event) {
    match e
    case Ask(_, _, _, _) => true
    case ClearStamp(_) => true
    case _ => e.at != 0
  }

  function Apply(s: State, e: Event): State {
    match e
    case Ask(id, p, sid, notice) => if id in s.reqs then s else Created(s, id, p, sid, notice)
    case Answered(p, sid, at) => if p == "" || sid == "" then s else AllAnswered(s, p, sid, at)
    case MarkAnswered(id, at) => Resolved(s, id, Answer, at)
    case Acknowledge(p, id, at) => if id in s.reqs && s.reqs[id].project == p then Resolved(s, id, Answer, at) else s
    case TimedOut(id, at) => Resolved(s, id, TimeOut, at)
    case ClearStamp(sid) => Stamped(s, sid, false)
  }

  function Final(s: State, events: seq<Event>): State
    decreases |events|
  {
    if events == [] then s else Final(Apply(s, events[0]), events[1..])
  }

  // A request is not both answered and timed out.
  predicate OneEnd(s: State) {
    forall id :: id in s.reqs ==> s.reqs[id].answered == 0 || s.reqs[id].timedOut == 0
  }

  // A stamped session has an open request.
  predicate StampsBacked(s: State) {
    forall sid :: sid in s.sessions && s.sessions[sid].stamped ==> AnyOpen(s, sid)
  }

  lemma ResolvedKeeps(s: State, id: ReqId, how: Close, at: int)
    requires OneEnd(s) && StampsBacked(s) && at != 0
    ensures OneEnd(Resolved(s, id, how, at)) && StampsBacked(Resolved(s, id, how, at))
  {
    var t := Resolved(s, id, how, at);
    forall sid | sid in t.sessions && t.sessions[sid].stamped ensures AnyOpen(t, sid) {
      var j :| j in s.reqs && OpenAt(s, j, sid);
      if j == id && t != s {
        var k :| k in s.reqs && k != id && OpenAt(s, k, s.reqs[id].session);
        assert OpenAt(t, k, sid);
      } else {
        assert OpenAt(t, j, sid);
      }
    }
  }

  lemma AllAnsweredKeeps(s: State, project: string, sid: Sid, at: int)
    requires OneEnd(s) && StampsBacked(s) && at != 0
    ensures OneEnd(AllAnswered(s, project, sid, at)) && StampsBacked(AllAnswered(s, project, sid, at))
  {
    var t := AllAnswered(s, project, sid, at);
    forall x | x in t.sessions && t.sessions[x].stamped ensures AnyOpen(t, x) {
      var j :| j in s.reqs && OpenAt(s, j, x);
      if Mine(s.reqs[j], project, sid) {
        var k :| k in s.reqs && OpenAt(s, k, sid) && s.reqs[k].project != project;
        assert OpenAt(t, k, x);
      } else {
        assert OpenAt(t, j, x);
      }
    }
  }

  lemma CreatedKeeps(s: State, id: ReqId, project: string, sid: Sid, notice: bool)
    requires OneEnd(s) && StampsBacked(s) && id !in s.reqs
    ensures OneEnd(Created(s, id, project, sid, notice)) && StampsBacked(Created(s, id, project, sid, notice))
  {
    var t := Created(s, id, project, sid, notice);
    forall x | x in t.sessions && t.sessions[x].stamped ensures AnyOpen(t, x) {
      assert OpenAt(t, id, sid);
      if x != sid {
        var j :| j in s.reqs && OpenAt(s, j, x);
        assert OpenAt(t, j, x);
      }
    }
  }

  lemma ClearKeeps(s: State, sid: Sid)
    requires OneEnd(s) && StampsBacked(s)
    ensures OneEnd(Stamped(s, sid, false)) && StampsBacked(Stamped(s, sid, false))
  {
    var t := Stamped(s, sid, false);
    forall x | x in t.sessions && t.sessions[x].stamped ensures AnyOpen(t, x) {
      var j :| j in s.reqs && OpenAt(s, j, x);
      assert OpenAt(t, j, x);
    }
  }

  // Over any run: no request ends both ways, and a stamped session always has an open request.
  lemma {:induction false} RunKeeps(s: State, events: seq<Event>)
    requires OneEnd(s) && StampsBacked(s) && forall i :: 0 <= i < |events| ==> AtSomeTime(events[i])
    ensures OneEnd(Final(s, events)) && StampsBacked(Final(s, events))
    decreases |events|
  {
    hide OneEnd, StampsBacked, Resolved, AllAnswered, Created, Stamped;
    if events != [] {
      match events[0] {
        case Ask(id, p, sid, notice) =>
          if id !in s.reqs {
            CreatedKeeps(s, id, p, sid, notice);
          }
        case Answered(p, sid, at) => AllAnsweredKeeps(s, p, sid, at);
        case MarkAnswered(id, at) => ResolvedKeeps(s, id, Answer, at);
        case Acknowledge(p, id, at) => ResolvedKeeps(s, id, Answer, at);
        case TimedOut(id, at) => ResolvedKeeps(s, id, TimeOut, at);
        case ClearStamp(sid) => ClearKeeps(s, sid);
      }
      RunKeeps(Apply(s, events[0]), events[1..]);
    }
  }

  // ---- a reply ----

  predicate ParkedHere(s: State, project: string, sid: Sid) {
    exists i :: i in s.deliveries && s.deliveries[i].project == project && s.deliveries[i].session == sid &&
                s.deliveries[i].status == Parked
  }

  predicate StampedHere(s: State, sid: Sid) {
    sid in s.sessions && s.sessions[sid].stamped
  }

  // A reply that closes at least one request leaves none of the project's open on the session; and if and only if no
  // other project has one open there, the stamp is clear and nothing of the session's is parked. Otherwise both stay
  // exactly as they were.
  lemma ReplyCloses(s: State, project: string, sid: Sid, at: int)
    requires project != "" && sid != "" && at != 0 && AnyMine(s, project, sid)
    ensures var t := AllAnswered(s, project, sid, at);
            !AnyMine(t, project, sid) && (AnyOpen(t, sid) <==> ForeignOpen(s, project, sid)) &&
            if ForeignOpen(s, project, sid) then t.sessions == s.sessions && t.deliveries == s.deliveries
            else !StampedHere(t, sid) && !ParkedHere(t, project, sid)
  {
    var t := AllAnswered(s, project, sid, at);
    if ForeignOpen(s, project, sid) {
      var j :| j in s.reqs && OpenAt(s, j, sid) && s.reqs[j].project != project;
      assert OpenAt(t, j, sid);
    }
    if AnyOpen(t, sid) {
      var j :| j in t.reqs && OpenAt(t, j, sid);
      assert OpenAt(s, j, sid);
    }
  }

  // A reply with nothing open changes nothing; so repeating one changes nothing.
  lemma ReplyIsIdempotent(s: State, project: string, sid: Sid, at: int, later: int)
    requires at != 0
    ensures !AnyMine(s, project, sid) ==> AllAnswered(s, project, sid, at) == s
    ensures AllAnswered(AllAnswered(s, project, sid, at), project, sid, later) == AllAnswered(s, project, sid, at)
  {
    if !AnyMine(s, project, sid) {
      assert AnsweredReqs(s, project, sid, at) == s.reqs;
    }
    var t := AllAnswered(s, project, sid, at);
    assert !AnyMine(t, project, sid);
    assert AnsweredReqs(t, project, sid, later) == t.reqs;
  }

  // Nothing else moves: other sessions' stamps, other requests, other deliveries.
  lemma ReplyTouchesItsSessionOnly(s: State, project: string, sid: Sid, at: int)
    ensures var t := AllAnswered(s, project, sid, at);
            (forall x :: x in s.sessions && x != sid ==> x in t.sessions && t.sessions[x] == s.sessions[x]) &&
            (forall id :: id in s.reqs && !Mine(s.reqs[id], project, sid) ==>
               id in t.reqs && t.reqs[id] == s.reqs[id]) &&
            (forall i :: i in s.deliveries && (s.deliveries[i].project != project || s.deliveries[i].session != sid) ==>
               i in t.deliveries && t.deliveries[i] == s.deliveries[i])
  {
  }

  // ---- where a parked delivery stays parked ----

  // A closed request is never open again.
  lemma {:induction false} ClosedForGood(s: State, events: seq<Event>, j: ReqId)
    requires j in s.reqs && !Open(s.reqs[j]) && forall k :: 0 <= k < |events| ==> AtSomeTime(events[k])
    ensures j in Final(s, events).reqs && !Open(Final(s, events).reqs[j])
    decreases |events|
  {
    hide Open, Settled, OtherOpen, ForeignOpen, AnyMine;
    if events != [] {
      assert AtSomeTime(events[0]);
      StaysClosed(s, events[0], j);
      ClosedForGood(Apply(s, events[0]), events[1..], j);
    }
  }

  lemma StaysClosed(s: State, e: Event, j: ReqId)
    requires j in s.reqs && !Open(s.reqs[j]) && AtSomeTime(e)
    ensures j in Apply(s, e).reqs && !Open(Apply(s, e).reqs[j])
  {
  }

  // An event that leaves request `j` of the session open moves no delivery of the session.
  lemma OpenHolds(s: State, e: Event, sid: Sid, j: ReqId, i: nat)
    requires OpenAt(s, j, sid) && AtSomeTime(e) && i in s.deliveries && s.deliveries[i].session == sid
    ensures j in Apply(s, e).reqs && Apply(s, e).reqs[j].session == sid
    ensures Open(Apply(s, e).reqs[j]) ==> i in Apply(s, e).deliveries && Apply(s, e).deliveries[i] == s.deliveries[i]
  {
    match e
    case Answered(p, x, at) =>
      if x == sid && s.reqs[j].project != p {
        assert ForeignOpen(s, p, sid);
      }
    case MarkAnswered(id, at) => CloseHolds(s, id, Answer, at, sid, j, i);
    case Acknowledge(p, id, at) => CloseHolds(s, id, Answer, at, sid, j, i);
    case TimedOut(id, at) => CloseHolds(s, id, TimeOut, at, sid, j, i);
    case _ =>
  }

  lemma CloseHolds(s: State, id: ReqId, how: Close, at: int, sid: Sid, j: ReqId, i: nat)
    requires OpenAt(s, j, sid) && at != 0 && i in s.deliveries && s.deliveries[i].session == sid
    ensures var t := Resolved(s, id, how, at);
            j in t.reqs && t.reqs[j].session == sid &&
            (Open(t.reqs[j]) ==> i in t.deliveries && t.deliveries[i] == s.deliveries[i])
  {
    if id in s.reqs && s.reqs[id].session == sid && id != j {
      assert OtherOpen(s, id, sid);
    }
  }

  // As long as one request of the session stays open, be it another project's or a notice, none of the session's parked
  // deliveries is settled, whatever is asked, answered, acknowledged or timed out.
  lemma {:induction false} OpenRequestKeepsParked(s: State, sid: Sid, events: seq<Event>, j: ReqId, i: nat)
    requires OpenAt(s, j, sid) && i in s.deliveries && s.deliveries[i].session == sid
    requires forall k :: 0 <= k < |events| ==> AtSomeTime(events[k])
    ensures OpenAt(Final(s, events), j, sid) ==>
              i in Final(s, events).deliveries && Final(s, events).deliveries[i] == s.deliveries[i]
    decreases |events|
  {
    hide Apply, Open;
    if events != [] {
      assert AtSomeTime(events[0]);
      OpenHolds(s, events[0], sid, j, i);
      if Open(Apply(s, events[0]).reqs[j]) {
        OpenRequestKeepsParked(Apply(s, events[0]), sid, events[1..], j, i);
      } else {
        ClosedForGood(Apply(s, events[0]), events[1..], j);
      }
    }
  }

  predicate NoAskHere(e: Event, sid: Sid) {
    e.Ask? ==> e.sid != sid
  }

  // A timeout closes the last request without settling the delivery, and afterwards no reply settles it either: only
  // a new request on the session, answered, would.
  lemma {:induction false} TimeoutLeavesParked(s: State, sid: Sid, events: seq<Event>, i: nat)
    requires !AnyOpen(s, sid) && i in s.deliveries && s.deliveries[i].session == sid && s.deliveries[i].status == Parked
    requires forall k :: 0 <= k < |events| ==> NoAskHere(events[k], sid) && AtSomeTime(events[k])
    ensures i in Final(s, events).deliveries && Final(s, events).deliveries[i] == s.deliveries[i]
    decreases |events|
  {
    hide Apply;
    if events != [] {
      assert NoAskHere(events[0], sid) && AtSomeTime(events[0]);
      NothingOpenNothingMoves(s, sid, events[0], i);
      TimeoutLeavesParked(Apply(s, events[0]), sid, events[1..], i);
    }
  }

  lemma NothingOpenNothingMoves(s: State, sid: Sid, e: Event, i: nat)
    requires !AnyOpen(s, sid) && i in s.deliveries && s.deliveries[i].session == sid
    requires NoAskHere(e, sid) && AtSomeTime(e)
    ensures i in Apply(s, e).deliveries && Apply(s, e).deliveries[i] == s.deliveries[i] && !AnyOpen(Apply(s, e), sid)
  {
    match e
    case Answered(p, x, at) => ReplyMovesNothing(s, sid, p, x, at, i);
    case MarkAnswered(id, at) => CloseMovesNothing(s, sid, id, Answer, at, i);
    case Acknowledge(p, id, at) => CloseMovesNothing(s, sid, id, Answer, at, i);
    case TimedOut(id, at) => CloseMovesNothing(s, sid, id, TimeOut, at, i);
    case _ => StillNothing(s, Apply(s, e), sid);
  }

  lemma StillNothing(s: State, t: State, sid: Sid)
    requires !AnyOpen(s, sid)
    requires forall j :: j in t.reqs && OpenAt(t, j, sid) ==> OpenAt(s, j, sid)
    ensures !AnyOpen(t, sid)
  {
    assert forall j :: j in s.reqs ==> !OpenAt(s, j, sid);
    assert forall j :: j in t.reqs ==> !OpenAt(t, j, sid);
  }

  lemma CloseMovesNothing(s: State, sid: Sid, id: ReqId, how: Close, at: int, i: nat)
    requires !AnyOpen(s, sid) && i in s.deliveries && s.deliveries[i].session == sid
    ensures var t := Resolved(s, id, how, at);
            i in t.deliveries && t.deliveries[i] == s.deliveries[i] && !AnyOpen(t, sid)
  {
    assert forall j :: j in s.reqs ==> !OpenAt(s, j, sid);
    StillNothing(s, Resolved(s, id, how, at), sid);
  }

  lemma ReplyMovesNothing(s: State, sid: Sid, project: string, x: Sid, at: int, i: nat)
    requires !AnyOpen(s, sid) && i in s.deliveries && s.deliveries[i].session == sid && at != 0
    ensures var t := AllAnswered(s, project, x, at);
            i in t.deliveries && t.deliveries[i] == s.deliveries[i] && !AnyOpen(t, sid)
  {
    assert forall j :: j in s.reqs ==> !OpenAt(s, j, sid);
    StillNothing(s, AllAnswered(s, project, x, at), sid);
  }

  // The timeout of the last open request: the stamp goes, the deliveries do not move.
  lemma TimeoutOfLast(s: State, id: ReqId, at: int)
    requires id in s.reqs && Open(s.reqs[id]) && at != 0 && !OtherOpen(s, id, s.reqs[id].session)
    ensures var t := Resolved(s, id, TimeOut, at);
            t.deliveries == s.deliveries && !AnyOpen(t, s.reqs[id].session) && !StampedHere(t, s.reqs[id].session)
  {
    var t := Resolved(s, id, TimeOut, at);
    if AnyOpen(t, s.reqs[id].session) {
      var j :| j in t.reqs && OpenAt(t, j, s.reqs[id].session);
      assert OpenAt(s, j, s.reqs[id].session);
    }
  }

  // ---- how a request ended ----

  // The event answers the request, at that instant.
  predicate Answers(s: State, e: Event, j: ReqId, at: int)
    requires j in s.reqs
  {
    match e
    case Answered(p, sid, t) => t == at && s.reqs[j].project == p && s.reqs[j].session == sid
    case MarkAnswered(id, t) => t == at && id == j
    case Acknowledge(p, id, t) => t == at && id == j && s.reqs[j].project == p
    case _ => false
  }

  predicate EndedBy(s: State, events: seq<Event>, j: ReqId, t: Req)
    requires j in s.reqs
  {
    && (t.timedOut != 0 ==> exists k :: 0 <= k < |events| && events[k] == TimedOut(j, t.timedOut))
    && (t.answered != 0 ==> exists k :: 0 <= k < |events| && Answers(s, events[k], j, t.answered))
  }

  lemma ClosesOne(s: State, id: ReqId, how: Close, at: int)
    ensures Resolved(s, id, how, at).reqs ==
            if id in s.reqs && Open(s.reqs[id]) then s.reqs[id := ClosedReq(s.reqs[id], how, at)] else s.reqs
  {
    hide OtherOpen;
  }

  lemma ClosesMine(s: State, project: string, sid: Sid, at: int)
    ensures AllAnswered(s, project, sid, at).reqs == AnsweredReqs(s, project, sid, at)
  {
    hide ForeignOpen, AnyMine, AnsweredReqs;
  }

  lemma StepEnds(s: State, e: Event, j: ReqId)
    requires j in s.reqs && Open(s.reqs[j]) && AtSomeTime(e)
    ensures j in Apply(s, e).reqs
    ensures var r, t := s.reqs[j], Apply(s, e).reqs[j];
            t.project == r.project && t.session == r.session && t.notice == r.notice &&
            (t.timedOut != 0 ==> e == TimedOut(j, t.timedOut)) && (t.answered != 0 ==> Answers(s, e, j, t.answered))
  {
    hide Resolved, AllAnswered;
    match e
    case Answered(p, sid, at) => ClosesMine(s, p, sid, at);
    case MarkAnswered(id, at) => ClosesOne(s, id, Answer, at);
    case Acknowledge(p, id, at) => ClosesOne(s, id, Answer, at);
    case TimedOut(id, at) => ClosesOne(s, id, TimeOut, at);
    case _ =>
  }

  lemma StepOfClosed(s: State, e: Event, j: ReqId)
    requires j in s.reqs && !Open(s.reqs[j]) && AtSomeTime(e)
    ensures j in Apply(s, e).reqs && Apply(s, e).reqs[j] == s.reqs[j]
  {
    hide Resolved, AllAnswered;
    match e
    case Answered(p, sid, at) => ClosesMine(s, p, sid, at);
    case MarkAnswered(id, at) => ClosesOne(s, id, Answer, at);
    case Acknowledge(p, id, at) => ClosesOne(s, id, Answer, at);
    case TimedOut(id, at) => ClosesOne(s, id, TimeOut, at);
    case _ =>
  }

  lemma {:induction false} ClosedStaysSo(s: State, events: seq<Event>, j: ReqId)
    requires j in s.reqs && !Open(s.reqs[j]) && forall k :: 0 <= k < |events| ==> AtSomeTime(events[k])
    ensures j in Final(s, events).reqs && Final(s, events).reqs[j] == s.reqs[j]
    decreases |events|
  {
    hide Apply, Open;
    if events != [] {
      assert AtSomeTime(events[0]);
      StepOfClosed(s, events[0], j);
      ClosedStaysSo(Apply(s, events[0]), events[1..], j);
    }
  }

  lemma EndedEarlier(s: State, s1: State, events: seq<Event>, j: ReqId, t: Req)
    requires events != [] && j in s.reqs && j in s1.reqs && s1.reqs[j].project == s.reqs[j].project
    requires s1.reqs[j].session == s.reqs[j].session && EndedBy(s1, events[1..], j, t)
    ensures EndedBy(s, events, j, t)
  {
    if t.timedOut != 0 {
      var k :| 0 <= k < |events[1..]| && events[1..][k] == TimedOut(j, t.timedOut);
      assert events[k + 1] == TimedOut(j, t.timedOut);
    }
    if t.answered != 0 {
      var k :| 0 <= k < |events[1..]| && Answers(s1, events[1..][k], j, t.answered);
      assert Answers(s, events[k + 1], j, t.answered);
    }
  }

  // Over any run: an open request that bears an answer's instant at the end was answered by an event of that instant
  // that reaches it, a reply to its session or an answer or acknowledgement of it; one that bears a timeout's was
  // timed out.
  lemma {:induction false} EndIsAsRecorded(s: State, events: seq<Event>, j: ReqId)
    requires j in s.reqs && Open(s.reqs[j]) && forall k :: 0 <= k < |events| ==> AtSomeTime(events[k])
    ensures j in Final(s, events).reqs && EndedBy(s, events, j, Final(s, events).reqs[j])
    decreases |events|
  {
    hide Apply, Answers;
    if events != [] {
      assert AtSomeTime(events[0]);
      var s1 := Apply(s, events[0]);
      StepEnds(s, events[0], j);
      if Open(s1.reqs[j]) {
        EndIsAsRecorded(s1, events[1..], j);
        EndedEarlier(s, s1, events, j, Final(s1, events[1..]).reqs[j]);
      } else {
        ClosedStaysSo(s1, events[1..], j);
      }
    }
  }

  // And these events do end what they reach: a reply every open request of its session and project, an answer, an
  // acknowledgement and a timeout their own.
  lemma EventEnds(s: State, e: Event, j: ReqId, at: int)
    requires j in s.reqs && Open(s.reqs[j]) && at != 0
    ensures Answers(s, e, j, at) && (e.Answered? ==> e.project != "" && e.sid != "") ==>
              j in Apply(s, e).reqs && Apply(s, e).reqs[j] == s.reqs[j].(answered := at)
    ensures e == TimedOut(j, at) ==> j in Apply(s, e).reqs && Apply(s, e).reqs[j] == s.reqs[j].(timedOut := at)
  {
    hide Resolved, AllAnswered;
    match e
    case Answered(p, sid, at) => ClosesMine(s, p, sid, at);
    case MarkAnswered(id, at) => ClosesOne(s, id, Answer, at);
    case Acknowledge(p, id, at) => ClosesOne(s, id, Answer, at);
    case TimedOut(id, at) => ClosesOne(s, id, TimeOut, at);
    case _ =>
  }

  // ---- what a reply does to the deliveries, and an ask to the stamp ----

  // The delivery after a reply that lets it go.
  function LetGo(d: Delivery, project: string, sid: Sid, at: int): Delivery {
    if d.project == project && d.session == sid && d.status == Parked then Delivery(project, sid, Done, at) else d
  }

  // A reply settles, at its instant, exactly the project's parked deliveries of the session, if it closes a request
  // and no other project has one open there; otherwise no delivery moves.
  lemma ReplySettles(s: State, project: string, sid: Sid, at: int)
    requires project != "" && sid != ""
    ensures var t := AllAnswered(s, project, sid, at);
            t.deliveries.Keys == s.deliveries.Keys &&
            forall i :: i in s.deliveries ==>
              t.deliveries[i] == if AnyMine(s, project, sid) && !ForeignOpen(s, project, sid)
                                 then LetGo(s.deliveries[i], project, sid, at) else s.deliveries[i]
  {
    hide AnyMine, ForeignOpen;
  }

  // An ask opens its request, stamps its session exactly if that is the project's own, and moves no delivery.
  lemma AskOpens(s: State, id: ReqId, project: string, sid: Sid, notice: bool)
    requires id !in s.reqs
    ensures var t := Apply(s, Ask(id, project, sid, notice));
            t.deliveries == s.deliveries && t.reqs == s.reqs[id := Req(project, sid, notice, 0, 0)] &&
            OpenAt(t, id, sid) && t.sessions.Keys == s.sessions.Keys &&
            forall x :: x in s.sessions ==>
              t.sessions[x].customer == s.sessions[x].customer &&
              (t.sessions[x].stamped <==> s.sessions[x].stamped || (x == sid && s.sessions[x].customer == project))
  {
  }
}
