/** Rebuilding a conversation from a session's persisted events (go/runner.go): with tool lines, and without. */
module Transcript {
  import opened Text

  type CallId = string

  // Tool arguments and outcomes are the bounded one-line digests the walk writes.
  datatype Event =
    | UserMessage(content: Option<string>)
    | ContentDelta(delta: string)
    | ToolStart(id: CallId, name: string, args: string)
    | ToolEnd(id: CallId, outcome: string)
    | OtherEvent

  datatype Message = User(content: string) | Assistant(content: string)

  datatype Tool = Tool(name: string, args: string)

  // What an assistant turn is made of.
  datatype Piece = Said(text: string) | Did(tool: Tool, outcome: string)

  function Line(t: Tool, outcome: string): string {
    "[tool] " + t.name + "(" + t.args + ") \U{2192} " + outcome
  }

  // A tool line starts a new line, unless nothing has been written; what is said next continues where it stands.
  function Written(text: string, p: Piece): string {
    match p
    case Said(s) => text + s
    case Did(t, o) => (if text == "" then "" else text + "\n") + Line(t, o)
  }

  function Rendered(ps: seq<Piece>): string {
    if ps == [] then "" else Written(Rendered(ps[..|ps| - 1]), ps[|ps| - 1])
  }

  // ---- the walk, turn by turn ----

  datatype Turn = UserTurn(content: Option<string>) | AssistantTurn(pieces: seq<Piece>)

  datatype Walk = Walk(turns: seq<Turn>, pieces: seq<Piece>, pending: map<CallId, Tool>, order: seq<CallId>)

  function Begin(): Walk {
    Walk([], [], map[], [])
  }

  const NO_RESULT := "(no result)"

  // The tools that started and never reported back, in the order they started.
  function Drained(order: seq<CallId>, pending: map<CallId, Tool>): seq<Piece> {
    if order == [] then []
    else if order[0] in pending then [Did(pending[order[0]], NO_RESULT)] + Drained(order[1..], pending - {order[0]})
    else Drained(order[1..], pending)
  }

  // The end of a turn: pending tools are written, then the turn is closed.
  function Closed(w: Walk): Walk {
    Walk(w.turns + [AssistantTurn(w.pieces + Drained(w.order, w.pending))], [], map[], [])
  }

  function ToolName(name: string): string {
    if name == "" then "(unnamed tool)" else name
  }

  function Ended(w: Walk, id: CallId): Tool {
    if id in w.pending then w.pending[id] else Tool("(unknown tool)", "")
  }

  function Step(w: Walk, ev: Event, tools: bool): Walk {
    match ev
    case UserMessage(c) => Closed(w).(turns := Closed(w).turns + [UserTurn(c)])
    case ContentDelta(d) => w.(pieces := w.pieces + [Said(d)])
    case ToolStart(id, name, args) =>
      if tools then w.(pending := w.pending[id := Tool(ToolName(name), args)], order := w.order + [id]) else w
    case ToolEnd(id, outcome) =>
      if tools then w.(pieces := w.pieces + [Did(Ended(w, id), outcome)], pending := w.pending - {id}) else w
    case OtherEvent => w
  }

  function Walked(w: Walk, evs: seq<Event>, tools: bool): Walk {
    if evs == [] then w else Step(Walked(w, evs[..|evs| - 1], tools), evs[|evs| - 1], tools)
  }

  function Turns(evs: seq<Event>, tools: bool): seq<Turn> {
    Closed(Walked(Begin(), evs, tools)).turns
  }

  // A turn is shown trimmed, or not at all if it is blank.
  function ShownTurn(t: Turn): seq<Message> {
    match t
    case UserTurn(None) => []
    case UserTurn(Some(c)) => if Blank(c) then [] else [User(Trim(c))]
    case AssistantTurn(ps) => if Blank(Rendered(ps)) then [] else [Assistant(Trim(Rendered(ps)))]
  }

  function Shown(turns: seq<Turn>): seq<Message> {
    if turns == [] then [] else Shown(turns[..|turns| - 1]) + ShownTurn(turns[|turns| - 1])
  }

  // ---- the loop ----

  // Every pending tool is in the order it started in.
  predicate OrderCovers(pending: map<CallId, Tool>, order: seq<CallId>) {
    forall id :: id in pending ==> id in order
  }

  method Drain(assistant: string, pending: map<CallId, Tool>, order: seq<CallId>, ghost ps: seq<Piece>)
    returns (text: string)
    requires assistant == Rendered(ps)
    ensures text == Rendered(ps + Drained(order, pending))
  {
    text := assistant;
    var left := pending;
    ghost var done := ps;
    for i := 0 to |order|
      invariant text == Rendered(done) && done + Drained(order[i..], left) == ps + Drained(order, pending)
    {
      assert order[i..][1..] == order[i + 1..];
      var id := order[i];
      if id in left {
        var p := Did(left[id], NO_RESULT);
        assert (done + [p])[..|done|] == done;
        assert done + Drained(order[i..], left) == (done + [p]) + Drained(order[i + 1..], left - {id});
        text := Written(text, p);
        done := done + [p];
        left := left - {id};
      }
    }
    assert done == ps + Drained(order, pending);
  }

  // The closures flushAssistant and drainPending, at a turn boundary or at the end.
  method Close(msgs: seq<Message>, assistant: string, ghost w: Walk, pending: map<CallId, Tool>, order: seq<CallId>)
    returns (next: seq<Message>)
    requires msgs == Shown(w.turns) && assistant == Rendered(w.pieces) && pending == w.pending && order == w.order
    ensures next == Shown(Closed(w).turns)
  {
    hide Trim, Blank, Drained, Shown, Rendered;
    ShownGrows(w.turns, AssistantTurn(w.pieces + Drained(order, pending)));
    var text := Drain(assistant, pending, order, w.pieces);
    next := if !Blank(text) then msgs + [Assistant(Trim(text))] else msgs;
  }

  method Reconstruct(evs: seq<Event>, includeTools: bool) returns (msgs: seq<Message>)
    ensures msgs == Shown(Turns(evs, includeTools))
  {
    hide Trim, Blank, Rendered, Shown, Closed, Walked;
    msgs := [];
    var assistant := "";
    var pending: map<CallId, Tool> := map[];
    var order: seq<CallId> := [];
    ghost var w := Begin();
    WalkStarts(evs, includeTools);
    for i := 0 to |evs|
      invariant w == Walked(Begin(), evs[..i], includeTools)
      invariant msgs == Shown(w.turns) && assistant == Rendered(w.pieces) && pending == w.pending && order == w.order
    {
      WalkNext(evs, i, includeTools);
      ghost var before := w;
      w := Step(w, evs[i], includeTools);
      match evs[i] {
        case UserMessage(content) =>
          msgs := Close(msgs, assistant, before, pending, order);
          ClosedIsFresh(before);
          ShownGrows(Closed(before).turns, UserTurn(content));
          assistant, pending, order := "", map[], [];
          if content.Some? && !Blank(content.value) {
            msgs := msgs + [User(Trim(content.value))];
          }
        case ContentDelta(d) =>
          RenderedGrows(before.pieces, Said(d));
          assistant := assistant + d;
        case ToolStart(id, name, args) =>
          if includeTools {
            pending := pending[id := Tool(ToolName(name), args)];
            order := order + [id];
          }
        case ToolEnd(id, outcome) =>
          if includeTools {
            var t := if id in pending then pending[id] else Tool("(unknown tool)", "");
            RenderedGrows(before.pieces, Did(t, outcome));
            assistant := Written(assistant, Did(t, outcome));
            pending := pending - {id};
          }
        case OtherEvent =>
      }
    }
    assert evs[..|evs|] == evs;
    msgs := Close(msgs, assistant, w, pending, order);
  }

  lemma WalkStarts(evs: seq<Event>, tools: bool)
    ensures Walked(Begin(), evs[..0], tools) == Begin() && Shown([]) == [] && Rendered([]) == ""
  {
  }

  lemma WalkNext(evs: seq<Event>, i: nat, tools: bool)
    requires i < |evs|
    ensures Walked(Begin(), evs[..i + 1], tools) == Step(Walked(Begin(), evs[..i], tools), evs[i], tools)
  {
    assert evs[..i + 1][..i] == evs[..i];
  }

  lemma RenderedGrows(ps: seq<Piece>, p: Piece)
    ensures Rendered(ps + [p]) == Written(Rendered(ps), p)
  {
    assert (ps + [p])[..|ps|] == ps;
  }

  lemma ClosedIsFresh(w: Walk)
    ensures Closed(w).pieces == [] && Closed(w).pending == map[] && Closed(w).order == [] && Rendered([]) == ""
  {
  }

  lemma ShownGrows(turns: seq<Turn>, t: Turn)
    ensures Shown(turns + [t]) == Shown(turns) + ShownTurn(t)
  {
    assert (turns + [t])[..|turns|] == turns;
  }

  // ---- turn boundaries ----

  lemma {:induction false} WalkConcat(w: Walk, a: seq<Event>, b: seq<Event>, tools: bool)
    ensures Walked(w, a + b, tools) == Walked(Walked(w, a, tools), b, tools)
  {
    if b == [] {
      assert a + b == a;
    } else {
      assert (a + b)[..|a + b| - 1] == a + b[..|b| - 1];
      WalkConcat(w, a, b[..|b| - 1], tools);
    }
  }

  // Earlier turns only stand in front of what is walked later.
  function After(turns: seq<Turn>, w: Walk): Walk {
    w.(turns := turns + w.turns)
  }

  lemma StepAfter(turns: seq<Turn>, w: Walk, ev: Event, tools: bool)
    ensures Step(After(turns, w), ev, tools) == After(turns, Step(w, ev, tools))
  {
    hide Drained;
    if ev.UserMessage? {
      var mid := AssistantTurn(w.pieces + Drained(w.order, w.pending));
      assert (turns + w.turns) + [mid] + [UserTurn(ev.content)] == turns + (w.turns + [mid] + [UserTurn(ev.content)]);
    }
  }

  lemma {:induction false} WalkAfter(turns: seq<Turn>, w: Walk, evs: seq<Event>, tools: bool)
    ensures Walked(After(turns, w), evs, tools) == After(turns, Walked(w, evs, tools))
  {
    hide Step;
    if evs != [] {
      WalkAfter(turns, w, evs[..|evs| - 1], tools);
      StepAfter(turns, Walked(w, evs[..|evs| - 1], tools), evs[|evs| - 1], tools);
    }
  }

  lemma {:induction false} ShownConcat(a: seq<Turn>, b: seq<Turn>)
    ensures Shown(a + b) == Shown(a) + Shown(b)
  {
    hide ShownTurn;
    if b == [] {
      assert a + b == a;
    } else {
      assert (a + b)[..|a + b| - 1] == a + b[..|b| - 1];
      ShownConcat(a, b[..|b| - 1]);
    }
  }

  // The transcript of a session is the transcripts of its parts: cutting the events where a user speaks cuts the
  // messages there too, with tool lines or without.
  lemma SplitsAtUserMessages(a: seq<Event>, b: seq<Event>, tools: bool)
    requires b != [] && b[0].UserMessage?
    ensures Shown(Turns(a + b, tools)) == Shown(Turns(a, tools)) + Shown(Turns(b, tools))
  {
    hide Trim, Blank, Drained, Walked, Shown;
    var w := Walked(Begin(), a, tools);
    var rest := b[1..];
    assert b == [b[0]] + rest;
    WalkConcat(Begin(), a, b, tools);
    WalkConcat(w, [b[0]], rest, tools);
    WalkConcat(Begin(), [b[0]], rest, tools);
    OneStep(w, b[0], tools);
    OneStep(Begin(), b[0], tools);
    // Both walks go on from a new turn after the user's message.
    var next := Walk([UserTurn(b[0].content)], [], map[], []);
    FreshStart(w, b[0], tools);
    WalkAfter(Closed(w).turns, next, rest, tools);
    WalkAfter([AssistantTurn([])], next, rest, tools);
    var tail := Walked(next, rest, tools);
    ClosedAfter(Closed(w).turns, tail);
    ClosedAfter([AssistantTurn([])], tail);
    ShownConcat(Closed(w).turns, Closed(tail).turns);
    ShownConcat([AssistantTurn([])], Closed(tail).turns);
    EmptyTurn();
  }

  lemma OneStep(w: Walk, ev: Event, tools: bool)
    ensures Walked(w, [ev], tools) == Step(w, ev, tools)
  {
    assert [ev][..0] == [];
  }

  lemma FreshStart(w: Walk, ev: Event, tools: bool)
    requires ev.UserMessage?
    ensures var next := Walk([UserTurn(ev.content)], [], map[], []);
            Step(w, ev, tools) == After(Closed(w).turns, next) &&
            Step(Begin(), ev, tools) == After([AssistantTurn([])], next)
  {
    assert Begin().pieces + Drained(Begin().order, Begin().pending) == [];
  }

  lemma ClosedAfter(turns: seq<Turn>, w: Walk)
    ensures Closed(After(turns, w)).turns == turns + Closed(w).turns
  {
    hide Drained;
  }

  lemma EmptyTurn()
    ensures Shown([AssistantTurn([])]) == []
  {
    assert Blank("");
  }

  // ---- the two shapes ----

  // What was said, without the tool lines.
  function SaidOnly(ps: seq<Piece>): seq<Piece> {
    if ps == [] then []
    else SaidOnly(ps[..|ps| - 1]) + (if ps[|ps| - 1].Said? then [ps[|ps| - 1]] else [])
  }

  function WithoutTools(t: Turn): Turn {
    if t.AssistantTurn? then AssistantTurn(SaidOnly(t.pieces)) else t
  }

  predicate SameTalk(a: seq<Turn>, b: seq<Turn>) {
    |a| == |b| && forall i :: 0 <= i < |a| ==> WithoutTools(a[i]) == b[i]
  }

  lemma {:induction false} SaidConcat(a: seq<Piece>, b: seq<Piece>)
    ensures SaidOnly(a + b) == SaidOnly(a) + SaidOnly(b)
  {
    if b == [] {
      assert a + b == a;
    } else {
      assert (a + b)[..|a + b| - 1] == a + b[..|b| - 1];
      SaidConcat(a, b[..|b| - 1]);
    }
  }

  lemma {:induction false} DrainedSaysNothing(order: seq<CallId>, pending: map<CallId, Tool>)
    ensures SaidOnly(Drained(order, pending)) == []
  {
    if order != [] {
      if order[0] in pending {
        DrainedSaysNothing(order[1..], pending - {order[0]});
        SaidConcat([Did(pending[order[0]], NO_RESULT)], Drained(order[1..], pending - {order[0]}));
        OnePiece(Did(pending[order[0]], NO_RESULT));
      } else {
        DrainedSaysNothing(order[1..], pending);
      }
    }
  }

  lemma OnePiece(p: Piece)
    ensures SaidOnly([p]) == if p.Said? then [p] else []
  {
    assert [p][..0] == [];
  }

  // The tool walk, stripped, is the plain walk.
  predicate Parallel(full: Walk, plain: Walk) {
    SameTalk(full.turns, plain.turns) && SaidOnly(full.pieces) == plain.pieces && plain.pending == map[] &&
    plain.order == []
  }

  lemma ClosedParallel(full: Walk, plain: Walk)
    requires Parallel(full, plain)
    ensures Parallel(Closed(full), Closed(plain))
  {
    hide SaidOnly;
    var extra := Drained(full.order, full.pending);
    SaidConcat(full.pieces, extra);
    DrainedSaysNothing(full.order, full.pending);
    assert Drained(plain.order, plain.pending) == [];
    NothingSaid();
  }

  lemma NothingSaid()
    ensures SaidOnly([]) == []
  {
  }

  lemma StepParallel(full: Walk, plain: Walk, ev: Event)
    requires Parallel(full, plain)
    ensures Parallel(Step(full, ev, true), Step(plain, ev, false))
  {
    hide SaidOnly, Closed;
    match ev
    case UserMessage(_) => ClosedParallel(full, plain);
    case ContentDelta(d) =>
      SaidConcat(full.pieces, [Said(d)]);
      OnePiece(Said(d));
    case ToolEnd(id, o) =>
      SaidConcat(full.pieces, [Did(Ended(full, id), o)]);
      OnePiece(Did(Ended(full, id), o));
    case _ =>
  }

  lemma {:induction false} WalksParallel(evs: seq<Event>)
    ensures Parallel(Walked(Begin(), evs, true), Walked(Begin(), evs, false))
  {
    hide Step;
    if evs != [] {
      WalksParallel(evs[..|evs| - 1]);
      StepParallel(Walked(Begin(), evs[..|evs| - 1], true), Walked(Begin(), evs[..|evs| - 1], false), evs[|evs| - 1]);
    } else {
      NothingSaid();
    }
  }

  // The transcript and the rehydrated conversation have the same turns, the same user text, and in every assistant
  // turn the same deltas in the same order; they differ in tool lines alone.
  lemma BothShapesSayTheSame(evs: seq<Event>)
    ensures SameTalk(Turns(evs, true), Turns(evs, false))
  {
    hide Walked, Closed;
    WalksParallel(evs);
    ClosedParallel(Walked(Begin(), evs, true), Walked(Begin(), evs, false));
  }

  // Speech that follows a tool line in the same turn goes on in that line: nothing separates the two.
  lemma SpeechJoinsTheLine(ps: seq<Piece>, tool: Tool, outcome: string, said: string)
    ensures var before := Rendered(ps);
            Rendered(ps + [Did(tool, outcome)] + [Said(said)]) ==
            (if before == "" then "" else before + "\n") + (Line(tool, outcome) + said)
  {
    hide Line, Rendered;
    RenderedGrows(ps, Did(tool, outcome));
    RenderedGrows(ps + [Did(tool, outcome)], Said(said));
  }

  // ---- every action is there ----

  function LinesIn(ps: seq<Piece>): nat {
    if ps == [] then 0 else LinesIn(ps[..|ps| - 1]) + (if ps[|ps| - 1].Did? then 1 else 0)
  }

  function Lines(turns: seq<Turn>): nat {
    if turns == [] then 0
    else
      var last := turns[|turns| - 1];
      Lines(turns[..|turns| - 1]) + if last.AssistantTurn? then LinesIn(last.pieces) else 0
  }

  // The calls that have started since the last user message and have not ended.
  function Open(evs: seq<Event>): set<CallId> {
    if evs == [] then {}
    else
      var before := Open(evs[..|evs| - 1]);
      match evs[|evs| - 1]
      case UserMessage(_) => {}
      case ToolStart(id, _, _) => before + {id}
      case ToolEnd(id, _) => before - {id}
      case _ => before
  }

  // Tool starts, ends that close no open call, and starts under the id of a call that is still open.
  datatype Tally = Tally(starts: nat, strays: nat, reopened: nat)

  function Tallied(evs: seq<Event>): Tally {
    if evs == [] then Tally(0, 0, 0)
    else
      var t, open := Tallied(evs[..|evs| - 1]), Open(evs[..|evs| - 1]);
      match evs[|evs| - 1]
      case ToolStart(id, _, _) => Tally(t.starts + 1, t.strays, t.reopened + (if id in open then 1 else 0))
      case ToolEnd(id, _) => Tally(t.starts, t.strays + (if id in open then 0 else 1), t.reopened)
      case _ => t
  }

  lemma {:induction false} LinesConcat(a: seq<Piece>, b: seq<Piece>)
    ensures LinesIn(a + b) == LinesIn(a) + LinesIn(b)
  {
    if b == [] {
      assert a + b == a;
    } else {
      assert (a + b)[..|a + b| - 1] == a + b[..|b| - 1];
      LinesConcat(a, b[..|b| - 1]);
    }
  }

  lemma OneLine(p: Piece)
    ensures LinesIn([p]) == if p.Did? then 1 else 0
  {
    assert [p][..0] == [];
  }

  lemma TurnGrows(turns: seq<Turn>, t: Turn)
    ensures Lines(turns + [t]) == Lines(turns) + if t.AssistantTurn? then LinesIn(t.pieces) else 0
  {
    assert (turns + [t])[..|turns|] == turns;
  }

  // Draining writes each pending call once.
  lemma {:induction false} DrainedCount(order: seq<CallId>, pending: map<CallId, Tool>)
    requires OrderCovers(pending, order)
    ensures LinesIn(Drained(order, pending)) == |pending|
  {
    if order == [] {
      assert pending == map[];
    } else if order[0] in pending {
      var rest := pending - {order[0]};
      assert pending.Keys == rest.Keys + {order[0]};
      assert |pending| == |pending.Keys| && |rest| == |rest.Keys|;
      DrainedCount(order[1..], rest);
      LinesConcat([Did(pending[order[0]], NO_RESULT)], Drained(order[1..], rest));
      OneLine(Did(pending[order[0]], NO_RESULT));
    } else {
      DrainedCount(order[1..], pending);
    }
  }

  predicate Balanced(w: Walk, t: Tally, open: set<CallId>) {
    && w.pending.Keys == open && OrderCovers(w.pending, w.order)
    && Lines(w.turns) + LinesIn(w.pieces) + |w.pending.Keys| + t.reopened == t.starts + t.strays
  }

  lemma ClosedBalanced(w: Walk, t: Tally, open: set<CallId>)
    requires Balanced(w, t, open)
    ensures Balanced(Closed(w), t, {})
  {
    hide Lines, LinesIn, Drained;
    var extra := Drained(w.order, w.pending);
    DrainedCount(w.order, w.pending);
    assert |w.pending| == |w.pending.Keys|;
    LinesConcat(w.pieces, extra);
    TurnGrows(w.turns, AssistantTurn(w.pieces + extra));
    NoLines();
  }

  lemma NoLines()
    ensures LinesIn([]) == 0 && Lines([]) == 0
  {
  }

  lemma EndBalanced(w: Walk, t: Tally, open: set<CallId>, id: CallId, outcome: string)
    requires Balanced(w, t, open)
    ensures Balanced(Step(w, ToolEnd(id, outcome), true),
                     Tally(t.starts, t.strays + (if id in open then 0 else 1), t.reopened), open - {id})
  {
    hide Lines, LinesIn;
    var p := Did(Ended(w, id), outcome);
    LinesConcat(w.pieces, [p]);
    OneLine(p);
    assert (w.pending - {id}).Keys == open - {id};
  }

  lemma StartBalanced(w: Walk, t: Tally, open: set<CallId>, id: CallId, name: string, args: string)
    requires Balanced(w, t, open)
    ensures Balanced(Step(w, ToolStart(id, name, args), true),
                     Tally(t.starts + 1, t.strays, t.reopened + (if id in open then 1 else 0)), open + {id})
  {
    hide Lines, LinesIn;
    var next := Step(w, ToolStart(id, name, args), true);
    assert next.pending.Keys == open + {id};
    if id in open {
      assert open + {id} == open;
    }
  }

  lemma {:induction false} WalkBalanced(evs: seq<Event>)
    ensures Balanced(Walked(Begin(), evs, true), Tallied(evs), Open(evs))
  {
    hide Balanced, Step;
    if evs == [] {
      StartsBalanced();
    } else {
      var front, ev := evs[..|evs| - 1], evs[|evs| - 1];
      WalkBalanced(front);
      var w, t, open := Walked(Begin(), front, true), Tallied(front), Open(front);
      match ev
      case ToolEnd(id, o) => EndBalanced(w, t, open, id, o);
      case ToolStart(id, n, a) => StartBalanced(w, t, open, id, n, a);
      case UserMessage(c) => UserBalanced(w, t, open, c);
      case ContentDelta(d) => SaidBalanced(w, t, open, d);
      case OtherEvent => OtherBalanced(w, t, open);
    }
  }

  lemma StartsBalanced()
    ensures Balanced(Begin(), Tally(0, 0, 0), {})
  {
  }

  lemma UserBalanced(w: Walk, t: Tally, open: set<CallId>, c: Option<string>)
    requires Balanced(w, t, open)
    ensures Balanced(Step(w, UserMessage(c), true), t, {})
  {
    hide Lines, LinesIn;
    ClosedBalanced(w, t, open);
    TurnGrows(Closed(w).turns, UserTurn(c));
  }

  lemma SaidBalanced(w: Walk, t: Tally, open: set<CallId>, d: string)
    requires Balanced(w, t, open)
    ensures Balanced(Step(w, ContentDelta(d), true), t, open)
  {
    hide Lines, LinesIn;
    LinesConcat(w.pieces, [Said(d)]);
    OneLine(Said(d));
  }

  lemma OtherBalanced(w: Walk, t: Tally, open: set<CallId>)
    requires Balanced(w, t, open)
    ensures Balanced(Step(w, OtherEvent, true), t, open)
  {
  }

  // The transcript has one line for every tool start and one for every end that closes nothing, if and only if no call
  // is started under the id of one that is still open; each such restart loses exactly one line.
  lemma EveryActionHasItsLine(evs: seq<Event>)
    ensures var t := Tallied(evs);
            Lines(Turns(evs, true)) + t.reopened == t.starts + t.strays
  {
    hide Walked, Tallied, Open, Lines;
    WalkBalanced(evs);
    ClosedBalanced(Walked(Begin(), evs, true), Tallied(evs), Open(evs));
    NoLines();
  }
}
