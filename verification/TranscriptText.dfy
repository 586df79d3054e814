/**
 What a transcript says (go/runner.go), read off the events alone: cut where a user speaks, it is the speech of each
 cut, and with tools one line for each call that ended and each that never did.
 */
module TranscriptText {
  import opened Text
  import opened Transcript

  // ---- the messages, from the events ----

  // Everything the model said, run together.
  function Speech(evs: seq<Event>): string {
    if evs == [] then ""
    else Delta(evs[0]) + Speech(evs[1..])
  }

  function Delta(ev: Event): string {
    if ev.ContentDelta? then ev.delta else ""
  }

  function Named(name: string): string {
    if name == "" then "(unnamed tool)" else name
  }

  // The last start under the id, unless an end under it has followed.
  function OpenStart(evs: seq<Event>, id: CallId): Option<Tool> {
    if evs == [] then None
    else
      match evs[|evs| - 1]
      case ToolStart(x, name, args) =>
        if x == id then Some(Tool(Named(name), args)) else OpenStart(evs[..|evs| - 1], id)
      case ToolEnd(x, _) => if x == id then None else OpenStart(evs[..|evs| - 1], id)
      case _ => OpenStart(evs[..|evs| - 1], id)
  }

  // What an end that closes no start is written as.
  function Closes(evs: seq<Event>, id: CallId): Tool {
    match OpenStart(evs, id)
    case Some(t) => t
    case None => Tool("(unknown tool)", "")
  }

  function OnOwnLine(text: string, t: Tool, outcome: string): string {
    (if text == "" then "" else text + "\n") + "[tool] " + t.name + "(" + t.args + ") \U{2192} " + outcome
  }

  // The text of a cut, up to its last event.
  function Told(evs: seq<Event>): string {
    if evs == [] then ""
    else
      var front := evs[..|evs| - 1];
      match evs[|evs| - 1]
      case ContentDelta(d) => Told(front) + d
      case ToolEnd(id, outcome) => OnOwnLine(Told(front), Closes(front, id), outcome)
      case _ => Told(front)
  }

  function Starts(evs: seq<Event>): seq<CallId> {
    if evs == [] then []
    else if evs[|evs| - 1].ToolStart? then Starts(evs[..|evs| - 1]) + [evs[|evs| - 1].id]
    else Starts(evs[..|evs| - 1])
  }

  // Each id once, where it first stands.
  function Once(ids: seq<CallId>, seen: set<CallId>): seq<CallId> {
    if ids == [] then []
    else if ids[0] in seen then Once(ids[1..], seen)
    else [ids[0]] + Once(ids[1..], seen + {ids[0]})
  }

  // The starts no end has closed, in the order their ids first started.
  function WithUnfinished(text: string, ids: seq<CallId>, evs: seq<Event>): string
    decreases |ids|
  {
    if ids == [] then text
    else
      var next := match OpenStart(evs, ids[0]) case Some(t) => OnOwnLine(text, t, "(no result)") case None => text;
      WithUnfinished(next, ids[1..], evs)
  }

  function CutText(evs: seq<Event>, tools: bool): string {
    if tools then WithUnfinished(Told(evs), Once(Starts(evs), {}), evs) else Speech(evs)
  }

  // The next user message, or the end.
  function NextUser(evs: seq<Event>): (i: nat)
    ensures i <= |evs| && (i < |evs| ==> evs[i].UserMessage?)
    ensures forall k :: 0 <= k < i ==> !evs[k].UserMessage?
  {
    if evs == [] || evs[0].UserMessage? then 0 else 1 + NextUser(evs[1..])
  }

  function AssistantSays(text: string): seq<Message> {
    if Trim(text) == "" then [] else [Assistant(Trim(text))]
  }

  function UserSays(content: Option<string>): seq<Message> {
    match content
    case None => []
    case Some(c) => if Trim(c) == "" then [] else [User(Trim(c))]
  }

  function Messages(evs: seq<Event>, tools: bool): seq<Message>
    decreases |evs|
  {
    var i := NextUser(evs);
    if i == |evs| then AssistantSays(CutText(evs, tools))
    else AssistantSays(CutText(evs[..i], tools)) + UserSays(evs[i].content) + Messages(evs[i + 1..], tools)
  }

  // ---- within a cut ----

  predicate NoUser(evs: seq<Event>) {
    forall i :: 0 <= i < |evs| ==> !evs[i].UserMessage?
  }

  lemma NoUserFront(evs: seq<Event>)
    requires NoUser(evs) && evs != []
    ensures NoUser(evs[..|evs| - 1]) && !evs[|evs| - 1].UserMessage?
  {
  }

  lemma SpeechUnfolds(ev: Event, rest: seq<Event>)
    ensures Speech([ev] + rest) == Delta(ev) + Speech(rest)
  {
    assert ([ev] + rest)[1..] == rest;
  }

  lemma NothingSpoken()
    ensures Speech([]) == ""
  {
  }

  lemma Associates(a: string, b: string, c: string)
    ensures a + (b + c) == a + b + c
  {
  }

  lemma {:induction false} SpeechGrows(evs: seq<Event>, ev: Event)
    ensures Speech(evs + [ev]) == Speech(evs) + Delta(ev)
  {
    hide Speech, Delta;
    NothingSpoken();
    if evs == [] {
      SpeechUnfolds(ev, []);
      assert evs + [ev] == [ev] + [];
    } else {
      var first, rest := evs[0], evs[1..];
      SpeechGrows(rest, ev);
      SpeechUnfolds(first, rest);
      SpeechUnfolds(first, rest + [ev]);
      assert evs == [first] + rest && evs + [ev] == [first] + (rest + [ev]);
      Associates(Delta(first), Speech(rest), Delta(ev));
    }
  }

  lemma {:induction false} PlainCut(evs: seq<Event>)
    requires NoUser(evs)
    ensures var w := Walked(Begin(), evs, false);
            w.turns == [] && Rendered(w.pieces) == Speech(evs) && w.pending == map[] && w.order == []
  {
    hide Rendered, Speech;
    if evs == [] {
      NothingTold();
    } else {
      var front, ev := evs[..|evs| - 1], evs[|evs| - 1];
      NoUserFront(evs);
      PlainCut(front);
      assert front + [ev] == evs;
      SpeechGrows(front, ev);
      if ev.ContentDelta? {
        RenderedGrows(Walked(Begin(), front, false).pieces, Said(ev.delta));
      }
    }
  }

  lemma NothingTold()
    ensures Rendered([]) == "" && Speech([]) == ""
  {
  }

  // The pending tools are the open starts.
  ghost predicate PendingIs(pending: map<CallId, Tool>, evs: seq<Event>) {
    forall id :: OpenStart(evs, id) == if id in pending then Some(pending[id]) else None
  }

  lemma WrittenLine(text: string, t: Tool, outcome: string)
    ensures Written(text, Did(t, outcome)) == OnOwnLine(text, t, outcome)
  {
    var head := if text == "" then "" else text + "\n";
    assert head + ("[tool] " + t.name + "(" + t.args + ") \U{2192} " + outcome) ==
           head + "[tool] " + t.name + "(" + t.args + ") \U{2192} " + outcome;
  }

  ghost predicate CutWalk(w: Walk, evs: seq<Event>) {
    w.turns == [] && Rendered(w.pieces) == Told(evs) && PendingIs(w.pending, evs) && w.order == Starts(evs)
  }

  lemma StepInCut(w: Walk, front: seq<Event>, ev: Event)
    requires CutWalk(w, front) && !ev.UserMessage?
    ensures CutWalk(Step(w, ev, true), front + [ev])
  {
    hide Rendered, Line, OnOwnLine;
    var evs := front + [ev];
    assert evs[..|evs| - 1] == front;
    match ev
    case ContentDelta(d) => RenderedGrows(w.pieces, Said(d));
    case ToolEnd(id, outcome) =>
      assert OpenStart(front, id) == if id in w.pending then Some(w.pending[id]) else None;
      RenderedGrows(w.pieces, Did(Ended(w, id), outcome));
      WrittenLine(Rendered(w.pieces), Ended(w, id), outcome);
    case _ =>
  }

  lemma {:induction false} ToolCut(evs: seq<Event>)
    requires NoUser(evs)
    ensures CutWalk(Walked(Begin(), evs, true), evs)
  {
    hide Step, CutWalk;
    if evs == [] {
      NothingStarted();
    } else {
      NoUserFront(evs);
      ToolCut(evs[..|evs| - 1]);
      StepInCut(Walked(Begin(), evs[..|evs| - 1], true), evs[..|evs| - 1], evs[|evs| - 1]);
      assert evs[..|evs| - 1] + [evs[|evs| - 1]] == evs;
    }
  }

  lemma NothingStarted()
    ensures CutWalk(Begin(), [])
  {
  }

  // Draining writes the open starts of the order, each once.
  lemma {:induction false} DrainedText(ps: seq<Piece>, order: seq<CallId>, left: map<CallId, Tool>, seen: set<CallId>,
                                       evs: seq<Event>)
    requires left.Keys !! seen
    requires forall id :: id !in seen ==> OpenStart(evs, id) == if id in left then Some(left[id]) else None
    ensures Rendered(ps + Drained(order, left)) == WithUnfinished(Rendered(ps), Once(order, seen), evs)
    decreases |order|
  {
    hide Rendered, OpenStart, OnOwnLine, Line;
    if order == [] {
      assert ps + [] == ps;
    } else {
      var id := order[0];
      if id in left {
        var p := Did(left[id], NO_RESULT);
        RenderedGrows(ps, p);
        WrittenLine(Rendered(ps), left[id], NO_RESULT);
        DrainedText(ps + [p], order[1..], left - {id}, seen + {id}, evs);
        assert ps + Drained(order, left) == ps + [p] + Drained(order[1..], left - {id});
      } else if id in seen {
        DrainedText(ps, order[1..], left, seen, evs);
      } else {
        DrainedText(ps, order[1..], left, seen + {id}, evs);
      }
      OnceUnfolds(order, seen);
    }
  }

  lemma OnceUnfolds(ids: seq<CallId>, seen: set<CallId>)
    requires ids != []
    ensures ids[0] !in seen ==>
              Once(ids, seen) == [ids[0]] + Once(ids[1..], seen + {ids[0]}) &&
              Once(ids, seen)[1..] == Once(ids[1..], seen + {ids[0]})
  {
  }

  lemma CutSays(evs: seq<Event>, tools: bool)
    requires NoUser(evs)
    ensures Shown(Turns(evs, tools)) == AssistantSays(CutText(evs, tools))
  {
    hide Walked, Rendered, Drained, Once, WithUnfinished, Trim, Blank;
    var w := Walked(Begin(), evs, tools);
    if tools {
      ToolCut(evs);
      DrainedText(w.pieces, w.order, w.pending, {}, evs);
    } else {
      PlainCut(evs);
      DrainsNothing();
      assert w.pieces + [] == w.pieces;
    }
    ShownOne(AssistantTurn(w.pieces + Drained(w.order, w.pending)));
    TrimBlank(CutText(evs, tools));
  }

  lemma DrainsNothing()
    ensures Drained([], map[]) == []
  {
  }

  lemma ShownOne(t: Turn)
    ensures Shown([] + [t]) == ShownTurn(t)
  {
    assert ([] + [t])[..0] == [];
  }

  // ---- across the cuts ----

  // A user message first: what it says, and then the rest.
  lemma UserFirst(ev: Event, rest: seq<Event>, tools: bool)
    requires ev.UserMessage?
    ensures Shown(Turns([ev] + rest, tools)) == UserSays(ev.content) + Shown(Turns(rest, tools))
  {
    hide Walked, Shown, Trim, Blank, Drained;
    var turns := [AssistantTurn([])] + [UserTurn(ev.content)];
    WalkConcat(Begin(), [ev], rest, tools);
    OneStep(Begin(), ev, tools);
    FreshStart(Begin(), ev, tools);
    assert Step(Begin(), ev, tools) == After(turns, Begin());
    WalkAfter(turns, Begin(), rest, tools);
    ClosedAfter(turns, Walked(Begin(), rest, tools));
    ShownConcat(turns, Turns(rest, tools));
    ShownConcat([AssistantTurn([])], [UserTurn(ev.content)]);
    EmptyTurn();
    OneTurn(UserTurn(ev.content));
    if ev.content.Some? {
      TrimBlank(ev.content.value);
    }
  }

  lemma OneTurn(t: Turn)
    ensures Shown([t]) == ShownTurn(t)
  {
    assert [t][..0] == [];
  }

  // For every list of events, with tool lines or without: the messages the loop returns are, cut by cut, the trimmed
  // text of the cut unless it is blank, and each user message that is not blank, trimmed. Without tools the text is
  // the deltas run together. With tools every end adds a line with the name and arguments of the open start under its
  // id and its own outcome, and every start no end has closed adds a line that says so.
  lemma {:induction false} TranscriptSays(evs: seq<Event>, tools: bool)
    ensures Shown(Turns(evs, tools)) == Messages(evs, tools)
    decreases |evs|
  {
    hide Turns, Shown, CutText, AssistantSays, UserSays;
    var i := NextUser(evs);
    if i == |evs| {
      CutSays(evs, tools);
    } else {
      var before, after := evs[..i], evs[i + 1..];
      assert evs == before + ([evs[i]] + after);
      SplitsAtUserMessages(before, [evs[i]] + after, tools);
      CutSays(before, tools);
      UserFirst(evs[i], after, tools);
      TranscriptSays(after, tools);
    }
  }
}
