/**
 Why a remote request has the outcome it has: the first thing that ends it while it is in
 flight decides, and extension answers come in the order of their requests
 (src/dashboard-remote-rich-hub.ts:561-638, 710-721, 875-894).
 */
module RemoteOutcomes {
  import opened Wrappers
  import opened RemoteCommands

  // The step as an event on the wire: a frame of an older socket, or after disposal, is none.
  predicate Heard(h: Hub, socket: nat) { socket == h.epoch && !h.disposed }

  // What the step makes of a command in flight: its response, the answer to its tree navigation,
  // its timer, the loss of the socket, or disposal.
  function EndsCommand(h: Hub, step: Step, id: Id): Option<Outcome>
    requires id in h.commands
  {
    match step
    case Response(socket, to, data) => if Heard(h, socket) && to == Some(id) then Some(Answered(data)) else None
    case TreeAnswer(socket, to, result) =>
      if Heard(h, socket) && to == id && h.commands[id].operation == NavigateTree then
        match result
        case TreeError(e) => Some(Refused(e))
        case TreeData(d) => Some(Answered(d))
        case TreeMissing => Some(ProtocolError)
      else None
    case Timeout(t) => if t == id then Some(TimedOut) else None
    case Disconnect(socket) => if Heard(h, socket) then Some(ConnectionLost) else None
    case Dispose => if h.disposed then None else Some(Closed)
    case _ => None
  }

  // The first outcome along a run, if any step gives one.
  ghost function FirstEnd(limits: Limits, h: Hub, steps: seq<Step>, id: Id): Option<Outcome>
    decreases |steps|
  {
    if steps == [] then None
    else
      var but, last := steps[..|steps| - 1], steps[|steps| - 1];
      var m := Runs(limits, h, but);
      match FirstEnd(limits, h, but, id)
      case Some(o) => Some(o)
      case None => if id in m.commands then EndsCommand(m, last, id) else None
  }

  // The command still waits, or has this outcome and no other.
  ghost predicate Has(h: Hub, id: Id, outcome: Option<Outcome>) {
    && id in h.outcomes && id in h.written
    && (outcome.None? <==> id in h.commands)
    && h.outcomes[id] == (if outcome.Some? then [outcome.value] else [])
  }

  // The command waits on as it did.
  ghost predicate LeavesCommand(h: Hub, n: Hub, id: Id)
    requires id in h.commands
  {
    && id in n.commands && n.commands[id] == h.commands[id]
    && (id in h.outcomes ==> id in n.outcomes && n.outcomes[id] == h.outcomes[id])
    && h.written.Keys <= n.written.Keys
  }

  lemma SendLeaves(limits: Limits, h: Hub, operation: Operation, correlationId: Id, other: Id, sending: Sending, id: Id)
    requires id in h.commands && other != id
    ensures LeavesCommand(h, Send(limits, h, operation, correlationId, other, sending), id)
  {
  }

  lemma CommandLeaves(limits: Limits, h: Hub, step: Step, id: Id)
    requires h.commands.Keys <= h.written.Keys && id in h.commands && step.Command?
    ensures LeavesCommand(h, Do(limits, h, step), id)
  {
    hide Find, Remember, SendReply, Send;
    if step.id != id {
      SendLeaves(limits, h, step.call.operation, step.correlationId, step.id, step.sending, id);
    }
  }

  // What is about requests leaves every command.
  ghost predicate SameCommands(h: Hub, n: Hub) {
    n.commands == h.commands && n.outcomes == h.outcomes && n.written == h.written
  }

  lemma AsksKeep(h: Hub, id: Id, sending: Sending)
    ensures SameCommands(h, Asked(h, id, sending)) && SameCommands(h, ControlAsked(h, id, sending))
  {
  }

  lemma AnswersKeep(h: Hub, id: Id, socket: nat, data: Id)
    ensures SameCommands(h, AskEnded(h, id)) && SameCommands(h, ControlEnded(h))
    ensures SameCommands(h, ControlHeard(h, socket, data)) && SameCommands(h, Ready(h))
  {
    hide Dropped;
  }

  lemma RequestsLeave(limits: Limits, h: Hub, step: Step, id: Id)
    requires id in h.commands
    requires step.Ask? || step.AskTimeout? || step.Control? || step.ControlFrame? || step.ControlTimeout?
        || step.Closing? || step.Connect?
    ensures LeavesCommand(h, Do(limits, h, step), id)
  {
    if step.Ask? || step.Control? { AsksKeep(h, step.id, step.sending); }
    AnswersKeep(h, if step.AskTimeout? then step.id else 0, if step.ControlFrame? then step.socket else 0,
                if step.ControlFrame? then step.data else 0);
    hide Asked, ControlAsked, AskEnded, ControlEnded, ControlHeard, Ready;
  }

  // Steps that are about other commands or about requests.
  lemma OthersLeaveCommand(limits: Limits, h: Hub, step: Step, id: Id)
    requires h.commands.Keys <= h.written.Keys && id in h.commands
    requires !step.Response? && !step.TreeAnswer? && !step.Timeout? && !step.Disconnect? && !step.Dispose?
    ensures LeavesCommand(h, Do(limits, h, step), id)
  {
    hide Do, LeavesCommand;
    if step.Command? { CommandLeaves(limits, h, step, id); } else { RequestsLeave(limits, h, step, id); }
  }

  lemma AnswersCommand(limits: Limits, h: Hub, step: Step, id: Id)
    requires id in h.commands && id in h.outcomes && h.outcomes[id] == [] && id in h.written
    requires step.Response? || step.TreeAnswer? || step.Timeout?
    ensures Has(Do(limits, h, step), id, EndsCommand(h, step, id))
    ensures EndsCommand(h, step, id).None? ==> Do(limits, h, step).commands[id] == h.commands[id]
  {
  }

  lemma LosesCommand(limits: Limits, h: Hub, step: Step, id: Id)
    requires id in h.commands && id in h.outcomes && h.outcomes[id] == [] && id in h.written
    requires step.Disconnect? || step.Dispose?
    ensures Has(Do(limits, h, step), id, EndsCommand(h, step, id))
    ensures EndsCommand(h, step, id).None? ==> Do(limits, h, step).commands[id] == h.commands[id]
  {
    hide Waiting;
  }

  lemma StepEndsCommand(limits: Limits, h: Hub, step: Step, id: Id)
    requires HubOk(limits, h) && id in h.commands
    ensures Has(Do(limits, h, step), id, EndsCommand(h, step, id))
    ensures EndsCommand(h, step, id).None? ==> Do(limits, h, step).commands[id] == h.commands[id]
  {
    assert CommandOk(h, id);
    assert h.commands.Keys <= h.written.Keys;
    hide HubOk, Do;
    if step.Response? || step.TreeAnswer? || step.Timeout? { AnswersCommand(limits, h, step, id); }
    else if step.Disconnect? || step.Dispose? { LosesCommand(limits, h, step, id); }
    else { OthersLeaveCommand(limits, h, step, id); }
  }

  // What is settled stays settled.
  lemma StaysEnded(limits: Limits, h: Hub, step: Step, id: Id, outcome: Outcome)
    requires HubOk(limits, h) && Has(h, id, Some(outcome))
    ensures Has(Do(limits, h, step), id, Some(outcome))
  {
    StepGrows(limits, h, step);
    StepKeeps(limits, h, step);
    var n := Do(limits, h, step);
    hide Do;
    Unsettled(limits, n);
    hide HubOk;
  }

  // Over any run a command in flight has exactly the outcome of the first step that ends it,
  // and is in flight as long as none has.
  lemma {:induction false} FirstEndDecides(limits: Limits, h: Hub, steps: seq<Step>, id: Id)
    requires HubOk(limits, h) && id in h.commands
    ensures Has(Runs(limits, h, steps), id, FirstEnd(limits, h, steps, id))
    decreases |steps|
  {
    hide HubOk, Do, Has, EndsCommand;
    if steps == [] {
      NotEnded(limits, h, id);
    } else {
      var but, last := steps[..|steps| - 1], steps[|steps| - 1];
      var m := Runs(limits, h, but);
      FirstEndDecides(limits, h, but, id);
      RunGrows(limits, h, but);
      HasWaits(m, id, FirstEnd(limits, h, but, id));
      match FirstEnd(limits, h, but, id)
      case Some(o) => StaysEnded(limits, m, last, id, o);
      case None => StepEndsCommand(limits, m, last, id);
    }
  }

  lemma NotEnded(limits: Limits, h: Hub, id: Id)
    requires HubOk(limits, h) && id in h.commands
    ensures Has(h, id, None)
  {
    assert CommandOk(h, id);
  }

  lemma HasWaits(h: Hub, id: Id, outcome: Option<Outcome>)
    requires Has(h, id, outcome)
    ensures outcome.None? <==> id in h.commands
  {
  }

  // The k-th step gives the command its outcome, and none before it did.
  ghost predicate EndsAt(limits: Limits, h: Hub, steps: seq<Step>, id: Id, k: nat, outcome: Outcome) {
    && k < |steps|
    && id in Runs(limits, h, steps[..k]).commands
    && EndsCommand(Runs(limits, h, steps[..k]), steps[k], id) == Some(outcome)
  }

  lemma EndsAtOn(limits: Limits, h: Hub, steps: seq<Step>, id: Id, k: nat, outcome: Outcome)
    requires steps != [] && EndsAt(limits, h, steps[..|steps| - 1], id, k, outcome)
    ensures EndsAt(limits, h, steps, id, k, outcome)
  {
    assert steps[..|steps| - 1][..k] == steps[..k];
    hide Runs, EndsCommand;
  }

  // The first outcome was there before the last step, or that step gives it.
  lemma FirstEndAt(limits: Limits, h: Hub, steps: seq<Step>, id: Id)
    requires steps != [] && FirstEnd(limits, h, steps, id).Some?
    ensures
      var but := steps[..|steps| - 1];
      || FirstEnd(limits, h, but, id) == FirstEnd(limits, h, steps, id)
      || EndsAt(limits, h, steps, id, |but|, FirstEnd(limits, h, steps, id).value)
  {
    hide Runs, EndsCommand;
  }

  lemma {:induction false} FirstEndIsAStep(limits: Limits, h: Hub, steps: seq<Step>, id: Id, outcome: Outcome)
    requires FirstEnd(limits, h, steps, id) == Some(outcome)
    ensures exists k: nat :: EndsAt(limits, h, steps, id, k, outcome)
    decreases |steps|
  {
    assert steps != [];
    var but := steps[..|steps| - 1];
    hide EndsAt, FirstEnd;
    FirstEndAt(limits, h, steps, id);
    if FirstEnd(limits, h, but, id) == Some(outcome) {
      FirstEndIsAStep(limits, h, but, id, outcome);
      var k: nat :| EndsAt(limits, h, but, id, k, outcome);
      EndsAtOn(limits, h, steps, id, k, outcome);
    }
  }

  lemma {:induction false} StaysEndedOn(limits: Limits, h: Hub, steps: seq<Step>, id: Id, outcome: Outcome)
    requires HubOk(limits, h) && Has(h, id, Some(outcome))
    ensures Has(Runs(limits, h, steps), id, Some(outcome))
    decreases |steps|
  {
    hide HubOk, Do, Has;
    if steps != [] {
      var but := steps[..|steps| - 1];
      StaysEndedOn(limits, h, but, id, outcome);
      RunGrows(limits, h, but);
      StaysEnded(limits, Runs(limits, h, but), steps[|steps| - 1], id, outcome);
    }
  }

  lemma {:induction false} RunsOn(limits: Limits, h: Hub, a: seq<Step>, b: seq<Step>)
    ensures Runs(limits, h, a + b) == Runs(limits, Runs(limits, h, a), b)
    decreases |b|
  {
    hide Do;
    if b == [] {
      assert a + b == a;
    } else {
      assert (a + b)[..|a + b| - 1] == a + b[..|b| - 1];
      RunsOn(limits, h, a, b[..|b| - 1]);
    }
  }

  // A run is its first k steps, the next one, and the rest.
  lemma {:induction false} RunsThrough(limits: Limits, h: Hub, steps: seq<Step>, k: nat)
    requires k < |steps|
    ensures Runs(limits, h, steps) == Runs(limits, Do(limits, Runs(limits, h, steps[..k]), steps[k]), steps[k + 1..])
  {
    hide Do, Runs;
    var a, b, c := steps[..k], [steps[k]], steps[k + 1..];
    assert steps == a + b + c;
    RunsOn(limits, h, a + b, c);
    RunsOn(limits, h, a, b);
    OneStep(limits, Runs(limits, h, a), steps[k]);
  }

  // A step that ends the command decides, whatever follows it.
  lemma {:induction false} EndDecides(limits: Limits, h: Hub, steps: seq<Step>, id: Id, k: nat, outcome: Outcome)
    requires HubOk(limits, h) && EndsAt(limits, h, steps, id, k, outcome)
    ensures Has(Runs(limits, h, steps), id, Some(outcome))
  {
    var m := Runs(limits, h, steps[..k]);
    hide HubOk, Do, EndsCommand, Runs, Has;
    RunGrows(limits, h, steps[..k]);
    StepEndsCommand(limits, m, steps[k], id);
    StepKeeps(limits, m, steps[k]);
    StaysEndedOn(limits, Do(limits, m, steps[k]), steps[k + 1..], id, outcome);
    RunsThrough(limits, h, steps, k);
  }

  // Over any run: a command in flight was given an outcome if and only if some step, while it
  // was still in flight, was the response, tree answer, timer, loss or disposal that gives it.
  lemma {:induction false} OutcomeExactly(limits: Limits, h: Hub, steps: seq<Step>, id: Id, outcome: Outcome)
    requires HubOk(limits, h) && id in h.commands
    ensures
      var n := Runs(limits, h, steps);
      id in n.outcomes
      && (n.outcomes[id] == [outcome] <==> exists k: nat :: EndsAt(limits, h, steps, id, k, outcome))
      && (n.outcomes[id] == [] <==> id in n.commands)
  {
    hide HubOk, Do, EndsCommand, Runs, EndsAt;
    FirstEndDecides(limits, h, steps, id);
    var n, first := Runs(limits, h, steps), FirstEnd(limits, h, steps, id);
    assert Has(n, id, first);
    if n.outcomes[id] == [outcome] { FirstEndIsAStep(limits, h, steps, id, outcome); }
    if k: nat :| EndsAt(limits, h, steps, id, k, outcome) { EndDecides(limits, h, steps, id, k, outcome); }
  }

  lemma OneStep(limits: Limits, h: Hub, step: Step)
    ensures Runs(limits, h, [step]) == Do(limits, h, step)
  {
    assert [step][..0] == [];
    assert Runs(limits, h, [step][..0]) == h;
  }

  // The k-th step is the response to the command, or the result of its tree navigation, with `data`
  // on the current socket, while the command is in flight.
  ghost predicate AnsweredAt(limits: Limits, h: Hub, steps: seq<Step>, id: Id, k: nat, data: Id) {
    && k < |steps|
    && var m := Runs(limits, h, steps[..k]);
       && id in m.commands && !m.disposed
       && (steps[k] == Response(m.epoch, Some(id), data)
           || (steps[k] == TreeAnswer(m.epoch, id, TreeData(data)) && m.commands[id].operation == NavigateTree))
  }

  lemma AnsweredAtEnds(limits: Limits, h: Hub, steps: seq<Step>, id: Id, k: nat, data: Id)
    ensures AnsweredAt(limits, h, steps, id, k, data) <==> EndsAt(limits, h, steps, id, k, Answered(data))
  {
    hide Runs;
  }

  // In particular: it was answered with `data` if and only if such a step came.
  lemma {:induction false} AnsweredExactly(limits: Limits, h: Hub, steps: seq<Step>, id: Id, data: Id)
    requires HubOk(limits, h) && id in h.commands
    ensures
      var n := Runs(limits, h, steps);
      id in n.outcomes
      && (n.outcomes[id] == [Answered(data)] <==> exists k: nat :: AnsweredAt(limits, h, steps, id, k, data))
  {
    hide HubOk, Do, Runs, EndsAt, AnsweredAt;
    OutcomeExactly(limits, h, steps, id, Answered(data));
    if k: nat :| EndsAt(limits, h, steps, id, k, Answered(data)) { AnsweredAtEnds(limits, h, steps, id, k, data); }
    if k: nat :| AnsweredAt(limits, h, steps, id, k, data) { AnsweredAtEnds(limits, h, steps, id, k, data); }
  }

  // ---- Requests without an id on the wire ---------------------------------------------------------

  // What the step makes of an extension answer that waits, or of the control transition.
  function EndsRequest(h: Hub, step: Step, id: Id): Option<Outcome>
    requires id in Waiting(h)
  {
    match step
    case Response(socket, to, data) =>
      if Heard(h, socket) && to.None? && h.anonymous != [] && h.anonymous[0] == id then Some(Answered(data)) else None
    case AskTimeout(t) => if t == id && id in h.anonymous then Some(TimedOut) else None
    case ControlFrame(socket, data) =>
      if Heard(h, socket) && h.waiter == Some(id) then Some(Answered(data)) else None
    case ControlTimeout => if h.waiter == Some(id) then Some(TimedOut) else None
    case Disconnect(socket) => if Heard(h, socket) then Some(ConnectionLost) else None
    case Dispose => if h.disposed then None else Some(Closed)
    case _ => None
  }

  // The request waits on, or was answered once.
  ghost predicate Answers(n: Hub, id: Id, outcome: Option<Outcome>) {
    && id in n.answers
    && (id in Waiting(n) <==> outcome.None?)
    && n.answers[id] == (if outcome.Some? then [outcome.value] else [])
  }

  lemma CommandsLeaveRequest(limits: Limits, h: Hub, step: Step)
    requires step.Command? || step.TreeAnswer? || step.Timeout? || step.Closing? || step.Connect?
    ensures
      var n := Do(limits, h, step);
      n.answers == h.answers && n.anonymous == h.anonymous && n.waiter == h.waiter
  {
    hide Find, Remember, SendReply, Send, Settled;
    if step.Command? {
      SendLeavesRequests(limits, h, step);
    } else if step.TreeAnswer? {
      SettledLeavesRequests(h, step.id, TreeOutcome(step.result));
    } else if step.Timeout? {
      SettledLeavesRequests(h, step.id, TimedOut);
    }
  }

  lemma SendLeavesRequests(limits: Limits, h: Hub, step: Step)
    requires step.Command?
    ensures
      var n := Send(limits, h, step.call.operation, step.correlationId, step.id, step.sending);
      n.answers == h.answers && n.anonymous == h.anonymous && n.waiter == h.waiter
  {
  }

  lemma NewLeavesRequest(limits: Limits, h: Hub, step: Step, id: Id)
    requires id in Waiting(h) && id in h.answers && h.answers[id] == [] && (step.Ask? || step.Control?)
    ensures Answers(Do(limits, h, step), id, None)
  {
    if step.Ask? { AskLeaves(h, step.id, step.sending, id); } else { ControlLeaves(h, step.id, step.sending, id); }
    hide Asked, ControlAsked, Answers;
  }

  lemma AskLeaves(h: Hub, other: Id, sending: Sending, id: Id)
    requires id in Waiting(h) && id in h.answers && h.answers[id] == []
    ensures Answers(Asked(h, other, sending), id, None)
  {
  }

  lemma ControlLeaves(h: Hub, other: Id, sending: Sending, id: Id)
    requires id in Waiting(h) && id in h.answers && h.answers[id] == []
    ensures Answers(ControlAsked(h, other, sending), id, None)
  {
  }

  lemma ResponseAnswers(h: Hub, socket: nat, to: Option<Id>, data: Id, id: Id)
    requires RequestsOk(h) && id in Waiting(h) && id in h.answers && h.answers[id] == []
    ensures Answers(Responded(h, socket, to, data), id, EndsRequest(h, Response(socket, to, data), id))
  {
    hide Settled;
    if to.Some? && to.value in h.commands { SettledLeavesRequests(h, to.value, Answered(data)); }
  }

  lemma SettledLeavesRequests(h: Hub, id: Id, outcome: Outcome)
    ensures
      var n := Settled(h, id, outcome);
      n.answers == h.answers && n.anonymous == h.anonymous && n.waiter == h.waiter
  {
  }

  lemma AskTimeoutAnswers(h: Hub, late: Id, id: Id)
    requires RequestsOk(h) && id in Waiting(h) && id in h.answers && h.answers[id] == []
    ensures Answers(AskEnded(h, late), id, EndsRequest(h, AskTimeout(late), id))
  {
    DroppedIs(h.anonymous, late);
    hide Dropped;
  }

  lemma WaiterAnswers(limits: Limits, h: Hub, step: Step, id: Id)
    requires RequestsOk(h) && id in Waiting(h) && id in h.answers && h.answers[id] == []
    requires step.ControlFrame? || step.ControlTimeout?
    ensures Answers(Do(limits, h, step), id, EndsRequest(h, step, id))
  {
  }

  lemma LosesRequest(limits: Limits, h: Hub, step: Step, id: Id)
    requires id in Waiting(h) && id in h.answers && h.answers[id] == [] && (step.Disconnect? || step.Dispose?)
    ensures Answers(Do(limits, h, step), id, EndsRequest(h, step, id))
  {
  }

  lemma QueueAnswers(limits: Limits, h: Hub, step: Step, id: Id)
    requires RequestsOk(h) && id in Waiting(h) && id in h.answers && h.answers[id] == []
    requires step.Response? || step.AskTimeout?
    ensures Answers(Do(limits, h, step), id, EndsRequest(h, step, id))
  {
    hide Answers, EndsRequest, Responded, AskEnded;
    match step
    case Response(socket, to, data) => ResponseAnswers(h, socket, to, data, id);
    case AskTimeout(late) => AskTimeoutAnswers(h, late, id);
    case _ =>
  }

  lemma StepEndsRequest(limits: Limits, h: Hub, step: Step, id: Id)
    requires HubOk(limits, h) && id in Waiting(h)
    ensures Answers(Do(limits, h, step), id, EndsRequest(h, step, id))
  {
    assert id in h.answers && RequestOk(h, id);
    assert RequestsOk(h);
    hide HubOk, RequestsOk, Do;
    if step.Ask? || step.Control? { NewLeavesRequest(limits, h, step, id); }
    else if step.Response? || step.AskTimeout? { QueueAnswers(limits, h, step, id); }
    else if step.ControlFrame? || step.ControlTimeout? { WaiterAnswers(limits, h, step, id); }
    else if step.Disconnect? || step.Dispose? { LosesRequest(limits, h, step, id); }
    else { CommandsLeaveRequest(limits, h, step); }
  }

  // The first outcome that a waiting request is given along a run.
  ghost function FirstAnswer(limits: Limits, h: Hub, steps: seq<Step>, id: Id): Option<Outcome>
    decreases |steps|
  {
    if steps == [] then None
    else
      var but, last := steps[..|steps| - 1], steps[|steps| - 1];
      var m := Runs(limits, h, but);
      match FirstAnswer(limits, h, but, id)
      case Some(o) => Some(o)
      case None => if id in Waiting(m) then EndsRequest(m, last, id) else None
  }

  lemma StaysAnswered(limits: Limits, h: Hub, step: Step, id: Id, outcome: Outcome)
    requires HubOk(limits, h) && Answers(h, id, Some(outcome))
    ensures Answers(Do(limits, h, step), id, Some(outcome))
  {
    StepGrows(limits, h, step);
    StepKeeps(limits, h, step);
    var n := Do(limits, h, step);
    hide Do;
    Unsettled(limits, n);
    hide HubOk;
  }

  lemma StillWaits(limits: Limits, h: Hub, id: Id)
    requires HubOk(limits, h) && id in Waiting(h)
    ensures Answers(h, id, None)
  {
    assert RequestOk(h, id);
  }

  lemma AnswersWaits(h: Hub, id: Id, outcome: Option<Outcome>)
    requires Answers(h, id, outcome)
    ensures id in Waiting(h) <==> outcome.None?
  {
  }

  // Over any run a waiting request has exactly the outcome of the first step that ends it.
  lemma {:induction false} FirstAnswerDecides(limits: Limits, h: Hub, steps: seq<Step>, id: Id)
    requires HubOk(limits, h) && id in Waiting(h)
    ensures Answers(Runs(limits, h, steps), id, FirstAnswer(limits, h, steps, id))
    decreases |steps|
  {
    hide HubOk, Do, Answers, EndsRequest, Waiting;
    if steps == [] {
      StillWaits(limits, h, id);
    } else {
      var but, last := steps[..|steps| - 1], steps[|steps| - 1];
      var m := Runs(limits, h, but);
      FirstAnswerDecides(limits, h, but, id);
      RunGrows(limits, h, but);
      AnswersWaits(m, id, FirstAnswer(limits, h, but, id));
      match FirstAnswer(limits, h, but, id)
      case Some(o) => StaysAnswered(limits, m, last, id, o);
      case None => StepEndsRequest(limits, m, last, id);
    }
  }

  // Request `a` was made before `b`, and both wait; or `a` has been answered, or `b` was
  // without an answer from the extension.
  ghost predicate InOrder(h: Hub, a: Id, b: Id) {
    || a !in h.anonymous
    || (exists i, j | 0 <= i < j < |h.anonymous| :: h.anonymous[i] == a && h.anonymous[j] == b)
    || (b !in h.anonymous && b in h.answers && forall data :: h.answers[b] != [Answered(data)])
  }

  lemma {:induction false} DroppedKeepsOrder(s: seq<Id>, id: Id, i: nat, j: nat)
    requires i < j < |s| && s[i] != id && s[j] != id && forall x, y | 0 <= x < y < |s| :: s[x] != s[y]
    ensures exists k, l | 0 <= k < l < |Dropped(s, id)| :: Dropped(s, id)[k] == s[i] && Dropped(s, id)[l] == s[j]
  {
    if s[0] == id {
      assert Dropped(s, id)[i - 1] == s[i] && Dropped(s, id)[j - 1] == s[j];
    } else if i == 0 {
      DroppedIs(s[1..], id);
      assert s[j] in s[1..];
      var d := Dropped(s[1..], id);
      var l :| 0 <= l < |d| && d[l] == s[j];
      assert Dropped(s, id)[0] == s[0] && Dropped(s, id)[l + 1] == s[j];
    } else {
      DroppedKeepsOrder(s[1..], id, i - 1, j - 1);
      var d := Dropped(s[1..], id);
      var k, l :| 0 <= k < l < |d| && d[k] == s[i] && d[l] == s[j];
      assert Dropped(s, id)[k + 1] == s[i] && Dropped(s, id)[l + 1] == s[j];
    }
  }

  lemma QueueKeepsOrder(h: Hub, n: Hub, a: Id, b: Id)
    requires RequestsOk(h) && InOrder(h, a, b) && a in h.anonymous && b in h.anonymous
    requires || n.anonymous == h.anonymous || (exists c :: n.anonymous == h.anonymous + [c])
             || (h.anonymous != [] && n.anonymous == h.anonymous[1..])
    ensures InOrder(n, a, b)
  {
    var i, j :| 0 <= i < j < |h.anonymous| && h.anonymous[i] == a && h.anonymous[j] == b;
    if n.anonymous == h.anonymous || exists c :: n.anonymous == h.anonymous + [c] {
      assert n.anonymous[i] == a && n.anonymous[j] == b;
    } else if i > 0 {
      assert n.anonymous[i - 1] == a && n.anonymous[j - 1] == b;
    } else {
      assert a !in n.anonymous;
    }
  }

  lemma TimeoutKeepsOrder(h: Hub, late: Id, a: Id, b: Id)
    requires RequestsOk(h) && InOrder(h, a, b) && a in h.anonymous && b in h.anonymous
    ensures InOrder(AskEnded(h, late), a, b)
  {
    var i, j :| 0 <= i < j < |h.anonymous| && h.anonymous[i] == a && h.anonymous[j] == b;
    var q := h.anonymous;
    hide Dropped, Waiting;
    DroppedIs(q, late);
    if late != a && late != b { DroppedKeepsOrder(q, late, i, j); }
  }

  lemma StepKeepsOrder(limits: Limits, h: Hub, step: Step, a: Id, b: Id)
    requires HubOk(limits, h) && InOrder(h, a, b) && a in h.anonymous && b in h.anonymous
    ensures InOrder(Do(limits, h, step), a, b)
  {
    var n := Do(limits, h, step);
    assert RequestsOk(h);
    if step.AskTimeout? {
      TimeoutKeepsOrder(h, step.id, a, b);
    } else if step.Disconnect? || step.Dispose? {
      assert n.anonymous == [] || n == h;
    } else {
      QueueMoves(limits, h, step);
      QueueKeepsOrder(h, n, a, b);
    }
  }

  lemma QueueMoves(limits: Limits, h: Hub, step: Step)
    requires !step.AskTimeout? && !step.Disconnect? && !step.Dispose?
    ensures
      var n := Do(limits, h, step);
      || n.anonymous == h.anonymous || (step.Ask? && n.anonymous == h.anonymous + [step.id])
      || (h.anonymous != [] && n.anonymous == h.anonymous[1..])
  {
    hide Find, Remember, SendReply, Send, Settled;
    if step.Command? { SendLeavesRequests(limits, h, step); }
    else if step.Response? { if step.to.Some? { SettledLeavesRequests(h, step.to.value, Answered(step.data)); } }
    else if step.TreeAnswer? { SettledLeavesRequests(h, step.id, TreeOutcome(step.result)); }
    else if step.Timeout? { SettledLeavesRequests(h, step.id, TimedOut); }
  }

  lemma GoneStaysGone(limits: Limits, h: Hub, step: Step, a: Id)
    requires HubOk(limits, h) && a in h.answers && a !in h.anonymous
    ensures a !in Do(limits, h, step).anonymous
  {
    var n := Do(limits, h, step);
    if step.AskTimeout? {
      assert RequestsOk(h);
      DroppedIs(h.anonymous, step.id);
    } else if !step.Disconnect? && !step.Dispose? {
      QueueGains(limits, h, step, a);
    }
    hide Dropped;
  }

  lemma QueueGains(limits: Limits, h: Hub, step: Step, a: Id)
    requires !step.AskTimeout? && !step.Disconnect? && !step.Dispose? && a in h.answers && a !in h.anonymous
    ensures a !in Do(limits, h, step).anonymous
  {
    QueueMoves(limits, h, step);
    if step.Ask? { hide Waiting; } else { hide Do; }
  }

  lemma LateStaysOut(limits: Limits, h: Hub, step: Step, a: Id, b: Id)
    requires HubOk(limits, h) && b in h.answers && InOrder(h, a, b) && a in h.anonymous && b !in h.anonymous
    requires h.waiter != Some(b)
    ensures InOrder(Do(limits, h, step), a, b)
  {
    GoneStaysGone(limits, h, step, b);
    StepGrows(limits, h, step);
    assert b !in Waiting(h);
    AnsweredOnce(limits, h, b);
    hide HubOk, Do, Waiting;
  }

  lemma OrderIsKept(limits: Limits, h: Hub, step: Step, a: Id, b: Id)
    requires HubOk(limits, h) && a in h.answers && b in h.answers && InOrder(h, a, b) && h.waiter != Some(b)
    ensures
      var n := Do(limits, h, step);
      InOrder(n, a, b) && a in n.answers && b in n.answers && n.waiter != Some(b)
  {
    StepGrows(limits, h, step);
    WaiterIsNew(limits, h, step, b);
    hide Do, HubOk;
    if a !in h.anonymous {
      GoneStaysGone(limits, h, step, a);
    } else {
      hide InOrder;
      if b !in h.anonymous { LateStaysOut(limits, h, step, a, b); } else { StepKeepsOrder(limits, h, step, a, b); }
    }
  }

  lemma AnsweredOnce(limits: Limits, h: Hub, b: Id)
    requires HubOk(limits, h) && b in h.answers && b !in Waiting(h)
    ensures h.answers[b] != []
  {
    assert RequestOk(h, b);
  }

  lemma {:induction false} RunKeepsOrder(limits: Limits, h: Hub, steps: seq<Step>, a: Id, b: Id)
    requires HubOk(limits, h) && a in h.answers && b in h.answers && InOrder(h, a, b) && h.waiter != Some(b)
    ensures
      var n := Runs(limits, h, steps);
      InOrder(n, a, b) && a in n.answers && b in n.answers && n.waiter != Some(b)
    decreases |steps|
  {
    if steps != [] {
      hide HubOk, Do, InOrder;
      var but := steps[..|steps| - 1];
      RunKeepsOrder(limits, h, but, a, b);
      RunGrows(limits, h, but);
      OrderIsKept(limits, Runs(limits, h, but), steps[|steps| - 1], a, b);
    }
  }

  // Extension answers are given in the order of their requests: over any run, once the later of
  // two requests was answered by the extension, the earlier one waits no longer.
  lemma {:induction false} AnsweredInOrder(limits: Limits, h: Hub, steps: seq<Step>, i: nat, j: nat, data: Id)
    requires HubOk(limits, h) && i < j < |h.anonymous|
    ensures
      var n := Runs(limits, h, steps);
      h.anonymous[j] in n.answers
      && (n.answers[h.anonymous[j]] == [Answered(data)] ==> h.anonymous[i] !in Waiting(n))
  {
    var a, b := h.anonymous[i], h.anonymous[j];
    assert a in Waiting(h) && b in Waiting(h);
    RunKeepsOrder(limits, h, steps, a, b);
    RunGrows(limits, h, steps);
    var n := Runs(limits, h, steps);
    hide Runs;
    StaysInQueue(limits, h, steps, a);
    Unsettled(limits, n);
    hide HubOk;
  }

  // An extension answer never becomes a control transition.
  lemma {:induction false} StaysInQueue(limits: Limits, h: Hub, steps: seq<Step>, a: Id)
    requires HubOk(limits, h) && a in h.answers && h.waiter != Some(a)
    ensures Runs(limits, h, steps).waiter != Some(a) && a in Runs(limits, h, steps).answers
    decreases |steps|
  {
    if steps != [] {
      hide HubOk;
      var but, last := steps[..|steps| - 1], steps[|steps| - 1];
      StaysInQueue(limits, h, but, a);
      RunGrows(limits, h, but);
      StepGrows(limits, Runs(limits, h, but), last);
      WaiterIsNew(limits, Runs(limits, h, but), last, a);
    }
  }

  lemma WaiterIsNew(limits: Limits, h: Hub, step: Step, a: Id)
    requires a in h.answers && h.waiter != Some(a)
    ensures Do(limits, h, step).waiter != Some(a)
  {
    if step.Control? || step.ControlFrame? || step.ControlTimeout? || step.Disconnect? || step.Dispose? {
      hide Failed, Waiting;
    } else {
      SameWaiter(limits, h, step);
    }
  }

  lemma SameWaiter(limits: Limits, h: Hub, step: Step)
    requires !step.Control? && !step.ControlFrame? && !step.ControlTimeout? && !step.Disconnect? && !step.Dispose?
    ensures Do(limits, h, step).waiter == h.waiter
  {
    hide Find, Remember, SendReply, Send, Dropped, Settled;
    if step.Command? { SendLeavesRequests(limits, h, step); }
    else if step.Response? { if step.to.Some? { SettledLeavesRequests(h, step.to.value, Answered(step.data)); } }
    else if step.TreeAnswer? { SettledLeavesRequests(h, step.id, TreeOutcome(step.result)); }
    else if step.Timeout? { SettledLeavesRequests(h, step.id, TimedOut); }
  }

  // ---- Retries under a key ------------------------------------------------------------------------

  // Over any run after a command under a fresh key, as long as fewer other keys were remembered
  // than the table has room for: the same command again gets the first one's reply, be it a
  // rejection or the promise of its outcome, and another command under the key is refused; in
  // either case no frame is written and nothing changes.
  lemma RetryIsSilent(limits: Limits, h: Hub, first: Step, steps: seq<Step>, again: Step)
    requires HubOk(limits, h) && Adds(h, first)
    requires again.Command? && again.call.key == first.call.key && (again.isController || again.call.readOnly)
    requires !Runs(limits, Do(limits, h, first), steps).disposed
    requires |Remembered(limits, Do(limits, h, first), steps)| < Room(limits)
    ensures
      var n := Runs(limits, Do(limits, h, first), steps);
      && CommandReply(limits, n, again.call, again.isController, again.id, again.sending)
         == Ok(if again.call.fingerprint == first.call.fingerprint
               then CommandReply(limits, h, first.call, first.isController, first.id, first.sending).value
               else Now(IdempotencyConflict))
      && Do(limits, n, again) == n
  {
    var a, key := Do(limits, h, first), first.call.key.value;
    var others := Remembered(limits, a, steps);
    if c :| c in others && c.key == key {
      var i :| 0 <= i < |others| && others[i] == c;
      KeyReturnsLate(limits, h, first, steps, i);
    }
    KeptAfter(limits, h, first, steps);
    ReachedReply(limits, h, first.call, first.isController, first.id, first.sending);
    hide HubOk, Remembered, Send, SendReply, Runs;
  }

  // ---- A socket that is not open --------------------------------------------------------------------

  lemma ClosedStep(limits: Limits, h: Hub, step: Step)
    requires !h.open && !step.Connect?
    ensures !Do(limits, h, step).open && Do(limits, h, step).written == h.written
    ensures Do(limits, h, step).commands.Keys <= h.commands.Keys
  {
    hide Find, Remember, SendReply, Dropped, Waiting;
  }

  // From the moment a socket is being closed, by whatever step, until the next one is ready, no
  // command frame is written.
  lemma {:induction false} NothingIsWritten(limits: Limits, h: Hub, steps: seq<Step>)
    requires !h.open && forall k | 0 <= k < |steps| :: !steps[k].Connect?
    ensures !Runs(limits, h, steps).open && Runs(limits, h, steps).written == h.written
    ensures Runs(limits, h, steps).commands.Keys <= h.commands.Keys
    decreases |steps|
  {
    if steps != [] {
      hide Do;
      NothingIsWritten(limits, h, steps[..|steps| - 1]);
      ClosedStep(limits, Runs(limits, h, steps[..|steps| - 1]), steps[|steps| - 1]);
    }
  }

  // The steps that close it: its loss, its closing from this side, a late extension answer or
  // control transition, and disposal.
  predicate Closes(h: Hub, step: Step) {
    match step
    case Closing(socket) => socket == h.epoch
    case Disconnect(socket) => Heard(h, socket)
    case AskTimeout(id) => id in h.anonymous
    case ControlTimeout => h.waiter.Some?
    case Dispose => true
    case _ => false
  }

  // Exactly these end a socket's openness, and only a new socket begins it.
  lemma OpensAndCloses(limits: Limits, h: Hub, step: Step)
    requires HubOk(limits, h)
    ensures Do(limits, h, step).open
       <==> if h.open then !Closes(h, step) else step.Connect? && !h.connected && !h.disposed
    ensures Do(limits, h, step).epoch == h.epoch + (if step.Connect? && !h.connected && !h.disposed then 1 else 0)
  {
    hide CommandsOk, RequestsOk, CacheOk, Find, Remember, SendReply, Dropped, Waiting;
  }

  // ---- What is written ---------------------------------------------------------------------------

  // A command's frame is written if and only if it is the controller's or only reads, its key was
  // not remembered, the hub is not disposed, there is room in flight, and the socket is open and
  // takes it; and then to the current socket.
  lemma WrittenExactly(limits: Limits, h: Hub, step: Step)
    requires HubOk(limits, h) && step.Command? && step.id !in h.written
    ensures
      var n := Do(limits, h, step);
      && (step.id in n.commands <==>
            && !h.disposed && (step.isController || step.call.readOnly)
            && (step.call.key.None? || forall c | c in h.cache :: c.key != step.call.key.value)
            && |h.commands| < limits.maxInFlight && h.open && step.sending.Written?)
      && (step.id in n.commands ==> n.written[step.id] == [h.epoch] && n.commands[step.id].operation == step.call.operation
                                    && n.commands[step.id].correlationId == step.correlationId)
  {
    if step.call.key.Some? { FindNowhere(h.cache, step.call.key.value); }
    assert step.id !in h.commands;
    hide HubOk, CommandsOk, RequestsOk, CacheOk, Find, Remember;
  }

  // What an observer may not do, and what a disposed hub does: nothing, with the reason.
  lemma ObserversOnlyRead(limits: Limits, h: Hub, step: Step)
    requires step.Command? && (h.disposed || (!step.isController && !step.call.readOnly))
    ensures Do(limits, h, step) == h
    ensures CommandReply(limits, h, step.call, step.isController, step.id, step.sending)
         == if h.disposed then Err(Closed) else Ok(Now(ControllerRequired))
  {
    hide Find, Remember, Send;
  }

  // ---- Why a request is refused -----------------------------------------------------------------------

  // Each cause of a refusal, exactly; a request that is not refused waits.
  lemma RefusedExactly(limits: Limits, h: Hub, step: Step)
    requires HubOk(limits, h) && (step.Ask? || step.Control?) && step.id !in h.answers
    ensures
      var n := Do(limits, h, step);
      && step.id in n.answers
      && (n.answers[step.id] == [Closed] <==> h.disposed)
      && (n.answers[step.id] == [Unavailable] <==> !h.disposed && !h.open)
      && (n.answers[step.id] == [ControlBusy] <==> h.open && step.Control? && h.waiter.Some?)
      && (n.answers[step.id] == [] <==> step.id in Waiting(n))
      && (step.id in Waiting(n) <==> h.open && step.sending.Written? && (step.Control? ==> h.waiter.None?))
  {
    StepKeeps(limits, h, step);
    assert step.id !in Waiting(h);
    hide CommandsOk, CacheOk;
  }
}
