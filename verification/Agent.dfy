/** The agentic loop of one conversation turn, and the chat session that keeps
    the history over turns. The model's answers, the operator's permissions and
    the tools are arbitrary. */
module Agent {
  import opened Text
  import opened Chat

  // The hints of a tool, absent hints being false.
  datatype Tool = Tool(name: string, readOnly: bool, destructive: bool)

  datatype Tier = ReadOnly | Write | Destructive

  /** The first tool of that name decides; an unknown tool needs permission. */
  function TierOf(tools: seq<Tool>, name: string): Tier {
    if tools == [] then Write
    else if tools[0].name == name then
      if tools[0].readOnly then ReadOnly else if tools[0].destructive then Destructive else Write
    else TierOf(tools[1..], name)
  }

  /** How a run ended: with a final answer, with an error reported to the user,
      or because its context was cancelled. Unfinished runs were watched no longer. */
  datatype End = Done | Reported | Aborted | Unfinished

  /** A tool that was called, and the place in the history of its result. */
  datatype Execution = Execution(call: ToolCall, position: nat)

  /** What arrives from outside during a turn: the operator's decision on the
      call whose result stands at a position, and which arguments parse. */
  datatype Outside = Outside(allows: nat -> bool, parses: string -> bool)

  predicate Allowed(outside: Outside, tools: seq<Tool>, call: ToolCall, position: nat) {
    TierOf(tools, call.name) == ReadOnly || outside.allows(position)
  }

  // A tool is called if it may be and its arguments parse.
  predicate Runs(outside: Outside, tools: seq<Tool>, call: ToolCall, position: nat) {
    Allowed(outside, tools, call, position) && (call.arguments == "" || outside.parses(call.arguments))
  }

  /** The call answered next, when k more results are in than the history has:
      calls are answered in the order of the assistant turn that made them. */
  function NextCall(history: seq<Message>, k: nat): Option<ToolCall> {
    if history == [] then None
    else
      var last := history[|history| - 1];
      if last.role == "tool" then NextCall(history[..|history| - 1], k + 1)
      else if last.role == "assistant" && k < |last.toolCalls| then Some(last.toolCalls[k])
      else None
  }

  /** The tools called from an input on, as the history and the operator tell:
      one for each result whose call may run. */
  function Performed(outside: Outside, tools: seq<Tool>, input: nat, history: seq<Message>): seq<Execution> {
    if |history| <= input then []
    else
      var before, n := history[..|history| - 1], |history| - 1;
      Performed(outside, tools, input, before) +
        if history[n].role == "tool" && NextCall(before, 0).Some? && Runs(outside, tools, NextCall(before, 0).value, n) then
          [Execution(NextCall(before, 0).value, n)]
        else []
  }

  /** No call runs twice, or without permission, or without its result. */
  lemma {:induction false} PerformedOnce(outside: Outside, tools: seq<Tool>, input: nat, history: seq<Message>)
    ensures var done := Performed(outside, tools, input, history);
      && (forall i, j :: 0 <= i < j < |done| ==> done[i].position < done[j].position)
      && (forall e :: e in done ==> input <= e.position < |history| && history[e.position].role == "tool")
      && (forall e :: e in done ==> Allowed(outside, tools, e.call, e.position))
    decreases |history|
  {
    hide Allowed, NextCall;
    if |history| > input {
      var before, n := history[..|history| - 1], |history| - 1;
      PerformedOnce(outside, tools, input, before);
      var rest, done := Performed(outside, tools, input, before), Performed(outside, tools, input, history);
      if done != rest {
        var call := NextCall(before, 0).value;
        assert done == rest + [Execution(call, n)] && Allowed(outside, tools, call, n);
      }
      assert forall i :: 0 <= i < |rest| ==> rest[i] in rest;
    }
  }

  lemma PerformedExtend(outside: Outside, tools: seq<Tool>, input: nat, history: seq<Message>, m: Message)
    requires input <= |history|
    ensures Performed(outside, tools, input, history + [m]) == Performed(outside, tools, input, history) +
      if m.role == "tool" && NextCall(history, 0).Some? && Runs(outside, tools, NextCall(history, 0).value, |history|) then
        [Execution(NextCall(history, 0).value, |history|)]
      else []
  {
    hide NextCall, Runs;
    assert (history + [m])[..|history|] == history;
  }

  // After a turn with calls and some of its results the next call is up.
  lemma {:induction false} NextOfTurn(history: seq<Message>, longer: seq<Message>, k: nat)
    requires history != [] && history[|history| - 1].role == "assistant" && OnlyResults(history, longer)
    ensures var calls, n := history[|history| - 1].toolCalls, |longer| - |history| + k;
      NextCall(longer, k) == if n < |calls| then Some(calls[n]) else None
    decreases |longer|
  {
    if |longer| > |history| {
      assert history <= longer[..|longer| - 1];
      NextOfTurn(history, longer[..|longer| - 1], k + 1);
    } else {
      assert longer == history;
    }
  }

  lemma {:induction false} PerformedThen(outside: Outside, tools: seq<Tool>, input: nat, history: seq<Message>, longer: seq<Message>)
    requires input <= |history| && history <= longer
    ensures Performed(outside, tools, input, longer)
         == Performed(outside, tools, input, history) + Performed(outside, tools, |history|, longer)
    decreases |longer|
  {
    hide NextCall, Runs;
    if |longer| > |history| {
      assert history <= longer[..|longer| - 1];
      PerformedThen(outside, tools, input, history, longer[..|longer| - 1]);
    } else {
      assert longer == history;
    }
  }

  /** The requests of a run. Request i is the system prompt followed by exactly
      the history of that moment, which had asked[i] messages: the input for the
      first request, and what all answers and results before made of it for
      each later one. After the input, the assistant turns are exactly the
      answers to the requests, and everything else is a tool result. */
  ghost predicate AskedProperly(requests: seq<seq<Message>>, asked: seq<nat>, prompt: string, input: nat, history: seq<Message>) {
    && |requests| == |asked| && input <= |history|
    && (asked != [] ==> asked[0] == input)
    && (forall i, j :: 0 <= i < j < |asked| ==> asked[i] < asked[j])
    && (forall i :: 0 <= i < |asked| ==> input <= asked[i] <= |history| && requests[i] == Prompted(prompt, history[..asked[i]]))
    && (forall i :: 0 <= i < |asked| - 1 ==> asked[i] < |history| && history[asked[i]].role == "assistant")
    && (forall p :: input <= p < |history| ==> history[p].role == if p in asked then "assistant" else "tool")
  }

  // No request is open: the last one was answered.
  ghost predicate AllAnswered(asked: seq<nat>, input: nat, history: seq<Message>) {
    if asked == [] then |history| == input else asked[|asked| - 1] < |history|
  }

  lemma NothingAsked(prompt: string, history: seq<Message>)
    ensures AskedProperly([], [], prompt, |history|, history) && AllAnswered([], |history|, history)
  {
  }

  lemma AskedOnce(requests: seq<seq<Message>>, asked: seq<nat>, prompt: string, input: nat, history: seq<Message>)
    requires AskedProperly(requests, asked, prompt, input, history) && AllAnswered(asked, input, history)
    ensures AskedProperly(requests + [Prompted(prompt, history)], asked + [|history|], prompt, input, history)
  {
    hide Prompted;
    assert history[..|history|] == history;
    var more := asked + [|history|];
    assert forall p :: p in more <==> p in asked || p == |history|;
    if asked != [] {
      var last := asked[|asked| - 1];
      assert last in asked && history[last].role == "assistant";
      assert forall i :: 0 <= i < |asked| ==> asked[i] <= last;
    }
  }

  // The open request is answered by an assistant turn.
  lemma TurnAsked(requests: seq<seq<Message>>, asked: seq<nat>, prompt: string, input: nat, history: seq<Message>, choice: Message)
    requires AskedProperly(requests, asked, prompt, input, history)
    requires asked != [] && asked[|asked| - 1] == |history| && choice.role == "assistant"
    ensures AskedProperly(requests, asked, prompt, input, history + [choice])
    ensures AllAnswered(asked, input, history + [choice])
  {
    var longer := history + [choice];
    assert forall i :: 0 <= i < |asked| ==> longer[..asked[i]] == history[..asked[i]];
    assert |history| in asked;
  }

  lemma ResultAsked(requests: seq<seq<Message>>, asked: seq<nat>, prompt: string, input: nat, history: seq<Message>, result: Message)
    requires AskedProperly(requests, asked, prompt, input, history) && AllAnswered(asked, input, history)
    requires asked != [] && result.role == "tool"
    ensures AskedProperly(requests, asked, prompt, input, history + [result])
    ensures AllAnswered(asked, input, history + [result])
  {
    var longer := history + [result];
    assert forall i :: 0 <= i < |asked| ==> longer[..asked[i]] == history[..asked[i]];
    assert |history| !in asked;
  }

  /** The history was well paired at every request. */
  ghost predicate PairedAtCalls(asked: seq<nat>, history: seq<Message>) {
    forall i :: 0 <= i < |asked| ==> asked[i] <= |history| && WellPaired(history[..asked[i]])
  }

  lemma NeverPaired(history: seq<Message>)
    ensures PairedAtCalls([], history)
  {
  }

  lemma PairedOnce(asked: seq<nat>, history: seq<Message>)
    requires PairedAtCalls(asked, history) && WellPaired(history)
    ensures PairedAtCalls(asked + [|history|], history)
  {
    assert history[..|history|] == history;
  }

  lemma PairedLater(asked: seq<nat>, history: seq<Message>, longer: seq<Message>)
    requires history <= longer
    ensures PairedAtCalls(asked, history) ==> PairedAtCalls(asked, longer)
  {
    if PairedAtCalls(asked, history) {
      assert forall i :: 0 <= i < |asked| ==> longer[..asked[i]] == history[..asked[i]];
    }
  }

  // Only tool results were added.
  ghost predicate OnlyResults(history: seq<Message>, longer: seq<Message>) {
    history <= longer && forall p :: |history| <= p < |longer| ==> longer[p].role == "tool"
  }

  lemma {:induction false} ResultsAsked(requests: seq<seq<Message>>, asked: seq<nat>, prompt: string, input: nat,
                                        history: seq<Message>, longer: seq<Message>)
    requires AskedProperly(requests, asked, prompt, input, history) && AllAnswered(asked, input, history)
    requires asked != [] && OnlyResults(history, longer)
    ensures AskedProperly(requests, asked, prompt, input, longer) && AllAnswered(asked, input, longer)
    decreases |longer|
  {
    hide AskedProperly, AllAnswered;
    if |longer| == |history| {
      assert longer == history;
    } else {
      var n := |longer| - 1;
      assert history <= longer[..n];
      ResultsAsked(requests, asked, prompt, input, history, longer[..n]);
      ResultAsked(requests, asked, prompt, input, longer[..n], longer[n]);
      assert longer == longer[..n] + [longer[n]];
    }
  }

  const DENIED := "denied by operator"
  const UNPARSABLE := "could not parse tool arguments"

  class Agent {
    const prompt: string

    constructor (p: string)
      ensures prompt == p
    {
      prompt := p;
    }

    /** Answers the tool calls of one assistant turn: each gets exactly one
        result, whether denied, unparsable, failed or executed. */
    method AnswerCalls(calls: seq<ToolCall>, tools: seq<Tool>, outside: Outside, messages: seq<Message>, history: seq<Message>)
        returns (messages': seq<Message>, history': seq<Message>, executions: seq<Execution>, aborted: bool)
      requires messages == Prompted(prompt, history)
      requires history != [] && history[|history| - 1].role == "assistant" && history[|history| - 1].toolCalls == calls
      ensures OnlyResults(history, history') && history <= history' && messages' == Prompted(prompt, history')
      ensures |history'| - |history| <= |calls| && (!aborted ==> |history'| - |history| == |calls|)
      ensures executions == Performed(outside, tools, |history|, history')
      ensures Owed(history) == Some(Ids(calls)) && !aborted ==> WellPaired(history')
    {
      hide OnlyResults, Runs, NextCall, Performed, Allowed;
      messages', history', executions, aborted := messages, history, [], false;
      NothingDone(outside, tools, history);
      var i := 0;
      while i < |calls|
        invariant 0 <= i <= |calls| && OnlyResults(history, history') && messages' == Prompted(prompt, history')
        invariant history <= history' && |history'| == |history| + i
        invariant Owed(history) == Some(Ids(calls)) ==> Owed(history') == Some(Ids(calls)[i..])
        invariant executions == Performed(outside, tools, |history|, history')
      {
        var cancelled: bool := *;
        if cancelled {
          return messages', history', executions, true;
        }
        var content, executed := Answer(calls[i], tools, outside, |history'|);
        executions := executions + executed;
        var result := ToolResult(calls[i].id, content);
        NextOfTurn(history, history', 0);
        PerformedExtend(outside, tools, |history|, history', result);
        OwedExtendByResult(history', Ids(calls), i, content);
        OneMoreResult(history, history', result);
        messages', history' := messages' + [result], history' + [result];
        i := i + 1;
      }
      assert Ids(calls)[i..] == [];
    }

    /** What becomes of one call: refused, unparsable, or executed. */
    method Answer(tc: ToolCall, tools: seq<Tool>, outside: Outside, position: nat) returns (content: string, executed: seq<Execution>)
      ensures executed == if Runs(outside, tools, tc, position) then [Execution(tc, position)] else []
      ensures !Allowed(outside, tools, tc, position) ==> content == DENIED
      ensures Allowed(outside, tools, tc, position) && executed == [] ==> content == UNPARSABLE
    {
      hide TierOf;
      executed := [];
      if TierOf(tools, tc.name) != ReadOnly {
        if !outside.allows(position) {
          return DENIED, executed;
        }
      }
      if tc.arguments != "" {
        if !outside.parses(tc.arguments) {
          return UNPARSABLE, executed;
        }
      }
      executed := [Execution(tc, position)];
      content := *;
    }

    /** One conversation turn, watched for a number of model calls. Every call
        sends the system prompt and the whole history of that moment. A history
        that was well paired is so at every call, and at the end unless the turn
        was aborted. The tools called are those the operator and their tiers
        allow, once for each result. */
    method Run(history: seq<Message>, tools: seq<Tool>, outside: Outside, horizon: nat)
        returns (updated: seq<Message>, end: End, ghost requests: seq<seq<Message>>, ghost asked: seq<nat>, executions: seq<Execution>)
      ensures history <= updated
      ensures AskedProperly(requests, asked, prompt, |history|, updated) && |requests| <= horizon
      ensures WellPaired(history) ==> PairedAtCalls(asked, updated)
      ensures executions == Performed(outside, tools, |history|, updated)
      ensures WellPaired(history) && end != Aborted ==> WellPaired(updated)
      ensures end == Done ==> updated != [] && updated[|updated| - 1].role == "assistant" && updated[|updated| - 1].toolCalls == []
    {
      hide AskedProperly, AllAnswered, WellPaired, PairedAtCalls, Owed, Runs, Performed, OnlyResults, Ids, Prompted;
      ghost var paired, input := WellPaired(history), |history|;
      updated, requests, asked, executions := history, [], [], [];
      NothingAsked(prompt, history);
      NothingDone(outside, tools, history);
      NeverPaired(history);
      var listed: bool := *;
      if !listed {
        return updated, Reported, requests, asked, executions;
      }
      var messages := Prompted(prompt, history);
      var left := horizon;
      while left > 0
        invariant history <= updated && (paired ==> WellPaired(updated)) && messages == Prompted(prompt, updated)
        invariant AskedProperly(requests, asked, prompt, input, updated) && AllAnswered(asked, input, updated)
        invariant |requests| + left <= horizon && executions == Performed(outside, tools, input, updated)
        invariant paired ==> PairedAtCalls(asked, updated)
      {
        left := left - 1;
        var cancelled: bool := *;
        if cancelled {
          return updated, Aborted, requests, asked, executions;
        }
        AskedOnce(requests, asked, prompt, input, updated);
        if paired {
          PairedOnce(asked, updated);
        }
        requests, asked := requests + [messages], asked + [|updated|];
        var answered: bool := *;
        if !answered {
          return updated, Reported, requests, asked, executions;
        }
        var content: string := *;
        var calls: seq<ToolCall> := *;
        var choice := Message("assistant", content, "", calls);
        ghost var before := updated;
        TurnOwes(updated, choice);
        TurnAsked(requests, asked, prompt, input, updated, choice);
        TurnPerforms(outside, tools, prompt, input, updated, choice);
        messages, updated := messages + [choice], updated + [choice];
        PairedLater(asked, before, updated);
        if choice.toolCalls == [] {
          return updated, Done, requests, asked, executions;
        }
        before := updated;
        var more, aborted;
        messages, updated, more, aborted := AnswerCalls(choice.toolCalls, tools, outside, messages, updated);
        PerformedThen(outside, tools, input, before, updated);
        executions := executions + more;
        ResultsAsked(requests, asked, prompt, input, before, updated);
        PairedLater(asked, before, updated);
        if aborted {
          return updated, Aborted, requests, asked, executions;
        }
      }
      end := Unfinished;
    }
  }

  lemma TurnOwes(history: seq<Message>, choice: Message)
    requires choice.role == "assistant"
    ensures WellPaired(history) ==> Owed(history + [choice]) == Some(Ids(choice.toolCalls))
    ensures WellPaired(history) && choice.toolCalls == [] ==> WellPaired(history + [choice])
  {
    OwedExtend(history, choice);
  }

  // An assistant turn is sent on as it is and calls no tool by itself.
  lemma TurnPerforms(outside: Outside, tools: seq<Tool>, prompt: string, input: nat, history: seq<Message>, choice: Message)
    requires input <= |history| && choice.role == "assistant"
    ensures Performed(outside, tools, input, history + [choice]) == Performed(outside, tools, input, history)
    ensures Prompted(prompt, history) + [choice] == Prompted(prompt, history + [choice])
  {
    hide Performed;
    PerformedExtend(outside, tools, input, history, choice);
  }

  lemma OwedExtendByResult(history: seq<Message>, ids: seq<string>, i: nat, content: string)
    requires i < |ids|
    ensures Owed(history) == Some(ids[i..]) ==> Owed(history + [ToolResult(ids[i], content)]) == Some(ids[i + 1..])
  {
    OwedExtend(history, ToolResult(ids[i], content));
    assert ids[i..][1..] == ids[i + 1..];
  }

  lemma NothingDone(outside: Outside, tools: seq<Tool>, history: seq<Message>)
    ensures OnlyResults(history, history) && Performed(outside, tools, |history|, history) == []
  {
  }

  lemma OneMoreResult(history: seq<Message>, longer: seq<Message>, result: Message)
    requires OnlyResults(history, longer) && result.role == "tool"
    ensures OnlyResults(history, longer + [result])
  {
  }

  // ---- sessions -------------------------------------------------------

  datatype Input = Input(role: string, content: string)

  function Incoming(inputs: seq<Input>): (ms: seq<Message>)
    ensures |ms| == |inputs|
  {
    seq(|inputs|, i requires 0 <= i < |inputs| => Plain(inputs[i].role, inputs[i].content))
  }

  // No input claims to be a tool result.
  predicate NoToolInput(inputs: seq<Input>) {
    forall i :: 0 <= i < |inputs| ==> inputs[i].role != "tool"
  }

  lemma {:induction false} InputsKeepPairing(history: seq<Message>, inputs: seq<Input>)
    requires WellPaired(history)
    ensures WellPaired(history + Incoming(inputs)) <==> NoToolInput(inputs)
    ensures !NoToolInput(inputs) ==> Owed(history + Incoming(inputs)).None?
    decreases |inputs|
  {
    if inputs == [] {
      assert history + Incoming(inputs) == history;
    } else {
      var n := |inputs| - 1;
      InputsKeepPairing(history, inputs[..n]);
      var m := Plain(inputs[n].role, inputs[n].content);
      assert history + Incoming(inputs) == (history + Incoming(inputs[..n])) + [m];
      OwedExtend(history + Incoming(inputs[..n]), m);
    }
  }

  class ChatSession {
    var history: seq<Message>

    constructor ()
      ensures history == [] && WellPaired(history)
    {
      history := [];
    }

    /** One chat request: the new history is stored unless the run was aborted.
        A well-paired history stays so if and only if no input claims to be a
        tool result; a broken one stays broken. */
    method Handle(agent: Agent, inputs: seq<Input>, tools: seq<Tool>, outside: Outside, horizon: nat)
        returns (end: End, executions: seq<Execution>)
      modifies this
      ensures end == Aborted ==> history == old(history)
      ensures end != Aborted ==> old(history) + Incoming(inputs) <= history
      ensures end != Aborted ==> executions == Performed(outside, tools, |old(history)| + |inputs|, history)
      ensures end != Aborted && old(WellPaired(history)) ==> (WellPaired(history) <==> NoToolInput(inputs))
      ensures old(Owed(history).None?) ==> Owed(history).None?
      ensures old(WellPaired(history)) && !WellPaired(history) ==> Owed(history).None?
    {
      hide Incoming, WellPaired, Performed;
      var asked := history + Incoming(inputs);
      var updated, e, _, _, done := agent.Run(asked, tools, outside, horizon);
      executions := done;
      TurnKeepsPairing(history, inputs, updated);
      end := e;
      if end != Aborted {
        history := updated;
      }
    }

    /** Any number of turns, completed, failed or aborted: the stored history
        stays well paired as long as no turn that was stored had an input
        claiming to be a tool result, and from the first such turn on it is
        broken. */
    method Drive(agent: Agent, turns: seq<seq<Input>>, tools: seq<Tool>, outside: nat -> Outside, horizon: nat) returns (ends: seq<End>)
      requires WellPaired(history)
      modifies this
      ensures |ends| == |turns|
      ensures WellPaired(history) <==> forall i :: 0 <= i < |turns| ==> ends[i] == Aborted || NoToolInput(turns[i])
    {
      hide WellPaired, Owed, NoToolInput;
      ends := [];
      ghost var sound := true;
      while |ends| < |turns|
        invariant |ends| <= |turns|
        invariant sound <==> forall i :: 0 <= i < |ends| ==> ends[i] == Aborted || NoToolInput(turns[i])
        invariant if sound then WellPaired(history) else Owed(history).None?
      {
        var end, _ := Handle(agent, turns[|ends|], tools, outside(|ends|), horizon);
        sound := sound && (end == Aborted || NoToolInput(turns[|ends|]));
        ends := ends + [end];
      }
      BrokenIsUnpaired(history);
    }
  }

  lemma BrokenIsUnpaired(history: seq<Message>)
    ensures Owed(history).None? ==> !WellPaired(history)
  {
  }

  // What inputs break stays broken over the turn they start.
  lemma TurnKeepsPairing(history: seq<Message>, inputs: seq<Input>, updated: seq<Message>)
    requires history + Incoming(inputs) <= updated
    ensures WellPaired(history) ==> (WellPaired(history + Incoming(inputs)) <==> NoToolInput(inputs))
    ensures WellPaired(history) && !NoToolInput(inputs) ==> Owed(updated).None? && !WellPaired(updated)
    ensures Owed(history).None? ==> Owed(updated).None?
  {
    hide Incoming;
    var asked := history + Incoming(inputs);
    if WellPaired(history) {
      InputsKeepPairing(history, inputs);
    }
    assert updated == asked + updated[|asked|..];
    if Owed(history).None? {
      BrokenStays(history, Incoming(inputs));
    }
    if Owed(asked).None? {
      BrokenStays(asked, updated[|asked|..]);
    }
  }
}
