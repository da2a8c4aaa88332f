/** Chat messages, and when tool results answer tool calls properly. */
module Chat {
  import opened Text

  datatype ToolCall = ToolCall(id: string, kind: string, name: string, arguments: string)

  datatype Message = Message(role: string, content: string, toolCallID: string, toolCalls: seq<ToolCall>)

  function Plain(role: string, content: string): Message {
    Message(role, content, "", [])
  }

  function ToolResult(id: string, content: string): Message {
    Message("tool", content, id, [])
  }

  function Ids(calls: seq<ToolCall>): (ids: seq<string>)
    ensures |ids| == |calls|
    ensures forall i :: 0 <= i < |calls| ==> ids[i] == calls[i].id
  {
    seq(|calls|, i requires 0 <= i < |calls| => calls[i].id)
  }

  function CallsOf(m: Message): seq<ToolCall> {
    if m.role == "assistant" then m.toolCalls else []
  }

  /** The tool calls still unanswered after one more message: a tool message
      must answer the first of them, and any other message needs all answered. */
  function Answer(owed: Option<seq<string>>, m: Message): Option<seq<string>> {
    if owed.None? then None
    else if m.role == "tool" then
      if owed.value != [] && owed.value[0] == m.toolCallID then Some(owed.value[1..]) else None
    else if owed.value != [] then None
    else Some(Ids(CallsOf(m)))
  }

  function Owed(history: seq<Message>): Option<seq<string>> {
    if history == [] then Some([]) else Answer(Owed(history[..|history| - 1]), history[|history| - 1])
  }

  /** Every tool call is answered, in order, directly after the message making it. */
  predicate WellPaired(history: seq<Message>) {
    Owed(history) == Some([])
  }

  lemma OwedExtend(history: seq<Message>, m: Message)
    ensures Owed(history + [m]) == Answer(Owed(history), m)
  {
    assert (history + [m])[..|history|] == history;
  }

  // What the model is asked for a history.
  function Prompted(prompt: string, history: seq<Message>): seq<Message> {
    [Plain("system", prompt)] + history
  }

  // A system message in front changes nothing.
  lemma {:induction false} PromptedOwes(prompt: string, history: seq<Message>)
    ensures Owed(Prompted(prompt, history)) == Owed(history)
    decreases |history|
  {
    if history == [] {
      assert Prompted(prompt, history) == [] + [Plain("system", prompt)];
      OwedExtend([], Plain("system", prompt));
    } else {
      var n := |history| - 1;
      PromptedOwes(prompt, history[..n]);
      assert Prompted(prompt, history) == Prompted(prompt, history[..n]) + [history[n]];
      OwedExtend(Prompted(prompt, history[..n]), history[n]);
    }
  }

  // Once broken, a history stays broken.
  lemma {:induction false} BrokenStays(history: seq<Message>, more: seq<Message>)
    requires Owed(history).None?
    ensures Owed(history + more).None?
    decreases |more|
  {
    if more == [] {
      assert history + more == history;
    } else {
      BrokenStays(history, more[..|more| - 1]);
      assert history + more == (history + more[..|more| - 1]) + [more[|more| - 1]];
      OwedExtend(history + more[..|more| - 1], more[|more| - 1]);
    }
  }

  // ---- what well-paired means by position -----------------------------

  // The k results after position i answer the calls made there, in order.
  ghost predicate AnsweredAt(history: seq<Message>, i: nat, k: nat) {
    && i < |history| && k <= |CallsOf(history[i])| && i + k < |history|
    && (forall p :: i < p <= i + k ==>
          history[p].role == "tool" && history[p].toolCallID == CallsOf(history[i])[p - i - 1].id)
  }

  // Position i is the last turn with calls, and exactly the calls owed are unanswered.
  ghost predicate Unfinished(history: seq<Message>, i: nat, owed: seq<string>) {
    && i < |history|
    && |owed| <= |CallsOf(history[i])|
    && i + 1 + |CallsOf(history[i])| - |owed| == |history|
    && AnsweredAt(history, i, |CallsOf(history[i])| - |owed|)
    && Ids(CallsOf(history[i]))[|CallsOf(history[i])| - |owed|..] == owed
  }

  lemma AnsweredLater(history: seq<Message>, m: Message, i: nat, k: nat)
    requires AnsweredAt(history, i, k)
    ensures AnsweredAt(history + [m], i, k)
  {
    assert forall p :: 0 <= p < |history| ==> (history + [m])[p] == history[p];
  }

  lemma OneMoreAnswered(history: seq<Message>, m: Message, i: nat, owed: seq<string>)
    requires Unfinished(history, i, owed) && owed != []
    requires m.role == "tool" && m.toolCallID == owed[0]
    ensures Unfinished(history + [m], i, owed[1..])
  {
    var calls := CallsOf(history[i]);
    var k := |calls| - |owed|;
    assert Ids(calls)[k..][0] == calls[k].id;
    AnsweredLater(history, m, i, k);
    var longer := history + [m];
    assert longer[i] == history[i] && longer[i + 1 + k] == m;
    assert forall p :: 0 <= p < |history| ==> longer[p] == history[p];
    assert Ids(calls)[k + 1..] == owed[1..];
  }

  lemma {:induction false} TurnAt(history: seq<Message>, i: nat)
    requires Owed(history).Some? && i < |history|
    ensures AnsweredAt(history, i, |CallsOf(history[i])|) || Unfinished(history, i, Owed(history).value)
    decreases |history|
  {
    hide AnsweredAt, Unfinished, CallsOf;
    var before, m := history[..|history| - 1], history[|history| - 1];
    assert history == before + [m];
    if i < |before| {
      TurnAt(before, i);
      if AnsweredAt(before, i, |CallsOf(before[i])|) {
        AnsweredLater(before, m, i, |CallsOf(before[i])|);
      } else if m.role == "tool" {
        OneMoreAnswered(before, m, i, Owed(before).value);
      } else {
        NothingOwed(before, i);
      }
    } else {
      LastTurn(history);
    }
  }

  lemma NothingOwed(history: seq<Message>, i: nat)
    ensures !Unfinished(history, i, []) || AnsweredAt(history, i, |CallsOf(history[i])|)
  {
  }

  lemma LastTurn(history: seq<Message>)
    requires history != [] && Owed(history).Some?
    ensures var last := |history| - 1;
      AnsweredAt(history, last, |CallsOf(history[last])|) || Unfinished(history, last, Owed(history).value)
  {
    var last := |history| - 1;
    if history[last].role != "tool" {
      assert Ids(CallsOf(history[last]))[0..] == Ids(CallsOf(history[last]));
    }
  }

  /** In a well-paired history every assistant turn with n tool calls is
      followed by n tool results with the same ids in the same order. */
  lemma WellPairedAnswers(history: seq<Message>, i: nat)
    requires WellPaired(history) && i < |history|
    ensures AnsweredAt(history, i, |CallsOf(history[i])|)
  {
    TurnAt(history, i);
  }
}
