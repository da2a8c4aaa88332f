/** Translation between the chat history and the block-structured message
    format of the Anthropic API. */
module Anthropic {
  import opened Text
  import opened Chat
  import Agent

  datatype Block =
    | TextBlock(text: string)
    | ToolUse(id: string, name: string, input: string)
    | ToolOutput(toolUseID: string, content: string)

  datatype BlockMessage = BlockMessage(role: string, blocks: seq<Block>)

  // ---- per-message blocks ---------------------------------------------

  // The arguments as JSON; `valid` is JSON validity.
  function Normalised(arguments: string, valid: string -> bool): string {
    if valid(arguments) then arguments else "{}"
  }

  function UseBlocks(calls: seq<ToolCall>, valid: string -> bool): (r: seq<Block>)
    ensures |r| == |calls|
  {
    seq(|calls|, i requires 0 <= i < |calls| => ToolUse(calls[i].id, calls[i].name, Normalised(calls[i].arguments, valid)))
  }

  function AssistantBlocks(m: Message, valid: string -> bool): (r: seq<Block>)
    ensures r != []
  {
    var blocks := (if m.content != "" then [TextBlock(m.content)] else []) + UseBlocks(m.toolCalls, valid);
    if blocks == [] then [TextBlock("")] else blocks
  }

  /** The blocks a message stands for. */
  function BlocksOf(m: Message, valid: string -> bool): seq<Block> {
    if m.role == "user" then [TextBlock(m.content)]
    else if m.role == "assistant" then AssistantBlocks(m, valid)
    else if m.role == "tool" then [ToolOutput(m.toolCallID, m.content)]
    else []
  }

  function AllBlocks(messages: seq<Message>, valid: string -> bool): seq<Block> {
    if messages == [] then []
    else AllBlocks(messages[..|messages| - 1], valid) + BlocksOf(messages[|messages| - 1], valid)
  }

  function Flatten(msgs: seq<BlockMessage>): seq<Block> {
    if msgs == [] then [] else Flatten(msgs[..|msgs| - 1]) + msgs[|msgs| - 1].blocks
  }

  function LastSystem(messages: seq<Message>): Option<string> {
    if messages == [] then None
    else
      var m := messages[|messages| - 1];
      if m.role == "system" then Some(m.content) else LastSystem(messages[..|messages| - 1])
  }

  // ---- the request ----------------------------------------------------

  /** The messages built so far and the tool results not yet flushed. */
  datatype Partial = Partial(msgs: seq<BlockMessage>, pending: seq<Block>)

  function Flushed(p: Partial): Partial {
    if p.pending == [] then p else Partial(p.msgs + [BlockMessage("user", p.pending)], [])
  }

  function Add(p: Partial, m: Message, valid: string -> bool): Partial {
    if m.role == "user" || m.role == "assistant" then
      Flushed(p).(msgs := Flushed(p).msgs + [BlockMessage(m.role, BlocksOf(m, valid))])
    else if m.role == "tool" then p.(pending := p.pending + BlocksOf(m, valid))
    else p
  }

  function Translated(messages: seq<Message>, valid: string -> bool): Partial {
    if messages == [] then Partial([], [])
    else Add(Translated(messages[..|messages| - 1], valid), messages[|messages| - 1], valid)
  }

  function Request(messages: seq<Message>, valid: string -> bool): seq<BlockMessage> {
    Flushed(Translated(messages, valid)).msgs
  }

  method FlushToolResults(msgs: seq<BlockMessage>, pending: seq<Block>)
      returns (msgs': seq<BlockMessage>, pending': seq<Block>)
    ensures Partial(msgs', pending') == Flushed(Partial(msgs, pending))
  {
    if pending == [] {
      return msgs, pending;
    }
    return msgs + [BlockMessage("user", pending)], [];
  }

  /** Groups the history into block messages; tool results collect into one
      user message, system messages move out. */
  method BuildAnthropicRequest(messages: seq<Message>, valid: string -> bool)
      returns (system: Option<string>, msgs: seq<BlockMessage>)
    ensures msgs == Request(messages, valid) && system == LastSystem(messages)
  {
    system, msgs := None, [];
    var pending: seq<Block> := [];
    var i := 0;
    while i < |messages|
      invariant 0 <= i <= |messages|
      invariant Partial(msgs, pending) == Translated(messages[..i], valid) && system == LastSystem(messages[..i])
    {
      var m := messages[i];
      assert messages[..i + 1][..i] == messages[..i];
      i := i + 1;
      if m.role == "system" {
        system := Some(m.content);
      } else if m.role == "user" {
        msgs, pending := FlushToolResults(msgs, pending);
        msgs := msgs + [BlockMessage("user", [TextBlock(m.content)])];
      } else if m.role == "assistant" {
        msgs, pending := FlushToolResults(msgs, pending);
        var blocks := ToAssistantBlocks(m, valid);
        msgs := msgs + [BlockMessage("assistant", blocks)];
      } else if m.role == "tool" {
        pending := pending + [ToolOutput(m.toolCallID, m.content)];
      }
    }
    assert messages[..i] == messages;
    msgs, pending := FlushToolResults(msgs, pending);
  }

  method ToAssistantBlocks(m: Message, valid: string -> bool) returns (blocks: seq<Block>)
    ensures blocks == AssistantBlocks(m, valid)
  {
    blocks := [];
    if m.content != "" {
      blocks := [TextBlock(m.content)];
    }
    var text, i := blocks, 0;
    while i < |m.toolCalls|
      invariant 0 <= i <= |m.toolCalls|
      invariant blocks == text + UseBlocks(m.toolCalls[..i], valid)
    {
      var raw := m.toolCalls[i].arguments;
      if !valid(raw) {
        raw := "{}";
      }
      blocks := blocks + [ToolUse(m.toolCalls[i].id, m.toolCalls[i].name, raw)];
      i := i + 1;
    }
    assert m.toolCalls[..i] == m.toolCalls;
    if blocks == [] {
      blocks := [TextBlock("")];
    }
  }

  // ---- nothing is lost ------------------------------------------------

  lemma FlattenExtend(msgs: seq<BlockMessage>, m: BlockMessage)
    ensures Flatten(msgs + [m]) == Flatten(msgs) + m.blocks
  {
    assert (msgs + [m])[..|msgs|] == msgs;
  }

  lemma FlushedKeepsBlocks(p: Partial)
    ensures Flatten(Flushed(p).msgs) + Flushed(p).pending == Flatten(p.msgs) + p.pending
    ensures Flushed(p).pending == []
  {
    if p.pending != [] {
      FlattenExtend(p.msgs, BlockMessage("user", p.pending));
    }
  }

  lemma {:induction false} AddKeepsBlocks(p: Partial, m: Message, valid: string -> bool)
    ensures Flatten(Add(p, m, valid).msgs) + Add(p, m, valid).pending == Flatten(p.msgs) + p.pending + BlocksOf(m, valid)
  {
    hide Flatten, Flushed, AssistantBlocks;
    if m.role == "user" || m.role == "assistant" {
      FlushedKeepsBlocks(p);
      FlattenExtend(Flushed(p).msgs, BlockMessage(m.role, BlocksOf(m, valid)));
    }
  }

  lemma {:induction false} TranslatedKeepsBlocks(messages: seq<Message>, valid: string -> bool)
    ensures var p := Translated(messages, valid); Flatten(p.msgs) + p.pending == AllBlocks(messages, valid)
  {
    hide BlocksOf, Add;
    if messages != [] {
      var n := |messages| - 1;
      TranslatedKeepsBlocks(messages[..n], valid);
      AddKeepsBlocks(Translated(messages[..n], valid), messages[n], valid);
    }
  }

  /** Translation loses nothing: the request's blocks are the blocks of the
      messages, in order, none dropped or duplicated. */
  lemma {:induction false} NothingLost(messages: seq<Message>, valid: string -> bool)
    ensures Flatten(Request(messages, valid)) == AllBlocks(messages, valid)
  {
    TranslatedKeepsBlocks(messages, valid);
    FlushedKeepsBlocks(Translated(messages, valid));
  }

  // ---- tool uses and their results ------------------------------------

  function UseIds(blocks: seq<Block>): seq<string> {
    if blocks == [] then []
    else
      var last := blocks[|blocks| - 1];
      UseIds(blocks[..|blocks| - 1]) + (if last.ToolUse? then [last.id] else [])
  }

  // The results of these ids, in this order, and nothing else.
  predicate OutputsFor(blocks: seq<Block>, ids: seq<string>) {
    |blocks| == |ids| && forall i :: 0 <= i < |blocks| ==> blocks[i].ToolOutput? && blocks[i].toolUseID == ids[i]
  }

  function TurnIds(m: BlockMessage): seq<string> {
    if m.role == "assistant" then UseIds(m.blocks) else []
  }

  predicate FollowedUp(msgs: seq<BlockMessage>, i: nat)
    requires i < |msgs|
  {
    TurnIds(msgs[i]) != [] ==>
      i + 1 < |msgs| && msgs[i + 1].role == "user" && OutputsFor(msgs[i + 1].blocks, TurnIds(msgs[i]))
  }

  /** Each turn with tool uses is directly followed by one user message holding
      exactly their results, in order. */
  predicate Paired(msgs: seq<BlockMessage>) {
    forall i :: 0 <= i < |msgs| ==> FollowedUp(msgs, i)
  }

  function LastIds(msgs: seq<BlockMessage>): seq<string> {
    if msgs == [] then [] else TurnIds(msgs[|msgs| - 1])
  }

  // All turns but the last are followed up; the last one's uses are pending or owed.
  predicate PairedSoFar(p: Partial, owed: seq<string>) {
    && (forall i :: 0 <= i < |p.msgs| - 1 ==> FollowedUp(p.msgs, i))
    && |owed| <= |LastIds(p.msgs)|
    && LastIds(p.msgs)[|LastIds(p.msgs)| - |owed|..] == owed
    && OutputsFor(p.pending, LastIds(p.msgs)[..|LastIds(p.msgs)| - |owed|])
  }

  lemma FlushPairs(p: Partial)
    requires PairedSoFar(p, [])
    ensures Paired(Flushed(p).msgs) && Flushed(p).pending == []
  {
    var ids := LastIds(p.msgs);
    assert ids[..|ids|] == ids;
    if p.pending != [] {
      var msgs := Flushed(p).msgs;
      OutputsAreNoUses(p.pending, ids);
      forall i | 0 <= i < |msgs|
        ensures FollowedUp(msgs, i)
      {
        if i < |p.msgs| - 1 {
          assert FollowedUp(p.msgs, i);
        }
      }
    }
  }

  lemma {:induction false} OutputsAreNoUses(blocks: seq<Block>, ids: seq<string>)
    requires OutputsFor(blocks, ids)
    ensures UseIds(blocks) == []
  {
    if blocks != [] {
      OutputsAreNoUses(blocks[..|blocks| - 1], ids[..|blocks| - 1]);
    }
  }

  lemma UseIdsExtend(blocks: seq<Block>, b: Block)
    ensures UseIds(blocks + [b]) == UseIds(blocks) + (if b.ToolUse? then [b.id] else [])
  {
    assert (blocks + [b])[..|blocks|] == blocks;
  }

  lemma UseBlocksExtend(calls: seq<ToolCall>, n: nat, valid: string -> bool)
    requires |calls| == n + 1
    ensures UseBlocks(calls, valid)
         == UseBlocks(calls[..n], valid) + [ToolUse(calls[n].id, calls[n].name, Normalised(calls[n].arguments, valid))]
  {
  }

  lemma {:induction false} UseIdsOf(calls: seq<ToolCall>, valid: string -> bool, before: seq<Block>)
    requires UseIds(before) == []
    ensures UseIds(before + UseBlocks(calls, valid)) == Ids(calls)
    decreases |calls|
  {
    hide UseIds, UseBlocks, Normalised;
    if calls == [] {
      assert before + UseBlocks(calls, valid) == before;
    } else {
      var n := |calls| - 1;
      var b := ToolUse(calls[n].id, calls[n].name, Normalised(calls[n].arguments, valid));
      UseIdsOf(calls[..n], valid, before);
      UseBlocksExtend(calls, n, valid);
      UseIdsExtend(before + UseBlocks(calls[..n], valid), b);
      assert before + UseBlocks(calls, valid) == (before + UseBlocks(calls[..n], valid)) + [b];
      assert Ids(calls) == Ids(calls[..n]) + [calls[n].id];
    }
  }

  lemma TurnIdsOf(m: Message, valid: string -> bool)
    requires m.role == "user" || m.role == "assistant"
    ensures TurnIds(BlockMessage(m.role, BlocksOf(m, valid))) == Ids(CallsOf(m))
  {
    if m.role == "assistant" {
      var text := if m.content != "" then [TextBlock(m.content)] else [];
      assert UseIds(text) == [];
      UseIdsOf(m.toolCalls, valid, text);
      if text + UseBlocks(m.toolCalls, valid) == [] {
        assert UseIds([TextBlock("")]) == [];
      }
    }
  }

  lemma AddPairs(p: Partial, owed: seq<string>, m: Message, valid: string -> bool)
    requires PairedSoFar(p, owed) && Answer(Some(owed), m).Some?
    requires CallsOf(m) != [] ==> m.role == "assistant"
    ensures PairedSoFar(Add(p, m, valid), Answer(Some(owed), m).value)
  {
    if m.role == "tool" {
      var ids := LastIds(p.msgs);
      var k := |ids| - |owed|;
      assert ids[k..][0] == ids[k];
      assert ids[..k + 1] == ids[..k] + [ids[k]];
      assert ids[k + 1..] == owed[1..];
    } else if m.role == "user" || m.role == "assistant" {
      FlushPairs(p);
      TurnIdsOf(m, valid);
      var before, after := Flushed(p).msgs, Add(p, m, valid).msgs;
      forall i | 0 <= i < |after| - 1
        ensures FollowedUp(after, i)
      {
        assert FollowedUp(before, i);
      }
    }
  }

  lemma {:induction false} TranslatedPairs(messages: seq<Message>, valid: string -> bool)
    requires Owed(messages).Some?
    ensures PairedSoFar(Translated(messages, valid), Owed(messages).value)
  {
    hide PairedSoFar, Add;
    if messages == [] {
      NothingPaired();
    } else {
      var n := |messages| - 1;
      TranslatedPairs(messages[..n], valid);
      AddPairs(Translated(messages[..n], valid), Owed(messages[..n]).value, messages[n], valid);
    }
  }

  lemma NothingPaired()
    ensures PairedSoFar(Partial([], []), [])
  {
  }

  /** A well-paired history, sent with its system prompt, gives a request in
      which every tool-use turn is directly followed by one user message with
      exactly its results. */
  lemma RequestPairs(prompt: string, history: seq<Message>, valid: string -> bool)
    requires WellPaired(history)
    ensures Paired(Request(Prompted(prompt, history), valid))
  {
    PromptedOwes(prompt, history);
    TranslatedPairs(Prompted(prompt, history), valid);
    FlushPairs(Translated(Prompted(prompt, history), valid));
  }

  /** So does every request an agent run makes, from any history that is well
      paired at its calls: the translation is that of the whole history of that
      moment. */
  lemma EveryRequestPairs(requests: seq<seq<Message>>, asked: seq<nat>, prompt: string, input: nat, history: seq<Message>,
                          valid: string -> bool, i: nat)
    requires Agent.AskedProperly(requests, asked, prompt, input, history) && i < |requests|
    requires Agent.PairedAtCalls(asked, history)
    ensures Paired(Request(requests[i], valid))
    ensures Flatten(Request(requests[i], valid)) == AllBlocks(Prompted(prompt, history[..asked[i]]), valid)
  {
    RequestPairs(prompt, history[..asked[i]], valid);
    NothingLost(requests[i], valid);
  }

  // ---- the response ---------------------------------------------------

  function Texts(blocks: seq<Block>): string {
    if blocks == [] then ""
    else
      var last := blocks[|blocks| - 1];
      Texts(blocks[..|blocks| - 1]) + (if last.TextBlock? then last.text else "")
  }

  function CallBack(b: Block): seq<ToolCall> {
    if b.ToolUse? then [ToolCall(b.id, "function", b.name, if b.input != "" then b.input else "{}")] else []
  }

  function Calls(blocks: seq<Block>): seq<ToolCall> {
    if blocks == [] then []
    else
      var last := blocks[|blocks| - 1];
      Calls(blocks[..|blocks| - 1]) + CallBack(last)
  }

  function Completion(blocks: seq<Block>): Message {
    Message("assistant", Texts(blocks), "", Calls(blocks))
  }

  /** Collects the text and the tool calls of a response. */
  method ResponseToCompletion(blocks: seq<Block>) returns (message: Message, finishReason: string)
    ensures message == Completion(blocks)
    ensures finishReason == if message.toolCalls != [] then "tool_calls" else "stop"
  {
    var text, calls, i := "", [], 0;
    while i < |blocks|
      invariant 0 <= i <= |blocks|
      invariant text == Texts(blocks[..i]) && calls == Calls(blocks[..i])
    {
      assert blocks[..i + 1][..i] == blocks[..i];
      match blocks[i] {
        case TextBlock(t) => text := text + t;
        case ToolUse(id, name, input) =>
          var args := "{}";
          if |input| > 0 {
            args := input;
          }
          calls := calls + [ToolCall(id, "function", name, args)];
        case ToolOutput(_, _) =>
      }
      i := i + 1;
    }
    assert blocks[..i] == blocks;
    message := Message("assistant", text, "", calls);
    finishReason := "stop";
    if |calls| > 0 {
      finishReason := "tool_calls";
    }
  }

  function NormalisedCalls(calls: seq<ToolCall>, valid: string -> bool): (r: seq<ToolCall>)
    ensures |r| == |calls|
  {
    seq(|calls|, i requires 0 <= i < |calls| =>
      ToolCall(calls[i].id, "function", calls[i].name, Normalised(calls[i].arguments, valid)))
  }

  lemma ReadExtend(blocks: seq<Block>, b: Block)
    ensures Texts(blocks + [b]) == Texts(blocks) + (if b.TextBlock? then b.text else "")
    ensures Calls(blocks + [b]) == Calls(blocks) + CallBack(b)
  {
    assert (blocks + [b])[..|blocks|] == blocks;
  }

  lemma {:induction false} UseBlocksBack(before: seq<Block>, calls: seq<ToolCall>, valid: string -> bool)
    requires !valid("")
    ensures Texts(before + UseBlocks(calls, valid)) == Texts(before)
    ensures Calls(before + UseBlocks(calls, valid)) == Calls(before) + NormalisedCalls(calls, valid)
    decreases |calls|
  {
    hide Texts, Calls;
    if calls == [] {
      assert before + UseBlocks(calls, valid) == before;
    } else {
      var n := |calls| - 1;
      var b := ToolUse(calls[n].id, calls[n].name, Normalised(calls[n].arguments, valid));
      UseBlocksBack(before, calls[..n], valid);
      UseBlocksExtend(calls, n, valid);
      ReadExtend(before + UseBlocks(calls[..n], valid), b);
      assert before + UseBlocks(calls, valid) == (before + UseBlocks(calls[..n], valid)) + [b];
      assert NormalisedCalls(calls, valid) == NormalisedCalls(calls[..n], valid) + CallBack(b);
    }
  }

  lemma TextAlone(t: string)
    ensures Texts([TextBlock(t)]) == t && Calls([TextBlock(t)]) == [] && Texts([]) == "" && Calls([]) == []
  {
    ReadExtend([], TextBlock(t));
    assert [] + [TextBlock(t)] == [TextBlock(t)];
  }

  /** Reading back a translated assistant turn gives its content and its tool
      calls, with only invalid JSON arguments replaced by {}. */
  lemma RoundTrip(m: Message, valid: string -> bool)
    requires m.role == "assistant" && !valid("")
    ensures Completion(BlocksOf(m, valid)) == Message("assistant", m.content, "", NormalisedCalls(m.toolCalls, valid))
    ensures (forall i :: 0 <= i < |m.toolCalls| ==> m.toolCalls[i].kind == "function" && valid(m.toolCalls[i].arguments)) ==>
      Completion(BlocksOf(m, valid)).toolCalls == m.toolCalls
  {
    hide Texts, Calls;
    var text := if m.content != "" then [TextBlock(m.content)] else [];
    TextAlone(m.content);
    TextAlone("");
    UseBlocksBack(text, m.toolCalls, valid);
    assert Calls(text) + NormalisedCalls(m.toolCalls, valid) == NormalisedCalls(m.toolCalls, valid);
  }
}
