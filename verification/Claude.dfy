/** The Claude (and Amp) log processor: decoded events become patches on a conversation. Text and thinking
    blocks are shown while they stream, a final assistant message settles them, and tool results replace
    the entry of the tool use they answer. */
module Claude {
  import opened Text
  import opened Conversation

  // ---------- Events ----------

  /** How a result of the tool is shown: as a command's outcome, as a generic tool's value, or not at all. */
  datatype ToolClass = Command | Generic | Silent
  datatype Tool = Tool(name: string, class_: ToolClass)

  datatype Item =
    | TextItem(text: string)
    | ThinkingItem(text: string)
    | ToolUse(id: string, tool: Tool)
    | ToolResult(id: string, content: string, isError: Option<bool>)

  datatype Message = Message(id: Option<string>, role: string, model: Option<string>, content: seq<Item>)

  datatype Delta = TextDelta(text: string) | ThinkingDelta(text: string) | OtherDelta

  datatype StreamEvent =
    | MessageStart(message: Message)
    | BlockStart(index: nat, block: Item)
    | BlockDelta(index: nat, delta: Delta)
    | BlockStop(index: nat)
    | MessageDelta
    | MessageStop
    | OtherStream

  datatype Approval = Pending | Approved | Denied(reason: Option<string>) | TimedOut

  /** The `json` of a result is the event itself, serialised. */
  datatype Event =
    | System(subtype: Option<string>, apiKeySource: Option<string>)
    | Assistant(message: Message)
    | User(message: Message)
    | ToolUseEvent(tool: Tool)
    | ToolResultEvent
    | Stream(event: StreamEvent)
    | Result(isError: Option<bool>, json: string)
    | ApprovalResponse(toolName: string, status: Approval)
    | Unknown(data: string)

  datatype Strategy = Default | AmpResume

  // ---------- Entries and state ----------

  datatype ToolStatus = Created | Success | Failed

  datatype Entry =
    | AssistantMessage(content: string)
    | Thinking(content: string)
    | UserMessage(content: string)
    | SystemMessage(content: string)
    | ErrorMessage(content: string)
    | UserFeedback(deniedTool: string, content: string)
    | ToolEntry(tool: Tool, status: ToolStatus, result: Option<string>)

  datatype BlockKind = TextBlock | ThinkingBlock
  datatype Block = Block(kind: BlockKind, buffer: string, entryIndex: Option<nat>)
  datatype Streaming = Streaming(role: string, blocks: map<nat, Block>)
  datatype ToolInfo = ToolInfo(index: nat, tool: Tool)

  /** The processor's fields, and how many positions it has drawn from the provider. */
  datatype State = State(
    model: Option<string>,
    tools: map<string, ToolInfo>,
    streaming: map<string, Streaming>,
    current: Option<string>,
    used: nat)

  const INIT := State(None, map[], map[], None, 0)

  datatype Step = Step(state: State, patches: seq<Patch<Entry>>)

  // ---------- The transition function ----------

  function ItemEntry(item: Item, role: string): Option<Entry> {
    match item
    case TextItem(t) => if role == "assistant" then Some(AssistantMessage(t)) else None
    case ThinkingItem(t) => Some(Thinking(t))
    case ToolUse(_, tool) => Some(ToolEntry(tool, Created, None))
    case ToolResult(_, _, _) => None
  }

  /** Replace the entry at a known position, or add one at the next position. */
  function Put(s: State, supply: Supply, at: Option<nat>, e: Entry): Step {
    if at.Some? then Step(s, [Replace(at.value, e)])
    else Step(s.(used := s.used + 1), [Add(supply(s.used), e)])
  }

  function Then(a: Step, b: Step): Step {
    Step(b.state, a.patches + b.patches)
  }

  function ReportModel(s: State, supply: Supply, message: Message): Step {
    if s.model.None? && message.model.Some? then
      Put(s.(model := message.model), supply, None,
          SystemMessage("System initialized with model: " + message.model.value))
    else Step(s, [])
  }

  function BlockIndex(blocks: map<nat, Block>, k: nat): Option<nat> {
    if k in blocks then blocks[k].entryIndex else None
  }

  function AssistantItem(s: State, supply: Supply, role: string, at: Option<nat>, item: Item): Step {
    match item
    case ToolUse(id, tool) =>
      var put := Put(s, supply, at, ToolEntry(tool, Created, None));
      put.(state := put.state.(tools := s.tools[id := ToolInfo(put.patches[0].index, tool)]))
    case _ =>
      var e := ItemEntry(item, role);
      if e.Some? then Put(s, supply, at, e.value) else Step(s, [])
  }

  /** Items `from` to `n` of a final message whose streamed blocks are `blocks`. */
  function AssistantItems(s: State, supply: Supply, message: Message, blocks: map<nat, Block>, from: nat, n: nat): Step
    requires from <= n <= |message.content|
  {
    if n == from then Step(s, [])
    else
      var before := AssistantItems(s, supply, message, blocks, from, n - 1);
      Then(before, AssistantItem(before.state, supply, message.role, BlockIndex(blocks, n - 1), message.content[n - 1]))
  }

  function StreamedBlocks(s: State, message: Message): map<nat, Block> {
    if message.id.Some? && message.id.value in s.streaming then s.streaming[message.id.value].blocks else map[]
  }

  function Forget(s: State, id: Option<string>): State {
    if id.Some? then s.(streaming := s.streaming - {id.value}) else s
  }

  function OnAssistant(s: State, supply: Supply, message: Message): Step {
    var report := ReportModel(s, supply, message);
    var blocks := StreamedBlocks(report.state, message);
    Then(report, AssistantItems(Forget(report.state, message.id), supply, message, blocks, 0, |message.content|))
  }

  function ResultEntry(info: ToolInfo, content: string, isError: Option<bool>): Entry {
    ToolEntry(info.tool, if isError == Some(true) then Failed else Success, Some(content))
  }

  function ResultPatch(s: State, item: Item): seq<Patch<Entry>> {
    if item.ToolResult? && item.id in s.tools && s.tools[item.id].tool.class_ != Silent then
      [Replace(s.tools[item.id].index, ResultEntry(s.tools[item.id], item.content, item.isError))]
    else []
  }

  function ToolResults(s: State, items: seq<Item>, n: nat): seq<Patch<Entry>>
    requires n <= |items|
  {
    if n == 0 then [] else ToolResults(s, items, n - 1) + ResultPatch(s, items[n - 1])
  }

  predicate HasText(items: seq<Item>) {
    exists i :: 0 <= i < |items| && items[i].TextItem?
  }

  function Removals(n: nat): seq<Patch<Entry>> {
    seq(n, i => Remove(0))
  }

  function UserTexts(s: State, supply: Supply, items: seq<Item>, n: nat): Step
    requires n <= |items|
  {
    if n == 0 then Step(s, [])
    else
      var before := UserTexts(s, supply, items, n - 1);
      if items[n - 1].TextItem? then
        Then(before, Put(before.state, supply, None, UserMessage(items[n - 1].text)))
      else before
  }

  /** Amp replays the thread on resume: a user text clears the conversation and starts over. */
  function Restart(s: State, supply: Supply, items: seq<Item>): Step {
    var cur := supply(s.used);
    var cleared := if cur > 0 then Step(s.(used := 0, tools := map[]), Removals(cur)) else Step(s, []);
    Then(cleared, UserTexts(cleared.state, supply, items, |items|))
  }

  function OnUser(strategy: Strategy, s: State, supply: Supply, message: Message): Step {
    var start := if strategy == AmpResume && HasText(message.content) then Restart(s, supply, message.content)
                 else Step(s, []);
    Then(start, Step(start.state, ToolResults(start.state, message.content, |message.content|)))
  }

  function BlockFromItem(item: Item): Option<Block> {
    match item
    case TextItem(t) => Some(Block(TextBlock, t, None))
    case ThinkingItem(t) => Some(Block(ThinkingBlock, t, None))
    case _ => None
  }

  function BlockFromDelta(delta: Delta): Option<Block> {
    match delta
    case TextDelta(_) => Some(Block(TextBlock, "", None))
    case ThinkingDelta(_) => Some(Block(ThinkingBlock, "", None))
    case OtherDelta => None
  }

  /** What a delta contributes to a block of the given kind. */
  function Matching(kind: BlockKind, delta: Delta): string {
    match (kind, delta)
    case (TextBlock, TextDelta(t)) => t
    case (ThinkingBlock, ThinkingDelta(t)) => t
    case _ => ""
  }

  function BlockItem(b: Block): Item {
    match b.kind
    case TextBlock => TextItem(b.buffer)
    case ThinkingBlock => ThinkingItem(b.buffer)
  }

  function SetBlock(s: State, m: string, k: nat, b: Block): State
    requires m in s.streaming
  {
    s.(streaming := s.streaming[m := s.streaming[m].(blocks := s.streaming[m].blocks[k := b])])
  }

  function OnDelta(s: State, supply: Supply, m: string, k: nat, delta: Delta): Step
    requires m in s.streaming
  {
    var found := if k in s.streaming[m].blocks then Some(s.streaming[m].blocks[k]) else BlockFromDelta(delta);
    if found.None? then Step(s, [])
    else
      var b := found.value.(buffer := found.value.buffer + Matching(found.value.kind, delta));
      var e := ItemEntry(BlockItem(b), s.streaming[m].role);
      if e.None? then Step(SetBlock(s, m, k, b), [])
      else
        var put := Put(s, supply, b.entryIndex, e.value);
        put.(state := SetBlock(put.state, m, k, b.(entryIndex := Some(put.patches[0].index))))
  }

  function OnStream(s: State, supply: Supply, ev: StreamEvent): Step {
    match ev
    case MessageStart(message) =>
      if message.role != "assistant" then Step(s.(current := None), [])
      else
        var report := ReportModel(s, supply, message);
        report.(state := StartMessage(report.state, message))
    case BlockStart(k, item) =>
      if s.current.Some? && s.current.value in s.streaming && BlockFromItem(item).Some? then
        Step(SetBlock(s, s.current.value, k, BlockFromItem(item).value), [])
      else Step(s, [])
    case BlockDelta(k, delta) =>
      if s.current.Some? && s.current.value in s.streaming then OnDelta(s, supply, s.current.value, k, delta)
      else Step(s, [])
    case MessageStop => Step(Forget(s, s.current).(current := None), [])
    case _ => Step(s, [])
  }

  function StartMessage(s: State, message: Message): State {
    if message.id.None? then s.(current := None)
    else s.(streaming := s.streaming[message.id.value := Streaming(message.role, map[])], current := message.id)
  }

  const BILLING_WARNING := "Claude Code + ANTHROPIC_API_KEY detected. Usage will be billed via Anthropic "
                           + "pay-as-you-go instead of your Claude subscription."

  /** The entries an event adds on its own account, without touching the streams or the tools. */
  function PlainEntries(strategy: Strategy, ev: Event): seq<Entry> {
    match ev
    case System(subtype, source) =>
      (if source == Some("ANTHROPIC_API_KEY") then [ErrorMessage(BILLING_WARNING)] else [])
      + (if subtype == Some("init") then []
         else [SystemMessage(if subtype.Some? then "System: " + subtype.value else "System message")])
    case ToolUseEvent(tool) => [ToolEntry(tool, Created, None)]
    case Result(isError, json) => if strategy == AmpResume && isError == Some(true) then [ErrorMessage(json)] else []
    case ApprovalResponse(name, Denied(reason)) =>
      [UserFeedback(name, if reason.Some? && Trim(reason.value) != "" then Trim(reason.value)
                          else "User denied this tool use request")]
    case ApprovalResponse(name, TimedOut) => [ErrorMessage("Approval timed out for tool " + name)]
    case Unknown(data) => [SystemMessage("Unrecognized JSON message: " + data)]
    case _ => []
  }

  function AddAll(s: State, supply: Supply, es: seq<Entry>, n: nat): Step
    requires n <= |es|
  {
    if n == 0 then Step(s, [])
    else
      var before := AddAll(s, supply, es, n - 1);
      Then(before, Put(before.state, supply, None, es[n - 1]))
  }

  function Normalize(strategy: Strategy, s: State, supply: Supply, ev: Event): Step {
    match ev
    case Assistant(message) => OnAssistant(s, supply, message)
    case User(message) => OnUser(strategy, s, supply, message)
    case Stream(event) => OnStream(s, supply, event)
    case _ => var es := PlainEntries(strategy, ev); AddAll(s, supply, es, |es|)
  }

  // ---------- The processor ----------

  class LogProcessor {
    var model: Option<string>
    var tools: map<string, ToolInfo>
    var streaming: map<string, Streaming>
    var current: Option<string>
    const strategy: Strategy

    constructor (strategy: Strategy)
      ensures this.strategy == strategy && View(0) == INIT
    {
      this.strategy := strategy;
      model, tools, streaming, current := None, map[], map[], None;
    }

    ghost function View(used: nat): State
      reads this
    {
      State(model, tools, streaming, current, used)
    }

    method NormalizeEntries(ev: Event, provider: IndexProvider) returns (patches: seq<Patch<Entry>>)
      modifies this, provider
      ensures Step(View(provider.used), patches)
           == Normalize(strategy, old(View(provider.used)), provider.supply, ev)
    {
      match ev {
        case Assistant(message) => patches := HandleAssistant(message, provider);
        case User(message) => patches := HandleUser(message, provider);
        case Stream(event) => patches := HandleStream(event, provider);
        case _ =>
          patches := AddEntries(PlainEntries(strategy, ev), provider);
      }
    }

    method AddEntries(es: seq<Entry>, provider: IndexProvider) returns (patches: seq<Patch<Entry>>)
      modifies provider
      ensures Step(View(provider.used), patches) == AddAll(old(View(provider.used)), provider.supply, es, |es|)
    {
      patches := [];
      for n := 0 to |es|
        invariant Step(View(provider.used), patches) == AddAll(old(View(provider.used)), provider.supply, es, n)
      {
        var i := provider.Next();
        patches := patches + [Add(i, es[n])];
      }
    }

    method ExtractModelName(message: Message, provider: IndexProvider) returns (patches: seq<Patch<Entry>>)
      modifies this`model, provider
      ensures Step(View(provider.used), patches) == ReportModel(old(View(provider.used)), provider.supply, message)
    {
      patches := [];
      if model.None? && message.model.Some? {
        model := message.model;
        var i := provider.Next();
        patches := [Add(i, SystemMessage("System initialized with model: " + message.model.value))];
      }
    }

    method HandleAssistant(message: Message, provider: IndexProvider) returns (patches: seq<Patch<Entry>>)
      modifies this, provider
      ensures Step(View(provider.used), patches) == OnAssistant(old(View(provider.used)), provider.supply, message)
    {
      var report := ExtractModelName(message, provider);
      var blocks: map<nat, Block> := map[];
      if message.id.Some? && message.id.value in streaming {
        blocks := streaming[message.id.value].blocks;
        streaming := streaming - {message.id.value};
      } else if message.id.Some? {
        assert streaming - {message.id.value} == streaming;
      }
      patches := [];
      ghost var s := View(provider.used);
      for n := 0 to |message.content|
        invariant Step(View(provider.used), patches) == AssistantItems(s, provider.supply, message, blocks, 0, n)
      {
        var at := BlockIndex(blocks, n);
        match message.content[n] {
          case ToolUse(id, tool) =>
            var i: nat;
            if at.Some? { i := at.value; } else { i := provider.Next(); }
            tools := tools[id := ToolInfo(i, tool)];
            var e := ToolEntry(tool, Created, None);
            patches := patches + [if at.None? then Add(i, e) else Replace(i, e)];
          case ToolResult(_, _, _) =>
          case _ =>
            var e := ItemEntry(message.content[n], message.role);
            if e.Some? {
              var i: nat;
              if at.Some? { i := at.value; } else { i := provider.Next(); }
              patches := patches + [if at.None? then Add(i, e.value) else Replace(i, e.value)];
            }
        }
      }
      patches := report + patches;
    }

    method HandleUser(message: Message, provider: IndexProvider) returns (patches: seq<Patch<Entry>>)
      modifies this, provider
      ensures Step(View(provider.used), patches)
           == OnUser(strategy, old(View(provider.used)), provider.supply, message)
    {
      patches := [];
      if strategy == AmpResume && HasText(message.content) {
        var cur := provider.Current();
        if cur > 0 {
          for n := 0 to cur
            invariant patches == Removals(n)
          {
            patches := patches + [Remove(0)];
          }
          provider.Reset();
          tools := map[];
        }
        ghost var cleared := Step(View(provider.used), patches);
        ghost var texts := Step(cleared.state, []);
        for n := 0 to |message.content|
          invariant View(provider.used) == texts.state && patches == cleared.patches + texts.patches
          invariant texts == UserTexts(cleared.state, provider.supply, message.content, n)
        {
          if message.content[n].TextItem? {
            var i := provider.Next();
            patches := patches + [Add(i, UserMessage(message.content[n].text))];
          }
          texts := UserTexts(cleared.state, provider.supply, message.content, n + 1);
        }
      }
      ghost var start := Step(View(provider.used), patches);
      for n := 0 to |message.content|
        invariant View(provider.used) == start.state
        invariant patches == start.patches + ToolResults(start.state, message.content, n)
      {
        var item := message.content[n];
        if item.ToolResult? && item.id in tools {
          var info := tools[item.id];
          if info.tool.class_ != Silent {
            patches := patches + [Replace(info.index, ResultEntry(info, item.content, item.isError))];
          }
        }
      }
    }

    method HandleStream(ev: StreamEvent, provider: IndexProvider) returns (patches: seq<Patch<Entry>>)
      modifies this, provider
      ensures Step(View(provider.used), patches) == OnStream(old(View(provider.used)), provider.supply, ev)
    {
      patches := [];
      match ev {
        case MessageStart(message) =>
          if message.role == "assistant" {
            patches := ExtractModelName(message, provider);
            if message.id.Some? {
              streaming := streaming[message.id.value := Streaming(message.role, map[])];
              current := message.id;
            } else {
              current := None;
            }
          } else {
            current := None;
          }
        case BlockStart(k, item) =>
          if current.Some? && current.value in streaming {
            var b := BlockFromItem(item);
            if b.Some? { StoreBlock(current.value, k, b.value); }
          }
        case BlockDelta(k, delta) =>
          if current.Some? && current.value in streaming {
            patches := ApplyDelta(current.value, k, delta, provider);
          }
        case MessageStop =>
          if current.Some? {
            streaming := streaming - {current.value};
            current := None;
          }
        case _ =>
      }
    }

    method StoreBlock(m: string, k: nat, b: Block)
      requires m in streaming
      modifies this`streaming
      ensures forall used: nat :: View(used) == SetBlock(old(View(used)), m, k, b)
    {
      streaming := streaming[m := streaming[m].(blocks := streaming[m].blocks[k := b])];
    }

    method ApplyDelta(m: string, k: nat, delta: Delta, provider: IndexProvider) returns (patches: seq<Patch<Entry>>)
      requires m in streaming
      modifies this`streaming, provider
      ensures Step(View(provider.used), patches) == OnDelta(old(View(provider.used)), provider.supply, m, k, delta)
    {
      patches := [];
      var found := if k in streaming[m].blocks then Some(streaming[m].blocks[k]) else BlockFromDelta(delta);
      if found.None? { return; }
      var b := found.value.(buffer := found.value.buffer + Matching(found.value.kind, delta));
      var e := ItemEntry(BlockItem(b), streaming[m].role);
      if e.Some? {
        if b.entryIndex.Some? {
          patches := [Replace(b.entryIndex.value, e.value)];
        } else {
          var i := provider.Next();
          b := b.(entryIndex := Some(i));
          patches := [Add(i, e.value)];
        }
      }
      StoreBlock(m, k, b);
    }
  }
}
