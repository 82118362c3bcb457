/** What the Claude log processor guarantees over every sequence of events. */
module ClaudeProperties {
  import opened Text
  import opened Conversation
  import opened Claude

  type ConversationBoard = Board<Entry>

  /** The position shown for block `k` of message `m`, if it is streaming and was shown. */
  ghost function LiveAt(s: State, m: string, k: nat): Option<nat> {
    if m in s.streaming then BlockIndex(s.streaming[m].blocks, k) else None
  }

  function Shown(b: Block): Entry {
    match b.kind
    case TextBlock => AssistantMessage(b.buffer)
    case ThinkingBlock => Thinking(b.buffer)
  }

  ghost predicate ToolsOk(s: State, b: ConversationBoard) {
    && (forall id :: id in s.tools ==>
          s.tools[id].index in b && b[s.tools[id].index].ToolEntry? && b[s.tools[id].index].tool == s.tools[id].tool)
    && forall id, id' :: id in s.tools && id' in s.tools && s.tools[id].index == s.tools[id'].index ==> id == id'
  }

  ghost predicate StreamsOk(s: State, b: ConversationBoard) {
    && (forall m :: m in s.streaming ==> s.streaming[m].role == "assistant")
    && (forall m, k :: LiveAt(s, m, k).Some? ==>
          LiveAt(s, m, k).value in b && b[LiveAt(s, m, k).value] == Shown(s.streaming[m].blocks[k]))
    && forall m, k, m', k' :: LiveAt(s, m, k).Some? && LiveAt(s, m, k) == LiveAt(s, m', k') ==> m == m' && k == k'
  }

  /** The board holds the positions drawn so far; tool indices are distinct and name tool entries; live
      block indices are distinct and name entries that show exactly what was streamed. */
  ghost predicate Inv(s: State, b: ConversationBoard, supply: Supply) {
    Holds(b, supply, s.used) && ToolsOk(s, b) && StreamsOk(s, b)
  }

  /** Nothing will come back to position `i`: no tool waits there and no block streams there. */
  ghost predicate Settled(s: State, i: nat) {
    && (forall id :: id in s.tools ==> s.tools[id].index != i)
    && forall m, k :: LiveAt(s, m, k) != Some(i)
  }

  ghost predicate KeepsSettled(s: State, b: ConversationBoard, s': State, b': ConversationBoard) {
    forall i :: i in b && Settled(s, i) ==> i in b' && b'[i] == b[i] && Settled(s', i)
  }

  /** A step from `s` and `b` that plays by the rules. */
  ghost predicate Good(s: State, b: ConversationBoard, supply: Supply, st: Step) {
    && Disciplined(b, st.patches)
    && s.used <= st.state.used && Added(st.patches) == Handed(supply, s.used, st.state.used)
    && Inv(st.state, Play(b, st.patches), supply)
    && KeepsSettled(s, b, st.state, Play(b, st.patches))
  }

  lemma GoodGives(s: State, b: ConversationBoard, supply: Supply, st: Step)
    requires Good(s, b, supply, st)
    ensures Disciplined(b, st.patches) && Inv(st.state, Play(b, st.patches), supply)
  {
  }

  lemma GoodThen(s: State, b: ConversationBoard, supply: Supply, st: Step, st': Step)
    requires Good(s, b, supply, st) && Disciplined(b, st.patches) && Good(st.state, Play(b, st.patches), supply, st')
    ensures Good(s, b, supply, Then(st, st'))
  {
    PlayAppend(b, st.patches, st'.patches);
    HandedAppend(supply, s.used, st.state.used, st'.state.used);
  }

  /** A step without patches that only lets go of positions. */
  lemma GoodQuiet(s: State, b: ConversationBoard, supply: Supply, s': State)
    requires Inv(s, b, supply) && s'.used == s.used && s'.tools == s.tools && StreamsOk(s', b)
    requires forall m, k :: LiveAt(s', m, k).Some? ==> LiveAt(s', m, k) == LiveAt(s, m, k)
    ensures Good(s, b, supply, Step(s', []))
  {
  }

  lemma GoodNothing(s: State, b: ConversationBoard, supply: Supply)
    requires Inv(s, b, supply)
    ensures Good(s, b, supply, Step(s, []))
  {
  }

  /** Adding an entry that nobody keeps track of. */
  lemma GoodAdd(s: State, b: ConversationBoard, supply: Supply, e: Entry)
    requires NeverRepeats(supply) && Inv(s, b, supply)
    ensures Good(s, b, supply, Put(s, supply, None, e))
  {
    hide Holds, NeverRepeats, Play, Disciplined, Added;
    HoldsNext(b, supply, s.used, e);
    PlayOne(b, Add(supply(s.used), e));
  }

  lemma {:induction false} GoodAddAll(s: State, b: ConversationBoard, supply: Supply, es: seq<Entry>, n: nat)
    requires NeverRepeats(supply) && Inv(s, b, supply) && n <= |es|
    ensures Good(s, b, supply, AddAll(s, supply, es, n))
  {
    if n == 0 {
      GoodNothing(s, b, supply);
    } else {
      GoodAddAll(s, b, supply, es, n - 1);
      var before := AddAll(s, supply, es, n - 1);
      GoodAdd(before.state, Play(b, before.patches), supply, es[n - 1]);
      GoodThen(s, b, supply, before, Put(before.state, supply, None, es[n - 1]));
    }
  }

  lemma GoodReport(s: State, b: ConversationBoard, supply: Supply, message: Message)
    requires NeverRepeats(supply) && Inv(s, b, supply)
    ensures Good(s, b, supply, ReportModel(s, supply, message))
  {
    if s.model.None? && message.model.Some? {
      var t := s.(model := message.model);
      assert forall m, k :: LiveAt(t, m, k) == LiveAt(s, m, k);
      GoodQuiet(s, b, supply, t);
      var put := ReportModel(s, supply, message);
      GoodAdd(t, b, supply, put.patches[0].entry);
      GoodThen(s, b, supply, Step(t, []), put);
      assert Then(Step(t, []), put) == put;
    } else {
      GoodNothing(s, b, supply);
    }
  }

  /** `s'` streams nothing that `s` did not, and nothing at position `i`. */
  ghost predicate LetsGo(s: State, s': State, i: nat) {
    && (forall m :: m in s'.streaming ==> s'.streaming[m].role == "assistant")
    && forall m, k :: LiveAt(s', m, k).Some? ==>
         && LiveAt(s', m, k) == LiveAt(s, m, k) != Some(i)
         && s'.streaming[m].blocks[k] == s.streaming[m].blocks[k]
  }

  /** One patch at a new position or at the position of a block that stops streaming there; a tool entry
      may be remembered under its id. */
  lemma GoodPatch(s: State, b: ConversationBoard, supply: Supply, s': State, p: Patch<Entry>, id: string,
                  info: ToolInfo)
    requires NeverRepeats(supply) && Inv(s, b, supply) && LetsGo(s, s', p.index)
    requires if p.Add? then p.index == supply(s.used) && s'.used == s.used + 1
             else p.Replace? && p.index in b && !b[p.index].ToolEntry? && !Settled(s, p.index) && s'.used == s.used
    requires s'.tools == s.tools
             || (p.entry.ToolEntry? && s'.tools == s.tools[id := info] && info == ToolInfo(p.index, p.entry.tool))
    ensures Good(s, b, supply, Step(s', [p]))
  {
    hide Holds, NeverRepeats, Play, Disciplined, Added;
    HoldsNext(b, supply, s.used, p.entry);
    PlayOne(b, p);
    HoldsPatch(b, supply, s.used, p);
    PatchKeeps(s, b, s', p, id, info);
  }

  lemma PatchKeeps(s: State, b: ConversationBoard, s': State, p: Patch<Entry>, id: string, info: ToolInfo)
    requires ToolsOk(s, b) && StreamsOk(s, b) && LetsGo(s, s', p.index) && !p.Remove?
    requires p.index in b ==> !b[p.index].ToolEntry? && !Settled(s, p.index)
    requires s'.tools == s.tools
             || (p.entry.ToolEntry? && s'.tools == s.tools[id := info] && info == ToolInfo(p.index, p.entry.tool))
    ensures ToolsOk(s', b[p.index := p.entry]) && StreamsOk(s', b[p.index := p.entry])
    ensures KeepsSettled(s, b, s', b[p.index := p.entry])
  {
    PatchKeepsTools(s, b, s', p, id, info);
    assert StreamsOk(s', b[p.index := p.entry]);
  }

  lemma PatchKeepsTools(s: State, b: ConversationBoard, s': State, p: Patch<Entry>, id: string, info: ToolInfo)
    requires ToolsOk(s, b) && !p.Remove? && (p.index in b ==> !b[p.index].ToolEntry?)
    requires s'.tools == s.tools
             || (p.entry.ToolEntry? && s'.tools == s.tools[id := info] && info == ToolInfo(p.index, p.entry.tool))
    ensures ToolsOk(s', b[p.index := p.entry])
  {
  }

  // ---------- The final message ----------

  /** While a final message is settled item by item, the blocks it still has to settle count as live. */
  ghost function Holding(s: State, id: Option<string>, blocks: map<nat, Block>, n: nat): State {
    if id.None? then s
    else s.(streaming := s.streaming[id.value := Streaming("assistant", map k | k in blocks && k >= n :: blocks[k])])
  }

  ghost predicate Detached(s: State, id: Option<string>, blocks: map<nat, Block>) {
    (id.Some? ==> id.value !in s.streaming) && (id.None? ==> blocks == map[])
  }

  lemma HoldingLive(s: State, id: Option<string>, blocks: map<nat, Block>, n: nat)
    requires Detached(s, id, blocks)
    ensures forall m, k: nat :: LiveAt(Holding(s, id, blocks, n), m, k)
                           == if Some(m) == id then (if k >= n then BlockIndex(blocks, k) else None)
                              else LiveAt(s, m, k)
  {
  }

  lemma HoldingLetsGo(s: State, b: ConversationBoard, id: Option<string>, blocks: map<nat, Block>,
                      n: nat, s': State, i: nat)
    requires Detached(s, id, blocks) && StreamsOk(Holding(s, id, blocks, n), b) && s'.streaming == s.streaming
    requires i !in b || BlockIndex(blocks, n) == Some(i)
    ensures LetsGo(Holding(s, id, blocks, n), Holding(s', id, blocks, n + 1), i)
  {
    var s0, s1 := Holding(s, id, blocks, n), Holding(s', id, blocks, n + 1);
    HoldingLive(s, id, blocks, n);
    HoldingLive(s', id, blocks, n + 1);
    assert forall m :: m in s1.streaming ==> m in s0.streaming && s1.streaming[m].role == s0.streaming[m].role;
    assert i in b ==> LiveAt(s0, id.value, n) == Some(i);
    forall m, k: nat | LiveAt(s1, m, k).Some?
      ensures LiveAt(s1, m, k) == LiveAt(s0, m, k) != Some(i)
      ensures s1.streaming[m].blocks[k] == s0.streaming[m].blocks[k]
    {
      HoldingBlock(s, id, blocks, n, m, k);
      HoldingBlock(s', id, blocks, n + 1, m, k);
      hide Holding;
    }
  }

  lemma HoldingBlock(s: State, id: Option<string>, blocks: map<nat, Block>, n: nat, m: string, k: nat)
    requires Detached(s, id, blocks) && LiveAt(Holding(s, id, blocks, n), m, k).Some?
    ensures (Some(m) == id ==> k in blocks) && (Some(m) != id ==> m in s.streaming && k in s.streaming[m].blocks)
    ensures Holding(s, id, blocks, n).streaming[m].blocks[k]
            == if Some(m) == id then blocks[k] else s.streaming[m].blocks[k]
  {
  }

  lemma GoodItem(s: State, b: ConversationBoard, supply: Supply, id: Option<string>, blocks: map<nat, Block>,
                 n: nat, role: string, item: Item)
    requires NeverRepeats(supply) && Detached(s, id, blocks) && Inv(Holding(s, id, blocks, n), b, supply)
    ensures var st := AssistantItem(s, supply, role, BlockIndex(blocks, n), item);
            && Detached(st.state, id, blocks)
            && Good(Holding(s, id, blocks, n), b, supply, HeldStep(st, id, blocks, n + 1))
  {
    var at := BlockIndex(blocks, n);
    var st := AssistantItem(s, supply, role, at, item);
    var s0, s1 := Holding(s, id, blocks, n), Holding(st.state, id, blocks, n + 1);
    if st.patches == [] {
      HoldingQuiet(s, b, supply, id, blocks, n);
    } else {
      var p := st.patches[0];
      assert st.patches == [p];
      HoldsNext(b, supply, s.used, p.entry);
      assert at.Some? ==> LiveAt(s0, id.value, n) == Some(p.index);
      HoldingLetsGo(s, b, id, blocks, n, st.state, p.index);
      var info := ToolInfo(p.index, if item.ToolUse? then item.tool else Tool("", Silent));
      GoodPatch(s0, b, supply, s1, p, if item.ToolUse? then item.id else "", info);
    }
  }

  lemma HoldingQuiet(s: State, b: ConversationBoard, supply: Supply, id: Option<string>, blocks: map<nat, Block>,
                     n: nat)
    requires NeverRepeats(supply) && Detached(s, id, blocks) && Inv(Holding(s, id, blocks, n), b, supply)
    ensures Good(Holding(s, id, blocks, n), b, supply, Step(Holding(s, id, blocks, n + 1), []))
  {
    HoldsNext(b, supply, s.used, SystemMessage(""));
    HoldingLetsGo(s, b, id, blocks, n, s, supply(s.used));
    GoodLetGo(Holding(s, id, blocks, n), b, supply, Holding(s, id, blocks, n + 1), supply(s.used));
  }

  lemma GoodLetGo(s: State, b: ConversationBoard, supply: Supply, s': State, i: nat)
    requires Inv(s, b, supply) && LetsGo(s, s', i) && s'.used == s.used && s'.tools == s.tools
    ensures Good(s, b, supply, Step(s', []))
  {
    GoodQuiet(s, b, supply, s');
  }

  /** The state while items are settled, with the blocks still held. */
  ghost function HeldStep(st: Step, id: Option<string>, blocks: map<nat, Block>, n: nat): Step {
    Step(Holding(st.state, id, blocks, n), st.patches)
  }

  lemma ItemsLast(s: State, supply: Supply, message: Message, id: Option<string>, blocks: map<nat, Block>, from: nat,
                  n: nat)
    requires from < n <= |message.content|
    ensures var st := AssistantItems(s, supply, message, blocks, from, n - 1);
            var st1 := AssistantItem(st.state, supply, message.role, BlockIndex(blocks, n - 1), message.content[n - 1]);
            && AssistantItems(s, supply, message, blocks, from, n).state == st1.state
            && HeldStep(AssistantItems(s, supply, message, blocks, from, n), id, blocks, n)
               == Then(HeldStep(st, id, blocks, n - 1), HeldStep(st1, id, blocks, n))
  {
  }

  lemma {:induction false} GoodItems(s: State, b: ConversationBoard, supply: Supply, id: Option<string>,
                                     message: Message, blocks: map<nat, Block>, from: nat, n: nat)
    requires NeverRepeats(supply) && Detached(s, id, blocks) && Inv(Holding(s, id, blocks, from), b, supply)
    requires from <= n <= |message.content|
    ensures var st := AssistantItems(s, supply, message, blocks, from, n);
            && Detached(st.state, id, blocks)
            && Good(Holding(s, id, blocks, from), b, supply, HeldStep(st, id, blocks, n))
  {
    var s0 := Holding(s, id, blocks, from);
    hide Good, Inv, AssistantItem, Holding, Detached;
    if n == from {
      GoodNothing(s0, b, supply);
    } else {
      ItemsLast(s, supply, message, id, blocks, from, n);
      GoodItems(s, b, supply, id, message, blocks, from, n - 1);
      var st := AssistantItems(s, supply, message, blocks, from, n - 1);
      GoodGives(s0, b, supply, HeldStep(st, id, blocks, n - 1));
      var at, item := BlockIndex(blocks, n - 1), message.content[n - 1];
      GoodItem(st.state, Play(b, st.patches), supply, id, blocks, n - 1, message.role, item);
      var st1 := AssistantItem(st.state, supply, message.role, at, item);
      GoodThen(s0, b, supply, HeldStep(st, id, blocks, n - 1), HeldStep(st1, id, blocks, n));
    }
  }

  /** The message whose blocks are held, if it was streaming. */
  ghost function HeldId(s: State, message: Message): Option<string> {
    if message.id.Some? && message.id.value in s.streaming then message.id else None
  }

  lemma HoldingAtStart(s: State, b: ConversationBoard, supply: Supply, message: Message)
    requires Inv(s, b, supply)
    ensures var blocks, id := StreamedBlocks(s, message), HeldId(s, message);
            Detached(Forget(s, message.id), id, blocks) && Holding(Forget(s, message.id), id, blocks, 0) == s
  {
    var blocks := StreamedBlocks(s, message);
    if HeldId(s, message).Some? {
      var held := Holding(Forget(s, message.id), message.id, blocks, 0);
      assert held.streaming[message.id.value].blocks == blocks;
      assert s.streaming[message.id.value] == Streaming("assistant", blocks);
      assert held.streaming == s.streaming;
    } else if message.id.Some? {
      assert s.streaming - {message.id.value} == s.streaming;
    }
  }

  lemma GoodAssistant(s: State, b: ConversationBoard, supply: Supply, message: Message)
    requires NeverRepeats(supply) && Inv(s, b, supply)
    ensures Good(s, b, supply, OnAssistant(s, supply, message))
  {
    GoodReport(s, b, supply, message);
    var report := ReportModel(s, supply, message);
    var s1, b1 := report.state, Play(b, report.patches);
    var blocks, id, n := StreamedBlocks(s1, message), HeldId(s1, message), |message.content|;
    var s2 := Forget(s1, message.id);
    HoldingAtStart(s1, b1, supply, message);
    GoodItems(s2, b1, supply, id, message, blocks, 0, n);
    var items := AssistantItems(s2, supply, message, blocks, 0, n);
    var held := HeldStep(items, id, blocks, n);
    ReleaseHeld(items.state, Play(b1, items.patches), supply, id, blocks, n);
    GoodThen(s1, b1, supply, held, Step(items.state, []));
    assert Then(held, Step(items.state, [])) == items;
    GoodThen(s, b, supply, report, items);
  }

  lemma ReleaseHeld(s: State, b: ConversationBoard, supply: Supply, id: Option<string>, blocks: map<nat, Block>, n: nat)
    requires Detached(s, id, blocks) && Inv(Holding(s, id, blocks, n), b, supply)
    ensures Good(Holding(s, id, blocks, n), b, supply, Step(s, []))
  {
    var s0 := Holding(s, id, blocks, n);
    HoldingLive(s, id, blocks, n);
    assert forall m :: m in s.streaming ==> m in s0.streaming && s.streaming[m] == s0.streaming[m];
    assert StreamsOk(s, b);
    GoodQuiet(s0, b, supply, s);
  }

  // ---------- Tool results ----------

  lemma GoodResult(s: State, b: ConversationBoard, supply: Supply, item: Item)
    requires Inv(s, b, supply)
    ensures Good(s, b, supply, Step(s, ResultPatch(s, item)))
  {
    if ResultPatch(s, item) == [] {
      GoodNothing(s, b, supply);
    } else {
      var p := ResultPatch(s, item)[0];
      PlayOne(b, p);
      var b' := b[p.index := p.entry];
      assert b'.Keys == b.Keys;
      assert StreamsOk(s, b');
    }
  }

  lemma {:induction false} GoodResults(s: State, b: ConversationBoard, supply: Supply, items: seq<Item>, n: nat)
    requires Inv(s, b, supply) && n <= |items|
    ensures Good(s, b, supply, Step(s, ToolResults(s, items, n)))
  {
    if n == 0 {
      GoodNothing(s, b, supply);
    } else {
      GoodResults(s, b, supply, items, n - 1);
      var before := Step(s, ToolResults(s, items, n - 1));
      GoodResult(s, Play(b, before.patches), supply, items[n - 1]);
      GoodThen(s, b, supply, before, Step(s, ResultPatch(s, items[n - 1])));
    }
  }

  // ---------- Streaming ----------

  lemma SetBlockLive(s: State, m: string, k: nat, x: Block)
    requires m in s.streaming
    ensures forall m', k': nat :: LiveAt(SetBlock(s, m, k, x), m', k')
                             == if m' == m && k' == k then x.entryIndex else LiveAt(s, m', k')
  {
  }

  /** Showing a block: at its own position, or at a new one. */
  lemma GoodShow(s: State, b: ConversationBoard, supply: Supply, s': State, m: string, k: nat, x: Block,
                 p: Patch<Entry>)
    requires NeverRepeats(supply) && Inv(s, b, supply) && m in s.streaming
    requires x.entryIndex == Some(p.index) && s' == SetBlock(s, m, k, x).(used := s'.used)
    requires (p == Add(supply(s.used), Shown(x)) && s'.used == s.used + 1)
          || (p == Replace(p.index, Shown(x)) && LiveAt(s, m, k) == Some(p.index) && s'.used == s.used)
    ensures Good(s, b, supply, Step(s', [p]))
  {
    hide Holds, NeverRepeats, Play, Disciplined, Added;
    HoldsNext(b, supply, s.used, p.entry);
    PlayOne(b, p);
    HoldsPatch(b, supply, s.used, p);
    ShowKeepsStreams(s, b, s', m, k, x, p.index);
    ShowKeepsRest(s, b, s', m, k, x, p.index);
    hide StreamsOk, ToolsOk, KeepsSettled;
  }

  lemma ShowKeepsRest(s: State, b: ConversationBoard, s': State, m: string, k: nat, x: Block, i: nat)
    requires StreamsOk(s, b) && ToolsOk(s, b) && m in s.streaming
    requires x.entryIndex == Some(i) && s' == SetBlock(s, m, k, x).(used := s'.used)
    requires i !in b || LiveAt(s, m, k) == Some(i)
    ensures ToolsOk(s', b[i := Shown(x)]) && KeepsSettled(s, b, s', b[i := Shown(x)])
  {
    SetBlockLive(s, m, k, x);
    assert forall m', k': nat :: LiveAt(s', m', k') == if m' == m && k' == k then Some(i) else LiveAt(s, m', k');
    assert i in b ==> !b[i].ToolEntry?;
  }

  lemma ShowKeepsStreams(s: State, b: ConversationBoard, s': State, m: string, k: nat, x: Block, i: nat)
    requires StreamsOk(s, b) && m in s.streaming
    requires x.entryIndex == Some(i) && s' == SetBlock(s, m, k, x).(used := s'.used)
    requires i !in b || LiveAt(s, m, k) == Some(i)
    ensures StreamsOk(s', b[i := Shown(x)])
  {
    SetBlockLive(s, m, k, x);
    assert forall m', k': nat :: LiveAt(s', m', k') == if m' == m && k' == k then Some(i) else LiveAt(s, m', k');
    assert forall m', k': nat :: LiveAt(s, m', k') == Some(i) ==> m' == m && k' == k;
    assert forall m' :: m' in s'.streaming ==> m' in s.streaming && s'.streaming[m'].role == s.streaming[m'].role;
    forall m', k': nat | LiveAt(s', m', k').Some? && !(m' == m && k' == k)
      ensures s'.streaming[m'].blocks[k'] == s.streaming[m'].blocks[k']
    {
    }
  }

  lemma GoodDelta(s: State, b: ConversationBoard, supply: Supply, m: string, k: nat, delta: Delta)
    requires NeverRepeats(supply) && Inv(s, b, supply) && m in s.streaming
    ensures Good(s, b, supply, OnDelta(s, supply, m, k, delta))
  {
    var st := OnDelta(s, supply, m, k, delta);
    if st.patches == [] {
      GoodNothing(s, b, supply);
    } else {
      assert st.patches == [st.patches[0]];
      GoodShow(s, b, supply, st.state, m, k, st.state.streaming[m].blocks[k], st.patches[0]);
    }
  }

  lemma GoodStart(s: State, b: ConversationBoard, supply: Supply, message: Message)
    requires NeverRepeats(supply) && Inv(s, b, supply)
    ensures Good(s, b, supply, OnStream(s, supply, MessageStart(message)))
  {
    hide Good, Inv, ReportModel;
    if message.role == "assistant" {
      GoodReport(s, b, supply, message);
      StartAfter(s, b, supply, ReportModel(s, supply, message),
                 StartMessage(ReportModel(s, supply, message).state, message));
    } else {
      GoodNothing(s, b, supply);
      StartAfter(s, b, supply, Step(s, []), s.(current := None));
    }
  }

  /** A step, and then messages may start afresh. */
  lemma StartAfter(s: State, b: ConversationBoard, supply: Supply, st: Step, t: State)
    requires Good(s, b, supply, st) && t.used == st.state.used && t.tools == st.state.tools
    requires forall m :: m in t.streaming ==>
               t.streaming[m] == Streaming("assistant", map[])
               || (m in st.state.streaming && t.streaming[m] == st.state.streaming[m])
    ensures Good(s, b, supply, st.(state := t))
  {
    hide Good, Inv;
    GoodGives(s, b, supply, st);
    GoodLess(st.state, Play(b, st.patches), supply, t);
    GoodThen(s, b, supply, st, Step(t, []));
    assert Then(st, Step(t, [])) == st.(state := t);
  }

  /** Messages may be dropped or start afresh; the others stream on. */
  lemma GoodLess(s: State, b: ConversationBoard, supply: Supply, s': State)
    requires Inv(s, b, supply) && s'.used == s.used && s'.tools == s.tools
    requires forall m :: m in s'.streaming ==>
               s'.streaming[m] == Streaming("assistant", map[])
               || (m in s.streaming && s'.streaming[m] == s.streaming[m])
    ensures Good(s, b, supply, Step(s', []))
  {
    assert forall m, k: nat :: LiveAt(s', m, k).Some? ==>
             LiveAt(s', m, k) == LiveAt(s, m, k) && s'.streaming[m] == s.streaming[m];
    GoodQuiet(s, b, supply, s');
  }

  lemma GoodBlockStart(s: State, b: ConversationBoard, supply: Supply, m: string, k: nat, x: Block)
    requires Inv(s, b, supply) && m in s.streaming && x.entryIndex.None?
    ensures Good(s, b, supply, Step(SetBlock(s, m, k, x), []))
  {
    var s' := SetBlock(s, m, k, x);
    SetBlockLive(s, m, k, x);
    assert forall m' :: m' in s'.streaming ==> m' in s.streaming && s'.streaming[m'].role == s.streaming[m'].role;
    assert forall m', k': nat :: LiveAt(s', m', k').Some? ==> s'.streaming[m'].blocks[k'] == s.streaming[m'].blocks[k'];
    GoodQuiet(s, b, supply, s');
  }

  lemma GoodStream(s: State, b: ConversationBoard, supply: Supply, ev: StreamEvent)
    requires NeverRepeats(supply) && Inv(s, b, supply)
    ensures Good(s, b, supply, OnStream(s, supply, ev))
  {
    match ev
    case MessageStart(message) => GoodStart(s, b, supply, message);
    case BlockStart(k, item) =>
      if s.current.Some? && s.current.value in s.streaming && BlockFromItem(item).Some? {
        GoodBlockStart(s, b, supply, s.current.value, k, BlockFromItem(item).value);
      } else {
        GoodNothing(s, b, supply);
      }
    case BlockDelta(k, delta) =>
      if s.current.Some? && s.current.value in s.streaming {
        GoodDelta(s, b, supply, s.current.value, k, delta);
      } else {
        GoodNothing(s, b, supply);
      }
    case MessageStop => GoodLess(s, b, supply, OnStream(s, supply, ev).state);
    case _ => GoodNothing(s, b, supply);
  }

  /** Every event: under the default strategy, and under the Amp strategy unless it restarts. */
  lemma GoodEvent(strategy: Strategy, s: State, b: ConversationBoard, supply: Supply, ev: Event)
    requires NeverRepeats(supply) && Inv(s, b, supply)
    requires strategy == Default || !(ev.User? && HasText(ev.message.content))
    ensures Good(s, b, supply, Normalize(strategy, s, supply, ev))
  {
    match ev
    case Assistant(message) => GoodAssistant(s, b, supply, message);
    case User(message) =>
      GoodResults(s, b, supply, message.content, |message.content|);
      assert Normalize(strategy, s, supply, ev) == Step(s, ToolResults(s, message.content, |message.content|));
    case Stream(event) => GoodStream(s, b, supply, event);
    case _ =>
      var es := PlainEntries(strategy, ev);
      GoodAddAll(s, b, supply, es, |es|);
  }

  // ---------- Whole runs, default strategy ----------

  function Run(strategy: Strategy, s: State, supply: Supply, evs: seq<Event>): Step
    decreases |evs|
  {
    if evs == [] then Step(s, [])
    else
      var first := Normalize(strategy, s, supply, evs[0]);
      Then(first, Run(strategy, first.state, supply, evs[1..]))
  }

  /** Over every run, whoever else draws positions from the same provider: each position drawn is added
      exactly once and only own positions are replaced; tools and live blocks keep distinct positions of
      their own kind; a live entry shows exactly what was streamed; and a settled entry never changes. */
  lemma {:induction false} RunIsGood(s: State, b: ConversationBoard, supply: Supply, evs: seq<Event>)
    requires NeverRepeats(supply) && Inv(s, b, supply)
    ensures Good(s, b, supply, Run(Default, s, supply, evs))
    decreases |evs|
  {
    if evs == [] {
      GoodNothing(s, b, supply);
    } else {
      GoodEvent(Default, s, b, supply, evs[0]);
      var first := Normalize(Default, s, supply, evs[0]);
      RunIsGood(first.state, Play(b, first.patches), supply, evs[1..]);
      GoodThen(s, b, supply, first, Run(Default, first.state, supply, evs[1..]));
    }
  }

  /** With a provider of its own, the processor's patches apply to the conversation array one after the
      other, every add at its current end, and the provider counts its entries. */
  lemma RunBuildsArray(evs: seq<Event>)
    ensures var st := Run(Default, INIT, Own, evs);
            && FitsAll([], st.patches)
            && |ApplyAll([], st.patches)| == st.state.used
            && Disciplined(map[], st.patches) && Mirrors(Play(map[], st.patches), ApplyAll([], st.patches))
            && Inv(st.state, Play(map[], st.patches), Own)
  {
    InitInv(Own);
    RunIsGood(INIT, map[], Own, evs);
    MirrorsPlay(map[], [], Run(Default, INIT, Own, evs).patches);
  }

  lemma InitInv(supply: Supply)
    ensures Inv(INIT, map[], supply)
  {
  }

  predicate Answers(s: State, item: Item) {
    item.ToolResult? && item.id in s.tools && s.tools[item.id].tool.class_ != Silent
  }

  /** The last result for a tool use is what its entry shows: the tool, the content, and whether it failed. */
  lemma {:induction false} LastResultIsShown(s: State, b: ConversationBoard, supply: Supply, items: seq<Item>, n: nat,
                                             i: nat)
    requires Inv(s, b, supply) && i < n <= |items| && Answers(s, items[i])
    requires forall j :: i < j < n && Answers(s, items[j]) ==> items[j].id != items[i].id
    ensures var ps, info := ToolResults(s, items, n), s.tools[items[i].id];
            && Disciplined(b, ps) && info.index in Play(b, ps)
            && Play(b, ps)[info.index]
               == ToolEntry(info.tool, if items[i].isError == Some(true) then Failed else Success,
                            Some(items[i].content))
  {
    hide Holds, StreamsOk, KeepsSettled, Play, Disciplined, Handed, Added;
    var before, last := ToolResults(s, items, n - 1), ResultPatch(s, items[n - 1]);
    GoodResults(s, b, supply, items, n - 1);
    if i < n - 1 {
      LastResultIsShown(s, b, supply, items, n - 1, i);
    }
    if last == [] {
      assert before + last == before;
    } else {
      var b1, p := Play(b, before), last[0];
      assert last == [p] && p.index in b1;
      PlayOne(b1, p);
      PlayAppend(b, before, last);
    }
  }

  /** A tool result only ever replaces an entry that a use of the same tool produced, by an entry of that tool. */
  lemma {:induction false} ResultsReplaceTools(s: State, b: ConversationBoard, supply: Supply, items: seq<Item>, n: nat,
                                               j: nat)
    requires Inv(s, b, supply) && n <= |items| && j < |ToolResults(s, items, n)|
    ensures var p := ToolResults(s, items, n)[j];
            p.Replace? && p.entry.ToolEntry? && p.index in b && b[p.index].ToolEntry? && p.entry.tool == b[p.index].tool
  {
    if j < |ToolResults(s, items, n - 1)| {
      ResultsReplaceTools(s, b, supply, items, n - 1, j);
    }
  }

  // ---------- What leaves the streams alone ----------

  lemma {:induction false} ItemsKeepStreams(s: State, supply: Supply, message: Message, blocks: map<nat, Block>, n: nat)
    requires n <= |message.content|
    ensures var t := AssistantItems(s, supply, message, blocks, 0, n).state;
            t.streaming == s.streaming && t.current == s.current
  {
    if n > 0 {
      ItemsKeepStreams(s, supply, message, blocks, n - 1);
    }
  }

  lemma {:induction false} AddAllKeepsStreams(s: State, supply: Supply, es: seq<Entry>, n: nat)
    requires n <= |es|
    ensures var t := AddAll(s, supply, es, n).state;
            t.streaming == s.streaming && t.current == s.current
  {
    if n > 0 {
      AddAllKeepsStreams(s, supply, es, n - 1);
    }
  }
}
