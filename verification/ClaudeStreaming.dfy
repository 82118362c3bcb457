/** The life of a streamed block, from the first event that mentions it to the final message and beyond. What
    the block holds is defined from the events alone; the processor is proved to follow. */
module ClaudeStreaming {
  import opened Text
  import opened Conversation
  import opened Claude
  import opened ClaudeProperties

  // ---------- The events as reference ----------

  /** What a block has gathered, and whether it has been shown. */
  datatype Gathering = Gathering(kind: BlockKind, text: string, shown: bool)

  /** The message that stream events are about after an event. */
  function CurrentAfter(cur: Option<string>, ev: Event): Option<string> {
    match ev
    case Stream(MessageStart(message)) => if message.role == "assistant" then message.id else None
    case Stream(MessageStop) => None
    case _ => cur
  }

  predicate IsDelta(ev: Event, k: nat) {
    ev.Stream? && ev.event.BlockDelta? && ev.event.index == k
  }

  predicate IsStart(ev: Event, k: nat) {
    && ev.Stream? && ev.event.BlockStart? && ev.event.index == k
    && (ev.event.block.TextItem? || ev.event.block.ThinkingItem?)
  }

  /** What a block starts with. */
  function StartOf(item: Item): Gathering
    requires item.TextItem? || item.ThinkingItem?
  {
    match item
    case TextItem(t) => Gathering(TextBlock, t, false)
    case ThinkingItem(t) => Gathering(ThinkingBlock, t, false)
  }

  /** What a delta adds: text to a text block, thinking to a thinking block, and nothing else to either. */
  function AddedText(kind: BlockKind, delta: Delta): string {
    match delta
    case TextDelta(t) => if kind == TextBlock then t else ""
    case ThinkingDelta(t) => if kind == ThinkingBlock then t else ""
    case OtherDelta => ""
  }

  function FirstOf(delta: Delta): Option<Gathering> {
    match delta
    case TextDelta(_) => Some(Gathering(TextBlock, "", false))
    case ThinkingDelta(_) => Some(Gathering(ThinkingBlock, "", false))
    case OtherDelta => None
  }

  /** Block `k` after an event that is about its message: a start sets it, a delta makes or extends it. */
  function Gather(g: Option<Gathering>, ev: Event, k: nat): Option<Gathering> {
    if IsStart(ev, k) then
      Some(StartOf(ev.event.block))
    else if IsDelta(ev, k) then
      var g0 := if g.Some? then g else FirstOf(ev.event.delta);
      if g0.None? then None
      else Some(Gathering(g0.value.kind, g0.value.text + AddedText(g0.value.kind, ev.event.delta), true))
    else g
  }

  /** Block `k` of message `m` after events that start with message `cur` current. */
  function GatherAll(g: Option<Gathering>, cur: Option<string>, evs: seq<Event>, m: string, k: nat): Option<Gathering>
    decreases |evs|
  {
    if evs == [] then g
    else GatherAll(if cur == Some(m) then Gather(g, evs[0], k) else g, CurrentAfter(cur, evs[0]), evs[1..], m, k)
  }

  /** The event does not start `m` again, end it, finalise it, or start its block `k` again once it was shown. */
  predicate Undisturbed(g: Option<Gathering>, cur: Option<string>, ev: Event, m: string, k: nat) {
    match ev
    case Assistant(message) => message.id != Some(m)
    case Stream(MessageStart(message)) => message.role != "assistant" || message.id != Some(m)
    case Stream(MessageStop) => cur != Some(m)
    case Stream(BlockStart(_, _)) => !(cur == Some(m) && IsStart(ev, k) && g.Some? && g.value.shown)
    case _ => true
  }

  predicate AllUndisturbed(g: Option<Gathering>, cur: Option<string>, evs: seq<Event>, m: string, k: nat)
    decreases |evs|
  {
    evs == [] || (Undisturbed(g, cur, evs[0], m, k)
                  && AllUndisturbed(if cur == Some(m) then Gather(g, evs[0], k) else g, CurrentAfter(cur, evs[0]),
                                    evs[1..], m, k))
  }

  /** The processor holds of block `k` of `m` what was gathered, and a position once it was shown. */
  ghost predicate Follows(s: State, m: string, k: nat, g: Option<Gathering>) {
    && m in s.streaming && s.streaming[m].role == "assistant"
    && (k in s.streaming[m].blocks <==> g.Some?)
    && (g.Some? ==>
          var x := s.streaming[m].blocks[k];
          x.kind == g.value.kind && x.buffer == g.value.text && (x.entryIndex.Some? <==> g.value.shown))
  }

  /** The events for block `k` while `m` is current make the patches of the block. */
  predicate IsOwn(cur: Option<string>, ev: Event, m: string, k: nat) {
    cur == Some(m) && IsDelta(ev, k)
  }

  ghost function NextStep(s: State, supply: Supply, ev: Event): Step {
    Normalize(Default, s, supply, ev)
  }

  ghost function OwnPatches(s: State, supply: Supply, evs: seq<Event>, m: string, k: nat): seq<Patch<Entry>>
    decreases |evs|
  {
    if evs == [] then []
    else
      var st := NextStep(s, supply, evs[0]);
      (if IsOwn(s.current, evs[0], m, k) then st.patches else []) + OwnPatches(st.state, supply, evs[1..], m, k)
  }

  // ---------- One event ----------

  /** The block is as it was, and the event was none of its own. */
  ghost predicate SameBlock(s: State, t: State, m: string, k: nat) {
    && m in s.streaming && m in t.streaming && t.streaming[m].role == s.streaming[m].role
    && (k in t.streaming[m].blocks <==> k in s.streaming[m].blocks)
    && (k in s.streaming[m].blocks ==> t.streaming[m].blocks[k] == s.streaming[m].blocks[k])
  }

  lemma OtherEvent(s: State, supply: Supply, ev: Event, m: string, k: nat, g: Option<Gathering>)
    requires Follows(s, m, k, g) && Undisturbed(g, s.current, ev, m, k)
    requires !(s.current == Some(m) && (IsStart(ev, k) || IsDelta(ev, k)))
    ensures var st := NextStep(s, supply, ev);
            SameBlock(s, st.state, m, k) && st.state.current == CurrentAfter(s.current, ev)
  {
    match ev
    case Assistant(message) => AssistantKeeps(s, supply, message, m, k);
    case Stream(event) => OtherStreamKeeps(s, supply, event, m, k, g);
    case User(_) =>
    case _ =>
      var es := PlainEntries(Default, ev);
      AddAllKeepsStreams(s, supply, es, |es|);
    hide OnAssistant, OnStream, AddAll, PlainEntries;
  }

  lemma AssistantKeeps(s: State, supply: Supply, message: Message, m: string, k: nat)
    requires m in s.streaming && message.id != Some(m)
    ensures var t := OnAssistant(s, supply, message).state; SameBlock(s, t, m, k) && t.current == s.current
  {
    var report := ReportModel(s, supply, message);
    ItemsKeepStreams(Forget(report.state, message.id), supply, message, StreamedBlocks(report.state, message),
                     |message.content|);
    hide AssistantItems;
  }

  lemma OtherStreamKeeps(s: State, supply: Supply, event: StreamEvent, m: string, k: nat, g: Option<Gathering>)
    requires Follows(s, m, k, g) && Undisturbed(g, s.current, Stream(event), m, k)
    requires !(s.current == Some(m) && (IsStart(Stream(event), k) || IsDelta(Stream(event), k)))
    ensures var t := OnStream(s, supply, event).state;
            SameBlock(s, t, m, k) && t.current == CurrentAfter(s.current, Stream(event))
  {
    if event.BlockDelta? { OtherDeltaKeeps(s, supply, event.index, event.delta, m, k); }
    hide OnDelta;
  }

  lemma OtherDeltaKeeps(s: State, supply: Supply, k': nat, delta: Delta, m: string, k: nat)
    requires m in s.streaming && !(s.current == Some(m) && k' == k)
    ensures var t := OnStream(s, supply, BlockDelta(k', delta)).state; SameBlock(s, t, m, k) && t.current == s.current
  {
  }

  lemma StartEvent(s: State, supply: Supply, ev: Event, m: string, k: nat, g: Option<Gathering>)
    requires Follows(s, m, k, g) && s.current == Some(m) && IsStart(ev, k)
    ensures var t := NextStep(s, supply, ev).state;
            Follows(t, m, k, Gather(g, ev, k)) && t.current == s.current && LiveAt(t, m, k).None?
  {
  }

  /** The patch a delta makes: at the block's position, or at the next one. */
  ghost predicate DeltaPatch(s: State, supply: Supply, st: Step, m: string, k: nat) {
    if LiveAt(st.state, m, k).None? then LiveAt(s, m, k).None? && st.patches == []
    else
      var i := LiveAt(st.state, m, k).value;
      && |st.patches| == 1 && st.patches[0].index == i
      && (if LiveAt(s, m, k).Some? then LiveAt(s, m, k) == Some(i) && st.patches[0].Replace?
          else i == supply(s.used) && st.patches[0].Add?)
  }

  lemma DeltaEvent(s: State, supply: Supply, ev: Event, m: string, k: nat, g: Option<Gathering>)
    requires Follows(s, m, k, g) && IsOwn(s.current, ev, m, k)
    ensures var st := NextStep(s, supply, ev);
            && Follows(st.state, m, k, Gather(g, ev, k)) && st.state.current == s.current
            && DeltaPatch(s, supply, st, m, k)
  {
    var delta := ev.event.delta;
    assert NextStep(s, supply, ev) == OnDelta(s, supply, m, k, delta);
    hide Normalize;
  }

  // ---------- Runs ----------

  /** What one event does to the block, whichever event it is. */
  ghost predicate BlockStep(s: State, supply: Supply, ev: Event, m: string, k: nat, g: Option<Gathering>) {
    var st := NextStep(s, supply, ev);
    && Follows(st.state, m, k, if s.current == Some(m) then Gather(g, ev, k) else g)
    && st.state.current == CurrentAfter(s.current, ev)
    && (if IsOwn(s.current, ev, m, k) then DeltaPatch(s, supply, st, m, k)
        else LiveAt(st.state, m, k) == LiveAt(s, m, k))
  }

  lemma AnyEvent(s: State, supply: Supply, ev: Event, m: string, k: nat, g: Option<Gathering>)
    requires Follows(s, m, k, g) && Undisturbed(g, s.current, ev, m, k)
    ensures BlockStep(s, supply, ev, m, k, g)
  {
    if IsOwn(s.current, ev, m, k) {
      DeltaEvent(s, supply, ev, m, k, g);
    } else if s.current == Some(m) && IsStart(ev, k) {
      StartEvent(s, supply, ev, m, k, g);
    } else {
      OtherEvent(s, supply, ev, m, k, g);
    }
    hide NextStep;
  }

  /** As long as nothing disturbs it, the processor holds exactly what the events say: the text the block was
      started with, or its first delta, followed by every matching delta while its message is current. */
  lemma {:induction false} BlockGathers(s: State, supply: Supply, evs: seq<Event>, m: string, k: nat,
                                        g: Option<Gathering>)
    requires Follows(s, m, k, g) && AllUndisturbed(g, s.current, evs, m, k)
    ensures Follows(Run(Default, s, supply, evs).state, m, k, GatherAll(g, s.current, evs, m, k))
    decreases |evs|
  {
    if evs != [] {
      AnyEvent(s, supply, evs[0], m, k, g);
      hide Normalize, Follows, Gather, Undisturbed;
      BlockGathers(NextStep(s, supply, evs[0]).state, supply, evs[1..], m, k,
                   if s.current == Some(m) then Gather(g, evs[0], k) else g);
    }
  }

  lemma FirstPatches(s: State, supply: Supply, ev: Event, m: string, k: nat, g: Option<Gathering>)
    requires BlockStep(s, supply, ev, m, k, g) && Follows(s, m, k, g)
    ensures var st := NextStep(s, supply, ev);
            OnePosition(LiveAt(s, m, k), LiveAt(st.state, m, k), if IsOwn(s.current, ev, m, k) then st.patches else [])
  {
    var st := NextStep(s, supply, ev);
    hide NextStep;
    if |st.patches| == 1 {
      assert st.patches == [st.patches[0]];
      AddedOne(st.patches[0]);
    }
  }

  /** However the events interleave, the deltas of a block make one add, at the position it keeps, and otherwise
      replace there. */
  lemma {:induction false} BlockAddsOnce(s: State, supply: Supply, evs: seq<Event>, m: string, k: nat,
                                         g: Option<Gathering>)
    requires Follows(s, m, k, g) && AllUndisturbed(g, s.current, evs, m, k)
    ensures OnePosition(LiveAt(s, m, k), LiveAt(Run(Default, s, supply, evs).state, m, k),
                        OwnPatches(s, supply, evs, m, k))
    decreases |evs|
  {
    if evs != [] {
      AnyEvent(s, supply, evs[0], m, k, g);
      FirstPatches(s, supply, evs[0], m, k, g);
      hide Normalize, Follows, Gather, Undisturbed, OnePosition, LiveAt;
      var t, g' := NextStep(s, supply, evs[0]).state, if s.current == Some(m) then Gather(g, evs[0], k) else g;
      BlockAddsOnce(t, supply, evs[1..], m, k, g');
      OneMorePatch(LiveAt(s, m, k), LiveAt(t, m, k), LiveAt(Run(Default, t, supply, evs[1..]).state, m, k),
                   if IsOwn(s.current, evs[0], m, k) then NextStep(s, supply, evs[0]).patches else [],
                   OwnPatches(t, supply, evs[1..], m, k));
    }
  }

  lemma EventGives(s: State, b: ConversationBoard, supply: Supply, ev: Event)
    requires NeverRepeats(supply) && Inv(s, b, supply)
    ensures var first := NextStep(s, supply, ev);
            && Disciplined(b, first.patches) && Inv(first.state, Play(b, first.patches), supply)
            && b.Keys <= Play(b, first.patches).Keys && supply(s.used) !in b
  {
    GoodEvent(Default, s, b, supply, ev);
    PlayGrows(b, Normalize(Default, s, supply, ev).patches);
    HoldsNext(b, supply, s.used, SystemMessage(""));
  }

  /** The position a block gets was free until then. */
  lemma {:induction false} BlockAppears(s: State, b: ConversationBoard, supply: Supply, evs: seq<Event>, m: string,
                                        k: nat, g: Option<Gathering>)
    requires NeverRepeats(supply) && Inv(s, b, supply) && Follows(s, m, k, g) && AllUndisturbed(g, s.current, evs, m, k)
    requires LiveAt(s, m, k).None?
    ensures var at := LiveAt(Run(Default, s, supply, evs).state, m, k); at.Some? ==> at.value !in b
    decreases |evs|
  {
    if evs != [] {
      var st := NextStep(s, supply, evs[0]);
      var g' := if s.current == Some(m) then Gather(g, evs[0], k) else g;
      EventGives(s, b, supply, evs[0]);
      AnyEvent(s, supply, evs[0], m, k, g);
      hide Normalize, Inv, Gather, Undisturbed, Disciplined, Play;
      if LiveAt(st.state, m, k).Some? {
        BlockAddsOnce(st.state, supply, evs[1..], m, k, g');
      } else {
        BlockAppears(st.state, Play(b, st.patches), supply, evs[1..], m, k, g');
      }
    }
  }

  /** A message that starts has mentioned no block. */
  lemma MessageBegins(s: State, supply: Supply, message: Message, m: string, k: nat)
    requires message.role == "assistant" && message.id == Some(m)
    ensures var t := OnStream(s, supply, MessageStart(message)).state; Follows(t, m, k, None) && t.current == Some(m)
  {
  }

  // ---------- The final message settles its blocks ----------

  ghost predicate SettledAs(b: ConversationBoard, s: State, i: nat, e: Entry) {
    i in b && b[i] == e && Settled(s, i)
  }

  lemma {:induction false} ItemsSplit(s: State, supply: Supply, message: Message, blocks: map<nat, Block>, mid: nat,
                                      n: nat)
    requires mid <= n <= |message.content|
    ensures var first := AssistantItems(s, supply, message, blocks, 0, mid);
            AssistantItems(s, supply, message, blocks, 0, n)
            == Then(first, AssistantItems(first.state, supply, message, blocks, mid, n))
  {
    hide AssistantItem;
    if mid < n {
      ItemsSplit(s, supply, message, blocks, mid, n - 1);
    }
  }

  /** The patch that item `k` of a final message makes. */
  ghost function ItemPatch(s: State, supply: Supply, message: Message, blocks: map<nat, Block>, k: nat): Patch<Entry>
    requires k < |message.content| && ItemEntry(message.content[k], message.role).Some?
  {
    var e, at := ItemEntry(message.content[k], message.role).value, BlockIndex(blocks, k);
    if at.Some? then Replace(at.value, e) else Add(supply(s.used), e)
  }

  lemma ItemSettles(s: State, b: ConversationBoard, supply: Supply, id: Option<string>,
                    message: Message, blocks: map<nat, Block>, k: nat)
    requires NeverRepeats(supply) && Detached(s, id, blocks) && Inv(Holding(s, id, blocks, k), b, supply)
    requires k < |message.content| && !message.content[k].ToolUse? && ItemEntry(message.content[k], message.role).Some?
    ensures var st, p := AssistantItem(s, supply, message.role, BlockIndex(blocks, k), message.content[k]),
                         ItemPatch(s, supply, message, blocks, k);
            && st.patches == [p] && Allowed(b, p)
            && SettledAs(b[p.index := p.entry], Holding(st.state, id, blocks, k + 1), p.index, p.entry)
  {
    hide Holds, NeverRepeats;
    HoldingLive(s, id, blocks, k);
    HoldsNext(b, supply, s.used, SystemMessage(""));
    var st, p := AssistantItem(s, supply, message.role, BlockIndex(blocks, k), message.content[k]),
                 ItemPatch(s, supply, message, blocks, k);
    assert BlockIndex(blocks, k).Some? ==> LiveAt(Holding(s, id, blocks, k), id.value, k) == BlockIndex(blocks, k);
    assert st.patches == [p] && Allowed(b, p) && (p.index in b ==> !b[p.index].ToolEntry?);
    HoldingLetsGo(s, b, id, blocks, k, st.state, p.index);
    var s0, s1 := Holding(s, id, blocks, k), Holding(st.state, id, blocks, k + 1);
    assert s1.tools == s0.tools;
    hide Holding, AssistantItem, ItemPatch;
    NobodyReturns(s0, b, s1, p.index);
  }

  lemma NobodyReturns(s: State, b: ConversationBoard, s': State, i: nat)
    requires ToolsOk(s, b) && LetsGo(s, s', i) && s'.tools == s.tools && (i in b ==> !b[i].ToolEntry?)
    ensures Settled(s', i)
  {
  }

  /** From the item of block `k` on: its entry is settled as the message says, and stays so. */
  lemma FinalItems(s: State, b: ConversationBoard, supply: Supply, id: Option<string>,
                   message: Message, blocks: map<nat, Block>, k: nat)
    requires NeverRepeats(supply) && Detached(s, id, blocks) && Inv(Holding(s, id, blocks, k), b, supply)
    requires k < |message.content| && !message.content[k].ToolUse? && ItemEntry(message.content[k], message.role).Some?
    ensures var st, p := AssistantItems(s, supply, message, blocks, k, |message.content|),
                         ItemPatch(s, supply, message, blocks, k);
            && Disciplined(b, st.patches) && Detached(st.state, id, blocks) && Allowed(b, p)
            && SettledAs(Play(b, st.patches), Holding(st.state, id, blocks, |message.content|), p.index, p.entry)
  {
    var n, item, p := |message.content|, message.content[k], ItemPatch(s, supply, message, blocks, k);
    ItemSettles(s, b, supply, id, message, blocks, k);
    PlayOne(b, p);
    GoodItem(s, b, supply, id, blocks, k, message.role, item);
    hide Inv, AssistantItem, Holding, ItemPatch, Allowed;
    var st := AssistantItem(s, supply, message.role, BlockIndex(blocks, k), item);
    var b1 := Play(b, st.patches);
    GoodItems(st.state, b1, supply, id, message, blocks, k + 1, n);
    var rest := AssistantItems(st.state, supply, message, blocks, k + 1, n);
    ItemsFirst(s, supply, message, blocks, k, n);
    PlayAppend(b, st.patches, rest.patches);
  }

  lemma {:induction false} ItemsFirst(s: State, supply: Supply, message: Message, blocks: map<nat, Block>, k: nat,
                                      n: nat)
    requires k < n <= |message.content|
    ensures var first := AssistantItem(s, supply, message.role, BlockIndex(blocks, k), message.content[k]);
            AssistantItems(s, supply, message, blocks, k, n)
            == Then(first, AssistantItems(first.state, supply, message, blocks, k + 1, n))
  {
    hide AssistantItem;
    if k + 1 < n {
      ItemsFirst(s, supply, message, blocks, k, n - 1);
    } else {
      assert AssistantItems(s, supply, message, blocks, k, k) == Step(s, []);
    }
  }

  /** Settling a final message in three parts: the model report, the items before `k`, the items from `k`. */
  lemma AssistantParts(s: State, b: ConversationBoard, supply: Supply, message: Message, k: nat)
    requires NeverRepeats(supply) && Inv(s, b, supply) && HeldId(s, message).Some? && k <= |message.content|
    ensures var report := ReportModel(s, supply, message);
            var blocks, s2 := StreamedBlocks(s, message), Forget(report.state, message.id);
            var first := AssistantItems(s2, supply, message, blocks, 0, k);
            var rest := AssistantItems(first.state, supply, message, blocks, k, |message.content|);
            && Disciplined(b, report.patches) && Disciplined(Play(b, report.patches), first.patches)
            && var b2 := Play(Play(b, report.patches), first.patches);
            && Detached(first.state, message.id, blocks) && Inv(Holding(first.state, message.id, blocks, k), b2, supply)
            && OnAssistant(s, supply, message) == Then(report, Then(first, rest))
  {
    GoodReport(s, b, supply, message);
    var report := ReportModel(s, supply, message);
    var s1, b1 := report.state, Play(b, report.patches);
    var blocks, s2 := StreamedBlocks(s1, message), Forget(s1, message.id);
    HoldingAtStart(s1, b1, supply, message);
    GoodItems(s2, b1, supply, message.id, message, blocks, 0, k);
    ItemsSplit(s2, supply, message, blocks, k, |message.content|);
  }

  lemma PlayThree(b: ConversationBoard, ps: seq<Patch<Entry>>, qs: seq<Patch<Entry>>, rs: seq<Patch<Entry>>)
    requires Disciplined(b, ps) && Disciplined(Play(b, ps), qs) && Disciplined(Play(Play(b, ps), qs), rs)
    ensures Disciplined(b, ps + (qs + rs)) && Play(b, ps + (qs + rs)) == Play(Play(Play(b, ps), qs), rs)
  {
    PlayAppend(Play(b, ps), qs, rs);
    PlayAppend(b, ps, qs + rs);
  }

  lemma HeldSettled(b: ConversationBoard, s: State, id: Option<string>, blocks: map<nat, Block>, n: nat, i: nat,
                    e: Entry)
    requires Detached(s, id, blocks) && SettledAs(b, Holding(s, id, blocks, n), i, e)
    ensures SettledAs(b, s, i, e)
  {
    HoldingLive(s, id, blocks, n);
    assert forall m, k: nat :: LiveAt(s, m, k).Some? ==> LiveAt(Holding(s, id, blocks, n), m, k) == LiveAt(s, m, k);
  }

  /** The processor when it comes to item `k` of a final message. */
  ghost function BeforeItem(s: State, supply: Supply, message: Message, k: nat): State
    requires k <= |message.content|
  {
    var report := ReportModel(s, supply, message);
    AssistantItems(Forget(report.state, message.id), supply, message, StreamedBlocks(report.state, message), 0, k).state
  }

  /** The patch of item `k` of a final message. */
  ghost function FinalPatch(s: State, supply: Supply, message: Message, k: nat): Patch<Entry>
    requires k < |message.content| && ItemEntry(message.content[k], message.role).Some?
  {
    ItemPatch(BeforeItem(s, supply, message, k), supply, message, StreamedBlocks(s, message), k)
  }

  /** A final message puts the text of item `k` where block `k` was streamed, or at a new position if it was not
      shown, and nothing will change it again. */
  lemma FinalMessageSettles(s: State, b: ConversationBoard, supply: Supply, message: Message, k: nat)
    requires NeverRepeats(supply) && Inv(s, b, supply) && HeldId(s, message).Some?
    requires k < |message.content| && !message.content[k].ToolUse? && ItemEntry(message.content[k], message.role).Some?
    ensures var st, p := OnAssistant(s, supply, message), FinalPatch(s, supply, message, k);
            && Disciplined(b, st.patches) && (p.Add? ==> p.index !in b)
            && SettledAs(Play(b, st.patches), st.state, p.index, p.entry)
  {
    AssistantParts(s, b, supply, message, k);
    var report := ReportModel(s, supply, message);
    var blocks, s2 := StreamedBlocks(s, message), Forget(report.state, message.id);
    var first := AssistantItems(s2, supply, message, blocks, 0, k);
    var b2 := Play(Play(b, report.patches), first.patches);
    FinalItems(first.state, b2, supply, message.id, message, blocks, k);
    PlayGrows(b, report.patches);
    PlayGrows(Play(b, report.patches), first.patches);
    var rest := AssistantItems(first.state, supply, message, blocks, k, |message.content|);
    PlayThree(b, report.patches, first.patches, rest.patches);
    var p := ItemPatch(first.state, supply, message, blocks, k);
    HeldSettled(Play(b2, rest.patches), rest.state, message.id, blocks, |message.content|, p.index, p.entry);
    hide Inv, SettledAs, Holding, AssistantItems, Play, Disciplined;
  }

  /** How many entries a final message adds: one for each item that has something to show and was not
      shown while streaming. */
  function Unseen(message: Message, blocks: map<nat, Block>, n: nat): nat
    requires n <= |message.content|
  {
    if n == 0 then 0
    else Unseen(message, blocks, n - 1)
         + if ItemEntry(message.content[n - 1], message.role).Some? && BlockIndex(blocks, n - 1).None? then 1 else 0
  }

  lemma {:induction false} FinalMessageAdds(s: State, supply: Supply, message: Message, blocks: map<nat, Block>, n: nat)
    requires n <= |message.content|
    ensures AssistantItems(s, supply, message, blocks, 0, n).state.used == s.used + Unseen(message, blocks, n)
  {
    if n > 0 {
      FinalMessageAdds(s, supply, message, blocks, n - 1);
    }
  }

  /** So a final message draws one position to report a new model, and one for each item that was not shown. */
  lemma FinalMessageDraws(s: State, supply: Supply, message: Message)
    ensures OnAssistant(s, supply, message).state.used
            == s.used + (if s.model.None? && message.model.Some? then 1 else 0)
               + Unseen(message, StreamedBlocks(s, message), |message.content|)
  {
    var report := ReportModel(s, supply, message);
    FinalMessageAdds(Forget(report.state, message.id), supply, message, StreamedBlocks(s, message), |message.content|);
    hide AssistantItems, Unseen;
  }

  /** What a gathering shows. */
  function ShownAs(g: Gathering): Entry {
    match g.kind
    case TextBlock => AssistantMessage(g.text)
    case ThinkingBlock => Thinking(g.text)
  }

  /** While a block is streamed and shown, its entry shows what was gathered. */
  lemma BlockIsShown(s: State, b: ConversationBoard, supply: Supply, m: string, k: nat, g: Gathering)
    requires Inv(s, b, supply) && Follows(s, m, k, Some(g)) && g.shown
    ensures LiveAt(s, m, k).Some? && LiveAt(s, m, k).value in b && b[LiveAt(s, m, k).value] == ShownAs(g)
  {
  }

  /** A streamed block becomes exactly one entry. From a message that has not mentioned block `k`, through any
      events that leave the block alone, other messages included, to the final message and any events after it:
      the deltas of the block and item `k` of the final message together add one position, free at first; while
      it streams it shows what was gathered, then the final text, for good. */
  lemma BlockBecomesOneEntry(s: State, b: ConversationBoard, supply: Supply, m: string, k: nat,
                             evs: seq<Event>, message: Message, later: seq<Event>) returns (i: nat)
    requires NeverRepeats(supply) && Inv(s, b, supply)
    requires Follows(s, m, k, None) && AllUndisturbed(None, s.current, evs, m, k)
    requires message.id == Some(m) && k < |message.content| && !message.content[k].ToolUse?
    requires ItemEntry(message.content[k], message.role).Some?
    ensures i !in b
    ensures var streamed, g := Run(Default, s, supply, evs), GatherAll(None, s.current, evs, m, k);
            && Disciplined(b, streamed.patches)
            && var b1, own := Play(b, streamed.patches), OwnPatches(s, supply, evs, m, k);
            && (g.Some? && g.value.shown ==> i in b1 && b1[i] == ShownAs(g.value))
            && var final, last := OnAssistant(streamed.state, supply, message),
                                  FinalPatch(streamed.state, supply, message, k);
            && Added(own + [last]) == [i] && (forall j :: 0 <= j < |own| ==> own[j].index == i)
            && final.state.used
               == streamed.state.used + (if streamed.state.model.None? && message.model.Some? then 1 else 0)
                                   + Unseen(message, StreamedBlocks(streamed.state, message), |message.content|)
            && Disciplined(b1, final.patches)
            && var b2 := Play(b1, final.patches);
            && SettledAs(b2, final.state, i, ItemEntry(message.content[k], message.role).value)
            && var rest := Run(Default, final.state, supply, later);
            && Disciplined(b2, rest.patches)
            && i in Play(b2, rest.patches) && Play(b2, rest.patches)[i] == b2[i]
  {
    var streamed, g := Run(Default, s, supply, evs), GatherAll(None, s.current, evs, m, k);
    BlockGathers(s, supply, evs, m, k, None);
    BlockAddsOnce(s, supply, evs, m, k, None);
    BlockAppears(s, b, supply, evs, m, k, None);
    RunIsGood(s, b, supply, evs);
    RunGrows(s, b, supply, evs);
    var b1, own := Play(b, streamed.patches), OwnPatches(s, supply, evs, m, k);
    if g.Some? && g.value.shown { BlockIsShown(streamed.state, b1, supply, m, k, g.value); }
    FinalMessageSettles(streamed.state, b1, supply, message, k);
    FinalMessageDraws(streamed.state, supply, message);
    GoodAssistant(streamed.state, b1, supply, message);
    var final, last := OnAssistant(streamed.state, supply, message), FinalPatch(streamed.state, supply, message, k);
    i := last.index;
    OwnAndLast(streamed.state, supply, message, m, k, own);
    hide Inv, Run, OnAssistant, OwnPatches, FinalPatch, Unseen, Play, Disciplined, GatherAll, AllUndisturbed, Added;
    RunIsGood(final.state, Play(b1, final.patches), supply, later);
  }

  lemma RunGrows(s: State, b: ConversationBoard, supply: Supply, evs: seq<Event>)
    requires Disciplined(b, Run(Default, s, supply, evs).patches)
    ensures b.Keys <= Play(b, Run(Default, s, supply, evs).patches).Keys
  {
    PlayGrows(b, Run(Default, s, supply, evs).patches);
  }

  /** Item `k` of the final message goes where the block is, or adds a position if the block has none. */
  lemma OwnAndLast(s: State, supply: Supply, message: Message, m: string, k: nat, own: seq<Patch<Entry>>)
    requires message.id == Some(m) && m in s.streaming && OnePosition(None, LiveAt(s, m, k), own)
    requires k < |message.content| && ItemEntry(message.content[k], message.role).Some?
    ensures var last := FinalPatch(s, supply, message, k);
            && Added(own + [last]) == [last.index] && (forall j :: 0 <= j < |own| ==> own[j].index == last.index)
            && last.entry == ItemEntry(message.content[k], message.role).value
            && (LiveAt(s, m, k).Some? ==> last.index == LiveAt(s, m, k).value)
            && (last.Replace? ==> LiveAt(s, m, k).Some?)
  {
    var last := FinalPatch(s, supply, message, k);
    AddedAppend(own, [last]);
    AddedOne(last);
  }
}
