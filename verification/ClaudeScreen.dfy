/** What a Claude or Amp conversation shows, from the history of what was read alone. The reference is a screen: the
    entries in the order in which they appeared, some of them tagged with the tool or the streamed block that may
    still change them. It knows no positions and no maps; the processor is proved to build exactly this. */
module ClaudeScreen {
  import opened Text
  import opened Conversation
  import opened Claude
  import opened ClaudeProperties
  import opened ClaudeStreaming
  import opened ClaudeBlockEntries
  import opened ClaudeLogs
  import ClaudeHistory
  import Amp = AmpResume

  // ---------- The screen ----------

  /** Who may still change an entry: nobody, results for a tool, or the stream of a block. */
  datatype Tag = Loose | OfTool(id: string) | OfBlock(m: string, k: nat)

  datatype Slot = Slot(entry: Entry, tag: Tag)

  type Screen = seq<Slot>

  predicate Has(scr: Screen, tag: Tag) {
    exists n :: 0 <= n < |scr| && scr[n].tag == tag
  }

  function Say(scr: Screen, e: Entry): Screen {
    scr + [Slot(e, Loose)]
  }

  /** Entries with the tag are left as they are from now on. */
  function Loosen(scr: Screen, tag: Tag): Screen {
    seq(|scr|, i requires 0 <= i < |scr| => if scr[i].tag == tag then Slot(scr[i].entry, Loose) else scr[i])
  }

  function LoosenMessage(scr: Screen, id: Option<string>): Screen {
    seq(|scr|, i requires 0 <= i < |scr| =>
        if scr[i].tag.OfBlock? && Some(scr[i].tag.m) == id then Slot(scr[i].entry, Loose) else scr[i])
  }

  /** Show an entry in the place of the one tagged `from`, or as a new one if there is none; from now on it has the
      tag `to`, and nothing else has. */
  function Show(scr: Screen, from: Tag, e: Entry, to: Tag): Screen {
    if from != Loose && Has(scr, from) then
      seq(|scr|, i requires 0 <= i < |scr| =>
          if scr[i].tag == from then Slot(e, to) else if scr[i].tag == to then Slot(scr[i].entry, Loose) else scr[i])
    else Loosen(scr, to) + [Slot(e, to)]
  }

  // ---------- What events show ----------

  predicate NamesModel(ev: Event) {
    match ev
    case Assistant(message) => message.model.Some?
    case Stream(MessageStart(message)) => message.role == "assistant" && message.model.Some?
    case _ => false
  }

  predicate ModelKnown(evs: seq<Event>) {
    exists i :: 0 <= i < |evs| && NamesModel(evs[i])
  }

  /** The first model named is reported. */
  function Report(scr: Screen, evs: seq<Event>, model: Option<string>): Screen {
    if model.Some? && !ModelKnown(evs) then Say(scr, SystemMessage("System initialized with model: " + model.value))
    else scr
  }

  /** The message that stream events are about, and block `k` of message `m`, after the events. */
  function CurrentOf(evs: seq<Event>): Option<string> {
    if evs == [] then None else CurrentAfter(CurrentOf(evs[..|evs| - 1]), evs[|evs| - 1])
  }

  function TrackOf(evs: seq<Event>, m: string, k: nat): Track {
    if evs == [] then Gone
    else TrackNext(TrackOf(evs[..|evs| - 1], m, k), CurrentOf(evs[..|evs| - 1]), evs[|evs| - 1], m, k)
  }

  function BlockTag(message: Message, k: nat): Tag {
    if message.id.Some? then OfBlock(message.id.value, k) else Loose
  }

  /** Item `k` of a final message takes the place of block `k`, if that is on the screen. */
  function ShowItem(scr: Screen, message: Message, k: nat): Screen
    requires k < |message.content|
  {
    var from := BlockTag(message, k);
    match message.content[k]
    case TextItem(t) =>
      if message.role == "assistant" then Show(scr, from, AssistantMessage(t), Loose) else Loosen(scr, from)
    case ThinkingItem(t) => Show(scr, from, Thinking(t), Loose)
    case ToolUse(id, tool) => Show(scr, from, ToolEntry(tool, Created, None), OfTool(id))
    case ToolResult(_, _, _) => Loosen(scr, from)
  }

  function ShowItems(scr: Screen, message: Message, n: nat): Screen
    requires n <= |message.content|
  {
    if n == 0 then scr else ShowItem(ShowItems(scr, message, n - 1), message, n - 1)
  }

  /** A result goes into the entry of its tool, unless that is one that shows no results. */
  function Answer(scr: Screen, item: Item): Screen {
    match item
    case ToolResult(id, content, isError) =>
      seq(|scr|, i requires 0 <= i < |scr| =>
          if scr[i].tag == OfTool(id) && scr[i].entry.ToolEntry? && scr[i].entry.tool.class_ != Silent then
            Slot(ToolEntry(scr[i].entry.tool, if isError == Some(true) then Failed else Success, Some(content)),
                 OfTool(id))
          else scr[i])
    case _ => scr
  }

  function AnswerAll(scr: Screen, items: seq<Item>, n: nat): Screen
    requires n <= |items|
  {
    if n == 0 then scr else Answer(AnswerAll(scr, items, n - 1), items[n - 1])
  }

  function UserSlots(items: seq<Item>): Screen {
    if items == [] then []
    else
      var before := UserSlots(items[..|items| - 1]);
      match items[|items| - 1]
      case TextItem(t) => Say(before, UserMessage(t))
      case _ => before
  }

  function OnBlock(scr: Screen, evs: seq<Event>, ev: Event, m: string, k: nat): Screen
    requires ev.Stream? && (ev.event.BlockStart? || ev.event.BlockDelta?)
  {
    var t := TrackOf(evs, m, k);
    if t.Gone? then scr
    else match ev.event
      case BlockStart(_, item) => if item.TextItem? || item.ThinkingItem? then Loosen(scr, OfBlock(m, k)) else scr
      case BlockDelta(_, _) =>
        var g := Gather(t.g, ev, k);
        if g.Some? then Show(scr, OfBlock(m, k), ShownAs(g.value), OfBlock(m, k)) else scr
  }

  /** The screen after one more event. */
  function Next(strategy: Strategy, scr: Screen, evs: seq<Event>, ev: Event): Screen {
    match ev
    case System(subtype, source) =>
      var warned :=
        if source == Some("ANTHROPIC_API_KEY") then
          Say(scr, ErrorMessage("Claude Code + ANTHROPIC_API_KEY detected. Usage will be billed via Anthropic "
                                + "pay-as-you-go instead of your Claude subscription."))
        else scr;
      (match subtype
       case Some(x) => if x == "init" then warned else Say(warned, SystemMessage("System: " + x))
       case None => Say(warned, SystemMessage("System message")))
    case Assistant(message) =>
      LoosenMessage(ShowItems(Report(scr, evs, message.model), message, |message.content|), message.id)
    case User(message) =>
      var restarts := strategy == AmpResume && exists i :: 0 <= i < |message.content| && message.content[i].TextItem?;
      AnswerAll(if restarts then UserSlots(message.content) else scr, message.content, |message.content|)
    case ToolUseEvent(tool) => Say(scr, ToolEntry(tool, Created, None))
    case ToolResultEvent => scr
    case Stream(MessageStart(message)) =>
      if message.role == "assistant" then LoosenMessage(Report(scr, evs, message.model), message.id) else scr
    case Stream(MessageStop) => LoosenMessage(scr, CurrentOf(evs))
    case Stream(BlockStart(k, _)) =>
      (match CurrentOf(evs)
       case Some(m) => OnBlock(scr, evs, ev, m, k)
       case None => scr)
    case Stream(BlockDelta(k, _)) =>
      (match CurrentOf(evs)
       case Some(m) => OnBlock(scr, evs, ev, m, k)
       case None => scr)
    case Stream(_) => scr
    case Result(isError, json) =>
      if strategy == AmpResume && isError == Some(true) then Say(scr, ErrorMessage(json)) else scr
    case ApprovalResponse(name, Denied(reason)) =>
      var why := if reason.Some? then Trim(reason.value) else "";
      Say(scr, UserFeedback(name, if why == "" then "User denied this tool use request" else why))
    case ApprovalResponse(name, TimedOut) => Say(scr, ErrorMessage("Approval timed out for tool " + name))
    case ApprovalResponse(_, _) => scr
    case Unknown(data) => Say(scr, SystemMessage("Unrecognized JSON message: " + data))
  }

  function Events(h: seq<Reading>): seq<Event> {
    if h == [] then []
    else
      var before := Events(h[..|h| - 1]);
      match h[|h| - 1]
      case Decoded(ev) => before + [ev]
      case Undecoded(_) => before
  }

  /** The screen after everything that was read. */
  function ScreenOf(strategy: Strategy, h: seq<Reading>): Screen {
    if h == [] then []
    else
      var init := h[..|h| - 1];
      match h[|h| - 1]
      case Decoded(ev) => Next(strategy, ScreenOf(strategy, init), Events(init), ev)
      case Undecoded(text) => Say(ScreenOf(strategy, init), SystemMessage(text))
  }

  // ---------- Processor and screen ----------

  ghost function Position(s: State, tag: Tag): Option<nat> {
    match tag
    case Loose => None
    case OfTool(id) => if id in s.tools then Some(s.tools[id].index) else None
    case OfBlock(m, k) => LiveAt(s, m, k)
  }

  ghost predicate Shows(b: ConversationBoard, scr: Screen, supply: Supply) {
    forall n :: 0 <= n < |scr| ==> supply(n) in b && b[supply(n)] == scr[n].entry
  }

  ghost predicate TagsHold(s: State, scr: Screen, supply: Supply) {
    && (forall n :: 0 <= n < |scr| && scr[n].tag != Loose ==> Position(s, scr[n].tag) == Some(supply(n)))
    && forall tag :: Position(s, tag).Some? ==> Has(scr, tag)
  }

  /** The n-th position drawn shows the n-th entry of the screen, and the processor knows the tagged ones. */
  ghost predicate Matches(s: State, b: ConversationBoard, scr: Screen, supply: Supply) {
    s.used == |scr| && Shows(b, scr, supply) && TagsHold(s, scr, supply)
  }

  lemma TaggedOnce(s: State, scr: Screen, supply: Supply, i: nat, j: nat)
    requires NeverRepeats(supply) && TagsHold(s, scr, supply)
    requires i < |scr| && j < |scr| && scr[i].tag == scr[j].tag != Loose
    ensures i == j
  {
  }

  /** The tags after an entry has moved from one to the other. */
  ghost predicate Moves(s: State, s': State, from: Tag, to: Tag, i: nat) {
    forall tag :: tag != Loose ==>
      Position(s', tag) == if tag == to then Some(i) else if tag == from then None else Position(s, tag)
  }

  /** The patch that shows an entry: at the position of `from`, or at the next one. */
  ghost predicate ShowPatch(s: State, s': State, scr: Screen, supply: Supply, from: Tag, e: Entry, p: Patch<Entry>) {
    if from != Loose && Has(scr, from) then
      Position(s, from).Some? && p == Replace(Position(s, from).value, e) && s'.used == s.used
    else p == Add(supply(s.used), e) && s'.used == s.used + 1
  }

  lemma AddMatches(s: State, b: ConversationBoard, scr: Screen, supply: Supply, s': State, from: Tag, e: Entry, to: Tag)
    requires NeverRepeats(supply) && Matches(s, b, scr, supply) && !(from != Loose && Has(scr, from))
    requires s'.used == s.used + 1 && Moves(s, s', from, to, supply(s.used))
    ensures Matches(s', b[supply(s.used) := e], Show(scr, from, e, to), supply)
  {
    var scr', i := Show(scr, from, e, to), supply(s.used);
    assert forall n :: 0 <= n < |scr| ==> scr'[n].entry == scr[n].entry && supply(n) != i;
    assert Shows(b[i := e], scr', supply);
    forall tag | Position(s', tag).Some?
      ensures Has(scr', tag)
    {
      if tag == to {
        assert scr'[|scr|].tag == tag;
      } else {
        var n :| 0 <= n < |scr| && scr[n].tag == tag;
        assert scr'[n].tag == tag;
      }
    }
  }

  lemma ReplaceMatches(s: State, b: ConversationBoard, scr: Screen, supply: Supply, s': State, from: Tag, e: Entry,
                       to: Tag)
    requires NeverRepeats(supply) && Matches(s, b, scr, supply) && from != Loose && Has(scr, from)
    requires Position(s, from).Some? && s'.used == s.used && Moves(s, s', from, to, Position(s, from).value)
    ensures Matches(s', b[Position(s, from).value := e], Show(scr, from, e, to), supply)
  {
    var scr' := Show(scr, from, e, to);
    var n0 :| 0 <= n0 < |scr| && scr[n0].tag == from;
    var i := supply(n0);
    assert Position(s, from) == Some(i);
    forall n | 0 <= n < |scr|
      ensures n != n0 ==> scr[n].tag != from && supply(n) != i
    {
      if scr[n].tag == from { TaggedOnce(s, scr, supply, n, n0); }
    }
    assert Shows(b[i := e], scr', supply);
    forall tag | Position(s', tag).Some?
      ensures Has(scr', tag)
    {
      if tag == to {
        assert scr'[n0].tag == tag;
      } else {
        var n :| 0 <= n < |scr| && scr[n].tag == tag;
        assert scr'[n].tag == tag;
      }
    }
  }

  /** Tags that are let go, and the others as they were. */
  lemma LessMatches(s: State, b: ConversationBoard, scr: Screen, supply: Supply, s': State, scr': Screen)
    requires Matches(s, b, scr, supply) && s'.used == s.used && |scr'| == |scr|
    requires forall n :: 0 <= n < |scr| ==>
               scr'[n].entry == scr[n].entry && (scr'[n].tag == scr[n].tag || scr'[n].tag == Loose)
    requires forall tag :: Position(s', tag).Some? ==> Position(s', tag) == Position(s, tag)
    requires forall n :: 0 <= n < |scr| && scr[n].tag != Loose ==>
               (scr'[n].tag == Loose <==> Position(s', scr[n].tag).None?)
    ensures Matches(s', b, scr', supply)
  {
    forall tag | Position(s', tag).Some?
      ensures Has(scr', tag)
    {
      var n :| 0 <= n < |scr| && scr[n].tag == tag;
      assert scr'[n].tag == tag;
    }
  }

  /** A step builds this screen. */
  ghost predicate Builds(b: ConversationBoard, st: Step, scr: Screen, supply: Supply) {
    Disciplined(b, st.patches) && Matches(st.state, Play(b, st.patches), scr, supply)
  }

  lemma BuildsNothing(s: State, b: ConversationBoard, scr: Screen, supply: Supply)
    requires Matches(s, b, scr, supply)
    ensures Builds(b, Step(s, []), scr, supply)
  {
  }

  lemma BuildsThen(b: ConversationBoard, st: Step, st': Step, scr: Screen, supply: Supply)
    requires Disciplined(b, st.patches) && Builds(Play(b, st.patches), st', scr, supply)
    ensures Builds(b, Then(st, st'), scr, supply)
  {
    hide Matches;
    PlayAppend(b, st.patches, st'.patches);
  }

  /** A step that shows one entry. */
  lemma BuildsShow(s: State, b: ConversationBoard, scr: Screen, supply: Supply, st: Step, from: Tag, e: Entry, to: Tag)
    requires NeverRepeats(supply) && Matches(s, b, scr, supply) && supply(s.used) !in b
    requires |st.patches| == 1 && ShowPatch(s, st.state, scr, supply, from, e, st.patches[0])
    requires Moves(s, st.state, from, to, st.patches[0].index)
    ensures Builds(b, st, Show(scr, from, e, to), supply)
  {
    hide Moves, Show, NeverRepeats;
    var p := st.patches[0];
    assert st.patches == [p];
    if from != Loose && Has(scr, from) {
      var n :| 0 <= n < |scr| && scr[n].tag == from;
      assert Position(s, from) == Some(supply(n)) && supply(n) in b;
      ReplaceMatches(s, b, scr, supply, st.state, from, e, to);
    } else {
      AddMatches(s, b, scr, supply, st.state, from, e, to);
    }
    hide Matches;
    PlayOne(b, p);
  }

  lemma NextIsFree(s: State, b: ConversationBoard, supply: Supply)
    requires NeverRepeats(supply) && Inv(s, b, supply)
    ensures supply(s.used) !in b
  {
    HoldsNext(b, supply, s.used, SystemMessage(""));
  }

  // ---------- Entries that nobody changes ----------

  lemma ShowIsSay(scr: Screen, e: Entry)
    ensures Show(scr, Loose, e, Loose) == Say(scr, e)
  {
    assert Loosen(scr, Loose) == scr;
  }

  ghost predicate SamePositions(s: State, s': State) {
    s'.tools == s.tools && s'.streaming == s.streaming
  }

  lemma SayBuilds(s: State, b: ConversationBoard, scr: Screen, supply: Supply, s': State, e: Entry)
    requires NeverRepeats(supply) && Inv(s, b, supply) && Matches(s, b, scr, supply)
    requires SamePositions(s, s') && s'.used == s.used + 1
    ensures Builds(b, Step(s', [Add(supply(s.used), e)]), Say(scr, e), supply)
  {
    NextIsFree(s, b, supply);
    ShowIsSay(scr, e);
    hide NeverRepeats, Matches, Inv, Show;
    BuildsShow(s, b, scr, supply, Step(s', [Add(supply(s.used), e)]), Loose, e, Loose);
  }

  function SayAll(scr: Screen, es: seq<Entry>, n: nat): Screen
    requires n <= |es|
  {
    if n == 0 then scr else Say(SayAll(scr, es, n - 1), es[n - 1])
  }

  lemma {:induction false} AddAllBuilds(s: State, b: ConversationBoard, scr: Screen, supply: Supply, es: seq<Entry>,
                                        n: nat)
    requires NeverRepeats(supply) && Inv(s, b, supply) && Matches(s, b, scr, supply) && n <= |es|
    ensures Builds(b, AddAll(s, supply, es, n), SayAll(scr, es, n), supply)
  {
    hide NeverRepeats, Inv, Matches, Good;
    if n == 0 {
      BuildsNothing(s, b, scr, supply);
    } else {
      AddAllBuilds(s, b, scr, supply, es, n - 1);
      GoodAddAll(s, b, supply, es, n - 1);
      var before := AddAll(s, supply, es, n - 1);
      GoodGives(s, b, supply, before);
      var t, e := before.state, es[n - 1];
      SayBuilds(t, Play(b, before.patches), SayAll(scr, es, n - 1), supply, t.(used := t.used + 1), e);
      BuildsThen(b, before, Put(t, supply, None, e), SayAll(scr, es, n), supply);
    }
  }

  predicate IsPlain(ev: Event) {
    !ev.Assistant? && !ev.User? && !ev.Stream?
  }

  lemma PlainIsNext(strategy: Strategy, scr: Screen, evs: seq<Event>, ev: Event)
    requires IsPlain(ev)
    ensures var es := PlainEntries(strategy, ev); Next(strategy, scr, evs, ev) == SayAll(scr, es, |es|)
  {
    hide Trim, Say;
    var es := PlainEntries(strategy, ev);
    assert |es| <= 2;
    if |es| > 0 { assert SayAll(scr, es, 1) == Say(SayAll(scr, es, 0), es[0]) == Say(scr, es[0]); }
  }

  lemma PlainBuilds(strategy: Strategy, s: State, b: ConversationBoard, scr: Screen, supply: Supply, evs: seq<Event>,
                    ev: Event)
    requires NeverRepeats(supply) && Inv(s, b, supply) && Matches(s, b, scr, supply) && IsPlain(ev)
    ensures Builds(b, Normalize(strategy, s, supply, ev), Next(strategy, scr, evs, ev), supply)
  {
    hide NeverRepeats, Inv, Matches, PlainEntries, Next, AddAll, Builds;
    var es := PlainEntries(strategy, ev);
    PlainIsNext(strategy, scr, evs, ev);
    AddAllBuilds(s, b, scr, supply, es, |es|);
  }

  // ---------- The model ----------

  ghost predicate KnowsModel(s: State, evs: seq<Event>) {
    s.model.Some? <==> ModelKnown(evs)
  }

  lemma ReportBuilds(s: State, b: ConversationBoard, scr: Screen, supply: Supply, evs: seq<Event>, message: Message)
    requires NeverRepeats(supply) && Inv(s, b, supply) && Matches(s, b, scr, supply) && KnowsModel(s, evs)
    ensures Builds(b, ReportModel(s, supply, message), Report(scr, evs, message.model), supply)
  {
    hide NeverRepeats, Inv, Matches, ModelKnown;
    if s.model.None? && message.model.Some? {
      var e := SystemMessage("System initialized with model: " + message.model.value);
      SayBuilds(s, b, scr, supply, s.(model := message.model, used := s.used + 1), e);
    } else {
      BuildsNothing(s, b, scr, supply);
    }
    hide Builds, Say;
  }

  // ---------- Final messages ----------

  ghost function TagOf(item: Item): Tag {
    if item.ToolUse? then OfTool(item.id) else Loose
  }

  lemma ItemKeeps(s: State, supply: Supply, role: string, at: Option<nat>, item: Item)
    ensures var st := AssistantItem(s, supply, role, at, item);
            && st.state.streaming == s.streaming
            && (if item.ToolUse? then
                  st.patches != [] && st.state.tools == s.tools[item.id := ToolInfo(st.patches[0].index, item.tool)]
                else st.state.tools == s.tools)
            && (st.patches == [] ==> st.state.used == s.used)
  {
  }

  lemma HoldingMoves(s: State, t: State, hid: Option<string>, message: Message, blocks: map<nat, Block>, n: nat,
                     tag: Tag)
    requires Detached(s, hid, blocks) && hid in {None, message.id} && t.streaming == s.streaming && tag.OfBlock?
    requires hid.None? && message.id.Some? ==> message.id.value !in s.streaming
    ensures Position(Holding(t, hid, blocks, n + 1), tag)
            == if tag == BlockTag(message, n) then None else Position(Holding(s, hid, blocks, n), tag)
  {
    HoldingLive(s, hid, blocks, n);
    HoldingLive(t, hid, blocks, n + 1);
    assert LiveAt(t, tag.m, tag.k) == LiveAt(s, tag.m, tag.k);
    hide Holding;
  }

  lemma HoldingTools(s: State, hid: Option<string>, blocks: map<nat, Block>, n: nat)
    ensures Holding(s, hid, blocks, n).tools == s.tools && Holding(s, hid, blocks, n).used == s.used
  {
  }

  lemma ItemMoves(s: State, supply: Supply, hid: Option<string>, message: Message, blocks: map<nat, Block>, n: nat)
    requires Detached(s, hid, blocks) && hid in {None, message.id} && n < |message.content|
    requires hid.None? && message.id.Some? ==> message.id.value !in s.streaming
    ensures var st := AssistantItem(s, supply, message.role, BlockIndex(blocks, n), message.content[n]);
            var s0, s1 := Holding(s, hid, blocks, n), Holding(st.state, hid, blocks, n + 1);
            if st.patches == [] then Moves(s0, s1, BlockTag(message, n), Loose, 0) && s1.used == s0.used
            else Moves(s0, s1, BlockTag(message, n), TagOf(message.content[n]), st.patches[0].index)
  {
    hide AssistantItem, Holding, Detached;
    var item := message.content[n];
    var st := AssistantItem(s, supply, message.role, BlockIndex(blocks, n), item);
    ItemKeeps(s, supply, message.role, BlockIndex(blocks, n), item);
    HoldingTools(s, hid, blocks, n);
    HoldingTools(st.state, hid, blocks, n + 1);
    forall tag: Tag | tag.OfBlock?
      ensures Position(Holding(st.state, hid, blocks, n + 1), tag)
              == if tag == BlockTag(message, n) then None else Position(Holding(s, hid, blocks, n), tag)
    {
      HoldingMoves(s, st.state, hid, message, blocks, n, tag);
    }
  }

  /** What an item shows, as the source converts it. */
  lemma ItemPatchIs(s: State, supply: Supply, role: string, at: Option<nat>, item: Item)
    ensures var st := AssistantItem(s, supply, role, at, item);
            match item
            case TextItem(t) => role == "assistant" ==> PutIs(s, supply, at, AssistantMessage(t), st)
            case ThinkingItem(t) => PutIs(s, supply, at, Thinking(t), st)
            case ToolUse(_, tool) => PutIs(s, supply, at, ToolEntry(tool, Created, None), st)
            case ToolResult(_, _, _) => st == Step(s, [])
    ensures item.TextItem? && role != "assistant" ==> AssistantItem(s, supply, role, at, item) == Step(s, [])
  {
  }

  ghost predicate PutIs(s: State, supply: Supply, at: Option<nat>, e: Entry, st: Step) {
    if at.Some? then st.patches == [Replace(at.value, e)] && st.state.used == s.used
    else st.patches == [Add(supply(s.used), e)] && st.state.used == s.used + 1
  }

  ghost predicate Settling(s: State, b: ConversationBoard, scr: Screen, supply: Supply, hid: Option<string>,
                           message: Message, blocks: map<nat, Block>, n: nat)
  {
    && Detached(s, hid, blocks) && hid in {None, message.id}
    && (hid.None? && message.id.Some? ==> message.id.value !in s.streaming)
    && Inv(Holding(s, hid, blocks, n), b, supply) && Matches(Holding(s, hid, blocks, n), b, scr, supply)
  }

  lemma TagIsHeld(s: State, b: ConversationBoard, scr: Screen, supply: Supply, hid: Option<string>, message: Message,
                  blocks: map<nat, Block>, n: nat)
    requires Settling(s, b, scr, supply, hid, message, blocks, n)
    ensures Position(Holding(s, hid, blocks, n), BlockTag(message, n)) == BlockIndex(blocks, n)
    ensures BlockTag(message, n) != Loose && Has(scr, BlockTag(message, n)) <==> BlockIndex(blocks, n).Some?
  {
    HoldingLive(s, hid, blocks, n);
    hide Inv, Holding;
    var s0, tag := Holding(s, hid, blocks, n), BlockTag(message, n);
    assert Position(s0, tag) == BlockIndex(blocks, n);
    if tag != Loose && Has(scr, tag) {
      var j :| 0 <= j < |scr| && scr[j].tag == tag;
      assert Position(s0, scr[j].tag) == Some(supply(j));
    }
  }

  lemma ItemBuilds(s: State, b: ConversationBoard, scr: Screen, supply: Supply, hid: Option<string>, message: Message,
                   blocks: map<nat, Block>, n: nat)
    requires NeverRepeats(supply) && n < |message.content| && Settling(s, b, scr, supply, hid, message, blocks, n)
    ensures var st := AssistantItem(s, supply, message.role, BlockIndex(blocks, n), message.content[n]);
            Builds(b, HeldStep(st, hid, blocks, n + 1), ShowItem(scr, message, n), supply)
  {
    var item, at, from := message.content[n], BlockIndex(blocks, n), BlockTag(message, n);
    var st := AssistantItem(s, supply, message.role, at, item);
    var s0 := Holding(s, hid, blocks, n);
    NextIsFree(s0, b, supply);
    TagIsHeld(s, b, scr, supply, hid, message, blocks, n);
    ItemMoves(s, supply, hid, message, blocks, n);
    ItemPatchIs(s, supply, message.role, at, item);
    assert s0.used == s.used;
    hide AssistantItem, Inv, NeverRepeats, Moves, Show, Holding, Detached;
    if st.patches == [] {
      SilentMatches(s0, b, scr, supply, Holding(st.state, hid, blocks, n + 1), from);
      BuildsNothing(Holding(st.state, hid, blocks, n + 1), b, Loosen(scr, from), supply);
    } else {
      var held := HeldStep(st, hid, blocks, n + 1);
      HoldingUses(st.state, hid, blocks, n + 1);
      BuildsShow(s0, b, scr, supply, held, from, st.patches[0].entry, TagOf(item));
    }
  }

  lemma HoldingUses(s: State, hid: Option<string>, blocks: map<nat, Block>, n: nat)
    ensures Holding(s, hid, blocks, n).used == s.used
  {
  }

  lemma SilentMatches(s: State, b: ConversationBoard, scr: Screen, supply: Supply, s': State, from: Tag)
    requires Matches(s, b, scr, supply) && Moves(s, s', from, Loose, 0) && s'.used == s.used
    ensures Matches(s', b, Loosen(scr, from), supply)
  {
    var scr' := Loosen(scr, from);
    forall n | 0 <= n < |scr| && scr[n].tag != Loose
      ensures scr'[n].tag == Loose <==> Position(s', scr[n].tag).None?
    {
      assert Position(s, scr[n].tag) == Some(supply(n));
    }
    LessMatches(s, b, scr, supply, s', scr');
  }

  lemma {:induction false} ItemsBuild(s: State, b: ConversationBoard, scr: Screen, supply: Supply, hid: Option<string>,
                                      message: Message, blocks: map<nat, Block>, n: nat)
    requires NeverRepeats(supply) && n <= |message.content| && Settling(s, b, scr, supply, hid, message, blocks, 0)
    ensures var st := AssistantItems(s, supply, message, blocks, 0, n);
            && Builds(b, HeldStep(st, hid, blocks, n), ShowItems(scr, message, n), supply)
            && Settling(st.state, Play(b, st.patches), ShowItems(scr, message, n), supply, hid, message, blocks, n)
  {
    hide Inv, Matches, Holding, AssistantItem, Detached, Good, NeverRepeats, ShowItem;
    GoodItems(s, b, supply, hid, message, blocks, 0, n);
    ItemsKeepStreams(s, supply, message, blocks, n);
    var st := AssistantItems(s, supply, message, blocks, 0, n);
    GoodGives(Holding(s, hid, blocks, 0), b, supply, HeldStep(st, hid, blocks, n));
    if n == 0 {
      BuildsNothing(Holding(s, hid, blocks, 0), b, scr, supply);
    } else {
      ItemsBuild(s, b, scr, supply, hid, message, blocks, n - 1);
      var before := AssistantItems(s, supply, message, blocks, 0, n - 1);
      ItemBuilds(before.state, Play(b, before.patches), ShowItems(scr, message, n - 1), supply, hid, message, blocks,
                 n - 1);
      ItemsLast(s, supply, message, hid, blocks, 0, n);
      var last := AssistantItem(before.state, supply, message.role, BlockIndex(blocks, n - 1), message.content[n - 1]);
      BuildsThen(b, HeldStep(before, hid, blocks, n - 1), HeldStep(last, hid, blocks, n), ShowItems(scr, message, n),
                 supply);
    }
  }

  lemma ReleaseMatches(s: State, b: ConversationBoard, scr: Screen, supply: Supply, hid: Option<string>,
                       message: Message, blocks: map<nat, Block>, n: nat)
    requires Settling(s, b, scr, supply, hid, message, blocks, n)
    ensures Matches(s, b, LoosenMessage(scr, message.id), supply)
  {
    var s0, scr' := Holding(s, hid, blocks, n), LoosenMessage(scr, message.id);
    HoldingLive(s, hid, blocks, n);
    HoldingUses(s, hid, blocks, n);
    assert s0.tools == s.tools;
    assert hid.Some? ==> forall k: nat :: LiveAt(s, hid.value, k).None?;
    hide Inv, Holding;
    forall j | 0 <= j < |scr| && scr[j].tag != Loose
      ensures scr'[j].tag == Loose <==> Position(s, scr[j].tag).None?
    {
      assert Position(s0, scr[j].tag) == Some(supply(j));
    }
    LessMatches(s0, b, scr, supply, s, scr');
  }

  lemma AssistantBuilds(s: State, b: ConversationBoard, scr: Screen, supply: Supply, evs: seq<Event>, message: Message)
    requires NeverRepeats(supply) && Inv(s, b, supply) && Matches(s, b, scr, supply) && KnowsModel(s, evs)
    ensures Builds(b, OnAssistant(s, supply, message), Next(Default, scr, evs, Assistant(message)), supply)
  {
    hide NeverRepeats, Inv, Matches, ReportModel, Holding, AssistantItems, ModelKnown, Good, Report, ShowItems;
    var report, told := ReportModel(s, supply, message), Report(scr, evs, message.model);
    ReportBuilds(s, b, scr, supply, evs, message);
    GoodReport(s, b, supply, message);
    GoodGives(s, b, supply, report);
    var s1, b1, n := report.state, Play(b, report.patches), |message.content|;
    var blocks, hid, s2 := StreamedBlocks(s1, message), HeldId(s1, message), Forget(s1, message.id);
    HoldingAtStart(s1, b1, supply, message);
    assert Settling(s2, b1, told, supply, hid, message, blocks, 0);
    ItemsBuild(s2, b1, told, supply, hid, message, blocks, n);
    var items := AssistantItems(s2, supply, message, blocks, 0, n);
    ReleaseMatches(items.state, Play(b1, items.patches), ShowItems(told, message, n), supply, hid, message, blocks, n);
    hide Settling, Detached;
    BuildsThen(b, report, items, LoosenMessage(ShowItems(told, message, n), message.id), supply);
  }

  // ---------- Results ----------

  lemma SlotOfTool(s: State, b: ConversationBoard, scr: Screen, supply: Supply, n: nat)
    requires Inv(s, b, supply) && Matches(s, b, scr, supply) && n < |scr| && scr[n].tag.OfTool?
    ensures var id := scr[n].tag.id;
            && id in s.tools && s.tools[id].index == supply(n)
            && scr[n].entry.ToolEntry? && scr[n].entry.tool == s.tools[id].tool
  {
    assert Position(s, scr[n].tag) == Some(supply(n));
  }

  lemma AnswerIsShow(s: State, b: ConversationBoard, scr: Screen, supply: Supply, item: Item)
    requires NeverRepeats(supply) && Inv(s, b, supply) && Matches(s, b, scr, supply) && item.ToolResult?
    ensures if item.id in s.tools && s.tools[item.id].tool.class_ != Silent then
              var e := ToolEntry(s.tools[item.id].tool, if item.isError == Some(true) then Failed else Success,
                                 Some(item.content));
              Has(scr, OfTool(item.id)) && Answer(scr, item) == Show(scr, OfTool(item.id), e, OfTool(item.id))
            else Answer(scr, item) == scr
  {
    var tag := OfTool(item.id);
    forall n | 0 <= n < |scr| && scr[n].tag == tag
      ensures item.id in s.tools && scr[n].entry.ToolEntry? && scr[n].entry.tool == s.tools[item.id].tool
    {
      SlotOfTool(s, b, scr, supply, n);
    }
    if item.id in s.tools {
      assert Position(s, tag).Some?;
    }
    hide Inv, NeverRepeats, Position;
  }

  lemma ResultBuilds(s: State, b: ConversationBoard, scr: Screen, supply: Supply, item: Item)
    requires NeverRepeats(supply) && Inv(s, b, supply) && Matches(s, b, scr, supply)
    ensures Builds(b, Step(s, ResultPatch(s, item)), Answer(scr, item), supply)
  {
    NextIsFree(s, b, supply);
    if item.ToolResult? { AnswerIsShow(s, b, scr, supply, item); }
    hide Inv, NeverRepeats, Matches, Show, Answer;
    if ResultPatch(s, item) == [] {
      assert Answer(scr, item) == scr by { if !item.ToolResult? { OtherAnswersNothing(scr, item); } }
      BuildsNothing(s, b, scr, supply);
    } else {
      var tag, e := OfTool(item.id), ResultPatch(s, item)[0].entry;
      BuildsShow(s, b, scr, supply, Step(s, ResultPatch(s, item)), tag, e, tag);
    }
  }

  lemma OtherAnswersNothing(scr: Screen, item: Item)
    requires !item.ToolResult?
    ensures Answer(scr, item) == scr
  {
  }

  lemma {:induction false} ResultsBuild(s: State, b: ConversationBoard, scr: Screen, supply: Supply, items: seq<Item>,
                                        n: nat)
    requires NeverRepeats(supply) && Inv(s, b, supply) && Matches(s, b, scr, supply) && n <= |items|
    ensures Builds(b, Step(s, ToolResults(s, items, n)), AnswerAll(scr, items, n), supply)
  {
    hide Inv, NeverRepeats, Matches, Answer, ResultPatch, Good;
    if n == 0 {
      BuildsNothing(s, b, scr, supply);
    } else {
      ResultsBuild(s, b, scr, supply, items, n - 1);
      GoodResults(s, b, supply, items, n - 1);
      var before := Step(s, ToolResults(s, items, n - 1));
      GoodGives(s, b, supply, before);
      ResultBuilds(s, Play(b, before.patches), AnswerAll(scr, items, n - 1), supply, items[n - 1]);
      BuildsThen(b, before, Step(s, ResultPatch(s, items[n - 1])), AnswerAll(scr, items, n), supply);
    }
  }

  // ---------- Streams ----------

  /** What the processor holds of its streams is what the events say. */
  ghost predicate Streams(s: State, evs: seq<Event>) {
    s.current == CurrentOf(evs) && forall m, k: nat :: FollowsTrack(s, m, k, TrackOf(evs, m, k))
  }

  lemma SameMatches(s: State, b: ConversationBoard, scr: Screen, supply: Supply, s': State)
    requires Matches(s, b, scr, supply) && s'.used == s.used && forall tag :: Position(s', tag) == Position(s, tag)
    ensures Matches(s', b, scr, supply)
  {
  }

  /** Message `id` is dropped or starts afresh. */
  lemma DropMatches(s: State, b: ConversationBoard, scr: Screen, supply: Supply, s': State, id: Option<string>)
    requires Matches(s, b, scr, supply) && s'.used == s.used && s'.tools == s.tools
    requires forall m, k: nat :: LiveAt(s', m, k) == if Some(m) == id then None else LiveAt(s, m, k)
    ensures Matches(s', b, LoosenMessage(scr, id), supply)
  {
    var scr' := LoosenMessage(scr, id);
    forall n | 0 <= n < |scr| && scr[n].tag != Loose
      ensures scr'[n].tag == Loose <==> Position(s', scr[n].tag).None?
    {
      assert Position(s, scr[n].tag) == Some(supply(n));
    }
    LessMatches(s, b, scr, supply, s', scr');
  }

  lemma StartBuilds(s: State, b: ConversationBoard, scr: Screen, supply: Supply, evs: seq<Event>, message: Message)
    requires NeverRepeats(supply) && Inv(s, b, supply) && Matches(s, b, scr, supply) && KnowsModel(s, evs)
    ensures Builds(b, OnStream(s, supply, MessageStart(message)),
                   Next(Default, scr, evs, Stream(MessageStart(message))), supply)
  {
    hide Inv, NeverRepeats, Matches, ReportModel, ModelKnown, Report;
    if message.role == "assistant" {
      ReportBuilds(s, b, scr, supply, evs, message);
      var report, told := ReportModel(s, supply, message), Report(scr, evs, message.model);
      DropMatches(report.state, Play(b, report.patches), told, supply, StartMessage(report.state, message), message.id);
    } else {
      SameMatches(s, b, scr, supply, s.(current := None));
      BuildsNothing(s.(current := None), b, scr, supply);
    }
  }

  lemma StopBuilds(s: State, b: ConversationBoard, scr: Screen, supply: Supply, evs: seq<Event>)
    requires Matches(s, b, scr, supply) && s.current == CurrentOf(evs)
    ensures Builds(b, OnStream(s, supply, MessageStop), Next(Default, scr, evs, Stream(MessageStop)), supply)
  {
    hide Matches, CurrentOf;
    var s' := OnStream(s, supply, MessageStop).state;
    DropMatches(s, b, scr, supply, s', s.current);
    BuildsNothing(s', b, LoosenMessage(scr, s.current), supply);
  }

  lemma BlockStartBuilds(s: State, b: ConversationBoard, scr: Screen, supply: Supply, evs: seq<Event>, k: nat,
                         item: Item)
    requires Matches(s, b, scr, supply) && Streams(s, evs)
    ensures Builds(b, OnStream(s, supply, BlockStart(k, item)), Next(Default, scr, evs, Stream(BlockStart(k, item))),
                   supply)
  {
    hide Matches, CurrentOf, TrackOf;
    BuildsNothing(s, b, scr, supply);
    if s.current.Some? {
      var m := s.current.value;
      assert FollowsTrack(s, m, k, TrackOf(evs, m, k));
      if m in s.streaming && (item.TextItem? || item.ThinkingItem?) {
        var x := BlockFromItem(item).value;
        SetBlockLive(s, m, k, x);
        SilentMatches(s, b, scr, supply, SetBlock(s, m, k, x), OfBlock(m, k));
        BuildsNothing(SetBlock(s, m, k, x), b, Loosen(scr, OfBlock(m, k)), supply);
      }
    }
    hide Builds, Loosen;
  }

  /** The patch of a delta shows what was gathered. */
  lemma DeltaShows(s: State, supply: Supply, m: string, ev: Event, k: nat, g: Option<Gathering>)
    requires Follows(s, m, k, g) && IsDelta(ev, k)
    ensures var st, g' := OnDelta(s, supply, m, k, ev.event.delta), Gather(g, ev, k);
            if g'.None? then st == Step(s, [])
            else
              && |st.patches| == 1 && Moves(s, st.state, OfBlock(m, k), OfBlock(m, k), st.patches[0].index)
              && (if LiveAt(s, m, k).Some? then
                    st.patches[0] == Replace(LiveAt(s, m, k).value, ShownAs(g'.value)) && st.state.used == s.used
                  else st.patches[0] == Add(supply(s.used), ShownAs(g'.value)) && st.state.used == s.used + 1)
  {
    var st := OnDelta(s, supply, m, k, ev.event.delta);
    if st.patches != [] {
      var put := s.(used := st.state.used);
      SetBlockLive(put, m, k, st.state.streaming[m].blocks[k]);
      assert st.state == SetBlock(put, m, k, st.state.streaming[m].blocks[k]);
    }
  }

  lemma DeltaBuilds(s: State, b: ConversationBoard, scr: Screen, supply: Supply, evs: seq<Event>, k: nat, delta: Delta)
    requires NeverRepeats(supply) && Inv(s, b, supply) && Matches(s, b, scr, supply) && Streams(s, evs)
    ensures Builds(b, OnStream(s, supply, BlockDelta(k, delta)), Next(Default, scr, evs, Stream(BlockDelta(k, delta))),
                   supply)
  {
    hide CurrentOf, TrackOf, Inv, NeverRepeats, Gather, OnDelta, Moves, Show;
    BuildsNothing(s, b, scr, supply);
    if s.current.Some? && s.current.value in s.streaming {
      var m, ev := s.current.value, Stream(BlockDelta(k, delta));
      var t := TrackOf(evs, m, k);
      assert FollowsTrack(s, m, k, t);
      NextIsFree(s, b, supply);
      DeltaShows(s, supply, m, ev, k, t.g);
      var st, g, tag := OnDelta(s, supply, m, k, delta), Gather(t.g, ev, k), OfBlock(m, k);
      TagIsLive(s, b, scr, supply, m, k);
      if g.Some? {
        BuildsShow(s, b, scr, supply, st, tag, ShownAs(g.value), tag);
      }
    } else if s.current.Some? {
      assert FollowsTrack(s, s.current.value, k, TrackOf(evs, s.current.value, k));
    }
    hide Builds, Matches;
  }

  lemma TagIsLive(s: State, b: ConversationBoard, scr: Screen, supply: Supply, m: string, k: nat)
    requires Matches(s, b, scr, supply)
    ensures Has(scr, OfBlock(m, k)) <==> LiveAt(s, m, k).Some?
    ensures Position(s, OfBlock(m, k)) == LiveAt(s, m, k)
  {
    var tag := OfBlock(m, k);
    if Has(scr, tag) {
      var n :| 0 <= n < |scr| && scr[n].tag == tag;
      assert Position(s, scr[n].tag) == Some(supply(n));
    }
    assert Position(s, tag).Some? ==> Has(scr, tag);
  }

  // ---------- One event ----------

  /** The strategies differ in user texts, which restart, and in failed results. */
  lemma StreamBuilds(s: State, b: ConversationBoard, scr: Screen, supply: Supply, evs: seq<Event>, event: StreamEvent)
    requires NeverRepeats(supply) && Inv(s, b, supply) && Matches(s, b, scr, supply) && Streams(s, evs)
             && KnowsModel(s, evs)
    ensures Builds(b, OnStream(s, supply, event), Next(Default, scr, evs, Stream(event)), supply)
  {
    match event
    case MessageStart(message) => StartBuilds(s, b, scr, supply, evs, message);
    case BlockStart(k, item) => BlockStartBuilds(s, b, scr, supply, evs, k, item);
    case BlockDelta(k, delta) => DeltaBuilds(s, b, scr, supply, evs, k, delta);
    case MessageStop => StopBuilds(s, b, scr, supply, evs);
    case _ => BuildsNothing(s, b, scr, supply);
    hide Builds, NeverRepeats, Inv, Matches, Streams, KnowsModel;
  }

  lemma StrategyIsIrrelevant(strategy: Strategy, scr: Screen, evs: seq<Event>, ev: Event)
    requires ev.Assistant? || ev.Stream?
    ensures Next(strategy, scr, evs, ev) == Next(Default, scr, evs, ev)
  {
    hide Report, ShowItems, LoosenMessage, OnBlock, CurrentOf;
  }

  lemma EventBuilds(strategy: Strategy, s: State, b: ConversationBoard, scr: Screen, supply: Supply, evs: seq<Event>,
                    ev: Event)
    requires NeverRepeats(supply) && Inv(s, b, supply) && Matches(s, b, scr, supply) && Streams(s, evs)
             && KnowsModel(s, evs)
    requires strategy == Default || !Amp.Restarts(ev)
    ensures Builds(b, Normalize(strategy, s, supply, ev), Next(strategy, scr, evs, ev), supply)
  {
    hide NeverRepeats, Inv, Matches, Streams, KnowsModel, Builds, OnAssistant, OnStream;
    match ev
    case Assistant(message) =>
      StrategyIsIrrelevant(strategy, scr, evs, ev);
      AssistantBuilds(s, b, scr, supply, evs, message);
      hide Next;
    case Stream(event) =>
      StrategyIsIrrelevant(strategy, scr, evs, ev);
      StreamBuilds(s, b, scr, supply, evs, event);
      hide Next;
    case User(message) =>
      ResultsBuild(s, b, scr, supply, message.content, |message.content|);
      assert Normalize(strategy, s, supply, ev) == Step(s, ToolResults(s, message.content, |message.content|));
      hide AnswerAll, UserSlots, ToolResults;
    case _ => PlainBuilds(strategy, s, b, scr, supply, evs, ev);
  }

  // ---------- What the processor remembers ----------

  lemma {:induction false} TextsKeepStreams(s: State, supply: Supply, items: seq<Item>, n: nat)
    requires n <= |items|
    ensures var t := UserTexts(s, supply, items, n).state; t.streaming == s.streaming && t.current == s.current
  {
    if n > 0 {
      TextsKeepStreams(s, supply, items, n - 1);
    }
  }

  lemma StrategyKeepsStreams(strategy: Strategy, s: State, supply: Supply, ev: Event)
    ensures var t, u := Normalize(strategy, s, supply, ev).state, NextStep(s, supply, ev).state;
            t.streaming == u.streaming && t.current == u.current
  {
    hide OnAssistant, OnStream, AddAll, PlainEntries, UserTexts, ToolResults;
    match ev
    case Assistant(_) =>
    case Stream(_) =>
    case User(message) =>
      TextsKeepStreams(s, supply, message.content, |message.content|);
      TextsKeepStreams(s.(used := 0, tools := map[]), supply, message.content, |message.content|);
    case _ =>
      var es, es' := PlainEntries(strategy, ev), PlainEntries(Default, ev);
      AddAllKeepsStreams(s, supply, es, |es|);
      AddAllKeepsStreams(s, supply, es', |es'|);
  }

  lemma StreamsMore(strategy: Strategy, s: State, supply: Supply, evs: seq<Event>, ev: Event)
    requires Streams(s, evs)
    ensures Streams(Normalize(strategy, s, supply, ev).state, evs + [ev])
  {
    var t, u := Normalize(strategy, s, supply, ev).state, NextStep(s, supply, ev).state;
    StrategyKeepsStreams(strategy, s, supply, ev);
    hide Normalize, NextStep;
    assert (evs + [ev])[..|evs|] == evs;
    forall m, k: nat
      ensures FollowsTrack(t, m, k, TrackOf(evs + [ev], m, k)) && t.current == CurrentOf(evs + [ev])
    {
      assert FollowsTrack(s, m, k, TrackOf(evs, m, k));
      AnyTrackEvent(s, supply, ev, m, k, TrackOf(evs, m, k));
      hide TrackNext;
      assert FollowsTrack(u, m, k, TrackOf(evs + [ev], m, k));
    }
    assert FollowsTrack(t, "", 0, TrackOf(evs + [ev], "", 0)) && t.current == CurrentOf(evs + [ev]);
  }

  lemma ModelMore(strategy: Strategy, s: State, supply: Supply, evs: seq<Event>, ev: Event)
    requires KnowsModel(s, evs)
    ensures KnowsModel(Normalize(strategy, s, supply, ev).state, evs + [ev])
  {
    ClaudeHistory.EventReports(strategy, s, supply, ev);
    hide Normalize;
    var all := evs + [ev];
    assert NamesModel(ev) <==> ClaudeHistory.ModelOf(ev).Some?;
    hide NamesModel;
    if ModelKnown(evs) {
      var i :| 0 <= i < |evs| && NamesModel(evs[i]);
      assert NamesModel(all[i]);
    }
    if NamesModel(ev) {
      assert NamesModel(all[|evs|]);
    }
    if ModelKnown(all) {
      var i :| 0 <= i < |all| && NamesModel(all[i]);
      assert i < |evs| ==> all[i] == evs[i];
    }
  }

  // ---------- Runs ----------

  /** The processor knows and shows what was read. */
  ghost predicate Reflects(strategy: Strategy, s: State, b: ConversationBoard, h: seq<Reading>, supply: Supply) {
    && Inv(s, b, supply) && Matches(s, b, ScreenOf(strategy, h), supply)
    && Streams(s, Events(h)) && KnowsModel(s, Events(h))
  }

  lemma ReadingReflects(strategy: Strategy, s: State, b: ConversationBoard, h: seq<Reading>, supply: Supply)
    requires NeverRepeats(supply) && h != [] && Reflects(strategy, s, b, h[..|h| - 1], supply)
    requires strategy == Default || !(h[|h| - 1].Decoded? && Amp.Restarts(h[|h| - 1].event))
    ensures var st := StepOf(strategy, s, supply, h[|h| - 1]);
            Disciplined(b, st.patches) && Reflects(strategy, st.state, Play(b, st.patches), h, supply)
  {
    var init, r := h[..|h| - 1], h[|h| - 1];
    var scr, evs := ScreenOf(strategy, init), Events(init);
    hide NeverRepeats, Inv, Matches, Streams, KnowsModel, Normalize, Next;
    match r
    case Decoded(ev) =>
      EventBuilds(strategy, s, b, scr, supply, evs, ev);
      GoodEvent(strategy, s, b, supply, ev);
      StreamsMore(strategy, s, supply, evs, ev);
      ModelMore(strategy, s, supply, evs, ev);
    case Undecoded(text) =>
      SayBuilds(s, b, scr, supply, s.(used := s.used + 1), SystemMessage(text));
      GoodAdd(s, b, supply, SystemMessage(text));
      SameMemory(s, s.(used := s.used + 1), evs);
  }

  lemma SameMemory(s: State, t: State, evs: seq<Event>)
    requires Streams(s, evs) && KnowsModel(s, evs)
    requires t.streaming == s.streaming && t.current == s.current && t.model == s.model
    ensures Streams(t, evs) && KnowsModel(t, evs)
  {
    hide ModelKnown, TrackOf, CurrentOf;
    forall m, k: nat
      ensures FollowsTrack(t, m, k, TrackOf(evs, m, k))
    {
      assert FollowsTrack(s, m, k, TrackOf(evs, m, k));
    }
  }

  lemma StartReflects(strategy: Strategy, supply: Supply)
    ensures Reflects(strategy, INIT, map[], [], supply)
  {
    InitInv(supply);
    hide Inv;
  }

  lemma {:induction false} RunReflects(supply: Supply, h: seq<Reading>)
    requires NeverRepeats(supply)
    ensures var st := RunReadings(Default, INIT, supply, h);
            Disciplined(map[], st.patches) && Reflects(Default, st.state, Play(map[], st.patches), h, supply)
  {
    hide NeverRepeats, Reflects, StepOf;
    if h == [] {
      StartReflects(Default, supply);
    } else {
      RunReflects(supply, h[..|h| - 1]);
      var before := RunReadings(Default, INIT, supply, h[..|h| - 1]);
      ReadingReflects(Default, before.state, Play(map[], before.patches), h, supply);
      PlayAppend(map[], before.patches, StepOf(Default, before.state, supply, h[|h| - 1]).patches);
    }
  }

  /** Over every output, whoever else draws positions: the n-th position drawn shows the n-th entry of the screen, and
      there is nothing else. */
  lemma OutputShows(supply: Supply, parse: Parser, text: string)
    requires NeverRepeats(supply)
    ensures var st, scr := Interpret(Default, supply, parse, text), ScreenOf(Default, ReadOutput(parse, text));
            && Disciplined(map[], st.patches) && st.state.used == |scr|
            && Shows(Play(map[], st.patches), scr, supply) && Holds(Play(map[], st.patches), supply, |scr|)
  {
    hide Interpret, RunReadings, ScreenOf, ReadOutput, NeverRepeats, Streams, KnowsModel, TagsHold, Holds, Shows;
    OutputIsRead(Default, supply, parse, text);
    RunReflects(supply, ReadOutput(parse, text));
  }

  /** The same for every sequence of decoded events. */
  lemma RunShows(supply: Supply, evs: seq<Event>)
    requires NeverRepeats(supply)
    ensures var st, scr := Run(Default, INIT, supply, evs), ScreenOf(Default, AllDecoded(evs));
            && Disciplined(map[], st.patches) && st.state.used == |scr|
            && Shows(Play(map[], st.patches), scr, supply) && Holds(Play(map[], st.patches), supply, |scr|)
  {
    hide Run, RunReadings, ScreenOf, NeverRepeats, Streams, KnowsModel, TagsHold, Holds, Shows, AllDecoded;
    EventsRun(Default, INIT, supply, evs);
    RunReflects(supply, AllDecoded(evs));
  }
}
