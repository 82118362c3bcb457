/** What a Claude conversation says about its past: the model is reported once, the first one named, and the entry
    of every tool use shows the newest use of its id or the last result after it. */
module ClaudeHistory {
  import opened Text
  import opened Conversation
  import opened Claude
  import opened ClaudeProperties

  // ---------- The model ----------

  const MODEL_PREFIX := "System initialized with model: "

  /** The model an event names. */
  function ModelOf(ev: Event): Option<string> {
    match ev
    case Assistant(message) => message.model
    case Stream(MessageStart(message)) => if message.role == "assistant" then message.model else None
    case _ => None
  }

  function FirstModel(evs: seq<Event>): Option<string> {
    if evs == [] then None else if ModelOf(evs[0]).Some? then ModelOf(evs[0]) else FirstModel(evs[1..])
  }

  predicate Reports(e: Entry) {
    e.SystemMessage? && MODEL_PREFIX <= e.content
  }

  /** The model reports among the patches, in order. */
  function ReportsIn(ps: seq<Patch<Entry>>): seq<string> {
    if ps == [] then []
    else (if !ps[0].Remove? && Reports(ps[0].entry) then [ps[0].entry.content] else []) + ReportsIn(ps[1..])
  }

  ghost predicate NoReport(ps: seq<Patch<Entry>>) {
    forall j :: 0 <= j < |ps| ==> ps[j].Remove? || !Reports(ps[j].entry)
  }

  lemma {:induction false} NoReports(ps: seq<Patch<Entry>>)
    requires NoReport(ps)
    ensures ReportsIn(ps) == []
  {
    if ps != [] {
      NoReports(ps[1..]);
    }
  }

  lemma {:induction false} ReportsAppend(ps: seq<Patch<Entry>>, qs: seq<Patch<Entry>>)
    ensures ReportsIn(ps + qs) == ReportsIn(ps) + ReportsIn(qs)
  {
    if ps == [] {
      assert ps + qs == qs;
    } else {
      assert (ps + qs)[1..] == ps[1..] + qs && (ps + qs)[0] == ps[0];
      ReportsAppend(ps[1..], qs);
    }
  }

  lemma {:induction false} ItemsReportNothing(s: State, supply: Supply, message: Message, blocks: map<nat, Block>,
                                              n: nat)
    requires n <= |message.content|
    ensures var st := AssistantItems(s, supply, message, blocks, 0, n);
            NoReport(st.patches) && st.state.model == s.model
  {
    if n > 0 {
      ItemsReportNothing(s, supply, message, blocks, n - 1);
    }
  }

  lemma {:induction false} TextsReportNothing(s: State, supply: Supply, items: seq<Item>, n: nat)
    requires n <= |items|
    ensures var st := UserTexts(s, supply, items, n); NoReport(st.patches) && st.state.model == s.model
  {
    if n > 0 {
      TextsReportNothing(s, supply, items, n - 1);
    }
  }

  lemma {:induction false} ResultsReportNothing(s: State, items: seq<Item>, n: nat)
    requires n <= |items|
    ensures NoReport(ToolResults(s, items, n))
  {
    if n > 0 {
      ResultsReportNothing(s, items, n - 1);
    }
  }

  lemma PlainReportsNothing(strategy: Strategy, ev: Event)
    ensures var es := PlainEntries(strategy, ev); forall j :: 0 <= j < |es| ==> !Reports(es[j])
  {
    assert MODEL_PREFIX[6] == ' ' && MODEL_PREFIX[7] == 'i' && MODEL_PREFIX[0] == 'S';
    var es := PlainEntries(strategy, ev);
    forall j | 0 <= j < |es| && es[j].SystemMessage?
      ensures !(MODEL_PREFIX <= es[j].content)
    {
      var c := es[j].content;
      assert c[0] == 'U' || c[6] == ':' || c[7] == 'm';
    }
  }

  lemma {:induction false} AddAllReportsNothing(s: State, supply: Supply, es: seq<Entry>, n: nat)
    requires n <= |es| && forall j :: 0 <= j < |es| ==> !Reports(es[j])
    ensures var st := AddAll(s, supply, es, n); NoReport(st.patches) && st.state.model == s.model
  {
    if n > 0 {
      AddAllReportsNothing(s, supply, es, n - 1);
    }
  }

  /** One event reports the model it names if none was known, and otherwise nothing. */
  ghost predicate ReportsOnce(s: State, st: Step, named: Option<string>) {
    && st.state.model == (if s.model.Some? then s.model else named)
    && ReportsIn(st.patches) == if s.model.None? && named.Some? then [MODEL_PREFIX + named.value] else []
  }

  lemma ReportModelOnce(s: State, supply: Supply, message: Message)
    ensures ReportsOnce(s, ReportModel(s, supply, message), message.model)
  {
    if s.model.None? && message.model.Some? {
      var p := ReportModel(s, supply, message).patches[0];
      var rest := [p][1..];
      assert ReportModel(s, supply, message).patches == [p] && rest == [];
    }
  }

  lemma AssistantReports(s: State, supply: Supply, message: Message)
    ensures ReportsOnce(s, OnAssistant(s, supply, message), message.model)
  {
    var report := ReportModel(s, supply, message);
    var s1, blocks := Forget(report.state, message.id), StreamedBlocks(report.state, message);
    var items := AssistantItems(s1, supply, message, blocks, 0, |message.content|);
    ReportModelOnce(s, supply, message);
    ItemsReportNothing(s1, supply, message, blocks, |message.content|);
    NoReports(items.patches);
    ReportsAppend(report.patches, items.patches);
    hide ReportModel, AssistantItems, ReportsIn;
  }

  lemma UserReports(strategy: Strategy, s: State, supply: Supply, message: Message)
    ensures ReportsOnce(s, OnUser(strategy, s, supply, message), None)
  {
    var items := message.content;
    var restarted := strategy == AmpResume && HasText(items);
    var start := if restarted then Restart(s, supply, items) else Step(s, []);
    if restarted {
      var cur := supply(s.used);
      var s1 := if cur > 0 then s.(used := 0, tools := map[]) else s;
      TextsReportNothing(s1, supply, items, |items|);
    }
    assert NoReport(start.patches) && start.state.model == s.model;
    ResultsReportNothing(start.state, items, |items|);
    hide Restart;
    NoReports(start.patches + ToolResults(start.state, items, |items|));
  }

  lemma StreamReports(s: State, supply: Supply, ev: StreamEvent)
    ensures ReportsOnce(s, OnStream(s, supply, ev), ModelOf(Stream(ev)))
  {
    match ev
    case MessageStart(message) => if message.role == "assistant" { ReportModelOnce(s, supply, message); }
    case BlockDelta(k, delta) =>
      var st := OnStream(s, supply, ev);
      assert NoReport(st.patches) && st.state.model == s.model;
      NoReports(st.patches);
    case _ =>
  }

  lemma EventReports(strategy: Strategy, s: State, supply: Supply, ev: Event)
    ensures ReportsOnce(s, Normalize(strategy, s, supply, ev), ModelOf(ev))
  {
    match ev
    case Assistant(message) => AssistantReports(s, supply, message);
    case User(message) => UserReports(strategy, s, supply, message);
    case Stream(event) => StreamReports(s, supply, event);
    case _ =>
      var es := PlainEntries(strategy, ev);
      PlainReportsNothing(strategy, ev);
      AddAllReportsNothing(s, supply, es, |es|);
      NoReports(AddAll(s, supply, es, |es|).patches);
    hide OnAssistant, OnUser, OnStream, AddAll, PlainEntries;
  }

  lemma {:induction false} RunReports(strategy: Strategy, s: State, supply: Supply, evs: seq<Event>)
    ensures ReportsOnce(s, Run(strategy, s, supply, evs), FirstModel(evs))
    decreases |evs|
  {
    if evs != [] {
      var first := Normalize(strategy, s, supply, evs[0]);
      EventReports(strategy, s, supply, evs[0]);
      hide Normalize;
      RunReports(strategy, first.state, supply, evs[1..]);
      ReportsAppend(first.patches, Run(strategy, first.state, supply, evs[1..]).patches);
      hide ReportsIn;
    }
  }

  /** Over every run, under either strategy, the model is reported at most once: the first one that an assistant
      message or a message start names. */
  lemma ModelIsReportedOnce(strategy: Strategy, supply: Supply, evs: seq<Event>)
    ensures ReportsIn(Run(strategy, INIT, supply, evs).patches)
            == if FirstModel(evs).Some? then [MODEL_PREFIX + FirstModel(evs).value] else []
  {
    RunReports(strategy, INIT, supply, evs);
  }

  // ---------- Tool uses ----------

  /** The entry of tool use `id` after the first `n` items of an assistant message. */
  function AfterUses(e: Option<Entry>, items: seq<Item>, n: nat, id: string): Option<Entry>
    requires n <= |items|
  {
    if n == 0 then e
    else if items[n - 1].ToolUse? && items[n - 1].id == id then Some(ToolEntry(items[n - 1].tool, Created, None))
    else AfterUses(e, items, n - 1, id)
  }

  /** And after the first `n` items of a user message. */
  function AfterResults(e: Option<Entry>, items: seq<Item>, n: nat, id: string): Option<Entry>
    requires n <= |items|
  {
    if n == 0 then e
    else
      var before, item := AfterResults(e, items, n - 1, id), items[n - 1];
      if && item.ToolResult? && item.id == id && before.Some? && before.value.ToolEntry?
         && before.value.tool.class_ != Silent then
        Some(ToolEntry(before.value.tool, if item.isError == Some(true) then Failed else Success, Some(item.content)))
      else before
  }

  function AfterEvent(e: Option<Entry>, ev: Event, id: string): Option<Entry> {
    match ev
    case Assistant(message) => AfterUses(e, message.content, |message.content|, id)
    case User(message) => AfterResults(e, message.content, |message.content|, id)
    case _ => e
  }

  /** The newest use of the id, or the last result after it. */
  function ToolNow(e: Option<Entry>, evs: seq<Event>, id: string): Option<Entry>
    decreases |evs|
  {
    if evs == [] then e else ToolNow(AfterEvent(e, evs[0], id), evs[1..], id)
  }

  ghost predicate ToolShown(s: State, b: ConversationBoard, id: string, e: Option<Entry>) {
    && (id in s.tools <==> e.Some?)
    && (id in s.tools ==>
          && e.value.ToolEntry? && s.tools[id].tool == e.value.tool
          && s.tools[id].index in b && b[s.tools[id].index] == e.value)
  }

  /** The patches leave every tool entry as it was. */
  ghost predicate SparesTools(b: ConversationBoard, ps: seq<Patch<Entry>>) {
    && Disciplined(b, ps)
    && forall i :: i in b && b[i].ToolEntry? ==> i in Play(b, ps) && Play(b, ps)[i] == b[i]
  }

  lemma SparesOne(b: ConversationBoard, p: Patch<Entry>)
    requires Allowed(b, p) && (p.index in b ==> !b[p.index].ToolEntry?)
    ensures SparesTools(b, [p])
  {
    PlayOne(b, p);
    hide Play, Disciplined;
  }

  lemma SparesMore(b: ConversationBoard, ps: seq<Patch<Entry>>, qs: seq<Patch<Entry>>)
    requires SparesTools(b, ps) && SparesTools(Play(b, ps), qs)
    ensures SparesTools(b, ps + qs)
  {
    PlayAppend(b, ps, qs);
    hide Play, Disciplined;
  }

  lemma ShownSpared(s: State, b: ConversationBoard, id: string, e: Option<Entry>, st: Step)
    requires ToolShown(s, b, id, e) && st.state.tools == s.tools && SparesTools(b, st.patches)
    ensures ToolShown(st.state, Play(b, st.patches), id, e)
  {
    hide Play, Disciplined;
  }

  lemma {:induction false} AddAllSpares(s: State, b: ConversationBoard, supply: Supply, es: seq<Entry>, n: nat)
    requires NeverRepeats(supply) && Inv(s, b, supply) && n <= |es|
    ensures var st := AddAll(s, supply, es, n); SparesTools(b, st.patches) && st.state.tools == s.tools
  {
    if n > 0 {
      AddAllSpares(s, b, supply, es, n - 1);
      GoodAddAll(s, b, supply, es, n - 1);
      var before := AddAll(s, supply, es, n - 1);
      NextIsFree(before.state, Play(b, before.patches), supply);
      SparesOne(Play(b, before.patches), Add(supply(before.state.used), es[n - 1]));
      hide Inv, Good, SparesTools, Play, Disciplined;
      SparesMore(b, before.patches, [Add(supply(before.state.used), es[n - 1])]);
    }
  }

  lemma NextIsFree(s: State, b: ConversationBoard, supply: Supply)
    requires NeverRepeats(supply) && Inv(s, b, supply)
    ensures supply(s.used) !in b
  {
    HoldsNext(b, supply, s.used, SystemMessage(""));
  }

  lemma ReportSpares(s: State, b: ConversationBoard, supply: Supply, message: Message)
    requires NeverRepeats(supply) && Inv(s, b, supply)
    ensures var st := ReportModel(s, supply, message); SparesTools(b, st.patches) && st.state.tools == s.tools
  {
    var st := ReportModel(s, supply, message);
    NextIsFree(s, b, supply);
    if st.patches != [] {
      assert st.patches == [st.patches[0]];
      SparesOne(b, st.patches[0]);
    }
  }

  lemma StreamSpares(s: State, b: ConversationBoard, supply: Supply, ev: StreamEvent)
    requires NeverRepeats(supply) && Inv(s, b, supply)
    ensures var st := OnStream(s, supply, ev); SparesTools(b, st.patches) && st.state.tools == s.tools
  {
    match ev
    case MessageStart(message) => ReportSpares(s, b, supply, message);
    case BlockDelta(k, delta) =>
      if s.current.Some? && s.current.value in s.streaming { DeltaSpares(s, b, supply, s.current.value, k, delta); }
      hide OnDelta;
    case _ =>
    hide ReportModel;
  }

  lemma DeltaSpares(s: State, b: ConversationBoard, supply: Supply, m: string, k: nat, delta: Delta)
    requires NeverRepeats(supply) && Inv(s, b, supply) && m in s.streaming
    ensures var st := OnDelta(s, supply, m, k, delta); SparesTools(b, st.patches) && st.state.tools == s.tools
  {
    var st := OnDelta(s, supply, m, k, delta);
    NextIsFree(s, b, supply);
    if st.patches != [] {
      var p := st.patches[0];
      assert st.patches == [p];
      assert p.Replace? ==> LiveAt(s, m, k) == Some(p.index);
      SparesOne(b, p);
    }
    hide Holds;
  }

  // -- Assistant messages --

  /** The patch of one item goes to a free position or to a streamed block. */
  lemma ItemPatchSpares(s: State, b: ConversationBoard, supply: Supply, hid: Option<string>, role: string,
                        blocks: map<nat, Block>, n: nat, item: Item)
    requires NeverRepeats(supply) && Detached(s, hid, blocks) && Inv(Holding(s, hid, blocks, n), b, supply)
    ensures var st := AssistantItem(s, supply, role, BlockIndex(blocks, n), item);
            st.patches != [] ==>
              var p := st.patches[0];
              st.patches == [p] && Allowed(b, p) && (p.index in b ==> !b[p.index].ToolEntry?)
  {
    hide Holds, NeverRepeats;
    var at := BlockIndex(blocks, n);
    NextIsFree(Holding(s, hid, blocks, n), b, supply);
    HoldingLive(s, hid, blocks, n);
    assert at.Some? ==> LiveAt(Holding(s, hid, blocks, n), hid.value, n) == at;
  }

  lemma AfterOneUse(e: Option<Entry>, items: seq<Item>, n: nat, id: string)
    requires n < |items|
    ensures AfterUses(e, items[n..n + 1], 1, id)
            == if items[n].ToolUse? && items[n].id == id then Some(ToolEntry(items[n].tool, Created, None)) else e
  {
    assert items[n..n + 1] == [items[n]] && AfterUses(e, [items[n]], 0, id) == e;
  }

  lemma ItemShows(s: State, b: ConversationBoard, supply: Supply, hid: Option<string>, message: Message,
                  blocks: map<nat, Block>, n: nat, id: string, e: Option<Entry>)
    requires NeverRepeats(supply) && Detached(s, hid, blocks) && Inv(Holding(s, hid, blocks, n), b, supply)
    requires n < |message.content| && ToolShown(s, b, id, e)
    ensures var st := AssistantItem(s, supply, message.role, BlockIndex(blocks, n), message.content[n]);
            && Disciplined(b, st.patches)
            && ToolShown(st.state, Play(b, st.patches), id, AfterUses(e, message.content[n..n + 1], 1, id))
  {
    hide Inv, Holding, Detached, NeverRepeats, AfterUses, Allowed;
    var item, at := message.content[n], BlockIndex(blocks, n);
    var st := AssistantItem(s, supply, message.role, at, item);
    AfterOneUse(e, message.content, n, id);
    ItemPatchSpares(s, b, supply, hid, message.role, blocks, n, item);
    if st.patches != [] {
      PlayOne(b, st.patches[0]);
      hide Play, Disciplined;
    }
  }

  lemma {:induction false} ItemsShow(s: State, b: ConversationBoard, supply: Supply, hid: Option<string>,
                                     message: Message,
                                     blocks: map<nat, Block>, n: nat, id: string, e: Option<Entry>)
    requires NeverRepeats(supply) && Detached(s, hid, blocks) && Inv(Holding(s, hid, blocks, 0), b, supply)
    requires n <= |message.content| && ToolShown(s, b, id, e)
    ensures var st := AssistantItems(s, supply, message, blocks, 0, n);
            && Disciplined(b, st.patches)
            && ToolShown(st.state, Play(b, st.patches), id, AfterUses(e, message.content, n, id))
  {
    hide Inv, Good, ToolShown, Holding, AssistantItem, Play, Disciplined, Detached, AfterUses, Added;
    if n == 0 {
      PlayNothing(b);
      NoItems(e, message.content, id);
    } else {
      var before := AssistantItems(s, supply, message, blocks, 0, n - 1);
      ItemsShow(s, b, supply, hid, message, blocks, n - 1, id, e);
      GoodItems(s, b, supply, hid, message, blocks, 0, n - 1);
      GoodGives(Holding(s, hid, blocks, 0), b, supply, HeldStep(before, hid, blocks, n - 1));
      var e1 := AfterUses(e, message.content, n - 1, id);
      UsesNext(e, message.content, n - 1, id);
      ItemShows(before.state, Play(b, before.patches), supply, hid, message, blocks, n - 1, id, e1);
      var last := AssistantItem(before.state, supply, message.role, BlockIndex(blocks, n - 1), message.content[n - 1]);
      PlayAppend(b, before.patches, last.patches);
    }
  }

  lemma UsesNext(e: Option<Entry>, items: seq<Item>, n: nat, id: string)
    requires n < |items|
    ensures AfterUses(e, items, n + 1, id) == AfterUses(AfterUses(e, items, n, id), items[n..n + 1], 1, id)
  {
    var one := items[n..n + 1];
    assert one[0] == items[n] && AfterUses(AfterUses(e, items, n, id), one, 0, id) == AfterUses(e, items, n, id);
  }

  lemma AssistantShows(s: State, b: ConversationBoard, supply: Supply, message: Message, id: string, e: Option<Entry>)
    requires NeverRepeats(supply) && Inv(s, b, supply) && ToolShown(s, b, id, e)
    ensures var st := OnAssistant(s, supply, message);
            && Disciplined(b, st.patches)
            && ToolShown(st.state, Play(b, st.patches), id, AfterUses(e, message.content, |message.content|, id))
  {
    var report := ReportModel(s, supply, message);
    ReportSpares(s, b, supply, message);
    GoodReport(s, b, supply, message);
    ShownSpared(s, b, id, e, report);
    var s1, b1 := report.state, Play(b, report.patches);
    var blocks, hid, s2 := StreamedBlocks(s1, message), HeldId(s1, message), Forget(s1, message.id);
    HoldingAtStart(s1, b1, supply, message);
    assert ToolShown(s2, b1, id, e);
    hide Inv, ToolShown, Holding, AssistantItems, Play, Disciplined, AfterUses, ReportModel, SparesTools;
    ItemsShow(s2, b1, supply, hid, message, blocks, |message.content|, id, e);
    var items := AssistantItems(s2, supply, message, blocks, 0, |message.content|);
    PlayAppend(b, report.patches, items.patches);
  }

  // -- A tool id that is used again --

  ghost predicate Vacant(s: State, i: nat) {
    forall x :: x in s.tools ==> s.tools[x].index != i
  }

  /** Position `i` shows tool entry `e`, and no tool but `id` waits there. */
  ghost predicate OnlyOf(s: State, b: ConversationBoard, i: nat, id: string, e: Entry) {
    i in b && b[i] == e && e.ToolEntry? && forall x :: x in s.tools && s.tools[x].index == i ==> x == id
  }

  predicate UsedAgain(items: seq<Item>, n: nat, id: string)
    requires n <= |items|
  {
    exists j :: 0 <= j < n && items[j].ToolUse? && items[j].id == id
  }

  lemma ItemAbandons(s: State, b: ConversationBoard, supply: Supply, hid: Option<string>, role: string,
                     blocks: map<nat, Block>, n: nat, item: Item, i: nat, id: string, e: Entry)
    requires NeverRepeats(supply) && Detached(s, hid, blocks) && Inv(Holding(s, hid, blocks, n), b, supply)
    requires OnlyOf(s, b, i, id, e)
    ensures var st := AssistantItem(s, supply, role, BlockIndex(blocks, n), item);
            && Disciplined(b, st.patches) && OnlyOf(st.state, Play(b, st.patches), i, id, e)
            && ((item.ToolUse? && item.id == id) || Vacant(s, i) ==> Vacant(st.state, i))
  {
    hide Inv, Holding, Detached, NeverRepeats;
    var st := AssistantItem(s, supply, role, BlockIndex(blocks, n), item);
    ItemPatchSpares(s, b, supply, hid, role, blocks, n, item);
    if st.patches != [] {
      PlayOne(b, st.patches[0]);
      hide Play, Disciplined;
    }
  }

  lemma {:induction false} ItemsAbandon(s: State, b: ConversationBoard, supply: Supply, hid: Option<string>,
                                        message: Message, blocks: map<nat, Block>, n: nat, i: nat, id: string, e: Entry)
    requires NeverRepeats(supply) && Detached(s, hid, blocks) && Inv(Holding(s, hid, blocks, 0), b, supply)
    requires n <= |message.content| && OnlyOf(s, b, i, id, e)
    ensures var st := AssistantItems(s, supply, message, blocks, 0, n);
            && Disciplined(b, st.patches) && OnlyOf(st.state, Play(b, st.patches), i, id, e)
            && (UsedAgain(message.content, n, id) ==> Vacant(st.state, i))
  {
    hide Inv, Good, OnlyOf, Holding, AssistantItem, Play, Disciplined, Detached, Added, Vacant;
    if n == 0 {
      PlayNothing(b);
    } else {
      var before := AssistantItems(s, supply, message, blocks, 0, n - 1);
      ItemsAbandon(s, b, supply, hid, message, blocks, n - 1, i, id, e);
      GoodItems(s, b, supply, hid, message, blocks, 0, n - 1);
      GoodGives(Holding(s, hid, blocks, 0), b, supply, HeldStep(before, hid, blocks, n - 1));
      var item := message.content[n - 1];
      ItemAbandons(before.state, Play(b, before.patches), supply, hid, message.role, blocks, n - 1, item, i, id, e);
      var last := AssistantItem(before.state, supply, message.role, BlockIndex(blocks, n - 1), item);
      PlayAppend(b, before.patches, last.patches);
    }
  }

  lemma ReportAbandons(s: State, b: ConversationBoard, supply: Supply, message: Message, id: string)
    requires NeverRepeats(supply) && Inv(s, b, supply) && id in s.tools
    ensures var report, i := ReportModel(s, supply, message), s.tools[id].index;
            && Disciplined(b, report.patches) && i in b
            && OnlyOf(Forget(report.state, message.id), Play(b, report.patches), i, id, b[i])
  {
    GoodReport(s, b, supply, message);
    HoldsNext(b, supply, s.used, SystemMessage(""));
    var report := ReportModel(s, supply, message);
    if report.patches != [] { PlayOne(b, report.patches[0]); }
    hide Holds, NeverRepeats, StreamsOk, Good;
  }

  /** When a tool id is used again, its older entry keeps what it showed: nothing will come back to it. */
  lemma ReusedToolSettles(s: State, b: ConversationBoard, supply: Supply, message: Message, id: string)
    requires NeverRepeats(supply) && Inv(s, b, supply) && id in s.tools
    requires UsedAgain(message.content, |message.content|, id)
    ensures var st, i := Normalize(Default, s, supply, Assistant(message)), s.tools[id].index;
            && Disciplined(b, st.patches) && i in b && i in Play(b, st.patches)
            && Play(b, st.patches)[i] == b[i] && Settled(st.state, i)
  {
    hide Inv, Holding, AssistantItems, Play, Disciplined, ReportModel, OnlyOf, Vacant, UsedAgain, Settled, Good;
    var report, i := ReportModel(s, supply, message), s.tools[id].index;
    GoodReport(s, b, supply, message);
    GoodGives(s, b, supply, report);
    ReportAbandons(s, b, supply, message, id);
    var s1, b1 := report.state, Play(b, report.patches);
    var blocks, hid, s2 := StreamedBlocks(s1, message), HeldId(s1, message), Forget(s1, message.id);
    HoldingAtStart(s1, b1, supply, message);
    ItemsAbandon(s2, b1, supply, hid, message, blocks, |message.content|, i, id, b[i]);
    var items := AssistantItems(s2, supply, message, blocks, 0, |message.content|);
    PlayAppend(b, report.patches, items.patches);
    GoodAssistant(s, b, supply, message);
    GoodGives(s, b, supply, OnAssistant(s, supply, message));
    VacantIsSettled(items.state, Play(b1, items.patches), supply, i, id, b[i]);
  }

  lemma VacantIsSettled(s: State, b: ConversationBoard, supply: Supply, i: nat, id: string, e: Entry)
    requires Inv(s, b, supply) && OnlyOf(s, b, i, id, e) && Vacant(s, i)
    ensures Settled(s, i) && i in b && b[i] == e
  {
    hide Holds, ToolsOk;
  }

  // -- User messages --

  lemma ResultShows(s: State, b: ConversationBoard, supply: Supply, item: Item, id: string, e: Option<Entry>)
    requires Inv(s, b, supply) && ToolShown(s, b, id, e)
    ensures Disciplined(b, ResultPatch(s, item))
    ensures ToolShown(s, Play(b, ResultPatch(s, item)), id, AfterResults(e, [item], 1, id))
  {
    var ps := ResultPatch(s, item);
    assert AfterResults(e, [item], 0, id) == e;
    if ps != [] {
      assert ps == [ps[0]];
      PlayOne(b, ps[0]);
      hide Play, Disciplined;
    }
    hide Holds, StreamsOk;
  }

  lemma {:induction false} ResultsShow(s: State, b: ConversationBoard, supply: Supply, items: seq<Item>, n: nat,
                                       id: string, e: Option<Entry>)
    requires Inv(s, b, supply) && n <= |items| && ToolShown(s, b, id, e)
    ensures var ps := ToolResults(s, items, n);
            Disciplined(b, ps) && ToolShown(s, Play(b, ps), id, AfterResults(e, items, n, id))
  {
    hide Inv, Good, ToolShown, ResultPatch, Play, Disciplined, AfterResults, Added;
    if n == 0 {
      PlayNothing(b);
      NoItems(e, items, id);
    } else {
      var before, last := ToolResults(s, items, n - 1), ResultPatch(s, items[n - 1]);
      ResultsShow(s, b, supply, items, n - 1, id, e);
      GoodResults(s, b, supply, items, n - 1);
      GoodGives(s, b, supply, Step(s, before));
      ResultsNext(e, items, n - 1, id);
      ResultShows(s, Play(b, before), supply, items[n - 1], id, AfterResults(e, items, n - 1, id));
      PlayAppend(b, before, last);
    }
  }

  lemma NoItems(e: Option<Entry>, items: seq<Item>, id: string)
    ensures AfterUses(e, items, 0, id) == e && AfterResults(e, items, 0, id) == e
  {
  }

  lemma ResultsNext(e: Option<Entry>, items: seq<Item>, n: nat, id: string)
    requires n < |items|
    ensures AfterResults(e, items, n + 1, id) == AfterResults(AfterResults(e, items, n, id), [items[n]], 1, id)
  {
    var e1, one := AfterResults(e, items, n, id), [items[n]];
    assert AfterResults(e1, one, 0, id) == e1;
  }

  // -- Runs --

  lemma EventShows(s: State, b: ConversationBoard, supply: Supply, ev: Event, id: string, e: Option<Entry>)
    requires NeverRepeats(supply) && Inv(s, b, supply) && ToolShown(s, b, id, e)
    ensures var st := Normalize(Default, s, supply, ev);
            Disciplined(b, st.patches) && ToolShown(st.state, Play(b, st.patches), id, AfterEvent(e, ev, id))
  {
    var st := Normalize(Default, s, supply, ev);
    match ev
    case Assistant(message) => AssistantShows(s, b, supply, message, id, e);
    case User(message) =>
      ResultsShow(s, b, supply, message.content, |message.content|, id, e);
      assert [] + ToolResults(s, message.content, |message.content|)
             == ToolResults(s, message.content, |message.content|);
    case Stream(event) =>
      StreamSpares(s, b, supply, event);
      ShownSpared(s, b, id, e, st);
    case _ =>
      var es := PlainEntries(Default, ev);
      AddAllSpares(s, b, supply, es, |es|);
      ShownSpared(s, b, id, e, st);
    hide Inv, ToolShown, OnAssistant, OnStream, AddAll, ToolResults, Play, Disciplined, AfterUses, AfterResults;
    hide PlainEntries;
  }

  /** Over every run: an id has an entry exactly when it was used, and the entry shows its newest use, or the last
      result after it with its content and whether it failed. */
  lemma {:induction false} ToolsShowTheirLast(s: State, b: ConversationBoard, supply: Supply, evs: seq<Event>,
                                              id: string, e: Option<Entry>)
    requires NeverRepeats(supply) && Inv(s, b, supply) && ToolShown(s, b, id, e)
    ensures var st := Run(Default, s, supply, evs);
            Disciplined(b, st.patches) && ToolShown(st.state, Play(b, st.patches), id, ToolNow(e, evs, id))
    decreases |evs|
  {
    if evs != [] {
      var first := Normalize(Default, s, supply, evs[0]);
      EventShows(s, b, supply, evs[0], id, e);
      GoodEvent(Default, s, b, supply, evs[0]);
      hide Inv, ToolShown, Normalize, Disciplined, Play, AfterEvent;
      ToolsShowTheirLast(first.state, Play(b, first.patches), supply, evs[1..], id, AfterEvent(e, evs[0], id));
      PlayAppend(b, first.patches, Run(Default, first.state, supply, evs[1..]).patches);
    } else {
      PlayNothing(b);
    }
  }

  lemma PlayNothing(b: ConversationBoard)
    ensures Disciplined(b, []) && Play(b, []) == b
  {
  }
}
