/** Cursor's JSON lines: assistant and thinking chunks are gathered into one entry each until another kind of
    event comes, and a completed tool call replaces the entry of the call that was started. */
module Cursor {
  import opened Text
  import opened Conversation

  datatype Kind = Assistant | Thinking

  /** A line that is not JSON is `Raw`; a chunk without text has the text "". */
  datatype Event =
    | Raw(line: string)
    | System(model: Option<string>)
    | User
    | Speech(kind: Kind, text: string)
    | ToolStarted(call: Option<string>, summary: string)
    | ToolCompleted(call: Option<string>, summary: string)
    | ToolOther
    | Result
    | Unknown(line: string)

  datatype Entry =
    | SystemEntry(content: string)
    | SpeechEntry(kind: Kind, content: string)
    | ToolEntry(summary: string, done: bool)

  /** A message being gathered. */
  datatype Live = Live(index: Option<nat>, buffer: string)

  const IDLE := Live(None, "")

  datatype State = State(modelReported: bool, assistant: Live, thinking: Live, calls: map<string, nat>, used: nat)

  const INIT := State(false, IDLE, IDLE, map[], 0)

  datatype Step = Step(state: State, patches: seq<Patch<Entry>>)

  function Of(s: State, kind: Kind): Live {
    if kind.Assistant? then s.assistant else s.thinking
  }

  function With(s: State, kind: Kind, l: Live): State {
    if kind.Assistant? then s.(assistant := l) else s.(thinking := l)
  }

  predicate Continues(ev: Event, kind: Kind) {
    ev.Raw? || (ev.Speech? && ev.kind == kind)
  }

  function Kept(l: Live, keep: bool): Live {
    if !keep && l.index.Some? then IDLE else l
  }

  /** Every parsed event ends the messages it does not continue. */
  function Interrupt(s: State, ev: Event): State {
    s.(assistant := Kept(s.assistant, Continues(ev, Assistant)), thinking := Kept(s.thinking, Continues(ev, Thinking)))
  }

  function Append(s: State, supply: Supply, kind: Kind, text: string): Step {
    var l := Of(s, kind);
    var e := SpeechEntry(kind, l.buffer + text);
    if l.index.Some? then Step(With(s, kind, Live(l.index, l.buffer + text)), [Replace(l.index.value, e)])
    else Step(With(s.(used := s.used + 1), kind, Live(Some(supply(s.used)), l.buffer + text)), [Add(supply(s.used), e)])
  }

  function AddEntry(s: State, supply: Supply, e: Entry): Step {
    Step(s.(used := s.used + 1), [Add(supply(s.used), e)])
  }

  function ModelEntry(model: string): Entry {
    SystemEntry("System initialized with model: " + model)
  }

  function OnStarted(s: State, supply: Supply, call: Option<string>, summary: string): Step {
    AddEntry(if call.Some? then s.(calls := s.calls[call.value := supply(s.used)]) else s, supply,
             ToolEntry(summary, false))
  }

  function OnParsed(s: State, supply: Supply, ev: Event): Step {
    match ev
    case System(model) =>
      if !s.modelReported && model.Some? then AddEntry(s.(modelReported := true), supply, ModelEntry(model.value))
      else Step(s, [])
    case Speech(kind, text) => if text != "" then Append(s, supply, kind, text) else Step(s, [])
    case ToolStarted(call, summary) => OnStarted(s, supply, call, summary)
    case ToolCompleted(call, summary) =>
      if call.Some? && call.value in s.calls then Step(s, [Replace(s.calls[call.value], ToolEntry(summary, true))])
      else Step(s, [])
    case Unknown(line) => AddEntry(s, supply, SystemEntry(line))
    case _ => Step(s, [])
  }

  function Normalize(s: State, supply: Supply, ev: Event): Step {
    if ev.Raw? then (if ev.line != "" then AddEntry(s, supply, SystemEntry(ev.line)) else Step(s, []))
    else OnParsed(Interrupt(s, ev), supply, ev)
  }

  function Run(supply: Supply, evs: seq<Event>): Step {
    if evs == [] then Step(INIT, [])
    else
      var before := Run(supply, evs[..|evs| - 1]);
      var last := Normalize(before.state, supply, evs[|evs| - 1]);
      Step(last.state, before.patches + last.patches)
  }

  // ---------- The loop ----------

  class Normalizer {
    var modelReported: bool
    var assistantIndex: Option<nat>
    var assistantBuffer: string
    var thinkingIndex: Option<nat>
    var thinkingBuffer: string
    var calls: map<string, nat>

    constructor ()
      ensures View(0) == INIT
    {
      modelReported, assistantIndex, assistantBuffer := false, None, "";
      thinkingIndex, thinkingBuffer, calls := None, "", map[];
    }

    ghost function View(used: nat): State
      reads this
    {
      State(modelReported, Live(assistantIndex, assistantBuffer), Live(thinkingIndex, thinkingBuffer), calls, used)
    }

    method AddNew(e: Entry, provider: IndexProvider) returns (patches: seq<Patch<Entry>>)
      modifies provider
      ensures Step(View(provider.used), patches) == AddEntry(old(View(provider.used)), provider.supply, e)
    {
      var id := provider.Next();
      patches := [Add(id, e)];
    }

    method AppendAssistant(text: string, provider: IndexProvider) returns (patches: seq<Patch<Entry>>)
      modifies this`assistantIndex, this`assistantBuffer, provider
      ensures Step(View(provider.used), patches) == Append(old(View(provider.used)), provider.supply, Assistant, text)
    {
      assistantBuffer := assistantBuffer + text;
      var e := SpeechEntry(Assistant, assistantBuffer);
      if assistantIndex.Some? {
        patches := [Replace(assistantIndex.value, e)];
      } else {
        var id := provider.Next();
        assistantIndex := Some(id);
        patches := [Add(id, e)];
      }
    }

    method AppendThinking(text: string, provider: IndexProvider) returns (patches: seq<Patch<Entry>>)
      modifies this`thinkingIndex, this`thinkingBuffer, provider
      ensures Step(View(provider.used), patches) == Append(old(View(provider.used)), provider.supply, Thinking, text)
    {
      thinkingBuffer := thinkingBuffer + text;
      var e := SpeechEntry(Thinking, thinkingBuffer);
      if thinkingIndex.Some? {
        patches := [Replace(thinkingIndex.value, e)];
      } else {
        var id := provider.Next();
        thinkingIndex := Some(id);
        patches := [Add(id, e)];
      }
    }

    method Flush(ev: Event)
      requires !ev.Raw?
      modifies this`assistantIndex, this`assistantBuffer, this`thinkingIndex, this`thinkingBuffer
      ensures forall used :: View(used) == Interrupt(old(View(used)), ev)
    {
      if !(ev.Speech? && ev.kind.Assistant?) && assistantIndex.Some? {
        assistantIndex, assistantBuffer := None, "";
      }
      if !(ev.Speech? && ev.kind.Thinking?) && thinkingIndex.Some? {
        thinkingIndex, thinkingBuffer := None, "";
      }
    }

    method Handle(ev: Event, provider: IndexProvider) returns (patches: seq<Patch<Entry>>)
      modifies this, provider
      ensures Step(View(provider.used), patches) == Normalize(old(View(provider.used)), provider.supply, ev)
    {
      patches := [];
      if ev.Raw? {
        if ev.line != "" { patches := AddNew(SystemEntry(ev.line), provider); }
        return;
      }
      Flush(ev);
      hide Append, Interrupt;
      match ev {
        case System(model) =>
          if !modelReported && model.Some? {
            patches := AddNew(ModelEntry(model.value), provider);
            modelReported := true;
          }
        case Speech(kind, text) =>
          if text != "" {
            if kind.Assistant? {
              patches := AppendAssistant(text, provider);
            } else {
              patches := AppendThinking(text, provider);
            }
          }
        case ToolStarted(call, summary) =>
          var id := provider.Next();
          if call.Some? { calls := calls[call.value := id]; }
          patches := [Add(id, ToolEntry(summary, false))];
        case ToolCompleted(call, summary) =>
          if call.Some? && call.value in calls { patches := [Replace(calls[call.value], ToolEntry(summary, true))]; }
        case Unknown(line) => patches := AddNew(SystemEntry(line), provider);
        case _ =>
      }
    }
  }

  method NormalizeLines(evs: seq<Event>, provider: IndexProvider) returns (patches: seq<Patch<Entry>>)
    requires provider.used == 0
    modifies provider
    ensures patches == Run(provider.supply, evs).patches && provider.used == Run(provider.supply, evs).state.used
  {
    hide Normalize;
    var n := new Normalizer();
    patches := [];
    for i := 0 to |evs|
      invariant fresh(n) && Step(n.View(provider.used), patches) == Run(provider.supply, evs[..i])
    {
      var more := n.Handle(evs[i], provider);
      assert evs[..i + 1][..i] == evs[..i];
      patches := patches + more;
    }
    assert evs[..|evs|] == evs;
  }

  // ---------- Over every run ----------

  ghost predicate LiveShown(l: Live, kind: Kind, b: Board<Entry>) {
    if l.index.Some? then l.index.value in b && b[l.index.value] == SpeechEntry(kind, l.buffer) else l.buffer == ""
  }

  ghost predicate CallsShown(s: State, b: Board<Entry>) {
    forall id :: id in s.calls ==> s.calls[id] in b && b[s.calls[id]].ToolEntry?
  }

  /** Live messages show what was gathered, and calls point to tool entries. */
  ghost predicate Inv(s: State, b: Board<Entry>, supply: Supply) {
    && Holds(b, supply, s.used)
    && (forall kind :: LiveShown(Of(s, kind), kind, b))
    && CallsShown(s, b)
  }

  /** A message that is no longer gathered. */
  ghost predicate Settled(s: State, b: Board<Entry>, i: nat) {
    i in b && b[i].SpeechEntry? && Of(s, b[i].kind).index != Some(i)
  }

  ghost predicate Good(used: nat, b: Board<Entry>, supply: Supply, st: Step) {
    && Disciplined(b, st.patches) && used <= st.state.used
    && Added(st.patches) == Handed(supply, used, st.state.used)
    && Inv(st.state, Play(b, st.patches), supply)
  }

  ghost predicate Stays(s: State, b: Board<Entry>, st: Step, i: nat)
    requires Disciplined(b, st.patches)
  {
    Settled(s, b, i) ==> Settled(st.state, Play(b, st.patches), i) && Play(b, st.patches)[i] == b[i]
  }

  lemma QuietGood(s: State, b: Board<Entry>, supply: Supply, i: nat)
    requires Inv(s, b, supply)
    ensures Good(s.used, b, supply, Step(s, [])) && Stays(s, b, Step(s, []), i)
  {
    hide Holds, CallsShown;
  }

  /** A new entry, when the state before and after agree on everything that was there. */
  lemma AddGood(s: State, b: Board<Entry>, supply: Supply, t: State, e: Entry, i: nat)
    requires NeverRepeats(supply) && Inv(s, b, supply) && t.used == s.used + 1
    requires forall kind :: Of(t, kind) == Of(s, kind)
                            || (Of(s, kind) == IDLE && e == SpeechEntry(kind, Of(t, kind).buffer)
                                && Of(t, kind).index == Some(supply(s.used)))
    requires forall id :: id in t.calls ==>
               (id in s.calls && t.calls[id] == s.calls[id]) || (t.calls[id] == supply(s.used) && e.ToolEntry?)
    ensures Good(s.used, b, supply, Step(t, [Add(supply(s.used), e)]))
            && Stays(s, b, Step(t, [Add(supply(s.used), e)]), i)
  {
    var j := supply(s.used);
    HoldsNext(b, supply, s.used, e);
    PlayOne(b, Add(j, e));
    var b' := b[j := e];
    hide Holds, NeverRepeats;
    forall kind
      ensures LiveShown(Of(t, kind), kind, b')
    {
      assert LiveShown(Of(s, kind), kind, b);
    }
    assert CallsShown(t, b');
    if Settled(s, b, i) {
      assert i != j && LiveShown(Of(s, b[i].kind), b[i].kind, b);
    }
  }

  lemma ReplaceGood(s: State, b: Board<Entry>, supply: Supply, t: State, p: Patch<Entry>, i: nat)
    requires NeverRepeats(supply) && Inv(s, b, supply) && t.used == s.used && t.calls == s.calls && p.Replace?
    requires p.index in b && (if p.entry.SpeechEntry? then Of(s, p.entry.kind).index == Some(p.index)
                              else b[p.index].ToolEntry? && p.entry.ToolEntry?)
    requires forall kind :: if p.entry.SpeechEntry? && kind == p.entry.kind
                            then Of(t, kind) == Live(Some(p.index), p.entry.content)
                            else Of(t, kind) == Of(s, kind)
    ensures Good(s.used, b, supply, Step(t, [p])) && Stays(s, b, Step(t, [p]), i)
  {
    PlayOne(b, p);
    var b' := b[p.index := p.entry];
    assert b'.Keys == b.Keys;
    forall kind
      ensures LiveShown(Of(t, kind), kind, b')
    {
      assert LiveShown(Of(s, kind), kind, b);
    }
    if p.entry.SpeechEntry? {
      assert LiveShown(Of(s, p.entry.kind), p.entry.kind, b);
    }
    assert CallsShown(t, b');
    assert Holds(b', supply, t.used);
  }

  lemma InterruptGood(s: State, b: Board<Entry>, supply: Supply, ev: Event, i: nat)
    requires Inv(s, b, supply)
    ensures Inv(Interrupt(s, ev), b, supply) && Interrupt(s, ev).used == s.used
    ensures Settled(s, b, i) ==> Settled(Interrupt(s, ev), b, i)
  {
    var t := Interrupt(s, ev);
    hide Holds;
    forall kind
      ensures LiveShown(Of(t, kind), kind, b)
    {
      assert LiveShown(Of(s, kind), kind, b);
    }
  }

  lemma AppendGood(s: State, b: Board<Entry>, supply: Supply, kind: Kind, text: string, i: nat)
    requires NeverRepeats(supply) && Inv(s, b, supply)
    ensures var st := Append(s, supply, kind, text); Good(s.used, b, supply, st) && Stays(s, b, st, i)
  {
    hide Holds, CallsShown, NeverRepeats, Good, Disciplined;
    var l, st := Of(s, kind), Append(s, supply, kind, text);
    assert LiveShown(l, kind, b);
    if l.index.Some? {
      ReplaceGood(s, b, supply, st.state, Replace(l.index.value, SpeechEntry(kind, l.buffer + text)), i);
    } else {
      AddGood(s, b, supply, st.state, SpeechEntry(kind, l.buffer + text), i);
    }
  }

  lemma ParsedGood(s: State, b: Board<Entry>, supply: Supply, ev: Event, i: nat)
    requires NeverRepeats(supply) && Inv(s, b, supply)
    ensures var st := OnParsed(s, supply, ev); Good(s.used, b, supply, st) && Stays(s, b, st, i)
  {
    hide Holds, NeverRepeats, Good, Disciplined, LiveShown, Append;
    QuietGood(s, b, supply, i);
    match ev
    case System(model) =>
      if !s.modelReported && model.Some? {
        AddGood(s, b, supply, s.(modelReported := true, used := s.used + 1), ModelEntry(model.value), i);
      }
    case Speech(kind, text) => AppendGood(s, b, supply, kind, text, i);
    case ToolStarted(call, summary) =>
      AddGood(s, b, supply, OnStarted(s, supply, call, summary).state, ToolEntry(summary, false), i);
    case ToolCompleted(call, summary) =>
      if call.Some? && call.value in s.calls {
        ReplaceGood(s, b, supply, s, Replace(s.calls[call.value], ToolEntry(summary, true)), i);
      }
    case Unknown(line) => AddGood(s, b, supply, s.(used := s.used + 1), SystemEntry(line), i);
    case _ =>
  }

  /** One event keeps the rules and leaves settled messages alone. */
  lemma EventGood(s: State, b: Board<Entry>, supply: Supply, ev: Event, i: nat)
    requires NeverRepeats(supply) && Inv(s, b, supply)
    ensures var st := Normalize(s, supply, ev); Good(s.used, b, supply, st) && Stays(s, b, st, i)
  {
    hide Inv, Good, Disciplined, OnParsed, Interrupt;
    if ev.Raw? {
      QuietGood(s, b, supply, i);
      if ev.line != "" { RawGood(s, b, supply, ev.line, i); }
    } else {
      InterruptGood(s, b, supply, ev, i);
      ParsedGood(Interrupt(s, ev), b, supply, ev, i);
    }
  }

  lemma RawGood(s: State, b: Board<Entry>, supply: Supply, line: string, i: nat)
    requires NeverRepeats(supply) && Inv(s, b, supply)
    ensures var st := AddEntry(s, supply, SystemEntry(line)); Good(s.used, b, supply, st) && Stays(s, b, st, i)
  {
    AddGood(s, b, supply, s.(used := s.used + 1), SystemEntry(line), i);
    hide Good, Inv, Stays;
  }

  /** Over every run, whoever else draws positions: each position drawn is added exactly once, replaces name
      positions added before, and a completed call only ever replaces the entry of a tool. */
  lemma {:induction false} RunGood(supply: Supply, evs: seq<Event>)
    requires NeverRepeats(supply)
    ensures Good(0, map[], supply, Run(supply, evs))
  {
    hide Inv, Normalize;
    if evs == [] {
      StartGood(supply);
    } else {
      RunGood(supply, evs[..|evs| - 1]);
      var before := Run(supply, evs[..|evs| - 1]);
      var last := Normalize(before.state, supply, evs[|evs| - 1]);
      var b := Play(map[], before.patches);
      EventGood(before.state, b, supply, evs[|evs| - 1], 0);
      PlayAppend(map[], before.patches, last.patches);
      HandedAppend(supply, 0, before.state.used, last.state.used);
    }
  }

  lemma StartGood(supply: Supply)
    ensures Inv(INIT, map[], supply)
  {
    forall i: nat
      ensures !IsHanded(supply, 0, i)
    {
    }
  }

  // ---------- Messages ----------

  function Texts(evs: seq<Event>, kind: Kind): string {
    if evs == [] then ""
    else Texts(evs[..|evs| - 1], kind)
         + if evs[|evs| - 1].Speech? && evs[|evs| - 1].kind == kind then evs[|evs| - 1].text else ""
  }

  /** Chunks of one kind, possibly with lines that are not JSON in between. */
  ghost predicate OneMessage(evs: seq<Event>, kind: Kind) {
    forall k :: 0 <= k < |evs| ==> Continues(evs[k], kind)
  }

  ghost function BoardOf(supply: Supply, evs: seq<Event>): Board<Entry>
    requires NeverRepeats(supply)
  {
    RunGood(supply, evs);
    Play(map[], Run(supply, evs).patches)
  }

  lemma RunMore(supply: Supply, evs: seq<Event>, ev: Event)
    requires NeverRepeats(supply)
    ensures var before := Run(supply, evs); var last := Normalize(before.state, supply, ev);
            && Run(supply, evs + [ev]) == Step(last.state, before.patches + last.patches)
            && Disciplined(BoardOf(supply, evs), last.patches)
            && BoardOf(supply, evs + [ev]) == Play(BoardOf(supply, evs), last.patches)
  {
    hide Normalize, Inv;
    RunGood(supply, evs);
    EventGood(Run(supply, evs).state, BoardOf(supply, evs), supply, ev, 0);
    assert (evs + [ev])[..|evs|] == evs;
    PlayAppend(map[], Run(supply, evs).patches, Normalize(Run(supply, evs).state, supply, ev).patches);
  }

  /** What a chunk or a raw line does to the message being gathered. */
  lemma ContinueKeeps(s: State, supply: Supply, ev: Event, kind: Kind)
    requires Continues(ev, kind)
    ensures var l, t := Of(s, kind), Normalize(s, supply, ev).state;
            && Of(t, kind).buffer == l.buffer + Texts([ev], kind)
            && (Of(t, kind).index == if l.index.None? && Texts([ev], kind) != "" then Some(supply(s.used)) else l.index)
  {
    var init := [ev][..0];
    assert init == [] && Texts([ev], kind) == Texts(init, kind) + if ev.Speech? then ev.text else "";
    var l := Of(s, kind);
    assert l.buffer + "" == l.buffer;
    hide Texts;
  }

  lemma LiveIs(supply: Supply, evs: seq<Event>, kind: Kind)
    requires NeverRepeats(supply)
    ensures LiveShown(Of(Run(supply, evs).state, kind), kind, BoardOf(supply, evs))
  {
    RunGood(supply, evs);
    hide Run, Holds, CallsShown, Disciplined;
  }

  /** Nothing is being gathered after an event that does not continue the message. */
  lemma IdleAfter(supply: Supply, evs: seq<Event>, end: Event, kind: Kind)
    requires NeverRepeats(supply) && !Continues(end, kind)
    ensures Of(Run(supply, evs + [end]).state, kind) == IDLE
  {
    RunMore(supply, evs, end);
    LiveIs(supply, evs, kind);
    hide Run, BoardOf, Disciplined, Normalize;
    EndIdles(Run(supply, evs).state, supply, end, kind);
  }

  lemma EndIdles(s: State, supply: Supply, end: Event, kind: Kind)
    requires !Continues(end, kind) && (Of(s, kind).index.None? ==> Of(s, kind).buffer == "")
    ensures Of(Normalize(s, supply, end).state, kind) == IDLE
  {
  }

  lemma TextsAppend(evs: seq<Event>, ev: Event, kind: Kind)
    ensures Texts(evs + [ev], kind) == Texts(evs, kind) + Texts([ev], kind)
  {
    assert (evs + [ev])[..|evs|] == evs && [ev][..0] == [];
  }

  lemma LastOf(before: seq<Event>, message: seq<Event>)
    requires message != []
    ensures var init, ev := message[..|message| - 1], message[|message| - 1];
            before + message == before + init + [ev] && message == init + [ev]
  {
  }

  lemma {:induction false} BufferGathers(supply: Supply, before: seq<Event>, message: seq<Event>, kind: Kind)
    requires NeverRepeats(supply) && OneMessage(message, kind) && Of(Run(supply, before).state, kind) == IDLE
    ensures var l := Of(Run(supply, before + message).state, kind);
            l.buffer == Texts(message, kind) && (l.index.Some? <==> Texts(message, kind) != "")
  {
    hide Run, Normalize, BoardOf, Disciplined, Of, Play;
    if message == [] {
      assert before + message == before;
    } else {
      hide Texts;
      var init, ev := message[..|message| - 1], message[|message| - 1];
      BufferGathers(supply, before, init, kind);
      LastOf(before, message);
      RunMore(supply, before + init, ev);
      ContinueKeeps(Run(supply, before + init).state, supply, ev, kind);
      TextsAppend(init, ev, kind);
    }
  }

  /** The patches that the chunks of a message make. */
  ghost function ChunkPatches(supply: Supply, before: seq<Event>, message: seq<Event>): seq<Patch<Entry>> {
    if message == [] then []
    else
      var init, ev := message[..|message| - 1], message[|message| - 1];
      ChunkPatches(supply, before, init)
      + if ev.Speech? then Normalize(Run(supply, before + init).state, supply, ev).patches else []
  }

  /** One chunk makes one patch: at the position of the message, or at the next one if it has none. */
  lemma ChunkPatch(s: State, supply: Supply, ev: Event, kind: Kind)
    requires Continues(ev, kind)
    ensures var st := Normalize(s, supply, ev);
            OnePosition(Of(s, kind).index, Of(st.state, kind).index, if ev.Speech? then st.patches else [])
  {
    var st := Normalize(s, supply, ev);
    assert Of(Interrupt(s, ev), kind) == Of(s, kind);
    if ev.Speech? && ev.text != "" {
      AddedOne(st.patches[0]);
      assert st.patches == [st.patches[0]];
    }
  }

  /** However many chunks a message has, they add one position, and otherwise replace there. */
  lemma {:induction false} ChunksAddOnce(supply: Supply, before: seq<Event>, message: seq<Event>, kind: Kind)
    requires NeverRepeats(supply) && OneMessage(message, kind) && Of(Run(supply, before).state, kind) == IDLE
    ensures OnePosition(None, Of(Run(supply, before + message).state, kind).index,
                        ChunkPatches(supply, before, message))
  {
    hide Run, Normalize, BoardOf, Disciplined, Of, Play;
    if message == [] {
      assert before + message == before;
    } else {
      var init, ev := message[..|message| - 1], message[|message| - 1];
      ChunksAddOnce(supply, before, init, kind);
      LastOf(before, message);
      RunMore(supply, before + init, ev);
      var s := Run(supply, before + init).state;
      var st := Normalize(s, supply, ev);
      ChunkPatch(s, supply, ev, kind);
      OneMorePatch(None, Of(s, kind).index, Of(st.state, kind).index,
                   ChunkPatches(supply, before, init), if ev.Speech? then st.patches else []);
      hide OnePosition;
    }
  }

  /** That position was free before the message. */
  lemma {:induction false} MessageAppears(supply: Supply, before: seq<Event>, message: seq<Event>, kind: Kind)
    requires NeverRepeats(supply) && OneMessage(message, kind) && Of(Run(supply, before).state, kind) == IDLE
    ensures var l := Of(Run(supply, before + message).state, kind);
            l.index.Some? ==> l.index.value !in BoardOf(supply, before)
    ensures BoardOf(supply, before).Keys <= BoardOf(supply, before + message).Keys
  {
    hide Run, Normalize, BoardOf, Disciplined, Of, Play, Inv;
    if message == [] {
      assert before + message == before;
    } else {
      var init, ev := message[..|message| - 1], message[|message| - 1];
      MessageAppears(supply, before, init, kind);
      LastOf(before, message);
      var s, b := Run(supply, before + init).state, BoardOf(supply, before + init);
      RunMore(supply, before + init, ev);
      PlayGrows(b, Normalize(s, supply, ev).patches);
      BoardIs(supply, before + init);
      NextIsFree(s, b, supply);
      ContinueKeeps(s, supply, ev, kind);
      hide Texts;
    }
  }

  /** While chunks of one kind keep coming, one entry shows all of them joined: their patches add one position,
      free before, and otherwise replace there. */
  lemma MessageGathers(supply: Supply, before: seq<Event>, message: seq<Event>, kind: Kind)
    requires NeverRepeats(supply) && OneMessage(message, kind) && Of(Run(supply, before).state, kind) == IDLE
    ensures var l, b := Of(Run(supply, before + message).state, kind), BoardOf(supply, before + message);
            && l.buffer == Texts(message, kind) && (l.index.Some? <==> Texts(message, kind) != "")
            && (l.index.Some? ==> l.index.value in b && b[l.index.value] == SpeechEntry(kind, Texts(message, kind)))
            && (l.index.Some? ==> l.index.value !in BoardOf(supply, before))
            && OnePosition(None, l.index, ChunkPatches(supply, before, message))
  {
    hide Run, Normalize, BoardOf, Disciplined, Of, Texts, OnePosition, ChunkPatches;
    LiveIs(supply, before + message, kind);
    BufferGathers(supply, before, message, kind);
    ChunksAddOnce(supply, before, message, kind);
    MessageAppears(supply, before, message, kind);
  }

  lemma {:induction false} SettledStays(supply: Supply, evs: seq<Event>, later: seq<Event>, i: nat)
    requires NeverRepeats(supply) && Settled(Run(supply, evs).state, BoardOf(supply, evs), i)
    ensures Settled(Run(supply, evs + later).state, BoardOf(supply, evs + later), i)
    ensures BoardOf(supply, evs + later)[i] == BoardOf(supply, evs)[i]
    decreases |later|
  {
    hide Run, Normalize, BoardOf, Inv, Disciplined;
    if later == [] {
      assert evs + later == evs;
    } else {
      var init, ev := later[..|later| - 1], later[|later| - 1];
      SettledStays(supply, evs, init, i);
      RunMore(supply, evs + init, ev);
      assert evs + init + [ev] == evs + later;
      BoardIs(supply, evs + init);
      EventGood(Run(supply, evs + init).state, BoardOf(supply, evs + init), supply, ev, i);
    }
  }

  lemma BoardIs(supply: Supply, evs: seq<Event>)
    requires NeverRepeats(supply)
    ensures Inv(Run(supply, evs).state, BoardOf(supply, evs), supply)
  {
    RunGood(supply, evs);
  }

  /** Consecutive chunks of one kind, ended by any other parsed event, become exactly one entry: their patches add
      one position, free before, and go nowhere else; it holds all their text, and nothing that follows changes
      it. */
  lemma MessageBecomesOneEntry(supply: Supply, before: seq<Event>, message: seq<Event>, end: Event, later: seq<Event>,
                               kind: Kind)
    requires NeverRepeats(supply) && OneMessage(message, kind) && Of(Run(supply, before).state, kind) == IDLE
    requires !Continues(end, kind) && Texts(message, kind) != ""
    ensures var i := Of(Run(supply, before + message).state, kind).index;
            var b := BoardOf(supply, before + message + [end] + later);
            && i.Some? && i.value !in BoardOf(supply, before)
            && OnePosition(None, i, ChunkPatches(supply, before, message))
            && i.value in b && b[i.value] == SpeechEntry(kind, Texts(message, kind))
  {
    var evs := before + message;
    var s, b := Run(supply, evs).state, BoardOf(supply, evs);
    MessageGathers(supply, before, message, kind);
    var i := Of(s, kind).index.value;
    BoardIs(supply, evs);
    EndSettles(s, b, supply, end, kind);
    RunMore(supply, evs, end);
    hide Run, Normalize, BoardOf, Inv, Disciplined, OnePosition, ChunkPatches;
    SettledStays(supply, evs + [end], later, i);
  }

  lemma EndSettles(s: State, b: Board<Entry>, supply: Supply, end: Event, kind: Kind)
    requires NeverRepeats(supply) && Inv(s, b, supply) && Of(s, kind).index.Some? && !Continues(end, kind)
    ensures var i := Of(s, kind).index.value; var st := Normalize(s, supply, end);
            && Disciplined(b, st.patches) && Settled(st.state, Play(b, st.patches), i)
            && Play(b, st.patches)[i] == SpeechEntry(kind, Of(s, kind).buffer)
  {
    var i, t := Of(s, kind).index.value, Interrupt(s, end);
    assert LiveShown(Of(s, kind), kind, b);
    InterruptGood(s, b, supply, end, i);
    assert Settled(t, b, i);
    ParsedGood(t, b, supply, end, i);
    hide OnParsed, Interrupt, Inv;
  }

  lemma PlayIsBoardAfter(s: State, b: Board<Entry>, supply: Supply, ev: Event)
    requires Disciplined(b, Normalize(s, supply, ev).patches)
    ensures var ps := Normalize(s, supply, ev).patches; Play(b, ps) == BoardAfter(b, ps)
  {
    var ps := Normalize(s, supply, ev).patches;
    assert |ps| <= 1;
    hide Normalize;
    PlayAtMostOne(b, ps);
  }

  lemma NextIsFree(s: State, b: Board<Entry>, supply: Supply)
    requires NeverRepeats(supply) && Inv(s, b, supply)
    ensures supply(s.used) !in b
  {
    HoldsNext(b, supply, s.used, SystemEntry(""));
  }
}
