/** The Amp strategy: a thread is replayed on resume, so a user text removes every entry and starts over.
    The processor has the provider to itself here. */
module AmpResume {
  import opened Text
  import opened Conversation
  import opened Claude
  import opened ClaudeProperties

  function BoardOf(c: seq<Entry>): Board<Entry> {
    map i: nat | i < |c| :: c[i]
  }

  /** The conversation as an array, in step with the processor: in particular the counter is its length. */
  ghost predicate InStep(s: State, c: seq<Entry>) {
    Inv(s, BoardOf(c), Own)
  }

  lemma CounterIsLength(s: State, c: seq<Entry>)
    requires InStep(s, c)
    ensures s.used == |c|
  {
    HoldsNext(BoardOf(c), Own, s.used, SystemMessage(""));
    assert Own(s.used) !in BoardOf(c);
    assert |c| < s.used ==> IsHanded(Own, s.used, Own(|c|));
  }

  predicate Restarts(ev: Event) {
    ev.User? && HasText(ev.message.content)
  }

  // ---------- Events that do not restart ----------

  lemma PlainStep(s: State, c: seq<Entry>, ev: Event)
    requires InStep(s, c) && !Restarts(ev)
    ensures var st := Normalize(AmpResume, s, Own, ev);
            && FitsAll(c, st.patches) && InStep(st.state, ApplyAll(c, st.patches))
            && KeepsSettled(s, BoardOf(c), st.state, BoardOf(ApplyAll(c, st.patches)))
  {
    hide Normalize, Inv, KeepsSettled;
    var st := Normalize(AmpResume, s, Own, ev);
    GoodEvent(AmpResume, s, BoardOf(c), Own, ev);
    CounterIsLength(s, c);
    MirrorsPlay(BoardOf(c), c, st.patches);
    assert Play(BoardOf(c), st.patches) == BoardOf(ApplyAll(c, st.patches));
  }

  // ---------- The restart ----------

  function TextsOf(items: seq<Item>): seq<Entry> {
    if items == [] then []
    else TextsOf(items[..|items| - 1])
         + if items[|items| - 1].TextItem? then [UserMessage(items[|items| - 1].text)] else []
  }

  lemma {:induction false} RemovalsEmpty(c: seq<Entry>)
    ensures FitsAll(c, Removals(|c|)) && ApplyAll(c, Removals(|c|)) == []
  {
    if c != [] {
      assert Removals(|c|)[0] == Remove(0) && Removals(|c|)[1..] == Removals(|c| - 1);
      assert Apply(c, Remove(0)) == c[1..];
      RemovalsEmpty(c[1..]);
    }
  }

  lemma {:induction false} ApplyAppend(c: seq<Entry>, ps: seq<Patch<Entry>>, qs: seq<Patch<Entry>>)
    requires FitsAll(c, ps) && FitsAll(ApplyAll(c, ps), qs)
    ensures FitsAll(c, ps + qs) && ApplyAll(c, ps + qs) == ApplyAll(ApplyAll(c, ps), qs)
    decreases |ps|
  {
    if ps == [] {
      assert ps + qs == qs;
    } else {
      assert (ps + qs)[1..] == ps[1..] + qs;
      ApplyAppend(Apply(c, ps[0]), ps[1..], qs);
    }
  }

  lemma AppendOne(c: seq<Entry>, e: Entry)
    ensures FitsAll(c, [Add(|c|, e)]) && ApplyAll(c, [Add(|c|, e)]) == c + [e]
  {
    var rest := [Add(|c|, e)][1..];
    assert rest == [] && Apply(c, Add(|c|, e)) == c + [e];
  }

  lemma TextsMore(items: seq<Item>, n: nat)
    requires 0 < n <= |items|
    ensures TextsOf(items[..n])
            == TextsOf(items[..n - 1]) + if items[n - 1].TextItem? then [UserMessage(items[n - 1].text)] else []
  {
    assert items[..n][..n - 1] == items[..n - 1];
  }

  lemma {:induction false} UserTextsBuild(s: State, items: seq<Item>, n: nat)
    requires s.used == 0 && n <= |items|
    ensures var st := UserTexts(s, Own, items, n);
            && FitsAll([], st.patches) && ApplyAll([], st.patches) == TextsOf(items[..n])
            && st.state == s.(used := |TextsOf(items[..n])|)
  {
    if n > 0 {
      hide FitsAll, ApplyAll, TextsOf;
      UserTextsBuild(s, items, n - 1);
      TextsMore(items, n);
      var before, c := UserTexts(s, Own, items, n - 1), TextsOf(items[..n - 1]);
      if items[n - 1].TextItem? {
        var e := UserMessage(items[n - 1].text);
        AppendOne(c, e);
        ApplyAppend([], before.patches, [Add(|c|, e)]);
      } else {
        assert c + [] == c;
      }
    }
  }

  lemma {:induction false} NoToolsNoResults(s: State, items: seq<Item>, n: nat)
    requires s.tools == map[] && n <= |items|
    ensures ToolResults(s, items, n) == []
  {
    if n > 0 {
      NoToolsNoResults(s, items, n - 1);
    }
  }

  /** Removing at index 0 as often as the counter says empties the conversation exactly; what follows is
      the user's texts, and the tools are forgotten. */
  lemma ClearedFirst(s: State, c: seq<Entry>, items: seq<Item>)
    requires s.used == |c| && (c == [] ==> s.tools == map[])
    ensures Restart(s, Own, items)
            == Then(Step(s.(used := 0, tools := map[]), Removals(|c|)),
                    UserTexts(s.(used := 0, tools := map[]), Own, items, |items|))
  {
    hide UserTexts;
    assert c == [] ==> Removals(0) == [];
  }

  lemma NoToolsWhenEmpty(s: State, c: seq<Entry>)
    requires InStep(s, c)
    ensures c == [] ==> s.tools == map[]
  {
    assert forall id :: id in s.tools ==> s.tools[id].index in BoardOf(c);
  }

  lemma RestartIs(s: State, c: seq<Entry>, ev: Event)
    requires InStep(s, c) && Restarts(ev)
    ensures var texts := UserTexts(s.(used := 0, tools := map[]), Own, ev.message.content, |ev.message.content|);
            Normalize(AmpResume, s, Own, ev) == Step(texts.state, Removals(|c|) + texts.patches)
  {
    hide InStep, UserTexts, ToolResults, Restart;
    var items := ev.message.content;
    var s1 := s.(used := 0, tools := map[]);
    CounterIsLength(s, c);
    NoToolsWhenEmpty(s, c);
    ClearedFirst(s, c, items);
    UserTextsBuild(s1, items, |items|);
    var texts := UserTexts(s1, Own, items, |items|);
    NoToolsNoResults(texts.state, items, |items|);
    assert Removals(|c|) + texts.patches + [] == Removals(|c|) + texts.patches;
  }

  lemma RestartStartsOver(s: State, c: seq<Entry>, ev: Event)
    requires InStep(s, c) && Restarts(ev)
    ensures var st := Normalize(AmpResume, s, Own, ev);
            && FitsAll(c, st.patches) && ApplyAll(c, st.patches) == TextsOf(ev.message.content)
            && st.state == s.(tools := map[], used := |TextsOf(ev.message.content)|)
  {
    hide Normalize, InStep, UserTexts, FitsAll, ApplyAll, TextsOf;
    var items := ev.message.content;
    var s1 := s.(used := 0, tools := map[]);
    RestartIs(s, c, ev);
    RemovalsEmpty(c);
    UserTextsBuild(s1, items, |items|);
    assert items[..|items|] == items;
    ApplyAppend(c, Removals(|c|), UserTexts(s1, Own, items, |items|).patches);
  }

  ghost predicate NothingLive(s: State) {
    forall m, k: nat :: LiveAt(s, m, k).None?
  }

  lemma {:induction false} TextsAreUserMessages(items: seq<Item>, i: nat)
    requires i < |TextsOf(items)|
    ensures TextsOf(items)[i].UserMessage?
  {
    if i < |TextsOf(items[..|items| - 1])| {
      TextsAreUserMessages(items[..|items| - 1], i);
    }
  }

  /** A restart keeps the processor in step with the conversation exactly when no block was being
      streamed: it forgets the tools but not the streams. */
  lemma RestartKeepsInStep(s: State, c: seq<Entry>, ev: Event)
    requires InStep(s, c) && Restarts(ev)
    ensures var st := Normalize(AmpResume, s, Own, ev);
            FitsAll(c, st.patches) && (InStep(st.state, ApplyAll(c, st.patches)) <==> NothingLive(s))
  {
    RestartStartsOver(s, c, ev);
    var s', c' := Normalize(AmpResume, s, Own, ev).state, TextsOf(ev.message.content);
    hide Normalize, FitsAll, ApplyAll, TextsOf;
    forall i: nat | i < |c'|
      ensures c'[i].UserMessage?
    {
      TextsAreUserMessages(ev.message.content, i);
    }
    RestartedInStep(s, s', c');
  }

  lemma RestartedInStep(s: State, s': State, c': seq<Entry>)
    requires (forall i: nat :: i < |c'| ==> c'[i].UserMessage?) && s' == s.(tools := map[], used := |c'|)
    requires forall m :: m in s.streaming ==> s.streaming[m].role == "assistant"
    ensures InStep(s', c') <==> NothingLive(s)
  {
    assert forall m, k: nat :: LiveAt(s', m, k) == LiveAt(s, m, k);
    OwnHolds(c');
    if !NothingLive(s) {
      var m, k: nat :| LiveAt(s, m, k).Some?;
      var i := LiveAt(s', m, k).value;
      assert i in BoardOf(c') ==> BoardOf(c')[i] != Shown(s'.streaming[m].blocks[k]);
    }
    hide Holds;
  }

  lemma OwnHolds(c: seq<Entry>)
    ensures Holds(BoardOf(c), Own, |c|)
  {
    forall i: nat
      ensures i in BoardOf(c) <==> IsHanded(Own, |c|, i)
    {
      assert i < |c| ==> Own(i) == i;
    }
  }

  // ---------- What a restart with live blocks can do ----------

  ghost predicate NoRestarts(evs: seq<Event>) {
    forall j :: 0 <= j < |evs| ==> !Restarts(evs[j])
  }

  /** The events after a restart apply to the conversation and leave what it holds alone. */
  ghost predicate Unharmed(s: State, c: seq<Entry>, evs: seq<Event>) {
    var ps := Run(AmpResume, s, Own, evs).patches;
    FitsAll(c, ps) && |c| <= |ApplyAll(c, ps)| && forall i :: 0 <= i < |c| ==> ApplyAll(c, ps)[i] == c[i]
  }

  ghost predicate KeepsFirst(c: seq<Entry>, c': seq<Entry>, s: State) {
    forall i: nat :: i < |c| && Settled(s, i) ==> i < |c'| && c'[i] == c[i]
  }

  lemma {:induction false} PlainRun(s: State, c: seq<Entry>, evs: seq<Event>)
    requires InStep(s, c) && NoRestarts(evs)
    ensures var ps := Run(AmpResume, s, Own, evs).patches; FitsAll(c, ps) && KeepsFirst(c, ApplyAll(c, ps), s)
    decreases |evs|
  {
    if evs != [] {
      var first := Normalize(AmpResume, s, Own, evs[0]);
      PlainStep(s, c, evs[0]);
      hide Normalize, Inv, Settled;
      var c1 := ApplyAll(c, first.patches);
      var rest := Run(AmpResume, first.state, Own, evs[1..]);
      PlainRun(first.state, c1, evs[1..]);
      ApplyAppend(c, first.patches, rest.patches);
      hide ApplyAll, FitsAll;
      forall i: nat | i < |c| && Settled(s, i)
        ensures i < |ApplyAll(c1, rest.patches)| && ApplyAll(c1, rest.patches)[i] == c[i]
      {
        assert i in BoardOf(c) && BoardOf(c)[i] == c[i];
        assert i in BoardOf(c1) && BoardOf(c1)[i] == c1[i];
      }
    }
  }

  /** A final message for `m` whose items up to `k` show nothing. */
  function Overwriting(m: string, k: nat): Message {
    Message(Some(m), "assistant", None, seq(k, _ => ToolResult("", "", None)) + [TextItem("")])
  }

  lemma {:induction false} SilentItems(s: State, m: string, k: nat, blocks: map<nat, Block>, n: nat)
    requires n <= k
    ensures AssistantItems(s, Own, Overwriting(m, k), blocks, 0, n) == Step(s, [])
  {
    if n > 0 {
      SilentItems(s, m, k, blocks, n - 1);
    }
  }

  lemma OverwritingPatch(s: State, m: string, k: nat, i: nat)
    requires LiveAt(s, m, k) == Some(i)
    ensures Normalize(AmpResume, s, Own, Assistant(Overwriting(m, k))).patches == [Replace(i, AssistantMessage(""))]
  {
    var message := Overwriting(m, k);
    var blocks, s2 := StreamedBlocks(s, message), Forget(s, message.id);
    SilentItems(s2, m, k, blocks, k);
    assert message.content[k] == TextItem("") && |message.content| == k + 1;
    var e: Entry := AssistantMessage("");
    assert AssistantItem(s2, Own, "assistant", Some(i), TextItem("")) == Step(s2, [Replace(i, e)]);
    hide AssistantItem;
    assert AssistantItems(s2, Own, message, blocks, 0, k + 1).patches == [] + [Replace(i, e)];
  }

  lemma LiveBlockHarms(s: State, c: seq<Entry>, m: string, k: nat)
    requires LiveAt(s, m, k).Some? && forall i: nat :: i < |c| ==> c[i].UserMessage?
    ensures NoRestarts([Assistant(Overwriting(m, k))]) && !Unharmed(s, c, [Assistant(Overwriting(m, k))])
  {
    var ev, i := Assistant(Overwriting(m, k)), LiveAt(s, m, k).value;
    OverwritingPatch(s, m, k, i);
    var p: Patch<Entry> := Replace(i, AssistantMessage(""));
    var rest := [ev][1..];
    var none := [p][1..];
    assert rest == [] && none == [];
    hide Normalize;
    assert Run(AmpResume, s, Own, [ev]).patches == [p] + [] == [p];
    hide Run;
    assert FitsAll(c, [p]) ==> i < |c| && ApplyAll(c, [p]) == c[i := p.entry];
    hide FitsAll, ApplyAll;
    assert FitsAll(c, [p]) ==> ApplyAll(c, [p])[i] == p.entry != c[i];
  }

  /** Seen from outside: after a restart every continuation without another restart applies to the conversation and
      leaves the user's texts alone, if and only if nothing was being streamed. */
  lemma RestartIsSafeIff(s: State, c: seq<Entry>, ev: Event)
    requires InStep(s, c) && Restarts(ev)
    ensures var st := Normalize(AmpResume, s, Own, ev); var texts := TextsOf(ev.message.content);
            NothingLive(s) <==> forall evs :: NoRestarts(evs) ==> Unharmed(st.state, texts, evs)
  {
    RestartStartsOver(s, c, ev);
    RestartKeepsInStep(s, c, ev);
    var s', c' := Normalize(AmpResume, s, Own, ev).state, TextsOf(ev.message.content);
    hide Normalize, TextsOf, Run, Inv, FitsAll, ApplyAll;
    if NothingLive(s) {
      AllSettled(s, s');
      hide Settled, NothingLive;
      forall evs | NoRestarts(evs)
        ensures Unharmed(s', c', evs)
      {
        PlainRun(s', c', evs);
        KeptIsLonger(s', c', ApplyAll(c', Run(AmpResume, s', Own, evs).patches));
      }
    } else {
      var m, k: nat :| LiveAt(s, m, k).Some?;
      assert LiveAt(s', m, k) == LiveAt(s, m, k);
      forall i: nat | i < |c'|
        ensures c'[i].UserMessage?
      {
        TextsAreUserMessages(ev.message.content, i);
      }
      hide NothingLive, Unharmed;
      LiveBlockHarms(s', c', m, k);
    }
  }

  lemma AllSettled(s: State, s': State)
    requires NothingLive(s) && s'.streaming == s.streaming && s'.tools == map[]
    ensures forall i: nat :: Settled(s', i)
  {
    assert forall m, k: nat :: LiveAt(s', m, k) == LiveAt(s, m, k);
  }

  lemma KeptIsLonger(s: State, c: seq<Entry>, c': seq<Entry>)
    requires KeepsFirst(c, c', s) && forall i: nat :: Settled(s, i)
    ensures |c| <= |c'| && forall i :: 0 <= i < |c| ==> c'[i] == c[i]
  {
    hide Settled;
    if |c| > 0 {
      assert Settled(s, |c| - 1);
    }
  }

  /** Block 0 of message "m" shows `text` at position 0. */
  function Showing(text: string): State {
    State(None, map[], map["m" := Streaming("assistant", map[0 := Block(TextBlock, text, Some(0))])], Some("m"), 1)
  }

  lemma FirstDelta(t: string)
    ensures var s := State(None, map[], map["m" := Streaming("assistant", map[])], Some("m"), 0);
            OnDelta(s, Own, "m", 0, TextDelta(t)) == Step(Showing(t), [Add(0, AssistantMessage(t))])
  {
    assert "" + t == t;
  }

  lemma NextDelta(t: string, u: string)
    ensures OnDelta(Showing(t), Own, "m", 0, TextDelta(u))
            == Step(Showing(t + u), [Replace(0, AssistantMessage(t + u))])
  {
    var s, b := Showing(t), Block(TextBlock, t + u, Some(0));
    assert s.streaming["m"].blocks[0 := b] == map[0 := b];
    assert SetBlock(s, "m", 0, b) == Showing(t + u);
  }

  /** What goes wrong otherwise: a delta that arrives after the restart overwrites the user's message. */
  lemma StaleStreamOverwrites()
    ensures Run(AmpResume, INIT, Own,
                [Stream(MessageStart(Message(Some("m"), "assistant", None, []))),
                 Stream(BlockDelta(0, TextDelta("a"))),
                 User(Message(None, "user", None, [TextItem("hi")])),
                 Stream(BlockDelta(0, TextDelta("b")))]).patches
         == [Add(0, AssistantMessage("a")), Remove(0), Add(0, UserMessage("hi")), Replace(0, AssistantMessage("ab"))]
  {
    var e1, e2 := Stream(MessageStart(Message(Some("m"), "assistant", None, []))),
      Stream(BlockDelta(0, TextDelta("a")));
    var e3, e4 := User(Message(None, "user", None, [TextItem("hi")])), Stream(BlockDelta(0, TextDelta("b")));
    StaleSteps();
    hide Normalize, Showing;
    RunFour(e1, e2, e3, e4);
  }

  lemma StaleSteps()
    ensures var s1 := State(None, map[], map["m" := Streaming("assistant", map[])], Some("m"), 0);
            && Normalize(AmpResume, INIT, Own, Stream(MessageStart(Message(Some("m"), "assistant", None, []))))
               == Step(s1, [])
            && Normalize(AmpResume, s1, Own, Stream(BlockDelta(0, TextDelta("a"))))
               == Step(Showing("a"), [Add(0, AssistantMessage("a"))])
            && Normalize(AmpResume, Showing("a"), Own, User(Message(None, "user", None, [TextItem("hi")])))
               == Step(Showing("a"), [Remove(0), Add(0, UserMessage("hi"))])
            && Normalize(AmpResume, Showing("a"), Own, Stream(BlockDelta(0, TextDelta("b"))))
               == Step(Showing("ab"), [Replace(0, AssistantMessage("ab"))])
  {
    FirstDelta("a");
    RestartAfterOne(Showing("a"), "hi");
    NextDelta("a", "b");
    assert "a" + "b" == "ab";
  }

  lemma RestartAfterOne(s: State, text: string)
    requires s.used == 1 && s.tools == map[]
    ensures Normalize(AmpResume, s, Own, User(Message(None, "user", None, [TextItem(text)])))
         == Step(s, [Remove(0), Add(0, UserMessage(text))])
  {
    var items, s0 := [TextItem(text)], s.(used := 0);
    assert items[0].TextItem? && HasText(items);
    assert Removals(1) == [Remove(0)];
    assert UserTexts(s0, Own, items, 0) == Step(s0, []);
    assert UserTexts(s0, Own, items, 1) == Step(s, [Add(0, UserMessage(text))]);
    NoToolsNoResults(s, items, 1);
  }

  lemma RunFour(e1: Event, e2: Event, e3: Event, e4: Event)
    ensures var a := Normalize(AmpResume, INIT, Own, e1);
            var b := Normalize(AmpResume, a.state, Own, e2);
            var c := Normalize(AmpResume, b.state, Own, e3);
            Run(AmpResume, INIT, Own, [e1, e2, e3, e4]).patches
            == a.patches + b.patches + c.patches + Normalize(AmpResume, c.state, Own, e4).patches
  {
    hide Normalize;
    var a := Normalize(AmpResume, INIT, Own, e1);
    var b := Normalize(AmpResume, a.state, Own, e2);
    var c := Normalize(AmpResume, b.state, Own, e3);
    var d := Normalize(AmpResume, c.state, Own, e4);
    assert [e1, e2, e3, e4][1..] == [e2, e3, e4] && [e2, e3, e4][1..] == [e3, e4] && [e3, e4][1..] == [e4];
    assert [e4][1..] == [];
    assert Run(AmpResume, c.state, Own, [e4]).patches == d.patches;
    assert Run(AmpResume, b.state, Own, [e3, e4]).patches == c.patches + d.patches;
    assert Run(AmpResume, a.state, Own, [e2, e3, e4]).patches == b.patches + (c.patches + d.patches);
  }

  // ---------- Runs without streaming ----------

  ghost predicate Calm(s: State) {
    s.streaming == map[] && s.current == None
  }

  ghost predicate NoStreams(evs: seq<Event>) {
    forall j :: 0 <= j < |evs| ==> !evs[j].Stream?
  }

  lemma CalmStep(s: State, c: seq<Entry>, ev: Event)
    requires InStep(s, c) && Calm(s) && !ev.Stream?
    ensures var st := Normalize(AmpResume, s, Own, ev);
            FitsAll(c, st.patches) && InStep(st.state, ApplyAll(c, st.patches)) && Calm(st.state)
  {
    if Restarts(ev) {
      RestartStartsOver(s, c, ev);
      RestartKeepsInStep(s, c, ev);
    } else {
      PlainStep(s, c, ev);
      CalmStays(s, ev);
    }
  }

  lemma CalmStays(s: State, ev: Event)
    requires Calm(s) && !ev.Stream? && !Restarts(ev)
    ensures Calm(Normalize(AmpResume, s, Own, ev).state)
  {
    if ev.Assistant? {
      var message := ev.message;
      var report := ReportModel(s, Own, message);
      assert Forget(report.state, message.id).streaming == map[];
      ItemsKeepStreams(Forget(report.state, message.id), Own, message, StreamedBlocks(report.state, message),
                       |message.content|);
    } else if !ev.User? {
      var es := PlainEntries(AmpResume, ev);
      AddAllKeepsStreams(s, Own, es, |es|);
    }
  }

  /** The processor and the conversation after a run without stream events; every patch fits. */
  ghost function AmpRun(s: State, c: seq<Entry>, evs: seq<Event>): (r: (State, seq<Entry>))
    requires InStep(s, c) && Calm(s) && NoStreams(evs)
    ensures InStep(r.0, r.1) && Calm(r.0)
    decreases |evs|
  {
    if evs == [] then (s, c)
    else
      CalmStep(s, c, evs[0]);
      var st := Normalize(AmpResume, s, Own, evs[0]);
      AmpRun(st.state, ApplyAll(c, st.patches), evs[1..])
  }

  lemma {:induction false} AmpRunAppend(s: State, c: seq<Entry>, a: seq<Event>, b: seq<Event>)
    requires InStep(s, c) && Calm(s) && NoStreams(a) && NoStreams(b)
    ensures NoStreams(a + b) && var r := AmpRun(s, c, a); AmpRun(s, c, a + b) == AmpRun(r.0, r.1, b)
    decreases |a|
  {
    hide Normalize, InStep;
    if a == [] {
      assert a + b == b;
    } else {
      CalmStep(s, c, a[0]);
      var st := Normalize(AmpResume, s, Own, a[0]);
      assert (a + b)[1..] == a[1..] + b;
      AmpRunAppend(st.state, ApplyAll(c, st.patches), a[1..], b);
    }
  }

  lemma InitInStep()
    ensures InStep(INIT, []) && Calm(INIT)
  {
    InitInv(Own);
    assert BoardOf([]) == map[];
  }

  /** The processor and the conversation after a run without stream events from the start. */
  ghost function FromStart(evs: seq<Event>): (State, seq<Entry>)
    requires NoStreams(evs)
  {
    InitInStep();
    AmpRun(INIT, [], evs)
  }

  /** After a restart the past is gone: the processor and the conversation depend only on the restarting
      event, the events after it and the model name remembered. */
  lemma RestartForgets(past: seq<Event>, past': seq<Event>, ev: Event, later: seq<Event>)
    requires NoStreams(past) && NoStreams(past') && NoStreams(later) && Restarts(ev)
    ensures NoStreams(past + ([ev] + later)) && NoStreams(past' + ([ev] + later))
    ensures FromStart(past).0.model == FromStart(past').0.model ==>
              FromStart(past + ([ev] + later)) == FromStart(past' + ([ev] + later))
  {
    InitInStep();
    var (s, c) := AmpRun(INIT, [], past);
    var (s', c') := AmpRun(INIT, [], past');
    AmpRunAppend(INIT, [], past, [ev] + later);
    AmpRunAppend(INIT, [], past', [ev] + later);
    RestartStartsOver(s, c, ev);
    RestartStartsOver(s', c', ev);
    assert ([ev] + later)[0] == ev && ([ev] + later)[1..] == later;
  }
}
