/** How many entries a streamed block ends up as, whatever happens to its message: it may be started again, stopped
    early or finalised in between. The count is defined from the events alone. */
module ClaudeBlockEntries {
  import opened Text
  import opened Conversation
  import opened Claude
  import opened ClaudeProperties
  import opened ClaudeStreaming

  // ---------- The events as reference ----------

  /** Message `m` is not streaming, or block `k` of it holds what was gathered. */
  datatype Track = Gone | Held(g: Option<Gathering>)

  function TrackNext(t: Track, cur: Option<string>, ev: Event, m: string, k: nat): Track {
    match ev
    case Assistant(message) => if message.id == Some(m) then Gone else t
    case Stream(MessageStart(message)) => if message.role == "assistant" && message.id == Some(m) then Held(None) else t
    case Stream(MessageStop) => if cur == Some(m) then Gone else t
    case _ => if t.Held? && cur == Some(m) then Held(Gather(t.g, ev, k)) else t
  }

  function TrackAll(t: Track, cur: Option<string>, evs: seq<Event>, m: string, k: nat): Track
    decreases |evs|
  {
    if evs == [] then t else TrackAll(TrackNext(t, cur, evs[0], m, k), CurrentAfter(cur, evs[0]), evs[1..], m, k)
  }

  predicate IsShown(t: Track) {
    t.Held? && t.g.Some? && t.g.value.shown
  }

  /** How often the block went from not shown to shown. */
  function Appearances(t: Track, cur: Option<string>, evs: seq<Event>, m: string, k: nat): nat
    decreases |evs|
  {
    if evs == [] then 0
    else
      var t' := TrackNext(t, cur, evs[0], m, k);
      (if !IsShown(t) && IsShown(t') then 1 else 0) + Appearances(t', CurrentAfter(cur, evs[0]), evs[1..], m, k)
  }

  ghost predicate FollowsTrack(s: State, m: string, k: nat, t: Track) {
    match t
    case Gone => m !in s.streaming
    case Held(g) => Follows(s, m, k, g)
  }

  // ---------- One event ----------

  /** What one event does to the block, whichever event it is: one more position exactly when it appears. */
  ghost predicate TrackStep(s: State, supply: Supply, ev: Event, m: string, k: nat, t: Track) {
    var st, t' := NextStep(s, supply, ev), TrackNext(t, s.current, ev, m, k);
    && FollowsTrack(st.state, m, k, t') && st.state.current == CurrentAfter(s.current, ev)
    && |Added(if IsOwn(s.current, ev, m, k) then st.patches else [])| == if !IsShown(t) && IsShown(t') then 1 else 0
  }

  lemma AssistantForgets(s: State, supply: Supply, message: Message)
    ensures var t := OnAssistant(s, supply, message).state;
            && t.current == s.current && t.streaming == Forget(s, message.id).streaming
  {
    var report := ReportModel(s, supply, message);
    ItemsKeepStreams(Forget(report.state, message.id), supply, message, StreamedBlocks(report.state, message),
                     |message.content|);
    hide AssistantItems;
  }

  lemma PlainKeepsStreams(s: State, supply: Supply, ev: Event)
    requires !ev.Assistant? && !ev.Stream?
    ensures var t := NextStep(s, supply, ev).state; t.streaming == s.streaming && t.current == s.current
  {
    hide AddAll, PlainEntries;
    var es := PlainEntries(Default, ev);
    if !ev.User? { AddAllKeepsStreams(s, supply, es, |es|); }
  }

  /** A message that is not streaming stays so until it is started. */
  lemma GoneEvent(s: State, supply: Supply, ev: Event, m: string, k: nat)
    requires m !in s.streaming
    ensures TrackStep(s, supply, ev, m, k, Gone)
  {
    match ev
    case Assistant(message) => AssistantForgets(s, supply, message);
    case Stream(event) => GoneStream(s, supply, event, m, k);
    case _ => PlainKeepsStreams(s, supply, ev);
    hide OnAssistant, OnStream, AddAll, PlainEntries;
  }

  lemma GoneStream(s: State, supply: Supply, event: StreamEvent, m: string, k: nat)
    requires m !in s.streaming
    ensures var st, t' := OnStream(s, supply, event), TrackNext(Gone, s.current, Stream(event), m, k);
            && FollowsTrack(st.state, m, k, t') && st.state.current == CurrentAfter(s.current, Stream(event))
            && (IsOwn(s.current, Stream(event), m, k) ==> st.patches == [])
            && !IsShown(t')
  {
    hide OnDelta;
    if event.MessageStart? && event.message.role == "assistant" && event.message.id == Some(m) {
      MessageBegins(s, supply, event.message, m, k);
    } else if event.BlockDelta? {
      GoneDelta(s, supply, event, m);
    }
  }

  lemma GoneDelta(s: State, supply: Supply, event: StreamEvent, m: string)
    requires m !in s.streaming && event.BlockDelta?
    ensures var t := OnStream(s, supply, event).state; m !in t.streaming && t.current == s.current
  {
  }

  /** The events that end a message, or start it over. */
  predicate Ends(cur: Option<string>, ev: Event, m: string) {
    || (ev.Assistant? && ev.message.id == Some(m))
    || (ev.Stream? && ev.event.MessageStart? && ev.event.message.role == "assistant" && ev.event.message.id == Some(m))
    || (ev.Stream? && ev.event.MessageStop? && cur == Some(m))
  }

  lemma EndingEvent(s: State, supply: Supply, ev: Event, m: string, k: nat, t: Track)
    requires Ends(s.current, ev, m)
    ensures TrackStep(s, supply, ev, m, k, t)
  {
    match ev
    case Assistant(message) => AssistantForgets(s, supply, message);
    case Stream(MessageStart(message)) => MessageBegins(s, supply, message, m, k);
    case Stream(MessageStop) =>
    hide OnAssistant;
  }

  lemma HeldEvent(s: State, supply: Supply, ev: Event, m: string, k: nat, g: Option<Gathering>)
    requires Follows(s, m, k, g) && !Ends(s.current, ev, m)
    ensures TrackStep(s, supply, ev, m, k, Held(g))
  {
    hide NextStep, Follows;
    if s.current == Some(m) && IsStart(ev, k) {
      StartEvent(s, supply, ev, m, k, g);
    } else {
      AnyEvent(s, supply, ev, m, k, g);
      HeldPatches(s, supply, ev, m, k, g);
    }
  }

  lemma HeldPatches(s: State, supply: Supply, ev: Event, m: string, k: nat, g: Option<Gathering>)
    requires Follows(s, m, k, g) && !Ends(s.current, ev, m) && !(s.current == Some(m) && IsStart(ev, k))
    requires BlockStep(s, supply, ev, m, k, g)
    ensures TrackStep(s, supply, ev, m, k, Held(g))
  {
    HeldNext(s.current, ev, m, k, g);
    hide NextStep, Gather, TrackNext, Follows;
    FirstPatches(s, supply, ev, m, k, g);
    FollowsLive(s, m, k, g);
    FollowsLive(NextStep(s, supply, ev).state, m, k, if s.current == Some(m) then Gather(g, ev, k) else g);
  }

  lemma HeldNext(cur: Option<string>, ev: Event, m: string, k: nat, g: Option<Gathering>)
    requires !Ends(cur, ev, m)
    ensures TrackNext(Held(g), cur, ev, m, k) == Held(if cur == Some(m) then Gather(g, ev, k) else g)
  {
  }

  lemma FollowsLive(s: State, m: string, k: nat, g: Option<Gathering>)
    requires Follows(s, m, k, g)
    ensures LiveAt(s, m, k).Some? <==> IsShown(Held(g))
  {
  }

  lemma AnyTrackEvent(s: State, supply: Supply, ev: Event, m: string, k: nat, t: Track)
    requires FollowsTrack(s, m, k, t)
    ensures TrackStep(s, supply, ev, m, k, t)
  {
    hide TrackStep, Follows;
    if Ends(s.current, ev, m) {
      EndingEvent(s, supply, ev, m, k, t);
    } else if t.Gone? {
      GoneEvent(s, supply, ev, m, k);
    } else {
      HeldEvent(s, supply, ev, m, k, t.g);
    }
  }

  // ---------- Runs ----------

  /** Over every run the deltas of a block add one position each time the block appears. */
  lemma {:induction false} BlockAddsPerAppearance(s: State, supply: Supply, evs: seq<Event>, m: string, k: nat,
                                                  t: Track)
    requires FollowsTrack(s, m, k, t)
    ensures FollowsTrack(Run(Default, s, supply, evs).state, m, k, TrackAll(t, s.current, evs, m, k))
    ensures |Added(OwnPatches(s, supply, evs, m, k))| == Appearances(t, s.current, evs, m, k)
    decreases |evs|
  {
    if evs != [] {
      hide Normalize, FollowsTrack, TrackNext, IsShown;
      AnyTrackEvent(s, supply, evs[0], m, k, t);
      var st, t' := NextStep(s, supply, evs[0]), TrackNext(t, s.current, evs[0], m, k);
      BlockAddsPerAppearance(st.state, supply, evs[1..], m, k, t');
      AddedAppend(if IsOwn(s.current, evs[0], m, k) then st.patches else [],
                  OwnPatches(st.state, supply, evs[1..], m, k));
    }
  }

  /** Block `k` of message `m` and item `k` of the final message for it, over any history: they add one position for
      each time the block appeared, and one more if it is not shown when the message is finalised. So it is one entry
      if and only if it never appeared, or appeared once and is still shown. */
  lemma OneEntryIff(s: State, supply: Supply, evs: seq<Event>, message: Message, m: string, k: nat, t: Track)
    requires FollowsTrack(s, m, k, t) && message.id == Some(m)
    requires k < |message.content| && ItemEntry(message.content[k], message.role).Some?
    ensures var last, shown := FinalPatch(Run(Default, s, supply, evs).state, supply, message, k),
                               IsShown(TrackAll(t, s.current, evs, m, k));
            var n, times := |Added(OwnPatches(s, supply, evs, m, k) + [last])|, Appearances(t, s.current, evs, m, k);
            && n == times + (if shown then 0 else 1)
            && (n == 1 <==> times == if shown then 1 else 0)
  {
    hide Run, TrackAll, Appearances, OwnPatches, FinalPatch;
    BlockAddsPerAppearance(s, supply, evs, m, k, t);
    var s1 := Run(Default, s, supply, evs).state;
    var own, last := OwnPatches(s, supply, evs, m, k), FinalPatch(s1, supply, message, k);
    FinalPatchAdds(s1, supply, message, m, k, TrackAll(t, s.current, evs, m, k));
    AddedAppend(own, [last]);
    AddedOne(last);
  }

  lemma FinalPatchAdds(s: State, supply: Supply, message: Message, m: string, k: nat, t: Track)
    requires FollowsTrack(s, m, k, t) && message.id == Some(m)
    requires k < |message.content| && ItemEntry(message.content[k], message.role).Some?
    ensures FinalPatch(s, supply, message, k).Add? <==> !IsShown(t)
    ensures !FinalPatch(s, supply, message, k).Remove?
  {
    hide BeforeItem;
  }

  /** Over a whole run the count is a function of the history alone. */
  lemma RunEntries(supply: Supply, evs: seq<Event>, message: Message, m: string, k: nat)
    requires message.id == Some(m) && k < |message.content| && ItemEntry(message.content[k], message.role).Some?
    ensures var last := FinalPatch(Run(Default, INIT, supply, evs).state, supply, message, k);
            |Added(OwnPatches(INIT, supply, evs, m, k) + [last])|
            == Appearances(Gone, None, evs, m, k) + if IsShown(TrackAll(Gone, None, evs, m, k)) then 0 else 1
  {
    hide Run, TrackAll, Appearances, OwnPatches, FinalPatch, Added;
    OneEntryIff(INIT, supply, evs, message, m, k, Gone);
  }

  /** The step of an event, then the rest. */
  lemma RunFirst(s: State, ev: Event, rest: seq<Event>, st: Step)
    requires Normalize(Default, s, Own, ev) == st
    ensures Run(Default, s, Own, [ev] + rest) == Then(st, Run(Default, st.state, Own, rest))
  {
    hide Normalize;
    assert ([ev] + rest)[1..] == rest;
  }

  const STREAMED := Message(Some("m"), "assistant", None, [])
  const FINAL := Message(Some("m"), "assistant", None, [TextItem("a")])

  const STARTED := INIT.(streaming := map["m" := Streaming("assistant", map[])], current := Some("m"))
  const SHOWING := STARTED.(streaming := map["m" := Streaming("assistant", map[0 := Block(TextBlock, "a", Some(0))])],
                            used := 1)

  lemma StreamSteps()
    ensures Normalize(Default, INIT, Own, Stream(MessageStart(STREAMED))) == Step(STARTED, [])
    ensures Normalize(Default, STARTED, Own, Stream(BlockDelta(0, TextDelta("a"))))
            == Step(SHOWING, [Add(0, AssistantMessage("a"))])
    ensures Normalize(Default, SHOWING, Own, Stream(MessageStop)) == Step(INIT.(used := 1), [])
  {
    assert "" + "a" == "a";
  }

  /** A message that is stopped after a block was shown, and finalised later, shows the block twice. */
  lemma StopSplitsBlock()
    ensures Run(Default, INIT, Own, [Stream(MessageStart(STREAMED)), Stream(BlockDelta(0, TextDelta("a"))),
                                     Stream(MessageStop), Assistant(FINAL)]).patches
            == [Add(0, AssistantMessage("a")), Add(1, AssistantMessage("a"))]
  {
    hide Normalize, Run;
    var e1, e2, e3, e4 := Stream(MessageStart(STREAMED)), Stream(BlockDelta(0, TextDelta("a"))), Stream(MessageStop),
      Assistant(FINAL);
    var e := AssistantMessage("a");
    StreamSteps();
    FinalAdds();
    RunFirst(INIT.(used := 1), e4, [], Step(INIT.(used := 2), [Add(1, e)]));
    RunFirst(SHOWING, e3, [e4], Step(INIT.(used := 1), []));
    RunFirst(STARTED, e2, [e3, e4], Step(SHOWING, [Add(0, e)]));
    RunFirst(INIT, e1, [e2, e3, e4], Step(STARTED, []));
    RunNone(INIT.(used := 2));
    assert [e4] + [] == [e4] && [e3] + [e4] == [e3, e4] && [e2] + [e3, e4] == [e2, e3, e4];
    assert [e1] + [e2, e3, e4] == [e1, e2, e3, e4];
  }

  lemma RunNone(s: State)
    ensures Run(Default, s, Own, []) == Step(s, [])
  {
  }

  lemma FinalAdds()
    ensures Normalize(Default, INIT.(used := 1), Own, Assistant(FINAL))
            == Step(INIT.(used := 2), [Add(1, AssistantMessage("a"))])
  {
    var s := INIT.(used := 1);
    assert Forget(s, Some("m")) == s;
    assert AssistantItems(s, Own, FINAL, map[], 0, 0) == Step(s, []);
  }
}
