/** The screen of an Amp conversation: a user text starts it over, and the array is exactly what it shows. */
module AmpScreen {
  import opened Text
  import opened Conversation
  import opened Claude
  import opened ClaudeProperties
  import opened ClaudeStreaming
  import opened ClaudeBlockEntries
  import opened ClaudeLogs
  import opened ClaudeScreen
  import Amp = AmpResume

  function Entries(scr: Screen): seq<Entry> {
    seq(|scr|, i requires 0 <= i < |scr| => scr[i].entry)
  }

  ghost predicate NoBlocks(scr: Screen) {
    forall n :: 0 <= n < |scr| ==> !scr[n].tag.OfBlock?
  }

  predicate IsRestart(r: Reading) {
    r.Decoded? && Amp.Restarts(r.event)
  }

  /** Nothing streams on the screen when a user text restarts the conversation. */
  ghost predicate Calm(h: seq<Reading>) {
    h == [] || (Calm(h[..|h| - 1]) && (IsRestart(h[|h| - 1]) ==> NoBlocks(ScreenOf(AmpResume, h[..|h| - 1]))))
  }

  lemma {:induction false} UserSlotsAre(items: seq<Item>)
    ensures Entries(UserSlots(items)) == Amp.TextsOf(items)
    ensures forall n :: 0 <= n < |UserSlots(items)| ==> UserSlots(items)[n].tag == Loose
  {
    if items != [] {
      UserSlotsAre(items[..|items| - 1]);
    }
  }

  lemma {:induction false} NothingToAnswer(scr: Screen, items: seq<Item>, n: nat)
    requires n <= |items| && forall j :: 0 <= j < |scr| ==> scr[j].tag == Loose
    ensures AnswerAll(scr, items, n) == scr
  {
    if n > 0 {
      NothingToAnswer(scr, items, n - 1);
    }
  }

  lemma NoBlocksNothingLive(s: State, b: ConversationBoard, scr: Screen, supply: Supply)
    requires Matches(s, b, scr, supply) && NoBlocks(scr)
    ensures Amp.NothingLive(s)
  {
    forall m, k: nat
      ensures LiveAt(s, m, k).None?
    {
      assert Position(s, OfBlock(m, k)) == LiveAt(s, m, k);
    }
  }

  lemma LooseMatches(s: State, scr: Screen)
    requires s.used == |scr| && s.tools == map[] && Amp.NothingLive(s)
    requires forall n :: 0 <= n < |scr| ==> scr[n].tag == Loose
    ensures Matches(s, Amp.BoardOf(Entries(scr)), scr, Own)
  {
  }

  lemma RestartShows(h: seq<Reading>)
    requires h != [] && IsRestart(h[|h| - 1])
    ensures var items := h[|h| - 1].event.message.content;
            ScreenOf(AmpResume, h) == UserSlots(items) && Entries(ScreenOf(AmpResume, h)) == Amp.TextsOf(items)
  {
    var items := h[|h| - 1].event.message.content;
    UserSlotsAre(items);
    NothingToAnswer(UserSlots(items), items, |items|);
    hide UserSlots, AnswerAll, Entries;
  }

  lemma RestartReflects(s: State, c: seq<Entry>, h: seq<Reading>)
    requires h != [] && IsRestart(h[|h| - 1]) && Reflects(AmpResume, s, Amp.BoardOf(c), h[..|h| - 1], Own)
    requires NoBlocks(ScreenOf(AmpResume, h[..|h| - 1]))
    ensures var st, c' := StepOf(AmpResume, s, Own, h[|h| - 1]), Entries(ScreenOf(AmpResume, h));
            && FitsAll(c, st.patches) && ApplyAll(c, st.patches) == c'
            && Reflects(AmpResume, st.state, Amp.BoardOf(c'), h, Own)
  {
    var init, ev := h[..|h| - 1], h[|h| - 1].event;
    var evs, items := Events(init), ev.message.content;
    hide Normalize, ScreenOf, Inv, FitsAll, ApplyAll, Streams, KnowsModel;
    NoBlocksNothingLive(s, Amp.BoardOf(c), ScreenOf(AmpResume, init), Own);
    RestartShows(h);
    UserSlotsAre(items);
    Amp.RestartStartsOver(s, c, ev);
    Amp.RestartKeepsInStep(s, c, ev);
    StreamsMore(AmpResume, s, Own, evs, ev);
    ModelMore(AmpResume, s, Own, evs, ev);
    var t := Normalize(AmpResume, s, Own, ev).state;
    assert forall m, k: nat :: LiveAt(t, m, k) == LiveAt(s, m, k);
    hide UserSlots, Amp.TextsOf, Amp.Restarts;
    LooseMatches(t, ScreenOf(AmpResume, h));
  }

  /** A step that keeps the rules edits the array as it edits the board. */
  lemma ArrayFollows(s: State, c: seq<Entry>, st: Step)
    requires Amp.InStep(s, c) && Good(s, Amp.BoardOf(c), Own, st)
    ensures FitsAll(c, st.patches) && Play(Amp.BoardOf(c), st.patches) == Amp.BoardOf(ApplyAll(c, st.patches))
  {
    hide Inv, KeepsSettled, Disciplined, Play, Added;
    Amp.CounterIsLength(s, c);
    BoardMirrors(c, st.patches, |c|, st.state.used);
  }

  lemma BoardMirrors(c: seq<Entry>, ps: seq<Patch<Entry>>, m: nat, n: nat)
    requires Disciplined(Amp.BoardOf(c), ps) && m <= n && m == |c| && Added(ps) == Handed(Own, m, n)
    ensures FitsAll(c, ps) && Play(Amp.BoardOf(c), ps) == Amp.BoardOf(ApplyAll(c, ps))
  {
    hide Disciplined, Play, Added, FitsAll, ApplyAll;
    forall k | 0 <= k < |Added(ps)|
      ensures Added(ps)[k] == |c| + k
    {
      assert Handed(Own, m, n)[k] == Own(m + k);
    }
    MirrorsPlay(Amp.BoardOf(c), c, ps);
  }

  lemma ArrayShows(s: State, c: seq<Entry>, scr: Screen)
    requires Amp.InStep(s, c) && Matches(s, Amp.BoardOf(c), scr, Own)
    ensures c == Entries(scr)
  {
    Amp.CounterIsLength(s, c);
    assert forall n :: 0 <= n < |scr| ==> Own(n) == n && c[n] == scr[n].entry;
  }

  lemma OtherReflects(s: State, c: seq<Entry>, h: seq<Reading>)
    requires h != [] && !IsRestart(h[|h| - 1]) && Reflects(AmpResume, s, Amp.BoardOf(c), h[..|h| - 1], Own)
    ensures var st, c' := StepOf(AmpResume, s, Own, h[|h| - 1]), Entries(ScreenOf(AmpResume, h));
            && FitsAll(c, st.patches) && ApplyAll(c, st.patches) == c'
            && Reflects(AmpResume, st.state, Amp.BoardOf(c'), h, Own)
  {
    var r := h[|h| - 1];
    var st := StepOf(AmpResume, s, Own, r);
    ReadingReflects(AmpResume, s, Amp.BoardOf(c), h, Own);
    if r.Decoded? {
      GoodEvent(AmpResume, s, Amp.BoardOf(c), Own, r.event);
    } else {
      GoodAdd(s, Amp.BoardOf(c), Own, SystemMessage(r.text));
    }
    hide Normalize, ScreenOf, Inv, Streams, KnowsModel, Good, Matches;
    ArrayFollows(s, c, st);
    hide FitsAll, ApplyAll, Play;
    ArrayShows(st.state, ApplyAll(c, st.patches), ScreenOf(AmpResume, h));
  }

  lemma {:induction false} AmpReflects(h: seq<Reading>)
    requires Calm(h)
    ensures var st, c := RunReadings(AmpResume, INIT, Own, h), Entries(ScreenOf(AmpResume, h));
            && FitsAll([], st.patches) && ApplyAll([], st.patches) == c
            && Reflects(AmpResume, st.state, Amp.BoardOf(c), h, Own)
  {
    if h == [] {
      StartReflects(AmpResume, Own);
      assert Amp.BoardOf([]) == map[];
    } else {
      hide Reflects, StepOf, ScreenOf, Entries, FitsAll, ApplyAll, NoBlocks;
      AmpReflects(h[..|h| - 1]);
      var before, c := RunReadings(AmpResume, INIT, Own, h[..|h| - 1]), Entries(ScreenOf(AmpResume, h[..|h| - 1]));
      if IsRestart(h[|h| - 1]) {
        RestartReflects(before.state, c, h);
      } else {
        OtherReflects(before.state, c, h);
      }
      Amp.ApplyAppend([], before.patches, StepOf(AmpResume, before.state, Own, h[|h| - 1]).patches);
    }
  }

  /** An Amp conversation, whose provider is its own, is exactly the screen: user texts start it over, and everything
      since the last one is shown; provided nothing streams at a restart. */
  lemma AmpShows(parse: Parser, text: string)
    requires Calm(ReadOutput(parse, text))
    ensures var ps := Interpret(AmpResume, Own, parse, text).patches;
            FitsAll([], ps) && ApplyAll([], ps) == Entries(ScreenOf(AmpResume, ReadOutput(parse, text)))
  {
    hide Interpret, RunReadings, ScreenOf, ReadOutput, Reflects, Calm, FitsAll, ApplyAll, Entries;
    OutputIsRead(AmpResume, Own, parse, text);
    AmpReflects(ReadOutput(parse, text));
  }

  // -- Amp does not stream --

  ghost predicate NoStreams(h: seq<Reading>) {
    forall i :: 0 <= i < |h| ==> !(h[i].Decoded? && h[i].event.Stream?)
  }

  lemma {:induction false} ItemsTagNoBlocks(scr: Screen, message: Message, n: nat)
    requires n <= |message.content| && NoBlocks(scr)
    ensures NoBlocks(ShowItems(scr, message, n))
  {
    if n > 0 {
      ItemsTagNoBlocks(scr, message, n - 1);
    }
  }

  lemma {:induction false} AnswersTagNoBlocks(scr: Screen, items: seq<Item>, n: nat)
    requires n <= |items| && NoBlocks(scr)
    ensures NoBlocks(AnswerAll(scr, items, n))
  {
    if n > 0 {
      AnswersTagNoBlocks(scr, items, n - 1);
    }
  }

  lemma {:induction false} SayTagsNoBlocks(scr: Screen, es: seq<Entry>, n: nat)
    requires n <= |es| && NoBlocks(scr)
    ensures NoBlocks(SayAll(scr, es, n))
  {
    if n > 0 {
      SayTagsNoBlocks(scr, es, n - 1);
    }
  }

  lemma AssistantTagsNoBlocks(scr: Screen, evs: seq<Event>, message: Message)
    requires NoBlocks(scr)
    ensures NoBlocks(Next(AmpResume, scr, evs, Assistant(message)))
  {
    hide ShowItems, ModelKnown;
    ItemsTagNoBlocks(Report(scr, evs, message.model), message, |message.content|);
  }

  lemma UserTagsNoBlocks(scr: Screen, evs: seq<Event>, message: Message)
    requires NoBlocks(scr)
    ensures NoBlocks(Next(AmpResume, scr, evs, User(message)))
  {
    hide AnswerAll, UserSlots;
    UserSlotsAre(message.content);
    AnswersTagNoBlocks(scr, message.content, |message.content|);
    AnswersTagNoBlocks(UserSlots(message.content), message.content, |message.content|);
  }

  lemma NextTagsNoBlocks(scr: Screen, evs: seq<Event>, ev: Event)
    requires NoBlocks(scr) && !ev.Stream?
    ensures NoBlocks(Next(AmpResume, scr, evs, ev))
  {
    hide Next, NoBlocks, SayAll, PlainEntries;
    if ev.Assistant? {
      AssistantTagsNoBlocks(scr, evs, ev.message);
    } else if ev.User? {
      UserTagsNoBlocks(scr, evs, ev.message);
    } else {
      var es := PlainEntries(AmpResume, ev);
      PlainIsNext(AmpResume, scr, evs, ev);
      SayTagsNoBlocks(scr, es, |es|);
    }
  }

  /** Without stream events every history is calm. */
  lemma {:induction false} NoStreamsAreCalm(h: seq<Reading>)
    requires NoStreams(h)
    ensures Calm(h) && NoBlocks(ScreenOf(AmpResume, h))
  {
    if h != [] {
      NoStreamsAreCalm(h[..|h| - 1]);
      if h[|h| - 1].Decoded? {
        NextTagsNoBlocks(ScreenOf(AmpResume, h[..|h| - 1]), Events(h[..|h| - 1]), h[|h| - 1].event);
      }
      hide Next;
    }
  }
}
