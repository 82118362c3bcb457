/** From the message stream to the conversation: stdout is cut into lines across chunk boundaries, each
    line is decoded and handed to the processor, and what cannot be decoded becomes a system message.
    Decoding is a parameter. */
module ClaudeLogs {
  import opened Text
  import opened LogMessages
  import opened Conversation
  import opened Claude
  import opened ClaudeProperties
  import Debounce

  type Parser = string -> Option<Event>

  predicate Contains(s: string, p: string) {
    p <= s || (s != "" && Contains(s[1..], p))
  }

  predicate RouterNoise(line: string) {
    || "Service not running, starting service" <= line
    || Contains(line, "claude code router service has been successfully stopped")
  }

  // ---------- What the whole text means ----------

  function HandleLine(strategy: Strategy, s: State, supply: Supply, parse: Parser, line: string): Step {
    var trimmed := Trim(line);
    if trimmed == "" || RouterNoise(trimmed) then Step(s, [])
    else
      var ev := parse(trimmed);
      if ev.Some? then Normalize(strategy, s, supply, ev.value) else Put(s, supply, None, SystemMessage(trimmed))
  }

  function HandleLines(strategy: Strategy, s: State, supply: Supply, parse: Parser, lines: seq<string>): Step {
    if lines == [] then Step(s, [])
    else
      var before := HandleLines(strategy, s, supply, parse, lines[..|lines| - 1]);
      Then(before, HandleLine(strategy, before.state, supply, parse, lines[|lines| - 1]))
  }

  function HandleRest(s: State, supply: Supply, rest: string): Step {
    if Trim(rest) == "" then Step(s, []) else Put(s, supply, None, SystemMessage(Trim(rest)))
  }

  /** The conversation that a complete standard output stands for. */
  function Interpret(strategy: Strategy, supply: Supply, parse: Parser, text: string): Step {
    var lines := HandleLines(strategy, INIT, supply, parse, CompleteLines(text));
    Then(lines, HandleRest(lines.state, supply, Remainder(text)))
  }

  /** Standard output up to the message that ends the stream. */
  function StdoutOf(ms: seq<LogMsg>): string {
    if ms == [] || ms[0].Finished? then ""
    else (if ms[0].Stdout? then ms[0].text else "") + StdoutOf(ms[1..])
  }

  lemma {:induction false} HandleLinesAppend(strategy: Strategy, s: State, supply: Supply, parse: Parser,
                                             a: seq<string>, b: seq<string>)
    ensures var first := HandleLines(strategy, s, supply, parse, a);
            HandleLines(strategy, s, supply, parse, a + b)
            == Then(first, HandleLines(strategy, first.state, supply, parse, b))
    decreases |b|
  {
    hide HandleLine;
    if b == [] {
      assert a + b == a;
    } else {
      var init := b[..|b| - 1];
      HandleLinesAppend(strategy, s, supply, parse, a, init);
      assert (a + b)[..|a + b| - 1] == a + init && (a + b)[|a + b| - 1] == b[|b| - 1];
    }
  }

  // ---------- What was read ----------

  /** What a line says: an event, or text that is none. */
  datatype Reading = Decoded(event: Event) | Undecoded(text: string)

  predicate StandsAt(line: string, phrase: string, i: nat) {
    i + |phrase| <= |line| && line[i..i + |phrase|] == phrase
  }

  predicate Mentions(line: string, phrase: string) {
    exists i: nat | i <= |line| :: StandsAt(line, phrase, i)
  }

  const ROUTER_STARTS := "Service not running, starting service"
  const ROUTER_STOPS := "claude code router service has been successfully stopped"

  predicate IsRouterLine(line: string) {
    (|line| >= |ROUTER_STARTS| && line[..|ROUTER_STARTS|] == ROUTER_STARTS) || Mentions(line, ROUTER_STOPS)
  }

  /** Blank lines and lines of the router say nothing; any other line is an event if it decodes, and otherwise its
      text without the white space around it. */
  function ReadLine(parse: Parser, line: string): seq<Reading> {
    var text := Trim(line);
    if text == "" || IsRouterLine(text) then []
    else match parse(text)
      case Some(ev) => [Decoded(ev)]
      case None => [Undecoded(text)]
  }

  function ReadLines(parse: Parser, lines: seq<string>): seq<Reading> {
    if lines == [] then [] else ReadLines(parse, lines[..|lines| - 1]) + ReadLine(parse, lines[|lines| - 1])
  }

  /** The complete lines, and what is left after the last newline, which is not decoded. */
  function ReadOutput(parse: Parser, text: string): seq<Reading> {
    var rest := Trim(Remainder(text));
    ReadLines(parse, CompleteLines(text)) + if rest == "" then [] else [Undecoded(rest)]
  }

  /** An event takes the processor's step; other text adds one system message with it. */
  function StepOf(strategy: Strategy, s: State, supply: Supply, r: Reading): Step {
    match r
    case Decoded(ev) => Normalize(strategy, s, supply, ev)
    case Undecoded(text) => Step(s.(used := s.used + 1), [Add(supply(s.used), SystemMessage(text))])
  }

  function RunReadings(strategy: Strategy, s: State, supply: Supply, h: seq<Reading>): Step {
    if h == [] then Step(s, [])
    else
      var before := RunReadings(strategy, s, supply, h[..|h| - 1]);
      Then(before, StepOf(strategy, before.state, supply, h[|h| - 1]))
  }

  lemma {:induction false} ContainsIsMention(s: string, p: string)
    ensures Contains(s, p) <==> Mentions(s, p)
  {
    if p <= s {
      assert StandsAt(s, p, 0);
    } else if s != "" {
      ContainsIsMention(s[1..], p);
      forall i: nat
        ensures StandsAt(s, p, i + 1) <==> StandsAt(s[1..], p, i)
      {
        assert i + 1 + |p| <= |s| ==> s[i + 1..i + 1 + |p|] == s[1..][i..i + |p|];
      }
      assert !StandsAt(s, p, 0);
      if Mentions(s, p) {
        var i: nat :| i <= |s| && StandsAt(s, p, i);
        assert StandsAt(s[1..], p, i - 1);
      }
      if Mentions(s[1..], p) {
        var i: nat :| i <= |s[1..]| && StandsAt(s[1..], p, i);
        assert StandsAt(s, p, i + 1);
      }
    } else {
      assert forall i: nat :: StandsAt(s, p, i) ==> p == "";
    }
  }

  lemma NoiseIsRouterLine(line: string)
    ensures RouterNoise(line) <==> IsRouterLine(line)
  {
    ContainsIsMention(line, ROUTER_STOPS);
    hide Contains, Mentions;
  }

  lemma {:induction false} RunReadingsAppend(strategy: Strategy, s: State, supply: Supply, a: seq<Reading>,
                                             b: seq<Reading>)
    ensures var first := RunReadings(strategy, s, supply, a);
            RunReadings(strategy, s, supply, a + b) == Then(first, RunReadings(strategy, first.state, supply, b))
    decreases |b|
  {
    hide StepOf;
    if b == [] {
      assert a + b == a;
    } else {
      var init := b[..|b| - 1];
      RunReadingsAppend(strategy, s, supply, a, init);
      assert (a + b)[..|a + b| - 1] == a + init && (a + b)[|a + b| - 1] == b[|b| - 1];
    }
  }

  lemma RunOneReading(strategy: Strategy, s: State, supply: Supply, r: Reading)
    ensures RunReadings(strategy, s, supply, [r]) == StepOf(strategy, s, supply, r)
  {
    hide StepOf;
    assert [r][..0] == [] && RunReadings(strategy, s, supply, []) == Step(s, []);
  }

  lemma LineIsReading(strategy: Strategy, s: State, supply: Supply, parse: Parser, line: string)
    ensures HandleLine(strategy, s, supply, parse, line) == RunReadings(strategy, s, supply, ReadLine(parse, line))
  {
    var text := Trim(line);
    NoiseIsRouterLine(text);
    hide RouterNoise, IsRouterLine, Normalize, RunReadings;
    assert RunReadings(strategy, s, supply, []) == Step(s, []) by { RunNoReading(strategy, s, supply); }
    if ReadLine(parse, line) != [] {
      RunOneReading(strategy, s, supply, ReadLine(parse, line)[0]);
    }
  }

  lemma RunNoReading(strategy: Strategy, s: State, supply: Supply)
    ensures RunReadings(strategy, s, supply, []) == Step(s, [])
  {
  }

  lemma {:induction false} LinesAreReadings(strategy: Strategy, s: State, supply: Supply, parse: Parser,
                                            lines: seq<string>)
    ensures HandleLines(strategy, s, supply, parse, lines) == RunReadings(strategy, s, supply, ReadLines(parse, lines))
  {
    hide HandleLine, ReadLine, RunReadings;
    RunNoReading(strategy, s, supply);
    if lines != [] {
      var init, last := lines[..|lines| - 1], lines[|lines| - 1];
      LinesAreReadings(strategy, s, supply, parse, init);
      var before := HandleLines(strategy, s, supply, parse, init);
      LineIsReading(strategy, before.state, supply, parse, last);
      RunReadingsAppend(strategy, s, supply, ReadLines(parse, init), ReadLine(parse, last));
    }
  }

  /** What an output stands for is what its lines say, one after the other: every line that decodes takes the step of
      its event, every other line with text adds one system message, and so does an unfinished last line. */
  lemma OutputIsRead(strategy: Strategy, supply: Supply, parse: Parser, text: string)
    ensures Interpret(strategy, supply, parse, text) == RunReadings(strategy, INIT, supply, ReadOutput(parse, text))
  {
    hide HandleLines, ReadLines, RunReadings, CompleteLines, Remainder;
    LinesAreReadings(strategy, INIT, supply, parse, CompleteLines(text));
    var lines := ReadLines(parse, CompleteLines(text));
    var before := RunReadings(strategy, INIT, supply, lines);
    var rest := Trim(Remainder(text));
    RunReadingsAppend(strategy, INIT, supply, lines, if rest == "" then [] else [Undecoded(rest)]);
    RunNoReading(strategy, before.state, supply);
    RunOneReading(strategy, before.state, supply, Undecoded(rest));
  }

  function AllDecoded(evs: seq<Event>): seq<Reading> {
    seq(|evs|, i requires 0 <= i < |evs| => Decoded(evs[i]))
  }

  lemma {:induction false} EventsRun(strategy: Strategy, s: State, supply: Supply, evs: seq<Event>)
    ensures RunReadings(strategy, s, supply, AllDecoded(evs)) == Run(strategy, s, supply, evs)
    decreases |evs|
  {
    hide Normalize;
    if evs != [] {
      var first := Normalize(strategy, s, supply, evs[0]);
      EventsRun(strategy, first.state, supply, evs[1..]);
      assert AllDecoded(evs) == [Decoded(evs[0])] + AllDecoded(evs[1..]);
      RunOneReading(strategy, s, supply, Decoded(evs[0]));
      RunReadingsAppend(strategy, s, supply, [Decoded(evs[0])], AllDecoded(evs[1..]));
      hide RunReadings, AllDecoded;
    }
  }

  /** When every line that says something decodes, the output is the run of the events, in order, and one system
      message for an unfinished last line. */
  lemma OutputIsRun(strategy: Strategy, supply: Supply, parse: Parser, text: string, evs: seq<Event>)
    requires ReadLines(parse, CompleteLines(text)) == AllDecoded(evs)
    ensures var run, rest := Run(strategy, INIT, supply, evs), Trim(Remainder(text));
            Interpret(strategy, supply, parse, text)
            == if rest == "" then run
               else Step(run.state.(used := run.state.used + 1),
                         run.patches + [Add(supply(run.state.used), SystemMessage(rest))])
  {
    hide Run, RunReadings, ReadLines, Normalize, CompleteLines, Remainder, AllDecoded;
    OutputIsRead(strategy, supply, parse, text);
    EventsRun(strategy, INIT, supply, evs);
    var run, rest := Run(strategy, INIT, supply, evs), Trim(Remainder(text));
    RunReadingsAppend(strategy, INIT, supply, AllDecoded(evs), if rest == "" then [] else [Undecoded(rest)]);
    RunNoReading(strategy, run.state, supply);
    RunOneReading(strategy, run.state, supply, Undecoded(rest));
    assert run.patches + [] == run.patches;
  }

  // ---------- Its patches ----------

  lemma GoodLine(s: State, b: ConversationBoard, supply: Supply, parse: Parser, line: string)
    requires NeverRepeats(supply) && Inv(s, b, supply)
    ensures Good(s, b, supply, HandleLine(Default, s, supply, parse, line))
  {
    hide Inv, Good, NeverRepeats, Normalize;
    var trimmed := Trim(line);
    GoodNothing(s, b, supply);
    GoodAdd(s, b, supply, SystemMessage(trimmed));
    if parse(trimmed).Some? {
      GoodEvent(Default, s, b, supply, parse(trimmed).value);
    }
  }

  lemma {:induction false} GoodLines(s: State, b: ConversationBoard, supply: Supply, parse: Parser, lines: seq<string>)
    requires NeverRepeats(supply) && Inv(s, b, supply)
    ensures Good(s, b, supply, HandleLines(Default, s, supply, parse, lines))
  {
    hide Inv, Good, NeverRepeats, HandleLine;
    if lines == [] {
      GoodNothing(s, b, supply);
    } else {
      GoodLines(s, b, supply, parse, lines[..|lines| - 1]);
      var before := HandleLines(Default, s, supply, parse, lines[..|lines| - 1]);
      GoodGives(s, b, supply, before);
      GoodLine(before.state, Play(b, before.patches), supply, parse, lines[|lines| - 1]);
      GoodThen(s, b, supply, before, HandleLine(Default, before.state, supply, parse, lines[|lines| - 1]));
    }
  }

  /** For every output and every decoder, lines that are not JSON and an unfinished last line included, whoever else
      draws positions: each position drawn is added exactly once, only own positions are replaced, and a settled
      entry never changes. */
  lemma OutputIsGood(supply: Supply, parse: Parser, text: string)
    requires NeverRepeats(supply)
    ensures Good(INIT, map[], supply, Interpret(Default, supply, parse, text))
  {
    hide Inv, Good, NeverRepeats, HandleLines, CompleteLines, Remainder;
    InitInv(supply);
    GoodLines(INIT, map[], supply, parse, CompleteLines(text));
    var lines := HandleLines(Default, INIT, supply, parse, CompleteLines(text));
    GoodGives(INIT, map[], supply, lines);
    var b := Play(map[], lines.patches);
    GoodNothing(lines.state, b, supply);
    GoodAdd(lines.state, b, supply, SystemMessage(Trim(Remainder(text))));
    GoodThen(INIT, map[], supply, lines, HandleRest(lines.state, supply, Remainder(text)));
  }

  /** With a provider of its own the output builds the conversation array: every add appends at its current end,
      every replace is in range, and the provider counts the entries. */
  lemma OutputBuildsArray(parse: Parser, text: string)
    ensures var st := Interpret(Default, Own, parse, text);
            && FitsAll([], st.patches) && |ApplyAll([], st.patches)| == st.state.used
            && Disciplined(map[], st.patches) && Mirrors(Play(map[], st.patches), ApplyAll([], st.patches))
  {
    hide Inv, Interpret;
    OutputIsGood(Own, parse, text);
    MirrorsPlay(map[], [], Interpret(Default, Own, parse, text).patches);
  }

  // ---------- The loop ----------

  /** One line: the body of the inner loop. */
  method ProcessLine(p: LogProcessor, provider: IndexProvider, parse: Parser, line: string)
    returns (patches: seq<Patch<Entry>>)
    modifies p, provider
    ensures Step(p.View(provider.used), patches)
         == HandleLine(p.strategy, old(p.View(provider.used)), provider.supply, parse, line)
  {
    patches := [];
    var trimmed := Trim(line);
    if trimmed == "" { return; }
    if RouterNoise(trimmed) { return; }
    var ev := parse(trimmed);
    match ev
    case Some(e) => patches := p.NormalizeEntries(e, provider);
    case None =>
      var i := provider.Next();
      patches := [Add(i, SystemMessage(trimmed))];
  }

  method ProcessLines(p: LogProcessor, provider: IndexProvider, parse: Parser, lines: seq<string>)
    returns (patches: seq<Patch<Entry>>)
    modifies p, provider
    ensures Step(p.View(provider.used), patches)
         == HandleLines(p.strategy, old(p.View(provider.used)), provider.supply, parse, lines)
  {
    patches := [];
    for n := 0 to |lines|
      invariant Step(p.View(provider.used), patches)
             == HandleLines(p.strategy, old(p.View(provider.used)), provider.supply, parse, lines[..n])
    {
      var more := ProcessLine(p, provider, parse, lines[n]);
      assert lines[..n + 1][..n] == lines[..n];
      patches := patches + more;
    }
    assert lines[..|lines|] == lines;
  }

  /** One chunk after `text`: handle the lines it completes and carry the rest over. */
  method ProcessChunk(p: LogProcessor, provider: IndexProvider, parse: Parser, buffer: string, chunk: string,
                      ghost text: string)
    returns (rest: string, patches: seq<Patch<Entry>>)
    requires buffer == Remainder(text)
    requires p.View(provider.used) == HandleLines(p.strategy, INIT, provider.supply, parse, CompleteLines(text)).state
    modifies p, provider
    ensures rest == Remainder(text + chunk)
    ensures HandleLines(p.strategy, INIT, provider.supply, parse, CompleteLines(text + chunk))
         == Then(HandleLines(p.strategy, INIT, provider.supply, parse, CompleteLines(text)),
                 Step(p.View(provider.used), patches))
  {
    var all := buffer + chunk;
    SplitAfter(text, chunk);
    HandleLinesAppend(p.strategy, INIT, provider.supply, parse, CompleteLines(text), CompleteLines(all));
    patches := ProcessLines(p, provider, parse, CompleteLines(all));
    rest := Remainder(all);
  }

  /** However the output is cut into chunks, and whatever other messages come in between, the patches are
      those of the whole text. */
  method ProcessLogs(msgs: seq<LogMsg>, parse: Parser, strategy: Strategy, provider: IndexProvider)
    returns (patches: seq<Patch<Entry>>)
    requires provider.used == 0
    modifies provider
    ensures patches == Interpret(strategy, provider.supply, parse, StdoutOf(msgs)).patches
  {
    hide HandleLines, CompleteLines, Remainder;
    var p := new LogProcessor(strategy);
    var buffer := "";
    ghost var text := "";
    NothingYet(strategy, provider.supply, parse);
    var i := 0;
    patches := [];
    while i < |msgs| && !msgs[i].Finished?
      invariant 0 <= i <= |msgs| && fresh(p) && p.strategy == strategy
      invariant StdoutOf(msgs) == text + StdoutOf(msgs[i..]) && buffer == Remainder(text)
      invariant Step(p.View(provider.used), patches)
             == HandleLines(strategy, INIT, provider.supply, parse, CompleteLines(text))
    {
      StdoutStep(msgs, i, text);
      if msgs[i].Stdout? {
        var more;
        buffer, more := ProcessChunk(p, provider, parse, buffer, msgs[i].text, text);
        patches := patches + more;
        text := text + msgs[i].text;
      }
      i := i + 1;
    }
    assert StdoutOf(msgs) == text;
    assert patches + [] == patches;
    if Trim(buffer) != "" {
      var k := provider.Next();
      patches := patches + [Add(k, SystemMessage(Trim(buffer)))];
    }
  }

  lemma NothingYet(strategy: Strategy, supply: Supply, parse: Parser)
    ensures HandleLines(strategy, INIT, supply, parse, CompleteLines("")) == Step(INIT, []) && Remainder("") == ""
  {
  }

  lemma StdoutStep(msgs: seq<LogMsg>, i: nat, text: string)
    requires i < |msgs| && !msgs[i].Finished?
    ensures text + StdoutOf(msgs[i..])
         == (if msgs[i].Stdout? then text + msgs[i].text else text) + StdoutOf(msgs[i + 1..])
  {
    assert msgs[i..][1..] == msgs[i + 1..];
  }

  // ---------- Behind the debouncer ----------

  lemma {:induction false} StdoutAppend(a: seq<LogMsg>, b: seq<LogMsg>)
    ensures StdoutOf(a + b) == if Finished in a then StdoutOf(a) else StdoutOf(a) + StdoutOf(b)
  {
    if a == [] {
      assert a + b == b;
    } else {
      assert (a + b)[1..] == a[1..] + b;
      StdoutAppend(a[1..], b);
    }
  }

  lemma StdoutMore(a: seq<LogMsg>, m: LogMsg)
    ensures StdoutOf(a + [m]) == if Finished !in a && m.Stdout? then StdoutOf(a) + m.text else StdoutOf(a)
  {
    StdoutAppend(a, [m]);
    var rest := [m][1..];
    assert rest == [] && StdoutOf([m]) == if m.Stdout? then m.text + StdoutOf(rest) else "";
    assert StdoutOf(a) + "" == StdoutOf(a);
  }

  lemma MergeKeepsStdout(acc: seq<LogMsg>, m: LogMsg)
    ensures StdoutOf(Debounce.Merge(acc, m)) == StdoutOf(acc + [m])
    ensures Finished in Debounce.Merge(acc, m) <==> Finished in acc + [m]
  {
    hide StdoutOf;
    StdoutMore(acc, m);
    if acc != [] {
      var init, last := acc[..|acc| - 1], acc[|acc| - 1];
      assert acc == init + [last];
      StdoutMore(init, last);
      if Debounce.IsText(m) && Debounce.IsText(last) {
        StdoutMore(init, Debounce.Typed(m.Stdout?, last.text + m.text));
        Text.Associative(StdoutOf(init), last.text, m.text);
      }
    }
    assert StdoutOf(acc) + "" == StdoutOf(acc);
  }

  lemma {:induction false} MergeAllKeepsStdout(acc: seq<LogMsg>, ms: seq<LogMsg>)
    ensures StdoutOf(Debounce.MergeAll(acc, ms)) == StdoutOf(acc + ms)
    decreases |ms|
  {
    hide StdoutOf, Debounce.Merge;
    if ms == [] {
      assert acc + ms == acc;
    } else {
      var merged, rest := Debounce.Merge(acc, ms[0]), ms[1..];
      MergeKeepsStdout(acc, ms[0]);
      MergeAllKeepsStdout(merged, rest);
      StdoutAppend(merged, rest);
      StdoutAppend(acc + [ms[0]], rest);
      assert acc + ms == acc + [ms[0]] + rest;
    }
  }

  /** Debouncing is invisible in the conversation: whatever the timing, unless a window exceeds the limit,
      the debounced stream yields the same patches as the messages that entered the debouncer. */
  lemma DebouncingIsInvisible(strategy: Strategy, supply: Supply, parse: Parser, events: seq<Debounce.Event>)
    requires Debounce.NoneTooLong(Debounce.Unlimited(Debounce.Pending(None, ""), events))
    ensures var out := Debounce.Cap(Debounce.Unlimited(Debounce.Pending(None, ""), events));
            Interpret(strategy, supply, parse, StdoutOf(Debounce.Messages(out)))
            == Interpret(strategy, supply, parse, StdoutOf(Debounce.Received(events)))
  {
    var out := Debounce.Cap(Debounce.Unlimited(Debounce.Pending(None, ""), events));
    Debounce.DebouncePreserves(events);
    MergeAllKeepsStdout([], Debounce.Messages(out));
    MergeAllKeepsStdout([], Debounce.Received(events));
    assert [] + Debounce.Messages(out) == Debounce.Messages(out);
    assert [] + Debounce.Received(events) == Debounce.Received(events);
  }
}
