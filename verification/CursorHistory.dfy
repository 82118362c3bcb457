/** The whole Cursor conversation, stated against the history of events alone: which events open an entry, in which
    order the entries stand, and what each of them shows. */
module CursorHistory {
  import opened Text
  import opened Conversation
  import opened Cursor

  // ---------- The history as reference ----------

  function TextOf(ev: Event, kind: Kind): string {
    if ev.Speech? && ev.kind == kind then ev.text else ""
  }

  /** The events that a message of a kind outlives: lines that are not JSON, and chunks of its own kind, empty ones
      included. Everything else ends it: the other kind, system, user, tool and result events, and unknown ones. */
  predicate GoesOn(ev: Event, kind: Kind) {
    match ev
    case Raw(_) => true
    case Speech(k, _) => k == kind
    case System(_) => false
    case User => false
    case ToolStarted(_, _) => false
    case ToolCompleted(_, _) => false
    case ToolOther => false
    case Result => false
    case Unknown(_) => false
  }

  /** The chunks since the last parsed event of another kind, joined. */
  function Gathered(h: seq<Event>, kind: Kind): string {
    if h == [] || !GoesOn(h[|h| - 1], kind) then ""
    else Gathered(h[..|h| - 1], kind) + TextOf(h[|h| - 1], kind)
  }

  predicate NamesModel(ev: Event) {
    ev.System? && ev.model.Some?
  }

  /** Event `i` opens an entry: it is a line, a tool call, the first model named, or the first chunk with text of
      its message. */
  predicate Opens(h: seq<Event>, i: nat)
    requires i < |h|
  {
    match h[i]
    case Raw(line) => line != ""
    case System(model) => model.Some? && forall j :: 0 <= j < i ==> !NamesModel(h[j])
    case Speech(kind, text) => text != "" && Gathered(h[..i], kind) == ""
    case ToolStarted(_, _) => true
    case Unknown(_) => true
    case _ => false
  }

  /** How many entries the first `n` events open. */
  function Rank(h: seq<Event>, n: nat): nat
    requires n <= |h|
  {
    if n == 0 then 0 else Rank(h, n - 1) + if Opens(h, n - 1) then 1 else 0
  }

  /** The chunks from event `i` up to the next parsed event of another kind, joined. */
  function Joined(h: seq<Event>, i: nat, kind: Kind): string
    requires i <= |h|
    decreases |h| - i
  {
    if i == |h| || !GoesOn(h[i], kind) then "" else TextOf(h[i], kind) + Joined(h, i + 1, kind)
  }

  predicate Starts(ev: Event, id: string) { ev.ToolStarted? && ev.call == Some(id) }
  predicate Completes(ev: Event, id: string) { ev.ToolCompleted? && ev.call == Some(id) }

  /** The last completion of a call from event `i` up to the next start of the same call. */
  function Completion(h: seq<Event>, i: nat, id: string): Option<string>
    requires i <= |h|
    decreases |h| - i
  {
    if i == |h| || Starts(h[i], id) then None
    else
      var later := Completion(h, i + 1, id);
      if later.Some? then later else if Completes(h[i], id) then Some(h[i].summary) else None
  }

  /** What the entry opened by event `i` shows at the end. */
  function Shown(h: seq<Event>, i: nat): Entry
    requires i < |h| && Opens(h, i)
  {
    match h[i]
    case Raw(line) => SystemEntry(line)
    case System(model) => SystemEntry("System initialized with model: " + model.value)
    case Speech(kind, _) => SpeechEntry(kind, Joined(h, i, kind))
    case ToolStarted(call, summary) =>
      var done := if call.Some? then Completion(h, i + 1, call.value) else None;
      if done.Some? then ToolEntry(done.value, true) else ToolEntry(summary, false)
    case Unknown(line) => SystemEntry(line)
  }

  // ---------- One event more ----------

  function Front(h: seq<Event>): seq<Event>
    requires h != []
  {
    h[..|h| - 1]
  }

  function Last(h: seq<Event>): Event
    requires h != []
  {
    h[|h| - 1]
  }

  lemma OpensFront(h: seq<Event>, i: nat)
    requires h != [] && i < |h| - 1
    ensures Opens(h, i) == Opens(Front(h), i)
  {
    assert Front(h)[..i] == h[..i];
  }

  lemma {:induction false} RankFront(h: seq<Event>, n: nat)
    requires h != [] && n <= |h| - 1
    ensures Rank(h, n) == Rank(Front(h), n)
  {
    if n > 0 {
      RankFront(h, n - 1);
      OpensFront(h, n - 1);
    }
  }

  /** Entries stand in the order they were opened. */
  lemma {:induction false} RankGrows(h: seq<Event>, i: nat, n: nat)
    requires i < n <= |h| && Opens(h, i)
    ensures Rank(h, i) < Rank(h, n)
  {
    hide Opens;
    if i < n - 1 {
      RankGrows(h, i, n - 1);
    }
  }

  /** Every position belongs to an event that opened it. */
  lemma {:induction false} RankReaches(h: seq<Event>, n: nat, k: nat) returns (i: nat)
    requires n <= |h| && k < Rank(h, n)
    ensures i < n && Opens(h, i) && Rank(h, i) == k
  {
    hide Opens;
    if k < Rank(h, n - 1) {
      i := RankReaches(h, n - 1, k);
    } else {
      i := n - 1;
    }
  }

  /** The event that opened the newest message of a kind, and the newest start of a call. */
  function LastOpening(h: seq<Event>, kind: Kind): (r: Option<nat>)
    ensures r.Some? ==> r.value < |h| && h[r.value].Speech? && h[r.value].kind == kind
  {
    if h == [] then None
    else if Last(h).Speech? && Last(h).kind == kind && Opens(h, |h| - 1) then Some(|h| - 1)
    else LastOpening(Front(h), kind)
  }

  function Latest(h: seq<Event>, id: string): (r: Option<nat>)
    ensures r.Some? ==> r.value < |h| && Starts(h[r.value], id)
  {
    if h == [] then None else if Starts(Last(h), id) then Some(|h| - 1) else Latest(Front(h), id)
  }

  ghost predicate Running(h: seq<Event>, i: nat, kind: Kind) {
    forall j :: i <= j < |h| ==> GoesOn(h[j], kind)
  }

  lemma {:induction false} JoinedMore(h: seq<Event>, i: nat, kind: Kind)
    requires h != [] && i <= |h| - 1
    ensures Joined(h, i, kind)
            == Joined(Front(h), i, kind)
               + if Running(Front(h), i, kind) && GoesOn(Last(h), kind) then TextOf(Last(h), kind) else ""
    decreases |h| - i
  {
    if i < |h| - 1 && GoesOn(h[i], kind) {
      JoinedMore(h, i + 1, kind);
      assert Running(Front(h), i, kind) == Running(Front(h), i + 1, kind);
      var more := if Running(Front(h), i, kind) && GoesOn(Last(h), kind) then TextOf(Last(h), kind) else "";
      Associative(TextOf(h[i], kind), Joined(Front(h), i + 1, kind), more);
    } else if i == |h| - 1 {
      assert Joined(h, |h|, kind) == "";
    } else {
      assert !Running(Front(h), i, kind);
    }
  }

  lemma OpeningMore(h: seq<Event>, kind: Kind)
    requires h != [] && GoesOn(Last(h), kind)
    ensures Gathered(h, kind) == Gathered(Front(h), kind) + TextOf(Last(h), kind)
    ensures LastOpening(h, kind)
            == if TextOf(Last(h), kind) != "" && Gathered(Front(h), kind) == "" then Some(|h| - 1)
               else LastOpening(Front(h), kind)
  {
    assert h[|h| - 1] == Last(h) && h[..|h| - 1] == Front(h);
    hide Gathered;
  }

  lemma OpeningNow(h: seq<Event>, kind: Kind)
    requires h != [] && GoesOn(Last(h), kind) && TextOf(Last(h), kind) != "" && Gathered(Front(h), kind) == ""
    ensures Opens(h, |h| - 1) && Joined(h, |h| - 1, kind) == TextOf(Last(h), kind)
  {
    assert Joined(h, |h|, kind) == "";
    hide Gathered;
  }

  /** The message being gathered is the one opened last, and a message that runs to the end is being gathered. */
  ghost predicate GatheredRuns(h: seq<Event>, kind: Kind) {
    Gathered(h, kind) != "" ==>
      && LastOpening(h, kind).Some? && Running(h, LastOpening(h, kind).value, kind)
      && Opens(h, LastOpening(h, kind).value)
      && Joined(h, LastOpening(h, kind).value, kind) == Gathered(h, kind)
  }

  lemma GatheredContinues(h: seq<Event>, kind: Kind)
    requires h != [] && Gathered(h, kind) != ""
    ensures GoesOn(Last(h), kind)
  {
  }

  lemma RunningOn(h: seq<Event>, i: nat, kind: Kind)
    requires h != [] && Running(Front(h), i, kind) && GoesOn(Last(h), kind)
    ensures Running(h, i, kind)
  {
    forall j | i <= j < |h|
      ensures GoesOn(h[j], kind)
    {
      assert j < |h| - 1 ==> h[j] == Front(h)[j];
    }
  }

  lemma OpeningGoesOn(h: seq<Event>, kind: Kind)
    requires h != [] && Gathered(h, kind) != "" && Gathered(Front(h), kind) != "" && GatheredRuns(Front(h), kind)
    ensures GatheredRuns(h, kind)
  {
    hide Joined, Opens, LastOpening, Gathered, Running, GoesOn, TextOf;
    GatheredContinues(h, kind);
    OpeningMore(h, kind);
    var i := LastOpening(Front(h), kind).value;
    JoinedMore(h, i, kind);
    OpensFront(h, i);
    RunningOn(h, i, kind);
  }

  lemma OpeningStarts(h: seq<Event>, kind: Kind)
    requires h != [] && Gathered(h, kind) != "" && Gathered(Front(h), kind) == ""
    ensures GatheredRuns(h, kind)
  {
    hide Joined, Opens, LastOpening, Gathered, TextOf, GoesOn;
    GatheredContinues(h, kind);
    OpeningMore(h, kind);
    OpeningNow(h, kind);
    assert forall j :: |h| - 1 <= j < |h| ==> h[j] == Last(h);
  }

  lemma {:induction false} OpeningRuns(h: seq<Event>, kind: Kind)
    ensures GatheredRuns(h, kind)
  {
    if h == [] || Gathered(h, kind) == "" {
      NothingRuns(h, kind);
    } else {
      hide GatheredRuns, Gathered;
      OpeningRuns(Front(h), kind);
      if Gathered(Front(h), kind) == "" {
        OpeningStarts(h, kind);
      } else {
        OpeningGoesOn(h, kind);
      }
    }
  }

  lemma NothingRuns(h: seq<Event>, kind: Kind)
    requires h == [] || Gathered(h, kind) == ""
    ensures GatheredRuns(h, kind)
  {
  }

  lemma {:induction false} RunningIsGathered(h: seq<Event>, i: nat, kind: Kind)
    requires i < |h| && h[i].Speech? && h[i].kind == kind && Opens(h, i) && Running(h, i, kind)
    ensures Gathered(h, kind) != "" && LastOpening(h, kind) == Some(i)
    decreases |h|
  {
    if i < |h| - 1 {
      OpensFront(h, i);
      RunningIsGathered(Front(h), i, kind);
      assert !(Last(h).Speech? && Last(h).kind == kind && Opens(h, |h| - 1));
    } else {
      assert Front(h) == h[..i];
    }
  }

  ghost predicate Unrepeated(h: seq<Event>, i: nat, id: string) {
    forall j :: i <= j < |h| ==> !Starts(h[j], id)
  }

  lemma {:induction false} CompletionMore(h: seq<Event>, i: nat, id: string)
    requires h != [] && i <= |h| - 1
    ensures Completion(h, i, id)
            == if Unrepeated(Front(h), i, id) && Completes(Last(h), id) then Some(Last(h).summary)
               else Completion(Front(h), i, id)
    decreases |h| - i
  {
    if i < |h| - 1 && !Starts(h[i], id) {
      CompletionMore(h, i + 1, id);
      assert Unrepeated(Front(h), i, id) == Unrepeated(Front(h), i + 1, id);
    } else if i == |h| - 1 {
      assert Completion(h, |h|, id) == None;
    } else {
      assert !Unrepeated(Front(h), i, id);
    }
  }

  lemma {:induction false} LatestIsUnrepeated(h: seq<Event>, i: nat, id: string)
    requires i < |h| && Starts(h[i], id)
    ensures Unrepeated(h, i + 1, id) <==> Latest(h, id) == Some(i)
  {
    if i < |h| - 1 {
      LatestIsUnrepeated(Front(h), i, id);
    }
  }

  // ---------- What an event changes ----------

  /** The event whose entry the last event changes. */
  function Changes(h: seq<Event>): Option<nat>
    requires h != []
  {
    match Last(h)
    case Speech(kind, text) =>
      if text != "" && Gathered(Front(h), kind) != "" then LastOpening(Front(h), kind) else None
    case ToolCompleted(call, _) => if call.Some? then Latest(Front(h), call.value) else None
    case _ => None
  }

  lemma ShownSpeech(h: seq<Event>, i: nat)
    requires h != [] && i < |h| - 1 && Opens(h, i) && Opens(Front(h), i) && h[i].Speech?
    ensures Changes(h) != Some(i) ==> Shown(h, i) == Shown(Front(h), i)
    ensures Changes(h) == Some(i) ==> Shown(h, i) == SpeechEntry(h[i].kind, Gathered(h, h[i].kind))
  {
    var kind, p := h[i].kind, Front(h);
    JoinedMore(h, i, kind);
    OpeningRuns(p, kind);
    if Running(p, i, kind) {
      RunningIsGathered(p, i, kind);
    }
    assert Joined(p, i, kind) + "" == Joined(p, i, kind);
    hide Joined, Opens, Running;
  }

  lemma ShownTool(h: seq<Event>, i: nat)
    requires h != [] && i < |h| - 1 && Opens(h, i) && Opens(Front(h), i) && h[i].ToolStarted?
    ensures Changes(h) != Some(i) ==> Shown(h, i) == Shown(Front(h), i)
    ensures Changes(h) == Some(i) ==> Last(h).ToolCompleted? && Shown(h, i) == ToolEntry(Last(h).summary, true)
  {
    if h[i].call.Some? {
      CompletionMore(h, i + 1, h[i].call.value);
      LatestIsUnrepeated(Front(h), i, h[i].call.value);
    }
    hide Completion, Unrepeated;
  }

  /** An entry shows what it showed, unless the event changes it. */
  lemma ShownBefore(h: seq<Event>, i: nat)
    requires h != [] && i < |h| - 1 && Opens(h, i)
    ensures Opens(Front(h), i) && (Changes(h) != Some(i) ==> Shown(h, i) == Shown(Front(h), i))
  {
    OpensFront(h, i);
    match h[i]
    case Speech(_, _) => ShownSpeech(h, i);
    case ToolStarted(_, _) => ShownTool(h, i);
    case _ =>
  }

  // ---------- The processor follows ----------

  ghost predicate MessageAt(s: State, h: seq<Event>, supply: Supply, kind: Kind) {
    var l, at := Of(s, kind), LastOpening(h, kind);
    && l.buffer == Gathered(h, kind)
    && if l.buffer == "" then l.index == None else at.Some? && l.index == Some(supply(Rank(h, at.value)))
  }

  ghost predicate CallAt(s: State, h: seq<Event>, supply: Supply, id: string) {
    && (id in s.calls <==> Latest(h, id).Some?)
    && (id in s.calls ==> s.calls[id] == supply(Rank(h, Latest(h, id).value)))
  }

  ghost predicate Knows(s: State, h: seq<Event>, supply: Supply) {
    && s.used == Rank(h, |h|) && s.modelReported == (exists j :: 0 <= j < |h| && NamesModel(h[j]))
    && (forall kind :: MessageAt(s, h, supply, kind)) && forall id :: CallAt(s, h, supply, id)
  }

  /** The entry opened by event `i` stands where it should and shows what it should. */
  ghost predicate StandsAt(b: Board<Entry>, h: seq<Event>, supply: Supply, i: nat)
    requires i < |h| && Opens(h, i)
  {
    supply(Rank(h, i)) in b && b[supply(Rank(h, i))] == Shown(h, i)
  }

  ghost predicate Stands(b: Board<Entry>, h: seq<Event>, supply: Supply) {
    forall i :: 0 <= i < |h| && Opens(h, i) ==> StandsAt(b, h, supply, i)
  }

  /** The patch of one event: add an entry if it opens one, replace the one it changes, or nothing. */
  ghost predicate PatchIs(h: seq<Event>, supply: Supply, ps: seq<Patch<Entry>>)
    requires h != []
  {
    var n := |h| - 1;
    if Opens(h, n) then ps == [Add(supply(Rank(h, n)), Shown(h, n))]
    else if Changes(h).Some? then
      var i := Changes(h).value;
      i < n && Opens(h, i) && ps == [Replace(supply(Rank(h, i)), Shown(h, i))]
    else ps == []
  }

  lemma SpeechPatch(s: State, h: seq<Event>, supply: Supply)
    requires h != [] && Last(h).Speech? && MessageAt(s, Front(h), supply, Last(h).kind)
             && s.used == Rank(Front(h), |h| - 1)
    ensures PatchIs(h, supply, Normalize(s, supply, Last(h)).patches)
  {
    var n, kind, text := |h| - 1, Last(h).kind, Last(h).text;
    var l := Of(s, kind);
    assert Of(Interrupt(s, Last(h)), kind) == l;
    if text == "" {
      assert !Opens(h, n) && Changes(h) == None;
    } else if l.buffer == "" {
      RankFront(h, n);
      assert Joined(h, n, kind) == text + Joined(h, n + 1, kind) == text + "" == "" + text;
    } else {
      var i := Changes(h).value;
      OpeningRuns(Front(h), kind);
      OpensFront(h, i);
      RankFront(h, i);
      ShownSpeech(h, i);
    }
    hide Interrupt, Rank, Running, LastOpening, Joined;
  }

  lemma CompletedPatch(s: State, h: seq<Event>, supply: Supply, id: string)
    requires h != [] && Completes(Last(h), id) && CallAt(s, Front(h), supply, id)
    ensures PatchIs(h, supply, Normalize(s, supply, Last(h)).patches)
  {
    if Changes(h).Some? {
      var i := Changes(h).value;
      OpensFront(h, i);
      RankFront(h, i);
      ShownTool(h, i);
    }
    hide Rank, Latest;
  }

  lemma EventPatch(s: State, h: seq<Event>, supply: Supply)
    requires h != [] && Knows(s, Front(h), supply)
    ensures PatchIs(h, supply, Normalize(s, supply, Last(h)).patches)
  {
    RankFront(h, |h| - 1);
    match Last(h)
    case Speech(kind, _) =>
      assert MessageAt(s, Front(h), supply, kind);
      SpeechPatch(s, h, supply);
    case ToolCompleted(call, _) =>
      if call.Some? {
        assert CallAt(s, Front(h), supply, call.value);
        CompletedPatch(s, h, supply, call.value);
      }
    case ToolStarted(call, _) =>
      assert call.Some? ==> Completion(h, |h|, call.value) == None;
    case _ =>
    hide MessageAt, CallAt, Rank, LastOpening, Latest, Gathered;
  }

  lemma UsedAfter(s: State, supply: Supply, ev: Event)
    ensures var st := Normalize(s, supply, ev);
            st.state.used == s.used + if |st.patches| == 1 && st.patches[0].Add? then 1 else 0
  {
  }

  lemma RankLast(h: seq<Event>)
    requires h != []
    ensures Rank(h, |h|) == Rank(Front(h), |h| - 1) + if Opens(h, |h| - 1) then 1 else 0
  {
    hide Opens;
    RankFront(h, |h| - 1);
  }

  lemma UsedMore(s: State, h: seq<Event>, supply: Supply)
    requires h != [] && s.used == Rank(Front(h), |h| - 1) && PatchIs(h, supply, Normalize(s, supply, Last(h)).patches)
    ensures Normalize(s, supply, Last(h)).state.used == Rank(h, |h|)
  {
    hide Opens, Shown, Changes, Normalize, Rank;
    UsedAfter(s, supply, Last(h));
    RankLast(h);
  }

  lemma RankOfOpening(h: seq<Event>, kind: Kind)
    requires h != [] && LastOpening(Front(h), kind).Some?
    ensures var i := LastOpening(Front(h), kind).value; i < |h| && Rank(h, i) == Rank(Front(h), i)
  {
    RankFront(h, LastOpening(Front(h), kind).value);
  }

  lemma ChunkMore(s: State, h: seq<Event>, supply: Supply, kind: Kind)
    requires h != [] && MessageAt(s, Front(h), supply, kind) && s.used == Rank(Front(h), |h| - 1)
    requires GoesOn(Last(h), kind)
    ensures MessageAt(Normalize(s, supply, Last(h)).state, h, supply, kind)
  {
    hide Normalize, Rank, Opens, Texts, Gathered, LastOpening, Of;
    RankFront(h, |h| - 1);
    if LastOpening(Front(h), kind).Some? { RankOfOpening(h, kind); }
    ContinueKeeps(s, supply, Last(h), kind);
    TextsOne(Last(h), kind);
    OpeningMore(h, kind);
  }

  lemma MessageMore(s: State, h: seq<Event>, supply: Supply, kind: Kind)
    requires h != [] && MessageAt(s, Front(h), supply, kind) && s.used == Rank(Front(h), |h| - 1)
    ensures MessageAt(Normalize(s, supply, Last(h)).state, h, supply, kind)
  {
    hide Normalize, Rank, Opens;
    if GoesOn(Last(h), kind) {
      ChunkMore(s, h, supply, kind);
    } else {
      EndIdles(s, supply, Last(h), kind);
      assert Gathered(h, kind) == "";
    }
  }

  lemma TextsOne(ev: Event, kind: Kind)
    ensures Texts([ev], kind) == TextOf(ev, kind)
  {
    var none := [ev][..0];
    assert none == [] && Texts(none, kind) == "";
  }

  lemma CallsAfter(s: State, supply: Supply, ev: Event)
    ensures Normalize(s, supply, ev).state.calls
            == if ev.ToolStarted? && ev.call.Some? then s.calls[ev.call.value := supply(s.used)] else s.calls
  {
  }

  lemma LatestMore(h: seq<Event>, id: string)
    requires h != []
    ensures Latest(h, id) == if Starts(Last(h), id) then Some(|h| - 1) else Latest(Front(h), id)
  {
  }

  lemma RankOfLatest(h: seq<Event>, id: string)
    requires h != [] && Latest(Front(h), id).Some?
    ensures var i := Latest(Front(h), id).value; i < |h| && Rank(h, i) == Rank(Front(h), i)
  {
    hide Rank;
    RankFront(h, Latest(Front(h), id).value);
  }

  lemma CallMore(s: State, h: seq<Event>, supply: Supply, id: string)
    requires h != [] && CallAt(s, Front(h), supply, id) && s.used == Rank(Front(h), |h| - 1)
    ensures CallAt(Normalize(s, supply, Last(h)).state, h, supply, id)
  {
    hide Rank, Normalize, Latest;
    CallsAfter(s, supply, Last(h));
    RankFront(h, |h| - 1);
    LatestMore(h, id);
    if Latest(Front(h), id).Some? { RankOfLatest(h, id); }
  }

  lemma ModelMore(s: State, h: seq<Event>, supply: Supply)
    requires h != [] && s.modelReported == (exists j :: 0 <= j < |h| - 1 && NamesModel(Front(h)[j]))
    ensures Normalize(s, supply, Last(h)).state.modelReported == exists j :: 0 <= j < |h| && NamesModel(h[j])
  {
    assert forall j :: 0 <= j < |h| - 1 ==> h[j] == Front(h)[j];
    assert NamesModel(Last(h)) ==> NamesModel(h[|h| - 1]);
  }

  lemma KnowsMore(s: State, h: seq<Event>, supply: Supply)
    requires h != [] && Knows(s, Front(h), supply)
    ensures Knows(Normalize(s, supply, Last(h)).state, h, supply)
  {
    EventPatch(s, h, supply);
    UsedMore(s, h, supply);
    ModelMore(s, h, supply);
    hide Normalize, MessageAt, CallAt, PatchIs;
    forall kind
      ensures MessageAt(Normalize(s, supply, Last(h)).state, h, supply, kind)
    {
      assert MessageAt(s, Front(h), supply, kind);
      MessageMore(s, h, supply, kind);
    }
    forall id
      ensures CallAt(Normalize(s, supply, Last(h)).state, h, supply, id)
    {
      assert CallAt(s, Front(h), supply, id);
      CallMore(s, h, supply, id);
    }
  }

  lemma RanksApart(h: seq<Event>, supply: Supply, i: nat, j: nat)
    requires NeverRepeats(supply) && i < |h| && j < |h| && i != j && Opens(h, i) && Opens(h, j)
    ensures supply(Rank(h, i)) != supply(Rank(h, j))
  {
    if i < j { RankGrows(h, i, j); } else { RankGrows(h, j, i); }
    hide Rank, Opens;
  }

  lemma StandsMore(b: Board<Entry>, h: seq<Event>, supply: Supply, ps: seq<Patch<Entry>>, i: nat)
    requires NeverRepeats(supply) && h != [] && Stands(b, Front(h), supply) && PatchIs(h, supply, ps)
    requires i < |h| && Opens(h, i)
    ensures StandsAt(BoardAfter(b, ps), h, supply, i)
  {
    var n := |h| - 1;
    hide Shown, NeverRepeats, Rank;
    if i < n {
      ShownBefore(h, i);
      RankFront(h, i);
      assert StandsAt(b, Front(h), supply, i);
      if Opens(h, n) {
        RanksApart(h, supply, i, n);
      } else if Changes(h).Some? && Changes(h).value != i {
        RanksApart(h, supply, i, Changes(h).value);
      }
    }
    hide Opens, Changes;
  }

  /** Over every run, whoever else draws positions, the conversation is exactly what the history says: each event
      that opens an entry has one of its own, the entries stand in the order they were opened, each shows its whole
      message, or its call with the last completion before the call was started again, and there is nothing
      else. */
  lemma {:induction false} RunShowsHistory(supply: Supply, h: seq<Event>)
    requires NeverRepeats(supply)
    ensures Run(supply, h).state.used == Rank(h, |h|) && Stands(BoardOf(supply, h), h, supply)
    ensures forall p: nat ::
              p in BoardOf(supply, h) <==> exists i :: 0 <= i < |h| && Opens(h, i) && p == supply(Rank(h, i))
  {
    RunKnows(supply, h);
    RunStands(supply, h);
    BoardIs(supply, h);
    hide Run, BoardOf, Opens, Rank, Shown, LiveShown, CallsShown;
    var b := BoardOf(supply, h);
    forall p: nat
      ensures p in b <==> exists i :: 0 <= i < |h| && Opens(h, i) && p == supply(Rank(h, i))
    {
      if IsHanded(supply, Rank(h, |h|), p) {
        var k: nat :| k < Rank(h, |h|) && supply(k) == p;
        var i := RankReaches(h, |h|, k);
        assert Opens(h, i) && p == supply(Rank(h, i));
      }
    }
  }

  lemma {:induction false} RunKnows(supply: Supply, h: seq<Event>)
    ensures Knows(Run(supply, h).state, h, supply)
  {
    if h != [] {
      RunKnows(supply, Front(h));
      hide Normalize, Knows;
      KnowsMore(Run(supply, Front(h)).state, h, supply);
    }
  }

  lemma {:induction false} RunStands(supply: Supply, h: seq<Event>)
    requires NeverRepeats(supply)
    ensures Stands(BoardOf(supply, h), h, supply)
  {
    hide Normalize, Knows, StandsAt, BoardOf, Opens, PatchIs;
    if h != [] {
      var p, ev := Front(h), Last(h);
      assert p + [ev] == h;
      RunStands(supply, p);
      RunKnows(supply, p);
      var s, b := Run(supply, p).state, BoardOf(supply, p);
      RunMore(supply, p, ev);
      PlayIsBoardAfter(s, b, supply, ev);
      EventPatch(s, h, supply);
      forall i | 0 <= i < |h| && Opens(h, i)
        ensures StandsAt(BoardOf(supply, h), h, supply, i)
      {
        StandsMore(b, h, supply, Normalize(s, supply, ev).patches, i);
      }
    }
  }

  // ---------- Calls ----------

  lemma {:induction false} RestartEnds(h: seq<Event>, i: nat, j: nat, id: string)
    requires i <= j < |h| && Starts(h[j], id)
    ensures Completion(h, i, id) == Completion(h[..j], i, id)
    decreases j - i
  {
    if i < j {
      RestartEnds(h, i + 1, j, id);
    }
  }

  ghost predicate CallStands(supply: Supply, h: seq<Event>, i: nat, id: string)
    requires NeverRepeats(supply) && i < |h| && Starts(h[i], id)
  {
    var b, p, done := BoardOf(supply, h), supply(Rank(h, i)), Completion(h, i + 1, id);
    p in b && b[p] == if done.Some? then ToolEntry(done.value, true) else ToolEntry(h[i].summary, false)
  }

  lemma CallIsShown(supply: Supply, h: seq<Event>, i: nat, id: string)
    requires NeverRepeats(supply) && i < |h| && Starts(h[i], id)
    ensures CallStands(supply, h, i, id)
  {
    hide Run, BoardOf, Rank, Completion;
    RunShowsHistory(supply, h);
    assert Opens(h, i) && StandsAt(BoardOf(supply, h), h, supply, i);
  }

  /** Every start of a call has an entry of its own: it shows the last completion that followed, and once the call is
      started again, what it showed then, for good. */
  lemma RunShowsCalls(supply: Supply, h: seq<Event>, i: nat, id: string)
    requires NeverRepeats(supply) && i < |h| && Starts(h[i], id)
    ensures CallStands(supply, h, i, id)
    ensures forall j :: i < j < |h| && Starts(h[j], id) ==>
              var b, earlier, p := BoardOf(supply, h), BoardOf(supply, h[..j]), supply(Rank(h, i));
              p != supply(Rank(h, j)) && p in earlier && b[p] == earlier[p]
  {
    hide Run, BoardOf, Rank, Completion, NeverRepeats;
    CallIsShown(supply, h, i, id);
    forall j | i < j < |h| && Starts(h[j], id)
      ensures Rank(h[..j], i) == Rank(h, i) && Completion(h, i + 1, id) == Completion(h[..j], i + 1, id)
      ensures supply(Rank(h, i)) != supply(Rank(h, j)) && CallStands(supply, h[..j], i, id)
    {
      CallIsShown(supply, h[..j], i, id);
      RanksApart(h, supply, i, j);
      RankPrefix(h, j, i);
      RestartEnds(h, i + 1, j, id);
    }
  }

  lemma {:induction false} RankPrefix(h: seq<Event>, j: nat, n: nat)
    requires n <= j <= |h|
    ensures Rank(h[..j], n) == Rank(h, n)
  {
    if n > 0 {
      RankPrefix(h, j, n - 1);
      assert h[..j][..n - 1] == h[..n - 1];
    }
  }
}
