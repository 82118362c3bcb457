/** What the plain text processor guarantees over every run. */
module PlainTextProperties {
  import opened Text
  import opened Conversation
  import opened PlainText

  function Spelled(cuts: seq<Cut>): string {
    if cuts == [] then "" else Spelled(cuts[..|cuts| - 1]) + Concat(cuts[|cuts| - 1].lines)
  }

  /** All text the processor has taken in and not lost. */
  function Held(p: Progress): string {
    Spelled(p.cuts) + Concat(p.state.lines)
  }

  /** Reaches the threshold, and would not without its last line. */
  ghost predicate SizeCut(lines: seq<string>, threshold: nat) {
    lines != [] && TotalLen(lines) >= threshold && (|lines| > 1 ==> TotalLen(lines[..|lines| - 1]) < threshold)
  }

  ghost predicate CutsOk(cuts: seq<Cut>, cfg: Config) {
    forall k :: 0 <= k < |cuts| ==>
      cuts[k].lines != [] && (cuts[k].bySize ==> cfg.threshold.Some? && SizeCut(cuts[k].lines, cfg.threshold.value))
  }

  /** The k-th closed entry stands at the k-th position drawn. */
  ghost predicate CutsShown(b: Board<string>, supply: Supply, cuts: seq<Cut>) {
    forall k :: 0 <= k < |cuts| ==> supply(k) in b && b[supply(k)] == Concat(cuts[k].lines)
  }

  /** The open entry has the last position drawn. */
  ghost predicate OpenLast(p: Progress, supply: Supply) {
    && p.state.used == |p.cuts| + (if p.state.open.Some? then 1 else 0)
    && (p.state.open.Some? ==> p.state.open.value == supply(|p.cuts|))
  }

  ghost predicate OnBoard(p: Progress, supply: Supply) {
    && Disciplined(map[], p.patches)
    && Added(p.patches) == Handed(supply, 0, p.state.used)
    && Holds(Play(map[], p.patches), supply, p.state.used)
    && CutsShown(Play(map[], p.patches), supply, p.cuts)
  }

  ghost predicate Good(p: Progress, supply: Supply, cfg: Config) {
    IsLines(p.state.lines) && OpenLast(p, supply) && CutsOk(p.cuts, cfg) && OnBoard(p, supply)
  }

  /** What the open entry shows. */
  ghost function OpenText(p: Progress): string
    requires Disciplined(map[], p.patches)
  {
    var b := Play(map[], p.patches);
    if p.state.open.Some? && p.state.open.value in b then b[p.state.open.value] else ""
  }

  // ---------- One step ----------

  lemma IsNotHanded(b: Board<string>, supply: Supply, used: nat, k: nat)
    requires NeverRepeats(supply) && Holds(b, supply, used)
    ensures supply(k) in b <==> k < used
  {
    if k < used {
      assert IsHanded(supply, used, supply(k));
    }
  }

  lemma Emits(p: Progress, supply: Supply, content: string)
    requires NeverRepeats(supply) && OpenLast(p, supply) && OnBoard(p, supply)
    ensures var q := Emit(p, supply, content);
            && OnBoard(q, supply) && OpenLast(q, supply) && q.state.open.Some?
            && Play(map[], q.patches) == Play(map[], p.patches)[supply(|p.cuts|) := content]
  {
    var b, i, q := Play(map[], p.patches), supply(|p.cuts|), Emit(p, supply, content);
    var patch := if p.state.open.Some? then Replace(i, content) else Add(i, content);
    IsNotHanded(b, supply, p.state.used, |p.cuts|);
    PlayOne(b, patch);
    PlayAppend(map[], p.patches, [patch]);
    HoldsPatch(b, supply, p.state.used, patch);
    HandedAppend(supply, 0, p.state.used, q.state.used);
    ShownKept(b, supply, p.cuts, content);
    hide Play, Disciplined, Added, Holds, CutsShown, NeverRepeats;
  }

  /** Writing the open entry leaves the closed ones alone. */
  lemma ShownKept(b: Board<string>, supply: Supply, cuts: seq<Cut>, content: string)
    requires NeverRepeats(supply) && CutsShown(b, supply, cuts)
    ensures CutsShown(b[supply(|cuts|) := content], supply, cuts)
  {
    hide Concat;
  }

  lemma SpelledMore(cuts: seq<Cut>, c: Cut)
    ensures Spelled(cuts + [c]) == Spelled(cuts) + Concat(c.lines)
  {
    assert (cuts + [c])[..|cuts|] == cuts;
  }

  lemma Closes(p: Progress, supply: Supply, cfg: Config, n: nat, bySize: bool)
    requires NeverRepeats(supply) && Good(p, supply, cfg) && 0 < n <= |p.state.lines|
    requires bySize ==> cfg.threshold.Some? && SizeCut(p.state.lines[..n], cfg.threshold.value)
    ensures var q := Close(p, supply, n, bySize);
            Good(q, supply, cfg) && Held(q) == Held(p) && q.state.open.None? && |q.state.lines| < |p.state.lines|
  {
    hide IsLines, Disciplined, Play, Added, Holds, NeverRepeats, Concat, Spelled, CutsOk, CutsShown, SizeCut;
    var front, rest := p.state.lines[..n], p.state.lines[n..];
    var p1 := p.(state := p.state.(lines := rest));
    Emits(p1, supply, Concat(front));
    RestIsLines(p.state.lines, n);
    CloseText(p.cuts, p.state.lines, n, bySize);
    CloseCuts(Play(map[], p.patches), supply, p, cfg, Cut(front, bySize));
  }

  lemma CloseText(cuts: seq<Cut>, lines: seq<string>, n: nat, bySize: bool)
    requires n <= |lines|
    ensures Spelled(cuts + [Cut(lines[..n], bySize)]) + Concat(lines[n..]) == Spelled(cuts) + Concat(lines)
  {
    SpelledMore(cuts, Cut(lines[..n], bySize));
    ConcatAppend(lines[..n], lines[n..]);
    assert lines == lines[..n] + lines[n..];
    Associative(Spelled(cuts), Concat(lines[..n]), Concat(lines[n..]));
  }

  lemma CloseCuts(b: Board<string>, supply: Supply, p: Progress, cfg: Config, c: Cut)
    requires NeverRepeats(supply) && CutsShown(b, supply, p.cuts) && CutsOk(p.cuts, cfg)
    requires c.lines != [] && (c.bySize ==> cfg.threshold.Some? && SizeCut(c.lines, cfg.threshold.value))
    ensures CutsOk(p.cuts + [c], cfg) && CutsShown(b[supply(|p.cuts|) := Concat(c.lines)], supply, p.cuts + [c])
  {
    hide Concat, SizeCut;
  }

  // ---------- One chunk ----------

  lemma {:induction false} BoundariesGood(p: Progress, supply: Supply, cfg: Config)
    requires NeverRepeats(supply) && Sound(cfg.boundary) && Good(p, supply, cfg)
    ensures var q := CloseAtBoundaries(p, supply, cfg.boundary);
            && Good(q, supply, cfg) && Held(q) == Held(p) && !SplitsAt(cfg.boundary, q.state.lines)
            && (q == p || q.state.open.None?)
    decreases |p.state.lines|
  {
    hide Good, Held, Close;
    if SplitsAt(cfg.boundary, p.state.lines) {
      Closes(p, supply, cfg, SplitCount(p, cfg.boundary), false);
      BoundariesGood(Turn(p, supply, cfg.boundary), supply, cfg);
    }
  }

  lemma SizeCutTaken(lines: seq<string>, threshold: nat)
    requires lines != [] && TotalLen(lines) >= threshold
    ensures SizeCut(lines[..SizeCount(lines, threshold, 0)], threshold)
  {
    var n := SizeCount(lines, threshold, 0);
    SizeCountBounds(lines, threshold, 0);
    assert n == |lines| ==> lines[..n] == lines;
    assert lines[..n][..n - 1] == lines[..n - 1];
    hide TotalLen, SizeCount;
  }

  lemma {:induction false} SizesGood(p: Progress, supply: Supply, cfg: Config)
    requires NeverRepeats(supply) && cfg.threshold.Some? && Good(p, supply, cfg)
    ensures var q := CloseBySize(p, supply, cfg.threshold.value);
            && Good(q, supply, cfg) && Held(q) == Held(p) && (q == p || q.state.open.None?)
            && (q.state.lines == [] || TotalLen(q.state.lines) < cfg.threshold.value)
    decreases |p.state.lines|
  {
    hide Good, Held, Close, SizeCount, TotalLen, SizeCut;
    var t := cfg.threshold.value;
    if TotalLen(p.state.lines) >= t && p.state.lines != [] {
      SizeCutTaken(p.state.lines, t);
      Closes(p, supply, cfg, SizeCount(p.state.lines, t, 0), true);
      SizesGood(Close(p, supply, SizeCount(p.state.lines, t, 0), true), supply, cfg);
    }
  }

  lemma ShowsRest(p: Progress, supply: Supply, cfg: Config)
    requires NeverRepeats(supply) && Good(p, supply, cfg)
    ensures var q := ShowRest(p, supply);
            && Good(q, supply, cfg) && Held(q) == Held(p) && q.state.lines == p.state.lines && q.cuts == p.cuts
            && (p.state.lines != [] ==> q.state.open.Some? && OpenText(q) == Concat(p.state.lines))
  {
    if p.state.lines != [] {
      Emits(p, supply, Concat(p.state.lines));
    }
    hide IsLines, Disciplined, Play, Added, Holds, NeverRepeats, Concat, Spelled, CutsOk, CutsShown;
  }

  /** The open entry agrees with the buffer, as far as it was allowed to. */
  ghost predicate InStep(p: Progress, cfg: Config) {
    && Behind(p)
    && ((p.state.lines != [] ==> p.state.open.Some? && OpenText(p) == Concat(p.state.lines)) || Waits(cfg, p))
  }

  /** The open entry shows a prefix of the buffer. */
  ghost predicate Behind(p: Progress) {
    && Disciplined(map[], p.patches)
    && (p.state.open.Some? ==> OpenText(p) <= Concat(p.state.lines) && p.state.lines != [])
  }

  lemma ReadyGood(p: Progress, supply: Supply, cfg: Config)
    requires NeverRepeats(supply) && Sound(cfg.boundary) && Good(p, supply, cfg)
    ensures var q := AfterIngest(p, supply, cfg); Good(q, supply, cfg) && Held(q) == Held(p)
    ensures Behind(p) ==> InStep(AfterIngest(p, supply, cfg), cfg)
  {
    var q := CloseAtBoundaries(p, supply, cfg.boundary);
    BoundariesGood(p, supply, cfg);
    if !Waits(cfg, q) {
      var r := Sized(q, supply, cfg);
      if cfg.threshold.Some? { SizesGood(q, supply, cfg); }
      ShowsRest(r, supply, cfg);
    }
    hide Held, CloseAtBoundaries, CloseBySize, ShowRest, Concat, IsLines, CutsOk, CutsShown, Play, Disciplined;
  }

  // ---------- Runs ----------

  function Input(cs: seq<Chunk>): string {
    if cs == [] then "" else Input(cs[..|cs| - 1]) + cs[|cs| - 1].text
  }

  /** With a time gap, a chunk that comes after it is dropped if it has text and the buffer holds some. */
  predicate IsLate(p: Progress, cfg: Config, c: Chunk) {
    cfg.hasGap && c.late && c.text != "" && p.state.lines != []
  }

  /** No chunk came after the time gap while the buffer held text. */
  ghost predicate NothingDropped(supply: Supply, cfg: Config, cs: seq<Chunk>)
    requires Sound(cfg.boundary)
  {
    cs == [] || (NothingDropped(supply, cfg, cs[..|cs| - 1])
                 && !IsLate(Run(supply, cfg, cs[..|cs| - 1]), cfg, cs[|cs| - 1]))
  }

  lemma FilledGood(p: Progress, supply: Supply, cfg: Config, text: string)
    requires Good(p, supply, cfg) && text != ""
    ensures Good(Filled(p, text), supply, cfg) && Held(Filled(p, text)) == Held(p) + text
    ensures Behind(p) ==> Behind(Filled(p, text))
  {
    IngestIsSplit(p.state.lines, text);
    Associative(Spelled(p.cuts), Concat(p.state.lines), text);
    assert Concat([]) == "";
    hide Ingested, Concat, Spelled, IsLines, Play, Disciplined, CutsOk, CutsShown;
  }

  lemma DropGood(p: Progress, supply: Supply, cfg: Config)
    requires NeverRepeats(supply) && Good(p, supply, cfg)
    ensures Good(DropLate(p, supply), supply, cfg) && |Held(DropLate(p, supply))| <= |Held(p)|
  {
    var p1 := p.(state := p.state.(lines := []));
    Emits(p1, supply, Concat(p.state.lines));
    assert IsLines([]) && Concat([]) == "";
    hide Concat, Spelled, IsLines, Play, Disciplined, CutsOk, CutsShown, Holds, NeverRepeats;
  }

  lemma ChunkGood(p: Progress, supply: Supply, cfg: Config, c: Chunk)
    requires NeverRepeats(supply) && Sound(cfg.boundary) && Good(p, supply, cfg)
    ensures var q := Processed(p, supply, cfg, c);
            && Good(q, supply, cfg)
            && (if Drops(p, cfg, c) then |Held(q)| <= |Held(p)| else Held(q) == Held(p) + c.text)
            && (InStep(p, cfg) && !Drops(p, cfg, c) ==> InStep(q, cfg))
  {
    if c.text == "" {
      assert Held(p) + "" == Held(p);
    } else if Drops(p, cfg, c) {
      DropGood(p, supply, cfg);
    } else {
      FilledGood(p, supply, cfg, c.text);
      ReadyGood(Filled(p, c.text), supply, cfg);
    }
    hide Good, Held, DropLate, Filled, AfterIngest, Behind, OpenText, Waits;
  }

  lemma StartGood(supply: Supply, cfg: Config)
    ensures Good(START, supply, cfg) && InStep(START, cfg) && Held(START) == ""
  {
  }

  /** Over every run: each position drawn is added once, the k-th entry closed stands at the k-th position
      drawn and is never touched again, and each entry closed for its size reaches the threshold but would
      not without its last line. */
  lemma {:induction false} RunGood(supply: Supply, cfg: Config, cs: seq<Chunk>)
    requires NeverRepeats(supply) && Sound(cfg.boundary)
    ensures Good(Run(supply, cfg, cs), supply, cfg)
  {
    hide Good, Processed;
    if cs == [] {
      StartGood(supply, cfg);
    } else {
      RunGood(supply, cfg, cs[..|cs| - 1]);
      ChunkGood(Run(supply, cfg, cs[..|cs| - 1]), supply, cfg, cs[|cs| - 1]);
    }
  }

  /** The closed entries followed by the buffer spell the input exactly when no chunk came late. */
  lemma {:induction false} Conserves(supply: Supply, cfg: Config, cs: seq<Chunk>)
    requires NeverRepeats(supply) && Sound(cfg.boundary)
    ensures Held(Run(supply, cfg, cs)) == Input(cs) <==> NothingDropped(supply, cfg, cs)
    ensures |Held(Run(supply, cfg, cs))| <= |Input(cs)|
    ensures !NothingDropped(supply, cfg, cs) ==> |Held(Run(supply, cfg, cs))| < |Input(cs)|
  {
    hide Good, Processed, Held;
    if cs == [] {
      StartGood(supply, cfg);
    } else {
      Conserves(supply, cfg, cs[..|cs| - 1]);
      RunGood(supply, cfg, cs[..|cs| - 1]);
      ChunkGood(Run(supply, cfg, cs[..|cs| - 1]), supply, cfg, cs[|cs| - 1]);
    }
  }

  /** While no chunk comes late, the open entry shows a prefix of the buffer, and all of it unless the
      predicate asked to wait for more. */
  lemma {:induction false} OpenFollows(supply: Supply, cfg: Config, cs: seq<Chunk>)
    requires NeverRepeats(supply) && Sound(cfg.boundary) && NothingDropped(supply, cfg, cs)
    ensures InStep(Run(supply, cfg, cs), cfg)
  {
    hide Good, Processed, Held, InStep;
    if cs == [] {
      StartGood(supply, cfg);
    } else {
      OpenFollows(supply, cfg, cs[..|cs| - 1]);
      RunGood(supply, cfg, cs[..|cs| - 1]);
      ChunkGood(Run(supply, cfg, cs[..|cs| - 1]), supply, cfg, cs[|cs| - 1]);
    }
  }

  /** Without a time gap nothing is ever lost, and a threshold is always in force. */
  lemma {:induction false} NoGapConserves(supply: Supply, size: Option<nat>, boundary: BoundaryFn, cs: seq<Chunk>)
    requires NeverRepeats(supply) && Sound(boundary)
    ensures var cfg := Configure(size, false, boundary); var p := Run(supply, cfg, cs);
            && NothingDropped(supply, cfg, cs) && Held(p) == Input(cs)
            && cfg.threshold == Some(if size.Some? then size.value else 8192)
  {
    var cfg := Configure(size, false, boundary);
    Conserves(supply, cfg, cs);
    hide Held, Run;
    if cs != [] {
      NoGapConserves(supply, size, boundary, cs[..|cs| - 1]);
    }
  }

  /** In every run a late chunk shows the buffer in the open entry, empties it, closes nothing, and adds nothing. */
  lemma LateChunkFlushes(supply: Supply, cfg: Config, cs: seq<Chunk>, c: Chunk)
    requires NeverRepeats(supply) && Sound(cfg.boundary) && IsLate(Run(supply, cfg, cs), cfg, c)
    ensures var p, q := Run(supply, cfg, cs), Run(supply, cfg, cs + [c]);
            && q.state.lines == [] && q.cuts == p.cuts && q.state.open.Some?
            && Disciplined(map[], q.patches) && OpenText(q) == Concat(p.state.lines)
  {
    var p := Run(supply, cfg, cs);
    RunMore(supply, cfg, cs, c);
    RunGood(supply, cfg, cs);
    hide Run, AfterIngest, Concat, NeverRepeats;
    Emits(p.(state := p.state.(lines := [])), supply, Concat(p.state.lines));
  }

  /** No predicate cuts the buffer, and one byte does not reach a threshold, if there is one. */
  ghost predicate OneByteStays(cfg: Config) {
    (cfg.threshold.Some? ==> cfg.threshold.value > 1) && forall lines :: cfg.boundary(lines) == None
  }

  /** With a gap, a chunk that comes late is lost, and the chunk after it takes over the entry that showed
      the text before. */
  lemma LateChunkIsLost(cfg: Config)
    requires cfg.hasGap && OneByteStays(cfg)
    ensures Run(Own, cfg, [Chunk("a", false), Chunk("b", true), Chunk("c", false)]).patches
            == [Add(0, "a"), Replace(0, "a"), Replace(0, "c")]
  {
    hide Run, Processed;
    var c1, c2, c3 := Chunk("a", false), Chunk("b", true), Chunk("c", false);
    var p1 := Progress(State(["a"], Some(0), 1), [Add(0, "a")], []);
    var p2 := Progress(State([], Some(0), 1), [Add(0, "a"), Replace(0, "a")], []);
    RunMore(Own, cfg, [], c1);
    FirstByte(cfg, c1);
    RunMore(Own, cfg, [c1], c2);
    LateByte(cfg, c2);
    RunMore(Own, cfg, [c1, c2], c3);
    NextByte(cfg, c3, p2);
    assert [] + [c1] == [c1] && [c1] + [c2] == [c1, c2] && [c1, c2] + [c3] == [c1, c2, c3];
  }

  lemma FirstByte(cfg: Config, c: Chunk)
    requires OneByteStays(cfg) && |c.text| == 1
    ensures Processed(START, Own, cfg, c) == Progress(State([c.text], Some(0), 1), [Add(0, c.text)], [])
  {
    OneByte(START, Own, cfg, c);
    hide Processed;
  }

  lemma LateByte(cfg: Config, c: Chunk)
    requires cfg.hasGap && Sound(cfg.boundary) && c.late && c.text != ""
    ensures Processed(Progress(State(["a"], Some(0), 1), [Add(0, "a")], []), Own, cfg, c)
            == Progress(State([], Some(0), 1), [Add(0, "a"), Replace(0, "a")], [])
  {
    ConcatOne("a");
    hide AfterIngest, Concat;
  }

  lemma NextByte(cfg: Config, c: Chunk, p: Progress)
    requires OneByteStays(cfg) && |c.text| == 1 && p.state.lines == [] && p.state.open.Some?
    ensures Processed(p, Own, cfg, c).patches == p.patches + [Replace(p.state.open.value, c.text)]
  {
    OneByte(p, Own, cfg, c);
    hide Processed;
  }

  lemma RunMore(supply: Supply, cfg: Config, cs: seq<Chunk>, c: Chunk)
    requires Sound(cfg.boundary)
    ensures Run(supply, cfg, cs + [c]) == Processed(Run(supply, cfg, cs), supply, cfg, c)
    ensures Run(supply, cfg, []) == START
  {
    hide Processed;
    assert (cs + [c])[..|cs|] == cs;
  }

  lemma OneByte(p: Progress, supply: Supply, cfg: Config, c: Chunk)
    requires p.state.lines == [] && |c.text| == 1 && OneByteStays(cfg)
    ensures Processed(p, supply, cfg, c) == Emit(p.(state := p.state.(lines := [c.text])), supply, c.text)
  {
    OneLine(c.text);
    hide Ingested, SplitInclusive, Concat;
  }

  lemma OneLine(s: string)
    requires |s| == 1
    ensures SplitInclusive(s) == [s] && Ingested([], s) == [s] && Concat([s]) == s && TotalLen([s]) == 1
  {
    assert s[..1] == s && s[1..] == "" && SplitInclusive("") == [];
    ConcatOne(s);
    assert [s][..0] == [];
  }

  /** A split answer changes nothing, so that the boundary loop never ends, exactly when it is given on an
      empty buffer or splits before the first line. */
  lemma TurnStalls(p: Progress, supply: Supply, boundary: BoundaryFn)
    requires SplitsAt(boundary, p.state.lines)
    ensures Turn(p, supply, boundary) == p <==> p.state.lines == [] || boundary(p.state.lines).value.at == 0
  {
    if SplitCount(p, boundary) > 0 {
      assert |Turn(p, supply, boundary).state.lines| < |p.state.lines|;
    }
  }

  // ---------- Closed entries stay ----------

  lemma {:induction false} BoundariesGrow(p: Progress, supply: Supply, boundary: BoundaryFn)
    requires Sound(boundary)
    ensures p.cuts <= CloseAtBoundaries(p, supply, boundary).cuts
    decreases |p.state.lines|
  {
    if SplitsAt(boundary, p.state.lines) {
      BoundariesGrow(Turn(p, supply, boundary), supply, boundary);
    }
    hide Concat;
  }

  lemma {:induction false} SizesGrow(p: Progress, supply: Supply, threshold: nat)
    ensures p.cuts <= CloseBySize(p, supply, threshold).cuts
    decreases |p.state.lines|
  {
    hide Concat, SizeCount, TotalLen;
    if TotalLen(p.state.lines) >= threshold && p.state.lines != [] {
      SizesGrow(Close(p, supply, SizeCount(p.state.lines, threshold, 0), true), supply, threshold);
    }
  }

  lemma ChunkGrows(p: Progress, supply: Supply, cfg: Config, c: Chunk)
    requires Sound(cfg.boundary)
    ensures p.cuts <= Processed(p, supply, cfg, c).cuts
  {
    hide Concat, CloseAtBoundaries, CloseBySize, Ingested;
    if c.text != "" && !Drops(p, cfg, c) {
      var q := CloseAtBoundaries(Filled(p, c.text), supply, cfg.boundary);
      BoundariesGrow(Filled(p, c.text), supply, cfg.boundary);
      if cfg.threshold.Some? { SizesGrow(q, supply, cfg.threshold.value); }
    }
  }

  /** What has been closed stays closed: with `RunGood`, its entry keeps its place and content. */
  lemma {:induction false} ClosedStays(supply: Supply, cfg: Config, cs: seq<Chunk>, later: seq<Chunk>)
    requires Sound(cfg.boundary)
    ensures Run(supply, cfg, cs).cuts <= Run(supply, cfg, cs + later).cuts
    decreases |later|
  {
    if later == [] {
      assert cs + later == cs;
    } else {
      var init := later[..|later| - 1];
      ClosedStays(supply, cfg, cs, init);
      assert (cs + later)[..|cs + later| - 1] == cs + init && (cs + later)[|cs + later| - 1] == later[|later| - 1];
      ChunkGrows(Run(supply, cfg, cs + init), supply, cfg, later[|later| - 1]);
      hide Processed;
    }
  }
}
