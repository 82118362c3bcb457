/** Plain text logs: a buffer of lines, and a processor that turns what arrives into entries.

    Content leaves the buffer in cuts: the first lines, closed as one entry because the boundary predicate
    said so or because the buffer reached the size threshold. What stays is shown as the open entry, which
    the next update replaces. An entry is its content here. */
module PlainText {
  import opened Text
  import opened Conversation

  datatype Boundary = Split(at: nat) | IncompleteContent

  type BoundaryFn = seq<string> -> Option<Boundary>

  const DEFAULT_THRESHOLD: nat := 8 * 1024

  /** `hasGap` says that a time gap is configured. */
  datatype Config = Config(threshold: Option<nat>, hasGap: bool, boundary: BoundaryFn)

  function Configure(size: Option<nat>, hasGap: bool, boundary: BoundaryFn): Config {
    Config(if size.None? && !hasGap then Some(DEFAULT_THRESHOLD) else size, hasGap, boundary)
  }

  predicate SplitsAt(boundary: BoundaryFn, lines: seq<string>) {
    boundary(lines).Some? && boundary(lines).value.Split?
  }

  /** Every split takes something out of the buffer. */
  ghost predicate Sound(boundary: BoundaryFn) {
    forall lines :: SplitsAt(boundary, lines) ==> lines != [] && boundary(lines).value.at > 0
  }

  // ---------- The buffer ----------

  function TotalLen(lines: seq<string>): nat {
    if lines == [] then 0 else TotalLen(lines[..|lines| - 1]) + |lines[|lines| - 1]|
  }

  function HasPartial(lines: seq<string>): bool {
    lines != [] && !EndsWithNewline(lines[|lines| - 1])
  }

  /** Grow the partial line, then cut. */
  function Ingested(lines: seq<string>, text: string): seq<string> {
    if HasPartial(lines) then lines[..|lines| - 1] + SplitInclusive(lines[|lines| - 1] + text)
    else lines + SplitInclusive(text)
  }

  /** How many lines `drain_size` takes: until the length is reached, but at least one. */
  function SizeCount(lines: seq<string>, len: nat, n: nat): (r: nat)
    requires n <= |lines|
    ensures n <= r <= |lines| && (lines != [] ==> r > 0)
    decreases |lines| - n
  {
    if n == |lines| || (TotalLen(lines[..n]) >= len && n > 0) then n else SizeCount(lines, len, n + 1)
  }

  class PlainTextBuffer {
    var lines: seq<string>
    var totalLen: nat

    ghost predicate Valid()
      reads this
    {
      IsLines(lines) && totalLen == TotalLen(lines)
    }

    constructor ()
      ensures Valid() && lines == []
    {
      lines, totalLen := [], 0;
    }

    method Ingest(text: string)
      requires Valid()
      modifies this
      ensures Valid() && lines == Ingested(old(lines), text)
      ensures Concat(lines) == old(Concat(lines)) + text && lines == SplitInclusive(old(Concat(lines)) + text)
    {
      IngestIsSplit(lines, text);
      var partial := "";
      if HasPartial(lines) {
        var init := lines[..|lines| - 1];
        partial := lines[|lines| - 1];
        lines, totalLen := init, Minus(totalLen, |partial|);
      }
      var parts := SplitInclusive(partial + text);
      SplitLen(partial + text);
      TotalLenAppend(lines, parts);
      assert "" + text == text;
      lines, totalLen := lines + parts, totalLen + |partial + text|;
    }

    method DrainLines(n: nat) returns (drained: seq<string>)
      requires Valid()
      modifies this
      ensures Valid() && drained + lines == old(lines) && |drained| == if n <= |old(lines)| then n else |old(lines)|
    {
      var k := if n <= |lines| then n else |lines|;
      ghost var all := lines;
      assert all == all[..k] + all[k..];
      TotalLenAppend(all[..k], all[k..]);
      RestIsLines(all, k);
      hide TotalLen, IsLines;
      drained, lines := lines[..k], lines[k..];
      NothingTaken(drained);
      for i := 0 to |drained|
        invariant lines == all[k..] && drained == all[..k]
        invariant totalLen == TotalLen(all) - TotalLen(drained[..i])
      {
        TotalLenNext(drained, i);
        totalLen := Minus(totalLen, |drained[i]|);
      }
      assert drained[..|drained|] == drained;
    }

    method DrainSize(len: nat) returns (drained: seq<string>)
      requires Valid()
      modifies this
      ensures Valid() && drained + lines == old(lines) && |drained| == SizeCount(old(lines), len, 0)
    {
      var drainedLen, n := 0, 0;
      while n < |lines|
        invariant n <= |lines| && drainedLen == TotalLen(lines[..n]) && lines == old(lines) && Valid()
        invariant SizeCount(lines, len, 0) == SizeCount(lines, len, n)
      {
        if drainedLen >= len && n > 0 { break; }
        assert lines[..n + 1][..n] == lines[..n];
        drainedLen, n := drainedLen + |lines[n]|, n + 1;
      }
      drained := DrainLines(n);
    }

    method Flush() returns (all: seq<string>)
      modifies this
      ensures Valid() && lines == [] && all == old(lines)
    {
      all, lines, totalLen := lines, [], 0;
    }

    predicate IsEmpty()
      requires Valid()
      reads this
      ensures IsEmpty() <==> lines == []
    {
      assert lines != [] ==> IsLine(lines[|lines| - 1]);
      totalLen == 0
    }
  }

  function Minus(a: nat, b: nat): nat {
    if a >= b then a - b else 0
  }

  lemma {:induction false} TotalLenAppend(a: seq<string>, b: seq<string>)
    ensures TotalLen(a + b) == TotalLen(a) + TotalLen(b)
  {
    if b == [] {
      assert a + b == a;
    } else {
      TotalLenAppend(a, b[..|b| - 1]);
      assert (a + b)[..|a + b| - 1] == a + b[..|b| - 1];
    }
  }

  lemma {:induction false} TotalLenIs(lines: seq<string>)
    ensures TotalLen(lines) == |Concat(lines)|
  {
    if lines != [] {
      var init := lines[..|lines| - 1];
      TotalLenIs(init);
      assert lines == init + [lines[|lines| - 1]];
      ConcatFrame("", init, lines[|lines| - 1]);
    }
  }

  lemma NothingTaken(lines: seq<string>)
    ensures TotalLen(lines[..0]) == 0
  {
  }

  lemma TotalLenNext(lines: seq<string>, n: nat)
    requires n < |lines|
    ensures TotalLen(lines[..n + 1]) == TotalLen(lines[..n]) + |lines[n]| <= TotalLen(lines)
  {
    assert lines == lines[..n + 1] + lines[n + 1..] && lines[..n + 1][..n] == lines[..n];
    TotalLenAppend(lines[..n + 1], lines[n + 1..]);
  }

  lemma SplitLen(s: string)
    ensures TotalLen(SplitInclusive(s)) == |s|
  {
    TotalLenIs(SplitInclusive(s));
    SplitSpells(s);
  }

  lemma RestIsLines(lines: seq<string>, n: nat)
    requires IsLines(lines) && n <= |lines|
    ensures IsLines(lines[n..])
  {
    var rest := lines[n..];
    forall i | 0 <= i < |rest|
      ensures IsLine(rest[i]) && (i < |rest| - 1 ==> EndsWithNewline(rest[i]))
    {
      assert rest[i] == lines[n + i];
    }
  }

  /** However text arrives, the buffer holds the lines of all of it. */
  lemma IngestIsSplit(lines: seq<string>, text: string)
    requires IsLines(lines)
    ensures Ingested(lines, text) == SplitInclusive(Concat(lines) + text) && IsLines(Ingested(lines, text))
    ensures Concat(Ingested(lines, text)) == Concat(lines) + text
  {
    if HasPartial(lines) {
      var front, partial := lines[..|lines| - 1], lines[|lines| - 1];
      assert lines == front + [partial];
      ConcatFrame("", front, partial);
      Associative(Concat(front), partial, text);
      IngestOf(front, partial + text);
    } else {
      IngestOf(lines, text);
    }
    hide Concat, SplitInclusive, IsLines;
  }

  lemma IngestOf(front: seq<string>, tail: string)
    requires AllComplete(front)
    ensures var all := front + SplitInclusive(tail);
            all == SplitInclusive(Concat(front) + tail) && IsLines(all) && Concat(all) == Concat(front) + tail
  {
    SplitOf(front, tail);
    SplitSpells(Concat(front) + tail);
  }

  lemma IngestTwice(lines: seq<string>, a: string, b: string)
    requires IsLines(lines)
    ensures Ingested(Ingested(lines, a), b) == Ingested(lines, a + b)
  {
    IngestIsSplit(lines, a);
    IngestIsSplit(Ingested(lines, a), b);
    IngestIsSplit(lines, a + b);
    Associative(Concat(lines), a, b);
  }

  // ---------- The processor ----------

  datatype State = State(lines: seq<string>, open: Option<nat>, used: nat)

  datatype Cut = Cut(lines: seq<string>, bySize: bool)

  /** A state, and everything emitted and closed on the way to it. */
  datatype Progress = Progress(state: State, patches: seq<Patch<string>>, cuts: seq<Cut>)

  const START := Progress(State([], None, 0), [], [])

  /** `late` says that the chunk came after the time gap. */
  datatype Chunk = Chunk(text: string, late: bool)

  /** Put content into the open entry, or into a new one. */
  function Emit(p: Progress, supply: Supply, content: string): Progress {
    var s := p.state;
    if s.open.Some? then p.(patches := p.patches + [Replace(s.open.value, content)])
    else p.(state := s.(open := Some(supply(s.used)), used := s.used + 1),
            patches := p.patches + [Add(supply(s.used), content)])
  }

  function Close(p: Progress, supply: Supply, n: nat, bySize: bool): Progress
    requires n <= |p.state.lines|
  {
    var front, rest := p.state.lines[..n], p.state.lines[n..];
    var q := Emit(p.(state := p.state.(lines := rest)), supply, Concat(front));
    q.(state := q.state.(open := None), cuts := q.cuts + [Cut(front, bySize)])
  }

  function SplitCount(p: Progress, boundary: BoundaryFn): nat
    requires SplitsAt(boundary, p.state.lines)
  {
    if boundary(p.state.lines).value.at <= |p.state.lines| then boundary(p.state.lines).value.at else |p.state.lines|
  }

  /** What one turn of the boundary loop does when the predicate answers with a split. */
  function Turn(p: Progress, supply: Supply, boundary: BoundaryFn): Progress
    requires SplitsAt(boundary, p.state.lines)
  {
    if SplitCount(p, boundary) == 0 then p else Close(p, supply, SplitCount(p, boundary), false)
  }

  function CloseAtBoundaries(p: Progress, supply: Supply, boundary: BoundaryFn): Progress
    requires Sound(boundary)
    decreases |p.state.lines|
  {
    if SplitsAt(boundary, p.state.lines) then CloseAtBoundaries(Turn(p, supply, boundary), supply, boundary) else p
  }

  function CloseBySize(p: Progress, supply: Supply, threshold: nat): Progress
    decreases |p.state.lines|
  {
    if TotalLen(p.state.lines) >= threshold && p.state.lines != [] then
      CloseBySize(Close(p, supply, SizeCount(p.state.lines, threshold, 0), true), supply, threshold)
    else p
  }

  function ShowRest(p: Progress, supply: Supply): Progress {
    if p.state.lines == [] then p else Emit(p, supply, Concat(p.state.lines))
  }

  predicate Waits(cfg: Config, p: Progress) {
    cfg.boundary(p.state.lines) == Some(IncompleteContent)
  }

  function Sized(p: Progress, supply: Supply, cfg: Config): Progress {
    if cfg.threshold.Some? then CloseBySize(p, supply, cfg.threshold.value) else p
  }

  function AfterIngest(p: Progress, supply: Supply, cfg: Config): Progress
    requires Sound(cfg.boundary)
  {
    var q := CloseAtBoundaries(p, supply, cfg.boundary);
    if Waits(cfg, q) then q else ShowRest(Sized(q, supply, cfg), supply)
  }

  predicate Drops(p: Progress, cfg: Config, c: Chunk) {
    c.text != "" && p.state.lines != [] && cfg.hasGap && c.late
  }

  /** A late chunk flushes the buffer into its entry and is itself dropped. */
  function DropLate(p: Progress, supply: Supply): Progress {
    Emit(p.(state := p.state.(lines := [])), supply, Concat(p.state.lines))
  }

  function Filled(p: Progress, text: string): Progress {
    p.(state := p.state.(lines := Ingested(p.state.lines, text)))
  }

  function Processed(p: Progress, supply: Supply, cfg: Config, c: Chunk): Progress
    requires Sound(cfg.boundary)
  {
    if c.text == "" then p
    else if Drops(p, cfg, c) then DropLate(p, supply)
    else AfterIngest(Filled(p, c.text), supply, cfg)
  }

  function Run(supply: Supply, cfg: Config, cs: seq<Chunk>): Progress
    requires Sound(cfg.boundary)
  {
    if cs == [] then START else Processed(Run(supply, cfg, cs[..|cs| - 1]), supply, cfg, cs[|cs| - 1])
  }

  lemma {:induction false} SizeCountBounds(lines: seq<string>, len: nat, n: nat)
    requires n <= |lines|
    ensures SizeCount(lines, len, n) < |lines| ==> TotalLen(lines[..SizeCount(lines, len, n)]) >= len
    ensures n < SizeCount(lines, len, n) && n > 0 ==> TotalLen(lines[..SizeCount(lines, len, n) - 1]) < len
    ensures n == 0 && SizeCount(lines, len, n) > 1 ==> TotalLen(lines[..SizeCount(lines, len, n) - 1]) < len
    decreases |lines| - n
  {
    if n < |lines| && !(TotalLen(lines[..n]) >= len && n > 0) {
      SizeCountBounds(lines, len, n + 1);
    }
  }

  class PlainTextLogProcessor {
    const buffer: PlainTextBuffer
    const provider: IndexProvider
    const cfg: Config
    var current: Option<nat>
    ghost var emitted: seq<Patch<string>>
    ghost var closed: seq<Cut>

    ghost predicate Valid()
      reads this, buffer
    {
      buffer.Valid() && Sound(cfg.boundary)
    }

    ghost function View(): Progress
      reads this, buffer, provider
    {
      Progress(State(buffer.lines, current, provider.used), emitted, closed)
    }

    constructor (size: Option<nat>, hasGap: bool, boundary: BoundaryFn, provider: IndexProvider)
      requires Sound(boundary) && provider.used == 0
      ensures Valid() && View() == START && cfg == Configure(size, hasGap, boundary) && fresh(buffer)
      ensures this.provider == provider
    {
      buffer := new PlainTextBuffer();
      this.provider, cfg := provider, Configure(size, hasGap, boundary);
      current, emitted, closed := None, [], [];
    }

    method CreatePatch(lines: seq<string>) returns (patch: Patch<string>)
      modifies this`current, this`emitted, provider
      ensures View() == Emit(old(View()), provider.supply, Concat(lines))
      ensures emitted == old(emitted) + [patch]
    {
      var content := Concat(lines);
      if current.Some? {
        patch := Replace(current.value, content);
      } else {
        var i := provider.Next();
        current := Some(i);
        patch := Add(i, content);
      }
      emitted := emitted + [patch];
    }

    /** Close what was just taken out of the buffer as one entry. */
    method ClosePatch(lines: seq<string>, bySize: bool) returns (patch: Patch<string>)
      requires Valid()
      modifies this, provider
      ensures Valid() && buffer.lines == old(buffer.lines) && emitted == old(emitted) + [patch]
      ensures View() == Close(old(View()).(state := State(lines + old(buffer.lines), old(current), old(provider.used))),
                              provider.supply, |lines|, bySize)
    {
      ghost var all := lines + buffer.lines;
      assert all[..|lines|] == lines && all[|lines|..] == buffer.lines;
      patch := CreatePatch(lines);
      current := None;
      closed := closed + [Cut(lines, bySize)];
    }

    method SplitAtBoundaries() returns (patches: seq<Patch<string>>, waits: bool)
      requires Valid()
      modifies this, buffer, provider
      ensures Valid() && View() == CloseAtBoundaries(old(View()), provider.supply, cfg.boundary)
      ensures emitted == old(emitted) + patches && waits == Waits(cfg, View())
    {
      hide Close;
      patches := [];
      while true
        invariant Valid() && emitted == old(emitted) + patches
        invariant CloseAtBoundaries(View(), provider.supply, cfg.boundary)
                  == CloseAtBoundaries(old(View()), provider.supply, cfg.boundary)
        decreases |buffer.lines|
      {
        var answer := cfg.boundary(buffer.lines);
        if answer.None? { return patches, false; }
        if answer.value.IncompleteContent? { return patches, true; }
        ghost var before := View();
        assert SplitsAt(cfg.boundary, before.state.lines);
        var lines := buffer.DrainLines(answer.value.at);
        if lines != [] {
          var patch := ClosePatch(lines, false);
          patches := patches + [patch];
          assert View() == Turn(before, provider.supply, cfg.boundary);
        }
      }
    }

    method SplitBySize(threshold: nat) returns (patches: seq<Patch<string>>)
      requires Valid()
      modifies this, buffer, provider
      ensures Valid() && View() == CloseBySize(old(View()), provider.supply, threshold)
      ensures emitted == old(emitted) + patches
      ensures buffer.lines == [] || TotalLen(buffer.lines) < threshold
    {
      hide Close, SizeCount;
      patches := [];
      while buffer.totalLen >= threshold
        invariant Valid() && emitted == old(emitted) + patches
        invariant CloseBySize(View(), provider.supply, threshold)
                  == CloseBySize(old(View()), provider.supply, threshold)
        decreases |buffer.lines|
      {
        var lines := buffer.DrainSize(threshold);
        if lines == [] { break; }
        var patch := ClosePatch(lines, true);
        patches := patches + [patch];
      }
    }

    method Process(c: Chunk) returns (patches: seq<Patch<string>>)
      requires Valid()
      modifies this, buffer, provider
      ensures Valid() && View() == Processed(old(View()), provider.supply, cfg, c)
      ensures emitted == old(emitted) + patches
    {
      patches := [];
      if c.text == "" { return; }
      if !buffer.IsEmpty() && cfg.hasGap && c.late {
        // The buffer is not empty, so the source's reset of the open entry here is never reached.
        var lines := buffer.Flush();
        var patch := CreatePatch(lines);
        return [patch];
      }
      buffer.Ingest(c.text);
      hide AfterIngest, Ingested;
      patches := EmitReady();
    }

    method EmitReady() returns (patches: seq<Patch<string>>)
      requires Valid()
      modifies this, buffer, provider
      ensures Valid() && View() == AfterIngest(old(View()), provider.supply, cfg)
      ensures emitted == old(emitted) + patches
    {
      hide CloseAtBoundaries, CloseBySize;
      var waits;
      patches, waits := SplitAtBoundaries();
      if waits { return; }
      if cfg.threshold.Some? {
        var more := SplitBySize(cfg.threshold.value);
        patches := patches + more;
      }
      if !buffer.IsEmpty() {
        var patch := CreatePatch(buffer.lines);
        patches := patches + [patch];
      }
    }
  }
}
