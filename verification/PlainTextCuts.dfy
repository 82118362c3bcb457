/** Where the plain text processor closes its entries: which lines each chunk closes, and which stay in the buffer,
    stated from the lines, the predicate and the threshold alone. */
module PlainTextCuts {
  import opened Text
  import opened Conversation
  import opened PlainText

  // ---------- The lines as reference ----------

  function Flat(cuts: seq<Cut>): seq<string> {
    if cuts == [] then [] else cuts[0].lines + Flat(cuts[1..])
  }

  /** The rest is too short to be closed for its size. */
  ghost predicate Short(cfg: Config, rest: seq<string>) {
    cfg.threshold.Some? ==> rest == [] || |Concat(rest)| < cfg.threshold.value
  }

  /** The fewest lines that reach the threshold, and at least one. */
  ghost predicate Fewest(cfg: Config, lines: seq<string>) {
    && cfg.threshold.Some? && lines != [] && |Concat(lines)| >= cfg.threshold.value
    && (|lines| > 1 ==> |Concat(lines[..|lines| - 1])| < cfg.threshold.value)
  }

  /** Cuts by size, one after the other, until what is left is short. */
  ghost predicate CutBySize(cfg: Config, cuts: seq<Cut>, rest: seq<string>) {
    if cuts == [] then Short(cfg, rest)
    else cuts[0].bySize && Fewest(cfg, cuts[0].lines) && CutBySize(cfg, cuts[1..], rest)
  }

  /** How the lines that were there, the cuts' and the rest, were cut: while the predicate answers with a split, as
      many lines as it says, or all; when it asks to wait, no further; otherwise by size. */
  ghost predicate CutAsAsked(cfg: Config, cuts: seq<Cut>, rest: seq<string>)
    decreases |cuts|
  {
    var lines := Flat(cuts) + rest;
    match cfg.boundary(lines)
    case Some(Split(at)) =>
      && cuts != [] && !cuts[0].bySize
      && cuts[0].lines == lines[..if at <= |lines| then at else |lines|] && CutAsAsked(cfg, cuts[1..], rest)
    case Some(IncompleteContent) => cuts == []
    case None => CutBySize(cfg, cuts, rest)
  }

  // ---------- The processor follows ----------

  /** The cuts made on the way from `p` to `q`. */
  ghost function Made(p: Progress, q: Progress): seq<Cut> {
    if p.cuts <= q.cuts then q.cuts[|p.cuts|..] else []
  }

  ghost predicate Grows(p: Progress, q: Progress) {
    p.cuts <= q.cuts && Flat(Made(p, q)) + q.state.lines == p.state.lines
  }

  lemma MadeThen(p: Progress, q: Progress, r: Progress, c: Cut)
    requires q.cuts == p.cuts + [c] && q.cuts <= r.cuts
    ensures p.cuts <= r.cuts && Made(p, r) == [c] + Made(q, r)
  {
  }

  lemma FlatFirst(c: Cut, cuts: seq<Cut>)
    ensures Flat([c] + cuts) == c.lines + Flat(cuts) && ([c] + cuts)[1..] == cuts
  {
  }

  /** One cut, then the others. */
  lemma GrowsThen(p: Progress, supply: Supply, n: nat, bySize: bool, r: Progress)
    requires n <= |p.state.lines| && Grows(Close(p, supply, n, bySize), r)
    ensures var q := Close(p, supply, n, bySize);
            Grows(p, r) && Made(p, r) == [Cut(p.state.lines[..n], bySize)] + Made(q, r)
  {
    hide Flat, Made, Close;
    var q, c := Close(p, supply, n, bySize), Cut(p.state.lines[..n], bySize);
    CloseTakes(p, supply, n, bySize);
    MadeThen(p, q, r, c);
    FlatFirst(c, Made(q, r));
    FrontAndRest(p.state.lines, n, Flat(Made(q, r)), r.state.lines);
  }

  lemma FrontAndRest(lines: seq<string>, n: nat, a: seq<string>, b: seq<string>)
    requires n <= |lines| && a + b == lines[n..]
    ensures lines[..n] + a + b == lines
  {
    assert lines[..n] + a + b == lines[..n] + (a + b);
  }

  lemma SizeTaken(cfg: Config, lines: seq<string>)
    requires cfg.threshold.Some? && lines != [] && TotalLen(lines) >= cfg.threshold.value
    ensures Fewest(cfg, lines[..SizeCount(lines, cfg.threshold.value, 0)])
  {
    var t := cfg.threshold.value;
    var n := SizeCount(lines, t, 0);
    SizeCountBounds(lines, t, 0);
    assert n == |lines| ==> lines[..n] == lines;
    assert lines[..n][..n - 1] == lines[..n - 1];
    TotalLenIs(lines[..n]);
    TotalLenIs(lines[..n - 1]);
    hide TotalLen, SizeCount, Concat;
  }

  lemma {:induction false} SizesCut(p: Progress, supply: Supply, cfg: Config)
    requires cfg.threshold.Some?
    ensures var q := CloseBySize(p, supply, cfg.threshold.value);
            Grows(p, q) && CutBySize(cfg, Made(p, q), q.state.lines)
    decreases |p.state.lines|
  {
    var t := cfg.threshold.value;
    TotalLenIs(p.state.lines);
    hide TotalLen, SizeCount, Concat, Close, Fewest;
    if TotalLen(p.state.lines) >= t && p.state.lines != [] {
      var n := SizeCount(p.state.lines, t, 0);
      var q := Close(p, supply, n, true);
      CloseTakes(p, supply, n, true);
      SizesCut(q, supply, cfg);
      var r := CloseBySize(q, supply, t);
      GrowsThen(p, supply, n, true, r);
      SizeTaken(cfg, p.state.lines);
      FlatFirst(Cut(p.state.lines[..n], true), Made(q, r));
      hide Made, Grows;
    } else {
      NothingMade(p);
    }
  }

  lemma CloseTakes(p: Progress, supply: Supply, n: nat, bySize: bool)
    requires n <= |p.state.lines|
    ensures var q := Close(p, supply, n, bySize);
            q.state.lines == p.state.lines[n..] && q.cuts == p.cuts + [Cut(p.state.lines[..n], bySize)]
  {
    hide Concat;
  }

  lemma NothingMade(p: Progress)
    ensures Grows(p, p) && Made(p, p) == []
  {
  }

  lemma SizedCut(p: Progress, supply: Supply, cfg: Config)
    ensures var q := Sized(p, supply, cfg); Grows(p, q) && CutBySize(cfg, Made(p, q), q.state.lines)
  {
    hide CloseBySize;
    if cfg.threshold.Some? {
      SizesCut(p, supply, cfg);
    } else {
      NothingMade(p);
    }
  }

  /** Whatever is cut after the boundary loop as asked, everything is. */
  lemma {:induction false} BoundariesCut(p: Progress, supply: Supply, cfg: Config, r: Progress)
    requires Sound(cfg.boundary)
    requires var q := CloseAtBoundaries(p, supply, cfg.boundary);
             Grows(q, r) && CutAsAsked(cfg, Made(q, r), r.state.lines)
    ensures Grows(p, r) && CutAsAsked(cfg, Made(p, r), r.state.lines)
    decreases |p.state.lines|
  {
    if SplitsAt(cfg.boundary, p.state.lines) {
      hide Concat, Close;
      var n := SplitCount(p, cfg.boundary);
      var q := Close(p, supply, n, false);
      CloseTakes(p, supply, n, false);
      assert Turn(p, supply, cfg.boundary) == q;
      BoundariesCut(q, supply, cfg, r);
      GrowsThen(p, supply, n, false, r);
      FlatFirst(Cut(p.state.lines[..n], false), Made(q, r));
      hide Made, CutAsAsked, CloseAtBoundaries;
      AskedFirst(cfg, Cut(p.state.lines[..n], false), Made(q, r), r.state.lines);
    }
  }

  lemma AskedFirst(cfg: Config, c: Cut, cuts: seq<Cut>, rest: seq<string>)
    requires CutAsAsked(cfg, cuts, rest) && !c.bySize
    requires var lines := Flat([c] + cuts) + rest;
             && SplitsAt(cfg.boundary, lines)
             && var at := cfg.boundary(lines).value.at;
             c.lines == lines[..if at <= |lines| then at else |lines|]
    ensures CutAsAsked(cfg, [c] + cuts, rest)
  {
    assert ([c] + cuts)[1..] == cuts;
  }

  lemma ReadyCut(p: Progress, supply: Supply, cfg: Config)
    requires Sound(cfg.boundary)
    ensures var q := AfterIngest(p, supply, cfg); Grows(p, q) && CutAsAsked(cfg, Made(p, q), q.state.lines)
  {
    hide CloseAtBoundaries, Concat, Sized;
    var q := CloseAtBoundaries(p, supply, cfg.boundary);
    NoSplitLeft(p, supply, cfg);
    if Waits(cfg, q) {
      NothingMade(q);
      BoundariesCut(p, supply, cfg, q);
    } else {
      var r := Sized(q, supply, cfg);
      SizedCut(q, supply, cfg);
      var shown := ShowRest(r, supply);
      assert shown.cuts == r.cuts && shown.state.lines == r.state.lines;
      BoundariesCut(p, supply, cfg, shown);
    }
  }

  lemma {:induction false} NoSplitLeft(p: Progress, supply: Supply, cfg: Config)
    requires Sound(cfg.boundary)
    ensures !SplitsAt(cfg.boundary, CloseAtBoundaries(p, supply, cfg.boundary).state.lines)
    decreases |p.state.lines|
  {
    if SplitsAt(cfg.boundary, p.state.lines) {
      NoSplitLeft(Turn(p, supply, cfg.boundary), supply, cfg);
    }
  }

  // ---------- Runs ----------

  /** In every run, every chunk that is not empty and not dropped adds its text to the buffer, closes exactly the
      lines that the predicate and the threshold ask for, and keeps the others. */
  lemma ChunkIsCut(supply: Supply, cfg: Config, cs: seq<Chunk>, c: Chunk)
    requires Sound(cfg.boundary) && c.text != ""
    requires !cfg.hasGap || !c.late || Run(supply, cfg, cs).state.lines == []
    ensures var p, q := Run(supply, cfg, cs), Run(supply, cfg, cs + [c]);
            && p.cuts <= q.cuts
            && Flat(Made(p, q)) + q.state.lines == Ingested(p.state.lines, c.text)
            && CutAsAsked(cfg, Made(p, q), q.state.lines)
  {
    hide AfterIngest, Ingested, Concat;
    var p := Run(supply, cfg, cs);
    assert (cs + [c])[..|cs|] == cs;
    ReadyCut(Filled(p, c.text), supply, cfg);
  }

  /** So after such a chunk the buffer is shorter than the threshold, unless the predicate asked to wait for more. */
  lemma {:induction false} BufferIsShort(cfg: Config, cuts: seq<Cut>, rest: seq<string>)
    requires CutAsAsked(cfg, cuts, rest)
    ensures cfg.boundary(rest) == Some(IncompleteContent) || Short(cfg, rest)
    decreases |cuts|
  {
    hide Concat;
    var lines := Flat(cuts) + rest;
    if cuts == [] {
      assert lines == rest;
    } else if !cuts[0].bySize {
      BufferIsShort(cfg, cuts[1..], rest);
    } else {
      SizeLeavesShort(cfg, cuts, rest);
    }
  }

  lemma {:induction false} SizeLeavesShort(cfg: Config, cuts: seq<Cut>, rest: seq<string>)
    requires CutBySize(cfg, cuts, rest)
    ensures Short(cfg, rest)
  {
    hide Concat;
    if cuts != [] {
      SizeLeavesShort(cfg, cuts[1..], rest);
    }
  }

  /** Without size cuts the predicate asks for no further split. */
  lemma {:induction false} NoFurtherSplit(cfg: Config, cuts: seq<Cut>, rest: seq<string>)
    requires CutAsAsked(cfg, cuts, rest) && forall k :: 0 <= k < |cuts| ==> !cuts[k].bySize
    ensures !SplitsAt(cfg.boundary, rest)
    decreases |cuts|
  {
    var lines := Flat(cuts) + rest;
    if cuts == [] {
      assert lines == rest;
    } else {
      NoFurtherSplit(cfg, cuts[1..], rest);
    }
  }

  // ---------- There is one way to cut ----------

  lemma PrefixIsShorter(lines: seq<string>, m: nat, n: nat)
    requires m <= n <= |lines|
    ensures |Concat(lines[..m])| <= |Concat(lines[..n])|
  {
    hide Concat;
    assert lines[..n] == lines[..m] + lines[m..n];
    ConcatAppend(lines[..m], lines[m..n]);
  }

  lemma FewestIsOne(cfg: Config, lines: seq<string>, m: nat, n: nat)
    requires m <= |lines| && n <= |lines| && Fewest(cfg, lines[..m]) && Fewest(cfg, lines[..n])
    ensures m == n
  {
    hide Concat;
    if m < n {
      assert lines[..n][..n - 1] == lines[..n - 1];
      PrefixIsShorter(lines, m, n - 1);
    } else if n < m {
      assert lines[..m][..m - 1] == lines[..m - 1];
      PrefixIsShorter(lines, n, m - 1);
    }
  }

  lemma FirstIsPrefix(cuts: seq<Cut>, rest: seq<string>)
    requires cuts != []
    ensures var lines, n := Flat(cuts) + rest, |cuts[0].lines|;
            n <= |lines| && cuts[0].lines == lines[..n] && Flat(cuts[1..]) + rest == lines[n..]
  {
    assert Flat(cuts) == cuts[0].lines + Flat(cuts[1..]);
    hide Flat;
    FirstOfThree(cuts[0].lines, Flat(cuts[1..]), rest);
  }

  lemma FirstOfThree(a: seq<string>, b: seq<string>, c: seq<string>)
    ensures (a + b + c)[..|a|] == a && (a + b + c)[|a|..] == b + c
  {
    assert a + b + c == a + (b + c);
  }

  lemma ShortIsNotReached(cfg: Config, lines: seq<string>, n: nat)
    requires n <= |lines| && Fewest(cfg, lines[..n])
    ensures !Short(cfg, lines)
  {
    hide Concat;
    PrefixIsShorter(lines, n, |lines|);
    assert lines[..|lines|] == lines;
  }

  lemma {:induction false} SizeIsDetermined(cfg: Config, cuts: seq<Cut>, rest: seq<string>, cuts': seq<Cut>,
                                            rest': seq<string>)
    requires CutBySize(cfg, cuts, rest) && CutBySize(cfg, cuts', rest') && Flat(cuts) + rest == Flat(cuts') + rest'
    ensures cuts == cuts' && rest == rest'
  {
    hide Short, Fewest;
    var lines := Flat(cuts) + rest;
    if cuts != [] { FirstIsPrefix(cuts, rest); }
    if cuts' != [] { FirstIsPrefix(cuts', rest'); }
    assert cuts == [] ==> lines == rest;
    assert cuts' == [] ==> lines == rest';
    if cuts == [] {
      if cuts' != [] { ShortIsNotReached(cfg, lines, |cuts'[0].lines|); }
    } else if cuts' == [] {
      ShortIsNotReached(cfg, lines, |cuts[0].lines|);
    } else {
      FewestIsOne(cfg, lines, |cuts[0].lines|, |cuts'[0].lines|);
      SizeIsDetermined(cfg, cuts[1..], rest, cuts'[1..], rest');
      assert cuts == [cuts[0]] + cuts[1..] && cuts' == [cuts'[0]] + cuts'[1..];
    }
  }

  /** The lines, the predicate and the threshold determine the cuts and the rest. */
  lemma {:induction false} CutsAreDetermined(cfg: Config, cuts: seq<Cut>, rest: seq<string>,
                                             cuts': seq<Cut>, rest': seq<string>)
    requires CutAsAsked(cfg, cuts, rest) && CutAsAsked(cfg, cuts', rest') && Flat(cuts) + rest == Flat(cuts') + rest'
    ensures cuts == cuts' && rest == rest'
    decreases |cuts|
  {
    hide CutBySize;
    match cfg.boundary(Flat(cuts) + rest)
    case Some(Split(_)) =>
      FirstIsPrefix(cuts, rest);
      FirstIsPrefix(cuts', rest');
      CutsAreDetermined(cfg, cuts[1..], rest, cuts'[1..], rest');
      assert cuts == [cuts[0]] + cuts[1..] && cuts' == [cuts'[0]] + cuts'[1..];
    case Some(IncompleteContent) => assert Flat(cuts) + rest == rest && Flat(cuts') + rest' == rest';
    case None => SizeIsDetermined(cfg, cuts, rest, cuts', rest');
  }
}
