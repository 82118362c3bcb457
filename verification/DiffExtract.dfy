/** What is taken out of any text, several files and missing headers included, from its lines alone; and how the
    numbers of a header read. */
module DiffExtract {
  import opened Text
  import opened DiffHunks

  // ---------- The lines as reference ----------

  predicate StartsHunk(line: string) {
    |line| >= 2 && line[0] == '@' && line[1] == '@'
  }

  predicate InHunk(line: string) {
    |line| >= 1 && (line[0] == ' ' || line[0] == '+' || line[0] == '-')
  }

  /** Where the body lines that start at `j` end. */
  function BodyEnd(lines: seq<string>, j: nat): (n: nat)
    requires j <= |lines|
    ensures j <= n <= |lines|
    decreases |lines| - j
  {
    if j == |lines| || !InHunk(lines[j]) then j else BodyEnd(lines, j + 1)
  }

  /** The hunks from line `i` on: every header with the body lines right below it. Anything else, such as the file
      lines of the next file, belongs to no hunk. */
  function HunksFrom(lines: seq<string>, i: nat): seq<seq<string>>
    requires i <= |lines|
    decreases |lines| - i
  {
    if i == |lines| then []
    else (if StartsHunk(lines[i]) then [lines[i..BodyEnd(lines, i + 1)]] else []) + HunksFrom(lines, i + 1)
  }

  function OldCount(lines: seq<string>): nat {
    if lines == [] then 0
    else (if lines[0] != "" && (lines[0][0] == '-' || lines[0][0] == ' ') then 1 else 0) + OldCount(lines[1..])
  }

  function NewCount(lines: seq<string>): nat {
    if lines == [] then 0
    else (if lines[0] != "" && (lines[0][0] == '+' || lines[0][0] == ' ') then 1 else 0) + NewCount(lines[1..])
  }

  function BodyLines(lines: seq<string>): seq<string> {
    if lines == [] then [] else (if InHunk(lines[0]) then [lines[0]] else []) + BodyLines(lines[1..])
  }

  function Numbered(lines: seq<string>): string {
    "@@ -1," + Decimal(OldCount(lines)) + " +1," + Decimal(NewCount(lines)) + " @@"
  }

  /** A hunk without a body is dropped; a bare header is numbered, and then has no newline. */
  function Repaired(hunk: seq<string>): seq<string> {
    if |hunk| < 2 then []
    else if Trim(hunk[0]) == "@@" then [Numbered(hunk[1..]) + Concat(hunk[1..])]
    else [Concat(hunk)]
  }

  function RepairAll(hunks: seq<seq<string>>): seq<string> {
    if hunks == [] then [] else RepairAll(hunks[..|hunks| - 1]) + Repaired(hunks[|hunks| - 1])
  }

  /** Without any header, all body lines make one hunk. */
  function WithoutHeader(lines: seq<string>): seq<string> {
    if BodyLines(lines) == [] then [] else [Numbered(lines) + "\n" + Concat(BodyLines(lines))]
  }

  // ---------- Scanning follows ----------

  function Texts(hunks: seq<seq<string>>): seq<string> {
    seq(|hunks|, i requires 0 <= i < |hunks| => Concat(hunks[i]))
  }

  /** The last hunk from line `i` on runs to the end. */
  predicate Reaches(lines: seq<string>, i: nat)
    requires i <= |lines|
    decreases |lines| - i
  {
    i < |lines| && ((StartsHunk(lines[i]) && BodyEnd(lines, i + 1) == |lines|) || Reaches(lines, i + 1))
  }

  lemma {:induction false} BodyEndMore(lines: seq<string>, l: string, j: nat)
    requires j <= |lines|
    ensures BodyEnd(lines + [l], j)
            == if BodyEnd(lines, j) == |lines| && InHunk(l) then |lines| + 1 else BodyEnd(lines, j)
    decreases |lines| - j
  {
    if j < |lines| && InHunk(lines[j]) {
      BodyEndMore(lines, l, j + 1);
    } else if j == |lines| {
      assert BodyEnd(lines + [l], |lines| + 1) == |lines| + 1;
    }
  }

  lemma {:induction false} BodyHasNoHeader(lines: seq<string>, j: nat)
    requires j <= |lines| && BodyEnd(lines, j) == |lines|
    ensures HunksFrom(lines, j) == [] && !Reaches(lines, j)
    decreases |lines| - j
  {
    if j < |lines| {
      BodyHasNoHeader(lines, j + 1);
    }
  }

  ghost function Extended(hunks: seq<seq<string>>, l: string): seq<seq<string>>
    requires hunks != []
  {
    hunks[..|hunks| - 1] + [hunks[|hunks| - 1] + [l]]
  }

  lemma FirstHunk(lines: seq<string>, l: string, i: nat)
    requires i < |lines| && StartsHunk(lines[i])
    ensures var h, h' := lines[i..BodyEnd(lines, i + 1)], (lines + [l])[i..BodyEnd(lines + [l], i + 1)];
            h' == if BodyEnd(lines, i + 1) == |lines| && InHunk(l) then h + [l] else h
  {
    BodyEndMore(lines, l, i + 1);
    hide BodyEnd;
  }

  lemma HunksStep(lines: seq<string>, i: nat)
    requires i < |lines|
    ensures HunksFrom(lines, i)
            == (if StartsHunk(lines[i]) then [lines[i..BodyEnd(lines, i + 1)]] else []) + HunksFrom(lines, i + 1)
    ensures Reaches(lines, i) == ((StartsHunk(lines[i]) && BodyEnd(lines, i + 1) == |lines|) || Reaches(lines, i + 1))
  {
    hide BodyEnd;
  }

  /** The hunks one line on. */
  ghost function Grown(hunks: seq<seq<string>>, l: string, reaches: bool): seq<seq<string>> {
    if StartsHunk(l) then hunks + [[l]] else if InHunk(l) && reaches && hunks != [] then Extended(hunks, l) else hunks
  }

  lemma GrownAfter(h: seq<string>, hunks: seq<seq<string>>, l: string, reaches: bool)
    requires reaches ==> hunks != []
    ensures Grown([h] + hunks, l, reaches) == [h] + Grown(hunks, l, reaches)
  {
  }

  lemma GrownAlone(h: seq<string>, l: string)
    ensures Grown([h], l, true) == if StartsHunk(l) then [h] + [[l]] else if InHunk(l) then [h + [l]] else [h]
  {
  }

  lemma {:induction false} HunksMore(lines: seq<string>, l: string, i: nat)
    requires i <= |lines|
    ensures Reaches(lines, i) ==> HunksFrom(lines, i) != []
    ensures HunksFrom(lines + [l], i) == Grown(HunksFrom(lines, i), l, Reaches(lines, i))
    decreases |lines| - i
  {
    if i == |lines| {
      LastAlone(lines, l);
    } else {
      hide BodyEnd, HunksFrom, Reaches, Grown;
      HunksMore(lines, l, i + 1);
      HunksStep(lines, i);
      HunksStep(lines + [l], i);
      assert (lines + [l])[i] == lines[i];
      if StartsHunk(lines[i]) {
        FirstHunk(lines, l, i);
        var h, rest := lines[i..BodyEnd(lines, i + 1)], HunksFrom(lines, i + 1);
        if BodyEnd(lines, i + 1) == |lines| {
          BodyHasNoHeader(lines, i + 1);
          GrownAlone(h, l);
          GrownNone(l);
          HeaderIsNoBody(l);
          assert [h] + [] == [h];
        } else {
          GrownAfter(h, rest, l, Reaches(lines, i + 1));
        }
      } else {
        assert [] + HunksFrom(lines, i + 1) == HunksFrom(lines, i + 1);
        assert [] + HunksFrom(lines + [l], i + 1) == HunksFrom(lines + [l], i + 1);
      }
    }
  }

  lemma GrownNone(l: string)
    ensures Grown([], l, false) == if StartsHunk(l) then [[l]] else []
  {
  }

  lemma HeaderIsNoBody(l: string)
    ensures !(StartsHunk(l) && InHunk(l))
  {
  }

  lemma LastAlone(lines: seq<string>, l: string)
    ensures HunksFrom(lines + [l], |lines|) == if StartsHunk(l) then [[l]] else []
  {
    var all := lines + [l];
    assert BodyEnd(all, |all|) == |all| && HunksFrom(all, |all|) == [];
    HunksStep(all, |lines|);
    hide HunksFrom, BodyEnd, StartsHunk;
    assert all[|lines|] == l && all[|lines|..|all|] == [l];
    assert [[l]] + [] == [[l]];
  }

  lemma {:induction false} ReachesMore(lines: seq<string>, l: string, i: nat)
    requires i <= |lines|
    ensures Reaches(lines + [l], i) == (StartsHunk(l) || (InHunk(l) && Reaches(lines, i)))
    decreases |lines| - i
  {
    if i == |lines| {
      var all := lines + [l];
      assert BodyEnd(all, |all|) == |all| && !Reaches(all, |all|);
    } else {
      ReachesMore(lines, l, i + 1);
      BodyEndMore(lines, l, i + 1);
      hide BodyEnd;
      assert (lines + [l])[i] == lines[i];
    }
  }

  /** The scan has closed all hunks but the one that may go on. */
  ghost predicate Scanned(s: Scan, lines: seq<string>) {
    ScannedAs(s, Texts(HunksFrom(lines, 0)), Reaches(lines, 0))
  }

  ghost predicate ScannedAs(s: Scan, hunks: seq<string>, reaches: bool) {
    if s.current.Some? then reaches && s.current.value != "" && hunks == s.hunks + [s.current.value]
    else !reaches && hunks == s.hunks
  }

  lemma ConcatMore(ls: seq<string>, l: string)
    ensures Concat(ls + [l]) == Concat(ls) + l && Concat([l]) == l
  {
    ConcatFrame("", ls, l);
    ConcatOne(l);
  }

  lemma KindsOfLine(line: string)
    ensures IsHeader(line) == StartsHunk(line) && IsBody(line) == InHunk(line)
  {
    if |line| >= 2 {
      assert line[..2] == [line[0], line[1]] && "@@" == ['@', '@'];
    }
  }

  lemma ScanMatches(s: Scan, lines: seq<string>, l: string)
    requires Scanned(s, lines)
    ensures Scanned(ScanLine(s, l), lines + [l])
  {
    hide HunksFrom, Reaches, ScannedAs, ScanLine, StartsHunk, InHunk, Texts, Grown;
    HunksMore(lines, l, 0);
    ReachesMore(lines, l, 0);
    GrownScans(s, HunksFrom(lines, 0), Reaches(lines, 0), l);
  }

  lemma GrownScans(s: Scan, hs: seq<seq<string>>, reaches: bool, l: string)
    requires ScannedAs(s, Texts(hs), reaches) && (reaches ==> hs != [])
    ensures ScannedAs(ScanLine(s, l), Texts(Grown(hs, l, reaches)), StartsHunk(l) || (InHunk(l) && reaches))
  {
    KindsOfLine(l);
    HeaderIsNoBody(l);
    assert StartsHunk(l) || InHunk(l) ==> l != "";
    hide IsHeader, IsBody, StartsHunk, InHunk, Texts, Extended;
    if StartsHunk(l) {
      TextsMore(hs, [l]);
      ConcatMore([], l);
    } else if InHunk(l) && reaches {
      TextsExtended(hs, l);
    }
  }

  lemma TextsMore(hs: seq<seq<string>>, h: seq<string>)
    ensures Texts(hs + [h]) == Texts(hs) + [Concat(h)]
  {
    hide Concat;
  }

  lemma TextsExtended(hs: seq<seq<string>>, l: string)
    requires hs != []
    ensures Texts(hs) != []
    ensures Texts(Extended(hs, l)) == Texts(hs)[..|Texts(hs)| - 1] + [Texts(hs)[|Texts(hs)| - 1] + l]
  {
    var init, h := hs[..|hs| - 1], hs[|hs| - 1];
    TextsMore(init, h);
    TextsMore(init, h + [l]);
    ConcatMore(h, l);
    assert init + [h] == hs;
    hide Texts, Concat;
    assert (Texts(init) + [Concat(h)])[..|Texts(init)|] == Texts(init);
  }

  lemma {:induction false} ScanIsHunks(lines: seq<string>)
    ensures Scanned(ScanAll(lines), lines)
  {
    if lines == [] {
      assert Texts(HunksFrom(lines, 0)) == [];
    } else {
      var init, last := lines[..|lines| - 1], lines[|lines| - 1];
      ScanIsHunks(init);
      assert init + [last] == lines;
      hide Scanned, ScanLine;
      ScanMatches(ScanAll(init), init, last);
    }
  }

  // ---------- Repair and counts follow ----------

  lemma {:induction false} CountsAre(lines: seq<string>)
    ensures Count(lines, InOld) == OldCount(lines) && Count(lines, InNew) == NewCount(lines)
    ensures Filter(lines, IsBody) == BodyLines(lines)
  {
    if lines != [] {
      var init, last := lines[..|lines| - 1], lines[|lines| - 1];
      CountsAre(init);
      assert init + [last] == lines;
      OldMore(init, last);
      NewMore(init, last);
      BodyMore(init, last);
      KindsOfLine(last);
    }
  }

  lemma {:induction false} OldMore(lines: seq<string>, l: string)
    ensures OldCount(lines + [l]) == OldCount(lines) + (if l != "" && (l[0] == '-' || l[0] == ' ') then 1 else 0)
  {
    var all := lines + [l];
    if lines == [] {
      assert all == [l] && all[1..] == [];
    } else {
      OldMore(lines[1..], l);
      assert all[1..] == lines[1..] + [l] && all[0] == lines[0];
    }
  }

  lemma {:induction false} NewMore(lines: seq<string>, l: string)
    ensures NewCount(lines + [l]) == NewCount(lines) + (if l != "" && (l[0] == '+' || l[0] == ' ') then 1 else 0)
  {
    var all := lines + [l];
    if lines == [] {
      assert all == [l] && all[1..] == [];
    } else {
      NewMore(lines[1..], l);
      assert all[1..] == lines[1..] + [l] && all[0] == lines[0];
    }
  }

  lemma {:induction false} BodyMore(lines: seq<string>, l: string)
    ensures BodyLines(lines + [l]) == BodyLines(lines) + (if InHunk(l) then [l] else [])
  {
    hide InHunk;
    var all := lines + [l];
    if lines == [] {
      assert all == [l] && all[1..] == [];
    } else {
      BodyMore(lines[1..], l);
      assert all[1..] == lines[1..] + [l] && all[0] == lines[0];
    }
  }

  /** The lines of a hunk taken out of lines are its lines. */
  lemma SliceSplits(lines: seq<string>, i: nat, j: nat)
    requires IsLines(lines) && i <= j <= |lines|
    ensures SplitInclusive(Concat(lines[i..j])) == lines[i..j]
  {
    var ls := lines[i..j];
    forall k | 0 <= k < |ls|
      ensures IsLine(ls[k]) && (k < |ls| - 1 ==> EndsWithNewline(ls[k]))
    {
      assert ls[k] == lines[i + k];
    }
    SplitUnique(ls);
  }

  ghost predicate IsSlice(lines: seq<string>, hunk: seq<string>) {
    exists i, j :: 0 <= i < j <= |lines| && hunk == lines[i..j] && StartsHunk(lines[i])
  }

  lemma {:induction false} HunksAreSlices(lines: seq<string>, i: nat)
    requires i <= |lines|
    ensures forall n :: 0 <= n < |HunksFrom(lines, i)| ==> IsSlice(lines, HunksFrom(lines, i)[n])
    decreases |lines| - i
  {
    if i < |lines| {
      HunksAreSlices(lines, i + 1);
      if StartsHunk(lines[i]) {
        assert IsSlice(lines, lines[i..BodyEnd(lines, i + 1)]);
      }
    }
  }

  lemma FixedIsRepaired(lines: seq<string>, hunk: seq<string>)
    requires IsLines(lines) && IsSlice(lines, hunk)
    ensures Repaired(hunk) == if Fixed(Concat(hunk)).Some? then [Fixed(Concat(hunk)).value] else []
  {
    var i, j :| 0 <= i < j <= |lines| && hunk == lines[i..j] && StartsHunk(lines[i]);
    SliceSplits(lines, i, j);
    KindsOfLine(hunk[0]);
    CountsAre(hunk[1..]);
    hide SplitInclusive, Concat, Trim, Count, Decimal;
  }

  lemma {:induction false} FixAllIsRepairAll(lines: seq<string>, hunks: seq<seq<string>>)
    requires IsLines(lines) && forall n :: 0 <= n < |hunks| ==> IsSlice(lines, hunks[n])
    ensures FixAll(Texts(hunks)) == RepairAll(hunks)
  {
    if hunks != [] {
      var init, last := hunks[..|hunks| - 1], hunks[|hunks| - 1];
      hide Fixed, Repaired, IsSlice, Concat;
      FixAllIsRepairAll(lines, init);
      FixedIsRepaired(lines, last);
      assert Texts(hunks)[..|hunks| - 1] == Texts(init) && Texts(hunks)[|hunks| - 1] == Concat(last);
    }
  }

  lemma HeadlessIs(lines: seq<string>)
    requires IsLines(lines)
    ensures Headless(lines) == WithoutHeader(lines)
  {
    CountsAre(lines);
    BodyIsText(lines);
    hide Count, Filter, Decimal;
  }

  lemma {:induction false} BodyIsText(lines: seq<string>)
    ensures Concat(BodyLines(lines)) == "" <==> BodyLines(lines) == []
  {
    if lines != [] {
      BodyIsText(lines[1..]);
      if InHunk(lines[0]) {
        ConcatFrame(lines[0], BodyLines(lines[1..]), "");
      } else {
        assert BodyLines(lines) == BodyLines(lines[1..]);
      }
    }
  }

  /** What is taken out of any text: every header with the body lines right below it, in order, whatever stands
      between them; without any header, all body lines as one hunk with a header that counts them. */
  lemma ExtractReads(text: string)
    ensures var lines := SplitInclusive(text);
            Extract(text) == if exists i :: 0 <= i < |lines| && StartsHunk(lines[i]) then RepairAll(HunksFrom(lines, 0))
                             else WithoutHeader(lines)
  {
    var lines := SplitInclusive(text);
    SplitSpells(text);
    hide SplitInclusive, ScanAll, FixAll, Headless, IsLines;
    forall i | 0 <= i < |lines|
      ensures IsHeader(lines[i]) == StartsHunk(lines[i])
    {
      KindsOfLine(lines[i]);
    }
    hide IsHeader;
    ScanIsHunks(lines);
    HunksAreSlices(lines, 0);
    FixAllIsRepairAll(lines, HunksFrom(lines, 0));
    HeadlessIs(lines);
    hide HunksFrom, Reaches, IsSlice, RepairAll, WithoutHeader, Texts;
  }

  // ---------- Printing ----------

  /** The lines that are printed: headers with something after the `@@`, and body lines. */
  predicate Prints(line: string) {
    (|line| >= 3 && line[0] == '@' && line[1] == '@' && line[2] == ' ') || InHunk(line)
  }

  /** The printed lines of some lines, each without its line ending and with a newline. */
  function Printed(lines: seq<string>): seq<string> {
    if lines == [] then []
    else (if Prints(Content(lines[0])) then [Content(lines[0]) + "\n"] else []) + Printed(lines[1..])
  }

  function PrintedHunks(hunks: seq<string>): seq<string> {
    if hunks == [] then [] else PrintedHunks(hunks[..|hunks| - 1]) + Printed(SplitInclusive(hunks[|hunks| - 1]))
  }

  lemma ShownIsPrinted(line: string)
    ensures Shown(line) == Prints(line)
  {
    KindsOfLine(line);
    if |line| >= 3 {
      assert line[..3] == [line[0], line[1], line[2]] && "@@ " == ['@', '@', ' '];
    }
  }

  lemma {:induction false} FilterAppend(a: seq<string>, b: seq<string>)
    ensures Filter(a + b, Shown) == Filter(a, Shown) + Filter(b, Shown)
    decreases |b|
  {
    hide Shown;
    if b == [] {
      assert a + b == a;
    } else {
      var n := |b| - 1;
      FilterAppend(a, b[..n]);
      assert (a + b)[..|a + b| - 1] == a + b[..n] && (a + b)[|a + b| - 1] == b[n];
    }
  }

  lemma {:induction false} FilterFirst(l: string, ls: seq<string>)
    ensures Filter([l] + ls, Shown) == (if Shown(l) then [l] else []) + Filter(ls, Shown)
  {
    hide Shown;
    FilterAppend([l], ls);
    assert [l][..0] == [] && Filter([l][..0], Shown) == [];
  }

  lemma {:induction false} KeptArePrinted(lines: seq<string>)
    ensures WithNewlines(Filter(Contents(lines), Shown)) == Printed(lines)
  {
    if lines == [] {
      assert Contents(lines) == [];
    } else {
      hide Shown, Prints;
      KeptArePrinted(lines[1..]);
      assert Contents(lines) == [Content(lines[0])] + Contents(lines[1..]);
      FilterFirst(Content(lines[0]), Contents(lines[1..]));
      ShownIsPrinted(Content(lines[0]));
      var first := if Shown(Content(lines[0])) then [Content(lines[0])] else [];
      WithNewlinesAppend(first, Filter(Contents(lines[1..]), Shown));
    }
  }

  lemma WithNewlinesAppend(a: seq<string>, b: seq<string>)
    ensures WithNewlines(a + b) == WithNewlines(a) + WithNewlines(b)
  {
  }

  lemma {:induction false} AllKeptArePrinted(hunks: seq<string>)
    ensures WithNewlines(Filter(AllLines(hunks), Shown)) == PrintedHunks(hunks)
  {
    if hunks != [] {
      hide Shown, SplitInclusive;
      var init, lines := hunks[..|hunks| - 1], SplitInclusive(hunks[|hunks| - 1]);
      AllKeptArePrinted(init);
      KeptArePrinted(lines);
      FilterAppend(AllLines(init), Contents(lines));
      WithNewlinesAppend(Filter(AllLines(init), Shown), Filter(Contents(lines), Shown));
      hide Filter, WithNewlines, Printed, Contents;
    }
  }

  lemma {:induction false} KeptLast(lines: seq<string>)
    requires forall i :: 0 <= i < |lines| ==> NoNewline(lines[i])
    ensures var kept := Filter(lines, Shown);
            kept != [] ==> kept[|kept| - 1] != "" && !EndsWithNewline(kept[|kept| - 1])
  {
    if lines != [] {
      KeptLast(lines[..|lines| - 1]);
    }
  }

  /** What is printed for any hunks: two file lines, and then the lines of the hunks that print, each with a newline.
      Lines of any other kind, and bare headers, are left out. */
  lemma PrintReads(path: string, hunks: seq<string>)
    ensures Concatenate(path, hunks)
            == "--- a/" + path + "\n+++ b/" + path + "\n" + Concat(PrintedHunks(hunks))
  {
    hide AllLines, Filter, PrintedHunks, Concat, NoNewline, FileHeader, Join, WithNewlines, EndsWithNewline;
    var header, kept := FileHeader(path), Filter(AllLines(hunks), Shown);
    NothingPrinted(path);
    if hunks != [] {
      AllKeptArePrinted(hunks);
      LinesHaveNoNewline(hunks);
      KeptLast(AllLines(hunks));
      if kept != [] {
        KeptPrints(header, kept);
      }
    }
    HeaderReads(path);
  }

  lemma HeaderReads(path: string)
    ensures FileHeader(path) == "--- a/" + path + "\n+++ b/" + path + "\n"
  {
  }

  lemma KeptPrints(header: string, kept: seq<string>)
    requires kept != [] && kept[|kept| - 1] != "" && !EndsWithNewline(kept[|kept| - 1])
    ensures var diff := header + Join(kept);
            !EndsWithNewline(diff) && diff + "\n" == header + Concat(WithNewlines(kept))
  {
    JoinEnds(kept);
    JoinSpells(kept);
    hide Join, WithNewlines, Concat;
    var diff := header + Join(kept);
    assert diff[|diff| - 1] == Join(kept)[|Join(kept)| - 1];
    Associative(header, Join(kept), "\n");
  }

  lemma NothingPrinted(path: string)
    ensures PrintedHunks([]) == [] && Join([]) == "" && WithNewlines([]) == [] && Concat([]) == ""
    ensures EndsWithNewline(FileHeader(path)) && FileHeader(path) + "" == FileHeader(path)
  {
  }

  // ---------- Numbers ----------

  function Digit(c: char): int {
    c as int - '0' as int
  }

  /** A decimal number read from left to right. */
  function Value(s: string): int {
    if s == "" then 0 else 10 * Value(s[..|s| - 1]) + Digit(s[|s| - 1])
  }

  /** Numbers are printed in decimal digits, and read back as they were. */
  lemma {:induction false} DecimalReads(n: nat)
    ensures Value(Decimal(n)) == n && Decimal(n) != ""
    ensures forall i :: 0 <= i < |Decimal(n)| ==> '0' <= Decimal(n)[i] <= '9'
  {
    if n < 10 {
      var d := Decimal(n);
      assert d[..0] == "" && Value(d[..0]) == 0;
    } else {
      DecimalReads(n / 10);
      var d := Decimal(n);
      assert d[..|d| - 1] == Decimal(n / 10);
    }
  }
}
