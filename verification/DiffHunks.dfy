/** Unified diff hunks: taking them out of a diff, repairing their headers, and putting them into a diff. */
module DiffHunks {
  import opened Text

  predicate StartsWith(s: string, prefix: string) {
    |prefix| <= |s| && s[..|prefix|] == prefix
  }

  predicate IsHeader(line: string) { StartsWith(line, "@@") }

  predicate IsBody(line: string) {
    line != "" && (line[0] == ' ' || line[0] == '+' || line[0] == '-')
  }

  predicate InOld(line: string) { line != "" && (line[0] == '-' || line[0] == ' ') }
  predicate InNew(line: string) { line != "" && (line[0] == '+' || line[0] == ' ') }

  function Count(lines: seq<string>, p: string -> bool): nat {
    if lines == [] then 0 else Count(lines[..|lines| - 1], p) + if p(lines[|lines| - 1]) then 1 else 0
  }

  function Filter(lines: seq<string>, p: string -> bool): seq<string> {
    if lines == [] then []
    else Filter(lines[..|lines| - 1], p) + if p(lines[|lines| - 1]) then [lines[|lines| - 1]] else []
  }

  function Decimal(n: nat): string {
    if n < 10 then [('0' as int + n) as char] else Decimal(n / 10) + [('0' as int + n % 10) as char]
  }

  function CountedHeader(lines: seq<string>): string {
    "@@ -1," + Decimal(Count(lines, InOld)) + " +1," + Decimal(Count(lines, InNew)) + " @@"
  }

  // ---------- Taking hunks out ----------

  datatype Scan = Scan(hunks: seq<string>, current: Option<string>)

  function Flushed(s: Scan): seq<string> {
    if s.current.Some? && s.current.value != "" then s.hunks + [s.current.value] else s.hunks
  }

  function ScanLine(s: Scan, line: string): Scan {
    if IsHeader(line) then Scan(Flushed(s), Some(line))
    else if s.current.None? then s
    else if IsBody(line) then Scan(s.hunks, Some(s.current.value + line))
    else Scan(Flushed(s), None)
  }

  function ScanAll(lines: seq<string>): Scan {
    if lines == [] then Scan([], None) else ScanLine(ScanAll(lines[..|lines| - 1]), lines[|lines| - 1])
  }

  /** A hunk without a usable header line and a body is dropped, and a bare header is filled in. */
  function Fixed(hunk: string): Option<string> {
    var lines := SplitInclusive(hunk);
    if |lines| < 2 || !IsHeader(lines[0]) then None
    else if Trim(lines[0]) == "@@" then Some(CountedHeader(lines[1..]) + Concat(lines[1..]))
    else Some(hunk)
  }

  function FixAll(hunks: seq<string>): seq<string> {
    if hunks == [] then []
    else FixAll(hunks[..|hunks| - 1])
         + if Fixed(hunks[|hunks| - 1]).Some? then [Fixed(hunks[|hunks| - 1]).value] else []
  }

  predicate HasHeader(lines: seq<string>) {
    exists i :: 0 <= i < |lines| && IsHeader(lines[i])
  }

  /** A diff without headers is one hunk. */
  function Headless(lines: seq<string>): seq<string> {
    var body := Concat(Filter(lines, IsBody));
    if body == "" then [] else [CountedHeader(lines) + "\n" + body]
  }

  function Extract(text: string): seq<string> {
    var lines := SplitInclusive(text);
    if HasHeader(lines) then FixAll(Flushed(ScanAll(lines))) else Headless(lines)
  }

  method FixHunkHeaders(hunks: seq<string>) returns (fixed: seq<string>)
    ensures fixed == FixAll(hunks)
  {
    fixed := [];
    for i := 0 to |hunks|
      invariant fixed == FixAll(hunks[..i])
    {
      assert hunks[..i + 1][..i] == hunks[..i];
      assert fixed + [] == fixed;
      var lines := SplitInclusive(hunks[i]);
      if |lines| < 2 { continue; }
      if !IsHeader(lines[0]) { continue; }
      if Trim(lines[0]) == "@@" {
        var body := lines[1..];
        fixed := fixed + [CountedHeader(body) + Concat(body)];
      } else {
        fixed := fixed + [hunks[i]];
      }
    }
    assert hunks[..|hunks|] == hunks;
  }

  method ExtractUnifiedDiffHunks(text: string) returns (hunks: seq<string>)
    ensures hunks == Extract(text)
  {
    var lines := SplitInclusive(text);
    if !HasHeader(lines) { return Headless(lines); }
    hunks := [];
    var current: Option<string> := None;
    for i := 0 to |lines|
      invariant Scan(hunks, current) == ScanAll(lines[..i])
    {
      assert lines[..i + 1][..i] == lines[..i];
      var line := lines[i];
      if IsHeader(line) {
        if current.Some? && current.value != "" { hunks := hunks + [current.value]; }
        current := Some(line);
      } else if current.Some? {
        if IsBody(line) {
          current := Some(current.value + line);
        } else {
          if current.value != "" { hunks := hunks + [current.value]; }
          current := None;
        }
      }
    }
    assert lines[..|lines|] == lines;
    if current.Some? && current.value != "" { hunks := hunks + [current.value]; }
    hunks := FixHunkHeaders(hunks);
  }

  // ---------- Putting hunks into a diff ----------

  /** A line without its line ending: a newline, or a carriage return and a newline. */
  function Content(line: string): string {
    if !EndsWithNewline(line) then line
    else if |line| >= 2 && line[|line| - 2] == '\r' then line[..|line| - 2]
    else line[..|line| - 1]
  }

  function Contents(lines: seq<string>): seq<string> {
    seq(|lines|, i requires 0 <= i < |lines| => Content(lines[i]))
  }

  function AllLines(hunks: seq<string>): seq<string> {
    if hunks == [] then [] else AllLines(hunks[..|hunks| - 1]) + Contents(SplitInclusive(hunks[|hunks| - 1]))
  }

  predicate Shown(line: string) {
    StartsWith(line, "@@ ") || IsBody(line)
  }

  function Join(lines: seq<string>): string {
    if lines == [] then ""
    else if |lines| == 1 then lines[0]
    else Join(lines[..|lines| - 1]) + "\n" + lines[|lines| - 1]
  }

  function FileHeader(path: string): string {
    "--- a/" + path + "\n+++ b/" + path + "\n"
  }

  function Concatenate(path: string, hunks: seq<string>): string {
    if hunks == [] then FileHeader(path)
    else
      var diff := FileHeader(path) + Join(Filter(AllLines(hunks), Shown));
      if EndsWithNewline(diff) then diff else diff + "\n"
  }

  // ---------- The round trip ----------

  /** A hunk with a header and body lines. */
  ghost predicate Shaped(hunk: string) {
    var lines := SplitInclusive(hunk);
    |lines| >= 2 && StartsWith(lines[0], "@@ ") && forall i :: 1 <= i < |lines| ==> IsBody(lines[i])
  }

  predicate Bare(hunk: string) {
    hunk != "" && Trim(SplitInclusive(hunk)[0]) == "@@"
  }

  function Ended(line: string): string {
    Content(line) + "\n"
  }

  function EndedLines(lines: seq<string>): seq<string> {
    seq(|lines|, i requires 0 <= i < |lines| => Ended(lines[i]))
  }

  /** The hunk with every line ended by a newline alone. */
  function Normal(hunk: string): string {
    Concat(EndedLines(SplitInclusive(hunk)))
  }

  function NormalAll(hunks: seq<string>): seq<string> {
    if hunks == [] then [] else NormalAll(hunks[..|hunks| - 1]) + [Normal(hunks[|hunks| - 1])]
  }

  function FlatLines(hunks: seq<string>): seq<string> {
    if hunks == [] then [] else FlatLines(hunks[..|hunks| - 1]) + EndedLines(SplitInclusive(hunks[|hunks| - 1]))
  }

  lemma ContentIsLine(line: string)
    requires IsLine(line)
    ensures NoNewline(Content(line)) && IsLine(Ended(line)) && EndsWithNewline(Ended(line))
    ensures IsBody(line) ==> IsBody(Content(line)) && IsBody(Ended(line)) && !IsHeader(Ended(line))
    ensures StartsWith(line, "@@ ") ==> StartsWith(Content(line), "@@ ") && StartsWith(Ended(line), "@@ ")
  {
    if StartsWith(line, "@@ ") {
      assert line[..3][2] == ' ' && line[..3][0] == '@' && line[..3][1] == '@';
      assert |Content(line)| >= 3 && Content(line)[..3] == line[..3] && Ended(line)[..3] == line[..3];
    }
  }

  lemma EndedAre(lines: seq<string>)
    requires IsLines(lines)
    ensures AllComplete(EndedLines(lines))
  {
    forall i | 0 <= i < |lines|
      ensures IsLine(EndedLines(lines)[i]) && EndsWithNewline(EndedLines(lines)[i])
    {
      ContentIsLine(lines[i]);
    }
  }

  /** The lines of a normal hunk. */
  lemma NormalLines(hunk: string)
    ensures IsLines(SplitInclusive(hunk)) && SplitInclusive(Normal(hunk)) == EndedLines(SplitInclusive(hunk))
  {
    SplitSpells(hunk);
    EndedAre(SplitInclusive(hunk));
    SplitUnique(EndedLines(SplitInclusive(hunk)));
  }

  // -- What is printed --

  ghost predicate AllShaped(hunks: seq<string>) {
    forall i :: 0 <= i < |hunks| ==> Shaped(hunks[i])
  }

  lemma {:induction false} FilterAll(lines: seq<string>, p: string -> bool)
    requires forall i :: 0 <= i < |lines| ==> p(lines[i])
    ensures Filter(lines, p) == lines
  {
    if lines != [] {
      FilterAll(lines[..|lines| - 1], p);
    }
  }

  lemma ShapedShown(hunk: string)
    requires Shaped(hunk)
    ensures var ls := Contents(SplitInclusive(hunk)); forall i :: 0 <= i < |ls| ==> Shown(ls[i]) && ls[i] != ""
  {
    var lines := SplitInclusive(hunk);
    SplitSpells(hunk);
    hide SplitInclusive;
    forall i | 0 <= i < |lines|
      ensures Shown(Contents(lines)[i]) && Contents(lines)[i] != ""
    {
      ContentIsLine(lines[i]);
    }
  }

  lemma {:induction false} AllAreShown(hunks: seq<string>)
    requires AllShaped(hunks)
    ensures var ls := AllLines(hunks); (forall i :: 0 <= i < |ls| ==> Shown(ls[i]) && ls[i] != "") && |ls| >= |hunks|
  {
    if hunks != [] {
      var init, last := hunks[..|hunks| - 1], hunks[|hunks| - 1];
      AllAreShown(init);
      ShapedShown(last);
      SplitSpells(last);
      EndedAre(SplitInclusive(last));
      hide SplitInclusive, Shown;
    }
  }

  /** Each line followed by a newline. */
  function WithNewlines(lines: seq<string>): seq<string> {
    seq(|lines|, i requires 0 <= i < |lines| => lines[i] + "\n")
  }

  lemma {:induction false} JoinSpells(lines: seq<string>)
    requires lines != []
    ensures Join(lines) + "\n" == Concat(WithNewlines(lines))
  {
    var init, last := lines[..|lines| - 1], lines[|lines| - 1];
    assert WithNewlines(lines) == WithNewlines(init) + [last + "\n"];
    ConcatFrame("", WithNewlines(init), last + "\n");
    if |lines| > 1 {
      JoinSpells(init);
      Associative(Join(init) + "\n", last, "\n");
    } else {
      assert WithNewlines(init) == [] && Concat([]) == "";
    }
  }

  lemma {:induction false} AllLinesEnded(hunks: seq<string>)
    ensures WithNewlines(AllLines(hunks)) == FlatLines(hunks)
  {
    if hunks != [] {
      var lines := SplitInclusive(hunks[|hunks| - 1]);
      AllLinesEnded(hunks[..|hunks| - 1]);
      var before := AllLines(hunks[..|hunks| - 1]);
      assert WithNewlines(before + Contents(lines)) == WithNewlines(before) + EndedLines(lines);
    }
  }

  lemma {:induction false} FlatComplete(hunks: seq<string>)
    ensures AllComplete(FlatLines(hunks))
  {
    if hunks != [] {
      FlatComplete(hunks[..|hunks| - 1]);
      SplitSpells(hunks[|hunks| - 1]);
      EndedAre(SplitInclusive(hunks[|hunks| - 1]));
      hide IsLine, EndsWithNewline;
    }
  }

  function OldLine(path: string): string { "--- a/" + path + "\n" }
  function NewLine(path: string): string { "+++ b/" + path + "\n" }

  lemma FileHeaderLines(path: string)
    requires NoNewline(path)
    ensures FileHeader(path) == Concat([OldLine(path), NewLine(path)]) && AllComplete([OldLine(path), NewLine(path)])
  {
    assert [OldLine(path), NewLine(path)] == [OldLine(path)] + [NewLine(path)];
    ConcatFrame(OldLine(path), [NewLine(path)], "");
    ConcatOne(NewLine(path));
  }

  lemma PrintedText(path: string, hunks: seq<string>)
    requires AllShaped(hunks) && hunks != []
    ensures Concatenate(path, hunks) == FileHeader(path) + Concat(FlatLines(hunks))
  {
    var lines := AllLines(hunks);
    AllAreShown(hunks);
    FilterAll(lines, Shown);
    LastIsNoNewline(hunks, path);
    hide AllLines, Join, FileHeader, Filter, FlatLines, Concat, Shown, WithNewlines, EndsWithNewline, Shaped;
    JoinSpells(lines);
    AllLinesEnded(hunks);
    Associative(FileHeader(path), Join(lines), "\n");
  }

  /** Printing shaped hunks prints two file lines and then all their lines. */
  lemma PrintedLines(path: string, hunks: seq<string>)
    requires NoNewline(path) && AllShaped(hunks) && hunks != []
    ensures SplitInclusive(Concatenate(path, hunks)) == [OldLine(path), NewLine(path)] + FlatLines(hunks)
  {
    hide SplitInclusive, Concat, FileHeader, FlatLines, OldLine, NewLine, Concatenate, Shaped, NoNewline;
    var top, flat := [OldLine(path), NewLine(path)], FlatLines(hunks);
    PrintedText(path, hunks);
    FileHeaderLines(path);
    FlatComplete(hunks);
    ConcatAppend(top, flat);
    AllCompleteLines(top, flat);
    SplitUnique(top + flat);
  }

  lemma AllCompleteLines(a: seq<string>, b: seq<string>)
    requires AllComplete(a) && AllComplete(b)
    ensures IsLines(a + b)
  {
    hide IsLine, EndsWithNewline;
  }

  lemma LastIsNoNewline(hunks: seq<string>, path: string)
    requires AllShaped(hunks) && hunks != []
    ensures !EndsWithNewline(FileHeader(path) + Join(AllLines(hunks)))
  {
    var lines := AllLines(hunks);
    AllAreShown(hunks);
    LinesHaveNoNewline(hunks);
    var last := lines[|lines| - 1];
    JoinEnds(lines);
    var s := FileHeader(path) + Join(lines);
    hide AllLines, Join, FileHeader;
    assert s[|s| - 1] == last[|last| - 1];
  }

  lemma JoinEnds(lines: seq<string>)
    requires lines != [] && lines[|lines| - 1] != ""
    ensures Join(lines) != "" && Join(lines)[|Join(lines)| - 1] == lines[|lines| - 1][|lines[|lines| - 1]| - 1]
  {
  }

  lemma {:induction false} LinesHaveNoNewline(hunks: seq<string>)
    ensures var ls := AllLines(hunks); forall i :: 0 <= i < |ls| ==> NoNewline(ls[i])
  {
    if hunks != [] {
      var lines := SplitInclusive(hunks[|hunks| - 1]);
      LinesHaveNoNewline(hunks[..|hunks| - 1]);
      SplitSpells(hunks[|hunks| - 1]);
      hide SplitInclusive;
      forall i | 0 <= i < |lines|
        ensures NoNewline(Contents(lines)[i])
      {
        ContentIsLine(lines[i]);
      }
      hide NoNewline, Contents;
      assert AllLines(hunks) == AllLines(hunks[..|hunks| - 1]) + Contents(lines);
    }
  }

  // -- What is read back --

  lemma ScanMore(lines: seq<string>, line: string)
    ensures ScanAll(lines + [line]) == ScanLine(ScanAll(lines), line)
  {
    assert (lines + [line])[..|lines|] == lines;
  }

  lemma {:induction false} ScanBody(lines: seq<string>, body: seq<string>)
    requires ScanAll(lines).current.Some? && forall i :: 0 <= i < |body| ==> IsBody(body[i]) && !IsHeader(body[i])
    ensures ScanAll(lines + body) == Scan(ScanAll(lines).hunks, Some(ScanAll(lines).current.value + Concat(body)))
  {
    var text := ScanAll(lines).current.value;
    if body == [] {
      assert lines + body == lines && text + Concat(body) == text;
    } else {
      hide ScanAll;
      var init, last := body[..|body| - 1], body[|body| - 1];
      ScanBody(lines, init);
      assert lines + body == lines + init + [last] && init + [last] == body;
      ScanMore(lines + init, last);
      ConcatFrame("", init, last);
      Associative(text, Concat(init), last);
    }
  }

  lemma ScanHunk(lines: seq<string>, hunk: string)
    requires Shaped(hunk)
    ensures ScanAll(lines + EndedLines(SplitInclusive(hunk))) == Scan(Flushed(ScanAll(lines)), Some(Normal(hunk)))
            && Normal(hunk) != ""
  {
    hide ScanAll, Concat;
    var ls := SplitInclusive(hunk);
    SplitSpells(hunk);
    hide SplitInclusive;
    var ended := EndedLines(ls);
    var head, body := ended[0], ended[1..];
    ContentIsLine(ls[0]);
    forall i | 0 <= i < |body|
      ensures IsBody(body[i]) && !IsHeader(body[i])
    {
      ContentIsLine(ls[i + 1]);
    }
    HeaderStarts(head);
    assert ended == [head] + body && lines + ended == lines + [head] + body;
    ScanMore(lines, head);
    ConcatFrame(head, body, "");
    ScanBody(lines + [head], body);
  }

  lemma HeaderStarts(line: string)
    requires StartsWith(line, "@@ ")
    ensures IsHeader(line)
  {
    assert line[..2] == line[..3][..2];
  }

  lemma MoreHunks(top: seq<string>, hunks: seq<string>)
    requires hunks != []
    ensures var init, last := hunks[..|hunks| - 1], hunks[|hunks| - 1];
            && top + FlatLines(hunks) == top + FlatLines(init) + EndedLines(SplitInclusive(last))
            && NormalAll(hunks) == NormalAll(init) + [Normal(last)]
  {
    hide EndedLines, SplitInclusive, Normal;
  }

  lemma {:induction false} ScanHunks(top: seq<string>, hunks: seq<string>)
    requires ScanAll(top) == Scan([], None) && AllShaped(hunks)
    ensures Flushed(ScanAll(top + FlatLines(hunks))) == NormalAll(hunks)
  {
    if hunks == [] {
      assert top + FlatLines(hunks) == top;
    } else {
      hide ScanAll, EndedLines, SplitInclusive, Normal, FlatLines, NormalAll, Shaped;
      var init, last := hunks[..|hunks| - 1], hunks[|hunks| - 1];
      ScanHunks(top, init);
      ScanHunk(top + FlatLines(init), last);
      MoreHunks(top, hunks);
    }
  }

  lemma TopScans(path: string)
    ensures ScanAll([OldLine(path), NewLine(path)]) == Scan([], None)
  {
    var top := [OldLine(path), NewLine(path)];
    assert top[..1] == [OldLine(path)] && top[..1][..0] == [];
    assert OldLine(path)[0] == '-' && NewLine(path)[0] == '+';
    assert !IsHeader(OldLine(path)) && !IsHeader(NewLine(path));
    hide OldLine, NewLine;
    assert ScanAll(top[..1]) == Scan([], None);
  }

  lemma {:induction false} TrimEndKeeps(s: string, i: nat)
    requires i < |s| && !IsSpace(s[i])
    ensures i < |TrimEnd(s)| <= |s| && TrimEnd(s) == s[..|TrimEnd(s)|]
  {
    if IsSpace(s[|s| - 1]) {
      TrimEndKeeps(s[..|s| - 1], i);
    } else {
      assert s[..|s|] == s;
    }
  }

  /** Line endings do not decide whether a header is bare. */
  lemma EndingIsTrimmed(line: string)
    requires StartsWith(line, "@@")
    ensures Trim(Ended(line)) == Trim(line)
  {
    assert line[..2][0] == '@';
    var c := Content(line);
    assert Ended(line)[..|c|] == c;
    assert TrimEnd(Ended(line)) == TrimEnd(c);
    if EndsWithNewline(line) {
      var l1 := line[..|line| - 1];
      assert TrimEnd(line) == TrimEnd(l1);
      if |line| >= 2 && line[|line| - 2] == '\r' {
        assert l1[..|l1| - 1] == c;
      }
    }
  }

  lemma NormalIsKept(hunk: string)
    requires Shaped(hunk) && !Bare(hunk)
    ensures Fixed(Normal(hunk)) == Some(Normal(hunk))
  {
    var ls := SplitInclusive(hunk);
    NormalLines(hunk);
    EndedAre(ls);
    ContentIsLine(ls[0]);
    HeaderStarts(ls[0]);
    HeaderStarts(Ended(ls[0]));
    EndingIsTrimmed(ls[0]);
    hide Trim, Normal, Ended, EndedLines, IsHeader;
  }

  lemma {:induction false} NormalsAreKept(hunks: seq<string>)
    requires AllShaped(hunks) && NoneBare(hunks)
    ensures FixAll(NormalAll(hunks)) == NormalAll(hunks)
  {
    if hunks != [] {
      var init, last := hunks[..|hunks| - 1], hunks[|hunks| - 1];
      NormalsAreKept(init);
      NormalIsKept(last);
      var ns := NormalAll(init);
      assert (ns + [Normal(last)])[..|ns|] == ns;
      hide Fixed, Normal, Shaped, Bare;
    }
  }

  lemma FlatHasHeader(top: seq<string>, hunks: seq<string>)
    requires AllShaped(hunks) && hunks != []
    ensures HasHeader(top + FlatLines(hunks))
  {
    var init, last := hunks[..|hunks| - 1], hunks[|hunks| - 1];
    var ls := SplitInclusive(last);
    SplitSpells(last);
    EndedAre(ls);
    ContentIsLine(ls[0]);
    HeaderStarts(Ended(ls[0]));
    var all := top + FlatLines(hunks);
    assert all[|top| + |FlatLines(init)|] == EndedLines(ls)[0];
  }

  /** Reading back what was printed gives the same hunks, with their line endings made newlines. */
  lemma RoundTrip(path: string, hunks: seq<string>)
    requires NoNewline(path) && hunks != [] && AllShaped(hunks) && NoneBare(hunks)
    ensures Extract(Concatenate(path, hunks)) == NormalAll(hunks)
  {
    var top := [OldLine(path), NewLine(path)];
    PrintedLines(path, hunks);
    TopScans(path);
    FlatHasHeader(top, hunks);
    ScanHunks(top, hunks);
    NormalsAreKept(hunks);
    hide SplitInclusive, Concatenate, ScanAll, FixAll, FlatLines, NormalAll, OldLine, NewLine;
  }

  // -- Exactly when --

  /** Every line ends with a newline that no carriage return precedes. */
  ghost predicate Plain(hunk: string) {
    var lines := SplitInclusive(hunk);
    forall i :: 0 <= i < |lines| ==> EndsWithNewline(lines[i]) && !(|lines[i]| >= 2 && lines[i][|lines[i]| - 2] == '\r')
  }

  lemma PlainLine(line: string)
    requires IsLine(line)
    ensures Ended(line) == line <==> EndsWithNewline(line) && !(|line| >= 2 && line[|line| - 2] == '\r')
  {
    if EndsWithNewline(line) {
      assert line == line[..|line| - 1] + "\n";
    } else {
      assert EndsWithNewline(Ended(line));
    }
  }

  /** A hunk is normal exactly when it is plain. */
  lemma PlainIsNormal(hunk: string)
    ensures Normal(hunk) == hunk <==> Plain(hunk)
  {
    var lines := SplitInclusive(hunk);
    SplitSpells(hunk);
    NormalLines(hunk);
    hide SplitInclusive, Concat, Ended;
    forall i | 0 <= i < |lines|
      ensures Ended(lines[i]) == lines[i]
              <==> EndsWithNewline(lines[i]) && !(|lines[i]| >= 2 && lines[i][|lines[i]| - 2] == '\r')
    {
      PlainLine(lines[i]);
    }
    if Normal(hunk) == hunk {
      assert forall i :: 0 <= i < |lines| ==> EndedLines(lines)[i] == lines[i];
    }
    if Plain(hunk) {
      assert EndedLines(lines) == lines;
    }
  }

  ghost predicate AllPlain(hunks: seq<string>) {
    forall i :: 0 <= i < |hunks| ==> Plain(hunks[i])
  }

  lemma {:induction false} PlainsAreNormal(hunks: seq<string>)
    ensures |NormalAll(hunks)| == |hunks| && (NormalAll(hunks) == hunks <==> AllPlain(hunks))
  {
    if hunks != [] {
      hide Plain, Normal;
      var init, last := hunks[..|hunks| - 1], hunks[|hunks| - 1];
      assert hunks == init + [last];
      PlainsAreNormal(init);
      PlainIsNormal(last);
      assert NormalAll(hunks)[..|init|] == NormalAll(init) && NormalAll(hunks)[|init|] == Normal(last);
      assert AllPlain(hunks) <==> AllPlain(init) && Plain(last);
    }
  }

  lemma {:induction false} LineEndBeyond(s: string, n: nat)
    requires 0 < n <= |s| && forall i :: 0 <= i < n ==> s[i] != '\n'
    ensures LineEnd(s) >= n
  {
    if n > 1 {
      LineEndBeyond(s[1..], n - 1);
    }
  }

  lemma CountedIsNotBare(s: string)
    requires StartsWith(s, "@@ -1,")
    ensures !Bare(s)
  {
    assert forall i :: 0 <= i < 6 ==> s[i] == "@@ -1,"[i];
    LineEndBeyond(s, 6);
    var first := s[..LineEnd(s)];
    assert SplitInclusive(s)[0] == first && TrimStart(first) == first;
    TrimEndKeeps(first, 5);
    hide SplitInclusive, TrimStart, TrimEnd;
  }

  lemma CountedStarts(lines: seq<string>, rest: string)
    ensures StartsWith(CountedHeader(lines) + rest, "@@ -1,")
  {
    hide Decimal, Count;
    var s := CountedHeader(lines) + rest;
    assert s[..6] == "@@ -1,";
  }

  lemma FixedIsNotBare(hunk: string)
    ensures Fixed(hunk).Some? ==> !Bare(Fixed(hunk).value)
  {
    var lines := SplitInclusive(hunk);
    if |lines| >= 2 && IsHeader(lines[0]) && Trim(lines[0]) == "@@" {
      CountedStarts(lines[1..], Concat(lines[1..]));
      CountedIsNotBare(CountedHeader(lines[1..]) + Concat(lines[1..]));
    }
    hide SplitInclusive, CountedHeader, Trim, IsHeader;
  }

  ghost predicate NoneBare(hunks: seq<string>) {
    forall i :: 0 <= i < |hunks| ==> !Bare(hunks[i])
  }

  lemma {:induction false} NoneFixedIsBare(hunks: seq<string>)
    ensures NoneBare(FixAll(hunks))
  {
    if hunks != [] {
      hide Fixed, Bare;
      var init, last := FixAll(hunks[..|hunks| - 1]), hunks[|hunks| - 1];
      NoneFixedIsBare(hunks[..|hunks| - 1]);
      FixedIsNotBare(last);
      assert FixAll(hunks) == init + if Fixed(last).Some? then [Fixed(last).value] else [];
    }
  }

  lemma HeadlessIsNotBare(lines: seq<string>)
    ensures NoneBare(Headless(lines))
  {
    hide CountedHeader, Filter, Concat, Bare;
    var body := Concat(Filter(lines, IsBody));
    var header := CountedHeader(lines);
    CountedStarts(lines, "\n" + body);
    Associative(header, "\n", body);
    CountedIsNotBare(header + "\n" + body);
  }

  /** No hunk that is taken out of any text has a bare header. */
  lemma ExtractedIsNotBare(text: string)
    ensures NoneBare(Extract(text))
  {
    hide SplitInclusive, NoneBare, FixAll, ScanAll, Headless;
    var lines := SplitInclusive(text);
    NoneFixedIsBare(Flushed(ScanAll(lines)));
    HeadlessIsNotBare(lines);
  }

  /** No hunks at all come back as one: the file lines look like removed and added lines. */
  lemma EmptyComesBackAsOne(path: string)
    requires NoNewline(path)
    ensures |Extract(Concatenate(path, []))| == 1
  {
    var top := [OldLine(path), NewLine(path)];
    FileHeaderLines(path);
    SplitUnique(top);
    assert OldLine(path)[0] == '-' && NewLine(path)[0] == '+' && !IsHeader(OldLine(path)) && !IsHeader(NewLine(path));
    assert IsBody(OldLine(path)) && IsBody(NewLine(path));
    FilterAll(top, IsBody);
    assert FileHeader(path) != "";
    hide SplitInclusive, Concat, Filter, OldLine, NewLine, FileHeader, IsBody, IsHeader;
  }

  /** Hunks with a header line that starts with `@@ ` and body lines survive printing and reading exactly when there
      is at least one, no header is bare, and every line ends with a newline that no carriage return precedes. */
  lemma RoundTripExactly(path: string, hunks: seq<string>)
    requires NoNewline(path) && AllShaped(hunks)
    ensures Extract(Concatenate(path, hunks)) == hunks <==> hunks != [] && NoneBare(hunks) && AllPlain(hunks)
  {
    hide Extract, Concatenate, Bare, Shaped, AllPlain, NormalAll;
    if hunks == [] {
      EmptyComesBackAsOne(path);
    } else {
      ExtractedIsNotBare(Concatenate(path, hunks));
      PlainsAreNormal(hunks);
      if NoneBare(hunks) {
        RoundTrip(path, hunks);
      }
    }
  }

  /** The header filled in for a bare one has no newline, so the first body line becomes part of it. */
  lemma BareHeaderSwallowsALine()
    ensures Fixed("@@\n+a\n") == Some("@@ -1,0 +1,1 @@+a\n")
  {
    var lines := ["@@\n", "+a\n"];
    assert IsLines(lines);
    SplitUnique(lines);
    assert lines[1..] == ["+a\n"] && lines[1..][..0] == [];
    ConcatFrame("@@\n", lines[1..], "");
    ConcatOne("+a\n");
    assert Concat(lines) == "@@\n+a\n";
    assert Trim("@@\n") == "@@" by {
      assert "@@\n"[..2] == "@@" && TrimEnd("@@") == "@@";
    }
    assert Count(lines[1..], InOld) == 0 && Count(lines[1..], InNew) == 1;
    assert Decimal(0) == "0" && Decimal(1) == "1";
    assert CountedHeader(lines[1..]) == "@@ -1,0 +1,1 @@";
    assert "@@ -1,0 +1,1 @@" + "+a\n" == "@@ -1,0 +1,1 @@+a\n";
  }
}
