/** Text as the pipeline sees it: a `string` holds one `char` per byte, so `|s|` is Rust's `len()`.
    Lines are cut the way `split_inclusive('\n')` cuts them: every line but the last ends with a
    newline, and only its last byte is one. */
module Text {

  datatype Option<+T> = None | Some(value: T)

  function Concat(parts: seq<string>): string {
    if parts == [] then "" else parts[0] + Concat(parts[1..])
  }

  function LineEnd(s: string): (n: nat)
    requires s != ""
    ensures 0 < n <= |s|
  {
    if s[0] == '\n' || |s| == 1 then 1 else 1 + LineEnd(s[1..])
  }

  function SplitInclusive(s: string): seq<string> {
    if s == "" then [] else [s[..LineEnd(s)]] + SplitInclusive(s[LineEnd(s)..])
  }

  predicate EndsWithNewline(s: string) {
    s != "" && s[|s| - 1] == '\n'
  }

  ghost predicate IsLine(l: string) {
    l != "" && forall i :: 0 <= i < |l| - 1 ==> l[i] != '\n'
  }

  ghost predicate AllComplete(ls: seq<string>) {
    forall i :: 0 <= i < |ls| ==> IsLine(ls[i]) && EndsWithNewline(ls[i])
  }

  /** What a list of lines looks like when it came from one text. */
  ghost predicate IsLines(ls: seq<string>) {
    forall i :: 0 <= i < |ls| ==> IsLine(ls[i]) && (i < |ls| - 1 ==> EndsWithNewline(ls[i]))
  }

  /** The lines that already end with a newline. */
  function CompleteLines(s: string): seq<string> {
    Complete(SplitInclusive(s))
  }

  function Complete(ls: seq<string>): seq<string> {
    if ls == [] || EndsWithNewline(ls[|ls| - 1]) then ls else ls[..|ls| - 1]
  }

  /** What follows the last newline: `rsplit('\n').next()`. */
  function Remainder(s: string): string {
    if s == "" || EndsWithNewline(s) then "" else Remainder(s[..|s| - 1]) + [s[|s| - 1]]
  }

  ghost predicate NoNewline(s: string) {
    forall i :: 0 <= i < |s| ==> s[i] != '\n'
  }

  lemma Associative(a: string, b: string, c: string)
    ensures a + (b + c) == a + b + c
  {
  }

  lemma {:induction false} ConcatAppend(a: seq<string>, b: seq<string>)
    ensures Concat(a + b) == Concat(a) + Concat(b)
  {
    if a == [] {
      assert a + b == b;
    } else {
      ConcatAppend(a[1..], b);
      assert (a + b)[1..] == a[1..] + b && (a + b)[0] == a[0];
      Associative(a[0], Concat(a[1..]), Concat(b));
    }
  }

  lemma ConcatOne(l: string)
    ensures Concat([l]) == l
  {
    assert Concat([l]) == l + Concat([l][1..]);
  }

  lemma ConcatFrame(l: string, ls: seq<string>, r: string)
    ensures Concat([l] + ls) == l + Concat(ls)
    ensures Concat(ls + [r]) == Concat(ls) + r
  {
    assert ([l] + ls)[1..] == ls;
    ConcatAppend(ls, [r]);
    ConcatOne(r);
  }

  lemma {:induction false} FirstLine(l: string, rest: string)
    requires IsLine(l) && (rest == "" || EndsWithNewline(l))
    ensures LineEnd(l + rest) == |l|
  {
    if |l| > 1 {
      assert l[0] != '\n';
      assert (l + rest)[1..] == l[1..] + rest;
      assert forall i :: 0 <= i < |l[1..]| - 1 ==> l[1..][i] == l[i + 1];
      FirstLine(l[1..], rest);
    }
  }

  lemma {:induction false} LineEndCuts(s: string)
    requires s != ""
    ensures IsLine(s[..LineEnd(s)]) && (LineEnd(s) < |s| ==> EndsWithNewline(s[..LineEnd(s)]))
  {
    if s[0] != '\n' && |s| > 1 {
      LineEndCuts(s[1..]);
      var n := LineEnd(s[1..]);
      assert s[..n + 1] == [s[0]] + s[1..][..n];
    }
  }

  /** Cutting a text into lines loses nothing and yields lines. */
  lemma SplitStep(s: string)
    ensures SplitInclusive("") == []
    ensures s != "" ==> SplitInclusive(s) == [s[..LineEnd(s)]] + SplitInclusive(s[LineEnd(s)..])
  {
    hide LineEnd;
  }

  lemma Halves(s: string, n: nat)
    requires n <= |s|
    ensures s[..n] + s[n..] == s
  {
  }

  lemma {:induction false} SplitConcats(s: string)
    ensures Concat(SplitInclusive(s)) == s
  {
    SplitStep(s);
    if s != "" {
      hide Concat, LineEnd, SplitInclusive;
      var n := LineEnd(s);
      SplitConcats(s[n..]);
      ConcatFrame(s[..n], SplitInclusive(s[n..]), "");
      Halves(s, n);
    }
  }

  lemma {:induction false} SplitIsLines(s: string)
    ensures IsLines(SplitInclusive(s))
  {
    SplitStep(s);
    if s != "" {
      hide IsLines, IsLine, LineEnd, EndsWithNewline, SplitInclusive;
      var n := LineEnd(s);
      LineEndCuts(s);
      SplitIsLines(s[n..]);
      assert n == |s| ==> s[n..] == "";
      LineFirst(s[..n], SplitInclusive(s[n..]));
    }
  }

  lemma SplitSpells(s: string)
    ensures Concat(SplitInclusive(s)) == s
    ensures IsLines(SplitInclusive(s))
  {
    hide Concat, IsLines, SplitInclusive;
    SplitConcats(s);
    SplitIsLines(s);
  }

  lemma LineFirst(l: string, ls: seq<string>)
    requires IsLine(l) && IsLines(ls) && (ls != [] ==> EndsWithNewline(l))
    ensures IsLines([l] + ls)
  {
    var all := [l] + ls;
    forall i | 0 <= i < |all|
      ensures IsLine(all[i]) && (i < |all| - 1 ==> EndsWithNewline(all[i]))
    {
      assert i > 0 ==> all[i] == ls[i - 1];
    }
  }

  /** The lines of a text are the only lines that spell it. */
  lemma {:induction false} SplitUnique(ls: seq<string>)
    requires IsLines(ls)
    ensures SplitInclusive(Concat(ls)) == ls
  {
    if ls != [] {
      var l, rest := ls[0], ls[1..];
      assert forall i :: 0 <= i < |rest| ==> rest[i] == ls[i + 1];
      SplitUnique(rest);
      FirstLine(l, Concat(rest));
      var s := l + Concat(rest);
      assert s[..|l|] == l && s[|l|..] == Concat(rest);
    }
  }

  /** A text is its complete lines followed by what comes after the last newline. */
  lemma {:induction false} CompleteSpells(s: string)
    ensures AllComplete(CompleteLines(s))
    ensures s == Concat(CompleteLines(s)) + Remainder(s)
    ensures SplitInclusive(s) == CompleteLines(s) + if Remainder(s) == "" then [] else [Remainder(s)]
  {
    SplitSpells(s);
    if s != "" {
      LastLine(SplitInclusive(s));
    }
  }

  lemma LastLine(ls: seq<string>)
    requires IsLines(ls) && ls != []
    ensures var s := Concat(ls);
            && AllComplete(Complete(ls)) && s == Concat(Complete(ls)) + Remainder(s)
            && ls == Complete(ls) + if Remainder(s) == "" then [] else [Remainder(s)]
  {
    var init, last := ls[..|ls| - 1], ls[|ls| - 1];
    assert ls == init + [last];
    ConcatFrame("", init, last);
    if EndsWithNewline(last) {
      CompleteEnds(ls);
    } else {
      CompleteEnds(init);
      RemainderIgnores(Concat(init), last);
      PartialIsRemainder(last);
    }
  }

  lemma CompleteEnds(ls: seq<string>)
    requires AllComplete(ls)
    ensures ls == [] || EndsWithNewline(Concat(ls))
  {
    if ls != [] {
      var init, last := ls[..|ls| - 1], ls[|ls| - 1];
      assert ls == init + [last];
      ConcatFrame("", init, last);
    }
  }

  lemma {:induction false} RemainderIgnores(a: string, t: string)
    requires a == "" || EndsWithNewline(a)
    ensures Remainder(a + t) == Remainder(t)
  {
    if t == "" {
      assert a + t == a;
    } else if !EndsWithNewline(t) {
      var init := t[..|t| - 1];
      RemainderIgnores(a, init);
      assert (a + t)[..|a + t| - 1] == a + init;
    }
  }

  lemma {:induction false} PartialIsRemainder(s: string)
    requires NoNewline(s)
    ensures Remainder(s) == s
  {
    if s != "" {
      PartialIsRemainder(s[..|s| - 1]);
    }
  }

  lemma CompleteAppend(ls: seq<string>, t: seq<string>)
    requires AllComplete(ls)
    ensures Complete(ls + t) == ls + Complete(t)
  {
    if t == [] {
      assert ls + t == ls;
    } else {
      assert (ls + t)[..|ls + t| - 1] == ls + t[..|t| - 1];
    }
  }

  /** Cutting a text that arrives in two pieces: keep the first piece's complete lines, carry its
      remainder over, and go on with that. */
  lemma {:induction false} SplitAfter(a: string, b: string)
    ensures SplitInclusive(a + b) == CompleteLines(a) + SplitInclusive(Remainder(a) + b)
    ensures CompleteLines(a + b) == CompleteLines(a) + CompleteLines(Remainder(a) + b)
    ensures Remainder(a + b) == Remainder(Remainder(a) + b)
  {
    var tail := Remainder(a) + b;
    CompleteSpells(a);
    CompleteEnds(CompleteLines(a));
    RemainderIgnores(Concat(CompleteLines(a)), tail);
    assert Concat(CompleteLines(a)) + tail == a + b;
    SplitOf(CompleteLines(a), tail);
    CompleteAppend(CompleteLines(a), SplitInclusive(tail));
  }

  lemma SplitOf(front: seq<string>, tail: string)
    requires AllComplete(front)
    ensures SplitInclusive(Concat(front) + tail) == front + SplitInclusive(tail)
  {
    var ls := front + SplitInclusive(tail);
    SplitSpells(tail);
    ConcatAppend(front, SplitInclusive(tail));
    assert IsLines(ls);
    SplitUnique(ls);
  }

  // ---------- Trimming ----------

  /** ASCII white space; the other Unicode spaces are not single bytes. */
  predicate IsSpace(c: char) {
    c == ' ' || ('\t' <= c <= '\r')
  }

  function TrimStart(s: string): string {
    if s != "" && IsSpace(s[0]) then TrimStart(s[1..]) else s
  }

  function TrimEnd(s: string): string {
    if s != "" && IsSpace(s[|s| - 1]) then TrimEnd(s[..|s| - 1]) else s
  }

  function Trim(s: string): string {
    TrimEnd(TrimStart(s))
  }

  /** `s[i..j]` is what is left of `s` without the white space at both ends. */
  ghost predicate IsTrimmed(s: string, i: nat, j: nat) {
    && i <= j <= |s| && (forall k :: 0 <= k < i || j <= k < |s| ==> IsSpace(s[k]))
    && (i < j ==> !IsSpace(s[i]) && !IsSpace(s[j - 1]))
  }

  lemma {:induction false} TrimStartCuts(s: string) returns (i: nat)
    ensures i <= |s| && TrimStart(s) == s[i..] && (forall k :: 0 <= k < i ==> IsSpace(s[k]))
    ensures i < |s| ==> !IsSpace(s[i])
  {
    if s != "" && IsSpace(s[0]) {
      var n := TrimStartCuts(s[1..]);
      i := n + 1;
      assert forall k :: 0 < k < i ==> s[k] == s[1..][k - 1];
    } else {
      i := 0;
    }
  }

  lemma {:induction false} TrimEndCuts(s: string) returns (j: nat)
    ensures j <= |s| && TrimEnd(s) == s[..j] && (forall k :: j <= k < |s| ==> IsSpace(s[k]))
    ensures j > 0 ==> !IsSpace(s[j - 1])
  {
    if s != "" && IsSpace(s[|s| - 1]) {
      j := TrimEndCuts(s[..|s| - 1]);
    } else {
      j := |s|;
    }
  }

  /** Trimming takes the white space off both ends and nothing else. */
  lemma TrimCuts(s: string) returns (i: nat, j: nat)
    ensures IsTrimmed(s, i, j) && Trim(s) == s[i..j]
  {
    hide IsSpace;
    i := TrimStartCuts(s);
    var n := TrimEndCuts(s[i..]);
    j := i + n;
    assert forall k :: i <= k < |s| ==> s[k] == s[i..][k - i];
  }
}
