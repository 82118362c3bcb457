/** The debouncing stage: text of one kind is gathered in a window that is flushed by a timer tick, by a
    message of another kind or by the end of the stream, and is cut in the middle when it is too long.
    The stage never holds more than COLLECT_LIMIT bytes of a window; the results below say that nobody
    can tell. */
module Debounce {
  import opened Text
  import opened LogMessages

  const WINDOW_LIMIT: nat := 100 * 1024
  const COLLECT_LIMIT: nat := WINDOW_LIMIT * 2
  const TRUNC_MARKER := " [truncated] "

  datatype Event = Message(msg: LogMsg) | Failure(error: string) | Tick
  datatype Output = Ok(msg: LogMsg) | Err(error: string)

  function MiddleTruncate(bytes: string, limit: nat, marker: string): string {
    if |bytes| <= limit then bytes
    else if limit <= |marker| then marker[..limit]
    else
      var keepPrefix := (limit - |marker|) / 2;
      var keepSuffix := limit - |marker| - keepPrefix;
      bytes[..keepPrefix] + marker + bytes[|bytes| - keepSuffix..]
  }

  function Typed(isStdout: bool, text: string): LogMsg {
    if isStdout then Stdout(text) else Stderr(text)
  }

  predicate IsText(m: LogMsg) {
    m.Stdout? || m.Stderr?
  }

  /** What a bounded buffer may remember of a window: all of it, or its two ends. */
  ghost function Ends(w: string): string {
    if |w| <= COLLECT_LIMIT then w else w[..WINDOW_LIMIT] + w[|w| - WINDOW_LIMIT..]
  }

  // ---------- The buffer of one window ----------

  /** `buf` and `truncated_in_window`, with the whole window as ghost state. */
  class WindowBuffer {
    var buf: string
    var truncated: bool
    ghost var window: string

    ghost predicate Valid()
      reads this
    {
      buf == Ends(window) && truncated == (|window| > COLLECT_LIMIT)
    }

    constructor ()
      ensures Valid() && window == ""
    {
      buf, truncated, window := "", false, "";
    }

    method ShrinkMiddle(target: nat)
      modifies this`buf
      ensures |old(buf)| <= target ==> buf == old(buf)
      ensures |old(buf)| > target ==> |buf| == target
      ensures |old(buf)| > target && target % 2 == 0 ==>
                buf == old(buf)[..target / 2] + old(buf)[|old(buf)| - target / 2..]
    {
      if |buf| <= target { return; }
      var extra := |buf| - target;
      var mid := |buf| / 2;
      var start := if mid < extra / 2 then 0 else mid - extra / 2;
      var end := start + extra;
      buf := buf[..start] + buf[end..];
    }

    method Extend(s: string)
      requires Valid()
      modifies this
      ensures Valid() && window == old(window) + s
      ensures |buf| <= COLLECT_LIMIT
    {
      buf := buf + s;
      window := window + s;
      if |buf| > COLLECT_LIMIT {
        truncated := true;
        ShrinkMiddle(COLLECT_LIMIT);
      }
    }

    /** Flushing answers as if the whole window had been kept. */
    method Flush(kind: Option<bool>) returns (out: Option<LogMsg>)
      requires Valid()
      modifies this
      ensures Valid() && window == ""
      ensures out == if old(window) == "" || kind.None? then None
                     else Some(Typed(kind.value, MiddleTruncate(old(window), WINDOW_LIMIT, TRUNC_MARKER)))
    {
      if buf == "" && !truncated { return None; }
      var needsMarker := truncated || |buf| > WINDOW_LIMIT;
      var text := if needsMarker then MiddleTruncate(buf, WINDOW_LIMIT, TRUNC_MARKER) else buf;
      EndsSuffice(window);
      Clear();
      match kind
      case Some(isStdout) => return Some(Typed(isStdout, text));
      case None => return None;
    }

    method Clear()
      modifies this
      ensures Valid() && window == ""
    {
      buf, truncated, window := "", false, "";
    }
  }

  /** A text within the limit is left alone; a longer one is cut to exactly the limit, and what remains is its
      two ends, of equal length up to one byte, around the marker. */
  lemma TruncationIsBalanced(bytes: string, limit: nat, marker: string)
    ensures |bytes| <= limit ==> MiddleTruncate(bytes, limit, marker) == bytes
    ensures |bytes| > limit ==> |MiddleTruncate(bytes, limit, marker)| == limit
    ensures |bytes| > limit > |marker| ==>
              exists p: nat :: IsCut(bytes, limit, marker, p, MiddleTruncate(bytes, limit, marker))
  {
    if |bytes| > limit > |marker| {
      assert IsCut(bytes, limit, marker, (limit - |marker|) / 2, MiddleTruncate(bytes, limit, marker));
    }
  }

  /** `r` keeps the first `p` bytes and the last as many, or one more, to fill the limit. */
  predicate IsCut(bytes: string, limit: nat, marker: string, p: nat, r: string) {
    && p + |marker| <= limit <= |bytes|
    && var q := limit - |marker| - p;
    && p <= q <= p + 1 && p + q <= |bytes|
    && r == bytes[..p] + marker + bytes[|bytes| - q..]
  }

  /** The two ends of a window determine its truncation, and a short window is all there. */
  lemma EndsSuffice(w: string)
    ensures MiddleTruncate(Ends(w), WINDOW_LIMIT, TRUNC_MARKER) == MiddleTruncate(w, WINDOW_LIMIT, TRUNC_MARKER)
    ensures Ends(w) == "" <==> w == ""
    ensures |Ends(w)| <= WINDOW_LIMIT ==> Ends(w) == w
  {
    if |w| > COLLECT_LIMIT {
      var p := (WINDOW_LIMIT - |TRUNC_MARKER|) / 2;
      var q := WINDOW_LIMIT - |TRUNC_MARKER| - p;
      assert Ends(w)[..p] == w[..p];
      assert Ends(w)[|Ends(w)| - q..] == w[|w| - q..];
    }
  }

  // ---------- The stage with unlimited memory ----------

  /** The window in progress: its kind and everything it received. */
  datatype Pending = Pending(kind: Option<bool>, window: string)

  function Close(p: Pending): seq<Output> {
    if p.window == "" || p.kind.None? then [] else [Ok(Typed(p.kind.value, p.window))]
  }

  function Advance(p: Pending, ev: Event): (Pending, seq<Output>) {
    match ev
    case Failure(e) => (p, [Err(e)])
    case Tick => (p.(window := ""), Close(p))
    case Message(m) =>
      if !IsText(m) then (Pending(None, ""), Close(p) + [Ok(m)])
      else if p.kind == Some(m.Stdout?) then (p.(window := p.window + m.text), [])
      else (Pending(Some(m.Stdout?), m.text), Close(p))
  }

  function Unlimited(p: Pending, events: seq<Event>): seq<Output>
    decreases |events|
  {
    if events == [] then Close(p)
    else Advance(p, events[0]).1 + Unlimited(Advance(p, events[0]).0, events[1..])
  }

  function CapMsg(m: LogMsg): LogMsg {
    if IsText(m) then Typed(m.Stdout?, MiddleTruncate(m.text, WINDOW_LIMIT, TRUNC_MARKER)) else m
  }

  function Cap(outs: seq<Output>): seq<Output> {
    seq(|outs|, i requires 0 <= i < |outs| => if outs[i].Ok? then Ok(CapMsg(outs[i].msg)) else outs[i])
  }

  lemma CapAppend(a: seq<Output>, b: seq<Output>)
    ensures Cap(a + b) == Cap(a) + Cap(b)
  {
  }

  // ---------- The stage itself ----------

  /** One turn of the select loop. */
  method Handle(w: WindowBuffer, kind: Option<bool>, ev: Event) returns (kind': Option<bool>, out: seq<Output>)
    requires w.Valid() && (kind == None ==> w.window == "")
    modifies w
    ensures w.Valid()
    ensures var p := Pending(kind, old(w.window));
            Pending(kind', w.window) == Advance(p, ev).0 && out == Cap(Advance(p, ev).1)
  {
    kind' := kind;
    match ev {
      case Failure(e) => out := [Err(e)];
      case Tick =>
        out := FlushOutput(w, kind);
        w.Clear();
      case Message(m) =>
        if IsText(m) {
          out := [];
          if kind != Some(m.Stdout?) {
            out := FlushOutput(w, kind);
            kind' := Some(m.Stdout?);
            w.Clear();
          }
          w.Extend(m.text);
        } else {
          out := FlushOutput(w, kind);
          kind' := None;
          CapAppend(Close(Pending(kind, old(w.window))), [Ok(m)]);
          out := out + [Ok(m)];
        }
    }
  }

  method FlushOutput(w: WindowBuffer, kind: Option<bool>) returns (out: seq<Output>)
    requires w.Valid()
    modifies w
    ensures w.Valid() && w.window == ""
    ensures out == Cap(Close(Pending(kind, old(w.window))))
  {
    var flushed := w.Flush(kind);
    out := if flushed.Some? then [Ok(flushed.value)] else [];
  }

  /** For every interleaving of messages, errors and ticks, the stage that keeps at most COLLECT_LIMIT
      bytes outputs exactly what unlimited memory would, each window cut only on the way out; and after the first `i`
      events exactly what the history says has come out. */
  method DebounceLogs(events: seq<Event>) returns (out: seq<Output>, ghost counts: seq<nat>)
    ensures out == Cap(Unlimited(Pending(None, ""), events))
    ensures |counts| == |events| + 1
    ensures forall i :: 0 <= i <= |events| ==> counts[i] <= |out| && out[..counts[i]] == Cap(Emitted(events[..i]))
  {
    hide Cap, Close, Typed, Advance, Emitted, CameOut;
    out := [];
    var w := new WindowBuffer();
    var kind: Option<bool> := None;
    var i := 0;
    counts := [0];
    ghost var goal := Cap(Unlimited(Pending(None, ""), events));
    NothingSoFar(events);
    while i < |events|
      invariant 0 <= i <= |events| && fresh(w) && w.Valid() && (kind == None ==> w.window == "")
      invariant goal == out + Cap(Unlimited(Pending(kind, w.window), events[i..]))
      invariant Pending(kind, w.window) == SoFar(events[..i]).0 && out == Cap(SoFar(events[..i]).1)
      invariant |counts| == i + 1 && CameOut(events, out, counts)
    {
      ghost var p, before := Pending(kind, w.window), out;
      var produced: seq<Output>;
      kind, produced := Handle(w, kind, events[i]);
      out := out + produced;
      UnlimitedStep(p, events, i);
      assert goal == before + (produced + Cap(Unlimited(Pending(kind, w.window), events[i + 1..])));
      SoFarStep(events, i);
      SoFarIsEmitted(events[..i + 1]);
      CameOutMore(events, before, counts, produced);
      CameOutNow(events, out, counts);
      counts := counts + [|out|];
      i := i + 1;
    }
    var last := FlushOutput(w, kind);
    CameOutMore(events, out, counts, last);
    out := out + last;
    CameOutThen(events, out, counts);
  }

  /** The counts say how much of `out` had come out after as many events. */
  ghost predicate CameOut(events: seq<Event>, out: seq<Output>, counts: seq<nat>) {
    && |counts| <= |events| + 1
    && forall j :: 0 <= j < |counts| ==> counts[j] <= |out| && out[..counts[j]] == Cap(Emitted(events[..j]))
  }

  lemma CameOutMore(events: seq<Event>, out: seq<Output>, counts: seq<nat>, more: seq<Output>)
    requires CameOut(events, out, counts)
    ensures CameOut(events, out + more, counts)
  {
    hide Cap, Emitted;
    assert forall j :: 0 <= j < |counts| ==> (out + more)[..counts[j]] == out[..counts[j]];
  }

  lemma CameOutNow(events: seq<Event>, out: seq<Output>, counts: seq<nat>)
    requires CameOut(events, out, counts) && |counts| <= |events| && out == Cap(Emitted(events[..|counts|]))
    ensures CameOut(events, out, counts + [|out|])
  {
    hide Cap, Emitted;
    assert out[..|out|] == out;
  }

  lemma CameOutThen(events: seq<Event>, out: seq<Output>, counts: seq<nat>)
    requires CameOut(events, out, counts)
    ensures forall j :: 0 <= j < |counts| ==> counts[j] <= |out| && out[..counts[j]] == Cap(Emitted(events[..j]))
  {
  }

  // ---------- What has come out so far ----------

  /** The window in progress after the events, and what has come out. */
  function SoFar(events: seq<Event>): (Pending, seq<Output>) {
    if events == [] then (Pending(None, ""), [])
    else
      var before := SoFar(events[..|events| - 1]);
      var step := Advance(before.0, events[|events| - 1]);
      (step.0, before.1 + step.1)
  }

  /** The text of one kind received since the last tick, text of the other kind or other message. Errors do not
      count. */
  function Since(events: seq<Event>, isStdout: bool): string {
    if events == [] then ""
    else
      var init := events[..|events| - 1];
      match events[|events| - 1]
      case Tick => ""
      case Failure(_) => Since(init, isStdout)
      case Message(Stdout(t)) => if isStdout then Since(init, true) + t else ""
      case Message(Stderr(t)) => if isStdout then "" else Since(init, false) + t
      case Message(_) => ""
  }

  function Window(events: seq<Event>, isStdout: bool): seq<Output> {
    var text := Since(events, isStdout);
    if text == "" then [] else [Ok(if isStdout then Stdout(text) else Stderr(text))]
  }

  /** What comes out at an event, given those before it: a tick, or a message other than text, lets the window out;
      text lets out a window of the other kind; an error comes out at once and lets nothing else out. */
  function Due(before: seq<Event>, ev: Event): seq<Output> {
    match ev
    case Tick => Window(before, true) + Window(before, false)
    case Failure(e) => [Err(e)]
    case Message(Stdout(_)) => Window(before, false)
    case Message(Stderr(_)) => Window(before, true)
    case Message(m) => Window(before, true) + Window(before, false) + [Ok(m)]
  }

  /** What has come out after the events, from the events alone. */
  function Emitted(events: seq<Event>): seq<Output> {
    if events == [] then []
    else
      var init := events[..|events| - 1];
      Emitted(init) + Due(init, events[|events| - 1])
  }

  ghost predicate PendingIs(p: Pending, events: seq<Event>) {
    && (p.kind == None ==> p.window == "")
    && Since(events, true) == (if p.kind == Some(true) then p.window else "")
    && Since(events, false) == (if p.kind == Some(false) then p.window else "")
  }

  lemma CloseIsWindow(p: Pending, events: seq<Event>)
    requires PendingIs(p, events)
    ensures Close(p) == Window(events, true) + Window(events, false)
    ensures p.kind != Some(true) ==> Window(events, true) == []
    ensures p.kind != Some(false) ==> Window(events, false) == []
  {
    hide Since;
  }

  lemma PendingNext(p: Pending, events: seq<Event>)
    requires events != [] && PendingIs(p, events[..|events| - 1])
    ensures PendingIs(Advance(p, events[|events| - 1]).0, events)
  {
    hide Close;
    match events[|events| - 1]
    case Message(m) => if IsText(m) { assert "" + m.text == m.text; }
    case _ =>
  }

  lemma AdvanceIsDue(p: Pending, before: seq<Event>, ev: Event)
    requires PendingIs(p, before)
    ensures Advance(p, ev).1 == Due(before, ev)
  {
    hide Close, Window, PendingIs;
    CloseIsWindow(p, before);
    assert [] + Window(before, false) == Window(before, false) && Window(before, true) + [] == Window(before, true);
  }

  lemma EmittedNext(p: Pending, events: seq<Event>)
    requires events != [] && PendingIs(p, events[..|events| - 1])
    ensures Emitted(events) == Emitted(events[..|events| - 1]) + Advance(p, events[|events| - 1]).1
  {
    hide Due, Advance, PendingIs;
    AdvanceIsDue(p, events[..|events| - 1], events[|events| - 1]);
  }

  /** At every moment the stage has let out exactly what the events say, and holds the rest. */
  lemma {:induction false} SoFarIsEmitted(events: seq<Event>)
    ensures PendingIs(SoFar(events).0, events) && SoFar(events).1 == Emitted(events)
  {
    if events != [] {
      hide Advance, PendingIs, Emitted;
      SoFarIsEmitted(events[..|events| - 1]);
      PendingNext(SoFar(events[..|events| - 1]).0, events);
      EmittedNext(SoFar(events[..|events| - 1]).0, events);
    } else {
      hide Advance;
    }
  }

  lemma NothingSoFar(events: seq<Event>)
    ensures SoFar(events[..0]) == (Pending(None, ""), []) && Cap([]) == [] && CameOut(events, [], [0])
  {
    assert events[..0] == [] && Emitted([]) == [];
  }

  lemma SoFarStep(events: seq<Event>, i: nat)
    requires i < |events|
    ensures var before := SoFar(events[..i]); var step := Advance(before.0, events[i]);
            && SoFar(events[..i + 1]) == (step.0, before.1 + step.1)
            && Cap(SoFar(events[..i + 1]).1) == Cap(before.1) + Cap(step.1)
  {
    hide Advance;
    assert events[..i + 1][..i] == events[..i];
    CapAppend(SoFar(events[..i]).1, Advance(SoFar(events[..i]).0, events[i]).1);
  }

  lemma {:induction false} ReceivedAppend(a: seq<Event>, b: seq<Event>)
    ensures Received(a + b) == Received(a) + Received(b)
  {
    if a == [] {
      assert a + b == b;
    } else {
      assert (a + b)[1..] == a[1..] + b && (a + b)[0] == a[0];
      ReceivedAppend(a[1..], b);
    }
  }

  /** At every moment, what has come out followed by the window in progress is what went in, up to how text of one
      kind is cut. */
  lemma {:induction false} SoFarPreserves(events: seq<Event>)
    ensures var (p, out) := SoFar(events);
            && (p.kind == None ==> p.window == "")
            && MergeAll(MergeAll([], Messages(out)), Held(p)) == MergeAll([], Received(events))
  {
    hide SoFar, Advance, MergeAll, Messages, Received, Held;
    UntypedIsEmpty(events);
    if events == [] {
      NothingMerged();
    } else {
      var init, ev := events[..|events| - 1], events[|events| - 1];
      SoFarLast(events);
      SoFarPreserves(init);
      MergedNext(SoFar(init).1, SoFar(init).0, init, ev);
      assert init + [ev] == events;
    }
  }

  lemma NothingMerged()
    ensures MergeAll(MergeAll([], Messages(SoFar([]).1)), Held(SoFar([]).0)) == MergeAll([], Received([]))
  {
  }

  lemma SoFarLast(events: seq<Event>)
    requires events != []
    ensures var before := SoFar(events[..|events| - 1]); var step := Advance(before.0, events[|events| - 1]);
            SoFar(events) == (step.0, before.1 + step.1)
  {
  }

  lemma UntypedIsEmpty(events: seq<Event>)
    ensures SoFar(events).0.kind == None ==> SoFar(events).0.window == ""
  {
    hide SoFar, Since, Emitted;
    SoFarIsEmitted(events);
  }

  lemma MergedNext(out: seq<Output>, p: Pending, events: seq<Event>, ev: Event)
    requires p.kind == None ==> p.window == ""
    requires MergeAll(MergeAll([], Messages(out)), Held(p)) == MergeAll([], Received(events))
    ensures var (q, more) := Advance(p, ev);
            MergeAll(MergeAll([], Messages(out + more)), Held(q)) == MergeAll([], Received(events + [ev]))
  {
    hide Advance, MergeAll, Messages, Received, Held;
    var (q, more) := Advance(p, ev);
    StepPreserves(MergeAll([], Messages(out)), p, ev);
    MessagesAppend(out, more);
    MergeAllAppend([], Messages(out), Messages(more));
    ReceivedAppend(events, [ev]);
    MergeAllAppend([], Received(events), Received([ev]));
  }

  /** After a tick, or a message other than text, everything received has come out. */
  lemma CaughtUp(events: seq<Event>)
    requires events != []
    requires var ev := events[|events| - 1]; ev.Tick? || (ev.Message? && !ev.msg.Stdout? && !ev.msg.Stderr?)
    ensures MergeAll([], Messages(Emitted(events))) == MergeAll([], Received(events))
    ensures Since(events, true) == "" && Since(events, false) == ""
  {
    SoFarIsEmitted(events);
    SoFarPreserves(events);
    var (p, out) := SoFar(events);
    hide Emitted, SoFar;
    var acc := MergeAll([], Messages(out));
    assert p.window == "";
    EmptyMerges(acc, p);
  }

  lemma EmptyMerges(acc: seq<LogMsg>, p: Pending)
    requires p.window == ""
    ensures MergeAll(acc, Held(p)) == acc
  {
    if p.kind.Some? {
      var m := Typed(p.kind.value, "");
      assert MergeAll(acc, [m]) == MergeAll(Merge(acc, m), [m][1..]);
    }
  }

  lemma UnlimitedStep(p: Pending, events: seq<Event>, i: nat)
    requires i < |events|
    ensures var (q, outs) := Advance(p, events[i]);
            Cap(Unlimited(p, events[i..])) == Cap(outs) + Cap(Unlimited(q, events[i + 1..]))
  {
    var (q, outs) := Advance(p, events[i]);
    assert events[i..][1..] == events[i + 1..];
    CapAppend(outs, Unlimited(q, events[i + 1..]));
  }

  // ---------- What the stage preserves ----------

  /** Append a message, dropping empty text and merging text of one kind with text of the same kind. */
  function Merge(acc: seq<LogMsg>, m: LogMsg): seq<LogMsg> {
    if !IsText(m) then acc + [m]
    else if m.text == "" then acc
    else if acc != [] && IsText(acc[|acc| - 1]) && acc[|acc| - 1].Stdout? == m.Stdout? then
      acc[..|acc| - 1] + [Typed(m.Stdout?, acc[|acc| - 1].text + m.text)]
    else acc + [m]
  }

  function MergeAll(acc: seq<LogMsg>, ms: seq<LogMsg>): seq<LogMsg>
    decreases |ms|
  {
    if ms == [] then acc else MergeAll(Merge(acc, ms[0]), ms[1..])
  }

  function Messages(outs: seq<Output>): seq<LogMsg> {
    if outs == [] then [] else (if outs[0].Ok? then [outs[0].msg] else []) + Messages(outs[1..])
  }

  function Errors(outs: seq<Output>): seq<string> {
    if outs == [] then [] else (if outs[0].Err? then [outs[0].error] else []) + Errors(outs[1..])
  }

  function Received(events: seq<Event>): seq<LogMsg> {
    if events == [] then []
    else (if events[0].Message? then [events[0].msg] else []) + Received(events[1..])
  }

  function Failures(events: seq<Event>): seq<string> {
    if events == [] then []
    else (if events[0].Failure? then [events[0].error] else []) + Failures(events[1..])
  }

  lemma {:induction false} MergeAllAppend(acc: seq<LogMsg>, a: seq<LogMsg>, b: seq<LogMsg>)
    ensures MergeAll(acc, a + b) == MergeAll(MergeAll(acc, a), b)
    decreases |a|
  {
    if a == [] {
      assert a + b == b;
    } else {
      assert (a + b)[1..] == a[1..] + b;
      MergeAllAppend(Merge(acc, a[0]), a[1..], b);
    }
  }

  lemma {:induction false} MessagesAppend(a: seq<Output>, b: seq<Output>)
    ensures Messages(a + b) == Messages(a) + Messages(b)
  {
    if a == [] {
      assert a + b == b;
    } else {
      assert (a + b)[1..] == a[1..] + b && (a + b)[0] == a[0];
      MessagesAppend(a[1..], b);
    }
  }

  lemma {:induction false} ErrorsAppend(a: seq<Output>, b: seq<Output>)
    ensures Errors(a + b) == Errors(a) + Errors(b)
  {
    if a == [] {
      assert a + b == b;
    } else {
      assert (a + b)[1..] == a[1..] + b && (a + b)[0] == a[0];
      ErrorsAppend(a[1..], b);
    }
  }

  lemma ProjectionsAppend(a: seq<Output>, b: seq<Output>)
    ensures Messages(a + b) == Messages(a) + Messages(b)
    ensures Errors(a + b) == Errors(a) + Errors(b)
  {
    MessagesAppend(a, b);
    ErrorsAppend(a, b);
  }

  /** Text merged in two pieces is text merged in one. */
  lemma MergeTwice(acc: seq<LogMsg>, isStdout: bool, a: string, b: string)
    ensures Merge(Merge(acc, Typed(isStdout, a)), Typed(isStdout, b)) == Merge(acc, Typed(isStdout, a + b))
  {
    if a == "" {
      assert a + b == b;
    } else if b == "" {
      assert a + b == a;
    } else if acc != [] && IsText(acc[|acc| - 1]) && acc[|acc| - 1].Stdout? == isStdout {
      assert acc[|acc| - 1].text + (a + b) == acc[|acc| - 1].text + a + b;
    }
  }

  ghost function Held(p: Pending): seq<LogMsg> {
    if p.kind.None? then [] else [Typed(p.kind.value, p.window)]
  }

  lemma CloseMerges(acc: seq<LogMsg>, p: Pending)
    requires p.kind == None ==> p.window == ""
    ensures MergeAll(acc, Messages(Close(p))) == MergeAll(acc, Held(p))
    ensures Errors(Close(p)) == []
  {
    if p.kind.Some? {
      var m := Typed(p.kind.value, p.window);
      assert MergeAll(acc, [m]) == MergeAll(Merge(acc, m), [m][1..]);
      assert p.window != "" ==> Messages([Ok(m)]) == [m];
    }
  }

  /** Nothing is lost, duplicated or reordered: from any point of any run, errors come out in order, and
      the messages that come out are the held window followed by the messages still to come, up to how
      text of one kind is cut into pieces. */
  lemma {:induction false} UnlimitedPreserves(acc: seq<LogMsg>, p: Pending, events: seq<Event>)
    requires p.kind == None ==> p.window == ""
    ensures MergeAll(acc, Messages(Unlimited(p, events))) == MergeAll(MergeAll(acc, Held(p)), Received(events))
    ensures Errors(Unlimited(p, events)) == Failures(events)
    decreases |events|
  {
    if events == [] {
      CloseMerges(acc, p);
    } else {
      var (q, outs) := Advance(p, events[0]);
      var rest := Unlimited(q, events[1..]);
      UnlimitedPreserves(MergeAll(acc, Messages(outs)), q, events[1..]);
      ProjectionsAppend(outs, rest);
      MergeAllAppend(acc, Messages(outs), Messages(rest));
      StepPreserves(acc, p, events[0]);
      ReceivedStep(MergeAll(acc, Held(p)), events);
    }
  }

  lemma ReceivedStep(acc: seq<LogMsg>, events: seq<Event>)
    requires events != []
    ensures MergeAll(acc, Received(events)) == MergeAll(MergeAll(acc, Received([events[0]])), Received(events[1..]))
    ensures Failures(events) == Failures([events[0]]) + Failures(events[1..])
  {
    assert Received([events[0]]) == if events[0].Message? then [events[0].msg] else [];
    assert Failures([events[0]]) == if events[0].Failure? then [events[0].error] else [];
    MergeAllAppend(acc, Received([events[0]]), Received(events[1..]));
  }

  lemma StepPreserves(acc: seq<LogMsg>, p: Pending, ev: Event)
    requires p.kind == None ==> p.window == ""
    ensures var (q, outs) := Advance(p, ev);
            && MergeAll(MergeAll(acc, Messages(outs)), Held(q)) == MergeAll(MergeAll(acc, Held(p)), Received([ev]))
            && Errors(outs) == Failures([ev])
  {
    var (q, outs) := Advance(p, ev);
    CloseMerges(acc, p);
    assert Received([ev]) == if ev.Message? then [ev.msg] else [];
    match ev
    case Failure(e) => assert Messages([Err(e)]) == [];
    case Tick =>
      if p.kind.Some? { MergeTwice(MergeAll(acc, Held(p)), p.kind.value, "", ""); }
    case Message(m) =>
      if !IsText(m) {
        ProjectionsAppend(Close(p), [Ok(m)]);
        assert Messages([Ok(m)]) == [m];
        MergeAllAppend(acc, Messages(Close(p)), [m]);
      } else if p.kind == Some(m.Stdout?) {
        MergeTwice(acc, m.Stdout?, p.window, m.text);
      } else {
        assert Held(q) == [m];
      }
  }

  ghost predicate NoneTooLong(outs: seq<Output>) {
    forall i :: 0 <= i < |outs| ==> outs[i].Ok? && IsText(outs[i].msg) ==> |outs[i].msg.text| <= WINDOW_LIMIT
  }

  /** A window that is flushed is never empty: each one yields one message, and silence yields none. */
  lemma {:induction false} WindowsAreNonEmpty(p: Pending, events: seq<Event>, i: nat)
    requires i < |Unlimited(p, events)| && Unlimited(p, events)[i].Ok? && IsText(Unlimited(p, events)[i].msg)
    ensures Unlimited(p, events)[i].msg.text != ""
    decreases |events|
  {
    if events != [] {
      var (q, outs) := Advance(p, events[0]);
      if i >= |outs| {
        WindowsAreNonEmpty(q, events[1..], i - |outs|);
      }
    }
  }

  /** The contract of the stage over every run: errors keep their order, and what comes out is what went
      in, message for message up to merging adjacent text of one kind, exactly when no window exceeds the
      limit. */
  lemma DebouncePreserves(events: seq<Event>)
    ensures var all := Unlimited(Pending(None, ""), events);
            && Errors(Cap(all)) == Failures(events)
            && (MergeAll([], Messages(Cap(all))) == MergeAll([], Received(events)) <==> NoneTooLong(all))
  {
    var all := Unlimited(Pending(None, ""), events);
    UnlimitedPreserves([], Pending(None, ""), events);
    CapProjections(all);
    if NoneTooLong(all) {
      assert Cap(all) == all;
    } else {
      MergeKeepsVolume([], Messages(all));
      MergeKeepsVolume([], Messages(Cap(all)));
    }
  }

  lemma {:induction false} CapProjections(outs: seq<Output>)
    ensures Errors(Cap(outs)) == Errors(outs)
    ensures Volume(Messages(Cap(outs))) <= Volume(Messages(outs))
    ensures !NoneTooLong(outs) ==> Volume(Messages(Cap(outs))) < Volume(Messages(outs))
  {
    if outs != [] {
      CapProjections(outs[1..]);
      assert Cap(outs)[1..] == Cap(outs[1..]);
      assert forall i :: 0 < i < |outs| ==> outs[i] == outs[1..][i - 1];
      if outs[0].Ok? {
        VolumeAppend([outs[0].msg], Messages(outs[1..]));
        VolumeAppend([CapMsg(outs[0].msg)], Messages(Cap(outs[1..])));
      } else {
        assert Messages(outs) == Messages(outs[1..]) && Messages(Cap(outs)) == Messages(Cap(outs[1..]));
      }
    }
  }

  ghost function Volume(ms: seq<LogMsg>): nat {
    if ms == [] then 0 else (if IsText(ms[0]) then |ms[0].text| else 0) + Volume(ms[1..])
  }

  lemma {:induction false} VolumeAppend(a: seq<LogMsg>, b: seq<LogMsg>)
    ensures Volume(a + b) == Volume(a) + Volume(b)
  {
    if a == [] {
      assert a + b == b;
    } else {
      assert (a + b)[1..] == a[1..] + b;
      VolumeAppend(a[1..], b);
    }
  }

  lemma {:induction false} MergeKeepsVolume(acc: seq<LogMsg>, ms: seq<LogMsg>)
    ensures Volume(MergeAll(acc, ms)) == Volume(acc) + Volume(ms)
    decreases |ms|
  {
    if ms != [] {
      var m := ms[0];
      VolumeAppend(acc, [m]);
      if acc != [] {
        var init, last := acc[..|acc| - 1], acc[|acc| - 1];
        assert acc == init + [last];
        VolumeAppend(init, [last]);
        if IsText(last) && IsText(m) {
          VolumeAppend(init, [Typed(m.Stdout?, last.text + m.text)]);
        }
      }
      MergeKeepsVolume(Merge(acc, m), ms[1..]);
    }
  }
}
