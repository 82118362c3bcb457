/** `history_plus_stream` against `push`, over every interleaving of their atomic steps. A push first
    broadcasts, then records under the lock; a subscriber first copies the history, then subscribes, and
    reads the copy followed by whatever is broadcast from then on. */
module Subscription {
  import opened MsgStore

  datatype Push = Push(id: nat, msg: Msg)

  /** How far the subscriber is. `seen` is how many pushes were recorded when the copy was taken and
      `from` how many were broadcast when it subscribed. */
  datatype Phase =
    | Before
    | Copied(copy: seq<Push>, seen: nat)
    | Live(copy: seq<Push>, seen: nat, from: nat)

  datatype State = State(sent: seq<Push>, recorded: seq<Push>, phase: Phase)

  datatype Action = Send(p: Push) | Record(p: Push) | Copy(start: nat) | Subscribe

  function Messages(ps: seq<Push>): seq<Msg> {
    seq(|ps|, i requires 0 <= i < |ps| => ps[i].msg)
  }

  ghost predicate Enabled(s: State, a: Action) {
    match a
    case Send(p) => forall i :: 0 <= i < |s.sent| ==> s.sent[i].id != p.id
    case Record(p) => p in s.sent && p !in s.recorded
    case Copy(start) => s.phase.Before? && StartsAt(Messages(s.recorded), start)
    case Subscribe => s.phase.Copied?
  }

  /** With one pusher, a push begins only when the previous one is complete. */
  ghost predicate OnePusher(s: State, a: Action) {
    a.Send? ==> s.sent == s.recorded
  }

  ghost function Apply(s: State, a: Action): State
    requires Enabled(s, a)
  {
    match a
    case Send(p) => s.(sent := s.sent + [p])
    case Record(p) => s.(recorded := s.recorded + [p])
    case Copy(start) => s.(phase := Copied(s.recorded[start..], |s.recorded|))
    case Subscribe => s.(phase := Live(s.phase.copy, s.phase.seen, |s.sent|))
  }

  const INIT := State([], [], Before)

  /** `s` is reached from the initial state by the actions, the last one first. */
  ghost predicate Reached(acts: seq<Action>, s: State, one: bool) {
    if acts == [] then s == INIT
    else exists r: State :: Reached(acts[1..], r, one) && Enabled(r, acts[0]) && (one ==> OnePusher(r, acts[0]))
                            && s == Apply(r, acts[0])
  }

  ghost predicate Distinct(ps: seq<Push>) {
    forall i, j :: 0 <= i < j < |ps| ==> ps[i].id != ps[j].id
  }

  ghost predicate Inv(s: State) {
    && Distinct(s.sent) && Distinct(s.recorded)
    && (forall i :: 0 <= i < |s.recorded| ==> s.recorded[i] in s.sent)
    && (!s.phase.Before? ==>
          |s.phase.copy| <= s.phase.seen <= |s.recorded|
          && s.phase.copy == s.recorded[s.phase.seen - |s.phase.copy|..s.phase.seen]
          && StartsAt(Messages(s.recorded[..s.phase.seen]), s.phase.seen - |s.phase.copy|))
    && (s.phase.Live? ==>
          s.phase.from <= |s.sent|
          && forall i :: 0 <= i < s.phase.seen ==> s.recorded[i] in s.sent[..s.phase.from])
  }

  /** With one pusher, pushes are recorded in the order they were broadcast, the last one perhaps not yet. */
  ghost predicate InOrder(s: State) {
    s.recorded <= s.sent && |s.sent| <= |s.recorded| + 1
  }

  lemma {:induction false} InvHolds(acts: seq<Action>, s: State, one: bool)
    requires Reached(acts, s, one)
    ensures Inv(s)
    ensures one ==> InOrder(s)
  {
    if acts != [] {
      var r: State :| Reached(acts[1..], r, one) && Enabled(r, acts[0]) && (one ==> OnePusher(r, acts[0]))
                      && s == Apply(r, acts[0]);
      InvHolds(acts[1..], r, one);
      StepKeepsInv(r, acts[0]);
      if one { StepKeepsOrder(r, acts[0]); }
    }
  }

  lemma StepKeepsOrder(r: State, a: Action)
    requires Enabled(r, a) && OnePusher(r, a) && InOrder(r)
    ensures InOrder(Apply(r, a))
  {
    if a.Record? {
      var i :| 0 <= i < |r.sent| && r.sent[i] == a.p;
      assert i >= |r.recorded|;
    }
  }

  lemma StepKeepsInv(r: State, a: Action)
    requires Inv(r) && Enabled(r, a)
    ensures Inv(Apply(r, a))
  {
    assert a.Copy? ==> a.start <= |Messages(r.recorded)|;
    hide StartsAt;
    match a
    case Send(p) =>
      assert r.phase.Live? ==> (r.sent + [p])[..r.phase.from] == r.sent[..r.phase.from];
    case Record(p) =>
      assert !r.phase.Before? ==> (r.recorded + [p])[..r.phase.seen] == r.recorded[..r.phase.seen];
      forall i | 0 <= i < |r.recorded|
        ensures r.recorded[i].id != p.id
      {
        SameIdSamePush(r.sent, r.recorded[i], p);
      }
    case Copy(start) =>
      assert |Messages(r.recorded)| == |r.recorded| && r.recorded[..|r.recorded|] == r.recorded;
    case Subscribe =>
      assert r.sent[..|r.sent|] == r.sent;
  }

  lemma SameIdSamePush(ps: seq<Push>, p: Push, q: Push)
    requires Distinct(ps) && p in ps && q in ps
    ensures p.id == q.id ==> p == q
  {
  }

  /** What the subscriber reads when the channel hands it the broadcasts at positions `kept` (all of them
      unless it lags). */
  ghost function Delivered(s: State, kept: seq<nat>): seq<Push>
    requires s.phase.Live? && s.phase.from <= |s.sent|
    requires forall i :: 0 <= i < |kept| ==> s.phase.from <= kept[i] < |s.sent|
  {
    s.phase.copy + seq(|kept|, i requires 0 <= i < |kept| => s.sent[kept[i]])
  }

  /** However pushes and the subscription interleave, and however the subscriber lags, no push is
      delivered twice. */
  lemma NothingTwice(acts: seq<Action>, s: State, kept: seq<nat>)
    requires Reached(acts, s, false) && s.phase.Live? && s.phase.from <= |s.sent|
    requires forall i :: 0 <= i < |kept| ==> s.phase.from <= kept[i] < |s.sent|
    requires forall i, j :: 0 <= i < j < |kept| ==> kept[i] < kept[j]
    ensures Distinct(Delivered(s, kept))
  {
    hide StartsAt, Reached;
    InvHolds(acts, s, false);
    var d, c := Delivered(s, kept), |s.phase.copy|;
    forall i, j | 0 <= i < j < |d|
      ensures d[i].id != d[j].id
    {
      if i < c <= j {
        var x := s.phase.seen - c + i;
        assert d[i] == s.recorded[x];
        var y :| 0 <= y < s.phase.from && s.sent[..s.phase.from][y] == s.recorded[x];
        assert s.sent[y].id != s.sent[kept[j - c]].id;
      }
    }
  }

  /** The history still held the push recorded at `j` when the copy was taken: everything from it on fitted the
      byte budget, or it was the last one. */
  ghost predicate Retained(s: State, j: nat)
    requires !s.phase.Before? && s.phase.seen <= |s.recorded| && j < s.phase.seen
  {
    SizeFrom(Messages(s.recorded[..s.phase.seen]), j) <= HISTORY_BYTES || j == s.phase.seen - 1
  }

  lemma {:induction false} SizeShrinks(all: seq<Msg>, j: nat, k: nat)
    requires j <= k
    ensures SizeFrom(all, k) <= SizeFrom(all, j)
    decreases k - j
  {
    if j < k {
      SizeShrinks(all, j + 1, k);
    }
  }

  /** The copy holds exactly the pushes that were recorded by then and fitted the budget. */
  lemma CopiedExactly(s: State, j: nat)
    requires Inv(s) && !s.phase.Before? && j < s.phase.seen
    ensures Retained(s, j) <==> s.phase.seen - |s.phase.copy| <= j
  {
    var all, start := Messages(s.recorded[..s.phase.seen]), s.phase.seen - |s.phase.copy|;
    assert StartsAt(all, start) && |all| == s.phase.seen;
    hide SizeFrom, Distinct;
    if start <= j {
      SizeShrinks(all, start, j);
    }
  }

  /** A subscriber that does not lag receives the push broadcast at position `i` exactly when it was broadcast after
      the subscription, or recorded before the copy was taken and still within the byte budget then. */
  lemma DeliveredExactly(acts: seq<Action>, s: State, i: nat)
    requires Reached(acts, s, false) && s.phase.Live? && i < |s.sent|
    ensures s.phase.from <= |s.sent| && s.phase.seen <= |s.recorded|
    ensures s.sent[i] in s.phase.copy + s.sent[s.phase.from..]
       <==> s.phase.from <= i || exists j :: 0 <= j < s.phase.seen && s.recorded[j] == s.sent[i] && Retained(s, j)
  {
    hide Reached, Inv, Retained;
    InvHolds(acts, s, false);
    LiveBounds(s);
    SentLive(s, i);
    var p := s.sent[i];
    if p in s.phase.copy {
      var j := CopiedFrom(s, p);
    }
    forall j | 0 <= j < s.phase.seen && s.recorded[j] == p && Retained(s, j)
      ensures p in s.phase.copy
    {
      CopiedAt(s, j);
    }
  }

  lemma LiveBounds(s: State)
    requires Inv(s) && s.phase.Live?
    ensures s.phase.from <= |s.sent| && s.phase.seen <= |s.recorded|
  {
  }

  lemma CopiedFrom(s: State, p: Push) returns (j: nat)
    requires Inv(s) && !s.phase.Before? && p in s.phase.copy
    ensures j < s.phase.seen <= |s.recorded| && s.recorded[j] == p && Retained(s, j)
  {
    var c :| 0 <= c < |s.phase.copy| && s.phase.copy[c] == p;
    j := s.phase.seen - |s.phase.copy| + c;
    CopiedExactly(s, j);
  }

  lemma CopiedAt(s: State, j: nat)
    requires Inv(s) && !s.phase.Before? && j < s.phase.seen && Retained(s, j)
    ensures s.recorded[j] in s.phase.copy
  {
    CopiedExactly(s, j);
    assert s.phase.copy[j - (s.phase.seen - |s.phase.copy|)] == s.recorded[j];
  }

  /** No push is broadcast twice. */
  lemma SentLive(s: State, i: nat)
    requires Inv(s) && s.phase.Live? && i < |s.sent|
    ensures s.sent[i] in s.sent[s.phase.from..] <==> s.phase.from <= i
  {
    if s.phase.from <= i {
      assert s.sent[s.phase.from..][i - s.phase.from] == s.sent[i];
    }
  }

  /** With a single pusher, everything ever broadcast is, in order: what was evicted, the copy, one block
      that was missed, and what was delivered live. */
  lemma OneGapAtMost(acts: seq<Action>, s: State)
    requires Reached(acts, s, true) && s.phase.Live?
    ensures |s.phase.copy| <= s.phase.seen <= s.phase.from <= |s.sent|
    ensures s.sent == s.sent[..s.phase.seen - |s.phase.copy|] + s.phase.copy
                      + s.sent[s.phase.seen..s.phase.from] + s.sent[s.phase.from..]
  {
    hide Reached, Inv;
    InvHolds(acts, s, true);
    CopyIsSlice(s);
    CutInFour(s.sent, s.phase.seen - |s.phase.copy|, s.phase.seen, s.phase.from);
  }

  lemma SlicePrefix(a: seq<Push>, b: seq<Push>, i: nat, j: nat)
    requires a <= b && i <= j <= |a|
    ensures a[i..j] == b[i..j]
  {
  }

  lemma CopyIsSlice(s: State)
    requires Inv(s) && InOrder(s) && s.phase.Live?
    ensures |s.phase.copy| <= s.phase.seen <= s.phase.from <= |s.sent|
    ensures s.phase.copy == s.sent[s.phase.seen - |s.phase.copy|..s.phase.seen]
  {
    hide StartsAt, Distinct;
    SeenBeforeFrom(s);
    SlicePrefix(s.recorded, s.sent, s.phase.seen - |s.phase.copy|, s.phase.seen);
  }

  lemma CutInFour(xs: seq<Push>, i: nat, j: nat, k: nat)
    requires i <= j <= k <= |xs|
    ensures xs == xs[..i] + xs[i..j] + xs[j..k] + xs[k..]
  {
  }

  lemma SeenBeforeFrom(s: State)
    requires Inv(s) && s.phase.Live? && s.recorded <= s.sent
    ensures s.phase.seen <= s.phase.from
  {
    if s.phase.seen > 0 {
      var i := s.phase.seen - 1;
      var y :| 0 <= y < s.phase.from && s.sent[..s.phase.from][y] == s.recorded[i];
      assert s.sent[y] == s.sent[i];
    }
  }

  /** The gap is real: a push that broadcasts before the subscription and records after the copy is never
      delivered. */
  lemma PushCanBeMissed(p: Push)
    ensures var s := State([p], [p], Live([], 0, 1));
            && Reached([Record(p), Subscribe, Copy(0), Send(p)], s, true)
            && p !in s.phase.copy + s.sent[s.phase.from..]
  {
    var acts := [Record(p), Subscribe, Copy(0), Send(p)];
    var s1, s2 := State([p], [], Before), State([p], [], Copied([], 0));
    var s3, s4 := State([p], [], Live([], 0, 1)), State([p], [p], Live([], 0, 1));
    assert acts[1..][1..][1..][1..] == [];
    assert Reached(acts[1..][1..][1..][1..], INIT, true);
    assert s1 == Apply(INIT, Send(p));
    assert Reached(acts[1..][1..][1..], s1, true);
    assert s2 == Apply(s1, Copy(0));
    assert Reached(acts[1..][1..], s2, true);
    assert s3 == Apply(s2, Subscribe);
    assert Reached(acts[1..], s3, true);
    assert s4 == Apply(s3, Record(p));
    assert Reached(acts, s4, true);
  }
}
