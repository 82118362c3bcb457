/** Indexed conversations and the patches that build them.

    A conversation is an array that add, replace and remove patches edit as sections 4.1, 4.2 and 4.3 of
    RFC 6902 say. A normalizer gets fresh positions from a counter it may share with other tasks, so what
    one normalizer may do is stated over a board: a partial array in which it adds every position it was
    given once and replaces only positions it has added. A normalizer that has the counter to itself sees
    the board and the array coincide. */
module Conversation {
  import opened Text

  datatype Patch<+E> = Add(index: nat, entry: E) | Replace(index: nat, entry: E) | Remove(index: nat)

  // ---------- The array ----------

  predicate Fits<E>(c: seq<E>, p: Patch<E>) {
    match p
    case Add(i, _) => i <= |c|
    case Replace(i, _) => i < |c|
    case Remove(i) => i < |c|
  }

  function Apply<E>(c: seq<E>, p: Patch<E>): seq<E>
    requires Fits(c, p)
  {
    match p
    case Add(i, e) => c[..i] + [e] + c[i..]
    case Replace(i, e) => c[i := e]
    case Remove(i) => c[..i] + c[i + 1..]
  }

  ghost predicate FitsAll<E>(c: seq<E>, ps: seq<Patch<E>>)
    decreases |ps|
  {
    ps == [] || (Fits(c, ps[0]) && FitsAll(Apply(c, ps[0]), ps[1..]))
  }

  function ApplyAll<E>(c: seq<E>, ps: seq<Patch<E>>): seq<E>
    requires FitsAll(c, ps)
    decreases |ps|
  {
    if ps == [] then c else ApplyAll(Apply(c, ps[0]), ps[1..])
  }

  /** Add moves what stands at its position and behind one place up, replace changes one entry, and remove moves what
      stands behind its position one place down; everything else stays where it is. */
  lemma ApplyAt<E>(c: seq<E>, p: Patch<E>, j: nat)
    requires Fits(c, p)
    ensures p.Add? ==>
              && |Apply(c, p)| == |c| + 1 && Apply(c, p)[p.index] == p.entry
              && (j < p.index ==> Apply(c, p)[j] == c[j]) && (p.index <= j < |c| ==> Apply(c, p)[j + 1] == c[j])
    ensures p.Replace? ==>
              && |Apply(c, p)| == |c| && Apply(c, p)[p.index] == p.entry
              && (j < |c| && j != p.index ==> Apply(c, p)[j] == c[j])
    ensures p.Remove? ==>
              && |Apply(c, p)| == |c| - 1
              && (j < p.index ==> Apply(c, p)[j] == c[j]) && (p.index < j < |c| ==> Apply(c, p)[j - 1] == c[j])
  {
  }

  // ---------- The board ----------

  type Board<E> = map<nat, E>

  /** One disciplined patch: add a position that is free, or replace one that is taken. */
  predicate Allowed<E>(b: Board<E>, p: Patch<E>) {
    (p.Add? && p.index !in b) || (p.Replace? && p.index in b)
  }

  /** All patches are allowed, one after another. */
  ghost predicate Disciplined<E>(b: Board<E>, ps: seq<Patch<E>>)
    decreases |ps|
  {
    ps == [] || (Allowed(b, ps[0]) && Disciplined(b[ps[0].index := ps[0].entry], ps[1..]))
  }

  ghost function Play<E>(b: Board<E>, ps: seq<Patch<E>>): Board<E>
    requires Disciplined(b, ps)
    decreases |ps|
  {
    if ps == [] then b else Play(b[ps[0].index := ps[0].entry], ps[1..])
  }

  /** The positions added, in order. */
  ghost function Added<E>(ps: seq<Patch<E>>): seq<nat> {
    if ps == [] then [] else (if ps[0].Add? then [ps[0].index] else []) + Added(ps[1..])
  }

  lemma {:induction false} AddedAppend<E>(ps: seq<Patch<E>>, qs: seq<Patch<E>>)
    ensures Added(ps + qs) == Added(ps) + Added(qs)
    decreases |ps|
  {
    if ps == [] {
      assert ps + qs == qs;
    } else {
      AddedAppend(ps[1..], qs);
      assert (ps + qs)[1..] == ps[1..] + qs && (ps + qs)[0] == ps[0];
    }
  }

  lemma {:induction false} PlayMore<E>(b: Board<E>, ps: seq<Patch<E>>, qs: seq<Patch<E>>)
    requires Disciplined(b, ps) && Disciplined(Play(b, ps), qs)
    ensures Disciplined(b, ps + qs) && Play(b, ps + qs) == Play(Play(b, ps), qs)
    decreases |ps|
  {
    if ps == [] {
      assert ps + qs == qs;
    } else {
      PlayMore(b[ps[0].index := ps[0].entry], ps[1..], qs);
      assert (ps + qs)[1..] == ps[1..] + qs && (ps + qs)[0] == ps[0];
    }
  }

  lemma PlayAppend<E>(b: Board<E>, ps: seq<Patch<E>>, qs: seq<Patch<E>>)
    requires Disciplined(b, ps) && Disciplined(Play(b, ps), qs)
    ensures Disciplined(b, ps + qs) && Play(b, ps + qs) == Play(Play(b, ps), qs)
    ensures Added(ps + qs) == Added(ps) + Added(qs)
  {
    PlayMore(b, ps, qs);
    AddedAppend(ps, qs);
  }

  lemma AddedOne<E>(p: Patch<E>)
    ensures Added([p]) == if p.Add? then [p.index] else []
  {
    var rest := [p][1..];
    assert rest == [];
  }

  lemma PlayOne<E>(b: Board<E>, p: Patch<E>)
    requires Allowed(b, p)
    ensures Disciplined(b, [p]) && Play(b, [p]) == b[p.index := p.entry]
    ensures Added([p]) == if p.Add? then [p.index] else []
  {
    var rest := [p][1..];
    assert rest == [];
  }

  /** The board after a step that makes at most one patch. */
  ghost function BoardAfter<E>(b: Board<E>, ps: seq<Patch<E>>): Board<E> {
    if |ps| == 1 && !ps[0].Remove? then b[ps[0].index := ps[0].entry] else b
  }

  lemma PlayAtMostOne<E>(b: Board<E>, ps: seq<Patch<E>>)
    requires Disciplined(b, ps) && |ps| <= 1
    ensures Play(b, ps) == BoardAfter(b, ps)
  {
    if |ps| == 1 {
      assert ps == [ps[0]];
      PlayOne(b, ps[0]);
    }
  }

  lemma {:induction false} PlayGrows<E>(b: Board<E>, ps: seq<Patch<E>>)
    requires Disciplined(b, ps)
    ensures b.Keys <= Play(b, ps).Keys
    decreases |ps|
  {
    if ps != [] {
      PlayGrows(b[ps[0].index := ps[0].entry], ps[1..]);
    }
  }

  // ---------- Patches of one entry ----------

  /** All patches go to one position; it is added by these patches exactly if there was none before. */
  ghost predicate OnePosition<E>(before: Option<nat>, after: Option<nat>, ps: seq<Patch<E>>) {
    && (before.Some? ==> after == before)
    && (after.None? ==> ps == [])
    && (after.Some? ==> forall j :: 0 <= j < |ps| ==> ps[j].index == after.value)
    && Added(ps) == if before.None? && after.Some? then [after.value] else []
  }

  lemma OneMorePatch<E>(before: Option<nat>, mid: Option<nat>, after: Option<nat>, p: seq<Patch<E>>, ps: seq<Patch<E>>)
    requires OnePosition(before, mid, p) && OnePosition(mid, after, ps)
    ensures OnePosition(before, after, p + ps)
  {
    AddedAppend(p, ps);
    hide Added;
  }

  // ---------- Positions from a shared counter ----------

  /** The position a task receives from its k-th request. With a counter of its own, `Own`. */
  type Supply = nat -> nat

  function Own(k: nat): nat { k }

  ghost predicate NeverRepeats(supply: Supply) {
    forall j: nat, k: nat :: supply(j) == supply(k) ==> j == k
  }

  /** A counter only grows, whoever draws from it. */
  ghost predicate Increasing(supply: Supply) {
    forall j: nat, k: nat :: j < k ==> supply(j) < supply(k)
  }

  lemma IncreasingNeverRepeats(supply: Supply)
    requires Increasing(supply)
    ensures NeverRepeats(supply)
  {
  }

  /** The board holds exactly the positions handed out so far. */
  ghost predicate Holds<E>(b: Board<E>, supply: Supply, used: nat) {
    forall i: nat :: i in b <==> IsHanded(supply, used, i)
  }

  ghost predicate IsHanded(supply: Supply, used: nat, i: nat) {
    exists k: nat :: k < used && supply(k) == i
  }

  ghost function Handed(supply: Supply, from: nat, to: nat): seq<nat>
    requires from <= to
  {
    seq(to - from, i requires 0 <= i => supply(from + i))
  }

  /** The next position handed out is free, and adding it keeps the board in step with the supply. */
  lemma HoldsNext<E>(b: Board<E>, supply: Supply, used: nat, e: E)
    requires NeverRepeats(supply) && Holds(b, supply, used)
    ensures supply(used) !in b && Holds(b[supply(used) := e], supply, used + 1)
  {
    var b', n := b[supply(used) := e], used + 1;
    forall i: nat
      ensures i in b' <==> IsHanded(supply, n, i)
    {
      if i in b {
        var k: nat :| k < used && supply(k) == i;
        assert k < n && supply(k) == i;
      } else if i == supply(used) {
        assert used < n;
      }
    }
  }

  /** So does any disciplined patch that adds at the next position only. */
  lemma HoldsPatch<E>(b: Board<E>, supply: Supply, used: nat, p: Patch<E>)
    requires NeverRepeats(supply) && Holds(b, supply, used) && Allowed(b, p)
    requires p.Add? ==> p.index == supply(used)
    ensures Holds(b[p.index := p.entry], supply, if p.Add? then used + 1 else used)
  {
    HoldsNext(b, supply, used, p.entry);
    assert p.Replace? ==> b[p.index := p.entry].Keys == b.Keys;
  }

  lemma HandedAppend(supply: Supply, a: nat, b: nat, c: nat)
    requires a <= b <= c
    ensures Handed(supply, a, c) == Handed(supply, a, b) + Handed(supply, b, c)
  {
  }

  /** `EntryIndexProvider` as one task uses it. */
  class IndexProvider {
    const supply: Supply
    var used: nat

    constructor (supply: Supply)
      ensures this.supply == supply && used == 0
    {
      this.supply, used := supply, 0;
    }

    method Next() returns (i: nat)
      modifies this
      ensures i == supply(old(used)) && used == old(used) + 1
    {
      i := supply(used);
      used := used + 1;
    }

    method Current() returns (i: nat)
      ensures i == supply(used)
    {
      i := supply(used);
    }

    method Reset()
      modifies this
      ensures used == 0
    {
      used := 0;
    }
  }

  // ---------- One task, a counter of its own ----------

  ghost predicate Mirrors<E>(b: Board<E>, c: seq<E>) {
    && (forall i: nat :: i in b <==> i < |c|)
    && forall i: nat :: i < |c| ==> i in b && b[i] == c[i]
  }

  /** A disciplined run that takes consecutive positions edits the array in step with the board: every
      add appends at the current length and every replace is in range. */
  lemma {:induction false} MirrorsPlay<E>(b: Board<E>, c: seq<E>, ps: seq<Patch<E>>)
    requires Mirrors(b, c) && Disciplined(b, ps)
    requires forall k :: 0 <= k < |Added(ps)| ==> Added(ps)[k] == |c| + k
    ensures FitsAll(c, ps) && Mirrors(Play(b, ps), ApplyAll(c, ps))
    ensures |ApplyAll(c, ps)| == |c| + |Added(ps)|
    decreases |ps|
  {
    if ps != [] {
      var p, rest := ps[0], Added(ps[1..]);
      assert Added(ps) == (if p.Add? then [p.index] else []) + rest;
      assert p.Add? ==> p.index == Added(ps)[0] == |c|;
      assert forall k :: 0 <= k < |rest| ==> rest[k] == Added(ps)[if p.Add? then k + 1 else k];
      assert Mirrors(b[p.index := p.entry], Apply(c, p));
      MirrorsPlay(b[p.index := p.entry], Apply(c, p), ps[1..]);
    }
  }

  ghost predicate Consecutive(at: seq<nat>, from: nat) {
    forall k :: 0 <= k < |at| ==> at[k] == from + k
  }

  /** Patches that build a board build the array if and only if the adds arrive in the order of their
      positions: an array has no room for a position whose predecessors are missing. */
  lemma {:induction false} FitsIffInOrder<E>(b: Board<E>, c: seq<E>, ps: seq<Patch<E>>)
    requires Mirrors(b, c) && Disciplined(b, ps)
    ensures FitsAll(c, ps) <==> Consecutive(Added(ps), |c|)
    decreases |ps|
  {
    if ps != [] {
      var p := ps[0];
      AddedFirst(ps, |c|);
      if Fits(c, p) && (p.Add? ==> p.index == |c|) {
        var b', c' := b[p.index := p.entry], Apply(c, p);
        assert Mirrors(b', c');
        FitsIffInOrder(b', c', ps[1..]);
      }
    }
    hide Mirrors, Consecutive, Apply;
  }

  lemma AddedFirst<E>(ps: seq<Patch<E>>, n: nat)
    requires ps != [] && !ps[0].Remove?
    ensures Consecutive(Added(ps), n)
            <==> if ps[0].Add? then ps[0].index == n && Consecutive(Added(ps[1..]), n + 1)
                 else Consecutive(Added(ps[1..]), n)
  {
    var rest := Added(ps[1..]);
    if ps[0].Add? {
      assert Added(ps) == [ps[0].index] + rest;
      assert forall k :: 0 <= k < |rest| ==> rest[k] == Added(ps)[k + 1];
      assert Consecutive(Added(ps), n) ==> Added(ps)[0] == n;
    } else {
      assert Added(ps) == rest;
    }
  }

  // ---------- Every position once ----------

  ghost predicate Distinct(at: seq<nat>) {
    forall j, k :: 0 <= j < k < |at| ==> at[j] != at[k]
  }

  /** A disciplined run adds every position it fills exactly once. */
  lemma {:induction false} AddedOnce<E>(b: Board<E>, ps: seq<Patch<E>>)
    requires Disciplined(b, ps)
    ensures Distinct(Added(ps))
    ensures forall i: nat :: i in Play(b, ps) <==> i in b || i in Added(ps)
    ensures forall i: nat :: i in Added(ps) ==> i !in b
    decreases |ps|
  {
    if ps != [] {
      var b', rest := b[ps[0].index := ps[0].entry], Added(ps[1..]);
      AddedOnce(b', ps[1..]);
      if ps[0].Add? {
        assert Added(ps) == [ps[0].index] + rest;
        DistinctFirst(ps[0].index, rest);
      } else {
        assert Added(ps) == [] + rest == rest;
      }
      hide Distinct;
    }
  }

  lemma DistinctFirst(i: nat, rest: seq<nat>)
    requires i !in rest && Distinct(rest)
    ensures Distinct([i] + rest)
  {
    var all := [i] + rest;
    forall j, k | 0 <= j < k < |all|
      ensures all[j] != all[k]
    {
      assert all[k] == rest[k - 1] && (j > 0 ==> all[j] == rest[j - 1]);
    }
  }

  /** The last patch of a disciplined run. */
  lemma {:induction false} PlayLast<E>(b: Board<E>, ps: seq<Patch<E>>, p: Patch<E>)
    requires Disciplined(b, ps + [p])
    ensures Disciplined(b, ps) && Allowed(Play(b, ps), p)
    ensures Play(b, ps + [p]) == Play(b, ps)[p.index := p.entry]
    decreases |ps|
  {
    if ps == [] {
      var all := ps + [p];
      assert all == [p] && all[1..] == [];
    } else {
      assert (ps + [p])[1..] == ps[1..] + [p] && (ps + [p])[0] == ps[0];
      PlayLast(b[ps[0].index := ps[0].entry], ps[1..], p);
    }
  }
}
