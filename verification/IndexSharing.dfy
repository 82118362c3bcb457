/** Several normalizer tasks, one index provider.

    Tasks draw positions from one atomic counter and push their patches to one store, in any interleaving;
    drawing a position and pushing its patch are two steps. What each task keeps on its own (the position of
    its k-th draw is added once, replaces name positions it has added) then holds of all of them together, and
    no task disturbs the entries of another. */
module IndexSharing {
  import opened Conversation
  import Claude
  import ClaudeLogs
  import ClaudeProperties
  import Opencode
  import OpencodeProperties
  import PlainText
  import PlainTextProperties
  import Cursor

  // ---------- The counter ----------

  /** How often a task has drawn. The schedule says who made every draw, in the counter's order. */
  function Count(draws: seq<nat>, task: nat): nat {
    if draws == [] then 0 else Count(draws[..|draws| - 1], task) + if draws[|draws| - 1] == task then 1 else 0
  }

  /** When a task drew for the k-th time. */
  function Nth(draws: seq<nat>, task: nat, k: nat): (n: nat)
    requires k < Count(draws, task)
    ensures n < |draws| && draws[n] == task
  {
    var init := draws[..|draws| - 1];
    if k < Count(init, task) then Nth(init, task, k) else |draws| - 1
  }

  /** The positions one task receives; after the schedule ends, as if it went on alone. */
  function SupplyOf(start: nat, draws: seq<nat>, task: nat): Supply {
    (k: nat) => if k < Count(draws, task) then start + Nth(draws, task, k) else start + |draws| + k - Count(draws, task)
  }

  lemma {:induction false} NthIncreases(draws: seq<nat>, task: nat, j: nat, k: nat)
    requires j < k < Count(draws, task)
    ensures Nth(draws, task, j) < Nth(draws, task, k)
  {
    var init := draws[..|draws| - 1];
    if k < Count(init, task) {
      NthIncreases(init, task, j, k);
    }
  }

  /** Every draw is some draw of its task. */
  lemma {:induction false} NthCovers(draws: seq<nat>, n: nat) returns (k: nat)
    requires n < |draws|
    ensures k < Count(draws, draws[n]) && Nth(draws, draws[n], k) == n
  {
    var init := draws[..|draws| - 1];
    if n == |init| {
      k := Count(init, draws[n]);
    } else {
      k := NthCovers(init, n);
    }
  }

  /** Whatever the interleaving, each task sees its positions grow. */
  lemma SupplyIncreases(start: nat, draws: seq<nat>, task: nat)
    ensures Increasing(SupplyOf(start, draws, task)) && NeverRepeats(SupplyOf(start, draws, task))
  {
    var supply := SupplyOf(start, draws, task);
    forall j: nat, k: nat | j < k
      ensures supply(j) < supply(k)
    {
      if k < Count(draws, task) {
        NthIncreases(draws, task, j, k);
      }
    }
    IncreasingNeverRepeats(supply);
  }

  // ---------- The store ----------

  datatype Emission<+E> = Emission(task: nat, patch: Patch<E>)

  function Of<E>(m: seq<Emission<E>>, task: nat): seq<Patch<E>> {
    if m == [] then []
    else Of(m[..|m| - 1], task) + if m[|m| - 1].task == task then [m[|m| - 1].patch] else []
  }

  function All<E>(m: seq<Emission<E>>): seq<Patch<E>> {
    if m == [] then [] else All(m[..|m| - 1]) + [m[|m| - 1].patch]
  }

  predicate InRange(start: nat, draws: seq<nat>, i: nat) {
    start <= i < start + |draws|
  }

  function Owner(start: nat, draws: seq<nat>, i: nat): nat
    requires InRange(start, draws, i)
  {
    draws[i - start]
  }

  /** What one task may emit: each position it drew is added once, and replaces name positions it added. */
  ghost predicate Owned<E>(ps: seq<Patch<E>>, supply: Supply, used: nat) {
    Disciplined(map[], ps) && Added(ps) == Handed(supply, 0, used)
  }

  /** Every task has pushed what its draws are for. */
  ghost predicate Complete<E>(m: seq<Emission<E>>, start: nat, draws: seq<nat>) {
    forall t: nat :: Owned(Of(m, t), SupplyOf(start, draws, t), Count(draws, t))
  }

  /** One task has so far kept to the rules and to its own positions. */
  ghost predicate Keeps<E>(ps: seq<Patch<E>>, start: nat, draws: seq<nat>, t: nat) {
    && Disciplined(map[], ps)
    && forall i: nat :: i in Play(map[], ps) ==> InRange(start, draws, i) && Owner(start, draws, i) == t
  }

  /** The shared board is the union of what each of them sees. */
  ghost predicate Union<E>(m: seq<Emission<E>>, start: nat, draws: seq<nat>) {
    && Disciplined(map[], All(m))
    && (forall t: nat :: Disciplined(map[], Of(m, t)))
    && (forall i: nat :: i in Play(map[], All(m)) ==> InRange(start, draws, i))
    && forall i: nat :: InRange(start, draws, i) ==>
         SameAt(Play(map[], All(m)), Play(map[], Of(m, Owner(start, draws, i))), i)
  }

  ghost predicate SameAt<E>(a: Board<E>, b: Board<E>, i: nat) {
    (i in a <==> i in b) && (i in a ==> a[i] == b[i])
  }

  lemma OwnedKeeps<E>(ps: seq<Patch<E>>, start: nat, draws: seq<nat>, t: nat)
    requires Owned(ps, SupplyOf(start, draws, t), Count(draws, t))
    ensures Keeps(ps, start, draws, t)
  {
    AddedOnce(map[], ps);
    forall i: nat | i in Play(map[], ps)
      ensures InRange(start, draws, i) && Owner(start, draws, i) == t
    {
      var k :| 0 <= k < |Added(ps)| && Added(ps)[k] == i;
      assert i == start + Nth(draws, t, k);
    }
  }

  lemma KeepsPrefix<E>(ps: seq<Patch<E>>, p: Patch<E>, start: nat, draws: seq<nat>, t: nat)
    requires Keeps(ps + [p], start, draws, t)
    ensures Keeps(ps, start, draws, t) && Allowed(Play(map[], ps), p) && InRange(start, draws, p.index)
    ensures Owner(start, draws, p.index) == t && Play(map[], ps + [p]) == Play(map[], ps)[p.index := p.entry]
  {
    PlayLast(map[], ps, p);
    assert p.index in Play(map[], ps + [p]);
    hide Play, Disciplined;
  }

  lemma OfMore<E>(m: seq<Emission<E>>, e: Emission<E>, t: nat)
    ensures Of(m + [e], t) == if t == e.task then Of(m, t) + [e.patch] else Of(m, t)
    ensures All(m + [e]) == All(m) + [e.patch]
  {
    assert (m + [e])[..|m|] == m;
    assert Of(m, t) + [] == Of(m, t);
  }

  ghost predicate AllKeep<E>(m: seq<Emission<E>>, start: nat, draws: seq<nat>) {
    forall t: nat :: Keeps(Of(m, t), start, draws, t)
  }

  /** What holds of everybody held before the last patch. */
  lemma KeptBefore<E>(m: seq<Emission<E>>, start: nat, draws: seq<nat>)
    requires m != [] && AllKeep(m, start, draws)
    ensures AllKeep(m[..|m| - 1], start, draws)
  {
    var init, e := m[..|m| - 1], m[|m| - 1];
    assert m == init + [e];
    forall t: nat
      ensures Keeps(Of(init, t), start, draws, t)
    {
      assert Keeps(Of(m, t), start, draws, t);
      OfMore(init, e, t);
      if t == e.task { KeepsPrefix(Of(init, t), e.patch, start, draws, t); }
      hide Keeps;
    }
  }

  /** Tasks that keep to themselves build one board together, in any interleaving. */
  lemma {:induction false} KeepsCombine<E>(m: seq<Emission<E>>, start: nat, draws: seq<nat>)
    requires AllKeep(m, start, draws)
    ensures Union(m, start, draws)
    decreases |m|
  {
    if m == [] {
      hide Keeps;
      assert forall t: nat :: Of(m, t) == [];
    } else {
      var init, e := m[..|m| - 1], m[|m| - 1];
      assert m == init + [e];
      KeptBefore(m, start, draws);
      KeepsCombine(init, start, draws);
      assert Keeps(Of(m, e.task), start, draws, e.task);
      OfMore(init, e, e.task);
      KeepsPrefix(Of(init, e.task), e.patch, start, draws, e.task);
      hide Keeps, Union;
      UnionGrows(init, e, start, draws);
    }
  }

  /** What one task sees after another patch. */
  lemma TaskGrows<E>(m: seq<Emission<E>>, e: Emission<E>, t: nat)
    requires Disciplined(map[], Of(m, t)) && (t == e.task ==> Allowed(Play(map[], Of(m, t)), e.patch))
    ensures Disciplined(map[], Of(m + [e], t))
    ensures Play(map[], Of(m + [e], t))
            == if t == e.task then Play(map[], Of(m, t))[e.patch.index := e.patch.entry] else Play(map[], Of(m, t))
  {
    OfMore(m, e, t);
    if t == e.task { OneMore(Of(m, t), e.patch); }
    hide Of, Play, Disciplined;
  }

  lemma UnionGrows<E>(m: seq<Emission<E>>, e: Emission<E>, start: nat, draws: seq<nat>)
    requires Union(m, start, draws) && InRange(start, draws, e.patch.index)
             && Owner(start, draws, e.patch.index) == e.task
    requires Allowed(Play(map[], Of(m, e.task)), e.patch)
    ensures Union(m + [e], start, draws)
  {
    hide Play, Disciplined, Of, All, SameAt;
    var p, b := e.patch, Play(map[], All(m));
    assert SameAt(b, Play(map[], Of(m, e.task)), p.index);
    AllowedThere(b, Play(map[], Of(m, e.task)), p);
    OneMore(All(m), p);
    OfMore(m, e, 0);
    forall t: nat
      ensures Disciplined(map[], Of(m + [e], t))
    {
      TaskGrows(m, e, t);
    }
    forall i: nat | InRange(start, draws, i)
      ensures SameAt(Play(map[], All(m + [e])), Play(map[], Of(m + [e], Owner(start, draws, i))), i)
    {
      var t := Owner(start, draws, i);
      assert SameAt(b, Play(map[], Of(m, t)), i);
      TaskGrows(m, e, t);
      SameGrows(b, Play(map[], Of(m, t)), p, i);
    }
  }

  lemma AllowedThere<E>(a: Board<E>, b: Board<E>, p: Patch<E>)
    requires SameAt(a, b, p.index) && Allowed(b, p)
    ensures Allowed(a, p)
  {
  }

  lemma SameGrows<E>(a: Board<E>, b: Board<E>, p: Patch<E>, i: nat)
    requires SameAt(a, b, i) && !p.Remove?
    ensures SameAt(a[p.index := p.entry], b[p.index := p.entry], i)
    ensures i != p.index ==> SameAt(a[p.index := p.entry], b, i)
  {
  }

  lemma OneMore<E>(ps: seq<Patch<E>>, p: Patch<E>)
    requires Disciplined(map[], ps) && Allowed(Play(map[], ps), p)
    ensures Disciplined(map[], ps + [p]) && Play(map[], ps + [p]) == Play(map[], ps)[p.index := p.entry]
  {
    var rest := [p][1..];
    assert rest == [];
    PlayMore(map[], ps, [p]);
  }

  /** For every interleaving of any number of tasks, once all patches for the positions drawn are pushed:
      every position the counter handed out was added exactly once, every replace named a position added
      before by the same task, and the conversation shows at each position what its task put there. */
  lemma Shared<E>(m: seq<Emission<E>>, start: nat, draws: seq<nat>)
    requires Complete(m, start, draws)
    ensures Union(m, start, draws)
    ensures Distinct(Added(All(m))) && forall i: nat :: i in Added(All(m)) <==> InRange(start, draws, i)
  {
    CompleteKeeps(m, start, draws);
    KeepsCombine(m, start, draws);
    AddedOnce(map[], All(m));
    forall i: nat | InRange(start, draws, i)
      ensures i in Play(map[], All(m))
    {
      AllDrawnAdded(m, start, draws, i);
    }
  }

  lemma AllDrawnAdded<E>(m: seq<Emission<E>>, start: nat, draws: seq<nat>, i: nat)
    requires Complete(m, start, draws) && Union(m, start, draws) && InRange(start, draws, i)
    ensures i in Play(map[], All(m))
  {
    var t := Owner(start, draws, i);
    var k := NthCovers(draws, i - start);
    assert Owned(Of(m, t), SupplyOf(start, draws, t), Count(draws, t));
    AddedOnce(map[], Of(m, t));
    assert Added(Of(m, t))[k] == i;
    assert SameAt(Play(map[], All(m)), Play(map[], Of(m, t)), i);
  }

  lemma CompleteKeeps<E>(m: seq<Emission<E>>, start: nat, draws: seq<nat>)
    requires Complete(m, start, draws)
    ensures AllKeep(m, start, draws)
  {
    forall t: nat
      ensures Keeps(Of(m, t), start, draws, t)
    {
      assert Owned(Of(m, t), SupplyOf(start, draws, t), Count(draws, t));
      OwnedKeeps(Of(m, t), start, draws, t);
    }
    hide Owned;
  }

  lemma {:induction false} KeptUpTo<E>(m: seq<Emission<E>>, start: nat, draws: seq<nat>, n: nat)
    requires n <= |m| && AllKeep(m, start, draws)
    ensures AllKeep(m[..n], start, draws)
    decreases |m|
  {
    hide AllKeep;
    if n == |m| {
      assert m[..n] == m;
    } else {
      KeptBefore(m, start, draws);
      KeptUpTo(m[..|m| - 1], start, draws, n);
      assert m[..|m| - 1][..n] == m[..n];
    }
  }

  /** At every earlier moment as well: what has been pushed keeps the rules, every position belongs to who drew it,
      and the conversation shows there what its owner has put there by then. */
  lemma SharedAtEveryMoment<E>(m: seq<Emission<E>>, start: nat, draws: seq<nat>, n: nat)
    requires Complete(m, start, draws) && n <= |m|
    ensures Union(m[..n], start, draws)
  {
    hide Complete, AllKeep, Union;
    CompleteKeeps(m, start, draws);
    KeptUpTo(m, start, draws, n);
    KeepsCombine(m[..n], start, draws);
  }

  /** Drawing and pushing are two steps: when a task pushes its position before another pushes a smaller one,
      the patches no longer apply to an array. `FitsIffInOrder` gives the exact condition. */
  lemma LatePushDoesNotFit<E>(x: E, y: E)
    ensures var m := [Emission(1, Add(1, y)), Emission(0, Add(0, x))];
            Complete(m, 0, [0, 1]) && Disciplined(map[], All(m)) && !FitsAll([], All(m))
  {
    var m := [Emission(1, Add(1, y)), Emission(0, Add(0, x))];
    var e0, e1 := m[0], m[1];
    assert m == [] + [e0] + [e1];
    OfMore([], e0, 0);
    OfMore([e0], e1, 0);
    assert [] + [e0] == [e0];
    assert All(m) == [Add(1, y), Add(0, x)];
    forall t: nat
      ensures Owned(Of(m, t), SupplyOf(0, [0, 1], t), Count([0, 1], t))
    {
      OfMore([], e0, t);
      OfMore([e0], e1, t);
      TwoDraws(t);
      if t < 2 {
        var p := if t == 0 then e1.patch else e0.patch;
        assert Of(m, t) == [p];
        var rest := [p][1..];
        assert rest == [] && Added([p]) == [p.index];
        assert Handed(SupplyOf(0, [0, 1], t), 0, 1) == [t];
      } else {
        assert Of(m, t) == [];
      }
    }
    Shared(m, 0, [0, 1]);
  }

  lemma TwoDraws(t: nat)
    ensures Count([0, 1], t) == if t < 2 then 1 else 0
    ensures t < 2 ==> Nth([0, 1], t, 0) == t
  {
    var d: seq<nat> := [0, 1];
    assert d[..1] == [0] && d[..1][..0] == [];
    assert Count(d[..1], t) == if t == 0 then 1 else 0;
  }

  // ---------- The normalizers ----------

  /** The same patches with entries of another type: all normalizers of one conversation share a type of entries. */
  function Tagged<E, F>(ps: seq<Patch<E>>, f: E -> F): seq<Patch<F>> {
    seq(|ps|, i requires 0 <= i < |ps| => TagOne(ps[i], f))
  }

  function TagOne<E, F>(p: Patch<E>, f: E -> F): Patch<F> {
    match p
    case Add(i, e) => Add(i, f(e))
    case Replace(i, e) => Replace(i, f(e))
    case Remove(i) => Remove(i)
  }

  lemma {:induction false} TaggedSame<E, F>(b: Board<E>, c: Board<F>, ps: seq<Patch<E>>, f: E -> F)
    requires b.Keys == c.Keys && Disciplined(b, ps)
    ensures Disciplined(c, Tagged(ps, f)) && Added(Tagged(ps, f)) == Added(ps)
    decreases |ps|
  {
    if ps != [] {
      var p, q := ps[0], TagOne(ps[0], f);
      assert Tagged(ps, f)[0] == q && Tagged(ps, f)[1..] == Tagged(ps[1..], f);
      TaggedSame(b[p.index := p.entry], c[q.index := q.entry], ps[1..], f);
    }
  }

  lemma OwnedTagged<E, F>(ps: seq<Patch<E>>, f: E -> F, supply: Supply, used: nat)
    requires Owned(ps, supply, used)
    ensures Owned(Tagged(ps, f), supply, used)
  {
    TaggedSame(map[], map[], ps, f);
  }

  /** Each of the normalizers keeps to what it draws, on every input: so `Shared` applies to any mix of them. */
  lemma ClaudeOwned(supply: Supply, parse: ClaudeLogs.Parser, output: string)
    requires NeverRepeats(supply)
    ensures var st := ClaudeLogs.Interpret(Claude.Default, supply, parse, output);
            Owned(st.patches, supply, st.state.used)
  {
    hide ClaudeProperties.Inv, ClaudeLogs.Interpret, NeverRepeats;
    ClaudeLogs.OutputIsGood(supply, parse, output);
  }

  lemma PlainTextOwned(supply: Supply, cfg: PlainText.Config, cs: seq<PlainText.Chunk>)
    requires NeverRepeats(supply) && PlainText.Sound(cfg.boundary)
    ensures var p := PlainText.Run(supply, cfg, cs); Owned(p.patches, supply, p.state.used)
  {
    PlainTextProperties.RunGood(supply, cfg, cs);
    hide PlainText.Run;
  }

  lemma CursorOwned(supply: Supply, evs: seq<Cursor.Event>)
    requires NeverRepeats(supply)
    ensures var st := Cursor.Run(supply, evs); Owned(st.patches, supply, st.state.used)
  {
    Cursor.RunGood(supply, evs);
    hide Cursor.Run, Cursor.Inv;
  }

  lemma OpencodeOwned(supply: Supply, evs: seq<Opencode.Event>)
    requires NeverRepeats(supply)
    ensures var st := Opencode.Run(Opencode.INIT, supply, evs); Owned(st.patches, supply, st.state.used)
  {
    OpencodeProperties.RunTidy(evs, supply);
    hide Opencode.Run;
  }

  // ---------- Any mix of them ----------

  /** One normalizer with its input, and the entries of a conversation they all write to. */
  datatype Task =
    | ClaudeTask(parse: ClaudeLogs.Parser, output: string)
    | OpencodeTask(shareEvents: seq<Opencode.Event>)
    | CursorTask(cursorEvents: seq<Cursor.Event>)
    | PlainTask(cfg: PlainText.Config, chunks: seq<PlainText.Chunk>)

  datatype AnyEntry =
    | FromClaude(claude: Claude.Entry)
    | FromOpencode(opencode: Opencode.Entry)
    | FromCursor(cursor: Cursor.Entry)
    | FromPlain(text: string)

  ghost predicate Terminates(task: Task) {
    task.PlainTask? ==> PlainText.Sound(task.cfg.boundary)
  }

  /** What a normalizer emits when it draws these positions, and how many it draws. */
  ghost function Output(task: Task, supply: Supply): (seq<Patch<AnyEntry>>, nat)
    requires Terminates(task)
  {
    match task
    case ClaudeTask(parse, output) =>
      var st := ClaudeLogs.Interpret(Claude.Default, supply, parse, output);
      (Tagged(st.patches, e => FromClaude(e)), st.state.used)
    case OpencodeTask(evs) =>
      var st := Opencode.Run(Opencode.INIT, supply, evs);
      (Tagged(st.patches, e => FromOpencode(e)), st.state.used)
    case CursorTask(evs) =>
      var st := Cursor.Run(supply, evs);
      (Tagged(st.patches, e => FromCursor(e)), st.state.used)
    case PlainTask(cfg, cs) =>
      var p := PlainText.Run(supply, cfg, cs);
      (Tagged(p.patches, e => FromPlain(e)), p.state.used)
  }

  lemma OutputOwned(task: Task, supply: Supply)
    requires Terminates(task) && NeverRepeats(supply)
    ensures Owned(Output(task, supply).0, supply, Output(task, supply).1)
  {
    hide Owned, Tagged, ClaudeLogs.Interpret, Opencode.Run, Cursor.Run, PlainText.Run;
    match task
    case ClaudeTask(parse, output) =>
      ClaudeOwned(supply, parse, output);
      var st := ClaudeLogs.Interpret(Claude.Default, supply, parse, output);
      OwnedTagged(st.patches, e => FromClaude(e), supply, st.state.used);
    case OpencodeTask(evs) =>
      OpencodeOwned(supply, evs);
      OwnedTagged(Opencode.Run(Opencode.INIT, supply, evs).patches, e => FromOpencode(e), supply,
                  Output(task, supply).1);
    case CursorTask(evs) =>
      CursorOwned(supply, evs);
      OwnedTagged(Cursor.Run(supply, evs).patches, e => FromCursor(e), supply, Output(task, supply).1);
    case PlainTask(cfg, cs) =>
      PlainTextOwned(supply, cfg, cs);
      OwnedTagged(PlainText.Run(supply, cfg, cs).patches, e => FromPlain(e), supply, Output(task, supply).1);
  }

  /** An execution of the tasks: the counter served them in the order of the schedule, each as often as it asked,
      and everything each emitted was pushed, in its own order. */
  ghost predicate Executes(tasks: seq<Task>, m: seq<Emission<AnyEntry>>, start: nat, draws: seq<nat>)
    requires forall t :: 0 <= t < |tasks| ==> Terminates(tasks[t])
  {
    forall t: nat ::
      if t < |tasks| then (Of(m, t), Count(draws, t)) == Output(tasks[t], SupplyOf(start, draws, t))
      else Of(m, t) == [] && Count(draws, t) == 0
  }

  /** For every mix of Claude, Opencode, Cursor and plain text normalizers, on every input and in every interleaving:
      each position handed out is added exactly once, replaces name positions the same normalizer added, and at
      every moment the conversation shows at each position what its normalizer has put there. */
  lemma AnyMixShares(tasks: seq<Task>, m: seq<Emission<AnyEntry>>, start: nat, draws: seq<nat>, n: nat)
    requires forall t :: 0 <= t < |tasks| ==> Terminates(tasks[t])
    requires Executes(tasks, m, start, draws) && n <= |m|
    ensures Union(m, start, draws) && Union(m[..n], start, draws)
    ensures Distinct(Added(All(m))) && forall i: nat :: i in Added(All(m)) <==> InRange(start, draws, i)
  {
    hide Owned, Output, Union;
    forall t: nat
      ensures Owned(Of(m, t), SupplyOf(start, draws, t), Count(draws, t))
    {
      SupplyIncreases(start, draws, t);
      if t < |tasks| {
        OutputOwned(tasks[t], SupplyOf(start, draws, t));
      } else {
        NothingOwned<AnyEntry>(SupplyOf(start, draws, t));
      }
    }
    Shared(m, start, draws);
    SharedAtEveryMoment(m, start, draws, n);
  }

  lemma NothingOwned<E>(supply: Supply)
    ensures Owned<E>([], supply, 0)
  {
  }
}
