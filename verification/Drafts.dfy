/** The drafts table: one row per task attempt and kind of draft. Every operation is one SQL statement, so it
    is atomic; `sending` is the lock of whoever sends the draft, and `version` counts changes. */
module Drafts {
  import opened Text

  datatype Kind = FollowUp | Retry

  datatype Key = Key(attempt: string, kind: Kind)

  datatype Row = Row(
    retryOf: Option<string>,
    prompt: string,
    queued: bool,
    sending: bool,
    variant: Option<string>,
    images: Option<seq<string>>,
    version: nat)

  type Table = map<Key, Row>

  datatype Draft = Draft(retryOf: Option<string>, prompt: string, queued: bool, variant: Option<string>,
                         images: Option<seq<string>>)

  /** The fields of a partial update that are present. */
  datatype Change = Change(retryOf: Option<string>, prompt: Option<string>, variant: Option<Option<string>>,
                           images: Option<seq<string>>)

  datatype Op =
    | Upsert(key: Key, draft: Draft)
    | ClearAfterSend(key: Key)
    | Delete(key: Key)
    | TryMarkSending(key: Key)
    | UpdatePartial(key: Key, change: Change)
    | SetQueued(key: Key, queued: bool, expectedQueued: Option<bool>, expectedVersion: Option<nat>)

  datatype Result<+T> = Ok(value: T) | Err(message: string)

  /** SQLite's TRIM takes spaces only. */
  predicate Blank(prompt: string) {
    forall i :: 0 <= i < |prompt| ==> prompt[i] == ' '
  }

  predicate HasText(prompt: string) {
    exists i :: 0 <= i < |prompt| && prompt[i] != ' '
  }

  function Inserted(d: Draft): Row {
    Row(d.retryOf, d.prompt, d.queued, false, d.variant, d.images, 0)
  }

  function Overwritten(r: Row, d: Draft): Row {
    Row(d.retryOf, d.prompt, d.queued, r.sending, d.variant, d.images, r.version + 1)
  }

  function Cleared(r: Row): Row {
    r.(prompt := "", queued := false, sending := false, images := None, version := r.version + 1)
  }

  predicate MayChange(c: Change) {
    c.retryOf.Some? || c.prompt.Some? || c.variant.Some? || c.images.Some?
  }

  function Changed(r: Row, c: Change): Row {
    Row(if c.retryOf.Some? then c.retryOf else r.retryOf,
        if c.prompt.Some? then c.prompt.value else r.prompt,
        r.queued, r.sending,
        if c.variant.Some? then c.variant.value else r.variant,
        if c.images.Some? then c.images else r.images,
        r.version + 1)
  }

  predicate CanMark(r: Row) {
    r.queued && !r.sending && !Blank(r.prompt)
  }

  predicate Expected(r: Row, expectedQueued: Option<bool>, expectedVersion: Option<nat>) {
    && (expectedQueued.None? || r.queued == expectedQueued.value)
    && (expectedVersion.None? || r.version == expectedVersion.value)
  }

  predicate Invalid(op: Op) {
    op.Upsert? && op.key.kind.Retry? && op.draft.retryOf.None?
  }

  /** Whether the operation has a row to work on, or makes one. */
  predicate Applies(t: Table, op: Op) {
    match op
    case Upsert(_, _) => !Invalid(op)
    case ClearAfterSend(key) => key in t
    case Delete(key) => key in t
    case TryMarkSending(key) => key in t && CanMark(t[key])
    case UpdatePartial(key, change) => key in t && MayChange(change)
    case SetQueued(key, _, eq, ev) => key in t && Expected(t[key], eq, ev)
  }

  predicate Removes(op: Op) {
    op.Delete? || (op.ClearAfterSend? && op.key.kind.Retry?)
  }

  function NewRow(t: Table, op: Op): Row
    requires Applies(t, op) && !Removes(op)
  {
    match op
    case Upsert(key, draft) => if key in t then Overwritten(t[key], draft) else Inserted(draft)
    case ClearAfterSend(key) => Cleared(t[key])
    case TryMarkSending(key) => t[key].(sending := true, version := t[key].version + 1)
    case UpdatePartial(key, change) => Changed(t[key], change)
    case SetQueued(key, queued, _, _) =>
      t[key].(queued := queued && !Blank(t[key].prompt), version := t[key].version + 1)
  }

  function Apply(t: Table, op: Op): Table {
    if !Applies(t, op) then t
    else if Removes(op) then t - {op.key}
    else t[op.key := NewRow(t, op)]
  }

  class DraftStore {
    var rows: Table

    constructor ()
      ensures rows == map[]
    {
      rows := map[];
    }

    method Upsert(key: Key, draft: Draft) returns (r: Result<Row>)
      modifies this
      ensures rows == Apply(old(rows), Op.Upsert(key, draft))
      ensures r.Err? <==> key.kind.Retry? && draft.retryOf.None?
      ensures r.Ok? ==> key in rows && r.value == rows[key]
    {
      if key.kind.Retry? && draft.retryOf.None? {
        return Err("retry_process_id is required for retry drafts");
      }
      var row := if key in rows then Overwritten(rows[key], draft) else Inserted(draft);
      rows := rows[key := row];
      r := Ok(row);
    }

    method ClearAfterSend(key: Key)
      modifies this
      ensures rows == Apply(old(rows), Op.ClearAfterSend(key))
    {
      match key.kind {
        case FollowUp => if key in rows { rows := rows[key := Cleared(rows[key])]; }
        case Retry => Delete(key);
      }
    }

    method Delete(key: Key)
      modifies this
      ensures rows == Apply(old(rows), Op.Delete(key)) == old(rows) - {key}
    {
      assert key !in rows ==> rows - {key} == rows;
      rows := rows - {key};
    }

    method TryMarkSending(key: Key) returns (acquired: bool)
      modifies this
      ensures rows == Apply(old(rows), Op.TryMarkSending(key))
      ensures acquired <==> rows != old(rows)
      ensures acquired ==> key in old(rows) && !old(rows)[key].sending && rows[key].sending
    {
      acquired := key in rows && CanMark(rows[key]);
      if acquired {
        ghost var before := rows[key];
        rows := rows[key := rows[key].(sending := true, version := rows[key].version + 1)];
        assert rows[key] != before;
      }
    }

    method UpdatePartial(key: Key, change: Change)
      modifies this
      ensures rows == Apply(old(rows), Op.UpdatePartial(key, change))
    {
      if !MayChange(change) { return; }
      if key in rows {
        var r := rows[key];
        if change.retryOf.Some? { r := r.(retryOf := change.retryOf); }
        if change.prompt.Some? { r := r.(prompt := change.prompt.value); }
        if change.variant.Some? { r := r.(variant := change.variant.value); }
        if change.images.Some? { r := r.(images := change.images); }
        rows := rows[key := r.(version := r.version + 1)];
      }
    }

    method SetQueued(key: Key, queued: bool, expectedQueued: Option<bool>, expectedVersion: Option<nat>)
      returns (affected: nat)
      modifies this
      ensures rows == Apply(old(rows), Op.SetQueued(key, queued, expectedQueued, expectedVersion))
      ensures affected
              == if Applies(old(rows), Op.SetQueued(key, queued, expectedQueued, expectedVersion)) then 1 else 0
      ensures affected == 1 ==>
                && key in old(rows) && key in rows && (rows[key].queued <==> queued && HasText(old(rows)[key].prompt))
                && rows[key] == old(rows)[key].(queued := rows[key].queued, version := old(rows)[key].version + 1)
      ensures affected == 0 ==> rows == old(rows)
    {
      affected := 0;
      if key in rows && Expected(rows[key], expectedQueued, expectedVersion) {
        var r := rows[key];
        rows := rows[key := r.(queued := queued && !Blank(r.prompt), version := r.version + 1)];
        affected := 1;
      }
    }
  }

  // ---------- Runs ----------

  function Run(t: Table, ops: seq<Op>): Table {
    if ops == [] then t else Apply(Run(t, ops[..|ops| - 1]), ops[|ops| - 1])
  }

  /** The row of a key, with the operations of everybody interleaved. */
  predicate Sending(t: Table, key: Key) {
    key in t && t[key].sending
  }

  predicate Releases(op: Op, key: Key) {
    (op.ClearAfterSend? || op.Delete?) && op.key == key
  }

  predicate Acquires(t: Table, op: Op, key: Key) {
    op == TryMarkSending(key) && Applies(t, op)
  }

  /** The lock is taken by a successful mark only, which finds it free, and given back by a clear or a delete
      only. */
  lemma LockChanges(t: Table, op: Op, key: Key)
    ensures Acquires(t, op, key) ==> !Sending(t, key) && Sending(Apply(t, op), key)
    ensures !Acquires(t, op, key) && Sending(Apply(t, op), key) ==> Sending(t, key)
    ensures Sending(t, key) && !Sending(Apply(t, op), key) ==> Releases(op, key)
  {
  }

  function Acquired(t: Table, ops: seq<Op>, key: Key): nat {
    if ops == [] then 0
    else Acquired(t, ops[..|ops| - 1], key) + if Acquires(Run(t, ops[..|ops| - 1]), ops[|ops| - 1], key) then 1 else 0
  }

  function Released(ops: seq<Op>, key: Key): nat {
    if ops == [] then 0 else Released(ops[..|ops| - 1], key) + if Releases(ops[|ops| - 1], key) then 1 else 0
  }

  function Bit(b: bool): nat {
    if b then 1 else 0
  }

  /** Over every interleaving: each acquisition but the current one has been given back. */
  lemma {:induction false} LockCounts(t: Table, ops: seq<Op>, key: Key)
    ensures Acquired(t, ops, key) + Bit(Sending(t, key)) <= Released(ops, key) + Bit(Sending(Run(t, ops), key))
  {
    if ops != [] {
      var init := ops[..|ops| - 1];
      LockCounts(t, init, key);
      LockChanges(Run(t, init), ops[|ops| - 1], key);
      hide Apply;
    }
  }

  lemma {:induction false} RunAppend(t: Table, a: seq<Op>, b: seq<Op>)
    ensures Run(t, a + b) == Run(Run(t, a), b)
    decreases |b|
  {
    if b == [] {
      assert a + b == a;
    } else {
      RunAppend(t, a, b[..|b| - 1]);
      assert (a + b)[..|a + b| - 1] == a + b[..|b| - 1];
    }
  }

  /** Without a release the lock stays taken. */
  lemma {:induction false} LockStays(t: Table, ops: seq<Op>, key: Key)
    requires Sending(t, key) && forall k :: 0 <= k < |ops| ==> !Releases(ops[k], key)
    ensures Sending(Run(t, ops), key)
  {
    if ops != [] {
      LockStays(t, ops[..|ops| - 1], key);
      LockChanges(Run(t, ops[..|ops| - 1]), ops[|ops| - 1], key);
      hide Apply;
    }
  }

  /** Between two successful marks of one draft there is a clear or a delete of it. */
  lemma ReleaseBetween(t: Table, ops: seq<Op>, key: Key, i: nat, j: nat) returns (k: nat)
    requires i < j < |ops| && Acquires(Run(t, ops[..i]), ops[i], key) && Acquires(Run(t, ops[..j]), ops[j], key)
    ensures i < k < j && Releases(ops[k], key)
  {
    var middle := ops[i + 1..j];
    if n :| 0 <= n < |middle| && Releases(middle[n], key) {
      k := i + 1 + n;
    } else {
      assert ops[..i + 1][..i] == ops[..i];
      LockChanges(Run(t, ops[..i]), ops[i], key);
      LockStays(Run(t, ops[..i + 1]), middle, key);
      assert ops[..j] == ops[..i + 1] + middle;
      RunAppend(t, ops[..i + 1], middle);
      LockChanges(Run(t, ops[..j]), ops[j], key);
      assert false;
    }
  }

  /** A draft that was sent, or is gone: nothing is queued and there is no text. */
  predicate NothingToSend(t: Table, key: Key) {
    key !in t || (t[key].prompt == "" && !t[key].queued)
  }

  /** Operations that write the text of a draft, the same text perhaps. */
  predicate Writes(op: Op, key: Key) {
    op.key == key && (op.Upsert? || (op.UpdatePartial? && op.change.prompt.Some?))
  }

  lemma ReleaseEmpties(t: Table, op: Op, key: Key)
    requires Releases(op, key)
    ensures NothingToSend(Apply(t, op), key)
  {
  }

  /** An empty draft stays empty and unqueued, and cannot be marked, until text is written. */
  lemma {:induction false} EmptyStays(t: Table, ops: seq<Op>, key: Key)
    requires NothingToSend(t, key) && forall k :: 0 <= k < |ops| ==> !Writes(ops[k], key)
    ensures NothingToSend(Run(t, ops), key)
  {
    if ops != [] {
      EmptyStays(t, ops[..|ops| - 1], key);
    }
  }

  /** Between two successful marks of one draft it is cleared or deleted, and after that its text is written again:
      a draft that was sent is not marked again as it is. */
  lemma WriteBetween(t: Table, ops: seq<Op>, key: Key, i: nat, j: nat) returns (k: nat, n: nat)
    requires i < j < |ops| && Acquires(Run(t, ops[..i]), ops[i], key) && Acquires(Run(t, ops[..j]), ops[j], key)
    ensures i < k < n < j && Releases(ops[k], key) && Writes(ops[n], key)
  {
    k := ReleaseBetween(t, ops, key, i, j);
    var rest := ops[k + 1..j];
    if m :| 0 <= m < |rest| && Writes(rest[m], key) {
      n := k + 1 + m;
    } else {
      assert ops[..k + 1][..k] == ops[..k];
      ReleaseEmpties(Run(t, ops[..k]), ops[k], key);
      EmptyStays(Run(t, ops[..k + 1]), rest, key);
      assert ops[..j] == ops[..k + 1] + rest;
      RunAppend(t, ops[..k + 1], rest);
      assert false;
    }
  }

  // ---------- Versions ----------

  predicate Touches(t: Table, op: Op, key: Key) {
    op.key == key && Applies(t, op)
  }

  /** How many operations worked on the row. */
  function Touched(t: Table, ops: seq<Op>, key: Key): nat {
    if ops == [] then 0
    else Touched(t, ops[..|ops| - 1], key) + Bit(Touches(Run(t, ops[..|ops| - 1]), ops[|ops| - 1], key))
  }

  /** The row is not taken away. */
  ghost predicate Lives(ops: seq<Op>, key: Key) {
    forall k :: 0 <= k < |ops| ==> !(ops[k].key == key && Removes(ops[k]))
  }

  lemma OneVersion(t: Table, op: Op, key: Key)
    requires key in t && !(op.key == key && Removes(op))
    ensures key in Apply(t, op) && Apply(t, op)[key].version == t[key].version + Bit(Touches(t, op, key))
    ensures !Touches(t, op, key) ==> Apply(t, op)[key] == t[key]
  {
  }

  /** While a row lives, its version counts the operations that worked on it, no more and no less. */
  lemma {:induction false} VersionCounts(t: Table, ops: seq<Op>, key: Key)
    requires key in t && Lives(ops, key)
    ensures key in Run(t, ops) && Run(t, ops)[key].version == t[key].version + Touched(t, ops, key)
    ensures Touched(t, ops, key) == 0 ==> Run(t, ops)[key] == t[key]
  {
    hide Apply;
    if ops != [] {
      var init := ops[..|ops| - 1];
      VersionCounts(t, init, key);
      OneVersion(Run(t, init), ops[|ops| - 1], key);
    }
  }

  /** A row starts its life at version 0, with the lock free. */
  lemma LifeStarts(t: Table, op: Op, key: Key)
    requires key !in t && key in Apply(t, op)
    ensures Apply(t, op)[key].version == 0 && !Apply(t, op)[key].sending
  {
  }

  /** While the row lives, `set_queued` with the version read earlier succeeds exactly when nothing has worked on
      the row since, and then the row is still the one that was read. */
  lemma VersionGuards(t: Table, ops: seq<Op>, key: Key, queued: bool)
    requires key in t && Lives(ops, key)
    ensures var op := SetQueued(key, queued, None, Some(t[key].version));
            && (Applies(Run(t, ops), op) <==> Touched(t, ops, key) == 0)
            && (Applies(Run(t, ops), op) ==> Run(t, ops)[key] == t[key])
  {
    VersionCounts(t, ops, key);
    hide Run, Touched;
  }

  /** When the row is deleted and made anew in between, the version read earlier can be right again although
      the draft is another one. */
  lemma VersionReturns(key: Key, before: Draft, after: Draft)
    requires key.kind.FollowUp? && before != after
    ensures var t := Apply(map[], Upsert(key, before)); var t' := Run(t, [Delete(key), Upsert(key, after)]);
            && key in t && key in t' && t'[key] != t[key]
            && Applies(t', SetQueued(key, true, None, Some(t[key].version)))
  {
    var t := Apply(map[], Upsert(key, before));
    var d, u := Delete(key), Upsert(key, after);
    assert [d, u][..1] == [d] && [d][..0] == [];
    assert Run(t, [d]) == Apply(t, d);
    assert Run(t, [d, u]) == Apply(Apply(t, d), u);
  }

  /** When the row that is there in the end was made: after how many operations, or 0 if it was there all along. */
  ghost function Birth(t: Table, ops: seq<Op>, key: Key): (n: nat)
    ensures n <= |ops|
  {
    if ops == [] then 0
    else if key !in Run(t, ops[..|ops| - 1]) && key in Run(t, ops) then |ops|
    else Birth(t, ops[..|ops| - 1], key)
  }

  /** The version a row started its present life with. */
  ghost function BirthVersion(t: Table, ops: seq<Op>, key: Key): nat {
    if Birth(t, ops, key) == 0 && key in t then t[key].version else 0
  }

  /** Its version now, counted from there. */
  ghost function CountedVersion(t: Table, ops: seq<Op>, key: Key): nat {
    BirthVersion(t, ops, key) + Touched(Run(t, ops[..Birth(t, ops, key)]), ops[Birth(t, ops, key)..], key)
  }

  lemma {:induction false} VersionSinceBirth(t: Table, ops: seq<Op>, key: Key)
    requires key in Run(t, ops)
    ensures Run(t, ops)[key].version == CountedVersion(t, ops, key)
    decreases |ops|
  {
    if ops == [] {
      assert ops[..0] == [] && ops[0..] == [];
    } else {
      var init, op := ops[..|ops| - 1], ops[|ops| - 1];
      assert Run(t, ops) == Apply(Run(t, init), op);
      if key !in Run(t, init) {
        LifeStarts(Run(t, init), op, key);
        assert ops[|ops|..] == [];
        hide Apply, Run;
      } else {
        assert Birth(t, ops, key) == Birth(t, init, key);
        hide Apply, Run, Touched, Birth;
        VersionSinceBirth(t, init, key);
        CountOneMore(t, init, op, Birth(t, init, key), key);
        StaysAlive(Run(t, init), op, key);
        OneVersion(Run(t, init), op, key);
        assert init + [op] == ops;
      }
    }
  }

  lemma CountOneMore(t: Table, init: seq<Op>, op: Op, n: nat, key: Key)
    requires n <= |init|
    ensures var ops := init + [op];
            Touched(Run(t, ops[..n]), ops[n..], key)
            == Touched(Run(t, init[..n]), init[n..], key) + Bit(Touches(Run(t, init), op, key))
  {
    hide Run, Touched;
    var ops := init + [op];
    assert ops[..n] == init[..n] && ops[n..] == init[n..] + [op] && init[..n] + init[n..] == init;
    RunAppend(t, init[..n], init[n..]);
    TouchedNext(Run(t, init[..n]), init[n..], op, key);
  }

  /** The row was made by the operation before its life began, or was there from the start. */
  lemma {:induction false} BirthIsInsert(t: Table, ops: seq<Op>, key: Key)
    requires key in Run(t, ops)
    ensures var n := Birth(t, ops, key);
            if n == 0 then key in t else key !in Run(t, ops[..n - 1]) && key in Run(t, ops[..n])
    decreases |ops|
  {
    hide Apply;
    if ops != [] {
      var init, n := ops[..|ops| - 1], Birth(t, ops, key);
      assert ops[..|ops|] == ops;
      if key in Run(t, init) {
        BirthIsInsert(t, init, key);
        assert init[..n] == ops[..n] && (n > 0 ==> init[..n - 1] == ops[..n - 1]);
      }
    }
  }

  lemma StaysAlive(t: Table, op: Op, key: Key)
    requires key in t && key in Apply(t, op)
    ensures !(op.key == key && Removes(op))
  {
  }

  lemma TouchedNext(t: Table, ops: seq<Op>, op: Op, key: Key)
    ensures Touched(t, ops + [op], key) == Touched(t, ops, key) + Bit(Touches(Run(t, ops), op, key))
  {
    assert (ops + [op])[..|ops|] == ops;
    hide Run;
  }

  /** Whatever happened, `set_queued` with an expected version succeeds if and only if there is a row and the version
      it started its present life with, plus the operations on it since, make exactly that version. A row that was
      made in between starts at 0, so it is taken for the one read earlier exactly when that many operations worked
      on it. */
  lemma VersionGuardsExactly(t: Table, ops: seq<Op>, key: Key, queued: bool, version: nat)
    ensures Applies(Run(t, ops), SetQueued(key, queued, None, Some(version)))
       <==> key in Run(t, ops) && version == CountedVersion(t, ops, key)
  {
    hide Run, CountedVersion;
    if key in Run(t, ops) {
      VersionSinceBirth(t, ops, key);
    }
  }

  // ---------- The text of a draft ----------

  function TextOf(t: Table, key: Key): Option<string> {
    if key in t then Some(t[key].prompt) else None
  }

  predicate Changes(op: Op, key: Key) {
    Writes(op, key) || Releases(op, key)
  }

  /** What an operation makes of the text of a draft. */
  function TextAfter(now: Option<string>, op: Op, key: Key): Option<string> {
    if op.key != key then now
    else match op
      case Upsert(_, draft) => if key.kind == Retry && draft.retryOf == None then now else Some(draft.prompt)
      case Delete(_) => None
      case ClearAfterSend(_) => if now.Some? && key.kind == FollowUp then Some("") else None
      case UpdatePartial(_, change) => if now.Some? && change.prompt.Some? then change.prompt else now
      case _ => now
  }

  function TextAfterAll(now: Option<string>, ops: seq<Op>, key: Key): Option<string> {
    if ops == [] then now else TextAfter(TextAfterAll(now, ops[..|ops| - 1], key), ops[|ops| - 1], key)
  }

  lemma OneText(t: Table, op: Op, key: Key)
    ensures TextOf(Apply(t, op), key) == TextAfter(TextOf(t, key), op, key)
    ensures !Changes(op, key) ==> TextAfter(TextOf(t, key), op, key) == TextOf(t, key)
  {
  }

  lemma {:induction false} TextFollows(t: Table, ops: seq<Op>, key: Key)
    ensures TextOf(Run(t, ops), key) == TextAfterAll(TextOf(t, key), ops, key)
  {
    hide Apply, TextAfter, TextOf;
    if ops != [] {
      TextFollows(t, ops[..|ops| - 1], key);
      OneText(Run(t, ops[..|ops| - 1]), ops[|ops| - 1], key);
    }
  }

  ghost predicate LastChange(ops: seq<Op>, key: Key, c: nat) {
    c < |ops| && Changes(ops[c], key) && forall d :: c < d < |ops| ==> !Changes(ops[d], key)
  }

  /** The last write or release, if there was one, left the text `x`. */
  ghost predicate LeavesText(ops: seq<Op>, key: Key, x: string) {
    forall c: nat :: LastChange(ops, key, c) ==> TextAfter(TextAfterAll(Some(x), ops[..c], key), ops[c], key) == Some(x)
  }

  lemma {:induction false} LastChangeDecides(ops: seq<Op>, key: Key, x: string)
    ensures TextAfterAll(Some(x), ops, key) == Some(x) <==> LeavesText(ops, key, x)
    decreases |ops|
  {
    if ops != [] {
      var init, op := ops[..|ops| - 1], ops[|ops| - 1];
      LastChangeDecides(init, key, x);
      if Changes(op, key) {
        assert LastChange(ops, key, |ops| - 1);
      } else {
        LeavesInit(ops, key, x);
        assert TextAfter(TextAfterAll(Some(x), init, key), op, key) == TextAfterAll(Some(x), init, key);
      }
    }
  }

  lemma LeavesInit(ops: seq<Op>, key: Key, x: string)
    requires ops != [] && !Changes(ops[|ops| - 1], key)
    ensures LeavesText(ops, key, x) <==> LeavesText(ops[..|ops| - 1], key, x)
  {
    hide Changes, TextAfter, TextAfterAll;
    var init := ops[..|ops| - 1];
    forall c: nat
      ensures LastChange(ops, key, c) <==> LastChange(init, key, c)
      ensures c < |init| ==> init[c] == ops[c] && init[..c] == ops[..c]
    {
      assert forall d :: c < d < |init| ==> init[d] == ops[d];
    }
  }

  // ---------- Follow-up workers ----------

  /** `try_consume_queued_followup`: read the draft, take the lock, start the execution, clear the draft. Once
      it has the lock it may still give up, and then keeps it. */
  datatype Worker = Fresh | Read(draft: Row) | HasLock(draft: Row) | Started(draft: Row) | Over

  datatype Step =
    | Other(op: Op)
    | WorkerReads(w: nat)
    | WorkerMarks(w: nat, ok: bool)
    | WorkerGivesUp(w: nat)
    | WorkerStarts(w: nat, ok: bool)
    | WorkerClears(w: nat, ok: bool)

  datatype System = System(table: Table, workers: seq<Worker>)

  predicate Eligible(t: Table, key: Key) {
    key in t && t[key].queued && Trim(t[key].prompt) != ""
  }

  predicate Enabled(s: System, step: Step) {
    match step
    case Other(_) => true
    case WorkerReads(w) => w < |s.workers| && s.workers[w].Fresh?
    case WorkerMarks(w, _) => w < |s.workers| && s.workers[w].Read?
    case WorkerGivesUp(w) => w < |s.workers| && s.workers[w].HasLock?
    case WorkerStarts(w, _) => w < |s.workers| && s.workers[w].HasLock?
    case WorkerClears(w, _) => w < |s.workers| && s.workers[w].Started?
  }

  /** The operation on the table a step makes, if any; a failed statement makes none. */
  function OpOf(step: Step, key: Key): Option<Op> {
    match step
    case Other(op) => Some(op)
    case WorkerMarks(_, ok) => if ok then Some(TryMarkSending(key)) else None
    case WorkerClears(_, ok) => if ok then Some(ClearAfterSend(key)) else None
    case _ => None
  }

  function Next(s: System, step: Step, key: Key): Worker
    requires Enabled(s, step) && !step.Other?
  {
    match step
    case WorkerReads(_) => if Eligible(s.table, key) then Read(s.table[key]) else Over
    case WorkerMarks(w, ok) => if ok && Applies(s.table, TryMarkSending(key)) then HasLock(s.workers[w].draft) else Over
    case WorkerGivesUp(_) => Over
    case WorkerStarts(w, ok) => if ok then Started(s.workers[w].draft) else Over
    case WorkerClears(_, _) => Over
  }

  function Do(s: System, step: Step, key: Key): System
    requires Enabled(s, step)
  {
    System(if OpOf(step, key).Some? then Apply(s.table, OpOf(step, key).value) else s.table,
           if step.Other? then s.workers else s.workers[step.w := Next(s, step, key)])
  }

  /** A run gets stuck, `None`, where a step is not enabled. */
  ghost function After(t: Table, n: nat, key: Key, steps: seq<Step>): Option<System> {
    if steps == [] then Some(System(t, seq(n, _ => Fresh)))
    else
      var before := After(t, n, key, steps[..|steps| - 1]);
      if before.Some? && Enabled(before.value, steps[|steps| - 1]) then Some(Do(before.value, steps[|steps| - 1], key))
      else None
  }

  /** What the steps do to the table. */
  function Ops(steps: seq<Step>, key: Key): seq<Op> {
    if steps == [] then []
    else Ops(steps[..|steps| - 1], key)
         + if OpOf(steps[|steps| - 1], key).Some? then [OpOf(steps[|steps| - 1], key).value] else []
  }

  lemma AfterLast(t: Table, n: nat, key: Key, steps: seq<Step>)
    requires steps != [] && After(t, n, key, steps).Some?
    ensures var before, op := After(t, n, key, steps[..|steps| - 1]), OpOf(steps[|steps| - 1], key);
            && before.Some?
            && After(t, n, key, steps).value.table
               == if op.Some? then Apply(before.value.table, op.value) else before.value.table
  {
    hide Apply, Next, OpOf;
  }

  lemma RunOne(t: Table, ops: seq<Op>, op: Option<Op>)
    ensures Run(t, ops + if op.Some? then [op.value] else [])
            == if op.Some? then Apply(Run(t, ops), op.value) else Run(t, ops)
  {
    hide Apply;
    if op.Some? {
      assert (ops + [op.value])[..|ops|] == ops;
    } else {
      assert ops + [] == ops;
    }
  }

  lemma {:induction false} TableFollows(t: Table, n: nat, key: Key, steps: seq<Step>)
    requires After(t, n, key, steps).Some?
    ensures After(t, n, key, steps).value.table == Run(t, Ops(steps, key))
  {
    if steps != [] {
      hide Apply, Enabled, Next, OpOf, Run, After;
      var init, step := steps[..|steps| - 1], steps[|steps| - 1];
      AfterLast(t, n, key, steps);
      TableFollows(t, n, key, init);
      RunOne(t, Ops(init, key), OpOf(step, key));
    }
  }

  predicate StartsOk(step: Step) {
    step.WorkerStarts? && step.ok
  }

  function Starts(steps: seq<Step>): nat {
    if steps == [] then 0 else Starts(steps[..|steps| - 1]) + Bit(StartsOk(steps[|steps| - 1]))
  }

  /** How many workers have the lock and have not started. */
  function Ready(workers: seq<Worker>): nat {
    if workers == [] then 0 else Ready(workers[..|workers| - 1]) + Bit(workers[|workers| - 1].HasLock?)
  }

  lemma {:induction false} ReadyUpdate(workers: seq<Worker>, w: nat, x: Worker)
    requires w < |workers|
    ensures Ready(workers[w := x]) == Ready(workers) - Bit(workers[w].HasLock?) + Bit(x.HasLock?)
  {
    var n := |workers| - 1;
    if w == n {
      assert workers[w := x][..n] == workers[..n];
    } else {
      ReadyUpdate(workers[..n], w, x);
      assert workers[w := x][..n] == workers[..n][w := x];
    }
  }

  lemma {:induction false} NoneReady(n: nat)
    ensures Ready(seq(n, _ => Fresh)) == 0
  {
    if n > 0 {
      NoneReady(n - 1);
      assert seq(n, _ => Fresh)[..n - 1] == seq(n - 1, _ => Fresh);
    }
  }

  /** Over every interleaving of any number of workers with all other draft operations: every start has an
      acquisition of its own, and every acquisition but one has been followed by a clear or a delete. */
  lemma {:induction false} StartsAreLocked(t: Table, n: nat, key: Key, steps: seq<Step>)
    requires After(t, n, key, steps).Some?
    ensures var s, ops := After(t, n, key, steps).value, Ops(steps, key);
            && Starts(steps) + Ready(s.workers) <= Acquired(t, ops, key)
            && Acquired(t, ops, key) + Bit(Sending(t, key)) <= Released(ops, key) + Bit(Sending(s.table, key))
            && Starts(steps) <= Released(ops, key) + 1
  {
    TableFollows(t, n, key, steps);
    LockCounts(t, Ops(steps, key), key);
    hide Run, Acquired, Released, Sending;
    StartsAcquired(t, n, key, steps);
  }

  lemma {:induction false} StartsAcquired(t: Table, n: nat, key: Key, steps: seq<Step>)
    requires After(t, n, key, steps).Some?
    ensures Starts(steps) + Ready(After(t, n, key, steps).value.workers) <= Acquired(t, Ops(steps, key), key)
  {
    if steps == [] {
      NoneReady(n);
    } else {
      var init, step := steps[..|steps| - 1], steps[|steps| - 1];
      StartsAcquired(t, n, key, init);
      TableFollows(t, n, key, init);
      var s, ops := After(t, n, key, init).value, Ops(init, key);
      AcquiredNext(t, ops, OpOf(step, key), key);
      hide Run, Acquired, Apply, Ready;
      if !step.Other? {
        ReadyUpdate(s.workers, step.w, Next(s, step, key));
      }
    }
  }

  lemma AcquiredNext(t: Table, ops: seq<Op>, op: Option<Op>, key: Key)
    ensures Acquired(t, ops + (if op.Some? then [op.value] else []), key)
            == Acquired(t, ops, key) + Bit(op.Some? && Acquires(Run(t, ops), op.value, key))
  {
    if op.Some? {
      assert (ops + [op.value])[..|ops|] == ops;
    } else {
      assert ops + [] == ops;
    }
    hide Run;
  }

  /** A worker that has the lock, or has started, got it by a mark of its own. */
  lemma {:induction false} LockIsOwn(t: Table, n: nat, key: Key, steps: seq<Step>, w: nat) returns (m: nat)
    requires After(t, n, key, steps).Some? && w < |After(t, n, key, steps).value.workers|
    requires var x := After(t, n, key, steps).value.workers[w]; x.HasLock? || x.Started?
    ensures m < |steps| && steps[m] == WorkerMarks(w, true)
    ensures After(t, n, key, steps[..m]).Some?
            && Acquires(After(t, n, key, steps[..m]).value.table, TryMarkSending(key), key)
    ensures After(t, n, key, steps[..m]).value.table == Run(t, Ops(steps[..m], key))
  {
    var init, step := steps[..|steps| - 1], steps[|steps| - 1];
    var s := After(t, n, key, init).value;
    if step.WorkerMarks? && step.w == w {
      m := |init|;
      TableFollows(t, n, key, init);
    } else {
      assert s.workers[w].HasLock? || s.workers[w].Started?;
      m := LockIsOwn(t, n, key, init, w);
      assert init[..m] == steps[..m];
    }
  }

  /** Every start follows an acquisition by the same worker. */
  lemma StartFollowsMark(t: Table, n: nat, key: Key, steps: seq<Step>, w: nat, ok: bool) returns (m: nat)
    requires After(t, n, key, steps + [WorkerStarts(w, ok)]).Some?
    ensures m < |steps| && steps[m] == WorkerMarks(w, true)
    ensures After(t, n, key, steps[..m]).Some?
            && Acquires(After(t, n, key, steps[..m]).value.table, TryMarkSending(key), key)
  {
    assert (steps + [WorkerStarts(w, ok)])[..|steps|] == steps;
    m := LockIsOwn(t, n, key, steps, w);
  }

  // ---------- What a worker sends ----------

  predicate HasDraft(x: Worker) {
    x.Read? || x.HasLock? || x.Started?
  }

  lemma {:induction false} OpsAppend(a: seq<Step>, b: seq<Step>, key: Key)
    ensures Ops(a + b, key) == Ops(a, key) + Ops(b, key)
    decreases |b|
  {
    if b == [] {
      assert a + b == a;
    } else {
      OpsAppend(a, b[..|b| - 1], key);
      assert (a + b)[..|a + b| - 1] == a + b[..|b| - 1];
    }
  }

  /** A worker holds the draft as its own read found it. */
  lemma {:induction false} DraftIsRead(t: Table, n: nat, key: Key, steps: seq<Step>, w: nat) returns (r: nat)
    requires After(t, n, key, steps).Some? && w < |After(t, n, key, steps).value.workers|
    requires HasDraft(After(t, n, key, steps).value.workers[w])
    ensures r < |steps| && steps[r] == WorkerReads(w) && After(t, n, key, steps[..r]).Some?
    ensures var before := After(t, n, key, steps[..r]).value.table;
            && Eligible(before, key) && before[key].queued && Trim(before[key].prompt) != ""
            && After(t, n, key, steps).value.workers[w].draft == before[key]
  {
    var init, step := steps[..|steps| - 1], steps[|steps| - 1];
    var s := After(t, n, key, init).value;
    if step == WorkerReads(w) {
      r := |init|;
    } else {
      DraftStays(s, step, key, w);
      r := DraftIsRead(t, n, key, init, w);
      assert init[..r] == steps[..r];
    }
    hide Eligible, Apply;
  }

  lemma DraftStays(s: System, step: Step, key: Key, w: nat)
    requires Enabled(s, step) && w < |s.workers| && step != WorkerReads(w) && HasDraft(Do(s, step, key).workers[w])
    ensures HasDraft(s.workers[w]) && s.workers[w].draft == Do(s, step, key).workers[w].draft
  {
  }

  /** Over every interleaving: what a worker that has the lock is about to send is the text the draft has now, if and
      only if the last write or release since its own read, if there was one, left the text that was read. */
  lemma SendsCurrentText(t: Table, n: nat, key: Key, steps: seq<Step>, w: nat) returns (r: nat)
    requires key.kind.FollowUp? && After(t, n, key, steps).Some? && w < |After(t, n, key, steps).value.workers|
    requires After(t, n, key, steps).value.workers[w].HasLock?
    ensures r < |steps| && steps[r] == WorkerReads(w)
    ensures var s := After(t, n, key, steps).value; var sent := s.workers[w].draft.prompt;
            TextOf(s.table, key) == Some(sent) <==> LeavesText(Ops(steps[r + 1..], key), key, sent)
  {
    r := DraftIsRead(t, n, key, steps, w);
    var s := After(t, n, key, steps).value;
    var before, since, sent := After(t, n, key, steps[..r]).value.table, Ops(steps[r + 1..], key),
                               s.workers[w].draft.prompt;
    TableFollows(t, n, key, steps);
    TableFollows(t, n, key, steps[..r]);
    assert steps == steps[..r] + steps[r..] && steps[r..] == [steps[r]] + steps[r + 1..];
    OpsAppend(steps[..r], steps[r..], key);
    OpsAppend([steps[r]], steps[r + 1..], key);
    ReadMakesNoOp(w, key);
    assert [] + since == since;
    RunAppend(t, Ops(steps[..r], key), since);
    TextFollows(before, since, key);
    LastChangeDecides(since, key, sent);
    hide After, Run, Ops, TextAfterAll, LeavesText;
  }

  lemma ReadMakesNoOp(w: nat, key: Key)
    ensures Ops([WorkerReads(w)], key) == []
  {
    var steps := [WorkerReads(w)];
    assert steps[..0] == [] && Ops(steps, key) == Ops(steps[..0], key) + [];
  }

  /** Two workers read one draft; the second sends and clears it; new text is queued; the first takes the lock for
      the new text and sends the old one again. */
  function Twice(key: Key, draft: Draft): seq<Step> {
    [WorkerReads(0), WorkerReads(1), WorkerMarks(1, true), WorkerStarts(1, true), WorkerClears(1, true),
     Other(Upsert(key, draft)), WorkerMarks(0, true), WorkerStarts(0, true)]
  }

  lemma OldTextIsSentTwice(t: Table, key: Key, draft: Draft)
    requires key.kind.FollowUp? && Eligible(t, key) && CanMark(t[key]) && draft.queued && !Blank(draft.prompt)
    ensures var steps := Twice(key, draft);
            && After(t, 2, key, steps[..4]).Some?
            && After(t, 2, key, steps[..4]).value.workers[..] == [Read(t[key]), Started(t[key])]
            && After(t, 2, key, steps).Some? && After(t, 2, key, steps).value.workers[..] == [Started(t[key]), Over]
            && TextOf(After(t, 2, key, steps).value.table, key) == Some(draft.prompt)
  {
    var steps, row := Twice(key, draft), t[key];
    var t1 := Apply(t, TryMarkSending(key));
    var t2 := Apply(t1, ClearAfterSend(key));
    var t3 := Apply(t2, Upsert(key, draft));
    var t4 := Apply(t3, TryMarkSending(key));
    assert key in t3 && CanMark(t3[key]) && t4[key].prompt == draft.prompt;
    TwiceFirst(t, key, draft);
    hide Apply, Eligible;
    TwiceSecond(t, key, draft);
  }

  lemma TwiceReads(t: Table, key: Key, draft: Draft)
    requires key.kind.FollowUp? && Eligible(t, key) && CanMark(t[key])
    ensures After(t, 2, key, Twice(key, draft)[..2]) == Some(System(t, [Read(t[key]), Read(t[key])]))
  {
    var steps, row := Twice(key, draft), t[key];
    assert steps[..0] == [] && After(t, 2, key, steps[..0]).value.workers == [Fresh, Fresh];
    hide After, Apply;
    NextIs(t, 2, key, steps, 0, System(t, [Fresh, Fresh]), System(t, [Read(row), Fresh]));
    NextIs(t, 2, key, steps, 1, System(t, [Read(row), Fresh]), System(t, [Read(row), Read(row)]));
  }

  lemma TwiceFirst(t: Table, key: Key, draft: Draft)
    requires key.kind.FollowUp? && Eligible(t, key) && CanMark(t[key])
    ensures After(t, 2, key, Twice(key, draft)[..4])
            == Some(System(Apply(t, TryMarkSending(key)), [Read(t[key]), Started(t[key])]))
  {
    hide After, Apply;
    var steps, row := Twice(key, draft), t[key];
    TwiceReads(t, key, draft);
    var t1 := Apply(t, TryMarkSending(key));
    NextIs(t, 2, key, steps, 2, System(t, [Read(row), Read(row)]), System(t1, [Read(row), HasLock(row)]));
    NextIs(t, 2, key, steps, 3, System(t1, [Read(row), HasLock(row)]), System(t1, [Read(row), Started(row)]));
  }

  lemma TwiceSecond(t: Table, key: Key, draft: Draft)
    requires key.kind.FollowUp? && key in t && !Blank(draft.prompt) && draft.queued
    requires After(t, 2, key, Twice(key, draft)[..4])
             == Some(System(Apply(t, TryMarkSending(key)), [Read(t[key]), Started(t[key])]))
    ensures var t2 := Apply(Apply(t, TryMarkSending(key)), ClearAfterSend(key));
            var t4 := Apply(Apply(t2, Upsert(key, draft)), TryMarkSending(key));
            After(t, 2, key, Twice(key, draft)) == Some(System(t4, [Started(t[key]), Over]))
  {
    var row, t1 := t[key], Apply(t, TryMarkSending(key));
    var t3 := Apply(Apply(t1, ClearAfterSend(key)), Upsert(key, draft));
    MarkableAgain(t1, key, draft);
    hide After, Apply, Applies, Twice, Do, Enabled;
    Cleared1(t, key, draft, t1, row);
    Sent0(t, key, draft, t3, row);
  }

  lemma Cleared1(t: Table, key: Key, draft: Draft, t1: Table, row: Row)
    requires After(t, 2, key, Twice(key, draft)[..4]) == Some(System(t1, [Read(row), Started(row)]))
    ensures After(t, 2, key, Twice(key, draft)[..6])
         == Some(System(Apply(Apply(t1, ClearAfterSend(key)), Upsert(key, draft)), [Read(row), Over]))
  {
    var steps, t2 := Twice(key, draft), Apply(t1, ClearAfterSend(key));
    hide After, Apply, Applies;
    NextIs(t, 2, key, steps, 4, System(t1, [Read(row), Started(row)]), System(t2, [Read(row), Over]));
    NextIs(t, 2, key, steps, 5, System(t2, [Read(row), Over]),
           System(Apply(t2, Upsert(key, draft)), [Read(row), Over]));
  }

  lemma Sent0(t: Table, key: Key, draft: Draft, t3: Table, row: Row)
    requires After(t, 2, key, Twice(key, draft)[..6]) == Some(System(t3, [Read(row), Over]))
             && Applies(t3, TryMarkSending(key))
    ensures After(t, 2, key, Twice(key, draft)) == Some(System(Apply(t3, TryMarkSending(key)), [Started(row), Over]))
  {
    var steps, t4 := Twice(key, draft), Apply(t3, TryMarkSending(key));
    hide After, Apply, Applies;
    NextIs(t, 2, key, steps, 6, System(t3, [Read(row), Over]), System(t4, [HasLock(row), Over]));
    NextIs(t, 2, key, steps, 7, System(t4, [HasLock(row), Over]), System(t4, [Started(row), Over]));
    assert steps[..8] == steps;
  }

  lemma MarkableAgain(t: Table, key: Key, draft: Draft)
    requires key.kind.FollowUp? && !Blank(draft.prompt) && draft.queued
    ensures Applies(Apply(Apply(t, ClearAfterSend(key)), Upsert(key, draft)), TryMarkSending(key))
  {
  }

  lemma NextIs(t: Table, n: nat, key: Key, steps: seq<Step>, i: nat, s: System, s': System)
    requires i < |steps| && After(t, n, key, steps[..i]) == Some(s) && Enabled(s, steps[i])
    requires Do(s, steps[i], key).table == s'.table && Do(s, steps[i], key).workers == s'.workers
    ensures After(t, n, key, steps[..i + 1]) == Some(s')
  {
    assert steps[..i + 1][..i] == steps[..i];
    hide Do, Enabled;
  }
}
