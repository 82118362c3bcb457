/** What the statements on the drafts table write, field by field, and where the queued flag of a draft comes from
    over any run of them. */
module DraftFields {
  import opened Text
  import opened Drafts

  /** All other rows are as before. */
  ghost predicate OnlyRow(t: Table, t': Table, key: Key) {
    t' - {key} == t - {key}
  }

  // ---------- One statement ----------

  /** An upsert writes every field of the draft; it keeps the lock and counts, or starts a row. A retry draft must
      name its process. */
  lemma UpsertWrites(t: Table, key: Key, draft: Draft)
    ensures var t' := Apply(t, Upsert(key, draft));
            if key.kind == Retry && draft.retryOf == None then t' == t
            else
              && OnlyRow(t, t', key) && key in t'
              && t'[key].retryOf == draft.retryOf && t'[key].prompt == draft.prompt && t'[key].queued == draft.queued
              && t'[key].variant == draft.variant && t'[key].images == draft.images
              && t'[key].sending == (key in t && t[key].sending)
              && t'[key].version == if key in t then t[key].version + 1 else 0
  {
  }

  /** A partial update writes the fields it names and no other; one that names none does nothing. */
  lemma UpdateWrites(t: Table, key: Key, c: Change)
    ensures var t' := Apply(t, UpdatePartial(key, c));
            if key !in t || (c.retryOf == None && c.prompt == None && c.variant == None && c.images == None)
            then t' == t
            else
              && OnlyRow(t, t', key) && key in t'
              && t'[key].retryOf == (if c.retryOf == None then t[key].retryOf else c.retryOf)
              && (if c.prompt == None then t'[key].prompt == t[key].prompt else Some(t'[key].prompt) == c.prompt)
              && (if c.variant == None then t'[key].variant == t[key].variant else Some(t'[key].variant) == c.variant)
              && t'[key].images == (if c.images == None then t[key].images else c.images)
              && t'[key].queued == t[key].queued && t'[key].sending == t[key].sending
              && t'[key].version == t[key].version + 1
  {
  }

  /** `set_queued` finds the row it expects, or does nothing; it sets the flag, but not on a prompt without text, and
      leaves every other field alone. */
  lemma SetQueuedWrites(t: Table, key: Key, queued: bool, eq: Option<bool>, ev: Option<nat>)
    ensures var t' := Apply(t, SetQueued(key, queued, eq, ev));
            if key !in t || (eq.Some? && eq.value != t[key].queued) || (ev.Some? && ev.value != t[key].version)
            then t' == t
            else
              && OnlyRow(t, t', key) && key in t'
              && (t'[key].queued <==> queued && HasText(t[key].prompt))
              && t'[key].prompt == t[key].prompt && t'[key].retryOf == t[key].retryOf
              && t'[key].variant == t[key].variant && t'[key].images == t[key].images
              && t'[key].sending == t[key].sending && t'[key].version == t[key].version + 1
  {
  }

  /** The lock is taken exactly on a draft that is queued, has text and is not being sent; nothing else changes. */
  lemma MarkWrites(t: Table, key: Key)
    ensures var t' := Apply(t, TryMarkSending(key));
            if key in t && t[key].queued && !t[key].sending && HasText(t[key].prompt) then
              && OnlyRow(t, t', key) && key in t' && t'[key].sending && t'[key].version == t[key].version + 1
              && t'[key].prompt == t[key].prompt && t'[key].queued && t'[key].retryOf == t[key].retryOf
              && t'[key].variant == t[key].variant && t'[key].images == t[key].images
            else t' == t
  {
  }

  /** Clearing empties a follow-up draft and gives the lock back, keeping its variant; a retry draft is deleted. */
  lemma ClearWrites(t: Table, key: Key)
    ensures var t' := Apply(t, ClearAfterSend(key));
            if key !in t then t' == t
            else if key.kind == Retry then t' == t - {key}
            else
              && OnlyRow(t, t', key) && key in t'
              && t'[key].prompt == "" && !t'[key].queued && !t'[key].sending && t'[key].images == None
              && t'[key].variant == t[key].variant && t'[key].retryOf == t[key].retryOf
              && t'[key].version == t[key].version + 1
  {
  }

  // ---------- The flag over runs ----------

  function Flag(t: Table, key: Key): Option<bool> {
    if key in t then Some(t[key].queued) else None
  }

  /** The flag after the operations, from the operations alone: the text and the version that `set_queued` looks at
      are those the earlier operations wrote and counted. */
  ghost function FlagAfter(t: Table, ops: seq<Op>, key: Key): Option<bool> {
    if ops == [] then Flag(t, key)
    else
      var init, op := ops[..|ops| - 1], ops[|ops| - 1];
      var now := FlagAfter(t, init, key);
      if op.key != key then now
      else match op
        case Upsert(_, draft) => if key.kind == Retry && draft.retryOf == None then now else Some(draft.queued)
        case Delete(_) => None
        case ClearAfterSend(_) => if now.Some? && key.kind == FollowUp then Some(false) else None
        case SetQueued(_, queued, eq, ev) =>
          var text := TextAfterAll(TextOf(t, key), init, key);
          if || now.None? || text.None? || (eq.Some? && eq != now)
             || (ev.Some? && ev.value != CountedVersion(t, init, key))
          then now else Some(queued && HasText(text.value))
        case _ => now
  }

  lemma {:induction false} FlagFollows(t: Table, ops: seq<Op>, key: Key)
    ensures Flag(Run(t, ops), key) == FlagAfter(t, ops, key)
  {
    hide Apply, CountedVersion, TextAfterAll;
    if ops != [] {
      var init, op := ops[..|ops| - 1], ops[|ops| - 1];
      FlagFollows(t, init, key);
      TextFollows(t, init, key);
      if key in Run(t, init) { VersionSinceBirth(t, init, key); }
      OneFlag(Run(t, init), op, key);
    }
  }

  /** The flag one operation on. */
  lemma OneFlag(t: Table, op: Op, key: Key)
    ensures Flag(Apply(t, op), key)
            == if op.key != key then Flag(t, key)
               else match op
                 case Upsert(_, d) => if key.kind == Retry && d.retryOf == None then Flag(t, key) else Some(d.queued)
                 case Delete(_) => None
                 case ClearAfterSend(_) => if key in t && key.kind == FollowUp then Some(false) else None
                 case SetQueued(_, queued, eq, ev) =>
                   if key in t && (eq.None? || eq.value == t[key].queued) && (ev.None? || ev.value == t[key].version)
                   then Some(queued && HasText(t[key].prompt)) else Flag(t, key)
                 case _ => Flag(t, key)
  {
  }

  /** Operations that ask for a draft to be sent. */
  predicate Asks(op: Op, key: Key) {
    op.key == key && ((op.Upsert? && op.draft.queued) || (op.SetQueued? && op.queued))
  }

  /** Operations after which a draft is not to be sent, whatever it was. */
  predicate Withdraws(op: Op, key: Key) {
    || Releases(op, key)
    || (op.Upsert? && op.key == key && !op.draft.queued && (key.kind == FollowUp || op.draft.retryOf.Some?))
    || op == SetQueued(key, false, None, None)
  }

  /** A draft that is queued was asked for, and not withdrawn since; so nothing is sent that nobody asked to send. */
  lemma {:induction false} QueuedWasAsked(t: Table, ops: seq<Op>, key: Key) returns (i: nat)
    requires Flag(Run(t, ops), key) == Some(true) && Flag(t, key) != Some(true)
    ensures i < |ops| && Asks(ops[i], key) && forall j :: i < j < |ops| ==> !Withdraws(ops[j], key)
  {
    hide Apply;
    var init, op := ops[..|ops| - 1], ops[|ops| - 1];
    OneFlag(Run(t, init), op, key);
    hide HasText;
    if Flag(Run(t, init), key) == Some(true) && !Asks(op, key) {
      i := QueuedWasAsked(t, init, key);
      assert forall j :: i < j < |init| ==> init[j] == ops[j];
    } else {
      i := |init|;
    }
  }
}
