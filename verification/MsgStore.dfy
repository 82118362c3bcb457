/** The message store: a history bounded by a byte budget, written by `push`, and a broadcast channel.
    First the history as one object, then the race between pushing and subscribing. */
module MsgStore {
  import opened LogMessages

  const HISTORY_BYTES: nat := 100000 * 1024
  const USIZE_MAX: nat := 0xFFFF_FFFF_FFFF_FFFF

  function SaturatingAdd(a: nat, b: nat): nat { if a + b > USIZE_MAX then USIZE_MAX else a + b }
  function SaturatingSub(a: nat, b: nat): nat { if a < b then 0 else a - b }

  /** A message whose size is a machine integer, as every message in memory has. */
  type Msg = m: LogMsg | ApproxBytes(m) <= USIZE_MAX witness Finished

  datatype StoredMsg = StoredMsg(msg: Msg, bytes: nat)

  /** Size of the messages from position `k` on. */
  function SizeFrom(all: seq<Msg>, k: nat): nat
    decreases |all| - k
  {
    if k >= |all| then 0 else ApproxBytes(all[k]) + SizeFrom(all, k + 1)
  }

  /** Position `k` is where a history with the byte budget starts: everything from `k` on fits, or is the
      last message alone, and no longer suffix fits. */
  ghost predicate StartsAt(all: seq<Msg>, k: nat) {
    && k <= |all| && (all != [] ==> k < |all|)
    && (SizeFrom(all, k) <= HISTORY_BYTES || k == |all| - 1)
    && forall j :: 0 <= j < k ==> SizeFrom(all, j) > HISTORY_BYTES
  }

  class Store {
    var history: seq<StoredMsg>
    var totalBytes: nat
    ghost var pushed: seq<Msg>

    ghost predicate Valid()
      reads this
    {
      && |history| <= |pushed|
      && StartsAt(pushed, |pushed| - |history|)
      && history == Stored(pushed[|pushed| - |history|..])
      && totalBytes == SizeFrom(pushed, |pushed| - |history|)
    }

    constructor ()
      ensures Valid() && pushed == []
    {
      history, totalBytes, pushed := [], 0, [];
    }

    /** Recording a message keeps exactly the longest suffix of everything ever pushed that fits the
        budget (or the message alone), and the counter is that suffix's exact size. */
    method Push(msg: Msg)
      requires Valid()
      modifies this
      ensures Valid() && pushed == old(pushed) + [msg]
    {
      var bytes := ApproxBytes(msg);
      ghost var k := Evict(bytes);
      RecordAt(pushed, k, msg);
      history := history + [StoredMsg(msg, bytes)];
      totalBytes := SaturatingAdd(totalBytes, bytes);
      pushed := pushed + [msg];
    }

    /** The eviction loop of `push`: pop from the front until `bytes` more fit or nothing is left. */
    method Evict(bytes: nat) returns (ghost k: nat)
      requires Valid()
      modifies this`history, this`totalBytes
      ensures k <= |pushed| && history == Stored(pushed[k..]) && totalBytes == SizeFrom(pushed, k)
      ensures totalBytes + bytes <= HISTORY_BYTES || (k == |pushed| && totalBytes == 0)
      ensures forall j :: 0 <= j < k ==> SizeFrom(pushed, j) + bytes > HISTORY_BYTES
    {
      k := |pushed| - |history|;
      while SaturatingAdd(totalBytes, bytes) > HISTORY_BYTES
        invariant k <= |pushed|
        invariant history == Stored(pushed[k..]) && totalBytes == SizeFrom(pushed, k)
        invariant forall j :: 0 <= j < k ==> SizeFrom(pushed, j) + bytes > HISTORY_BYTES
        decreases |history|
      {
        if history == [] { break; }
        var front := history[0];
        StoredTail(pushed, k);
        history := history[1..];
        totalBytes := SaturatingSub(totalBytes, front.bytes);
        k := k + 1;
      }
    }

    method GetHistory() returns (h: seq<Msg>)
      requires Valid()
      ensures |h| <= |pushed| && StartsAt(pushed, |pushed| - |h|) && h == pushed[|pushed| - |h|..]
      ensures |h| > 1 ==> Carried(pushed, |pushed| - |h|) + 14 * |h| <= HISTORY_BYTES
    {
      h := seq(|history|, i requires 0 <= i < |history| reads this => history[i].msg);
      CarriedFits(pushed, |pushed| - |h|);
    }
  }

  /** The payload of the messages from position `k` on. */
  function Carried(all: seq<Msg>, k: nat): nat
    decreases |all| - k
  {
    if k >= |all| then 0 else |Payload(all[k])| + Carried(all, k + 1)
  }

  /** The budget counts the payload, and at least 14 and at most 18 bytes more for each message. */
  lemma {:induction false} SizeCountsPayload(all: seq<Msg>, k: nat)
    requires k <= |all|
    ensures Carried(all, k) + 14 * (|all| - k) <= SizeFrom(all, k) <= Carried(all, k) + 18 * (|all| - k)
    decreases |all| - k
  {
    if k < |all| {
      SizeCountsPayload(all, k + 1);
    }
  }

  /** The payload kept is within the budget, unless it is the last message alone; one more message back, and it is
      not, up to the overhead. */
  lemma CarriedFits(all: seq<Msg>, k: nat)
    requires StartsAt(all, k)
    ensures k < |all| - 1 ==> Carried(all, k) + 14 * (|all| - k) <= HISTORY_BYTES
    ensures k > 0 ==> Carried(all, k - 1) + 18 * (|all| - k + 1) > HISTORY_BYTES
  {
    SizeCountsPayload(all, k);
    if k > 0 {
      SizeCountsPayload(all, k - 1);
      assert SizeFrom(all, k - 1) > HISTORY_BYTES;
    }
  }

  function Stored(ms: seq<Msg>): seq<StoredMsg> {
    seq(|ms|, i requires 0 <= i < |ms| => StoredMsg(ms[i], ApproxBytes(ms[i])))
  }

  lemma StoredTail(all: seq<Msg>, k: nat)
    requires k < |all|
    ensures Stored(all[k..])[1..] == Stored(all[k + 1..])
    ensures Stored(all[k..])[0].bytes == ApproxBytes(all[k])
  {
    assert all[k..][1..] == all[k + 1..];
  }

  lemma {:induction false} SizeAppend(all: seq<Msg>, m: Msg, k: nat)
    requires k <= |all|
    ensures SizeFrom(all + [m], k) == SizeFrom(all, k) + ApproxBytes(m)
    decreases |all| - k
  {
    if k < |all| {
      SizeAppend(all, m, k + 1);
    } else {
      assert SizeFrom(all + [m], k) == ApproxBytes(m) + SizeFrom(all + [m], k + 1);
    }
  }

  lemma RecordAt(all: seq<Msg>, k: nat, m: Msg)
    requires k <= |all|
    requires SizeFrom(all, k) + ApproxBytes(m) <= HISTORY_BYTES || k == |all|
    requires forall j :: 0 <= j < k ==> SizeFrom(all, j) + ApproxBytes(m) > HISTORY_BYTES
    ensures StartsAt(all + [m], k)
    ensures SizeFrom(all + [m], k) == SizeFrom(all, k) + ApproxBytes(m)
    ensures Stored((all + [m])[k..]) == Stored(all[k..]) + [StoredMsg(m, ApproxBytes(m))]
  {
    forall j | 0 <= j <= k
      ensures SizeFrom(all + [m], j) == SizeFrom(all, j) + ApproxBytes(m)
    {
      SizeAppend(all, m, j);
    }
  }
}
