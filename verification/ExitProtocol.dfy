/** How one execution ends: the exit monitor with its OS exit watcher, and any number of stop requests, as
    steps that interleave in every way.

    The steps are the points at which the parties touch what they share: the child process, the child store, the
    message store, and the status row. Database reads and writes and the kill may fail, as a flag says. */
module ExitProtocol {
  import opened Text

  datatype Status = Running | Completed | Failed | Killed

  datatype Process = Alive | Exited(success: bool)

  datatype Report = Exit(success: bool) | ExitError

  datatype Watcher = Polling | Holding | Sent(report: Report)

  datatype Monitor =
    | Waiting
    | Signalled
    | HasVerdict(verdict: Status)
    | Checked(verdict: Status, stopped: bool)
    | StatusDone
    | HasStore(taken: bool)
    | Pushed
    | Gone

  datatype Stop =
    | Idle
    | HasChild
    | Recorded
    | KilledChild
    | RemovedChild
    | StopHasStore(taken: bool)
    | Done
    | Refused
    | Broken

  datatype Writer = ByMonitor | ByStop(i: nat)
  datatype Write = Write(writer: Writer, status: Status)

  /** `writes` are the updates of the row in order; `readAt` is how many of them the monitor's check came
      after, once it was made, and `readOk` whether it could read the row. */
  datatype State = State(
    process: Process,
    status: Status,
    child: bool,
    store: bool,
    finished: nat,
    watcher: Watcher,
    monitor: Monitor,
    stops: seq<Stop>,
    writes: seq<Write>,
    readAt: Option<nat>,
    readOk: bool)

  datatype Step =
    | ProcessExits(success: bool)
    | WatcherGets
    | WatcherWaits
    | WatcherFails
    | ExitSignal
    | MonitorKills(dies: Option<bool>)
    | MonitorHears
    | MonitorReads(ok: bool)
    | MonitorWrites(ok: bool)
    | MonitorTakes
    | MonitorPushes
    | MonitorRemovesChild
    | StopFinds(i: nat)
    | StopRecords(i: nat, ok: bool)
    | StopKills(i: nat, ok: bool, dies: Option<bool>)
    | StopRemovesChild(i: nat)
    | StopTakes(i: nat)
    | StopPushes(i: nat)

  /** A stop asks for a final status; those of `was_stopped` keep the monitor from writing its own. */
  predicate IsStopped(status: Status) {
    status.Killed? || status.Completed?
  }

  function Start(targets: seq<Status>): State {
    State(Alive, Running, true, true, 0, Polling, Waiting, seq(|targets|, _ => Idle), [], None, false)
  }

  function VerdictOf(r: Report): Status {
    if r.Exit? && r.success then Completed else Failed
  }

  function Dies(p: Process, dies: Option<bool>): Process {
    if p.Alive? && dies.Some? then Exited(dies.value) else p
  }

  predicate MonitorEnabled(s: State, step: Step) {
    match step
    case ExitSignal => s.monitor.Waiting?
    case MonitorKills(dies) => s.monitor.Signalled? && (s.child || dies.None?)
    case MonitorHears => s.monitor.Waiting? && s.watcher.Sent?
    case MonitorReads(_) => s.monitor.HasVerdict?
    case MonitorWrites(_) => s.monitor.Checked?
    case MonitorTakes => s.monitor.StatusDone?
    case MonitorPushes => s.monitor.HasStore?
    case MonitorRemovesChild => s.monitor.Pushed?
    case _ => false
  }

  function DoMonitor(s: State, step: Step): State
    requires MonitorEnabled(s, step)
  {
    match step
    case ExitSignal => s.(monitor := Signalled)
    case MonitorKills(dies) => s.(process := Dies(s.process, dies), monitor := HasVerdict(Completed))
    case MonitorHears => s.(monitor := HasVerdict(VerdictOf(s.watcher.report)))
    case MonitorReads(ok) =>
      s.(monitor := Checked(s.monitor.verdict, ok && IsStopped(s.status)), readAt := Some(|s.writes|), readOk := ok)
    case MonitorWrites(ok) =>
      if ok && !s.monitor.stopped then
        s.(monitor := StatusDone, status := s.monitor.verdict,
           writes := s.writes + [Write(ByMonitor, s.monitor.verdict)])
      else s.(monitor := StatusDone)
    case MonitorTakes => s.(monitor := HasStore(s.store), store := false)
    case MonitorPushes => s.(monitor := Pushed, finished := s.finished + if s.monitor.taken then 1 else 0)
    case MonitorRemovesChild => s.(monitor := Gone, child := false)
  }

  predicate StopEnabled(s: State, step: Step) {
    match step
    case StopFinds(i) => i < |s.stops| && s.stops[i].Idle?
    case StopRecords(i, _) => i < |s.stops| && s.stops[i].HasChild?
    case StopKills(i, ok, dies) => i < |s.stops| && s.stops[i].Recorded? && (ok ==> dies.Some?)
    case StopRemovesChild(i) => i < |s.stops| && s.stops[i].KilledChild?
    case StopTakes(i) => i < |s.stops| && s.stops[i].RemovedChild?
    case StopPushes(i) => i < |s.stops| && s.stops[i].StopHasStore?
    case _ => false
  }

  function DoStop(targets: seq<Status>, s: State, step: Step): State
    requires |s.stops| == |targets| && StopEnabled(s, step)
  {
    var i := step.i;
    match step
    case StopFinds(_) => s.(stops := s.stops[i := if s.child then HasChild else Refused])
    case StopRecords(_, ok) =>
      if ok then s.(stops := s.stops[i := Recorded], status := targets[i],
                    writes := s.writes + [Write(ByStop(i), targets[i])])
      else s.(stops := s.stops[i := Broken])
    case StopKills(_, ok, dies) =>
      s.(stops := s.stops[i := if ok then KilledChild else Broken], process := Dies(s.process, dies))
    case StopRemovesChild(_) => s.(stops := s.stops[i := RemovedChild], child := false)
    case StopTakes(_) => s.(stops := s.stops[i := StopHasStore(s.store)], store := false)
    case StopPushes(_) => s.(stops := s.stops[i := Done], finished := s.finished + if s.stops[i].taken then 1 else 0)
  }

  predicate OtherEnabled(s: State, step: Step) {
    match step
    case ProcessExits(_) => s.process.Alive?
    case WatcherGets => s.watcher.Polling?
    case WatcherWaits => s.watcher.Holding?
    case WatcherFails => s.watcher.Holding?
    case _ => false
  }

  function DoOther(s: State, step: Step): State
    requires OtherEnabled(s, step)
  {
    match step
    case ProcessExits(success) => s.(process := Exited(success))
    case WatcherGets => s.(watcher := if s.child then Holding else Sent(ExitError))
    case WatcherWaits => s.(watcher := if s.process.Exited? then Sent(Exit(s.process.success)) else Polling)
    case WatcherFails => s.(watcher := Sent(ExitError))
  }

  predicate Enabled(s: State, step: Step) {
    MonitorEnabled(s, step) || StopEnabled(s, step) || OtherEnabled(s, step)
  }

  function Do(targets: seq<Status>, s: State, step: Step): State
    requires |s.stops| == |targets| && Enabled(s, step)
  {
    if MonitorEnabled(s, step) then DoMonitor(s, step)
    else if StopEnabled(s, step) then DoStop(targets, s, step)
    else DoOther(s, step)
  }

  /** A run gets stuck, `None`, where a step is not enabled. */
  ghost function After(targets: seq<Status>, steps: seq<Step>): (r: Option<State>)
    ensures r.Some? ==> |r.value.stops| == |targets|
    decreases |steps|
  {
    if steps == [] then Some(Start(targets))
    else
      var before := After(targets, steps[..|steps| - 1]);
      if before.Some? && Enabled(before.value, steps[|steps| - 1]) then
        Some(Do(targets, before.value, steps[|steps| - 1]))
      else None
  }

  ghost predicate IsRun(targets: seq<Status>, steps: seq<Step>) {
    After(targets, steps).Some?
  }

  // ---------- The message store ----------

  function Holds(x: Stop): nat {
    if x.StopHasStore? && x.taken then 1 else 0
  }

  /** How many stops have taken the message store and not yet pushed. */
  function Holders(stops: seq<Stop>): nat {
    if stops == [] then 0 else Holders(stops[..|stops| - 1]) + Holds(stops[|stops| - 1])
  }

  function MonitorHolds(m: Monitor): nat {
    if m.HasStore? && m.taken then 1 else 0
  }

  predicate PastTake(m: Monitor) {
    m.HasStore? || m.Pushed? || m.Gone?
  }

  /** The message store is in the table, in one task's hands, or finished: exactly one of these. */
  ghost predicate StoreOnce(s: State) {
    && (if s.store then 1 else 0) + MonitorHolds(s.monitor) + Holders(s.stops) + s.finished == 1
    && (PastTake(s.monitor) ==> !s.store)
    && (s.monitor.Gone? ==> !s.child)
  }

  lemma {:induction false} HoldersUpdate(stops: seq<Stop>, i: nat, x: Stop)
    requires i < |stops|
    ensures Holders(stops[i := x]) == Holders(stops) - Holds(stops[i]) + Holds(x)
  {
    var n := |stops| - 1;
    if i == n {
      assert stops[i := x][..n] == stops[..n];
    } else {
      HoldersUpdate(stops[..n], i, x);
      assert stops[i := x][..n] == stops[..n][i := x];
    }
  }

  lemma {:induction false} NoHolders(n: nat)
    ensures Holders(seq(n, _ => Idle)) == 0
  {
    if n > 0 {
      NoHolders(n - 1);
      assert seq(n, _ => Idle)[..n - 1] == seq(n - 1, _ => Idle);
    }
  }

  lemma StepStoreOnce(targets: seq<Status>, s: State, step: Step)
    requires |s.stops| == |targets| && Enabled(s, step) && StoreOnce(s)
    ensures StoreOnce(Do(targets, s, step))
  {
    hide Holders;
    if StopEnabled(s, step) {
      HoldersUpdate(s.stops, step.i, Do(targets, s, step).stops[step.i]);
    }
  }

  /** Over every interleaving: the message store is taken out and finished at most once; when the monitor is
      gone, no child and no store is left behind, and Finished was pushed exactly once unless a stop that took
      the store is just about to. */
  lemma {:induction false} FinishedOnce(targets: seq<Status>, steps: seq<Step>)
    requires IsRun(targets, steps)
    ensures var s := After(targets, steps).value;
            && StoreOnce(s) && s.finished <= 1
            && (s.finished == 1 ==> !s.store && MonitorHolds(s.monitor) == 0 && Holders(s.stops) == 0)
            && (s.monitor.Gone? ==> !s.child && !s.store && s.finished + Holders(s.stops) == 1)
    decreases |steps|
  {
    if steps == [] {
      NoHolders(|targets|);
    } else {
      FinishedOnce(targets, steps[..|steps| - 1]);
      StepStoreOnce(targets, After(targets, steps[..|steps| - 1]).value, steps[|steps| - 1]);
      hide Do, Holders;
    }
  }

  // ---------- The status row ----------

  function StatusAfter(writes: seq<Write>): Status {
    if writes == [] then Running else writes[|writes| - 1].status
  }

  ghost predicate StopsOnly(writes: seq<Write>) {
    forall k :: 0 <= k < |writes| ==> writes[k].writer.ByStop?
  }

  predicate BeforeCheck(m: Monitor) {
    m.Waiting? || m.Signalled? || m.HasVerdict?
  }

  predicate BeforeWrite(m: Monitor) {
    BeforeCheck(m) || m.Checked?
  }

  /** What the check found: the row as it was after the writes it came after. */
  predicate Saw(s: State) {
    && s.readAt.Some? && s.readAt.value <= |s.writes| && s.readOk
    && StatusAfter(s.writes[..s.readAt.value]) in {Killed, Completed}
  }

  ghost predicate ByStops(targets: seq<Status>, writes: seq<Write>) {
    forall k :: 0 <= k < |writes| && writes[k].writer.ByStop? ==>
      writes[k].writer.i < |targets| && writes[k].status == targets[writes[k].writer.i]
  }

  /** The row is its last write. The monitor writes only if its check did not find the process stopped. */
  ghost predicate RowInv(targets: seq<Status>, s: State) {
    && s.status == StatusAfter(s.writes) && ByStops(targets, s.writes)
    && (s.readAt.None? <==> BeforeCheck(s.monitor))
    && (s.readAt.Some? ==> s.readAt.value <= |s.writes|)
    && (s.monitor.Checked? ==> s.monitor.stopped == Saw(s))
    && (BeforeWrite(s.monitor) || Saw(s) ==> StopsOnly(s.writes))
  }

  lemma SawKept(s: State, t: State)
    requires t.readAt == s.readAt && t.readOk == s.readOk && s.writes <= t.writes
    requires s.readAt.Some? ==> s.readAt.value <= |s.writes|
    ensures Saw(t) == Saw(s)
  {
    if s.readAt.Some? {
      assert t.writes[..s.readAt.value] == s.writes[..s.readAt.value];
    }
  }

  lemma StepRow(targets: seq<Status>, s: State, step: Step)
    requires |s.stops| == |targets| && Enabled(s, step) && RowInv(targets, s)
    ensures RowInv(targets, Do(targets, s, step)) && s.writes <= Do(targets, s, step).writes
  {
    hide RowInv, DoMonitor, DoStop, DoOther;
    if MonitorEnabled(s, step) {
      MonitorRow(targets, s, step);
    } else if StopEnabled(s, step) {
      StopRow(targets, s, step);
    } else {
      OtherRow(targets, s, step);
    }
  }

  /** What the row depends on is as it was. */
  lemma RowSame(targets: seq<Status>, s: State, t: State)
    requires RowInv(targets, s) && t.status == s.status && t.writes == s.writes && t.monitor == s.monitor
    requires t.readAt == s.readAt && t.readOk == s.readOk
    ensures RowInv(targets, t)
  {
    SawKept(s, t);
    hide Saw, StopsOnly, ByStops;
  }

  /** A stop writes its target. */
  lemma RowWritten(targets: seq<Status>, s: State, t: State, i: nat)
    requires RowInv(targets, s) && i < |targets| && t.status == targets[i] && t.monitor == s.monitor
    requires t.writes == s.writes + [Write(ByStop(i), targets[i])] && t.readAt == s.readAt && t.readOk == s.readOk
    ensures RowInv(targets, t) && s.writes <= t.writes
  {
    SawKept(s, t);
    hide Saw;
  }

  lemma StopRow(targets: seq<Status>, s: State, step: Step)
    requires |s.stops| == |targets| && StopEnabled(s, step) && RowInv(targets, s)
    ensures RowInv(targets, DoStop(targets, s, step)) && s.writes <= DoStop(targets, s, step).writes
  {
    hide RowInv;
    if Records(step) {
      RowWritten(targets, s, DoStop(targets, s, step), step.i);
    } else {
      RowSame(targets, s, DoStop(targets, s, step));
    }
  }

  lemma OtherRow(targets: seq<Status>, s: State, step: Step)
    requires OtherEnabled(s, step) && RowInv(targets, s)
    ensures RowInv(targets, DoOther(s, step)) && s.writes <= DoOther(s, step).writes
  {
    hide RowInv;
    RowSame(targets, s, DoOther(s, step));
  }

  lemma ReadRow(targets: seq<Status>, s: State, ok: bool)
    requires s.monitor.HasVerdict? && RowInv(targets, s)
    ensures RowInv(targets, DoMonitor(s, MonitorReads(ok)))
  {
    assert s.writes[..|s.writes|] == s.writes;
    hide ByStops;
  }

  lemma WriteRow(targets: seq<Status>, s: State)
    requires s.monitor.Checked? && !s.monitor.stopped && RowInv(targets, s)
    ensures var t := DoMonitor(s, MonitorWrites(true)); RowInv(targets, t) && s.writes <= t.writes
  {
    SawKept(s, DoMonitor(s, MonitorWrites(true)));
    hide Saw;
  }

  /** The monitor moves on without reading or writing the row. */
  lemma QuietRow(targets: seq<Status>, s: State, t: State)
    requires RowInv(targets, s) && t.status == s.status && t.writes == s.writes
    requires t.readAt == s.readAt && t.readOk == s.readOk && !t.monitor.Checked?
    requires BeforeCheck(t.monitor) == BeforeCheck(s.monitor) && (BeforeWrite(t.monitor) ==> BeforeWrite(s.monitor))
    ensures RowInv(targets, t)
  {
    SawKept(s, t);
    hide Saw, StopsOnly, ByStops;
  }

  lemma MonitorRow(targets: seq<Status>, s: State, step: Step)
    requires MonitorEnabled(s, step) && RowInv(targets, s)
    ensures RowInv(targets, DoMonitor(s, step)) && s.writes <= DoMonitor(s, step).writes
  {
    hide RowInv;
    if step.MonitorReads? {
      ReadRow(targets, s, step.ok);
    } else if step.MonitorWrites? && step.ok && !s.monitor.stopped {
      WriteRow(targets, s);
    } else {
      QuietRow(targets, s, DoMonitor(s, step));
    }
  }

  lemma {:induction false} RowHolds(targets: seq<Status>, steps: seq<Step>)
    requires IsRun(targets, steps)
    ensures RowInv(targets, After(targets, steps).value)
    decreases |steps|
  {
    if steps != [] {
      RowHolds(targets, steps[..|steps| - 1]);
      StepRow(targets, After(targets, steps[..|steps| - 1]).value, steps[|steps| - 1]);
      hide Do, RowInv;
    }
  }

  lemma {:induction false} RunPrefix(targets: seq<Status>, steps: seq<Step>, n: nat)
    requires IsRun(targets, steps) && n <= |steps|
    ensures IsRun(targets, steps[..n])
    decreases |steps|
  {
    if n < |steps| {
      RunPrefix(targets, steps[..|steps| - 1], n);
      assert steps[..|steps| - 1][..n] == steps[..n];
    } else {
      assert steps[..n] == steps;
    }
    hide Do, Enabled;
  }

  lemma RunStep(targets: seq<Status>, steps: seq<Step>, n: nat)
    requires IsRun(targets, steps) && n < |steps|
    ensures IsRun(targets, steps[..n]) && IsRun(targets, steps[..n + 1])
    ensures var s := After(targets, steps[..n]).value;
            Enabled(s, steps[n]) && After(targets, steps[..n + 1]).value == Do(targets, s, steps[n])
  {
    RunPrefix(targets, steps, n);
    RunPrefix(targets, steps, n + 1);
    assert steps[..n + 1][..n] == steps[..n];
    hide Do, Enabled;
  }

  /** No stop request asks for a status that the monitor's check does not respect. */
  ghost predicate Respected(targets: seq<Status>) {
    forall i :: 0 <= i < |targets| ==> targets[i] in {Killed, Completed}
  }

  /** The row holds what the last stop on record asked for. */
  predicate FromLastStop(targets: seq<Status>, s: State) {
    && s.writes != []
    && var last := s.writes[|s.writes| - 1].writer;
       last.ByStop? && last.i < |targets| && s.status == targets[last.i]
  }

  /** A check that finds the process stopped is final: over every run, the monitor never writes, and the row
      holds what the last stop asked for. */
  lemma StopStands(targets: seq<Status>, steps: seq<Step>)
    requires IsRun(targets, steps) && Saw(After(targets, steps).value)
    ensures var s := After(targets, steps).value;
            && StopsOnly(s.writes) && s.writes != []
            && FromLastStop(targets, s)
  {
    hide After, RowInv;
    RowHolds(targets, steps);
    SawMeans(targets, After(targets, steps).value);
  }

  lemma SawMeans(targets: seq<Status>, s: State)
    requires RowInv(targets, s) && Saw(s)
    ensures StopsOnly(s.writes) && FromLastStop(targets, s)
  {
  }

  /** A stop that is recorded before the monitor checks, when the check can read the row, is seen. */
  lemma {:induction false} EarlyStopIsSeen(targets: seq<Status>, steps: seq<Step>, n: nat)
    requires IsRun(targets, steps) && Respected(targets) && n <= |steps|
    requires IsRun(targets, steps[..n])
    requires var s := After(targets, steps[..n]).value; s.writes != [] && s.readAt.None?
    requires var t := After(targets, steps).value; t.readAt.Some? && t.readOk
    ensures Saw(After(targets, steps).value)
    decreases |steps| - n
  {
    hide Do, Enabled, After, Saw, RowInv;
    Whole(steps, n);
    if n < |steps| {
      var s := After(targets, steps[..n]).value;
      RunStep(targets, steps, n);
      RowHolds(targets, steps[..n]);
      StepRow(targets, s, steps[n]);
      StepReads(targets, s, steps[n]);
      if steps[n].MonitorReads? {
        SightKept(targets, steps, n + 1);
      } else {
        EarlyStopIsSeen(targets, steps, n + 1);
      }
    }
  }

  /** Only the monitor's check reads, and it sees a stop that is on record. */
  lemma StepReads(targets: seq<Status>, s: State, step: Step)
    requires |s.stops| == |targets| && Enabled(s, step) && RowInv(targets, s)
    ensures var t := Do(targets, s, step);
            if step.MonitorReads? then
              t.readAt.Some? && (s.writes != [] && t.readOk && Respected(targets) ==> Saw(t))
            else t.readAt == s.readAt && t.readOk == s.readOk
    ensures step.MonitorReads? ==> s.readAt.None?
  {
    if step.MonitorReads? && s.writes != [] {
      assert s.writes[|s.writes| - 1].writer.ByStop?;
      assert s.writes[..|s.writes|] == s.writes;
    }
  }

  lemma Whole(steps: seq<Step>, n: nat)
    requires n <= |steps|
    ensures n == |steps| ==> steps[..n] == steps
  {
  }

  /** What was read stays read. */
  lemma {:induction false} SightKept(targets: seq<Status>, steps: seq<Step>, n: nat)
    requires IsRun(targets, steps) && n <= |steps| && IsRun(targets, steps[..n])
    requires After(targets, steps[..n]).value.readAt.Some?
    ensures var s, t := After(targets, steps[..n]).value, After(targets, steps).value;
            t.readAt == s.readAt && t.readOk == s.readOk && s.writes <= t.writes
    ensures Saw(After(targets, steps).value) == Saw(After(targets, steps[..n]).value)
    decreases |steps| - n
  {
    hide Do, Enabled, After, Saw, RowInv;
    if n == |steps| {
      assert steps[..n] == steps;
    } else {
      var s := After(targets, steps[..n]).value;
      RunStep(targets, steps, n);
      RowHolds(targets, steps[..n]);
      StepRow(targets, s, steps[n]);
      StepReads(targets, s, steps[n]);
      RowGives(targets, s);
      SawKept(s, Do(targets, s, steps[n]));
      SightKept(targets, steps, n + 1);
    }
  }

  lemma RowGives(targets: seq<Status>, s: State)
    requires RowInv(targets, s)
    ensures s.readAt.Some? ==> s.readAt.value <= |s.writes|
  {
  }

  // ---------- What the monitor writes ----------

  /** The watcher reports how the process ended, and the monitor's verdict is what the report says. */
  ghost predicate Honest(s: State) {
    && (s.watcher.Sent? && s.watcher.report.Exit? ==> s.process == Exited(s.watcher.report.success))
    && !s.monitor.Signalled?
    && (s.monitor.HasVerdict? || s.monitor.Checked? ==>
          s.watcher.Sent? && s.monitor.verdict == VerdictOf(s.watcher.report))
    && forall k :: 0 <= k < |s.writes| && s.writes[k].writer.ByMonitor? ==>
         s.watcher.Sent? && s.writes[k].status == VerdictOf(s.watcher.report)
  }

  lemma StepHonest(targets: seq<Status>, s: State, step: Step)
    requires |s.stops| == |targets| && Enabled(s, step) && !step.ExitSignal? && Honest(s)
    ensures Honest(Do(targets, s, step))
  {
  }

  /** Without an exit signal the monitor writes Completed only for a process that ended successfully, and Failed
      only for one that did not, or that the watcher lost. */
  lemma {:induction false} StaysHonest(targets: seq<Status>, steps: seq<Step>)
    requires IsRun(targets, steps) && forall k :: 0 <= k < |steps| ==> !steps[k].ExitSignal?
    ensures Honest(After(targets, steps).value)
    decreases |steps|
  {
    hide Do, Enabled, Honest;
    if steps == [] {
      StartsHonest(targets);
    } else {
      StaysHonest(targets, steps[..|steps| - 1]);
      StepHonest(targets, After(targets, steps[..|steps| - 1]).value, steps[|steps| - 1]);
    }
  }

  lemma StartsHonest(targets: seq<Status>)
    ensures Honest(Start(targets))
  {
  }

  lemma VerdictIsHonest(targets: seq<Status>, steps: seq<Step>)
    requires IsRun(targets, steps) && forall k :: 0 <= k < |steps| ==> !steps[k].ExitSignal?
    ensures var s := After(targets, steps).value;
            && Honest(s)
            && forall k :: 0 <= k < |s.writes| && s.writes[k].writer.ByMonitor? ==>
                 if s.writes[k].status == Completed then s.process == Exited(true)
                 else s.writes[k].status == Failed && (s.process == Exited(false) || s.watcher == Sent(ExitError))
  {
    hide After;
    StaysHonest(targets, steps);
  }


  /** The monitor has killed the process: its verdict, and what it wrote, is "completed". */
  ghost predicate SaysCompleted(s: State) {
    && !s.monitor.Waiting? && !s.monitor.Signalled?
    && (s.monitor.HasVerdict? || s.monitor.Checked? ==> s.monitor.verdict == Completed)
    && forall k :: 0 <= k < |s.writes| && s.writes[k].writer.ByMonitor? ==> s.writes[k].status == Completed
  }

  lemma KillSaysCompleted(targets: seq<Status>, s: State, dies: Option<bool>)
    requires RowInv(targets, s) && MonitorEnabled(s, MonitorKills(dies))
    ensures SaysCompleted(DoMonitor(s, MonitorKills(dies)))
  {
  }

  lemma StaysCompleted(targets: seq<Status>, s: State, step: Step)
    requires |s.stops| == |targets| && Enabled(s, step) && SaysCompleted(s)
    ensures SaysCompleted(Do(targets, s, step))
  {
  }

  /** After an exit signal the monitor kills the process, and whatever the process and the watcher do, the row never
      gets another verdict from it than "completed". */
  lemma {:induction false} SignalCompletes(targets: seq<Status>, steps: seq<Step>, n: nat)
    requires IsRun(targets, steps) && n < |steps| && steps[n].MonitorKills?
    ensures SaysCompleted(After(targets, steps).value)
    decreases |steps|
  {
    hide Do, DoMonitor, SaysCompleted, RowInv;
    var init, step := steps[..|steps| - 1], steps[|steps| - 1];
    var s := After(targets, init).value;
    if n == |steps| - 1 {
      RowHolds(targets, init);
      KillStep(targets, s, step);
    } else {
      SignalCompletes(targets, init, n);
      StaysCompleted(targets, s, step);
    }
  }

  lemma KillStep(targets: seq<Status>, s: State, step: Step)
    requires |s.stops| == |targets| && Enabled(s, step) && RowInv(targets, s) && step.MonitorKills?
    ensures SaysCompleted(Do(targets, s, step))
  {
    hide RowInv, DoMonitor, SaysCompleted;
    KillSaysCompleted(targets, s, step.dies);
  }
  // ---------- When the stop is the cause ----------

  /** Steps that let the monitor learn of an exit that no stop brought about, or keep it from reading. */
  predicate Unprovoked(step: Step) {
    step.ProcessExits? || step.ExitSignal? || step.WatcherFails? || (step.MonitorReads? && !step.ok)
  }

  predicate BeforeRecord(x: Stop) {
    x.Idle? || x.HasChild? || x.Refused? || x.Broken?
  }

  /** Nothing has happened to the process before some stop is on record. */
  ghost predicate Provoked(s: State) {
    && StopsOnly(s.writes)
    && (s.monitor.Checked? ==> s.monitor.stopped)
    && (s.writes == [] ==>
          && s.process.Alive? && s.child && !s.watcher.Sent? && s.monitor.Waiting?
          && forall i :: 0 <= i < |s.stops| ==> BeforeRecord(s.stops[i]))
  }

  lemma StepProvoked(targets: seq<Status>, s: State, step: Step)
    requires |s.stops| == |targets| && Enabled(s, step) && !Unprovoked(step) && Respected(targets)
    requires RowInv(targets, s) && Provoked(s)
    ensures Provoked(Do(targets, s, step))
  {
    if MonitorEnabled(s, step) {
      MonitorProvoked(targets, s, step);
    } else if StopEnabled(s, step) {
      assert s.writes == [] ==> BeforeRecord(s.stops[step.i]);
    }
    hide Saw, RowInv;
  }

  lemma MonitorProvoked(targets: seq<Status>, s: State, step: Step)
    requires |s.stops| == |targets| && MonitorEnabled(s, step) && !Unprovoked(step) && Respected(targets)
    requires RowInv(targets, s) && Provoked(s)
    ensures Provoked(DoMonitor(s, step))
  {
    if step.MonitorReads? {
      assert s.writes != [];
      assert s.writes[|s.writes| - 1].writer.ByStop?;
    }
    hide Saw;
  }

  /** When stops are the only cause of the exit and every check can read the row, the monitor never writes:
      the row says Running, or what the last stop asked for. */
  lemma {:induction false} StopIsTheCause(targets: seq<Status>, steps: seq<Step>)
    requires IsRun(targets, steps) && Respected(targets)
    requires forall k :: 0 <= k < |steps| ==> !Unprovoked(steps[k])
    ensures var s := After(targets, steps).value;
            && Provoked(s) && StopsOnly(s.writes)
            && (if s.writes == [] then s.status == Running else FromLastStop(targets, s))
            && (!s.monitor.Waiting? ==> s.writes != [])
    decreases |steps|
  {
    if steps != [] {
      var init := steps[..|steps| - 1];
      StopIsTheCause(targets, init);
      RowHolds(targets, init);
      StepProvoked(targets, After(targets, init).value, steps[|steps| - 1]);
    }
    RowHolds(targets, steps);
    hide Do, Enabled;
  }

  /** If a stop is on record before the monitor checks, and the check can read the row, the row holds what the
      last stop asked for, whatever follows. */
  lemma EarlyStopStands(targets: seq<Status>, steps: seq<Step>, n: nat)
    requires IsRun(targets, steps) && Respected(targets) && n <= |steps| && IsRun(targets, steps[..n])
    requires var s := After(targets, steps[..n]).value; s.writes != [] && s.readAt.None?
    requires var t := After(targets, steps).value; t.readAt.Some? && t.readOk
    ensures StopsOnly(After(targets, steps).value.writes) && FromLastStop(targets, After(targets, steps).value)
  {
    EarlyStopIsSeen(targets, steps, n);
    StopStands(targets, steps);
  }

  // ---------- Exactly when stops lose ----------

  function MonitorStage(m: Monitor): nat {
    if BeforeCheck(m) then 0 else if m.Checked? then 1 else 2
  }

  lemma StageGrows(targets: seq<Status>, s: State, step: Step)
    requires |s.stops| == |targets| && Enabled(s, step)
    ensures var t := Do(targets, s, step);
            && MonitorStage(s.monitor) <= MonitorStage(t.monitor)
            && (step.MonitorReads? ==> MonitorStage(s.monitor) == 0 && MonitorStage(t.monitor) == 1)
            && (step.MonitorWrites? ==> MonitorStage(s.monitor) == 1 && MonitorStage(t.monitor) == 2)
  {
  }

  lemma {:induction false} StagesOrdered(targets: seq<Status>, steps: seq<Step>, j: nat, k: nat)
    requires IsRun(targets, steps) && j <= k <= |steps|
    ensures IsRun(targets, steps[..j]) && IsRun(targets, steps[..k])
    ensures MonitorStage(After(targets, steps[..j]).value.monitor)
            <= MonitorStage(After(targets, steps[..k]).value.monitor)
    decreases k - j
  {
    hide Do, Enabled, After, MonitorStage;
    RunPrefix(targets, steps, j);
    RunPrefix(targets, steps, k);
    if j < k {
      RunStep(targets, steps, j);
      StageGrows(targets, After(targets, steps[..j]).value, steps[j]);
      StagesOrdered(targets, steps, j + 1, k);
    }
  }

  /** The monitor checks once and writes once, in this order. */
  lemma OnceInOrder(targets: seq<Status>, steps: seq<Step>, j: nat, k: nat)
    requires IsRun(targets, steps) && j < |steps| && k < |steps|
    ensures steps[j].MonitorReads? && steps[k].MonitorReads? ==> j == k
    ensures steps[j].MonitorWrites? && steps[k].MonitorWrites? ==> j == k
    ensures steps[j].MonitorReads? && steps[k].MonitorWrites? ==> j < k
  {
    hide Do, Enabled, After, MonitorStage;
    RunStep(targets, steps, j);
    RunStep(targets, steps, k);
    StageGrows(targets, After(targets, steps[..j]).value, steps[j]);
    StageGrows(targets, After(targets, steps[..k]).value, steps[k]);
    if j < k {
      StagesOrdered(targets, steps, j + 1, k);
    } else if k < j {
      StagesOrdered(targets, steps, k + 1, j);
    }
  }

  /** A stop gets its status on record. */
  predicate Records(step: Step) {
    step.StopRecords? && step.ok
  }

  ghost predicate NoRecord(steps: seq<Step>, from: nat, to: nat) {
    forall c :: from <= c < to && c < |steps| ==> !Records(steps[c])
  }

  ghost predicate LastRecord(steps: seq<Step>, c: nat) {
    c < |steps| && Records(steps[c]) && NoRecord(steps, c + 1, |steps|)
  }

  /** The row updates of some steps, when the monitor's verdict is this and its check keeps it silent or not. */
  function Updates(targets: seq<Status>, steps: seq<Step>, silent: bool, verdict: Status): seq<Write> {
    if steps == [] then []
    else Updates(targets, steps[..|steps| - 1], silent, verdict)
         + UpdateOf(targets, steps[|steps| - 1], silent, verdict)
  }

  function UpdateOf(targets: seq<Status>, step: Step, silent: bool, verdict: Status): seq<Write> {
    if Records(step) && step.i < |targets| then [Write(ByStop(step.i), targets[step.i])]
    else if step.MonitorWrites? && step.ok && !silent then [Write(ByMonitor, verdict)]
    else []
  }

  lemma StepUpdates(targets: seq<Status>, s: State, step: Step)
    requires |s.stops| == |targets| && Enabled(s, step)
    ensures var silent := s.monitor.Checked? && s.monitor.stopped;
            var verdict := if s.monitor.Checked? then s.monitor.verdict else Running;
            Do(targets, s, step).writes == s.writes + UpdateOf(targets, step, silent, verdict)
    ensures Records(step) ==> step.i < |targets|
  {
  }

  /** The updates are those of the steps, with what the check told the write. */
  lemma {:induction false} UpdatesAre(targets: seq<Status>, steps: seq<Step>, w: nat, silent: bool, verdict: Status,
                                      j: nat)
    requires IsRun(targets, steps) && j <= |steps|
    requires w < |steps| && steps[w].MonitorWrites? && IsRun(targets, steps[..w])
    requires After(targets, steps[..w]).value.monitor == Checked(verdict, silent)
    ensures IsRun(targets, steps[..j])
            && After(targets, steps[..j]).value.writes == Updates(targets, steps[..j], silent, verdict)
    decreases j
  {
    hide Do, Enabled, After, UpdateOf;
    RunPrefix(targets, steps, j);
    if j == 0 {
      StartsEmpty(targets, steps);
    } else {
      var k := j - 1;
      UpdatesAre(targets, steps, w, silent, verdict, k);
      RunStep(targets, steps, k);
      OnceInOrder(targets, steps, k, w);
      OneUpdate(targets, After(targets, steps[..k]).value, steps[k], silent, verdict);
      assert steps[..j][..k] == steps[..k] && steps[..j][k] == steps[k];
    }
  }

  lemma OneUpdate(targets: seq<Status>, s: State, step: Step, silent: bool, verdict: Status)
    requires |s.stops| == |targets| && Enabled(s, step)
    requires step.MonitorWrites? ==> s.monitor == Checked(verdict, silent)
    ensures Do(targets, s, step).writes == s.writes + UpdateOf(targets, step, silent, verdict)
  {
    StepUpdates(targets, s, step);
    hide Do, Enabled;
  }

  lemma StartsEmpty(targets: seq<Status>, steps: seq<Step>)
    ensures IsRun(targets, steps[..0]) && After(targets, steps[..0]).value.writes == []
  {
    assert steps[..0] == [];
  }

  /** Some stop is on record exactly when a step recorded one. */
  /** The last write is a stop's exactly when the step records one. */
  lemma OneMoreWrite(targets: seq<Status>, writes: seq<Write>, step: Step, silent: bool, verdict: Status)
    requires Records(step) ==> step.i < |targets|
    requires StopsOnly(writes + UpdateOf(targets, step, silent, verdict))
    ensures StopsOnly(writes) && (UpdateOf(targets, step, silent, verdict) != [] <==> Records(step))
  {
    var more := UpdateOf(targets, step, silent, verdict);
    var all := writes + more;
    assert forall k :: 0 <= k < |writes| ==> all[k] == writes[k];
    assert more != [] ==> all[|writes|] == more[0];
  }

  lemma NoRecordMore(steps: seq<Step>)
    requires steps != []
    ensures NoRecord(steps, 0, |steps|)
       <==> NoRecord(steps[..|steps| - 1], 0, |steps| - 1) && !Records(steps[|steps| - 1])
  {
    var init := steps[..|steps| - 1];
    if NoRecord(steps, 0, |steps|) {
      assert forall c :: 0 <= c < |init| ==> init[c] == steps[c];
    }
  }

  lemma {:induction false} RecordedIff(targets: seq<Status>, steps: seq<Step>)
    requires IsRun(targets, steps) && StopsOnly(After(targets, steps).value.writes)
    ensures After(targets, steps).value.writes == [] <==> NoRecord(steps, 0, |steps|)
    decreases |steps|
  {
    hide Do, Enabled, StopsOnly, UpdateOf, NoRecord;
    if steps != [] {
      var init, step := steps[..|steps| - 1], steps[|steps| - 1];
      var s := After(targets, init).value;
      StepUpdates(targets, s, step);
      var silent := s.monitor.Checked? && s.monitor.stopped;
      OneMoreWrite(targets, s.writes, step, silent, if s.monitor.Checked? then s.monitor.verdict else Running);
      RecordedIff(targets, init);
      NoRecordMore(steps);
    } else {
      NothingRecorded();
    }
  }

  lemma NothingRecorded()
    ensures NoRecord([], 0, 0)
  {
  }

  /** The check keeps the monitor silent exactly when it could read the row and a stop was on record. */
  lemma CheckReports(targets: seq<Status>, steps: seq<Step>, r: nat, w: nat)
    requires IsRun(targets, steps) && Respected(targets)
    requires r < w < |steps| && steps[r].MonitorReads? && steps[w].MonitorWrites?
    ensures IsRun(targets, steps[..w]) && After(targets, steps[..w]).value.monitor.Checked?
    ensures After(targets, steps[..w]).value.monitor.stopped == (steps[r].ok && !NoRecord(steps, 0, r))
  {
    hide Do, Enabled, After, RowInv, Saw;
    RunStep(targets, steps, r);
    RunStep(targets, steps, w);
    var s := After(targets, steps[..r]).value;
    RowHolds(targets, steps[..r]);
    WriteIsChecked(After(targets, steps[..w]).value, steps[w]);
    CheckSees(targets, s, steps[r]);
    if StopsOnly(s.writes) {
      RecordedIff(targets, steps[..r]);
      PrefixRecords(steps, r);
    }
    assert steps[..w][..r + 1] == steps[..r + 1];
    SightKept(targets, steps[..w], r + 1);
    RowHolds(targets, steps[..w]);
    RowChecked(targets, After(targets, steps[..w]).value);
  }

  lemma PrefixRecords(steps: seq<Step>, r: nat)
    requires r <= |steps|
    ensures NoRecord(steps[..r], 0, r) <==> NoRecord(steps, 0, r)
  {
    assert forall c :: 0 <= c < r ==> steps[..r][c] == steps[c];
  }

  lemma WriteIsChecked(s: State, step: Step)
    requires Enabled(s, step) && step.MonitorWrites?
    ensures s.monitor.Checked?
  {
  }

  lemma CheckSees(targets: seq<Status>, s: State, step: Step)
    requires |s.stops| == |targets| && Enabled(s, step) && step.MonitorReads? && RowInv(targets, s)
             && Respected(targets)
    ensures var t := Do(targets, s, step);
            t.readAt.Some? && (Saw(t) <==> step.ok && s.writes != []) && StopsOnly(s.writes)
  {
    assert s.writes[..|s.writes|] == s.writes;
    assert s.writes != [] ==> s.writes[|s.writes| - 1].writer.ByStop?;
  }

  lemma RowChecked(targets: seq<Status>, s: State)
    requires RowInv(targets, s) && s.monitor.Checked?
    ensures s.monitor.stopped == Saw(s)
  {
  }

  predicate MonitorSpeaks(steps: seq<Step>, w: nat, silent: bool) {
    w < |steps| && steps[w].MonitorWrites? && steps[w].ok && !silent
  }

  /** The last of the updates is the monitor's if it speaks after the last record, and otherwise that of the last
      record. */
  ghost predicate LastIs(targets: seq<Status>, steps: seq<Step>, w: nat, silent: bool, verdict: Status,
                         us: seq<Write>)
  {
    if MonitorSpeaks(steps, w, silent) && NoRecord(steps, w + 1, |steps|) then
      us != [] && us[|us| - 1] == Write(ByMonitor, verdict)
    else
      && (NoRecord(steps, 0, |steps|) ==> us == [])
      && forall c: nat :: LastRecord(steps, c) ==>
           steps[c].i < |targets| && us != [] && us[|us| - 1] == Write(ByStop(steps[c].i), targets[steps[c].i])
  }

  lemma RecordComesLast(targets: seq<Status>, init: seq<Step>, step: Step, w: nat, silent: bool, verdict: Status,
                        us: seq<Write>)
    requires Records(step) && step.i < |targets|
    ensures LastIs(targets, init + [step], w, silent, verdict, us + [Write(ByStop(step.i), targets[step.i])])
  {
    var steps, n := init + [step], |init|;
    assert Records(steps[n]);
    assert forall c: nat :: LastRecord(steps, c) ==> c == n;
  }

  lemma OtherComesLast(targets: seq<Status>, init: seq<Step>, step: Step, w: nat, silent: bool, verdict: Status,
                       us: seq<Write>)
    requires !Records(step) && LastIs(targets, init, w, silent, verdict, us) && (step.MonitorWrites? ==> w == |init|)
    requires w == |init| ==> !step.MonitorWrites? || !step.ok || silent
    ensures LastIs(targets, init + [step], w, silent, verdict, us)
  {
    var steps := init + [step];
    assert forall c :: 0 <= c < |init| ==> steps[c] == init[c];
    assert steps[|init|] == step;
    assert forall c: nat :: LastRecord(steps, c) ==> LastRecord(init, c);
  }

  /** The last update decides. */
  lemma {:induction false} LastUpdate(targets: seq<Status>, steps: seq<Step>, w: nat, silent: bool, verdict: Status)
    requires forall k :: 0 <= k < |steps| && steps[k].MonitorWrites? ==> k == w
    requires forall k :: 0 <= k < |steps| && Records(steps[k]) ==> steps[k].i < |targets|
    ensures LastIs(targets, steps, w, silent, verdict, Updates(targets, steps, silent, verdict))
    decreases |steps|
  {
    if steps != [] {
      hide LastIs;
      var n := |steps| - 1;
      var init, step := steps[..n], steps[n];
      var us := Updates(targets, init, silent, verdict);
      LastUpdate(targets, init, w, silent, verdict);
      assert init + [step] == steps && us + [] == us;
      if Records(step) {
        RecordComesLast(targets, init, step, w, silent, verdict, us);
      } else if step.MonitorWrites? && step.ok && !silent {
        MonitorComesLast(targets, init, step, silent, verdict, us);
      } else {
        OtherComesLast(targets, init, step, w, silent, verdict, us);
      }
    }
  }

  lemma MonitorComesLast(targets: seq<Status>, init: seq<Step>, step: Step, silent: bool, verdict: Status,
                         us: seq<Write>)
    requires step.MonitorWrites? && step.ok && !silent
    ensures LastIs(targets, init + [step], |init|, silent, verdict, us + [Write(ByMonitor, verdict)])
  {
  }

  lemma {:induction false} RecordsAreOfStops(targets: seq<Status>, steps: seq<Step>, k: nat)
    requires IsRun(targets, steps) && k < |steps| && Records(steps[k])
    ensures steps[k].i < |targets|
  {
    RunStep(targets, steps, k);
    hide After, Do;
  }

  /** Any number of stops against the monitor, with failures: the row ends up with the monitor's verdict if and only
      if its write succeeds, its check failed or came before every record, and no stop is recorded after the write.
      Otherwise the row holds what the last stop on record asked for, or still says Running. So a stop is lost
      exactly when it is recorded between the check and the write, with none before and none after. */
  lemma RaceDecides(targets: seq<Status>, steps: seq<Step>, r: nat, w: nat)
    requires IsRun(targets, steps) && Respected(targets)
    requires r < |steps| && w < |steps| && steps[r].MonitorReads? && steps[w].MonitorWrites?
    ensures IsRun(targets, steps[..w]) && After(targets, steps[..w]).value.monitor.Checked?
    ensures var s, verdict := After(targets, steps).value, After(targets, steps[..w]).value.monitor.verdict;
            if steps[w].ok && (!steps[r].ok || NoRecord(steps, 0, r)) && NoRecord(steps, w + 1, |steps|) then
              s.status == verdict && s.writes != [] && s.writes[|s.writes| - 1].writer.ByMonitor?
            else
              && (NoRecord(steps, 0, |steps|) ==> s.status == Running)
              && forall c: nat :: LastRecord(steps, c) ==> steps[c].i < |targets| && s.status == targets[steps[c].i]
  {
    hide After, Do, Enabled, Updates;
    OnceInOrder(targets, steps, r, w);
    CheckReports(targets, steps, r, w);
    var m := After(targets, steps[..w]).value.monitor;
    UpdatesAre(targets, steps, w, m.stopped, m.verdict, |steps|);
    assert steps[..|steps|] == steps;
    forall k | 0 <= k < |steps|
      ensures steps[k].MonitorWrites? ==> k == w
      ensures Records(steps[k]) ==> steps[k].i < |targets|
    {
      OnceInOrder(targets, steps, k, w);
      if Records(steps[k]) { RecordsAreOfStops(targets, steps, k); }
    }
    LastUpdate(targets, steps, w, m.stopped, m.verdict);
    RowHolds(targets, steps);
    RowIsLast(targets, After(targets, steps).value);
    hide RowInv;
  }

  lemma RowIsLast(targets: seq<Status>, s: State)
    requires RowInv(targets, s)
    ensures s.status == StatusAfter(s.writes)
  {
  }

  const LOST: seq<Step> :=
    [ProcessExits(true), WatcherGets, WatcherWaits, MonitorHears, StopFinds(0), MonitorReads(true),
                            StopRecords(0, true), MonitorWrites(true)]

  /** The process has ended by itself, the monitor knows, and the stop has found the child. */
  const BOTH_READY := State(Exited(true), Running, true, true, 0, Sent(Exit(true)), HasVerdict(Completed), [HasChild],
                            [], None, false)

  lemma Readied()
    ensures After([Killed], LOST[..5]) == Some(BOTH_READY)
  {
    Heard();
    hide After;
    Next([Killed], LOST, 4);
    assert [Idle][0 := HasChild] == [HasChild];
  }

  lemma Heard()
    ensures After([Killed], LOST[..4]) == Some(BOTH_READY.(stops := [Idle]))
  {
    Watched();
    hide After;
    Next([Killed], LOST, 2);
    Next([Killed], LOST, 3);
  }

  lemma Watched()
    ensures After([Killed], LOST[..2])
         == Some(State(Exited(true), Running, true, true, 0, Holding, Waiting, [Idle], [], None, false))
  {
    assert LOST[..0] == [] && Start([Killed]).stops == [Idle];
    assert After([Killed], LOST[..0]).value
           == State(Alive, Running, true, true, 0, Polling, Waiting, [Idle], [], None, false);
    hide After;
    Next([Killed], LOST, 0);
    Next([Killed], LOST, 1);
  }

  /** The race is real: the stop comes between check and write, and is lost. */
  lemma StopCanLose()
    ensures IsRun([Killed], LOST) && LastRecord(LOST, 6) && After([Killed], LOST).value.status == Completed
  {
    Readied();
    hide After;
    Next([Killed], LOST, 5);
    Next([Killed], LOST, 6);
    Next([Killed], LOST, 7);
    assert LOST[..8] == LOST;
  }

  lemma Next(targets: seq<Status>, steps: seq<Step>, n: nat)
    requires n < |steps| && IsRun(targets, steps[..n]) && Enabled(After(targets, steps[..n]).value, steps[n])
    ensures After(targets, steps[..n + 1]) == Some(Do(targets, After(targets, steps[..n]).value, steps[n]))
  {
    assert steps[..n + 1][..n] == steps[..n];
  }
}
