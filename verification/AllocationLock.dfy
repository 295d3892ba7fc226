/** The end-to-end tests' allocation lock: any number of processes over three kinds of files, with file-system
    errors, crashes and an operator who removes the files of a dead owner. One step is one file-system call. */
module AllocationLock {
  type Pid = nat

  type Token = nat

  datatype Option<+T> = None | Some(value: T)

  /** The metadata file; leftovers from before may be malformed. */
  datatype Metadata = Absent | Malformed | Owner(token: Token)

  /** Where a call of `acquireAllocationLock`, and then its `release`, stands. */
  datatype Phase =
    | Waiting      // trying to create the lock file
    | Created      // the lock file is ours; stale metadata goes next
    | Cleared      // no metadata; the temporary file goes next
    | Opened       // the temporary file exists, empty
    | Wrote        // the temporary file names us
    | Failing      // an error was caught; the lock file goes next
    | Failed       // unlinked after an error; the temporary file may be left
    | Held         // published, and returned to the caller
    | Confirmed    // `release` has read our token
    | Unpublished  // `release` has removed the metadata
    | Done
    | Abandoned    // an error in cleaning up left the lock file behind
    | Crashed

  datatype Process = Process(phase: Phase, token: Token)

  datatype State = State(
    lock: Option<Pid>, metadata: Metadata, temporary: map<Token, Option<Token>>,
    processes: map<Pid, Process>, used: set<Token>, cleaning: bool)

  datatype Event =
    | Create(p: Pid, token: Token)
    | GiveUp(p: Pid)
    | RemoveStale(p: Pid)
    | OpenTemporary(p: Pid)
    | WriteTemporary(p: Pid)
    | Publish(p: Pid)
    | Error(p: Pid)
    | UnlinkAfterError(p: Pid)
    | Tidy(p: Pid)
    | Confirm(p: Pid)
    | RemoveMetadata(p: Pid)
    | Unlink(p: Pid)
    | CleanupError(p: Pid)
    | Crash(p: Pid)
    | OperatorRemovesMetadata
    | OperatorUnlinks

  /** Between a successful create and the unlink. */
  predicate Owning(phase: Phase) {
    phase.Created? || phase.Cleared? || phase.Opened? || phase.Wrote? || phase.Failing? || phase.Held? ||
    phase.Confirmed? || phase.Unpublished?
  }

  /** Will never touch the lock file or the metadata again. */
  predicate Dead(s: State, p: Pid) {
    p in s.processes && (s.processes[p].phase.Abandoned? || s.processes[p].phase.Crashed?)
  }

  predicate In(s: State, p: Pid, phase: Phase) {
    p in s.processes && s.processes[p].phase == phase
  }

  predicate Enabled(s: State, e: Event) {
    match e
    case Create(p, token) => In(s, p, Waiting) && s.lock.None? && token !in s.used
    case GiveUp(p) => In(s, p, Waiting)
    case RemoveStale(p) => In(s, p, Created)
    case OpenTemporary(p) => In(s, p, Cleared) && s.processes[p].token !in s.temporary
    case WriteTemporary(p) => In(s, p, Opened) && s.processes[p].token in s.temporary
    case Publish(p) => In(s, p, Wrote) && s.processes[p].token in s.temporary
    case Error(p) => In(s, p, Created) || In(s, p, Cleared) || In(s, p, Opened) || In(s, p, Wrote)
    case UnlinkAfterError(p) => In(s, p, Failing)
    case Tidy(p) => In(s, p, Failed) || In(s, p, Abandoned)
    case Confirm(p) => In(s, p, Held)
    case RemoveMetadata(p) => In(s, p, Confirmed)
    case Unlink(p) => In(s, p, Unpublished)
    case CleanupError(p) => In(s, p, Failing) || In(s, p, Held) || In(s, p, Confirmed) || In(s, p, Unpublished)
    case Crash(p) => p in s.processes && !s.processes[p].phase.Done?
    case OperatorRemovesMetadata =>
      !s.cleaning && s.lock.Some? && Dead(s, s.lock.value)
    case OperatorUnlinks => s.cleaning
  }

  function Moved(s: State, p: Pid, phase: Phase): State
    requires p in s.processes
  {
    s.(processes := s.processes[p := s.processes[p].(phase := phase)])
  }

  /** What the metadata says when a process renames its temporary file over it. */
  function Renamed(contents: Option<Token>): Metadata {
    if contents.Some? then Owner(contents.value) else Malformed
  }

  function Apply(s: State, e: Event): State
    requires Enabled(s, e)
  {
    match e
    case Create(p, token) =>
      s.(lock := Some(p), used := s.used + {token}, processes := s.processes[p := Process(Created, token)])
    case GiveUp(p) => Moved(s, p, Done)
    case RemoveStale(p) => Moved(s, p, Cleared).(metadata := Absent)
    case OpenTemporary(p) => Moved(s, p, Opened).(temporary := s.temporary[s.processes[p].token := None])
    case WriteTemporary(p) =>
      Moved(s, p, Wrote).(temporary := s.temporary[s.processes[p].token := Some(s.processes[p].token)])
    case Publish(p) =>
      var token := s.processes[p].token;
      Moved(s, p, Held).(metadata := Renamed(s.temporary[token]), temporary := s.temporary - {token})
    case Error(p) => Moved(s, p, Failing)
    case UnlinkAfterError(p) => Moved(s, p, Failed).(lock := None)
    case Tidy(p) =>
      var t := Moved(s, p, if s.processes[p].phase.Failed? then Done else Abandoned);
      t.(temporary := s.temporary - {s.processes[p].token})
    case Confirm(p) => Moved(s, p, if s.metadata == Owner(s.processes[p].token) then Confirmed else Done)
    case RemoveMetadata(p) => Moved(s, p, Unpublished).(metadata := Absent)
    case Unlink(p) => Moved(s, p, Done).(lock := None)
    case CleanupError(p) => Moved(s, p, Abandoned)
    case Crash(p) => Moved(s, p, Crashed)
    case OperatorRemovesMetadata => s.(metadata := Absent, cleaning := true)
    case OperatorUnlinks => s.(lock := None, cleaning := false)
  }

  /** No lock file, everybody waiting; metadata and temporary files may be left over under earlier tokens. */
  predicate Start(s: State) {
    && s.lock.None? && !s.cleaning
    && (forall p | p in s.processes :: s.processes[p].phase.Waiting?)
    && (s.metadata.Owner? ==> s.metadata.token in s.used)
    && (forall token | token in s.temporary :: token in s.used)
  }

  // ---- The invariant ----

  predicate OwnerOK(s: State, p: Pid)
    requires p in s.processes
  {
    var phase, token := s.processes[p].phase, s.processes[p].token;
    && (Owning(phase) ==> s.lock == Some(p) && token in s.used)
    && (phase.Failed? || phase.Abandoned? ==> token in s.used)
    && (phase.Cleared? || phase.Opened? || phase.Wrote? || phase.Unpublished? ==> s.metadata.Absent?)
    && (phase.Created? || phase.Cleared? ==> token !in s.temporary)
    && (phase.Opened? ==> token in s.temporary)
    && (phase.Wrote? ==> token in s.temporary && s.temporary[token] == Some(token))
    && (phase.Held? || phase.Confirmed? ==> s.metadata == Owner(token))
  }

  ghost predicate Inv(s: State) {
    && (forall p | p in s.processes :: OwnerOK(s, p))
    && (s.lock.Some? ==>
          s.lock.value in s.processes && (Owning(s.processes[s.lock.value].phase) || Dead(s, s.lock.value)))
    && (s.cleaning ==> s.lock.Some? && Dead(s, s.lock.value))
    && (forall token | token in s.temporary :: token in s.used)
    && TokensDiffer(s)
  }

  /** Random tokens never repeat. */
  ghost predicate TokensDiffer(s: State) {
    forall p, q | p in s.processes && q in s.processes && p != q && Drawn(s, p) && Drawn(s, q) ::
      s.processes[p].token != s.processes[q].token
  }

  predicate Drawn(s: State, p: Pid) {
    && p in s.processes
    && (Owning(s.processes[p].phase) || s.processes[p].phase.Failed? || s.processes[p].phase.Abandoned?)
  }

  lemma StartInv(s: State)
    requires Start(s)
    ensures Inv(s)
  {
  }

  predicate ByOperator(e: Event) {
    e.OperatorRemovesMetadata? || e.OperatorUnlinks?
  }

  /** The process that takes the step. */
  lemma StepOwnOwner(s: State, e: Event)
    requires Inv(s) && Enabled(s, e) && !ByOperator(e)
    ensures OwnerOK(Apply(s, e), e.p)
  {
    hide TokensDiffer;
    assert OwnerOK(s, e.p);
  }

  /** Any other process, whose token differs. */
  lemma StepOtherOwner(s: State, e: Event, p: Pid)
    requires Enabled(s, e) && !ByOperator(e) && e.p in s.processes && p in s.processes && p != e.p
    requires OwnerOK(s, p) && OwnerOK(s, e.p)
    requires Drawn(s, p) && Drawn(s, e.p) ==> s.processes[p].token != s.processes[e.p].token
    ensures OwnerOK(Apply(s, e), p)
  {
  }

  lemma OperatorOwner(s: State, e: Event, p: Pid)
    requires Inv(s) && Enabled(s, e) && ByOperator(e) && p in s.processes
    ensures OwnerOK(Apply(s, e), p)
  {
    hide TokensDiffer;
    assert OwnerOK(s, p);
  }

  lemma StepOwner(s: State, e: Event, p: Pid)
    requires Inv(s) && Enabled(s, e) && p in s.processes
    ensures OwnerOK(Apply(s, e), p)
  {
    hide OwnerOK, Apply, Owning, Dead;
    if ByOperator(e) {
      OperatorOwner(s, e, p);
    } else if e.p == p {
      StepOwnOwner(s, e);
    } else {
      EventProcess(s, e);
      assert OwnerOK(s, p) && OwnerOK(s, e.p);
      assert Drawn(s, p) && Drawn(s, e.p) ==> s.processes[p].token != s.processes[e.p].token;
      StepOtherOwner(s, e, p);
    }
  }

  lemma EventProcess(s: State, e: Event)
    requires Enabled(s, e) && !ByOperator(e)
    ensures e.p in s.processes
  {
  }

  lemma DrawnUsed(s: State, p: Pid)
    requires Inv(s) && Drawn(s, p)
    ensures s.processes[p].token in s.used
  {
    assert OwnerOK(s, p);
  }

  /** A process has its token from before, or draws it in this step. */
  lemma DrawnBefore(s: State, e: Event, p: Pid)
    requires Enabled(s, e) && Drawn(Apply(s, e), p)
    ensures p in s.processes
    ensures var token := Apply(s, e).processes[p].token;
      || (Drawn(s, p) && token == s.processes[p].token)
      || (e.Create? && e.p == p && token == e.token && token !in s.used)
  {
  }

  lemma StepTokens(s: State, e: Event)
    requires Inv(s) && Enabled(s, e)
    ensures TokensDiffer(Apply(s, e))
  {
    hide OwnerOK, Apply, Drawn;
    var t := Apply(s, e);
    forall p, q | p in t.processes && q in t.processes && p != q && Drawn(t, p) && Drawn(t, q)
      ensures t.processes[p].token != t.processes[q].token
    {
      DrawnBefore(s, e, p);
      DrawnBefore(s, e, q);
      if Drawn(s, p) { DrawnUsed(s, p); }
      if Drawn(s, q) { DrawnUsed(s, q); }
    }
  }

  lemma {:induction false} StepInv(s: State, e: Event)
    requires Inv(s) && Enabled(s, e)
    ensures Inv(Apply(s, e))
  {
    hide OwnerOK, TokensDiffer;
    var t := Apply(s, e);
    assert t.processes.Keys == s.processes.Keys;
    forall p | p in t.processes ensures OwnerOK(t, p) {
      StepOwner(s, e, p);
    }
    StepTokens(s, e);
    StepLock(s, e);
    StepCleaning(s, e);
    StepTemporary(s, e);
  }

  lemma StepLock(s: State, e: Event)
    requires Inv(s) && Enabled(s, e)
    ensures var t := Apply(s, e);
      t.lock.Some? ==>
        t.lock.value in t.processes && (Owning(t.processes[t.lock.value].phase) || Dead(t, t.lock.value))
  {
    hide TokensDiffer;
    if !ByOperator(e) && e.p in s.processes {
      assert OwnerOK(s, e.p);
    }
  }

  lemma StepCleaning(s: State, e: Event)
    requires Inv(s) && Enabled(s, e)
    ensures var t := Apply(s, e); t.cleaning ==> t.lock.Some? && Dead(t, t.lock.value)
  {
    hide TokensDiffer;
    if !ByOperator(e) && e.p in s.processes {
      assert OwnerOK(s, e.p);
    }
  }

  lemma StepTemporary(s: State, e: Event)
    requires Inv(s) && Enabled(s, e)
    ensures forall token | token in Apply(s, e).temporary :: token in Apply(s, e).used
  {
    hide TokensDiffer, Dead;
    if !ByOperator(e) && e.p in s.processes {
      assert OwnerOK(s, e.p);
    }
  }

  // ---- Runs ----

  ghost predicate StepAt(run: seq<State>, events: seq<Event>, i: nat)
    requires i < |events| && |run| == |events| + 1
  {
    Enabled(run[i], events[i]) && run[i + 1] == Apply(run[i], events[i])
  }

  ghost predicate IsRun(run: seq<State>, events: seq<Event>) {
    && |run| == |events| + 1 && Start(run[0])
    && forall i | 0 <= i < |events| :: StepAt(run, events, i)
  }

  lemma {:induction false} RunInv(run: seq<State>, events: seq<Event>, i: nat)
    requires IsRun(run, events) && i < |run|
    ensures Inv(run[i])
  {
    if i == 0 {
      StartInv(run[0]);
    } else {
      RunInv(run, events, i - 1);
      assert StepAt(run, events, i - 1);
      StepInv(run[i - 1], events[i - 1]);
    }
  }

  /** At most one process is ever between its successful create and its unlink. */
  lemma MutualExclusion(run: seq<State>, events: seq<Event>, i: nat, p: Pid, q: Pid)
    requires IsRun(run, events) && i < |run|
    requires p in run[i].processes && q in run[i].processes
    requires Owning(run[i].processes[p].phase) && Owning(run[i].processes[q].phase)
    ensures p == q && run[i].lock == Some(p)
  {
    RunInv(run, events, i);
    assert OwnerOK(run[i], p) && OwnerOK(run[i], q);
  }

  /** While a process holds the lock, the published metadata is complete and carries its token. */
  lemma PublishedTokenIsHolders(run: seq<State>, events: seq<Event>, i: nat, p: Pid)
    requires IsRun(run, events) && i < |run| && In(run[i], p, Held)
    ensures run[i].metadata == Owner(run[i].processes[p].token) && run[i].lock == Some(p)
    ensures forall q | q != p && Drawn(run[i], q) :: run[i].processes[q].token != run[i].processes[p].token
  {
    RunInv(run, events, i);
    assert OwnerOK(run[i], p);
    assert Drawn(run[i], p);
  }

  predicate Unlinks(e: Event, p: Pid) {
    e == Unlink(p) || e == UnlinkAfterError(p)
  }

  /** The lock file only disappears by its owner's hand, or by the operator's once the owner is dead. */
  lemma OnlyOwnerUnlinks(run: seq<State>, events: seq<Event>, i: nat, p: Pid)
    requires IsRun(run, events) && i < |events| && run[i].lock == Some(p) && run[i + 1].lock != Some(p)
    ensures run[i + 1].lock.None?
    ensures Unlinks(events[i], p) || (events[i].OperatorUnlinks? && Dead(run[i], p))
  {
    RunInv(run, events, i);
    assert StepAt(run, events, i);
    var e := events[i];
    if e.Unlink? || e.UnlinkAfterError? {
      assert OwnerOK(run[i], e.p);
    }
  }

  /** Two owners in a row: before the second creates the file, the first has unlinked it or has died. */
  lemma {:induction false} HandoverNeedsUnlink(run: seq<State>, events: seq<Event>, i: nat, j: nat, p: Pid, q: Pid)
    returns (k: nat)
    requires IsRun(run, events) && i <= j < |run| && p != q
    requires run[i].lock == Some(p) && run[j].lock == Some(q)
    ensures i <= k < j && run[k].lock == Some(p) && run[k + 1].lock.None?
    ensures Unlinks(events[k], p) || (events[k].OperatorUnlinks? && Dead(run[k], p))
    decreases j - i
  {
    if run[i + 1].lock == Some(p) {
      k := HandoverNeedsUnlink(run, events, i + 1, j, p, q);
    } else {
      OnlyOwnerUnlinks(run, events, i, p);
      k := i;
    }
  }

  /** `release` without file-system errors: the token check succeeds and both files are gone afterwards. */
  lemma CleanRelease(run: seq<State>, events: seq<Event>, i: nat, p: Pid)
    requires IsRun(run, events) && i < |events|
    ensures events[i] == Confirm(p) ==> In(run[i + 1], p, Confirmed)
    ensures events[i] == Unlink(p) ==> run[i + 1].lock.None? && run[i + 1].metadata.Absent? && In(run[i + 1], p, Done)
  {
    RunInv(run, events, i);
    assert StepAt(run, events, i);
    if events[i] == Confirm(p) || events[i] == Unlink(p) {
      assert OwnerOK(run[i], p);
    }
  }

  /** While a process owns the lock, nobody else changes the lock file or the metadata. */
  lemma OwnedFilesAreLeftAlone(run: seq<State>, events: seq<Event>, i: nat, p: Pid)
    requires IsRun(run, events) && i < |events| && p in run[i].processes && Owning(run[i].processes[p].phase)
    requires run[i + 1].lock != run[i].lock || run[i + 1].metadata != run[i].metadata
    ensures !events[i].OperatorRemovesMetadata? && !events[i].OperatorUnlinks? && events[i].p == p
  {
    RunInv(run, events, i);
    assert StepAt(run, events, i);
    assert OwnerOK(run[i], p);
    var e := events[i];
    if !e.OperatorRemovesMetadata? && !e.OperatorUnlinks? && e.p in run[i].processes {
      assert OwnerOK(run[i], e.p);
    }
  }

  /** No process revives, and no other takes the lock of a dead owner. */
  lemma DeadOwnerStep(run: seq<State>, events: seq<Event>, i: nat, p: Pid)
    requires IsRun(run, events) && i < |events| && run[i].lock == Some(p) && Dead(run[i], p)
    requires !events[i].OperatorUnlinks?
    ensures run[i + 1].lock == Some(p) && Dead(run[i + 1], p)
  {
    RunInv(run, events, i);
    assert StepAt(run, events, i);
    if run[i + 1].lock != Some(p) {
      OnlyOwnerUnlinks(run, events, i, p);
    }
  }

  /** A lock whose owner died stays, with its owner, for as long as the operator does not remove it; in particular
      nobody else acquires it. */
  lemma {:induction false} DeadOwnerKeepsLock(run: seq<State>, events: seq<Event>, i: nat, j: nat, p: Pid)
    requires IsRun(run, events) && i <= j < |run| && run[i].lock == Some(p) && Dead(run[i], p)
    requires forall k | i <= k < j :: !events[k].OperatorUnlinks?
    ensures run[j].lock == Some(p) && Dead(run[j], p)
    ensures forall q | q in run[j].processes && Owning(run[j].processes[q].phase) :: q == p
    decreases j
  {
    hide IsRun, Dead;
    RunLength(run, events);
    if i < j {
      DeadOwnerKeepsLock(run, events, i, j - 1, p);
      DeadOwnerStep(run, events, j - 1, p);
    }
    NoOtherOwner(run, events, j, p);
  }

  lemma RunLength(run: seq<State>, events: seq<Event>)
    requires IsRun(run, events)
    ensures |run| == |events| + 1
  {
  }

  lemma NoOtherOwner(run: seq<State>, events: seq<Event>, j: nat, p: Pid)
    requires IsRun(run, events) && j < |run| && run[j].lock == Some(p)
    ensures forall q | q in run[j].processes && Owning(run[j].processes[q].phase) :: q == p
  {
    RunInv(run, events, j);
    forall q | q in run[j].processes && Owning(run[j].processes[q].phase) ensures q == p {
      assert OwnerOK(run[j], q);
    }
  }
}
