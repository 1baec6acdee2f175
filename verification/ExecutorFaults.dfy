/**
 Work and its Runs when store calls raise and processes die in the middle of an operation:
 which clauses of the coupling survive, and which faults end in FAILED Work with an active Run.
 */
module ExecutorFaults {
  import opened Common
  import opened Lifecycle
  import opened Executor

  // ---------------------------------------------------------------------------
  // The invariant of all runs, with faults and without
  // ---------------------------------------------------------------------------

  /** At most one Run is active. */
  ghost predicate One(row: Row) { Quiet(row) || exists r :: r in row.runs && Only(row, r, row.runs[r].status) }

  /** RUNNING Work in the hands of whoever claimed it, or dropped by it. */
  ghost predicate Held(row: Row, o: Owner) {
    match o
    case Idle => One(row) && (row.leased ==> row.runs == map[])
    case FailedRun => One(row)
    case FailingWork(revision) => One(row) && row.revision == revision
    case _ => OwnedInv(row, o)
  }

  ghost predicate StatusOk(c: Cell) {
    match c.row.status
    case WorkPending => c.row.runs == map[] && c.owner == Idle && c.resumes == map[] && !c.row.leased
    case WorkRunning =>
      || (c.resumes == map[] && Held(c.row, c.owner) && (c.row.leased ==> c.owner.Idle?))
      || (!c.row.leased && Leaving(c.row, c.owner) && exists r :: Only(c.row, r, RunStarting))
    case WorkWaiting => !c.row.leased && Leaving(c.row, c.owner) && One(c.row)
    case WorkSucceeded => !c.row.leased && c.owner == Idle && c.resumes == map[] && Quiet(c.row) && c.row.evidence
    case WorkFailed => !c.row.leased && c.owner == Idle && c.resumes == map[] && One(c.row)
    case _ => false
  }

  ghost predicate Safe(c: Cell) {
    && StatusOk(c)
    && (forall t :: t in c.resumes ==> ResumeInv(c.row, c.resumes[t]))
    && SoleCanceller(c.resumes) && SoleReviver(c.resumes)
  }

  lemma {:induction false} HasOne(c: Cell)
    requires Safe(c)
    ensures One(c.row)
  {
    hide Active, Leaving, ResumeInv;
    if c.row.runs == map[] {
      NoRuns(c.row);
    }
  }

  lemma {:induction false} HeldStep(c: Cell, newId: Id, verdict: Verdict)
    requires Safe(c) && c.row.status == WorkRunning && c.resumes == map[] && Held(c.row, c.owner) && !c.row.leased
    ensures Safe(Next(c, Own(newId, verdict)))
  {
    hide Active;
    var row := c.row;
    match c.owner {
      case Claimed(_) =>
        NoRuns(row);
        if newId !in row.runs {
          Opened(row, newId);
        }
      case Starting(_, run, revision) => Moved(row, run, RunStarting, RunRunning);
      case FailingRun(_, run, revision) => Moved(row, run, RunRunning, RunFailed);
      case SucceedingRun(_, run, revision) => Moved(row, run, RunRunning, RunSucceeded);
      case ParkingWork(run, revision) => SameRuns(row, Next(c, Own(newId, verdict)).row);
      case FailingWork(_) => SameRuns(row, Next(c, Own(newId, verdict)).row);
      case SucceedingWork(_) => SameRuns(row, Next(c, Own(newId, verdict)).row);
      case _ =>
    }
  }

  lemma {:induction false} LeavingStepIsSafe(c: Cell, newId: Id, verdict: Verdict)
    requires Safe(c) && !c.row.leased && Leaving(c.row, c.owner)
    requires c.row.status == WorkWaiting || (c.row.status == WorkRunning && exists r :: Only(c.row, r, RunStarting))
    ensures Safe(Next(c, Own(newId, verdict)))
  {
    hide Active;
    var next := Next(c, Own(newId, verdict));
    if c.owner.ParkingRun? && next.row != c.row {
      var r := c.owner.run;
      ActiveIn(c.row, r);
      HasOne(c);
      Moved(c.row, r, RunRunning, RunWaiting);
      assert Only(next.row, r, RunWaiting);
      forall t | t in next.resumes
        ensures ResumeInv(next.row, next.resumes[t])
      {
        assert ResumeInv(c.row, c.resumes[t]);
      }
    }
  }

  lemma {:induction false} OwnIsSafe(c: Cell, newId: Id, verdict: Verdict)
    requires Safe(c)
    ensures Safe(Next(c, Own(newId, verdict)))
  {
    if c.owner.Idle? {
      assert Next(c, Own(newId, verdict)) == c;
    } else if c.row.status == WorkRunning && c.resumes == map[] && Held(c.row, c.owner) {
      HeldStep(c, newId, verdict);
    } else {
      LeavingStepIsSafe(c, newId, verdict);
    }
  }

  /** While a resume is in progress the Work waits, or an earlier resume has revived it. */
  lemma {:induction false} InProgressMeans(c: Cell, t: Id)
    requires Safe(c) && t in c.resumes
    ensures !c.row.leased && Leaving(c.row, c.owner)
    ensures c.row.status == WorkWaiting || (c.row.status == WorkRunning && exists r :: Only(c.row, r, RunStarting))
  {
    hide Only, Quiet, Leaving, Held, ResumeInv, One;
  }

  lemma {:induction false} ReadIsSafe(c: Cell, t: Id, s: Resume)
    requires Safe(c) && t in c.resumes && ResumeInv(c.row, s)
    requires Cancels(c.resumes[t]) <==> Cancels(s)
    requires !c.resumes[t].Reviving? && !s.Reviving?
    ensures Safe(c.(resumes := c.resumes[t := s]))
  {
    hide Only, Quiet, Leaving, Held, ResumeInv, One;
  }

  lemma {:induction false} EndIsSafe(c: Cell, t: Id)
    requires Safe(c)
    ensures Safe(c.(resumes := c.resumes - {t}))
  {
    hide Only, Quiet, Leaving, Held, ResumeInv, One;
  }

  lemma {:induction false} RequestIsSafe(c: Cell, t: Id, choice: Id)
    requires Safe(c) && t in c.resumes && c.resumes[t].RequestingCancel?
    ensures Safe(Next(c, Continue(t, choice)))
  {
    hide Active;
    var s, next := c.resumes[t], Next(c, Continue(t, choice));
    InProgressMeans(c, t);
    if MoveRun(c.row, s.run, RunCancelRequested, s.runRevision).None? {
      EndIsSafe(c, t);
    } else {
      var from := c.row.runs[s.run].status;
      ActiveIn(c.row, s.run);
      assert from in {RunRunning, RunWaiting};
      HasOne(c);
      Moved(c.row, s.run, from, RunCancelRequested);
      assert next.resumes[t] == Requested(s.revision, s.run, {});
      assert Only(next.row, s.run, RunCancelRequested);
      forall u | u in next.resumes
        ensures ResumeInv(next.row, next.resumes[u]) && (u != t ==> !Cancels(next.resumes[u]) && !next.resumes[u].Reviving?)
      {
        assert u != t ==> ResumeInv(c.row, c.resumes[u]);
      }
    }
  }

  lemma {:induction false} CancelIsSafe(c: Cell, t: Id, choice: Id)
    requires Safe(c) && t in c.resumes && c.resumes[t].Cancelling?
    ensures Safe(Next(c, Continue(t, choice)))
  {
    hide Active;
    var s, next := c.resumes[t], Next(c, Continue(t, choice));
    InProgressMeans(c, t);
    assert ResumeInv(c.row, s);
    Moved(c.row, s.run, RunCancelRequested, RunCancelled);
    forall u | u in next.resumes
      ensures ResumeInv(next.row, next.resumes[u]) && !Cancels(next.resumes[u]) && !next.resumes[u].Reviving?
    {
      assert u != t ==> ResumeInv(c.row, c.resumes[u]);
    }
  }

  lemma {:induction false} OpenIsSafe(c: Cell, t: Id, choice: Id)
    requires Safe(c) && t in c.resumes && c.resumes[t].Opening?
    ensures Safe(Next(c, Continue(t, choice)))
  {
    hide Active;
    var s, next := c.resumes[t], Next(c, Continue(t, choice));
    InProgressMeans(c, t);
    if choice in c.row.runs {
      assert next.resumes == c.resumes;
    } else if Quiet(c.row) {
      Opened(c.row, choice);
      assert Only(next.row, choice, RunStarting);
      forall u | u in next.resumes
        ensures ResumeInv(next.row, next.resumes[u]) && (u != t ==> !Cancels(next.resumes[u]) && !next.resumes[u].Reviving?)
      {
        assert u != t ==> ResumeInv(c.row, c.resumes[u]);
      }
    } else {
      EndIsSafe(c, t);
    }
  }

  lemma {:induction false} ReviveIsSafe(c: Cell, t: Id, choice: Id)
    requires Safe(c) && t in c.resumes && c.resumes[t].Reviving?
    ensures Safe(Next(c, Continue(t, choice)))
  {
    hide Active;
    var s, next := c.resumes[t], Next(c, Continue(t, choice));
    InProgressMeans(c, t);
    assert ResumeInv(c.row, s);
    SameRuns(c.row, next.row);
    assert Only(next.row, s.run, RunStarting);
    forall u | u in next.resumes
      ensures ResumeInv(next.row, next.resumes[u]) && !Cancels(next.resumes[u]) && !next.resumes[u].Reviving?
    {
      assert ResumeInv(c.row, c.resumes[u]);
    }
  }

  lemma {:induction false} ContinueIsSafe(c: Cell, t: Id, choice: Id)
    requires Safe(c) && t in c.resumes
    ensures Safe(Next(c, Continue(t, choice)))
  {
    var s := c.resumes[t];
    if s.RequestingCancel? {
      RequestIsSafe(c, t, choice);
    } else if s.Cancelling? {
      CancelIsSafe(c, t, choice);
    } else if s.Opening? {
      OpenIsSafe(c, t, choice);
    } else if s.Reviving? {
      ReviveIsSafe(c, t, choice);
    } else {
      hide Active, StatusOk;
      var s' := ResumeNext(c.row, s, choice).1.value;
      assert ResumeInv(c.row, s);
      HasOne(c);
      if s.Closing? && choice in s.todo {
        forall x | x in s.todo
          ensures x == choice
        {
        }
      }
      ReadIsSafe(c, t, s');
    }
  }

  lemma {:induction false} FaultIsSafe(c: Cell, a: Action)
    requires Safe(c) && Faulty(a)
    ensures Safe(Next(c, a))
  {
    HasOne(c);
    hide Active, Only;
    if a.ResumeFault? {
      EndIsSafe(c, a.task);
    }
  }

  lemma {:induction false} ClaimIsSafe(c: Cell, a: Action)
    requires Safe(c) && (a.Claim? || a.DeviceClaim? || a.DeviceComplete? || a.Answer?)
    ensures Safe(Next(c, a))
  {
    hide Active, Leaving;
    NoRuns(Next(c, a).row.(runs := map[]));
    SameRuns(c.row, Next(c, a).row);
  }

  lemma {:induction false} StepIsSafe(c: Cell, a: Action)
    requires Safe(c)
    ensures Safe(Next(c, a))
  {
    match a {
      case Own(newId, verdict) => OwnIsSafe(c, newId, verdict);
      case Continue(task, choice) =>
        if task in c.resumes {
          ContinueIsSafe(c, task, choice);
        }
      case _ =>
        if Faulty(a) {
          FaultIsSafe(c, a);
        } else {
          ClaimIsSafe(c, a);
        }
    }
  }

  lemma {:induction false} EveryRunIsSafe(acts: seq<Action>)
    ensures Safe(After(Init(), acts))
  {
    if acts == [] {
      NoRuns(Init().row);
    } else {
      hide Safe, Next;
      EveryRunIsSafe(acts[..|acts| - 1]);
      StepIsSafe(After(Init(), acts[..|acts| - 1]), acts[|acts| - 1]);
    }
  }

  // ---------------------------------------------------------------------------
  // What survives
  // ---------------------------------------------------------------------------

  /** Through any faults and deaths: never two active Runs, no Run before the claim, and SUCCEEDED Work
      has evidence and no active Run. */
  lemma {:induction false} SurvivesFaults(acts: seq<Action>)
    ensures
      var row := After(Init(), acts).row;
      && (forall r, q :: r in Active(row) && q in Active(row) ==> r == q)
      && row.status in {WorkPending, WorkRunning, WorkWaiting, WorkSucceeded, WorkFailed}
      && (row.status == WorkPending ==> row.runs == map[])
      && (row.status == WorkSucceeded ==> row.evidence && Active(row) == {})
  {
    hide After;
    EveryRunIsSafe(acts);
    HasOne(After(Init(), acts));
    hide Active;
  }

  // ---------------------------------------------------------------------------
  // One answer, one Run
  // ---------------------------------------------------------------------------

  ghost predicate Few(c: Cell) {
    || |c.row.runs| <= 1
    || (|c.row.runs| == 2 && c.row.status in {WorkWaiting, WorkRunning} && Leaving(c.row, c.owner)
        && exists r :: Only(c.row, r, RunStarting))
  }

  /** Behind a leaving owner a STARTING Run keeps every other Run from being written or created. */
  lemma {:induction false} StartingStays(c: Cell, a: Action, r: Id)
    requires Safe(c) && Leaving(c.row, c.owner) && Only(c.row, r, RunStarting)
    requires c.row.status in {WorkWaiting, WorkRunning}
    ensures
      var next := Next(c, a);
      next.row.runs == c.row.runs && next.row.status in {WorkWaiting, WorkRunning} && Leaving(next.row, next.owner)
  {
    hide Active, StatusOk;
    if a.Continue? && a.task in c.resumes {
      var s := c.resumes[a.task];
      assert ResumeInv(c.row, s);
      if s.RequestingCancel? && s.run in c.row.runs && RunActive(c.row.runs[s.run].status) {
        ActiveIn(c.row, s.run);
      }
    } else if a.Own? && c.owner.ParkingRun? && c.row.runs[c.owner.run].status == RunRunning {
      ActiveIn(c.row, c.owner.run);
      assert false;
    } else if a.DeviceComplete? && c.row.leased {
      LeasedHasNoRun(c);
      assert false;
    }
  }

  lemma {:induction false} LeasedHasNoRun(c: Cell)
    requires Safe(c) && c.row.leased
    ensures Quiet(c.row)
  {
  }

  lemma {:induction false} SameKeys(c: Cell, a: Action)
    requires !(a.Own? && c.owner.Claimed?)
    requires !(a.Continue? && a.task in c.resumes && c.resumes[a.task].Opening?)
    ensures Next(c, a).row.runs.Keys == c.row.runs.Keys
  {
    hide Active, MoveRun, MoveWork;
    forall r, target, expected
      ensures Or(MoveRun(c.row, r, target, expected), c.row).runs.Keys == c.row.runs.Keys
    {
      MoveKeepsKeys(c.row, r, target, expected);
    }
    forall target, expected, evidence
      ensures Or(MoveWork(c.row, target, expected, evidence), c.row).runs == c.row.runs
    {
      MoveWorkKeepsRuns(c.row, target, expected, evidence);
    }
  }

  lemma {:induction false} MoveKeepsKeys(row: Row, r: Id, target: RunStatus, expected: int)
    ensures Or(MoveRun(row, r, target, expected), row).runs.Keys == row.runs.Keys
  {
  }

  lemma {:induction false} MoveWorkKeepsRuns(row: Row, target: WorkStatus, expected: int, evidence: bool)
    ensures Or(MoveWork(row, target, expected, evidence), row).runs == row.runs
  {
  }

  lemma {:induction false} Size(m: map<Id, Run>, n: map<Id, Run>)
    requires m.Keys == n.Keys
    ensures |m| == |n|
  {
    assert |m| == |m.Keys| && |n| == |n.Keys|;
  }

  lemma {:induction false} FewStep(c: Cell, a: Action)
    requires Safe(c) && Few(c)
    ensures Few(Next(c, a))
  {
    var next := Next(c, a);
    if a.Own? && c.owner.Claimed? {
      NoRunsYet(c);
    } else if |c.row.runs| == 2 {
      var r :| Only(c.row, r, RunStarting);
      StartingStays(c, a, r);
      SameRuns(c.row, next.row);
      assert Only(next.row, r, RunStarting);
    } else if a.Continue? && a.task in c.resumes && c.resumes[a.task].Opening? {
      FewOpen(c, a.task, a.choice);
    } else {
      SameKeys(c, a);
      Size(c.row.runs, next.row.runs);
    }
  }

  lemma {:induction false} NoRunsYet(c: Cell)
    requires Safe(c) && c.owner.Claimed?
    ensures c.row.runs == map[]
  {
  }

  lemma {:induction false} FewOpen(c: Cell, t: Id, choice: Id)
    requires Safe(c) && t in c.resumes && c.resumes[t].Opening? && |c.row.runs| <= 1
    ensures Few(Next(c, Continue(t, choice)))
  {
    hide Active, StatusOk;
    InProgressMeans(c, t);
    if choice !in c.row.runs && Quiet(c.row) {
      Opened(c.row, choice);
      var next := Next(c, Continue(t, choice));
      assert Only(next.row, choice, RunStarting);
      assert |next.row.runs| == |c.row.runs| + 1;
    }
  }

  /** However many answers arrive, and whatever fails, at most one of them opens a Run. */
  lemma {:induction false} AtMostTwoRuns(acts: seq<Action>)
    ensures |After(Init(), acts).row.runs| <= 2 && Few(After(Init(), acts))
  {
    if acts != [] {
      hide Few, Safe, Next;
      var before := acts[..|acts| - 1];
      AtMostTwoRuns(before);
      EveryRunIsSafe(before);
      FewStep(After(Init(), before), acts[|acts| - 1]);
      FewMeans(After(Init(), acts));
    }
  }

  lemma FewMeans(c: Cell)
    requires Few(c)
    ensures |c.row.runs| <= 2
  {
  }


  // ---------------------------------------------------------------------------
  // What does not survive
  // ---------------------------------------------------------------------------

  /** The fault is swallowed while a Run is active, and the failure of the Work goes on: an executor's
      start of its Run, or the failing of a Run with a DomainError or on behalf of a device. */
  predicate Swallows(c: Cell, a: Action) {
    a.Fault? &&
    match c.owner
    case Created(device, _) => !device
    case Starting(device, _, _) => !device
    case Failing(device, _) => device || a.domain
    case FailingRun(device, _, _) => device || a.domain
    case _ => false
  }

  /** What a fault does at each point: the row is never touched; the failure of the Work goes on exactly where the
      exception is caught, the worker is not at a store call, and everywhere else the operation is over. */
  lemma {:induction false} FaultMeans(c: Cell, domain: bool)
    ensures
      var d := Next(c, Fault(domain));
      && d.row == c.row && d.resumes == c.resumes
      && (c.owner.Executing? ==> d.owner == c.owner)
      && ((c.owner.Claimed? || c.owner.Created? || c.owner.Starting?) ==> d.owner == if c.owner.device then Idle else FailedRun)
      && ((c.owner.Failing? || c.owner.FailingRun?) ==> d.owner == if c.owner.device || domain then FailedRun else Idle)
      && (c.owner.Executing? || c.owner.Claimed? || c.owner.Created? || c.owner.Starting? || c.owner.Failing?
          || c.owner.FailingRun? || d.owner == Idle)
  {
  }

  /** An artifact that cannot be stored leaves RUNNING Work with a SUCCEEDED Run, which nobody touches again; a device
      completion stores none and goes on. */
  lemma {:induction false} ArtifactFault(c: Cell, newId: Id, acts: seq<Action>)
    requires Safe(c) && c.owner.SucceededRun? && c.row.status == WorkRunning
    ensures
      var d := Next(c, Own(newId, Fails));
      if c.owner.device then d == c.(owner := SucceedingWork(c.row.revision))
      else AtRest(d) && d.row == c.row && Quiet(d.row) && After(d, acts) == d
  {
    hide Active;
    var d := Next(c, Own(newId, Fails));
    assert c.resumes == map[] && !c.row.leased;
    if !c.owner.device {
      NobodyRunsItAgain(d, acts);
    }
  }

  /** A fault before any Run exists ends an executor's cycle in FAILED Work without an active Run. */
  lemma {:induction false} FaultBeforeTheRun(c: Cell, domain: bool, newId: Id, verdict: Verdict)
    requires Safe(c) && c.owner == Claimed(false)
    ensures
      var d := Next(Next(Next(c, Fault(domain)), Own(newId, verdict)), Own(newId, verdict));
      d.row.status == WorkFailed && Active(d.row) == {} && d.owner == Idle
  {
    var one := Next(c, Fault(domain));
    var two := Next(one, Own(newId, verdict));
    var three := Next(two, Own(newId, verdict));
    NoRuns(three.row);
  }

  /** `swallowed` says whether such a fault has happened. */
  ghost predicate Tracks(c: Cell, swallowed: bool) {
    if swallowed then
      && c.resumes == map[] && !c.row.leased && !Quiet(c.row)
      && (c.row.status == WorkFailed || (c.row.status == WorkRunning && (c.owner.FailedRun? || c.owner.FailingWork? || c.owner.Idle?)))
    else
      (c.row.status == WorkFailed || c.owner.FailedRun? || c.owner.FailingWork?) ==> Quiet(c.row)
  }

  lemma {:induction false} TracksOwn(c: Cell, newId: Id, verdict: Verdict, swallowed: bool)
    requires Safe(c) && Tracks(c, swallowed)
    ensures Tracks(Next(c, Own(newId, verdict)), swallowed)
  {
    hide Active;
    var row, next := c.row, Next(c, Own(newId, verdict));
    if next.row.runs == row.runs {
      SameRuns(row, next.row);
    }
    if c.row.status == WorkRunning && c.resumes == map[] && Held(row, c.owner) {
      match c.owner {
        case Claimed(_) =>
          NoRuns(row);
          if newId !in row.runs {
            Opened(row, newId);
          }
        case Starting(_, run, _) => Moved(row, run, RunStarting, RunRunning);
        case FailingRun(_, run, _) => Moved(row, run, RunRunning, RunFailed);
        case SucceedingRun(_, run, _) => Moved(row, run, RunRunning, RunSucceeded);
        case _ =>
      }
    }
  }

  lemma {:induction false} TracksFault(c: Cell, a: Action, swallowed: bool)
    requires Safe(c) && Tracks(c, swallowed) && Faulty(a)
    ensures Tracks(Next(c, a), swallowed || Swallows(c, a))
  {
    hide Active;
    if c.row.runs == map[] {
      NoRuns(c.row);
    }
  }

  lemma {:induction false} TracksStep(c: Cell, a: Action, swallowed: bool)
    requires Safe(c) && Tracks(c, swallowed)
    ensures Tracks(Next(c, a), swallowed || Swallows(c, a))
  {
    if a.Own? {
      TracksOwn(c, a.newId, a.verdict, swallowed);
    } else if Faulty(a) {
      TracksFault(c, a, swallowed);
    } else if a.Continue? && a.task in c.resumes {
      InProgressMeans(c, a.task);
      TracksContinue(c, a.task, a.choice);
    } else {
      hide Active;
      SameRuns(c.row, Next(c, a).row);
    }
  }

  lemma {:induction false} TracksContinue(c: Cell, t: Id, choice: Id)
    requires Safe(c) && t in c.resumes && Leaving(c.row, c.owner)
    requires c.row.status in {WorkWaiting, WorkRunning}
    ensures Tracks(Next(c, Continue(t, choice)), false)
  {
    hide Active, Quiet, Only;
  }

  ghost predicate SwallowedAlong(c: Cell, acts: seq<Action>) {
    exists k :: 0 <= k < |acts| && Swallows(After(c, acts[..k]), acts[k])
  }

  lemma {:induction false} AlongStep(c: Cell, acts: seq<Action>)
    requires acts != []
    ensures
      var n := |acts| - 1;
      SwallowedAlong(c, acts) <==> SwallowedAlong(c, acts[..n]) || Swallows(After(c, acts[..n]), acts[n])
  {
    hide After, Swallows;
    var n := |acts| - 1;
    var before := acts[..n];
    if k :| 0 <= k < n && Swallows(After(c, before[..k]), before[k]) {
      assert before[..k] == acts[..k] && before[k] == acts[k];
    }
    if k :| 0 <= k < |acts| && Swallows(After(c, acts[..k]), acts[k]) && k < n {
      assert before[..k] == acts[..k] && before[k] == acts[k];
    }
  }

  lemma {:induction false} RunTracks(acts: seq<Action>)
    ensures Tracks(After(Init(), acts), SwallowedAlong(Init(), acts))
  {
    if acts == [] {
      NoRuns(Init().row);
    } else {
      hide Next, Tracks, SwallowedAlong, Swallows;
      var n := |acts| - 1;
      RunTracks(acts[..n]);
      EveryRunIsSafe(acts[..n]);
      TracksStep(After(Init(), acts[..n]), acts[n], SwallowedAlong(Init(), acts[..n]));
      AlongStep(Init(), acts);
    }
  }

  /** In every run, FAILED Work has an active Run if and only if such a fault happened on the way. */
  lemma {:induction false} FailedWithActiveRunIff(acts: seq<Action>)
    requires After(Init(), acts).row.status == WorkFailed
    ensures Active(After(Init(), acts).row) != {} <==> SwallowedAlong(Init(), acts)
  {
    hide After, SwallowedAlong;
    RunTracks(acts);
  }

  ghost predicate FailedButActive(c: Cell) { c.row.status == WorkFailed && Active(c.row) != {} }

  /** A swallowed fault does end there: the owner's next two calls fail the Work. */
  lemma {:induction false} SwallowedEndsInFailed(c: Cell, a: Action, newId: Id, verdict: Verdict)
    requires Safe(c) && Swallows(c, a)
    ensures FailedButActive(Next(Next(Next(c, a), Own(newId, verdict)), Own(newId, verdict)))
  {
    hide Active;
    var one := Next(c, a);
    var two := Next(one, Own(newId, verdict));
    var three := Next(two, Own(newId, verdict));
    SameRuns(c.row, three.row);
  }

  /** A single fault can end in FAILED Work with an active Run if and only if it is swallowed. */
  lemma {:induction false} FaultEndsBadlyIff(acts: seq<Action>, a: Action)
    requires FaultFree(acts) && Faulty(a)
    ensures
      (exists more :: FaultFree(more) && FailedButActive(After(Init(), acts + [a] + more))) <==>
      Swallows(After(Init(), acts), a)
  {
    hide After, Next, Swallows;
    if Swallows(After(Init(), acts), a) {
      EveryRunIsSafe(acts);
      var own := Own(0, Fails);
      SwallowedEndsInFailed(After(Init(), acts), a, 0, Fails);
      ThreeSteps(acts, a, own);
      assert FaultFree([own, own]);
    }
    forall more | FaultFree(more) && FailedButActive(After(Init(), acts + [a] + more))
      ensures Swallows(After(Init(), acts), a)
    {
      FailedWithActiveRunIff(acts + [a] + more);
      OnlyThere(acts, a, more);
    }
  }

  lemma {:induction false} ThreeSteps(acts: seq<Action>, a: Action, own: Action)
    ensures After(Init(), acts + [a] + [own, own]) == Next(Next(Next(After(Init(), acts), a), own), own)
  {
    hide Next;
    var one, two, three := acts + [a], acts + [a] + [own], acts + [a] + [own, own];
    assert one[..|acts|] == acts && two[..|one|] == one && three[..|two|] == two;
    assert After(Init(), one) == Next(After(Init(), acts), a);
    assert After(Init(), two) == Next(After(Init(), one), own);
    assert After(Init(), three) == Next(After(Init(), two), own);
  }

  /** Where a run has only one fault, it is the one that is swallowed. */
  lemma {:induction false} OnlyThere(acts: seq<Action>, a: Action, more: seq<Action>)
    requires FaultFree(acts) && FaultFree(more) && SwallowedAlong(Init(), acts + [a] + more)
    ensures Swallows(After(Init(), acts), a)
  {
    hide After;
    var all := acts + [a] + more;
    var k :| 0 <= k < |all| && Swallows(After(Init(), all[..k]), all[k]);
    forall i | 0 <= i < |all| && i != |acts|
      ensures !Faulty(all[i])
    {
      assert all[i] == if i < |acts| then acts[i] else more[i - |acts| - 1];
    }
    assert all[..|acts|] == acts && all[|acts|] == a;
  }

  lemma {:induction false} AfterSnoc(c: Cell, acts: seq<Action>, a: Action)
    ensures After(c, acts + [a]) == Next(After(c, acts), a)
  {
    assert (acts + [a])[..|acts|] == acts;
  }

  lemma {:induction false} ReachesAsking() returns (acts: seq<Action>)
    ensures FaultFree(acts)
    ensures
      var c := After(Init(), acts);
      && c.owner == Asking(7) && c.resumes == map[]
      && c.row == Row(WorkRunning, 2, false, false, map[7 := Run(RunRunning, 2)])
  {
    hide After, ResumeNext;
    var row := Init().row;
    NoRuns(row);
    Opened(row, 7);
    acts := [];
    assert After(Init(), []) == Init() by {
      Empty();
    }
    AfterSnoc(Init(), acts, Claim);
    acts := acts + [Claim];
    SameRuns(row, After(Init(), acts).row);
    Opened(After(Init(), acts).row, 7);
    AfterSnoc(Init(), acts, Own(7, Asks));
    acts := acts + [Own(7, Asks)];
    assert After(Init(), acts) == Cell(Row(WorkRunning, 2, false, false, map[7 := Run(RunStarting, 1)]), Created(false, 7), map[]);
    AfterSnoc(Init(), acts, Own(7, Asks));
    acts := acts + [Own(7, Asks)];
    AfterSnoc(Init(), acts, Own(7, Asks));
    acts := acts + [Own(7, Asks)];
    assert After(Init(), acts).owner == Executing(false, 7);
    AfterSnoc(Init(), acts, Own(7, Asks));
    acts := acts + [Own(7, Asks)];
  }

  lemma {:induction false} Empty()
    ensures After(Init(), []) == Init()
  {
  }

  // ---------------------------------------------------------------------------
  // WAITING Work out of step
  // ---------------------------------------------------------------------------

  /** A resume that will open a Run if it is let. */
  ghost predicate Hopeful(s: Resume) { s.Seen? || Ready(s) }

  /** While the Run is still RUNNING nobody but the resume itself can spoil its cancel request. */
  ghost predicate OnTrack(row: Row, r: Id, s: Resume) {
    || s.Seen?
    || (s.Closing? && s.todo == {r})
    || (s.RequestingCancel? && s.run == r && s.runRevision == RevisionOf(row, r))
  }

  ghost predicate Early(c: Cell) {
    c.row.status == WorkWaiting ==>
      forall r, t :: Only(c.row, r, RunRunning) && t in c.resumes ==> OnTrack(c.row, r, c.resumes[t])
  }

  /** WAITING Work: its Run waits, or somebody is at work on it who will set it right. */
  ghost predicate Hope(c: Cell) {
    || (Quiet(c.row) && exists t :: t in c.resumes && Hopeful(c.resumes[t]))
    || (exists r :: Only(c.row, r, RunWaiting))
    || (exists r :: Only(c.row, r, RunRunning) && (Parks(c.row, c.owner, r) || c.resumes != map[]))
    || (exists r, t :: Only(c.row, r, RunCancelRequested) && t in c.resumes && Cancels(c.resumes[t]))
    || (exists r, t :: Only(c.row, r, RunStarting) && t in c.resumes && c.resumes[t].Reviving?)
  }

  ghost predicate Hoped(c: Cell) { c.row.status == WorkWaiting ==> Hope(c) }

  /** The fault takes away the last one who would have set WAITING Work right: the owner at the parking of
      its Run, a resume between its cancel request and the revival, or the last that would open a Run. */
  ghost predicate Derails(c: Cell, a: Action) {
    && c.row.status == WorkWaiting
    && (|| ((a.Fault? || a.Death?) && c.resumes == map[]
            && exists r :: Only(c.row, r, RunRunning) && Parks(c.row, c.owner, r))
        || (a.ResumeFault? && a.task in c.resumes
            && (|| Cancels(c.resumes[a.task])
                || c.resumes[a.task].Reviving?
                || (Quiet(c.row) && forall u :: u in c.resumes && u != a.task ==> !Hopeful(c.resumes[u]))
                || (c.resumes.Keys == {a.task}
                    && exists r :: Only(c.row, r, RunRunning) && !Parks(c.row, c.owner, r)))))
  }

  lemma {:induction false} EarlyContinue(c: Cell, t: Id, choice: Id)
    requires Safe(c) && Early(c) && t in c.resumes
    ensures Early(Next(c, Continue(t, choice)))
  {
    hide Active, StatusOk;
    var s, next := c.resumes[t], Next(c, Continue(t, choice));
    InProgressMeans(c, t);
    assert ResumeInv(c.row, s);
    if next.row == c.row {
      assert forall u :: u in next.resumes && u != t ==> next.resumes[u] == c.resumes[u];
    } else {
      forall r
        ensures !(next.row.status == WorkWaiting && Only(next.row, r, RunRunning))
      {
        WriteEndsRunning(c, t, choice, r);
      }
    }
  }

  /** After any write of a resume no Run of WAITING Work is RUNNING. */
  lemma {:induction false} WriteEndsRunning(c: Cell, t: Id, choice: Id, r: Id)
    requires Safe(c) && t in c.resumes && Next(c, Continue(t, choice)).row != c.row
    ensures
      var next := Next(c, Continue(t, choice));
      !(next.row.status == WorkWaiting && Only(next.row, r, RunRunning))
  {
    hide Active, StatusOk;
    var s, next := c.resumes[t], Next(c, Continue(t, choice));
    InProgressMeans(c, t);
    assert ResumeInv(c.row, s);
    match s {
      case RequestingCancel(_, run, _, _) =>
        ActiveIn(c.row, run);
        HasOne(c);
        Moved(c.row, run, c.row.runs[run].status, RunCancelRequested);
      case Cancelling(_, run, _, _) => Moved(c.row, run, RunCancelRequested, RunCancelled);
      case Opening(_) => Opened(c.row, choice);
      case _ =>
    }
  }

  lemma {:induction false} EarlyStep(c: Cell, a: Action)
    requires Safe(c) && Early(c)
    ensures Early(Next(c, a))
  {
    if a.Continue? {
      if a.task in c.resumes {
        EarlyContinue(c, a.task, a.choice);
      }
    } else if a.Own? {
      EarlyOwn(c, a.newId, a.verdict);
    } else {
      hide Active;
      SameRuns(c.row, Next(c, a).row);
    }
  }

  lemma {:induction false} EarlyOwn(c: Cell, newId: Id, verdict: Verdict)
    requires Safe(c) && Early(c)
    ensures Early(Next(c, Own(newId, verdict)))
  {
    hide Active;
    var next := Next(c, Own(newId, verdict));
    if next.row.runs == c.row.runs {
      SameRuns(c.row, next.row);
    } else if c.row.status == WorkWaiting {
      var r := c.owner.run;
      ActiveIn(c.row, r);
      HasOne(c);
      Moved(c.row, r, RunRunning, RunWaiting);
    }
  }

  lemma {:induction false} EveryRunIsEarly(acts: seq<Action>)
    ensures Early(After(Init(), acts))
  {
    if acts != [] {
      hide Next, Early, Safe;
      var n := |acts| - 1;
      EveryRunIsEarly(acts[..n]);
      EveryRunIsSafe(acts[..n]);
      EarlyStep(After(Init(), acts[..n]), acts[n]);
    }
  }

  /** Hope survives in a larger set of resumes that keeps the ones it rests on. */
  lemma {:induction false} HopeKept(c: Cell, d: Cell)
    requires Hope(c) && d.row == c.row && (c.resumes != map[] ==> d.resumes != map[])
    requires forall r :: Only(c.row, r, RunRunning) && Parks(c.row, c.owner, r) ==> Parks(d.row, d.owner, r)
    requires forall t :: t in c.resumes && (Hopeful(c.resumes[t]) || Cancels(c.resumes[t]) || c.resumes[t].Reviving?) ==>
               && t in d.resumes
               && (Hopeful(c.resumes[t]) ==> Hopeful(d.resumes[t]))
               && (Cancels(c.resumes[t]) ==> Cancels(d.resumes[t]))
               && (c.resumes[t].Reviving? ==> d.resumes[t].Reviving?)
    ensures Hope(d)
  {
    hide Only, Quiet, Parks, Hopeful, Cancels;
    if t :| Quiet(c.row) && t in c.resumes && Hopeful(c.resumes[t]) {
      assert t in d.resumes && Hopeful(d.resumes[t]);
    } else if r, t :| Only(c.row, r, RunCancelRequested) && t in c.resumes && Cancels(c.resumes[t]) {
      assert t in d.resumes && Cancels(d.resumes[t]);
    } else if r, t :| Only(c.row, r, RunStarting) && t in c.resumes && c.resumes[t].Reviving? {
      assert t in d.resumes && d.resumes[t].Reviving?;
    }
  }

  /** A refused resume was not one that hope rests on. */
  lemma {:induction false} HopeWithout(c: Cell, t: Id)
    requires Safe(c) && Hope(c) && t in c.resumes
    requires !Cancels(c.resumes[t]) && !c.resumes[t].Reviving?
    requires Hopeful(c.resumes[t]) ==> !Quiet(c.row)
    requires forall r :: !Only(c.row, r, RunRunning)
    ensures Hope(c.(resumes := c.resumes - {t}))
  {
    hide Only, Quiet, Parks, Hopeful, Cancels;
    var d := c.(resumes := c.resumes - {t});
    if u :| Quiet(c.row) && u in c.resumes && Hopeful(c.resumes[u]) {
      assert u in d.resumes && Hopeful(d.resumes[u]);
    } else if r, u :| Only(c.row, r, RunCancelRequested) && u in c.resumes && Cancels(c.resumes[u]) {
      assert u in d.resumes && Cancels(d.resumes[u]);
    } else if r, u :| Only(c.row, r, RunStarting) && u in c.resumes && c.resumes[u].Reviving? {
      assert u in d.resumes && d.resumes[u].Reviving?;
    }
  }

  lemma {:induction false} HopeContinue(c: Cell, t: Id, choice: Id)
    requires Safe(c) && Early(c) && Hoped(c) && t in c.resumes
    ensures Hoped(Next(c, Continue(t, choice)))
  {
    InProgressMeans(c, t);
    hide Active, StatusOk;
    var s, next := c.resumes[t], Next(c, Continue(t, choice));
    assert ResumeInv(c.row, s);
    if c.row.status == WorkWaiting {
      match s {
        case RequestingCancel(revision, run, runRevision, todo) =>
          HopeRequest(c, t, choice);
        case Cancelling(_, run, _, _) =>
          Moved(c.row, run, RunCancelRequested, RunCancelled);
          assert Quiet(next.row) && t in next.resumes && Hopeful(next.resumes[t]);
        case Opening(_) =>
          HopeOpen(c, t, choice);
        case Reviving(_, _) =>
        case _ =>
          HopeRead(c, t, choice);
      }
    }
  }

  lemma {:induction false} HopeRequest(c: Cell, t: Id, choice: Id)
    requires Safe(c) && Early(c) && Hope(c) && c.row.status == WorkWaiting
    requires t in c.resumes && c.resumes[t].RequestingCancel?
    ensures Hope(Next(c, Continue(t, choice)))
  {
    hide Active, StatusOk;
    var s, next := c.resumes[t], Next(c, Continue(t, choice));
    HasOne(c);
    if MoveRun(c.row, s.run, RunCancelRequested, s.runRevision).Some? {
      ActiveIn(c.row, s.run);
      assert ResumeInv(c.row, s);
      Moved(c.row, s.run, c.row.runs[s.run].status, RunCancelRequested);
      assert Only(next.row, s.run, RunCancelRequested) && t in next.resumes && Cancels(next.resumes[t]);
    } else {
      forall r
        ensures !Only(c.row, r, RunRunning)
      {
        if Only(c.row, r, RunRunning) {
          Moved(c.row, r, RunRunning, RunCancelRequested);
        }
      }
      HopeWithout(c, t);
    }
  }

  lemma {:induction false} HopeOpen(c: Cell, t: Id, choice: Id)
    requires Safe(c) && Early(c) && Hope(c) && c.row.status == WorkWaiting
    requires t in c.resumes && c.resumes[t].Opening?
    ensures Hope(Next(c, Continue(t, choice)))
  {
    hide Active, StatusOk;
    var next := Next(c, Continue(t, choice));
    if choice in c.row.runs {
      assert next.resumes == c.resumes;
    } else if Quiet(c.row) {
      Opened(c.row, choice);
      assert Only(next.row, choice, RunStarting) && t in next.resumes && next.resumes[t].Reviving?;
    } else {
      assert forall r :: Only(c.row, r, RunRunning) ==> OnTrack(c.row, r, c.resumes[t]);
      HopeWithout(c, t);
    }
  }

  lemma {:induction false} HopeRead(c: Cell, t: Id, choice: Id)
    requires Safe(c) && Early(c) && Hope(c) && c.row.status == WorkWaiting
    requires t in c.resumes && (c.resumes[t].Seen? || c.resumes[t].Closing? || c.resumes[t].Requested?)
    ensures Hope(Next(c, Continue(t, choice)))
  {
    hide Active, StatusOk, Parks;
    var s, next := c.resumes[t], Next(c, Continue(t, choice));
    assert t in next.resumes && next.row == c.row;
    if s.Seen? && !Quiet(c.row) {
      HopeSeen(c, t, next);
    } else {
      HopeKept(c, next);
    }
  }

  lemma {:induction false} HopeSeen(c: Cell, t: Id, d: Cell)
    requires Hope(c) && !Quiet(c.row) && t in c.resumes && c.resumes[t].Seen?
    requires d.row == c.row && d.owner == c.owner && t in d.resumes
    requires forall u :: u in c.resumes && u != t ==> u in d.resumes && d.resumes[u] == c.resumes[u]
    ensures Hope(d)
  {
    hide Only, Quiet, Parks;
    if r, u :| Only(c.row, r, RunCancelRequested) && u in c.resumes && Cancels(c.resumes[u]) {
      assert u in d.resumes && Cancels(d.resumes[u]);
    } else if r, u :| Only(c.row, r, RunStarting) && u in c.resumes && c.resumes[u].Reviving? {
      assert u in d.resumes && d.resumes[u].Reviving?;
    }
  }

  lemma {:induction false} HopeOwn(c: Cell, newId: Id, verdict: Verdict)
    requires Safe(c) && Hoped(c)
    ensures Hoped(Next(c, Own(newId, verdict)))
  {
    hide Active;
    var next := Next(c, Own(newId, verdict));
    if c.row.status == WorkWaiting {
      if next.row != c.row {
        var r := c.owner.run;
        ActiveIn(c.row, r);
        HasOne(c);
        Moved(c.row, r, RunRunning, RunWaiting);
        assert Only(next.row, r, RunWaiting);
      } else {
        HopeParked(c, next);
      }
    } else if next.row.status == WorkWaiting {
      SameRuns(c.row, next.row);
      assert Only(next.row, c.owner.run, RunRunning) && Parks(next.row, next.owner, c.owner.run);
    }
  }

  lemma {:induction false} HopeParked(c: Cell, d: Cell)
    requires Safe(c) && Hope(c) && c.row.status == WorkWaiting
    requires d.row == c.row && d.resumes == c.resumes
    requires
      var (row, owner) := OwnerNext(c.row, c.owner, 0, Fails);
      d.owner == owner && row == c.row
    ensures Hope(d)
  {
    hide Active;
    forall r | Only(c.row, r, RunRunning) && Parks(c.row, c.owner, r)
      ensures Parks(d.row, d.owner, r)
    {
      if c.owner.ParkingRun? {
        Moved(c.row, r, RunRunning, RunWaiting);
      }
    }
    HopeKept(c, d);
  }

  lemma {:induction false} HopeStep(c: Cell, a: Action)
    requires Safe(c) && Early(c) && Hoped(c) && !Faulty(a)
    ensures Hoped(Next(c, a))
  {
    match a {
      case Own(newId, verdict) => HopeOwn(c, newId, verdict);
      case Continue(task, choice) =>
        if task in c.resumes {
          HopeContinue(c, task, choice);
        }
      case Answer(task) =>
        if c.row.status == WorkWaiting {
          HopeKept(c, Next(c, a));
        }
      case _ =>
    }
  }

  /** Of the faults, exactly the derailing ones take hope away. */
  lemma {:induction false} FaultHopeIff(c: Cell, a: Action)
    requires Safe(c) && Hoped(c) && c.row.status == WorkWaiting && Faulty(a)
    ensures Hope(Next(c, a)) <==> !Derails(c, a)
  {
    if a.ResumeFault? {
      FaultOfAResume(c, a.task);
    } else {
      FaultOfTheOwner(c, a);
    }
  }

  lemma {:induction false} FaultOfTheOwner(c: Cell, a: Action)
    requires Safe(c) && Hope(c) && c.row.status == WorkWaiting && (a.Fault? || a.Death?)
    ensures Hope(Next(c, a)) <==> !Derails(c, a)
  {
    hide Active, ResumeInv;
    var d := Next(c, a);
    assert d.owner == Idle && d.row == c.row && d.resumes == c.resumes;
    if r :| Only(c.row, r, RunRunning) && Parks(c.row, c.owner, r) {
      assert Hope(d) <==> c.resumes != map[];
    } else {
      HopeKept(c, d);
    }
  }

  lemma {:induction false} FaultOfAResume(c: Cell, t: Id)
    requires Safe(c) && Hope(c) && c.row.status == WorkWaiting
    ensures Hope(Next(c, ResumeFault(t))) <==> !Derails(c, ResumeFault(t))
  {
    hide Active, Parks, StatusOk;
    var d := Next(c, ResumeFault(t));
    assert d == c.(resumes := c.resumes - {t});
    if t !in c.resumes {
      assert d.resumes == c.resumes;
    } else {
      var s := c.resumes[t];
      assert ResumeInv(c.row, s);
      HasOne(c);
      if Quiet(c.row) {
        assert Hope(d) <==> exists u :: u in d.resumes && Hopeful(d.resumes[u]);
        if u :| u in d.resumes && Hopeful(d.resumes[u]) {
          assert u in c.resumes && u != t && Hopeful(c.resumes[u]);
        }
        if u :| u in c.resumes && u != t && Hopeful(c.resumes[u]) {
          assert u in d.resumes && Hopeful(d.resumes[u]);
        }
      } else {
        var r :| r in c.row.runs && Only(c.row, r, c.row.runs[r].status);
        match c.row.runs[r].status {
          case RunRunning => LastOne(c.resumes, t);
          case RunCancelRequested =>
            var u :| u in c.resumes && Cancels(c.resumes[u]);
            if u != t {
              assert u in d.resumes && Cancels(d.resumes[u]);
            }
          case RunStarting =>
            var u :| u in c.resumes && c.resumes[u].Reviving?;
            if u != t {
              assert u in d.resumes && d.resumes[u].Reviving?;
            }
          case RunWaiting =>
          case _ => NotActive(c.row, r);
        }
      }
    }
  }

  lemma {:induction false} LastOne(m: map<Id, Resume>, t: Id)
    requires t in m
    ensures m - {t} == map[] <==> m.Keys == {t}
  {
    if m - {t} == map[] {
      forall u | u in m
        ensures u == t
      {
        assert u != t ==> u in m - {t};
      }
    }
    if m.Keys == {t} {
      assert (m - {t}).Keys == {};
    }
  }

  lemma {:induction false} NotActive(row: Row, r: Id)
    requires r in row.runs && Only(row, r, row.runs[r].status)
    ensures RunActive(row.runs[r].status)
  {
    assert r in Active(row);
  }

  ghost predicate OutOfStep(c: Cell) { AtRest(c) && c.row.status == WorkWaiting && !Coupled(c.row) }

  lemma {:induction false} HopedIsInStep(c: Cell)
    requires Hoped(c)
    ensures !OutOfStep(c)
  {
  }

  ghost predicate DerailedAlong(c: Cell, acts: seq<Action>) {
    exists k :: 0 <= k < |acts| && Derails(After(c, acts[..k]), acts[k])
  }

  lemma {:induction false} HopeAlong(acts: seq<Action>)
    requires !DerailedAlong(Init(), acts)
    ensures Hoped(After(Init(), acts))
  {
    if acts != [] {
      var n := |acts| - 1;
      hide After, Next, Derails, Hoped, Safe, Early;
      forall k | 0 <= k < n
        ensures !Derails(After(Init(), acts[..n][..k]), acts[..n][k])
      {
        assert acts[..n][..k] == acts[..k];
      }
      HopeAlong(acts[..n]);
      EveryRunIsSafe(acts[..n]);
      EveryRunIsEarly(acts[..n]);
      AnyStep(After(Init(), acts[..n]), acts[n]);
      AfterLast(Init(), acts);
    }
  }

  lemma {:induction false} AfterLast(c: Cell, acts: seq<Action>)
    requires acts != []
    ensures After(c, acts) == Next(After(c, acts[..|acts| - 1]), acts[|acts| - 1])
  {
  }

  lemma {:induction false} AnyStep(c: Cell, a: Action)
    requires Safe(c) && Early(c) && Hoped(c) && !Derails(c, a)
    ensures Hoped(Next(c, a))
  {
    if !Faulty(a) {
      HopeStep(c, a);
    } else if c.row.status == WorkWaiting {
      FaultHopeIff(c, a);
    }
  }

  /** Through any faults that do not derail it, WAITING Work at rest has exactly one active Run and it is
      WAITING. */
  lemma {:induction false} InStepUnlessDerailed(acts: seq<Action>)
    requires !DerailedAlong(Init(), acts)
    ensures !OutOfStep(After(Init(), acts))
  {
    hide After;
    HopeAlong(acts);
    HopedIsInStep(After(Init(), acts));
  }

  // Nobody is left who could set it right

  /** The sole active Run admits no cancel request, so that every resume is turned down. */
  ghost predicate Jammed(row: Row) {
    row.status == WorkWaiting && exists r :: Only(row, r, RunCancelRequested) || Only(row, r, RunStarting)
  }

  /** A resume that will be turned down without a write. */
  ghost predicate Doomed(row: Row, s: Resume) {
    if Jammed(row) then s.Seen? || s.Closing? || s.RequestingCancel? || s.Opening?
    else Quiet(row) && ((s.Closing? && s.todo != {}) || s.RequestingCancel?)
  }

  lemma {:induction false} CancelIsRefused(row: Row, run: Id, revision: int)
    requires Jammed(row) || Quiet(row)
    ensures MoveRun(row, run, RunCancelRequested, revision).None?
  {
    hide Active;
    if run in row.runs && RunActive(row.runs[run].status) {
      ActiveIn(row, run);
    }
  }

  lemma {:induction false} DoomedStep(row: Row, s: Resume, choice: Id)
    requires Doomed(row, s)
    ensures
      var (next, s') := ResumeNext(row, s, choice);
      next == row && (s'.Some? ==> Doomed(row, s'.value))
  {
    hide Active;
    if s.RequestingCancel? {
      CancelIsRefused(row, s.run, s.runRevision);
    }
  }

  /** How many more calls a doomed resume makes, given the right choices. */
  function Left(s: Resume): nat {
    match s
    case Seen(_) => 4
    case Closing(_, _) => 3
    case Opening(_) => 2
    case _ => 1
  }

  lemma {:induction false} DoomedChoice(row: Row, s: Resume) returns (choice: Id)
    requires Doomed(row, s)
    ensures
      var (_, s') := ResumeNext(row, s, choice);
      s'.Some? ==> Left(s'.value) < Left(s)
  {
    if s.RequestingCancel? {
      CancelIsRefused(row, s.run, s.runRevision);
    }
    if s.Closing? && s.todo != {} {
      choice := Pick(s.todo);
    } else {
      choice := NewId(row.runs.Keys);
    }
  }

  lemma {:induction false} NewId(ids: set<Id>) returns (id: Id)
    ensures forall x :: x in ids ==> x < id
    decreases |ids|
  {
    if ids == {} {
      id := 0;
    } else {
      var m := Pick(ids);
      var above := NewId(ids - {m});
      id := if above <= m then m + 1 else above;
      forall x | x in ids
        ensures x < id
      {
        assert x == m || x in ids - {m};
      }
    }
  }

  lemma {:induction false} DrainOne(c: Cell, t: Id) returns (acts: seq<Action>)
    requires t in c.resumes && Doomed(c.row, c.resumes[t])
    ensures FaultFree(acts) && After(c, acts) == c.(resumes := c.resumes - {t})
    decreases Left(c.resumes[t])
  {
    hide After, Doomed, ResumeNext;
    var s := c.resumes[t];
    var choice := DoomedChoice(c.row, s);
    DoomedStep(c.row, s, choice);
    var a := Continue(t, choice);
    var next := Next(c, a);
    OneAction(c, a);
    if ResumeNext(c.row, s, choice).1.None? {
      acts := [a];
    } else {
      var more := DrainOne(next, t);
      acts := [a] + more;
      AfterAppend(c, [a], more);
      assert next.resumes - {t} == c.resumes - {t};
    }
  }

  lemma {:induction false} OneAction(c: Cell, a: Action)
    ensures After(c, [a]) == Next(c, a)
  {
    hide Next;
    assert [a][..0] == [];
    assert After(c, [a][..0]) == c;
  }

  lemma {:induction false} NoAction(c: Cell)
    ensures After(c, []) == c
  {
  }

  lemma {:induction false} DrainAll(c: Cell) returns (acts: seq<Action>)
    requires forall t :: t in c.resumes ==> Doomed(c.row, c.resumes[t])
    ensures FaultFree(acts) && After(c, acts) == c.(resumes := map[])
    decreases |c.resumes|
  {
    hide After, Doomed;
    if c.resumes == map[] {
      acts := [];
      NoAction(c);
    } else {
      assert c.resumes.Keys != {};
      var t := Pick(c.resumes.Keys);
      var first := DrainOne(c, t);
      var d := c.(resumes := c.resumes - {t});
      var more := DrainAll(d);
      acts := first + more;
      AfterAppend(c, first, more);
    }
  }

  /** An owner whose Run is no longer RUNNING ends without a write. */
  lemma {:induction false} DrainOwner(c: Cell) returns (acts: seq<Action>)
    requires Leaving(c.row, c.owner) && (c.owner.Idle? || c.row.runs[c.owner.run].status != RunRunning)
    ensures FaultFree(acts) && After(c, acts) == c.(owner := Idle)
  {
    hide After;
    var own := Own(0, Fails);
    NoAction(c);
    OneAction(c, own);
    if c.owner.Idle? {
      acts := [];
    } else if c.owner.ParkingRun? {
      acts := [own];
    } else {
      acts := [own] + [own];
      AfterAppend(c, [own], [own]);
      OneAction(Next(c, own), own);
    }
  }

  /** A derailing fault, first of its kind, does end out of step. */
  lemma {:induction false} DerailedEndsOutOfStep(c: Cell, a: Action) returns (more: seq<Action>)
    requires Inv(c) && Safe(c) && Derails(c, a)
    ensures FaultFree(more) && OutOfStep(After(Next(c, a), more))
  {
    hide Active, After;
    var d := Next(c, a);
    if a.ResumeFault? {
      LeftBehind(c, a.task);
      var first := DrainOwner(d);
      var e := d.(owner := Idle);
      var rest := DrainAll(e);
      more := first + rest;
      AfterAppend(d, first, rest);
    } else {
      more := [];
      NoAction(d);
    }
  }

  /** What a resume that fails leaves to the others. */
  lemma {:induction false} LeftBehind(c: Cell, t: Id)
    requires Inv(c) && Safe(c) && Derails(c, ResumeFault(t))
    ensures
      var d := Next(c, ResumeFault(t));
      && d.row == c.row && !Coupled(d.row)
      && Leaving(d.row, d.owner) && (d.owner.Idle? || d.row.runs[d.owner.run].status != RunRunning)
      && forall u :: u in d.resumes ==> Doomed(d.row, d.resumes[u])
  {
    hide Active;
    var d, s := Next(c, ResumeFault(t)), c.resumes[t];
    assert ResumeInv(c.row, s);
    assert Leaving(d.row, d.owner);
    if !d.owner.Idle? && d.row.runs[d.owner.run].status == RunRunning {
      ActiveIn(d.row, d.owner.run);
    }
    forall u | u in d.resumes
      ensures Doomed(d.row, d.resumes[u])
    {
      assert ResumeInv(c.row, c.resumes[u]) && u != t;
    }
  }

  /** A single fault can leave WAITING Work out of step, at rest, if and only if it derails it. */
  lemma {:induction false} WaitingOutOfStepIff(acts: seq<Action>, a: Action)
    requires FaultFree(acts) && Faulty(a)
    ensures
      (exists more :: FaultFree(more) && OutOfStep(After(Init(), acts + [a] + more))) <==>
      Derails(After(Init(), acts), a)
  {
    hide After, Next, Derails, OutOfStep;
    var c := After(Init(), acts);
    var one := acts + [a];
    AfterSnoc(Init(), acts, a);
    if Derails(c, a) {
      ReachableInv(acts);
      EveryRunIsSafe(acts);
      var more := DerailedEndsOutOfStep(c, a);
      AfterAppend(Init(), one, more);
      assert OutOfStep(After(Init(), acts + [a] + more));
    } else {
      forall more | FaultFree(more)
        ensures !OutOfStep(After(Init(), acts + [a] + more))
      {
        NotDerailedAlong(acts, a, more);
        InStepUnlessDerailed(acts + [a] + more);
      }
    }
  }

  lemma {:induction false} NotDerailedAlong(acts: seq<Action>, a: Action, more: seq<Action>)
    requires FaultFree(acts) && FaultFree(more) && !Derails(After(Init(), acts), a)
    ensures !DerailedAlong(Init(), acts + [a] + more)
  {
    hide After;
    var all := acts + [a] + more;
    forall k | 0 <= k < |all|
      ensures !Derails(After(Init(), all[..k]), all[k])
    {
      if k == |acts| {
        assert all[..k] == acts && all[k] == a;
      } else {
        assert all[k] == if k < |acts| then acts[k] else more[k - |acts| - 1];
        assert !Faulty(all[k]);
      }
    }
  }

  // ---------------------------------------------------------------------------
  // Which WAITING Work an answer can still revive
  // ---------------------------------------------------------------------------

  /** Jammed Work with nobody holding it, and only resumes that will be turned down. */
  ghost predicate Stuck(c: Cell) {
    && Jammed(c.row) && !c.row.leased && c.owner == Idle
    && forall t :: t in c.resumes ==> Doomed(c.row, c.resumes[t])
  }

  lemma {:induction false} StuckStep(c: Cell, a: Action)
    requires Stuck(c)
    ensures Stuck(Next(c, a)) && Next(c, a).row == c.row
  {
    hide Active, ResumeNext, Only;
    if a.Continue? && a.task in c.resumes {
      DoomedStep(c.row, c.resumes[a.task], a.choice);
    }
  }

  /** No action, fault or answer ever changes it again. */
  lemma {:induction false} StuckForever(c: Cell, acts: seq<Action>)
    requires Stuck(c)
    ensures Stuck(After(c, acts)) && After(c, acts).row == c.row
  {
    if acts != [] {
      hide Stuck, Next;
      StuckForever(c, acts[..|acts| - 1]);
      StuckStep(After(c, acts[..|acts| - 1]), acts[|acts| - 1]);
    }
  }

  /** One answer and the calls of its resume, with nothing in between. */
  ghost predicate OneAnswer(acts: seq<Action>) {
    forall n :: 0 <= n < |acts| ==> acts[n] == Answer(0) || (acts[n].Continue? && acts[n].task == 0)
  }

  ghost predicate Answers(c: Cell, d: Cell) { exists acts :: OneAnswer(acts) && After(c, acts) == d }

  lemma {:induction false} AnswersOn(c: Cell, d: Cell, a: Action)
    requires Answers(c, d) && OneAnswer([a])
    ensures Answers(c, Next(d, a))
  {
    hide Next, After;
    var acts :| OneAnswer(acts) && After(c, acts) == d;
    AfterSnoc(c, acts, a);
    assert [a][0] == a;
    assert OneAnswer(acts + [a]);
  }

  lemma {:induction false} ResumeGoesOn(c: Cell, row: Row, s: Resume, choice: Id)
    requires Answers(c, Resuming(row, s))
    ensures
      var (next, s') := ResumeNext(row, s, choice);
      Answers(c, if s'.Some? then Resuming(next, s'.value) else Cell(next, Idle, map[]))
  {
    hide Answers, ResumeNext;
    var a := Continue(0, choice);
    assert OneAnswer([a]);
    AnswersOn(c, Resuming(row, s), a);
    var (next, s') := ResumeNext(row, s, choice);
    if s'.Some? {
      assert map[0 := s][0 := s'.value] == map[0 := s'.value];
    } else {
      assert map[0 := s] - {0} == map[];
    }
  }

  lemma {:induction false} AnswerSees(c: Cell)
    requires AtRest(c) && c.row.status == WorkWaiting
    ensures Answers(c, Resuming(c.row, Closing(c.row.revision, Active(c.row))))
  {
    hide Active;
    NoAction(c);
    assert OneAnswer([]);
    assert Answers(c, c);
    assert OneAnswer([Answer(0)]);
    AnswersOn(c, c, Answer(0));
    ResumeGoesOn(c, c.row, Seen(c.row.revision), 0);
  }

  /** From a Run that may still be asked to cancel to none. */
  lemma {:induction false} AnswerCloses(c: Cell, row: Row, r: Id, from: RunStatus) returns (closed: Row)
    requires Only(row, r, from) && from in {RunRunning, RunWaiting}
    requires Answers(c, Resuming(row, Closing(row.revision, {r})))
    ensures Quiet(closed) && closed.status == row.status && closed.revision == row.revision
    ensures Answers(c, Resuming(closed, Closing(row.revision, {})))
  {
    hide Active, Answers, Resuming;
    var revision := row.revision;
    ResumeGoesOn(c, row, Closing(revision, {r}), r);
    assert {r} - {r} == {};
    Moved(row, r, from, RunCancelRequested);
    ResumeGoesOn(c, row, RequestingCancel(revision, r, row.runs[r].revision, {}), r);
    var asked := MoveRun(row, r, RunCancelRequested, row.runs[r].revision).value;
    ResumeGoesOn(c, asked, Requested(revision, r, {}), r);
    Moved(asked, r, RunCancelRequested, RunCancelled);
    ResumeGoesOn(c, asked, Cancelling(revision, r, asked.runs[r].revision, {}), r);
    closed := MoveRun(asked, r, RunCancelled, asked.runs[r].revision).value;
  }

  lemma {:induction false} AnswerRevives(c: Cell, row: Row) returns (d: Cell)
    requires Quiet(row) && row.status == WorkWaiting && Answers(c, Resuming(row, Closing(row.revision, {})))
    ensures Answers(c, d) && AtRest(d) && d.row.status == WorkRunning
  {
    hide Active, Answers, Resuming;
    var id := NewId(row.runs.Keys);
    assert id !in row.runs;
    ResumeGoesOn(c, row, Closing(row.revision, {}), id);
    Opened(row, id);
    ResumeGoesOn(c, row, Opening(row.revision), id);
    var withRun := CreateRun(row, id).value;
    ResumeGoesOn(c, withRun, Reviving(row.revision, id), id);
    d := Cell(MoveWork(withRun, WorkRunning, row.revision, false).value, Idle, map[]);
  }

  ghost predicate Revivable(c: Cell) { exists d :: Answers(c, d) && AtRest(d) && d.row.status == WorkRunning }

  /**
   Of WAITING Work at rest, after any run with any faults: one undisturbed answer brings it back to
   RUNNING if and only if it has no active Run that is CANCEL_REQUESTED or STARTING; otherwise no
   sequence of actions ever changes it again.
   */
  lemma {:induction false} AnswerRevivesIff(acts: seq<Action>)
    requires AtRest(After(Init(), acts)) && After(Init(), acts).row.status == WorkWaiting
    ensures
      var c := After(Init(), acts);
      && (Revivable(c) <==> !Jammed(c.row))
      && (Jammed(c.row) ==> forall more :: After(c, more).row == c.row)
  {
    var c := After(Init(), acts);
    EveryRunIsSafe(acts);
    HasOne(c);
    WaitingIsFree(c);
    hide After, Active, Answers, Resuming, Safe;
    if Jammed(c.row) {
      forall more
        ensures After(c, more).row == c.row
      {
        StuckForever(c, more);
      }
      forall d | Answers(c, d)
        ensures d.row == c.row
      {
        AnswersMeans(c, d);
      }
    } else {
      AnswerSees(c);
      if Quiet(c.row) {
        var d := AnswerRevives(c, c.row);
      } else {
        var r :| r in c.row.runs && Only(c.row, r, c.row.runs[r].status);
        NotActive(c.row, r);
        var closed := AnswerCloses(c, c.row, r, c.row.runs[r].status);
        var d := AnswerRevives(c, closed);
      }
    }
  }

  lemma {:induction false} WaitingIsFree(c: Cell)
    requires Safe(c) && c.row.status == WorkWaiting
    ensures !c.row.leased
  {
    hide Active;
  }

  lemma {:induction false} AnswersMeans(c: Cell, d: Cell)
    requires Answers(c, d) && forall more :: After(c, more).row == c.row
    ensures d.row == c.row
  {
    hide After;
  }

  /** A death between the two parking calls leaves WAITING Work whose one active Run is RUNNING. */
  lemma {:induction false} DeathLeavesWaitingOutOfStep() returns (acts: seq<Action>)
    ensures
      var c := After(Init(), acts);
      AtRest(c) && c.row.status == WorkWaiting && Only(c.row, 7, RunRunning) && !Coupled(c.row)
  {
    hide After, ResumeNext;
    acts := ReachesAsking();
    var row := After(Init(), acts).row;
    AfterSnoc(Init(), acts, Own(7, Asks));
    acts := acts + [Own(7, Asks)];
    AfterSnoc(Init(), acts, Own(7, Asks));
    acts := acts + [Own(7, Asks)];
    AfterSnoc(Init(), acts, Death);
    acts := acts + [Death];
    var c := After(Init(), acts);
    assert c.row == row.(status := WorkWaiting, revision := 3);
    assert Active(c.row) == {7};
  }

  lemma {:induction false} ReachesWaiting() returns (acts: seq<Action>)
    ensures FaultFree(acts)
    ensures After(Init(), acts) == Cell(Row(WorkWaiting, 3, false, false, map[7 := Run(RunWaiting, 3)]), Idle, map[])
  {
    hide After, ResumeNext;
    acts := ReachesAsking();
    var own := Own(7, Asks);
    AfterSnoc(Init(), acts, own);
    acts := acts + [own];
    AfterSnoc(Init(), acts, own);
    acts := acts + [own];
    AfterSnoc(Init(), acts, own);
    acts := acts + [own];
    assert After(Init(), acts).owner == ParkingRun(7, 2);
    AfterSnoc(Init(), acts, own);
    acts := acts + [own];
  }

  lemma {:induction false} ContinueFrom(acts: seq<Action>, row: Row, s: Resume, choice: Id)
    requires After(Init(), acts) == Resuming(row, s)
    ensures
      var (next, s') := ResumeNext(row, s, choice);
      s'.Some? ==> After(Init(), acts + [Continue(0, choice)]) == Resuming(next, s'.value)
  {
    hide After, ResumeNext;
    AfterSnoc(Init(), acts, Continue(0, choice));
    var (next, s') := ResumeNext(row, s, choice);
    if s'.Some? {
      assert map[0 := s][0 := s'.value] == map[0 := s'.value];
    }
  }

  lemma {:induction false} ReachesRequested() returns (acts: seq<Action>, row: Row)
    ensures FaultFree(acts) && After(Init(), acts) == Resuming(row, Requested(3, 7, {}))
    ensures row.status == WorkWaiting && Only(row, 7, RunCancelRequested)
  {
    hide After, OwnerNext, Next, Resuming;
    acts := ReachesWaiting();
    row := Row(WorkWaiting, 3, false, false, map[7 := Run(RunWaiting, 3)]);
    assert Active(row) == {7};
    AfterSnoc(Init(), acts, Answer(0));
    AnswerSeen(row);
    acts := acts + [Answer(0)];
    ContinueFrom(acts, row, Seen(3), 7);
    acts := acts + [Continue(0, 7)];
    ContinueFrom(acts, row, Closing(3, {7}), 7);
    acts := acts + [Continue(0, 7)];
    assert {7} - {7} == {};
    Moved(row, 7, RunWaiting, RunCancelRequested);
    ContinueFrom(acts, row, RequestingCancel(3, 7, 3, {}), 7);
    acts := acts + [Continue(0, 7)];
    row := MoveRun(row, 7, RunCancelRequested, 3).value;
  }

  lemma {:induction false} AnswerSeen(row: Row)
    requires row.status == WorkWaiting
    ensures Next(Cell(row, Idle, map[]), Answer(0)) == Resuming(row, Seen(row.revision))
  {
  }

  /** One fault of a resume, after its cancel request, leaves Work that stays WAITING for ever. */
  lemma {:induction false} ResumeFaultStrandsWork() returns (before: seq<Action>)
    ensures FaultFree(before)
    ensures
      var c := After(Init(), before + [ResumeFault(0)]);
      AtRest(c) && Jammed(c.row) && forall more :: After(c, more).row == c.row
  {
    hide After, OwnerNext, ResumeNext, Only;
    var row;
    before, row := ReachesRequested();
    AfterSnoc(Init(), before, ResumeFault(0));
    var c := After(Init(), before + [ResumeFault(0)]);
    assert c.row == row && c.owner == Idle && c.resumes == map[];
    AnswerRevivesIff(before + [ResumeFault(0)]);
  }
}
