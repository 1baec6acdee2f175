/**
 Work and its Runs, driven together by executor cycles, device completions and answer
 resumes. Every store call of every operation is one step, so operations interleave freely;
 reads and the compare-and-set writes that rely on them are separate steps. All of these
 operations touch one Work and its Runs, so the machine is that of one Work.
 */
module Executor {
  import opened Common
  import opened Lifecycle

  type Id = int

  datatype Run = Run(status: RunStatus, revision: int)

  /** One Work as stored, with its Runs; `leased` says that a device claimed it. */
  datatype Row = Row(status: WorkStatus, revision: int, evidence: bool, leased: bool, runs: map<Id, Run>)

  function Active(row: Row): set<Id> { set r | r in row.runs && RunActive(row.runs[r].status) }

  // ---------------------------------------------------------------------------
  // The store: each call is atomic and may be refused
  // ---------------------------------------------------------------------------

  function CreateRun(row: Row, r: Id): Option<Row> {
    if r in row.runs || Active(row) != {} then None
    else Some(row.(runs := row.runs[r := Run(RunStarting, 1)]))
  }

  function MoveRun(row: Row, r: Id, target: RunStatus, expected: int): Option<Row> {
    if r !in row.runs || row.runs[r].revision != expected then None
    else
      match TransitionRun(row.runs[r].status, target)
      case Refused(_) => None
      case Allowed(s) => Some(row.(runs := row.runs[r := Run(s, expected + 1)]))
  }

  function MoveWork(row: Row, target: WorkStatus, expected: int, evidence: bool): Option<Row> {
    if row.revision != expected then None
    else
      match TransitionWork(row.status, target, evidence)
      case Refused(_) => None
      case Allowed(s) => Some(row.(status := s, revision := expected + 1, evidence := row.evidence || s == WorkSucceeded))
  }

  function RevisionOf(row: Row, r: Id): int { if r in row.runs then row.runs[r].revision else 0 }

  lemma {:induction false} Pick<T>(s: set<T>) returns (x: T)
    requires s != {}
    ensures x in s
  {
    x :| x in s;
  }

  /** A Run is created exactly where its id is new and no Run is active, STARTING and beside the others. */
  lemma {:induction false} CreateRunMeans(row: Row, r: Id)
    ensures CreateRun(row, r).None? <==> r in row.runs || exists q :: q in row.runs && RunActive(row.runs[q].status)
    ensures CreateRun(row, r).Some? ==>
              var d := CreateRun(row, r).value;
              d == row.(runs := d.runs) && d.runs == row.runs[r := Run(RunStarting, 1)]
  {
    if q :| q in row.runs && RunActive(row.runs[q].status) {
      assert q in Active(row);
    }
    if Active(row) != {} {
      var q := Pick(Active(row));
    }
  }

  /** A Run moves exactly where the revision is current and the table allows it; nothing else moves with it. */
  lemma {:induction false} MoveRunMeans(row: Row, r: Id, target: RunStatus, expected: int)
    ensures MoveRun(row, r, target, expected).Some? <==>
            r in row.runs && row.runs[r].revision == expected && target in RunTargets(row.runs[r].status)
    ensures MoveRun(row, r, target, expected).Some? ==>
              MoveRun(row, r, target, expected).value == row.(runs := row.runs[r := Run(target, expected + 1)])
  {
  }

  /** The Work moves exactly where the revision is current, the table allows it and success has its evidence. */
  lemma {:induction false} MoveWorkMeans(row: Row, target: WorkStatus, expected: int, evidence: bool)
    ensures MoveWork(row, target, expected, evidence).Some? <==>
            row.revision == expected && target in WorkTargets(row.status) && (target == WorkSucceeded ==> evidence)
    ensures MoveWork(row, target, expected, evidence).Some? ==>
              var d := MoveWork(row, target, expected, evidence).value;
              && d.status == target && d.revision == expected + 1 && d.runs == row.runs && d.leased == row.leased
              && (d.evidence <==> row.evidence || target == WorkSucceeded)
  {
  }

  // ---------------------------------------------------------------------------
  // The operations in progress
  // ---------------------------------------------------------------------------

  /** The next call of whoever claimed the Work: an executor cycle or a device completion. */
  datatype Owner =
    | Idle
    | Claimed(device: bool)
    | Created(device: bool, run: Id)
    | Starting(device: bool, run: Id, revision: int)
    | Executing(device: bool, run: Id)
    | Failing(device: bool, run: Id)
    | FailingRun(device: bool, run: Id, revision: int)
    | FailedRun
    | FailingWork(revision: int)
    | Succeeding(device: bool, run: Id)
    | SucceedingRun(device: bool, run: Id, revision: int)
    | SucceededRun(device: bool)
    | SucceedingWork(revision: int)
    | Asking(run: Id)
    | ParkingWork(run: Id, revision: int)
    | Parked(run: Id)
    | ParkingRun(run: Id, revision: int)

  /** The next call of one answer resume; `revision` is that of the WAITING Work it read. */
  datatype Resume =
    | Seen(revision: int)
    | Closing(revision: int, todo: set<Id>)
    | RequestingCancel(revision: int, run: Id, runRevision: int, todo: set<Id>)
    | Requested(revision: int, run: Id, todo: set<Id>)
    | Cancelling(revision: int, run: Id, runRevision: int, todo: set<Id>)
    | Opening(revision: int)
    | Reviving(revision: int, run: Id)

  datatype Cell = Cell(row: Row, owner: Owner, resumes: map<Id, Resume>)

  /** What the worker, the device or the artifact store answers. */
  datatype Verdict = Fails | Asks | Succeeds

  datatype Action =
    | Claim
    | DeviceClaim
    | DeviceComplete
    | Own(newId: Id, verdict: Verdict)
    | Answer(task: Id)
    | Continue(task: Id, choice: Id)
    | Fault(domain: bool)       // the owner's next store call raises, with a DomainError or otherwise
    | ResumeFault(task: Id)     // a resume's next store call raises, or its process dies
    | Death                     // the owner's process dies

  function Init(): Cell { Cell(Row(WorkPending, 1, false, false, map[]), Idle, map[]) }

  function Or(r: Option<Row>, row: Row): Row { if r.Some? then r.value else row }

  /** The row and program counter after the owner's next call. */
  function OwnerNext(row: Row, o: Owner, newId: Id, verdict: Verdict): (Row, Owner) {
    match o
    case Idle => (row, Idle)
    case Claimed(device) =>
      if device && Active(row) != {} then
        (if newId in Active(row) then (row, Executing(device, newId)) else (row, o))
      else if newId in row.runs then (row, o)
      else
        var made := CreateRun(row, newId);
        (Or(made, row), if made.Some? then Created(device, newId) else if device then Idle else FailedRun)
    case Created(device, run) => (row, Starting(device, run, RevisionOf(row, run)))
    case Starting(device, run, revision) =>
      var moved := MoveRun(row, run, RunRunning, revision);
      (Or(moved, row), if moved.Some? then Executing(device, run) else if device then Idle else FailedRun)
    case Executing(device, run) =>
      (row,
       match verdict
       case Fails => Failing(device, run)
       case Asks => if device then Failing(device, run) else Asking(run)
       case Succeeds => Succeeding(device, run))
    case Failing(device, run) => (row, FailingRun(device, run, RevisionOf(row, run)))
    case FailingRun(_, run, revision) => (Or(MoveRun(row, run, RunFailed, revision), row), FailedRun)
    case FailedRun => (row, FailingWork(row.revision))
    case FailingWork(revision) => (Or(MoveWork(row, WorkFailed, revision, false), row), Idle)
    case Succeeding(device, run) => (row, SucceedingRun(device, run, RevisionOf(row, run)))
    case SucceedingRun(device, run, revision) =>
      var moved := MoveRun(row, run, RunSucceeded, revision);
      (Or(moved, row), if moved.Some? then SucceededRun(device) else Idle)
    case SucceededRun(device) => (row, if !device && verdict == Fails then Idle else SucceedingWork(row.revision))
    case SucceedingWork(revision) => (Or(MoveWork(row, WorkSucceeded, revision, true), row), Idle)
    case Asking(run) => (row, ParkingWork(run, row.revision))
    case ParkingWork(run, revision) =>
      var moved := MoveWork(row, WorkWaiting, revision, false);
      (Or(moved, row), if moved.Some? then Parked(run) else Idle)
    case Parked(run) => (row, ParkingRun(run, RevisionOf(row, run)))
    case ParkingRun(run, revision) => (Or(MoveRun(row, run, RunWaiting, revision), row), Idle)
  }

  /** The row and program counter after a resume's next call; `None` when the resume is over. */
  function ResumeNext(row: Row, s: Resume, choice: Id): (Row, Option<Resume>) {
    match s
    case Seen(revision) => (row, Some(Closing(revision, Active(row))))
    case Closing(revision, todo) =>
      if todo == {} then (row, Some(Opening(revision)))
      else if choice !in todo then (row, Some(s))
      else (row, Some(RequestingCancel(revision, choice, RevisionOf(row, choice), todo - {choice})))
    case RequestingCancel(revision, run, runRevision, todo) =>
      var moved := MoveRun(row, run, RunCancelRequested, runRevision);
      (Or(moved, row), if moved.Some? then Some(Requested(revision, run, todo)) else None)
    case Requested(revision, run, todo) => (row, Some(Cancelling(revision, run, RevisionOf(row, run), todo)))
    case Cancelling(revision, run, runRevision, todo) =>
      var moved := MoveRun(row, run, RunCancelled, runRevision);
      (Or(moved, row), if moved.Some? then Some(Closing(revision, todo)) else None)
    case Opening(revision) =>
      if choice in row.runs then (row, Some(s))
      else
        var made := CreateRun(row, choice);
        (Or(made, row), if made.Some? then Some(Reviving(revision, choice)) else None)
    case Reviving(revision, run) => (Or(MoveWork(row, WorkRunning, revision, false), row), None)
  }

  /** Where the owner goes on when its next store call raises. An executor turns what happens before the
      worker answers into a failure without a Run and swallows only a DomainError while failing the Run;
      a device completion swallows everything there. All else leaves the call. */
  function Raised(o: Owner, domain: bool): Owner {
    match o
    case Claimed(device) => if device then Idle else FailedRun
    case Created(device, _) => if device then Idle else FailedRun
    case Starting(device, _, _) => if device then Idle else FailedRun
    case Executing(_, _) => o
    case Failing(device, _) => if device || domain then FailedRun else Idle
    case FailingRun(device, _, _) => if device || domain then FailedRun else Idle
    case _ => Idle
  }

  function Next(c: Cell, a: Action): Cell {
    match a
    case Claim =>
      if c.row.status != WorkPending then c
      else c.(row := c.row.(status := WorkRunning, revision := c.row.revision + 1), owner := Claimed(false))
    case DeviceClaim =>
      if c.row.status != WorkPending then c
      else c.(row := c.row.(status := WorkRunning, revision := c.row.revision + 1, leased := true))
    case DeviceComplete =>
      if !c.row.leased then c else c.(row := c.row.(leased := false), owner := Claimed(true))
    case Own(newId, verdict) =>
      var (row, owner) := OwnerNext(c.row, c.owner, newId, verdict);
      c.(row := row, owner := owner)
    case Answer(task) =>
      if task in c.resumes || c.row.status != WorkWaiting then c
      else c.(resumes := c.resumes[task := Seen(c.row.revision)])
    case Continue(task, choice) =>
      if task !in c.resumes then c
      else
        var (row, next) := ResumeNext(c.row, c.resumes[task], choice);
        c.(row := row, resumes := if next.Some? then c.resumes[task := next.value] else c.resumes - {task})
    case Fault(domain) => c.(owner := Raised(c.owner, domain))
    case ResumeFault(task) => c.(resumes := c.resumes - {task})
    case Death => c.(owner := Idle)
  }

  predicate Faulty(a: Action) { a.Fault? || a.ResumeFault? || a.Death? }

  ghost predicate FaultFree(acts: seq<Action>) { forall n :: 0 <= n < |acts| ==> !Faulty(acts[n]) }

  function After(c: Cell, acts: seq<Action>): Cell {
    if acts == [] then c else Next(After(c, acts[..|acts| - 1]), acts[|acts| - 1])
  }

  // ---------------------------------------------------------------------------
  // The invariant
  // ---------------------------------------------------------------------------

  ghost predicate Quiet(row: Row) { Active(row) == {} }

  ghost predicate Only(row: Row, r: Id, status: RunStatus) {
    r in row.runs && row.runs[r].status == status && Active(row) == {r}
  }

  /** RUNNING Work in the hands of whoever claimed it. */
  ghost predicate OwnedInv(row: Row, o: Owner) {
    match o
    case Idle => Quiet(row) && (row.leased ==> row.runs == map[])
    case Claimed(_) => row.runs == map[]
    case Created(_, run) => Only(row, run, RunStarting)
    case Starting(_, run, revision) => Only(row, run, RunStarting) && row.runs[run].revision == revision
    case Executing(_, run) => Only(row, run, RunRunning)
    case Failing(_, run) => Only(row, run, RunRunning)
    case FailingRun(_, run, revision) => Only(row, run, RunRunning) && row.runs[run].revision == revision
    case FailedRun => Quiet(row)
    case FailingWork(revision) => Quiet(row) && row.revision == revision
    case Succeeding(_, run) => Only(row, run, RunRunning)
    case SucceedingRun(_, run, revision) => Only(row, run, RunRunning) && row.runs[run].revision == revision
    case SucceededRun(_) => Quiet(row)
    case SucceedingWork(revision) => Quiet(row) && row.revision == revision
    case Asking(run) => Only(row, run, RunRunning)
    case ParkingWork(run, revision) => Only(row, run, RunRunning) && row.revision == revision
    case Parked(_) => false
    case ParkingRun(_, _) => false
  }

  /** The owner is gone or has only the parking of its Run left to do. */
  ghost predicate Leaving(row: Row, o: Owner) {
    || o.Idle?
    || ((o.Parked? || o.ParkingRun?) && o.run in row.runs
        && row.runs[o.run].status in {RunRunning, RunCancelRequested, RunCancelled})
  }

  ghost predicate Parks(row: Row, o: Owner, r: Id) {
    o == Parked(r) || (o.ParkingRun? && o.run == r && r in row.runs && o.revision == row.runs[r].revision)
  }

  ghost predicate Cancels(s: Resume) { s.Requested? || s.Cancelling? }

  ghost predicate Ready(s: Resume) { s.Opening? || (s.Closing? && s.todo == {}) }

  /** What every resume in progress knows. */
  ghost predicate ResumeInv(row: Row, s: Resume) {
    && (row.status == WorkWaiting ==> s.revision == row.revision)
    && (s.Closing? ==> forall x, y :: x in s.todo && y in s.todo ==> x == y)
    && (s.RequestingCancel? || s.Requested? || s.Cancelling? ==> s.todo == {})
    && (Cancels(s) ==> row.status == WorkWaiting && Only(row, s.run, RunCancelRequested))
    && (s.Cancelling? ==> s.runRevision == RevisionOf(row, s.run))
    && (s.Reviving? ==> row.status == WorkWaiting && Only(row, s.run, RunStarting))
  }

  /** WAITING Work: its Run waits, or somebody is at work on it. */
  ghost predicate WaitingInv(c: Cell) {
    || (Quiet(c.row) && exists t :: t in c.resumes && Ready(c.resumes[t]))
    || (exists r :: Only(c.row, r, RunWaiting))
    || (exists r :: Only(c.row, r, RunRunning) && Parks(c.row, c.owner, r))
    || (exists r, t :: Only(c.row, r, RunCancelRequested) && t in c.resumes && Cancels(c.resumes[t]))
    || (exists r, t :: Only(c.row, r, RunStarting) && t in c.resumes && c.resumes[t].Reviving?)
  }

  ghost predicate SoleCanceller(resumes: map<Id, Resume>) {
    forall t, u :: t in resumes && u in resumes && Cancels(resumes[t]) && Cancels(resumes[u]) ==> t == u
  }

  ghost predicate SoleReviver(resumes: map<Id, Resume>) {
    forall t, u :: t in resumes && u in resumes && resumes[t].Reviving? && resumes[u].Reviving? ==> t == u
  }

  ghost predicate StatusInv(c: Cell) {
    match c.row.status
    case WorkPending => c.row.runs == map[] && c.owner == Idle && c.resumes == map[] && !c.row.leased
    case WorkRunning =>
      || (c.resumes == map[] && OwnedInv(c.row, c.owner) && (c.row.leased ==> c.owner.Idle?))
      || (!c.row.leased && Leaving(c.row, c.owner) && exists r :: Only(c.row, r, RunStarting))
    case WorkWaiting => !c.row.leased && Leaving(c.row, c.owner) && WaitingInv(c)
    case WorkSucceeded => !c.row.leased && c.owner == Idle && c.resumes == map[] && Quiet(c.row) && c.row.evidence
    case WorkFailed => !c.row.leased && c.owner == Idle && c.resumes == map[] && Quiet(c.row)
    case _ => false
  }

  ghost predicate Inv(c: Cell) {
    && StatusInv(c)
    && (forall t :: t in c.resumes ==> ResumeInv(c.row, c.resumes[t]))
    && SoleCanceller(c.resumes) && SoleReviver(c.resumes)
  }

  // ---------------------------------------------------------------------------
  // The invariant holds in every run
  // ---------------------------------------------------------------------------

  /** A store write on one Run: what is active afterwards. */
  lemma {:induction false} Moved(row: Row, r: Id, from: RunStatus, target: RunStatus)
    requires Only(row, r, from) && target in RunTargets(from)
    ensures
      var moved := MoveRun(row, r, target, row.runs[r].revision);
      && moved.Some?
      && moved.value == row.(runs := row.runs[r := Run(target, row.runs[r].revision + 1)])
      && (RunActive(target) ==> Only(moved.value, r, target))
      && (!RunActive(target) ==> Quiet(moved.value))
  {
    var next := row.(runs := row.runs[r := Run(target, row.runs[r].revision + 1)]);
    forall x
      ensures x in Active(next) <==> x == r && RunActive(target)
    {
      assert x in Active(row) <==> x == r;
    }
  }

  lemma {:induction false} Opened(row: Row, r: Id)
    requires Quiet(row) && r !in row.runs
    ensures
      var made := CreateRun(row, r);
      made.Some? && made.value == row.(runs := row.runs[r := Run(RunStarting, 1)]) && Only(made.value, r, RunStarting)
  {
    var next := row.(runs := row.runs[r := Run(RunStarting, 1)]);
    forall x
      ensures x in Active(next) <==> x == r
    {
      assert x !in Active(row);
    }
  }

  lemma {:induction false} OwnedStep(c: Cell, newId: Id, verdict: Verdict)
    requires Inv(c) && c.row.status == WorkRunning && c.resumes == map[] && OwnedInv(c.row, c.owner)
    requires !c.row.leased
    ensures Inv(Next(c, Own(newId, verdict)))
  {
    hide Active;
    var row := c.row;
    match c.owner {
      case Claimed(_) =>
        NoRuns(row);
        if newId !in row.runs {
          Opened(row, newId);
        }
      case Starting(_, run, revision) => Moved(row, run, RunStarting, RunRunning);
      case FailingRun(_, run, revision) => Moved(row, run, RunRunning, RunFailed);
      case SucceedingRun(_, run, revision) => Moved(row, run, RunRunning, RunSucceeded);
      case ParkingWork(run, revision) =>
        var next := Next(c, Own(newId, verdict));
        SameRuns(row, next.row);
        assert Only(next.row, run, RunRunning) && Parks(next.row, next.owner, run);
      case FailingWork(_) => SameRuns(row, Next(c, Own(newId, verdict)).row);
      case SucceedingWork(_) => SameRuns(row, Next(c, Own(newId, verdict)).row);
      case _ =>
    }
  }

  lemma {:induction false} NoRuns(row: Row)
    requires row.runs == map[]
    ensures Quiet(row)
  {
  }

  lemma {:induction false} SameRuns(row: Row, next: Row)
    requires next.runs == row.runs
    ensures Active(next) == Active(row)
  {
  }

  lemma {:induction false} LeavingStep(c: Cell, newId: Id, verdict: Verdict)
    requires Inv(c) && !c.row.leased && Leaving(c.row, c.owner)
    requires c.row.status == WorkWaiting || (c.row.status == WorkRunning && exists r :: Only(c.row, r, RunStarting))
    ensures Inv(Next(c, Own(newId, verdict)))
  {
    hide Active;
    var next := Next(c, Own(newId, verdict));
    if c.owner.ParkingRun? {
      var r := c.owner.run;
      if c.row.runs[r].status == RunRunning {
        ActiveIn(c.row, r);
        Moved(c.row, r, RunRunning, RunWaiting);
        assert Only(next.row, r, RunWaiting);
      } else {
        assert next.row == c.row;
        WaitingWithout(c, next);
      }
    } else if c.owner.Parked? {
      assert next.row == c.row && next.resumes == c.resumes;
      if r :| Only(c.row, r, RunRunning) && Parks(c.row, c.owner, r) {
        assert Parks(next.row, next.owner, r);
      } else {
        WaitingWithout(c, next);
      }
    }
  }

  lemma {:induction false} ActiveIn(row: Row, r: Id)
    requires r in row.runs && RunActive(row.runs[r].status)
    ensures r in Active(row)
  {
  }

  /** Only the parking of a RUNNING Run depends on the owner. */
  lemma {:induction false} WaitingWithout(c: Cell, next: Cell)
    requires next.row == c.row && next.resumes == c.resumes
    requires !exists r :: Only(c.row, r, RunRunning) && Parks(c.row, c.owner, r)
    ensures WaitingInv(c) ==> WaitingInv(next)
  {
    hide Only, Parks, Quiet, Ready, Cancels;
  }

  /** A resume that only reads keeps its part in the invariant. */
  lemma {:induction false} ReadStep(c: Cell, t: Id, s: Resume)
    requires Inv(c) && t in c.resumes && ResumeInv(c.row, s)
    requires Ready(c.resumes[t]) ==> Ready(s)
    requires Cancels(c.resumes[t]) <==> Cancels(s)
    requires !c.resumes[t].Reviving? && !s.Reviving?
    ensures Inv(c.(resumes := c.resumes[t := s]))
  {
    hide Only, Parks, Quiet, Leaving, OwnedInv, ResumeInv;
    var next := c.(resumes := c.resumes[t := s]);
    if c.row.status == WorkWaiting {
      if u :| Quiet(c.row) && u in c.resumes && Ready(c.resumes[u]) {
        assert u in next.resumes && Ready(next.resumes[u]);
      } else if r, u :| Only(c.row, r, RunCancelRequested) && u in c.resumes && Cancels(c.resumes[u]) {
        assert u in next.resumes && Cancels(next.resumes[u]);
      } else if r, u :| Only(c.row, r, RunStarting) && u in c.resumes && c.resumes[u].Reviving? {
        assert u in next.resumes && next.resumes[u].Reviving?;
      }
    }
  }

  /** A resume may stop unless the invariant counts on it. */
  lemma {:induction false} EndStep(c: Cell, t: Id)
    requires Inv(c) && t in c.resumes && !Cancels(c.resumes[t]) && !c.resumes[t].Reviving?
    requires Ready(c.resumes[t]) ==> !Quiet(c.row)
    ensures Inv(c.(resumes := c.resumes - {t}))
  {
    hide Only, Parks, Quiet, Leaving, OwnedInv, ResumeInv;
    var next := c.(resumes := c.resumes - {t});
    if c.row.status == WorkWaiting {
      if u :| Quiet(c.row) && u in c.resumes && Ready(c.resumes[u]) {
        assert u in next.resumes && Ready(next.resumes[u]);
      } else if r, u :| Only(c.row, r, RunCancelRequested) && u in c.resumes && Cancels(c.resumes[u]) {
        assert u in next.resumes && Cancels(next.resumes[u]);
      } else if r, u :| Only(c.row, r, RunStarting) && u in c.resumes && c.resumes[u].Reviving? {
        assert u in next.resumes && next.resumes[u].Reviving?;
      }
    }
  }

  /** While a resume is in progress the Work waits, or an earlier resume has revived it. */
  lemma {:induction false} ResumeMeans(c: Cell, t: Id)
    requires Inv(c) && t in c.resumes
    ensures !c.row.leased && Leaving(c.row, c.owner)
    ensures c.row.status == WorkWaiting || (c.row.status == WorkRunning && exists r :: Only(c.row, r, RunStarting))
  {
    hide Only, Parks, Quiet, Leaving, OwnedInv, ResumeInv, WaitingInv;
  }

  lemma {:induction false} RequestStep(c: Cell, t: Id, choice: Id)
    requires Inv(c) && t in c.resumes && c.resumes[t].RequestingCancel?
    ensures Inv(Next(c, Continue(t, choice)))
  {
    hide Active;
    var s, next := c.resumes[t], Next(c, Continue(t, choice));
    var moved := MoveRun(c.row, s.run, RunCancelRequested, s.runRevision);
    ResumeMeans(c, t);
    if moved.None? {
      EndStep(c, t);
    } else {
      var from := c.row.runs[s.run].status;
      ActiveIn(c.row, s.run);
      assert from in {RunRunning, RunWaiting};
      WaitingHasOneRun(c);
      Moved(c.row, s.run, from, RunCancelRequested);
      assert next.resumes[t] == Requested(s.revision, s.run, {});
      assert Only(next.row, s.run, RunCancelRequested) && Cancels(next.resumes[t]);
      forall u | u in next.resumes
        ensures ResumeInv(next.row, next.resumes[u]) && (u != t ==> !Cancels(next.resumes[u]) && !next.resumes[u].Reviving?)
      {
        assert u != t ==> ResumeInv(c.row, c.resumes[u]);
      }
    }
  }

  /** At most one Run is active. */
  lemma {:induction false} WaitingHasOneRun(c: Cell)
    requires Inv(c)
    ensures Quiet(c.row) || exists r :: r in c.row.runs && Only(c.row, r, c.row.runs[r].status)
  {
    hide Active, Parks, Ready, Leaving, ResumeInv;
    if c.row.status == WorkPending || (c.row.status == WorkRunning && c.owner.Claimed?) {
      if c.row.runs == map[] {
        NoRuns(c.row);
      }
    }
  }

  lemma {:induction false} CancelStep(c: Cell, t: Id, choice: Id)
    requires Inv(c) && t in c.resumes && c.resumes[t].Cancelling?
    ensures Inv(Next(c, Continue(t, choice)))
  {
    hide Active;
    var s, next := c.resumes[t], Next(c, Continue(t, choice));
    ResumeMeans(c, t);
    assert ResumeInv(c.row, s);
    Moved(c.row, s.run, RunCancelRequested, RunCancelled);
    assert Quiet(next.row) && Ready(next.resumes[t]);
    forall u | u in next.resumes
      ensures ResumeInv(next.row, next.resumes[u]) && !Cancels(next.resumes[u]) && !next.resumes[u].Reviving?
    {
      assert u != t ==> ResumeInv(c.row, c.resumes[u]);
    }
  }

  lemma {:induction false} OpenStep(c: Cell, t: Id, choice: Id)
    requires Inv(c) && t in c.resumes && c.resumes[t].Opening?
    ensures Inv(Next(c, Continue(t, choice)))
  {
    hide Active;
    var s, next := c.resumes[t], Next(c, Continue(t, choice));
    ResumeMeans(c, t);
    if choice in c.row.runs {
      assert next.resumes == c.resumes;
    } else if Quiet(c.row) {
      Opened(c.row, choice);
      assert Only(next.row, choice, RunStarting) && next.resumes[t].Reviving?;
      forall u | u in next.resumes
        ensures ResumeInv(next.row, next.resumes[u]) && (u != t ==> !Cancels(next.resumes[u]) && !next.resumes[u].Reviving?)
      {
        assert u != t ==> ResumeInv(c.row, c.resumes[u]);
      }
    } else {
      EndStep(c, t);
    }
  }

  lemma {:induction false} ReviveStep(c: Cell, t: Id, choice: Id)
    requires Inv(c) && t in c.resumes && c.resumes[t].Reviving?
    ensures Inv(Next(c, Continue(t, choice)))
  {
    hide Active;
    var s, next := c.resumes[t], Next(c, Continue(t, choice));
    ResumeMeans(c, t);
    assert ResumeInv(c.row, s);
    SameRuns(c.row, next.row);
    assert Only(next.row, s.run, RunStarting);
    forall u | u in next.resumes
      ensures ResumeInv(next.row, next.resumes[u]) && !Cancels(next.resumes[u]) && !next.resumes[u].Reviving?
    {
      assert ResumeInv(c.row, c.resumes[u]);
    }
  }

  lemma {:induction false} ResumeStep(c: Cell, t: Id, choice: Id)
    requires Inv(c) && t in c.resumes
    ensures Inv(Next(c, Continue(t, choice)))
  {
    var s := c.resumes[t];
    if s.RequestingCancel? {
      RequestStep(c, t, choice);
    } else if s.Cancelling? {
      CancelStep(c, t, choice);
    } else if s.Opening? {
      OpenStep(c, t, choice);
    } else if s.Reviving? {
      ReviveStep(c, t, choice);
    } else {
      hide Active, StatusInv;
      var s' := ResumeNext(c.row, s, choice).1.value;
      assert ResumeInv(c.row, s);
      if s.Seen? {
        WaitingHasOneRun(c);
      } else if s.Closing? && choice in s.todo {
        forall x | x in s.todo
          ensures x == choice
        {
        }
      }
      ReadStep(c, t, s');
    }
  }

  lemma {:induction false} Step(c: Cell, a: Action)
    requires Inv(c) && !Faulty(a)
    ensures Inv(Next(c, a))
  {
    match a {
      case Own(newId, verdict) =>
        OwnStep(c, newId, verdict);
      case Continue(task, choice) =>
        if task in c.resumes {
          ResumeStep(c, task, choice);
        }
      case Answer(task) =>
        AnswerStep(c, task);
      case _ =>
        ClaimStep(c, a);
    }
  }

  lemma {:induction false} OwnStep(c: Cell, newId: Id, verdict: Verdict)
    requires Inv(c)
    ensures Inv(Next(c, Own(newId, verdict)))
  {
    if c.owner.Idle? {
      assert Next(c, Own(newId, verdict)) == c;
    } else if c.row.status == WorkRunning && c.resumes == map[] && OwnedInv(c.row, c.owner) {
      OwnedStep(c, newId, verdict);
    } else {
      LeavingStep(c, newId, verdict);
    }
  }

  lemma {:induction false} ClaimStep(c: Cell, a: Action)
    requires Inv(c) && (a.Claim? || a.DeviceClaim? || a.DeviceComplete?)
    ensures Inv(Next(c, a))
  {
    hide Active, WaitingInv, Leaving;
    NoRuns(Next(c, a).row.(runs := map[]));
    SameRuns(c.row, Next(c, a).row);
  }

  lemma {:induction false} AnswerStep(c: Cell, task: Id)
    requires Inv(c)
    ensures Inv(Next(c, Answer(task)))
  {
    hide Only, Parks, Quiet, Leaving, OwnedInv;
    var next := Next(c, Answer(task));
    if next != c {
      if u :| Quiet(c.row) && u in c.resumes && Ready(c.resumes[u]) {
        assert u in next.resumes && Ready(next.resumes[u]);
      } else if r, u :| Only(c.row, r, RunCancelRequested) && u in c.resumes && Cancels(c.resumes[u]) {
        assert u in next.resumes && Cancels(next.resumes[u]);
      } else if r, u :| Only(c.row, r, RunStarting) && u in c.resumes && c.resumes[u].Reviving? {
        assert u in next.resumes && next.resumes[u].Reviving?;
      }
    }
  }

  lemma {:induction false} RunKeepsInv(c: Cell, acts: seq<Action>)
    requires Inv(c) && FaultFree(acts)
    ensures Inv(After(c, acts))
  {
    if acts != [] {
      hide Inv, Next;
      RunKeepsInv(c, acts[..|acts| - 1]);
      Step(After(c, acts[..|acts| - 1]), acts[|acts| - 1]);
    }
  }

  lemma {:induction false} ReachableInv(acts: seq<Action>)
    requires FaultFree(acts)
    ensures Inv(After(Init(), acts))
  {
    NoRuns(Init().row);
    RunKeepsInv(Init(), acts);
  }

  // ---------------------------------------------------------------------------
  // What holds in every run
  // ---------------------------------------------------------------------------

  ghost predicate AtRest(c: Cell) { c.owner == Idle && c.resumes == map[] }

  /** How a Work and its Runs go together between operations. */
  ghost predicate Coupled(row: Row) {
    match row.status
    case WorkPending => row.runs == map[]
    case WorkRunning => Quiet(row) || exists r :: r in row.runs && Only(row, r, row.runs[r].status)
    case WorkWaiting => exists r :: Only(row, r, RunWaiting)
    case WorkSucceeded => Quiet(row) && row.evidence
    case WorkFailed => Quiet(row)
    case _ => false
  }

  /** Whatever interleaves without faults, only a WAITING Work is ever out of step with its Runs, and only
      while an operation on it is in progress. */
  lemma {:induction false} CoupledInEveryRun(acts: seq<Action>)
    requires FaultFree(acts)
    ensures
      var c := After(Init(), acts);
      && (c.row.status != WorkWaiting || AtRest(c) ==> Coupled(c.row))
      && forall r, q :: r in Active(c.row) && q in Active(c.row) ==> r == q
  {
    var c := After(Init(), acts);
    ReachableInv(acts);
    WaitingHasOneRun(c);
    hide Active;
    assert c.owner.Idle? ==> !Parks(c.row, c.owner, 0);
  }

  /** The owner's next write is turned down. */
  predicate OwnerRefused(row: Row, o: Owner, newId: Id) {
    match o
    case Claimed(_) => newId !in row.runs && CreateRun(row, newId).None?
    case Starting(_, run, revision) => MoveRun(row, run, RunRunning, revision).None?
    case FailingRun(_, run, revision) => MoveRun(row, run, RunFailed, revision).None?
    case FailingWork(revision) => MoveWork(row, WorkFailed, revision, false).None?
    case SucceedingRun(_, run, revision) => MoveRun(row, run, RunSucceeded, revision).None?
    case SucceedingWork(revision) => MoveWork(row, WorkSucceeded, revision, true).None?
    case ParkingWork(_, revision) => MoveWork(row, WorkWaiting, revision, false).None?
    case ParkingRun(run, revision) => MoveRun(row, run, RunWaiting, revision).None?
    case _ => false
  }

  /** Every write of an executor cycle or a device completion is legal and current, but for the
      parking of a Run whose question has already been answered. */
  lemma {:induction false} OwnerIsNeverRefused(acts: seq<Action>, newId: Id)
    requires FaultFree(acts)
    ensures
      var c := After(Init(), acts);
      OwnerRefused(c.row, c.owner, newId) ==>
        c.owner.ParkingRun? && c.owner.run in c.row.runs
        && c.row.runs[c.owner.run].status in {RunCancelRequested, RunCancelled}
  {
    var c := After(Init(), acts);
    ReachableInv(acts);
    hide After;
    var row := c.row;
    if c.row.status == WorkRunning && c.resumes == map[] && OwnedInv(c.row, c.owner) {
      match c.owner {
        case Claimed(_) =>
          if newId !in row.runs {
            NoRuns(row);
            Opened(row, newId);
          }
        case Starting(_, run, revision) => Moved(row, run, RunStarting, RunRunning);
        case FailingRun(_, run, revision) => Moved(row, run, RunRunning, RunFailed);
        case SucceedingRun(_, run, revision) => Moved(row, run, RunRunning, RunSucceeded);
        case _ =>
      }
    } else if c.owner.ParkingRun? && c.owner.run in row.runs && row.runs[c.owner.run].status == RunRunning {
      ActiveIn(row, c.owner.run);
      Moved(row, c.owner.run, RunRunning, RunWaiting);
    }
  }

  /** A refused write is a DomainError to its owner, who goes on where one leads. */
  lemma {:induction false} RefusalIsADomainError(c: Cell, newId: Id, verdict: Verdict)
    requires OwnerRefused(c.row, c.owner, newId) && !(c.owner.Claimed? && c.owner.device && Active(c.row) != {})
    ensures Next(c, Own(newId, verdict)) == Next(c, Fault(true))
  {
    hide CreateRun, MoveRun, MoveWork, Active;
  }

  /** The resume's next write is turned down. */
  predicate ResumeRefused(row: Row, s: Resume, choice: Id) {
    match s
    case RequestingCancel(_, run, revision, _) => MoveRun(row, run, RunCancelRequested, revision).None?
    case Cancelling(_, run, revision, _) => MoveRun(row, run, RunCancelled, revision).None?
    case Opening(_) => choice !in row.runs && CreateRun(row, choice).None?
    case Reviving(revision, _) => MoveWork(row, WorkRunning, revision, false).None?
    case _ => false
  }

  /** A refused write ends a resume as a fault does. */
  lemma {:induction false} RefusalEndsAResume(c: Cell, task: Id, choice: Id)
    requires task in c.resumes && ResumeRefused(c.row, c.resumes[task], choice)
    ensures Next(c, Continue(task, choice)) == Next(c, ResumeFault(task)) == c.(resumes := c.resumes - {task})
  {
    hide CreateRun, MoveRun, MoveWork;
  }

  // ---------------------------------------------------------------------------
  // One owner with nobody else acting
  // ---------------------------------------------------------------------------

  function OwnSteps(c: Cell, newId: Id, verdict: Verdict, n: nat): Cell {
    if n == 0 then c else Next(OwnSteps(c, newId, verdict, n - 1), Own(newId, verdict))
  }

  /** How the Work and its Run end: a device has no question to ask. */
  function WorkEnd(device: bool, verdict: Verdict): WorkStatus {
    if verdict == Succeeds then WorkSucceeded else if verdict == Asks && !device then WorkWaiting else WorkFailed
  }

  function RunEnd(device: bool, verdict: Verdict): RunStatus {
    if verdict == Succeeds then RunSucceeded else if verdict == Asks && !device then RunWaiting else RunFailed
  }

  /** The first three calls create the Run and make it RUNNING; the fourth hears the verdict. */
  lemma {:induction false} OwnerStarts(row: Row, device: bool, newId: Id, verdict: Verdict, resumes: map<Id, Resume>)
    requires row.runs == map[]
    ensures OwnSteps(Cell(row, Claimed(device), resumes), newId, verdict, 3)
         == Cell(row.(runs := map[newId := Run(RunRunning, 2)]), Executing(device, newId), resumes)
  {
    var c := Cell(row, Claimed(device), resumes);
    NoRuns(row);
    assert OwnSteps(c, newId, verdict, 0) == c;
    var c1 := OwnSteps(c, newId, verdict, 1);
    assert c1 == Cell(row.(runs := map[newId := Run(RunStarting, 1)]), Created(device, newId), resumes);
    var c2 := OwnSteps(c, newId, verdict, 2);
    assert c2 == Cell(c1.row, Starting(device, newId, 1), resumes);
  }

  lemma {:induction false} FiveSteps(c: Cell, newId: Id, verdict: Verdict)
    ensures OwnSteps(c, newId, verdict, 5)
         == var a := Own(newId, verdict);
            Next(Next(Next(Next(Next(c, a), a), a), a), a)
  {
    hide Next;
    assert OwnSteps(c, newId, verdict, 0) == c;
    assert OwnSteps(c, newId, verdict, 2) == Next(OwnSteps(c, newId, verdict, 1), Own(newId, verdict));
    assert OwnSteps(c, newId, verdict, 4) == Next(OwnSteps(c, newId, verdict, 3), Own(newId, verdict));
  }

  /** The row of an owner whose Run and Work have ended as the verdict says. */
  function Ended(row: Row, device: bool, run: Id, verdict: Verdict): Row {
    Row(WorkEnd(device, verdict), row.revision + 1, row.evidence || verdict == Succeeds, row.leased,
      map[run := Run(RunEnd(device, verdict), 3)])
  }

  lemma {:induction false} SuccessEnds(row: Row, device: bool, run: Id, resumes: map<Id, Resume>)
    requires row.status == WorkRunning && row.runs == map[run := Run(RunRunning, 2)]
    ensures OwnSteps(Cell(row, Executing(device, run), resumes), run, Succeeds, 5)
         == Cell(Ended(row, device, run, Succeeds), Idle, resumes)
  {
    hide OwnSteps, MoveRun, MoveWork, Active;
    FiveSteps(Cell(row, Executing(device, run), resumes), run, Succeeds);
    MoveRunMeans(row, run, RunSucceeded, 2);
    var ended := row.(runs := map[run := Run(RunSucceeded, 3)]);
    assert row.runs[run := Run(RunSucceeded, 3)] == ended.runs;
    assert MoveRun(row, run, RunSucceeded, 2) == Some(ended);
    MoveWorkMeans(ended, WorkSucceeded, row.revision, true);
  }

  lemma {:induction false} QuestionEnds(row: Row, run: Id, resumes: map<Id, Resume>)
    requires row.status == WorkRunning && row.runs == map[run := Run(RunRunning, 2)]
    ensures OwnSteps(Cell(row, Executing(false, run), resumes), run, Asks, 5)
         == Cell(Ended(row, false, run, Asks), Idle, resumes)
  {
    hide OwnSteps, MoveRun, MoveWork, Active;
    FiveSteps(Cell(row, Executing(false, run), resumes), run, Asks);
    MoveWorkMeans(row, WorkWaiting, row.revision, false);
    var parked := row.(status := WorkWaiting, revision := row.revision + 1);
    assert MoveWork(row, WorkWaiting, row.revision, false) == Some(parked);
    MoveRunMeans(parked, run, RunWaiting, 2);
  }

  lemma {:induction false} FailureEnds(row: Row, device: bool, run: Id, verdict: Verdict, resumes: map<Id, Resume>)
    requires row.status == WorkRunning && row.runs == map[run := Run(RunRunning, 2)]
    requires verdict == Fails || (verdict == Asks && device)
    ensures OwnSteps(Cell(row, Executing(device, run), resumes), run, verdict, 5)
         == Cell(Ended(row, device, run, verdict), Idle, resumes)
  {
    hide OwnSteps, MoveRun, MoveWork, Active;
    FiveSteps(Cell(row, Executing(device, run), resumes), run, verdict);
    MoveRunMeans(row, run, RunFailed, 2);
    var ended := row.(runs := map[run := Run(RunFailed, 3)]);
    assert row.runs[run := Run(RunFailed, 3)] == ended.runs;
    assert MoveRun(row, run, RunFailed, 2) == Some(ended);
    MoveWorkMeans(ended, WorkFailed, row.revision, false);
  }

  /** The other five end the Run, then the Work; to park they go the other way round. */
  lemma {:induction false} OwnerEnds(row: Row, device: bool, run: Id, verdict: Verdict, resumes: map<Id, Resume>)
    requires row.status == WorkRunning && row.runs == map[run := Run(RunRunning, 2)]
    ensures OwnSteps(Cell(row, Executing(device, run), resumes), run, verdict, 5)
         == Cell(Ended(row, device, run, verdict), Idle, resumes)
  {
    hide OwnSteps, Ended;
    if verdict == Succeeds {
      SuccessEnds(row, device, run, resumes);
    } else if verdict == Asks && !device {
      QuestionEnds(row, run, resumes);
    } else {
      FailureEnds(row, device, run, verdict, resumes);
    }
  }

  lemma {:induction false} OwnStepsAdd(c: Cell, newId: Id, verdict: Verdict, m: nat, n: nat)
    ensures OwnSteps(c, newId, verdict, m + n) == OwnSteps(OwnSteps(c, newId, verdict, m), newId, verdict, n)
  {
    hide Next;
    if n > 0 {
      OwnStepsAdd(c, newId, verdict, m, n - 1);
    }
  }

  /** A cycle with nobody else acting: the PENDING Work gets one Run, and both end as the verdict says. */
  lemma {:induction false} UndisturbedCycle(c: Cell, newId: Id, verdict: Verdict)
    requires c.row.status == WorkPending && c.row.runs == map[]
    ensures OwnSteps(Next(c, Claim), newId, verdict, 8)
         == Cell(Row(WorkEnd(false, verdict), c.row.revision + 2, c.row.evidence || verdict == Succeeds, c.row.leased,
                     map[newId := Run(RunEnd(false, verdict), 3)]), Idle, c.resumes)
  {
    hide OwnSteps, OwnerNext;
    var d := Next(c, Claim);
    OwnStepsAdd(d, newId, verdict, 3, 5);
    OwnerStarts(d.row, false, newId, verdict, c.resumes);
    OwnerEnds(d.row.(runs := map[newId := Run(RunRunning, 2)]), false, newId, verdict, c.resumes);
  }

  /** A device that claims and later completes, with nobody else acting: the same, but it cannot ask. */
  lemma {:induction false} UndisturbedDevice(c: Cell, newId: Id, verdict: Verdict)
    requires c.row.status == WorkPending && c.row.runs == map[]
    ensures OwnSteps(Next(Next(c, DeviceClaim), DeviceComplete), newId, verdict, 8)
         == Cell(Row(WorkEnd(true, verdict), c.row.revision + 2, c.row.evidence || verdict == Succeeds, false,
                     map[newId := Run(RunEnd(true, verdict), 3)]), Idle, c.resumes)
  {
    hide OwnSteps, OwnerNext;
    var d := Next(Next(c, DeviceClaim), DeviceComplete);
    OwnStepsAdd(d, newId, verdict, 3, 5);
    OwnerStarts(d.row, true, newId, verdict, c.resumes);
    OwnerEnds(d.row.(runs := map[newId := Run(RunRunning, 2)]), true, newId, verdict, c.resumes);
  }

  /** A device completion that finds an active Run reports on that one. */
  lemma {:induction false} DeviceAdoptsAnActiveRun(c: Cell, run: Id, verdict: Verdict)
    requires c.owner == Claimed(true) && run in c.row.runs && RunActive(c.row.runs[run].status)
    ensures Next(c, Own(run, verdict)) == c.(owner := Executing(true, run))
  {
    assert run in Active(c.row);
  }

  // ---------------------------------------------------------------------------
  // What is left behind
  // ---------------------------------------------------------------------------

  /** RUNNING Work that nobody holds is never touched again: neither one resumed after an answer
      nor one whose artifact could not be stored. */
  lemma {:induction false} NobodyRunsItAgain(c: Cell, acts: seq<Action>)
    requires AtRest(c) && c.row.status == WorkRunning && !c.row.leased
    ensures After(c, acts) == c
  {
    if acts != [] {
      NobodyRunsItAgain(c, acts[..|acts| - 1]);
    }
  }

  // ---------------------------------------------------------------------------
  // The operations, uninterrupted
  // ---------------------------------------------------------------------------

  /** `d` is reached from `c` by steps of the machine. */
  ghost predicate Leads(c: Cell, d: Cell) { exists acts :: FaultFree(acts) && After(c, acts) == d }

  lemma {:induction false} LeadsSelf(c: Cell)
    ensures Leads(c, c)
  {
    assert After(c, []) == c;
  }

  lemma {:induction false} LeadsStep(c: Cell, d: Cell, a: Action)
    requires Leads(c, d) && !Faulty(a)
    ensures Leads(c, Next(d, a))
  {
    hide Next;
    var acts :| FaultFree(acts) && After(c, acts) == d;
    assert (acts + [a])[..|acts|] == acts;
    assert After(c, acts + [a]) == Next(d, a);
  }

  lemma {:induction false} LeadsKeepsInv(c: Cell, d: Cell)
    requires Leads(c, d) && Inv(c)
    ensures Inv(d)
  {
    hide Inv, After;
    var acts :| FaultFree(acts) && After(c, acts) == d;
    RunKeepsInv(c, acts);
  }

  class ExecutorLoop {
    var rows: map<Id, Row>
    var refusals: nat

    ghost predicate Valid()
      reads this
    {
      forall w :: w in rows ==> Inv(Cell(rows[w], Idle, map[]))
    }

    method CreateRunCall(w: Id, r: Id) returns (ok: bool)
      requires w in rows
      modifies this
      ensures ok == CreateRun(old(rows[w]), r).Some?
      ensures rows == old(rows)[w := Or(CreateRun(old(rows[w]), r), old(rows[w]))]
      ensures refusals == old(refusals) + if ok then 0 else 1
    {
      var made := CreateRun(rows[w], r);
      ok := made.Some?;
      if ok {
        rows := rows[w := made.value];
      } else {
        refusals := refusals + 1;
      }
    }

    method MoveRunCall(w: Id, r: Id, target: RunStatus, expected: int) returns (ok: bool)
      requires w in rows
      modifies this
      ensures ok == MoveRun(old(rows[w]), r, target, expected).Some?
      ensures rows == old(rows)[w := Or(MoveRun(old(rows[w]), r, target, expected), old(rows[w]))]
      ensures refusals == old(refusals) + if ok then 0 else 1
    {
      var moved := MoveRun(rows[w], r, target, expected);
      ok := moved.Some?;
      if ok {
        rows := rows[w := moved.value];
      } else {
        refusals := refusals + 1;
      }
    }

    method MoveWorkCall(w: Id, target: WorkStatus, expected: int, evidence: bool) returns (ok: bool)
      requires w in rows
      modifies this
      ensures ok == MoveWork(old(rows[w]), target, expected, evidence).Some?
      ensures rows == old(rows)[w := Or(MoveWork(old(rows[w]), target, expected, evidence), old(rows[w]))]
      ensures refusals == old(refusals) + if ok then 0 else 1
    {
      var moved := MoveWork(rows[w], target, expected, evidence);
      ok := moved.Some?;
      if ok {
        rows := rows[w := moved.value];
      } else {
        refusals := refusals + 1;
      }
    }

    /** `_succeed`: close the Run, then the Work with its evidence. */
    method Succeed(w: Id, run: Id, device: bool)
      requires w in rows && rows[w].status == WorkRunning && Only(rows[w], run, RunRunning)
      modifies this
      ensures w in rows && rows == old(rows)[w := rows[w]] && refusals == old(refusals)
      ensures rows[w].status == WorkSucceeded && rows[w].evidence && rows[w].leased == old(rows[w].leased)
      ensures rows[w].runs == old(rows[w].runs)[run := Run(RunSucceeded, old(rows[w].runs[run].revision) + 1)]
      ensures Leads(Cell(old(rows[w]), Succeeding(device, run), map[]), Cell(rows[w], Idle, map[]))
    {
      hide Active, Next, Leads;
      ghost var start := Cell(rows[w], Succeeding(device, run), map[]);
      Moved(rows[w], run, RunRunning, RunSucceeded);
      var revision := RevisionOf(rows[w], run);
      ghost var c := FollowOwn(start, start, run, Succeeds);
      var ok := MoveRunCall(w, run, RunSucceeded, revision);
      c := FollowOwn(start, c, run, Succeeds);
      var workRevision := rows[w].revision;
      c := FollowOwn(start, c, run, Succeeds);
      ok := MoveWorkCall(w, WorkSucceeded, workRevision, true);
      c := FollowOwn(start, c, run, Succeeds);
      assert c == Cell(rows[w], Idle, map[]);
    }

    /** `_fail`: close the Run if there is one, then the Work; a refusal is swallowed. */
    method Fail(w: Id, run: Id, ghost device: bool)
      requires w in rows && rows[w].status == WorkRunning && Only(rows[w], run, RunRunning)
      modifies this
      ensures w in rows && rows == old(rows)[w := rows[w]] && refusals == old(refusals)
      ensures rows[w].status == WorkFailed && rows[w].leased == old(rows[w].leased)
      ensures rows[w].runs == old(rows[w].runs)[run := Run(RunFailed, old(rows[w].runs[run].revision) + 1)]
      ensures Leads(Cell(old(rows[w]), Failing(device, run), map[]), Cell(rows[w], Idle, map[]))
    {
      hide Active, Next, Leads;
      ghost var start := Cell(rows[w], Failing(device, run), map[]);
      Moved(rows[w], run, RunRunning, RunFailed);
      var revision := RevisionOf(rows[w], run);
      ghost var c := FollowOwn(start, start, run, Fails);
      var ok := MoveRunCall(w, run, RunFailed, revision);
      c := FollowOwn(start, c, run, Fails);
      var workRevision := rows[w].revision;
      c := FollowOwn(start, c, run, Fails);
      ok := MoveWorkCall(w, WorkFailed, workRevision, false);
      c := FollowOwn(start, c, run, Fails);
      assert c == Cell(rows[w], Idle, map[]);
    }

    /** `_to_waiting`: park the Work, then its Run. */
    method ToWaiting(w: Id, run: Id)
      requires w in rows && rows[w].status == WorkRunning && Only(rows[w], run, RunRunning)
      modifies this
      ensures w in rows && rows == old(rows)[w := rows[w]] && refusals == old(refusals)
      ensures rows[w].status == WorkWaiting && Only(rows[w], run, RunWaiting)
      ensures rows[w].runs == old(rows[w].runs)[run := Run(RunWaiting, old(rows[w].runs[run].revision) + 1)]
      ensures Leads(Cell(old(rows[w]), Asking(run), map[]), Cell(rows[w], Idle, map[]))
    {
      hide Active, Next, Leads;
      ghost var start := Cell(rows[w], Asking(run), map[]);
      var workRevision := rows[w].revision;
      ghost var c := FollowOwn(start, start, run, Asks);
      var ok := MoveWorkCall(w, WorkWaiting, workRevision, false);
      c := FollowOwn(start, c, run, Asks);
      SameRuns(old(rows[w]), rows[w]);
      Moved(rows[w], run, RunRunning, RunWaiting);
      var revision := RevisionOf(rows[w], run);
      c := FollowOwn(start, c, run, Asks);
      ok := MoveRunCall(w, run, RunWaiting, revision);
      c := FollowOwn(start, c, run, Asks);
      assert c == Cell(rows[w], Idle, map[]);
    }

    /** Create a Run and start it, on behalf of an executor or a device. */
    method CreateRunFor(w: Id, newId: Id, device: bool)
      requires w in rows && rows[w].status == WorkRunning && rows[w].runs == map[]
      modifies this
      ensures w in rows && rows == old(rows)[w := rows[w]] && refusals == old(refusals)
      ensures rows[w] == old(rows[w]).(runs := map[newId := Run(RunRunning, 2)]) && Only(rows[w], newId, RunRunning)
      ensures Leads(Cell(old(rows[w]), Claimed(device), map[]), Cell(rows[w], Executing(device, newId), map[]))
    {
      hide Active, Next, Leads;
      ghost var start := Cell(rows[w], Claimed(device), map[]);
      NoRuns(rows[w]);
      Opened(rows[w], newId);
      var ok := CreateRunCall(w, newId);
      ghost var c := FollowOwn(start, start, newId, Fails);
      var revision := RevisionOf(rows[w], newId);
      c := FollowOwn(start, c, newId, Fails);
      Moved(rows[w], newId, RunStarting, RunRunning);
      ok := MoveRunCall(w, newId, RunRunning, revision);
      c := FollowOwn(start, c, newId, Fails);
      assert rows[w].runs == map[newId := Run(RunRunning, 2)];
    }

    /** `_execute_claimed_work`: one outcome path, `workerFound` and `verdict` being the worker's. */
    method ExecuteClaimedWork(w: Id, newId: Id, workerFound: bool, verdict: Verdict)
      requires w in rows && rows[w].status == WorkRunning && rows[w].runs == map[]
      modifies this
      ensures w in rows && rows == old(rows)[w := rows[w]] && refusals == old(refusals)
      ensures
        var d := if workerFound then verdict else Fails;
        && rows[w].status == (if d == Fails then WorkFailed else if d == Asks then WorkWaiting else WorkSucceeded)
        && rows[w].runs.Keys == {newId}
        && rows[w].runs[newId].status == (if d == Fails then RunFailed else if d == Asks then RunWaiting else RunSucceeded)
        && (d == Succeeds ==> rows[w].evidence)
      ensures Leads(Cell(old(rows[w]), Claimed(false), map[]), Cell(rows[w], Idle, map[]))
    {
      hide Leads, Active, ResumeNext;
      CreateRunFor(w, newId, false);
      ghost var start, mid := Cell(old(rows[w]), Claimed(false), map[]), Cell(rows[w], Executing(false, newId), map[]);
      if !workerFound || verdict == Fails {
        ghost var c := Follow(start, mid, Own(newId, Fails));
        Fail(w, newId, false);
        LeadsOn(start, c, Cell(rows[w], Idle, map[]));
      } else if verdict == Asks {
        ghost var c := Follow(start, mid, Own(newId, Asks));
        ToWaiting(w, newId);
        LeadsOn(start, c, Cell(rows[w], Idle, map[]));
      } else {
        ghost var c := Follow(start, mid, Own(newId, Succeeds));
        Succeed(w, newId, false);
        LeadsOn(start, c, Cell(rows[w], Idle, map[]));
      }
    }

    /** One cycle on one Work: claim it if it is PENDING, then drive it. */
    method RunOneCycle(w: Id, newId: Id, workerFound: bool, verdict: Verdict) returns (claimed: bool)
      requires Valid()
      modifies this
      ensures Valid() && refusals == old(refusals) && rows.Keys == old(rows).Keys
      ensures claimed == (w in old(rows) && old(rows)[w].status == WorkPending)
      ensures !claimed ==> rows == old(rows)
      ensures claimed ==> rows == old(rows)[w := rows[w]]
      ensures claimed ==> rows[w].status in {WorkFailed, WorkWaiting, WorkSucceeded} && Coupled(rows[w])
    {
      hide Leads, Inv, Coupled, ResumeNext;
      claimed := w in rows && rows[w].status == WorkPending;
      if claimed {
        ghost var start := Cell(rows[w], Idle, map[]);
        PendingMeans(start);
        ghost var c := Follow(start, start, Claim);
        rows := rows[w := rows[w].(status := WorkRunning, revision := rows[w].revision + 1)];
        ExecuteClaimedWork(w, newId, workerFound, verdict);
        LeadsOn(start, c, Cell(rows[w], Idle, map[]));
        LeadsKeepsInv(start, Cell(rows[w], Idle, map[]));
        RestIsCoupled(rows[w]);
      }
    }

    /** A device's claim: PENDING Work becomes RUNNING under a lease, and has no Run yet. */
    method ClaimForDevice(w: Id) returns (claimed: bool)
      requires Valid()
      modifies this
      ensures Valid() && refusals == old(refusals) && rows.Keys == old(rows).Keys
      ensures claimed == (w in old(rows) && old(rows)[w].status == WorkPending)
      ensures !claimed ==> rows == old(rows)
      ensures claimed ==> rows == old(rows)[w := rows[w]] && rows[w].status == WorkRunning && rows[w].leased && rows[w].runs == map[]
    {
      hide Leads, Inv, Coupled, ResumeNext;
      claimed := w in rows && rows[w].status == WorkPending;
      if claimed {
        ghost var start := Cell(rows[w], Idle, map[]);
        PendingMeans(start);
        ghost var c := Follow(start, start, DeviceClaim);
        rows := rows[w := rows[w].(status := WorkRunning, revision := rows[w].revision + 1, leased := true)];
        PendingIsIdle(start);
        LeadsKeepsInv(start, c);
      }
    }

    /** `complete_work` behind the lease check: no Run exists until the device reports. */
    method CompleteWork(w: Id, newId: Id, succeeded: bool) returns (done: bool)
      requires Valid()
      modifies this
      ensures Valid() && refusals == old(refusals) && rows.Keys == old(rows).Keys
      ensures done == (w in old(rows) && old(rows)[w].leased)
      ensures !done ==> rows == old(rows)
      ensures done ==> rows == old(rows)[w := rows[w]] && Coupled(rows[w]) && !rows[w].leased
      ensures done ==> rows[w].status == (if succeeded then WorkSucceeded else WorkFailed)
    {
      hide Leads, Inv, Coupled, Only, ResumeNext;
      done := w in rows && rows[w].leased;
      if done {
        ghost var start := Cell(rows[w], Idle, map[]);
        LeasedMeans(start);
        ghost var c := Follow(start, start, DeviceComplete);
        rows := rows[w := rows[w].(leased := false)];
        CreateRunFor(w, newId, true);
        c := LeadsTo(start, c, Cell(rows[w], Executing(true, newId), map[]));
        if succeeded {
          c := Follow(start, c, Own(newId, Succeeds));
          Succeed(w, newId, true);
        } else {
          c := Follow(start, c, Own(newId, Fails));
          Fail(w, newId, true);
        }
        LeadsOn(start, c, Cell(rows[w], Idle, map[]));
        LeadsKeepsInv(start, Cell(rows[w], Idle, map[]));
        RestIsCoupled(rows[w]);
      }
    }

    /** One prior Run of a resume: request its cancellation, then cancel it. */
    method CloseRun(w: Id, run: Id, ghost revision: int)
      requires w in rows && Only(rows[w], run, RunWaiting)
      modifies this
      ensures w in rows && rows == old(rows)[w := rows[w]] && refusals == old(refusals)
      ensures rows[w].runs == old(rows[w].runs)[run := Run(RunCancelled, old(rows[w].runs[run].revision) + 2)]
      ensures rows[w] == old(rows[w]).(runs := rows[w].runs) && Quiet(rows[w])
      ensures Leads(Resuming(old(rows[w]), Closing(revision, {run})), Resuming(rows[w], Closing(revision, {})))
    {
      hide Active, Next, Leads;
      ghost var start := Resuming(rows[w], Closing(revision, {run}));
      var runRevision := RevisionOf(rows[w], run);
      ghost var c := FollowResume(start, start, run);
      Moved(rows[w], run, RunWaiting, RunCancelRequested);
      var ok := MoveRunCall(w, run, RunCancelRequested, runRevision);
      c := FollowResume(start, c, run);
      runRevision := RevisionOf(rows[w], run);
      c := FollowResume(start, c, run);
      Moved(rows[w], run, RunCancelRequested, RunCancelled);
      ok := MoveRunCall(w, run, RunCancelled, runRevision);
      c := FollowResume(start, c, run);
      assert c == Resuming(rows[w], Closing(revision, {run} - {run}));
      assert {run} - {run} == {};
    }

    /** The end of a resume: a fresh Run, then the Work. */
    method Revive(w: Id, newId: Id, revision: int)
      requires w in rows && rows[w].status == WorkWaiting && rows[w].revision == revision
      requires Quiet(rows[w]) && newId !in rows[w].runs
      modifies this
      ensures w in rows && rows == old(rows)[w := rows[w]] && refusals == old(refusals)
      ensures rows[w].status == WorkRunning && Only(rows[w], newId, RunStarting)
      ensures rows[w].runs == old(rows[w].runs)[newId := Run(RunStarting, 1)]
      ensures Leads(Resuming(old(rows[w]), Closing(revision, {})), Cell(rows[w], Idle, map[]))
    {
      hide Active, Next, Leads;
      ghost var start := Resuming(rows[w], Closing(revision, {}));
      ghost var c := FollowResume(start, start, newId);
      Opened(rows[w], newId);
      var ok := CreateRunCall(w, newId);
      c := FollowResume(start, c, newId);
      SameRuns(rows[w], rows[w].(status := WorkRunning, revision := revision + 1));
      ok := MoveWorkCall(w, WorkRunning, revision, false);
      c := FollowResume(start, c, newId);
      assert c == Cell(rows[w], Idle, map[]);
    }

    /** `resume_answered_work`: close every active Run, open a fresh one, revive the Work. */
    method ResumeAnsweredWork(w: Id, newId: Id) returns (resumed: bool)
      requires Valid()
      requires w in rows ==> newId !in rows[w].runs
      modifies this
      ensures Valid() && refusals == old(refusals) && rows.Keys == old(rows).Keys
      ensures resumed == (w in old(rows) && old(rows)[w].status == WorkWaiting)
      ensures !resumed ==> rows == old(rows)
      ensures resumed ==> rows == old(rows)[w := rows[w]]
      ensures resumed ==> rows[w].status == WorkRunning && Only(rows[w], newId, RunStarting)
    {
      hide Active, Inv, Next, After, Leads;
      resumed := w in rows && rows[w].status == WorkWaiting;
      if resumed {
        ghost var start := Cell(rows[w], Idle, map[]);
        WaitingAtRest(start);
        var revision := rows[w].revision;
        var prior := Active(rows[w]);
        ghost var c := BeginsResume(start);
        ghost var waiting :| Only(rows[w], waiting, RunWaiting);
        while prior != {}
          invariant w in rows && rows == old(rows)[w := rows[w]] && refusals == old(refusals)
          invariant rows[w].status == WorkWaiting && rows[w].revision == revision && newId !in rows[w].runs
          invariant prior == Active(rows[w]) && (prior == {} || prior == {waiting})
          invariant prior != {} ==> Only(rows[w], waiting, RunWaiting)
          invariant Leads(start, Resuming(rows[w], Closing(revision, prior)))
          decreases |prior|
        {
          var run :| run in prior;
          assert prior == {run};
          c := Resuming(rows[w], Closing(revision, prior));
          CloseRun(w, run, revision);
          LeadsOn(start, c, Resuming(rows[w], Closing(revision, {})));
          prior := prior - {run};
          assert prior == {};
        }
        c := Resuming(rows[w], Closing(revision, {}));
        Revive(w, newId, revision);
        LeadsOn(start, c, Cell(rows[w], Idle, map[]));
        LeadsKeepsInv(start, Cell(rows[w], Idle, map[]));
      }
    }
  }

  ghost function Resuming(row: Row, s: Resume): Cell { Cell(row, Idle, map[0 := s]) }

  ghost function BeginsResume(c: Cell): (d: Cell)
    requires AtRest(c) && c.row.status == WorkWaiting
    ensures d == Resuming(c.row, Closing(c.row.revision, Active(c.row))) && Leads(c, d)
  {
    var seen := Follow(c, c, Answer(0));
    Follow(c, seen, Continue(0, 0))
  }

  lemma {:induction false} LeadsOn(a: Cell, b: Cell, c: Cell)
    requires Leads(a, b) && Leads(b, c)
    ensures Leads(a, c)
  {
    var first :| FaultFree(first) && After(a, first) == b;
    var more :| FaultFree(more) && After(b, more) == c;
    AfterAppend(a, first, more);
    assert FaultFree(first + more);
  }

  ghost function LeadsTo(a: Cell, b: Cell, c: Cell): (d: Cell)
    requires Leads(a, b) && Leads(b, c)
    ensures d == c && Leads(a, d)
  {
    LeadsOn(a, b, c);
    c
  }

  lemma {:induction false} AfterAppend(c: Cell, first: seq<Action>, more: seq<Action>)
    ensures After(c, first + more) == After(After(c, first), more)
  {
    hide Next;
    if more == [] {
      assert first + more == first;
    } else {
      var n := |more| - 1;
      assert (first + more)[..|first| + n] == first + more[..n];
      AfterAppend(c, first, more[..n]);
    }
  }

  lemma {:induction false} RestIsCoupled(row: Row)
    requires Inv(Cell(row, Idle, map[]))
    ensures Coupled(row)
  {
    WaitingHasOneRun(Cell(row, Idle, map[]));
    hide Active;
  }

  lemma {:induction false} WaitingAtRest(c: Cell)
    requires Inv(c) && AtRest(c) && c.row.status == WorkWaiting
    ensures exists r :: Only(c.row, r, RunWaiting)
  {
  }

  lemma {:induction false} PendingIsIdle(c: Cell)
    requires Inv(c) && c.row.status == WorkPending
    ensures c.owner == Idle && c.resumes == map[]
  {
  }

  lemma {:induction false} PendingMeans(c: Cell)
    requires Inv(c) && c.row.status == WorkPending
    ensures c.row.runs == map[]
  {
  }

  lemma {:induction false} LeasedMeans(c: Cell)
    requires Inv(c) && c.row.leased
    ensures c.row.status == WorkRunning && c.row.runs == map[] && c.owner == Idle && c.resumes == map[]
  {
    hide Active;
    if r :| Only(c.row, r, RunStarting) {
    }
  }

  ghost function FollowOwn(start: Cell, c: Cell, newId: Id, verdict: Verdict): (d: Cell)
    requires Leads(start, c) || c == start
    ensures
      var (row, owner) := OwnerNext(c.row, c.owner, newId, verdict);
      d == Cell(row, owner, c.resumes) && Leads(start, d)
  {
    Follow(start, c, Own(newId, verdict))
  }

  ghost function FollowResume(start: Cell, c: Cell, choice: Id): (d: Cell)
    requires Leads(start, c) || c == start
    requires c.owner == Idle && c.resumes.Keys == {0}
    ensures
      var (row, next) := ResumeNext(c.row, c.resumes[0], choice);
      d == (if next.Some? then Resuming(row, next.value) else Cell(row, Idle, map[])) && Leads(start, d)
  {
    assert c.resumes - {0} == map[];
    assert forall s :: c.resumes[0 := s] == map[0 := s];
    Follow(start, c, Continue(0, choice))
  }

  ghost function Follow(start: Cell, c: Cell, a: Action): (d: Cell)
    requires (Leads(start, c) || c == start) && !Faulty(a)
    ensures d == Next(c, a) && Leads(start, d)
  {
    LeadsSelf(start);
    LeadsStep(start, c, a);
    Next(c, a)
  }
}
