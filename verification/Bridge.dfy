/**
 The durable run bridge: starters and reconcilers race to link a semantic Run to one
 external execution. Every await of the source is one step here, so the model is all
 interleavings of any number of processes, each of which may crash between any two steps,
 and of other writers that move a Run along its own transition table.
 */
module Bridge {
  import opened Common
  import opened Lifecycle

  type RunId = string
  type Pid = nat

  datatype ExecutionRef = ExecutionRef(backend: string, executionId: string, version: int)

  // ---------------------------------------------------------------------------
  // The durable port and the run table
  // ---------------------------------------------------------------------------

  /** `created` lists the run of every external execution ever started, in order. */
  datatype Port = Port(refs: map<RunId, ExecutionRef>, created: seq<RunId>)

  function PortStart(p: Port, run: RunId): Port {
    if run in p.refs then p
    else Port(p.refs[run := ExecutionRef("fake_durable", "exec_" + run, 1)], p.created + [run])
  }

  datatype Row = Row(status: RunStatus, ref: Option<ExecutionRef>, revision: nat)

  type Rows = map<RunId, Row>

  datatype Write = Written(rows: Rows) | NotFound | StaleRevision | RefConflict | Illegal

  /** `attach_execution_ref`: revision first, then compare-and-set on the ref. */
  function Attach(rows: Rows, run: RunId, revision: nat, ref: ExecutionRef): Write {
    if run !in rows then NotFound
    else if rows[run].revision != revision then StaleRevision
    else if rows[run].ref == None then Written(rows[run := Row(rows[run].status, Some(ref), revision + 1)])
    else if rows[run].ref == Some(ref) then Written(rows)
    else RefConflict
  }

  /** `transition_run_status`: revision first, then the run transition table. */
  function Transition(rows: Rows, run: RunId, target: RunStatus, revision: nat): Write {
    if run !in rows then NotFound
    else if rows[run].revision != revision then StaleRevision
    else match TransitionRun(rows[run].status, target)
      case Refused(_) => Illegal
      case Allowed(next) => Written(rows[run := Row(next, rows[run].ref, revision + 1)])
  }

  /** `run_revision`: an unknown Run reads as revision 1. */
  function Revision(rows: Rows, run: RunId): nat {
    if run in rows then rows[run].revision else 1
  }

  predicate Candidate(rows: Rows, run: RunId) {
    run in rows && rows[run].status == RunStarting && rows[run].ref == None
  }

  // ---------------------------------------------------------------------------
  // Processes
  // ---------------------------------------------------------------------------

  /** Where a process stands; each constructor names the await it makes next. */
  datatype Pc =
    | StartCall(given: nat)                              // start_run, step 2
    | StartAttach(given: nat, ref: ExecutionRef)         // start_run, step 3
    | ReadRun(attempt: nat)                              // top of the retry loop
    | ReadRevision(attempt: nat)
    | FindCall(attempt: nat, rev: nat)
    | RecoverStart(attempt: nat, rev: nat)
    | RecoverAttach(attempt: nat, rev: nat, ref: ExecutionRef)
    | ReadWinner(ref: ExecutionRef)                      // after an ExecutionRefConflict
    | TailRevision(ref: ExecutionRef)                    // ref attached, RUNNING still to come
    | TailRunning(ref: ExecutionRef, rev: nat)
    | FailRead                                           // attempts exhausted
    | FailRevision
    | FailWrite(rev: nat)
    | Returned(ref: ExecutionRef)
    | Stopped                                            // raised, crashed or finished

  /** `attaches` counts the attach calls made for the current run; `queue` is the rest of the pass, which a
      starter does not have. */
  datatype Process = Process(run: RunId, pc: Pc, attaches: nat, queue: seq<RunId>, starter: bool)

  datatype State = State(rows: Rows, port: Port, procs: map<Pid, Process>)

  /** Entering `_reconcile_one`: with no attempts allowed it fails at once. */
  function EnterReconcile(max: int): Pc {
    if max <= 0 then FailRead else ReadRun(0)
  }

  function NextAttempt(max: int, attempt: nat): Pc {
    if attempt + 1 < max then ReadRun(attempt + 1) else FailRead
  }

  /** One step of one process against the run table and the port. */
  function Advance(max: int, rows: Rows, port: Port, p: Process): (Rows, Port, Process) {
    match p.pc
    case StartCall(given) =>
      var port' := PortStart(port, p.run);
      (rows, port', p.(pc := StartAttach(given, port'.refs[p.run])))
    case StartAttach(given, ref) =>
      (match Attach(rows, p.run, given, ref)
       case Written(rows') => (rows', port, p.(pc := TailRevision(ref), attaches := p.attaches + 1))
       case _ => (rows, port, p.(pc := Stopped, attaches := p.attaches + 1)))
    case ReadRun(attempt) =>
      (rows, port, p.(pc :=
        if p.run !in rows then Stopped
        else if rows[p.run].ref == None then ReadRevision(attempt)
        else if rows[p.run].status == RunStarting then TailRevision(rows[p.run].ref.value)
        else Returned(rows[p.run].ref.value)))
    case ReadRevision(attempt) =>
      (rows, port, p.(pc := FindCall(attempt, Revision(rows, p.run))))
    case FindCall(attempt, rev) =>
      (rows, port, p.(pc :=
        if p.run in port.refs then RecoverAttach(attempt, rev, port.refs[p.run]) else RecoverStart(attempt, rev)))
    case RecoverStart(attempt, rev) =>
      var port' := PortStart(port, p.run);
      (rows, port', p.(pc := RecoverAttach(attempt, rev, port'.refs[p.run])))
    case RecoverAttach(attempt, rev, ref) =>
      (match Attach(rows, p.run, rev, ref)
       case Written(rows') => (rows', port, p.(pc := TailRevision(ref), attaches := p.attaches + 1))
       case StaleRevision => (rows, port, p.(pc := NextAttempt(max, attempt), attaches := p.attaches + 1))
       case RefConflict => (rows, port, p.(pc := ReadWinner(ref), attaches := p.attaches + 1))
       case _ => (rows, port, p.(pc := Stopped, attaches := p.attaches + 1)))
    case ReadWinner(ref) =>
      (rows, port, p.(pc :=
        if p.run !in rows || rows[p.run].ref != Some(ref) then Stopped
        else if rows[p.run].status == RunStarting then TailRevision(ref)
        else Returned(ref)))
    case TailRevision(ref) =>
      (rows, port, p.(pc := TailRunning(ref, Revision(rows, p.run))))
    case TailRunning(ref, rev) =>
      (match Transition(rows, p.run, RunRunning, rev)
       case Written(rows') => (rows', port, p.(pc := Returned(ref)))
       case _ => (rows, port, p.(pc := Stopped)))
    case FailRead =>
      (rows, port, p.(pc :=
        if p.run !in rows || rows[p.run].status != RunStarting then Stopped else FailRevision))
    case FailRevision =>
      (rows, port, p.(pc := FailWrite(Revision(rows, p.run))))
    case FailWrite(rev) =>
      (match Transition(rows, p.run, RunFailed, rev)
       case Written(rows') => (rows', port, p.(pc := Stopped))
       case _ => (rows, port, p.(pc := Stopped)))
    case Returned(_) =>
      if p.queue == [] then (rows, port, p.(pc := Stopped))
      else (rows, port, Process(p.queue[0], EnterReconcile(max), 0, p.queue[1..], p.starter))
    case Stopped => (rows, port, p)
  }

  datatype Action =
    | CreateRun(run: RunId)                                             // step 1, the caller's commit
    | SpawnStart(pid: Pid, run: RunId, seen: RunStatus, revision: nat)  // start_run(record, revision)
    | SpawnPass(pid: Pid, order: seq<RunId>)                            // reconcile_starting_runs
    | Step(pid: Pid)
    | Crash(pid: Pid)
    | OtherWriter(run: RunId, target: RunStatus)                        // any legal transition by someone else

  /** A pass lists exactly the candidates of the moment, in the store's own order. */
  ghost predicate Lists(rows: Rows, order: seq<RunId>) {
    && (forall r :: r in order <==> Candidate(rows, r))
    && (forall i, j :: 0 <= i < j < |order| ==> order[i] != order[j])
  }

  ghost function Next(max: int, s: State, a: Action): State {
    match a
    case CreateRun(run) =>
      if run in s.rows then s else s.(rows := s.rows[run := Row(RunStarting, None, 1)])
    case SpawnStart(pid, run, seen, revision) =>
      if pid in s.procs then s
      else s.(procs := s.procs[pid :=
        Process(run, if seen == RunStarting then StartCall(revision) else Stopped, 0, [], true)])
    case SpawnPass(pid, order) =>
      if pid in s.procs || !Lists(s.rows, order) || order == [] then s
      else s.(procs := s.procs[pid := Process(order[0], EnterReconcile(max), 0, order[1..], false)])
    case Step(pid) =>
      if pid !in s.procs then s
      else
        var (rows, port, p) := Advance(max, s.rows, s.port, s.procs[pid]);
        State(rows, port, s.procs[pid := p])
    case Crash(pid) =>
      if pid !in s.procs then s
      else s.(procs := s.procs[pid := s.procs[pid].(pc := Stopped)])
    case OtherWriter(run, target) =>
      (match Transition(s.rows, run, target, Revision(s.rows, run))
       case Written(rows) => s.(rows := rows)
       case _ => s)
  }

  const Initial := State(map[], Port(map[], []), map[])

  ghost function After(max: int, s: State, acts: seq<Action>): State {
    if acts == [] then s else Next(max, After(max, s, acts[..|acts| - 1]), acts[|acts| - 1])
  }

  // ---------------------------------------------------------------------------
  // The invariant
  // ---------------------------------------------------------------------------

  ghost predicate PortOk(p: Port) {
    && (forall r :: r in p.refs <==> r in p.created)
    && (forall i, j :: 0 <= i < j < |p.created| ==> p.created[i] != p.created[j])
  }

  /** An attached ref is the port's own; a STARTING row has counted only its attach. */
  ghost predicate RowOk(port: Port, run: RunId, row: Row) {
    && (row.ref.Some? ==> run in port.refs && port.refs[run] == row.ref.value)
    && row.revision >= 1
    && (row.status == RunStarting ==> row.revision == (if row.ref == None then 1 else 2))
  }

  ghost predicate HoldsRef(port: Port, run: RunId, ref: ExecutionRef) {
    run in port.refs && port.refs[run] == ref
  }

  /** From the second attempt on, the run that was read without a ref has left STARTING. */
  ghost predicate Trying(max: int, rows: Rows, p: Process, attempt: nat) {
    && !p.starter && attempt < max
    && p.attaches == attempt
    && p.run in rows
    && (attempt >= 1 ==> rows[p.run].status != RunStarting)
  }

  ghost predicate ProcessOk(max: int, rows: Rows, port: Port, p: Process) {
    match p.pc
    case StartCall(_) => p.starter && p.attaches == 0 && p.queue == []
    case StartAttach(_, ref) => p.starter && p.attaches == 0 && p.queue == [] && HoldsRef(port, p.run, ref)
    case ReadRun(attempt) =>
      && !p.starter && attempt < max && p.attaches == attempt
      && (attempt >= 1 ==> p.run in rows && !Candidate(rows, p.run))
    case ReadRevision(attempt) => Trying(max, rows, p, attempt)
    case FindCall(attempt, rev) => Trying(max, rows, p, attempt) && 1 <= rev <= rows[p.run].revision
    case RecoverStart(attempt, rev) => Trying(max, rows, p, attempt) && 1 <= rev <= rows[p.run].revision
    case RecoverAttach(attempt, rev, ref) =>
      Trying(max, rows, p, attempt) && 1 <= rev <= rows[p.run].revision && HoldsRef(port, p.run, ref)
    case ReadWinner(_) => false
    case TailRevision(ref) =>
      HoldsRef(port, p.run, ref) && p.run in rows && rows[p.run].ref == Some(ref) && AttachBound(max, p)
    case TailRunning(ref, _) =>
      HoldsRef(port, p.run, ref) && p.run in rows && rows[p.run].ref == Some(ref) && AttachBound(max, p)
    case FailRead =>
      !p.starter && AttachBound(max, p) && (max >= 2 ==> p.run in rows && rows[p.run].status != RunStarting)
    case FailRevision => !p.starter && AttachBound(max, p) && max < 2
    case FailWrite(_) => !p.starter && AttachBound(max, p) && max < 2
    case Returned(ref) =>
      HoldsRef(port, p.run, ref) && p.run in rows && rows[p.run].ref == Some(ref) && AttachBound(max, p)
    case Stopped => AttachBound(max, p)
  }

  /** A starter attaches at most once, a reconciler at most `max` times per run. */
  ghost predicate AttachBound(max: int, p: Process) {
    if p.starter then p.attaches <= 1 && p.queue == [] else p.attaches == 0 || p.attaches <= max
  }

  ghost predicate Inv(max: int, s: State) {
    && PortOk(s.port)
    && (forall r :: r in s.rows ==> RowOk(s.port, r, s.rows[r]))
    && (forall pid :: pid in s.procs ==> ProcessOk(max, s.rows, s.port, s.procs[pid]))
  }

  /** What one write may do to the table and the port, seen by everybody else. */
  ghost predicate Grows(rows: Rows, port: Port, rows': Rows, port': Port) {
    && (forall r :: r in port.refs ==> r in port'.refs && port'.refs[r] == port.refs[r])
    && (forall r :: r in rows ==>
          && r in rows'
          && rows'[r].revision >= rows[r].revision
          && (rows[r].ref.Some? ==> rows'[r].ref == rows[r].ref)
          && (rows[r].status != RunStarting ==> rows'[r].status != RunStarting))
  }

  lemma GrowthKeepsProcess(max: int, rows: Rows, port: Port, rows': Rows, port': Port, p: Process)
    requires ProcessOk(max, rows, port, p) && Grows(rows, port, rows', port')
    ensures ProcessOk(max, rows', port', p)
  {
  }

  ghost predicate TableOk(rows: Rows, port: Port) {
    PortOk(port) && forall r :: r in rows ==> RowOk(port, r, rows[r])
  }

  lemma StartGrows(rows: Rows, port: Port, run: RunId)
    requires TableOk(rows, port)
    ensures TableOk(rows, PortStart(port, run)) && Grows(rows, port, rows, PortStart(port, run))
    ensures run in PortStart(port, run).refs
  {
  }

  lemma AttachGrows(rows: Rows, port: Port, run: RunId, revision: nat, ref: ExecutionRef)
    requires TableOk(rows, port) && HoldsRef(port, run, ref)
    ensures Attach(rows, run, revision, ref) != RefConflict && Attach(rows, run, revision, ref) != Illegal
    ensures Attach(rows, run, revision, ref).Written? ==>
              var rows' := Attach(rows, run, revision, ref).rows;
              TableOk(rows', port) && Grows(rows, port, rows', port) && run in rows' && rows'[run].ref == Some(ref)
  {
    assert run in rows ==> RowOk(port, run, rows[run]);
  }

  lemma TransitionGrows(rows: Rows, port: Port, run: RunId, target: RunStatus, revision: nat)
    requires TableOk(rows, port)
    ensures Transition(rows, run, target, revision).Written? ==>
              var rows' := Transition(rows, run, target, revision).rows;
              TableOk(rows', port) && Grows(rows, port, rows', port)
  {
    assert run in rows ==> RowOk(port, run, rows[run]);
  }

  /** A step keeps the table and the port in order, and the process itself. */
  ghost predicate StepKeeps(max: int, rows: Rows, port: Port, p: Process) {
    var (rows', port', p') := Advance(max, rows, port, p);
    TableOk(rows', port') && Grows(rows, port, rows', port') && ProcessOk(max, rows', port', p')
  }

  lemma StartCallKeeps(max: int, rows: Rows, port: Port, p: Process)
    requires TableOk(rows, port) && ProcessOk(max, rows, port, p)
    requires p.pc.StartCall? || p.pc.RecoverStart?
    ensures StepKeeps(max, rows, port, p)
  {
    StartGrows(rows, port, p.run);
  }

  lemma StartAttachKeeps(max: int, rows: Rows, port: Port, p: Process)
    requires TableOk(rows, port) && ProcessOk(max, rows, port, p) && p.pc.StartAttach?
    ensures StepKeeps(max, rows, port, p)
  {
    AttachGrows(rows, port, p.run, p.pc.given, p.pc.ref);
  }

  lemma RecoverAttachKeeps(max: int, rows: Rows, port: Port, p: Process)
    requires TableOk(rows, port) && ProcessOk(max, rows, port, p) && p.pc.RecoverAttach?
    ensures StepKeeps(max, rows, port, p)
  {
    AttachGrows(rows, port, p.run, p.pc.rev, p.pc.ref);
    assert RowOk(port, p.run, rows[p.run]);
  }

  lemma TransitionKeeps(max: int, rows: Rows, port: Port, p: Process)
    requires TableOk(rows, port) && ProcessOk(max, rows, port, p)
    requires p.pc.TailRunning? || p.pc.FailWrite?
    ensures StepKeeps(max, rows, port, p)
  {
    TransitionGrows(rows, port, p.run, if p.pc.TailRunning? then RunRunning else RunFailed, p.pc.rev);
  }

  lemma ReadKeeps(max: int, rows: Rows, port: Port, p: Process)
    requires TableOk(rows, port) && ProcessOk(max, rows, port, p)
    requires !p.pc.StartCall? && !p.pc.RecoverStart? && !p.pc.StartAttach?
    requires !p.pc.RecoverAttach? && !p.pc.TailRunning? && !p.pc.FailWrite?
    ensures StepKeeps(max, rows, port, p)
  {
    assert p.run in rows ==> RowOk(port, p.run, rows[p.run]);
  }

  lemma AdvanceKeeps(max: int, rows: Rows, port: Port, p: Process)
    requires TableOk(rows, port) && ProcessOk(max, rows, port, p)
    ensures StepKeeps(max, rows, port, p)
  {
    match p.pc
    case StartCall(_) => StartCallKeeps(max, rows, port, p);
    case RecoverStart(_, _) => StartCallKeeps(max, rows, port, p);
    case StartAttach(_, _) => StartAttachKeeps(max, rows, port, p);
    case RecoverAttach(_, _, _) => RecoverAttachKeeps(max, rows, port, p);
    case TailRunning(_, _) => TransitionKeeps(max, rows, port, p);
    case FailWrite(_) => TransitionKeeps(max, rows, port, p);
    case _ => ReadKeeps(max, rows, port, p);
  }

  /** The invariant is compositional: a grown table and processes that are in order. */
  lemma InvByGrowth(max: int, s: State, s': State)
    requires Inv(max, s) && TableOk(s'.rows, s'.port) && Grows(s.rows, s.port, s'.rows, s'.port)
    requires forall pid :: pid in s'.procs ==>
               (pid in s.procs && s'.procs[pid] == s.procs[pid]) || ProcessOk(max, s'.rows, s'.port, s'.procs[pid])
    ensures Inv(max, s')
  {
    hide ProcessOk, RowOk;
    forall pid | pid in s'.procs
      ensures ProcessOk(max, s'.rows, s'.port, s'.procs[pid])
    {
      if pid in s.procs && s'.procs[pid] == s.procs[pid] {
        GrowthKeepsProcess(max, s.rows, s.port, s'.rows, s'.port, s.procs[pid]);
      }
    }
  }

  ghost predicate Good(max: int, s: State, s': State) {
    Inv(max, s') && Grows(s.rows, s.port, s'.rows, s'.port)
  }

  lemma StepGood(max: int, s: State, pid: Pid)
    requires Inv(max, s)
    ensures Good(max, s, Next(max, s, Step(pid)))
  {
    if pid in s.procs {
      assert TableOk(s.rows, s.port);
      AdvanceKeeps(max, s.rows, s.port, s.procs[pid]);
      InvByGrowth(max, s, Next(max, s, Step(pid)));
    }
  }

  lemma WriterGood(max: int, s: State, run: RunId, target: RunStatus)
    requires Inv(max, s)
    ensures Good(max, s, Next(max, s, OtherWriter(run, target)))
  {
    assert TableOk(s.rows, s.port);
    TransitionGrows(s.rows, s.port, run, target, Revision(s.rows, run));
    InvByGrowth(max, s, Next(max, s, OtherWriter(run, target)));
  }

  lemma NextKeeps(max: int, s: State, a: Action)
    requires Inv(max, s)
    ensures Good(max, s, Next(max, s, a))
  {
    hide Advance, Transition, Attach;
    match a
    case Step(pid) => StepGood(max, s, pid);
    case OtherWriter(run, target) => WriterGood(max, s, run, target);
    case _ => InvByGrowth(max, s, Next(max, s, a));
  }

  lemma {:induction false} ReachableInv(max: int, acts: seq<Action>)
    ensures Inv(max, After(max, Initial, acts))
  {
    hide Next;
    if acts != [] {
      ReachableInv(max, acts[..|acts| - 1]);
      NextKeeps(max, After(max, Initial, acts[..|acts| - 1]), acts[|acts| - 1]);
    }
  }

  // ---------------------------------------------------------------------------
  // Safety over whole runs
  // ---------------------------------------------------------------------------

  /** However starters, passes, crashes and other writers interleave, no run is started twice. */
  lemma AtMostOneExecution(max: int, acts: seq<Action>, i: nat, j: nat)
    requires i < j < |After(max, Initial, acts).port.created|
    ensures After(max, Initial, acts).port.created[i] != After(max, Initial, acts).port.created[j]
  {
    ReachableInv(max, acts);
  }

  /** An attached ref is always the port's own ref for that run. */
  lemma AttachedRefIsThePorts(max: int, acts: seq<Action>, run: RunId)
    requires run in After(max, Initial, acts).rows && After(max, Initial, acts).rows[run].ref.Some?
    ensures
      var s := After(max, Initial, acts);
      run in s.port.created && run in s.port.refs && s.port.refs[run] == s.rows[run].ref.value
  {
    ReachableInv(max, acts);
  }

  lemma {:induction false} AfterSplit(max: int, s: State, before: seq<Action>, later: seq<Action>)
    ensures After(max, s, before + later) == After(max, After(max, s, before), later)
  {
    hide Next;
    if later == [] {
      assert before + later == before;
    } else {
      var n := |later| - 1;
      AfterSplit(max, s, before, later[..n]);
      assert (before + later)[..|before| + n] == before + later[..n];
    }
  }

  /** Once attached, a ref stays: nothing that happens later changes or removes it. */
  lemma {:induction false} AttachedRefNeverChanges(max: int, before: seq<Action>, later: seq<Action>, run: RunId)
    requires run in After(max, Initial, before).rows && After(max, Initial, before).rows[run].ref.Some?
    ensures run in After(max, Initial, before + later).rows
    ensures After(max, Initial, before + later).rows[run].ref == After(max, Initial, before).rows[run].ref
  {
    hide Next;
    if later == [] {
      assert before + later == before;
    } else {
      var n := |later| - 1;
      AttachedRefNeverChanges(max, before, later[..n], run);
      assert (before + later)[..|before| + n] == before + later[..n];
      ReachableInv(max, before + later[..n]);
      NextKeeps(max, After(max, Initial, before + later[..n]), later[n]);
      assert After(max, Initial, before + later)
          == Next(max, After(max, Initial, before + later[..n]), later[n]);
    }
  }

  /** A Run the bridge moves to RUNNING already carries the port's ref, and keeps it. */
  lemma RunningOnlyWithRef(max: int, acts: seq<Action>, pid: Pid, run: RunId)
    requires
      var s := After(max, Initial, acts);
      && run in s.rows && s.rows[run].status != RunRunning
      && Next(max, s, Step(pid)).rows[run].status == RunRunning
    ensures
      var s := After(max, Initial, acts);
      && s.rows[run].ref.Some?
      && run in s.port.refs && s.port.refs[run] == s.rows[run].ref.value
      && Next(max, s, Step(pid)).rows[run].ref == s.rows[run].ref
  {
    ReachableInv(max, acts);
    var s := After(max, Initial, acts);
    assert ProcessOk(max, s.rows, s.port, s.procs[pid]);
    assert RowOk(s.port, run, s.rows[run]);
  }

  /** The retry is bounded: no reconcile of a run makes more than `max` attach calls, no starter more than one. */
  lemma AttachCallsAreBounded(max: int, acts: seq<Action>, pid: Pid)
    requires pid in After(max, Initial, acts).procs
    ensures
      var p := After(max, Initial, acts).procs[pid];
      if p.starter then p.attaches <= 1 else p.attaches == 0 || p.attaches <= max
  {
    ReachableInv(max, acts);
    var s := After(max, Initial, acts);
    assert ProcessOk(max, s.rows, s.port, s.procs[pid]);
  }

  /** The fail-closed branch for a divergent ref is never taken: two processes never hold different refs. */
  lemma RefsNeverDiverge(max: int, acts: seq<Action>, pid: Pid)
    requires pid in After(max, Initial, acts).procs
    ensures !After(max, Initial, acts).procs[pid].pc.ReadWinner?
  {
    ReachableInv(max, acts);
    var s := After(max, Initial, acts);
    assert ProcessOk(max, s.rows, s.port, s.procs[pid]);
  }

  /** That count is of the attach calls: each step adds one exactly if it makes the call, until the next run of a pass. */
  lemma {:induction false} AttachesAreCounted(max: int, rows: Rows, port: Port, p: Process)
    ensures
      var p' := Advance(max, rows, port, p).2;
      if p.pc.StartAttach? || p.pc.RecoverAttach? then p'.run == p.run && p'.attaches == p.attaches + 1
      else if p.pc.Returned? && p.queue != [] then p'.run == p.queue[0] && p'.queue == p.queue[1..] && p'.attaches == 0
      else p'.run == p.run && p'.attaches == p.attaches
  {
  }

  /** Were a different ref attached, a reconciler would stop with nothing written: it fails closed. */
  lemma {:induction false} DivergentRefStops(max: int, s: State, pid: Pid)
    requires pid in s.procs && s.procs[pid].pc.RecoverAttach? && s.procs[pid].run in s.rows
    requires
      var p, row := s.procs[pid], s.rows[s.procs[pid].run];
      row.revision == p.pc.rev && row.ref.Some? && row.ref.value != p.pc.ref
    ensures
      var s' := Next(max, Next(max, s, Step(pid)), Step(pid));
      s'.rows == s.rows && s'.port == s.port && pid in s'.procs && s'.procs[pid].pc == Stopped
  {
  }

  /** Had it become the same one by then, the reconciler would finish with it. */
  lemma {:induction false} SameRefIsAdopted(max: int, rows: Rows, port: Port, p: Process)
    requires p.pc.ReadWinner? && p.run in rows && rows[p.run].ref == Some(p.pc.ref)
    ensures Advance(max, rows, port, p)
         == (rows, port, p.(pc := if rows[p.run].status == RunStarting then TailRevision(p.pc.ref) else Returned(p.pc.ref)))
  {
  }

  // ---------------------------------------------------------------------------
  // Every call ends
  // ---------------------------------------------------------------------------

  function Left(max: int, attempt: nat): nat { if attempt < max then max - attempt else 0 }

  /** An upper bound on the steps a process has left for its current run. */
  function StepsHere(max: int, pc: Pc): nat {
    match pc
    case ReadRun(attempt) => 5 * Left(max, attempt) + 9
    case ReadRevision(attempt) => 5 * Left(max, attempt) + 8
    case FindCall(attempt, _) => 5 * Left(max, attempt) + 7
    case RecoverStart(attempt, _) => 5 * Left(max, attempt) + 6
    case RecoverAttach(attempt, _, _) => 5 * Left(max, attempt) + 5
    case StartCall(_) => 5
    case StartAttach(_, _) => 4
    case ReadWinner(_) => 4
    case FailRead => 4
    case TailRevision(_) => 3
    case FailRevision => 3
    case TailRunning(_, _) => 2
    case FailWrite(_) => 2
    case Returned(_) => 1
    case Stopped => 0
  }

  function StepsLeft(max: int, p: Process): nat {
    if p.pc == Stopped then 0 else StepsHere(max, p.pc) + |p.queue| * (5 * Left(max, 0) + 9)
  }

  lemma {:induction false} EveryStepCounts(max: int, rows: Rows, port: Port, p: Process)
    requires p.pc != Stopped
    ensures StepsLeft(max, Advance(max, rows, port, p).2) < StepsLeft(max, p)
  {
    var p' := Advance(max, rows, port, p).2;
    var w := 5 * Left(max, 0) + 9;
    if p.pc.Returned? && p.queue != [] {
      assert |p.queue| * w == |p'.queue| * w + w;
      assert StepsHere(max, p'.pc) <= w;
    } else {
      assert p'.queue == p.queue;
    }
  }

  ghost function StepsOf(acts: seq<Action>, pid: Pid): nat {
    if acts == [] then 0 else StepsOf(acts[..|acts| - 1], pid) + if acts[|acts| - 1] == Step(pid) then 1 else 0
  }

  /** Whatever the others do, a starter is over after five steps of its own, and a pass after nine and five for each
      attempt allowed, for each run that it listed. */
  lemma {:induction false} EveryCallEnds(max: int, s: State, pid: Pid, acts: seq<Action>)
    requires pid in s.procs
    ensures
      var s' := After(max, s, acts);
      && pid in s'.procs
      && (s'.procs[pid].pc == Stopped || StepsLeft(max, s'.procs[pid]) + StepsOf(acts, pid) <= StepsLeft(max, s.procs[pid]))
      && (StepsOf(acts, pid) >= StepsLeft(max, s.procs[pid]) ==> s'.procs[pid].pc == Stopped)
  {
    hide Advance, StepsHere;
    if acts != [] {
      var n := |acts| - 1;
      EveryCallEnds(max, s, pid, acts[..n]);
      var before := After(max, s, acts[..n]);
      if before.procs[pid].pc == Stopped {
        StoppedIsOver(max, before, acts[n], pid);
      } else if acts[n] == Step(pid) {
        EveryStepCounts(max, before.rows, before.port, before.procs[pid]);
      }
    }
    if After(max, s, acts).procs[pid].pc != Stopped {
      StepsRemain(max, After(max, s, acts).procs[pid]);
    }
  }

  lemma {:induction false} StoppedIsOver(max: int, s: State, a: Action, pid: Pid)
    requires pid in s.procs && s.procs[pid].pc == Stopped
    ensures pid in Next(max, s, a).procs && Next(max, s, a).procs[pid].pc == Stopped
  {
  }

  lemma {:induction false} StepsRemain(max: int, p: Process)
    requires p.pc != Stopped
    ensures StepsLeft(max, p) > 0
  {
    assert |p.queue| * (5 * Left(max, 0) + 9) >= 0;
  }

  // ---------------------------------------------------------------------------
  // What the port's idempotence is needed for
  // ---------------------------------------------------------------------------

  /** Action `a` calls the port's start for `run`. */
  ghost predicate CallsStart(s: State, a: Action, run: RunId) {
    && a.Step? && a.pid in s.procs && s.procs[a.pid].run == run
    && (s.procs[a.pid].pc.StartCall? || s.procs[a.pid].pc.RecoverStart?)
  }

  /** On a port without idempotence this call would make a second execution. */
  ghost predicate StartsAgain(s: State, a: Action, run: RunId) { CallsStart(s, a, run) && run in s.port.refs }

  lemma {:induction false} StartStep(max: int, s: State, a: Action, run: RunId)
    ensures run in Next(max, s, a).port.refs <==> run in s.port.refs || CallsStart(s, a, run)
  {
  }

  lemma {:induction false} Untouched(max: int, s: State, a: Action, pid: Pid)
    requires pid in s.procs && a != Step(pid) && a != Crash(pid)
    ensures pid in Next(max, s, a).procs && Next(max, s, a).procs[pid] == s.procs[pid]
  {
    hide Advance;
  }

  /** Somebody calls start for `run` along the way. */
  ghost predicate StartedAlong(max: int, s: State, later: seq<Action>, run: RunId) {
    exists k :: 0 <= k < |later| && CallsStart(After(max, s, later[..k]), later[k], run)
  }

  lemma {:induction false} AlongStep(max: int, s: State, later: seq<Action>, run: RunId)
    requires later != []
    ensures
      var n := |later| - 1;
      StartedAlong(max, s, later, run) <==>
      StartedAlong(max, s, later[..n], run) || CallsStart(After(max, s, later[..n]), later[n], run)
  {
    hide After, CallsStart;
    var n := |later| - 1;
    var before := later[..n];
    if k :| 0 <= k < n && CallsStart(After(max, s, before[..k]), before[k], run) {
      assert before[..k] == later[..k] && before[k] == later[k];
    }
    if k :| 0 <= k < |later| && CallsStart(After(max, s, later[..k]), later[k], run) && k < n {
      assert before[..k] == later[..k] && before[k] == later[k];
    }
  }

  lemma {:induction false} ExistsIffStarted(max: int, s: State, later: seq<Action>, run: RunId)
    requires run !in s.port.refs
    ensures run in After(max, s, later).port.refs <==> StartedAlong(max, s, later, run)
  {
    hide Next, CallsStart, StartedAlong;
    if later == [] {
      NotStartedYet(max, s, run);
    } else {
      var n := |later| - 1;
      ExistsIffStarted(max, s, later[..n], run);
      StartStep(max, After(max, s, later[..n]), later[n], run);
      AlongStep(max, s, later, run);
    }
  }

  lemma {:induction false} NotStartedYet(max: int, s: State, run: RunId)
    ensures !StartedAlong(max, s, [], run)
  {
  }

  lemma {:induction false} StaysPut(max: int, s: State, later: seq<Action>, pid: Pid)
    requires pid in s.procs
    requires forall k :: 0 <= k < |later| ==> later[k] != Step(pid) && later[k] != Crash(pid)
    ensures pid in After(max, s, later).procs && After(max, s, later).procs[pid] == s.procs[pid]
  {
    hide Next;
    if later != [] {
      var n := |later| - 1;
      StaysPut(max, s, later[..n], pid);
      Untouched(max, After(max, s, later[..n]), later[n], pid);
    }
  }

  /**
   A reconciler that found no execution starts a second one if and only if somebody else called
   start for the run between its find and its own start. So on a port that is not idempotent the
   find guards every start but those races and the starters, which never look.
   */
  lemma {:induction false} ReconcilerStartsAgainIff(max: int, s: State, later: seq<Action>, pid: Pid)
    requires pid in s.procs && s.procs[pid].pc.RecoverStart? && s.procs[pid].run !in s.port.refs
    requires forall k :: 0 <= k < |later| ==> later[k] != Step(pid) && later[k] != Crash(pid)
    ensures StartsAgain(After(max, s, later), Step(pid), s.procs[pid].run) <==>
            StartedAlong(max, s, later, s.procs[pid].run)
  {
    hide After, StartedAlong;
    StaysPut(max, s, later, pid);
    ExistsIffStarted(max, s, later, s.procs[pid].run);
  }

  /** The race is real: a starter may act between the find and the start of a pass. */
  lemma {:induction false} StarterRacesTheFind(run: RunId) returns (acts: seq<Action>)
    ensures StartsAgain(After(1, Initial, acts), Step(0), run)
  {
    hide After;
    FirstPassIsReached(1, run);
    acts := [CreateRun(run), SpawnPass(0, [run])];
    AfterSnoc(1, Initial, acts, Step(0));
    acts := acts + [Step(0)];
    AfterSnoc(1, Initial, acts, Step(0));
    acts := acts + [Step(0)];
    AfterSnoc(1, Initial, acts, Step(0));
    acts := acts + [Step(0)];
    var s := After(1, Initial, acts);
    assert s.procs == map[0 := Process(run, RecoverStart(0, 1), 0, [], false)];
    AfterSnoc(1, Initial, acts, SpawnStart(1, run, RunStarting, 1));
    acts := acts + [SpawnStart(1, run, RunStarting, 1)];
    AfterSnoc(1, Initial, acts, Step(1));
    acts := acts + [Step(1)];
  }

  // ---------------------------------------------------------------------------
  // Exhaustion
  // ---------------------------------------------------------------------------

  /** The bridge's own step turns `run` FAILED. */
  ghost predicate MarksFailed(max: int, s: State, pid: Pid, run: RunId) {
    && run in s.rows && s.rows[run].status != RunFailed
    && Next(max, s, Step(pid)).rows[run].status == RunFailed
  }

  /** With two attempts or more, no interleaving makes the bridge mark a Run FAILED. */
  lemma TwoAttemptsNeverFailARun(max: int, acts: seq<Action>, pid: Pid, run: RunId)
    requires max >= 2
    ensures !MarksFailed(max, After(max, Initial, acts), pid, run)
  {
    ReachableInv(max, acts);
    var s := After(max, Initial, acts);
    if pid in s.procs {
      assert ProcessOk(max, s.rows, s.port, s.procs[pid]);
    }
  }

  lemma AfterSnoc(max: int, s: State, acts: seq<Action>, a: Action)
    ensures After(max, s, acts + [a]) == Next(max, After(max, s, acts), a)
  {
    assert (acts + [a])[..|acts|] == acts;
  }

  lemma FreshRunIsListed(run: RunId)
    ensures Lists(map[run := Row(RunStarting, None, 1)], [run])
  {
  }

  /** The state in which a first pass over one fresh Run has just begun. */
  function FirstPass(max: int, run: RunId): State {
    State(map[run := Row(RunStarting, None, 1)], Port(map[], []), map[0 := Process(run, EnterReconcile(max), 0, [], false)])
  }

  lemma FirstPassIsReached(max: int, run: RunId)
    ensures After(max, Initial, [CreateRun(run), SpawnPass(0, [run])]) == FirstPass(max, run)
  {
    hide Lists, Advance;
    var s := State(map[run := Row(RunStarting, None, 1)], Port(map[], []), map[]);
    var create, spawn := CreateRun(run), SpawnPass(0, [run]);
    assert Next(max, Initial, create) == s;
    FreshRunIsListed(run);
    assert [run][1..] == [] && [run][0] == run;
    assert Next(max, s, spawn) == FirstPass(max, run);
    assert [create, spawn][..1] == [create] && [create][..0] == [];
    assert After(max, Initial, []) == Initial;
  }

  /** The same pass, stopped just before its attach. */
  lemma PassAboutToAttach(run: RunId) returns (acts: seq<Action>)
    ensures
      var s := After(1, Initial, acts);
      var ref := ExecutionRef("fake_durable", "exec_" + run, 1);
      && run in s.rows && s.rows[run] == Row(RunStarting, None, 1)
      && run in s.port.refs && s.port.refs[run] == ref && run in s.port.created
      && s.procs.Keys == {0} && s.procs[0] == Process(run, RecoverAttach(0, 1, ref), 0, [], false)
  {
    hide After;
    FirstPassIsReached(1, run);
    acts := [CreateRun(run), SpawnPass(0, [run])];
    AfterSnoc(1, Initial, acts, Step(0));
    acts := acts + [Step(0)];
    AfterSnoc(1, Initial, acts, Step(0));
    acts := acts + [Step(0)];
    AfterSnoc(1, Initial, acts, Step(0));
    acts := acts + [Step(0)];
    AfterSnoc(1, Initial, acts, Step(0));
    acts := acts + [Step(0)];
  }

  /** A starter of the same Run overtakes the pass and attaches first. */
  lemma StarterOvertakes(run: RunId) returns (acts: seq<Action>)
    ensures
      var s := After(1, Initial, acts);
      var ref := ExecutionRef("fake_durable", "exec_" + run, 1);
      && run in s.rows && s.rows[run] == Row(RunStarting, Some(ref), 2) && run in s.port.created
      && 0 in s.procs && s.procs[0] == Process(run, RecoverAttach(0, 1, ref), 0, [], false)
  {
    hide After;
    acts := PassAboutToAttach(run);
    AfterSnoc(1, Initial, acts, SpawnStart(1, run, RunStarting, 1));
    acts := acts + [SpawnStart(1, run, RunStarting, 1)];
    AfterSnoc(1, Initial, acts, Step(1));
    acts := acts + [Step(1)];
    AfterSnoc(1, Initial, acts, Step(1));
    acts := acts + [Step(1)];
  }

  /** The only attempt, made with a stale revision, leads to the FAILED write in three steps. */
  lemma {:induction false} LostRaceExhausts(s: State, run: RunId)
    requires run in s.rows && s.rows[run].status == RunStarting && s.rows[run].revision == 2
    requires 0 in s.procs && s.procs[0].run == run && s.procs[0].pc.RecoverAttach?
    requires s.procs[0].pc.rev == 1 && s.procs[0].pc.attempt == 0
    ensures
      var p := s.procs[0];
      Next(1, Next(1, Next(1, s, Step(0)), Step(0)), Step(0))
      == s.(procs := s.procs[0 := p.(pc := FailWrite(2), attaches := p.attaches + 1)])
    ensures MarksFailed(1, Next(1, Next(1, Next(1, s, Step(0)), Step(0)), Step(0)), 0, run)
  {
    var p := s.procs[0];
    assert Next(1, s, Step(0)) == s.(procs := s.procs[0 := p.(pc := FailRead, attaches := p.attaches + 1)]);
    var s2 := s.(procs := s.procs[0 := p.(pc := FailRevision, attaches := p.attaches + 1)]);
    assert Next(1, Next(1, s, Step(0)), Step(0)) == s2;
  }

  /**
   With a single attempt, one lost revision race marks FAILED a Run whose external
   execution is live and whose ref is already attached.
   */
  lemma OneAttemptFailsALiveRun(run: RunId) returns (acts: seq<Action>, pid: Pid)
    ensures MarksFailed(1, After(1, Initial, acts), pid, run)
    ensures After(1, Initial, acts).rows[run].ref.Some?
    ensures run in After(1, Initial, acts).port.created
  {
    hide After, Advance, Next, MarksFailed;
    pid := 0;
    acts := StarterOvertakes(run);
    var s := After(1, Initial, acts);
    LostRaceExhausts(s, run);
    AfterSnoc(1, Initial, acts, Step(0));
    acts := acts + [Step(0)];
    AfterSnoc(1, Initial, acts, Step(0));
    acts := acts + [Step(0)];
    AfterSnoc(1, Initial, acts, Step(0));
    acts := acts + [Step(0)];
  }

  /** With no attempt allowed, the first pass marks a fresh Run FAILED. */
  lemma NoAttemptFailsAFreshRun(max: int, run: RunId) returns (acts: seq<Action>, pid: Pid)
    requires max <= 0
    ensures MarksFailed(max, After(max, Initial, acts), pid, run)
  {
    pid := 0;
    FirstPassIsReached(max, run);
    acts := [CreateRun(run), SpawnPass(0, [run])];
    AfterSnoc(max, Initial, acts, Step(0));
    acts := acts + [Step(0)];
    AfterSnoc(max, Initial, acts, Step(0));
    acts := acts + [Step(0)];
    assert After(max, Initial, acts).procs[0].pc == FailWrite(1);
  }

  ghost predicate FailsAlong(max: int, acts: seq<Action>, pid: Pid, run: RunId) {
    MarksFailed(max, After(max, Initial, acts), pid, run)
  }

  /** The bridge can mark a Run FAILED if and only if fewer than two attempts are configured. */
  lemma FailsARunIff(max: int)
    ensures (exists acts, pid, run :: FailsAlong(max, acts, pid, run)) <==> max < 2
  {
    if max >= 2 {
      forall acts, pid, run
        ensures !FailsAlong(max, acts, pid, run)
      {
        TwoAttemptsNeverFailARun(max, acts, pid, run);
      }
    } else if max == 1 {
      var acts, pid := OneAttemptFailsALiveRun("r");
      assert FailsAlong(max, acts, pid, "r");
    } else {
      var acts, pid := NoAttemptFailsAFreshRun(max, "r");
      assert FailsAlong(max, acts, pid, "r");
    }
  }

  // ---------------------------------------------------------------------------
  // Recovery
  // ---------------------------------------------------------------------------

  /** `n` steps of one process with nobody else moving. */
  ghost function Solo(max: int, s: State, pid: Pid, n: nat): State {
    if n == 0 then s else Next(max, Solo(max, s, pid, n - 1), Step(pid))
  }

  lemma {:induction false} SoloAdd(max: int, s: State, pid: Pid, m: nat, n: nat)
    ensures Solo(max, s, pid, m + n) == Solo(max, Solo(max, s, pid, m), pid, n)
  {
    hide Next;
    if n > 0 {
      SoloAdd(max, s, pid, m, n - 1);
    }
  }

  ghost predicate Linked(s: State, run: RunId) {
    && run in s.rows && s.rows[run].status == RunRunning
    && run in s.port.refs && s.rows[run].ref == Some(s.port.refs[run])
  }

  /** Two states that differ in at most one run's row, the port entry of that run, and one process. */
  ghost predicate OnlyTouches(s: State, s': State, run: RunId) {
    && (forall r :: r != run ==> (r in s'.rows <==> r in s.rows))
    && (forall r :: r in s.rows && r != run ==> s'.rows[r] == s.rows[r])
    && (forall r :: r in s.port.refs ==> r in s'.port.refs && s'.port.refs[r] == s.port.refs[r])
  }

  lemma SoloOne(max: int, s: State, pid: Pid)
    ensures Solo(max, s, pid, 1) == Next(max, s, Step(pid))
  {
    assert Solo(max, s, pid, 0) == s;
  }

  /** From an undisturbed RecoverAttach at the current revision the run ends up linked. */
  lemma AttachThenRunning(max: int, s: State, pid: Pid)
    requires Inv(max, s) && pid in s.procs && s.procs[pid].pc.RecoverAttach?
    requires Candidate(s.rows, s.procs[pid].run)
    ensures
      var s' := Next(max, Next(max, Next(max, s, Step(pid)), Step(pid)), Step(pid));
      var p := s.procs[pid];
      && Linked(s', p.run) && OnlyTouches(s, s', p.run)
      && pid in s'.procs && s'.procs[pid].pc.Returned? && s'.procs[pid].queue == p.queue
  {
    var p := s.procs[pid];
    assert ProcessOk(max, s.rows, s.port, p) && RowOk(s.port, p.run, s.rows[p.run]);
    var s1 := Next(max, s, Step(pid));
    assert s1.rows == s.rows[p.run := Row(RunStarting, Some(p.pc.ref), 2)];
    assert s1.procs[pid].pc == TailRevision(p.pc.ref);
    var s2 := Next(max, s1, Step(pid));
    assert s2.rows == s1.rows && s2.procs[pid].pc == TailRunning(p.pc.ref, 2);
    var s3 := Next(max, s2, Step(pid));
    assert s3.rows == s2.rows[p.run := Row(RunRunning, Some(p.pc.ref), 3)];
  }

  /** An undisturbed turn of the retry loop gets from its first read to its attach. */
  lemma TurnToAttach(max: int, s: State, pid: Pid) returns (n: nat)
    requires Inv(max, s) && pid in s.procs && s.procs[pid].pc == ReadRun(0)
    requires Candidate(s.rows, s.procs[pid].run)
    ensures
      var s' := Solo(max, s, pid, n);
      var p := s.procs[pid];
      && s'.rows == s.rows && OnlyTouches(s, s', p.run)
      && pid in s'.procs && s'.procs[pid].pc.RecoverAttach?
      && s'.procs[pid].queue == p.queue && s'.procs[pid].run == p.run
  {
    var p := s.procs[pid];
    var s1 := Next(max, s, Step(pid));
    assert s1.procs[pid].pc == ReadRevision(0) && s1.rows == s.rows;
    var s2 := Next(max, s1, Step(pid));
    assert s2.procs[pid].pc.FindCall? && s2.rows == s.rows;
    var s3 := Next(max, s2, Step(pid));
    assert s3.rows == s.rows && s3.port == s.port;
    SoloOne(max, s, pid);
    assert Solo(max, s, pid, 2) == s2;
    assert Solo(max, s, pid, 3) == s3;
    if p.run in s.port.refs {
      n := 3;
    } else {
      var s4 := Next(max, s3, Step(pid));
      assert Solo(max, s, pid, 4) == s4;
      n := 4;
    }
  }

  /** One undisturbed turn of the retry loop links a candidate to the port's execution. */
  lemma TurnLinks(max: int, s: State, pid: Pid) returns (n: nat)
    requires Inv(max, s) && pid in s.procs && s.procs[pid].pc == ReadRun(0)
    requires Candidate(s.rows, s.procs[pid].run)
    ensures
      var s' := Solo(max, s, pid, n);
      var p := s.procs[pid];
      && Inv(max, s') && Linked(s', p.run) && OnlyTouches(s, s', p.run)
      && pid in s'.procs && s'.procs[pid].pc.Returned? && s'.procs[pid].queue == p.queue
  {
    hide Next;
    var m := TurnToAttach(max, s, pid);
    SoloInv(max, s, pid, m);
    var mid := Solo(max, s, pid, m);
    AttachThenRunning(max, mid, pid);
    n := m + 3;
    assert Solo(max, s, pid, m + 1) == Next(max, mid, Step(pid));
    assert Solo(max, s, pid, m + 2) == Next(max, Next(max, mid, Step(pid)), Step(pid));
    SoloInv(max, s, pid, n);
  }

  lemma {:induction false} SoloInv(max: int, s: State, pid: Pid, n: nat)
    requires Inv(max, s)
    ensures Inv(max, Solo(max, s, pid, n))
  {
    hide Next;
    if n > 0 {
      SoloInv(max, s, pid, n - 1);
      NextKeeps(max, Solo(max, s, pid, n - 1), Step(pid));
    }
  }

  /** A pass about to take its next candidate, all of whose remaining runs are still candidates. */
  ghost predicate Passing(s: State, pid: Pid) {
    && pid in s.procs && s.procs[pid].pc == ReadRun(0)
    && Candidate(s.rows, s.procs[pid].run)
    && (forall r :: r in s.procs[pid].queue ==> Candidate(s.rows, r) && r != s.procs[pid].run)
    && (forall i, j :: 0 <= i < j < |s.procs[pid].queue| ==> s.procs[pid].queue[i] != s.procs[pid].queue[j])
  }

  ghost predicate LinksAll(s: State, s': State, runs: set<RunId>) {
    && (forall r :: r in runs ==> Linked(s', r))
    && (forall r :: r in s.rows && r !in runs ==> r in s'.rows && s'.rows[r] == s.rows[r])
    && (forall r :: r in s.port.refs ==> r in s'.port.refs && s'.port.refs[r] == s.port.refs[r])
  }

  ghost function Pending(p: Process): set<RunId> {
    {p.run} + set r | r in p.queue
  }

  lemma LinksAllChain(s: State, mid: State, s': State, run: RunId, rest: set<RunId>)
    requires Linked(mid, run) && OnlyTouches(s, mid, run) && LinksAll(mid, s', rest) && run !in rest
    ensures LinksAll(s, s', {run} + rest)
  {
  }

  /** The finished turn moves on to the next candidate of the queue. */
  lemma NextTurn(max: int, s: State, mid: State, pid: Pid)
    requires max >= 1 && Passing(s, pid) && s.procs[pid].queue != []
    requires OnlyTouches(s, mid, s.procs[pid].run)
    requires pid in mid.procs && mid.procs[pid].pc.Returned? && mid.procs[pid].queue == s.procs[pid].queue
    ensures Passing(Next(max, mid, Step(pid)), pid)
    ensures Next(max, mid, Step(pid)).rows == mid.rows && Next(max, mid, Step(pid)).port == mid.port
    ensures Next(max, mid, Step(pid)).procs[pid].queue == s.procs[pid].queue[1..]
    ensures Pending(Next(max, mid, Step(pid)).procs[pid]) == (set r | r in s.procs[pid].queue)
  {
    var queue := s.procs[pid].queue;
    assert queue == [queue[0]] + queue[1..];
    forall r | r in queue
      ensures Candidate(mid.rows, r)
    {
      assert mid.rows[r] == s.rows[r];
    }
  }

  /** A whole turn: the run is linked and the pass stands before the next one. */
  lemma TurnAndOn(max: int, s: State, pid: Pid) returns (n: nat)
    requires max >= 1 && Inv(max, s) && Passing(s, pid) && s.procs[pid].queue != []
    ensures
      var p := s.procs[pid];
      var s' := Solo(max, s, pid, n);
      && Inv(max, s') && Passing(s', pid) && Linked(s', p.run) && OnlyTouches(s, s', p.run)
      && |s'.procs[pid].queue| < |p.queue| && Pending(s'.procs[pid]) == (set r | r in p.queue)
  {
    hide Next;
    var m := TurnLinks(max, s, pid);
    var mid := Solo(max, s, pid, m);
    NextTurn(max, s, mid, pid);
    NextKeeps(max, mid, Step(pid));
    n := m + 1;
    assert Solo(max, s, pid, n) == Next(max, mid, Step(pid));
  }

  /** The rest of a pass links every candidate still in its queue. */
  lemma {:induction false} QueueLinks(max: int, s: State, pid: Pid) returns (n: nat)
    requires max >= 1 && Inv(max, s) && Passing(s, pid)
    ensures LinksAll(s, Solo(max, s, pid, n), Pending(s.procs[pid]))
    decreases |s.procs[pid].queue|
  {
    hide Next, Inv, LinksAll, Solo;
    var p := s.procs[pid];
    if p.queue == [] {
      n := TurnLinks(max, s, pid);
      LinksAllChain(s, Solo(max, s, pid, n), Solo(max, s, pid, n), p.run, {});
      assert {p.run} + {} == Pending(p);
    } else {
      var m := TurnAndOn(max, s, pid);
      var turn := Solo(max, s, pid, m);
      var k := QueueLinks(max, turn, pid);
      LinksAllChain(s, turn, Solo(max, turn, pid, k), p.run, Pending(turn.procs[pid]));
      SoloAdd(max, s, pid, m, k);
      n := m + k;
    }
  }

  /**
   Recovery: whatever happened before, one undisturbed pass leaves every Run it listed
   RUNNING and attached to the one external execution, recovered or newly started, and
   touches no other Run.
   */
  lemma UndisturbedPassRecovers(max: int, acts: seq<Action>, pid: Pid, order: seq<RunId>) returns (n: nat)
    requires max >= 1
    requires pid !in After(max, Initial, acts).procs && Lists(After(max, Initial, acts).rows, order)
    ensures
      var s := After(max, Initial, acts);
      var s' := Solo(max, Next(max, s, SpawnPass(pid, order)), pid, n);
      && (forall r :: Candidate(s.rows, r) ==> Linked(s', r))
      && (forall r :: r in s.rows && !Candidate(s.rows, r) ==> r in s'.rows && s'.rows[r] == s.rows[r])
  {
    hide Advance;
    ReachableInv(max, acts);
    var s := After(max, Initial, acts);
    var t := Next(max, s, SpawnPass(pid, order));
    NextKeeps(max, s, SpawnPass(pid, order));
    if order == [] {
      n := 0;
    } else {
      assert order == [order[0]] + order[1..];
      assert Passing(t, pid);
      n := QueueLinks(max, t, pid);
      assert forall r :: r in Pending(t.procs[pid]) <==> Candidate(s.rows, r);
    }
  }

  /** A STARTING Run that already has its ref, and that no live process is working on. */
  ghost predicate Stranded(s: State, run: RunId) {
    && run in s.rows && s.rows[run].status == RunStarting && s.rows[run].ref.Some?
    && forall pid :: pid in s.procs ==>
         s.procs[pid].pc == Stopped || (s.procs[pid].run != run && run !in s.procs[pid].queue)
  }

  lemma {:induction false} SoloFour(max: int, s: State, pid: Pid)
    ensures Solo(max, s, pid, 4) ==
            Next(max, Next(max, Next(max, Next(max, s, Step(pid)), Step(pid)), Step(pid)), Step(pid))
  {
    hide Next;
    assert Solo(max, s, pid, 0) == s;
    assert Solo(max, s, pid, 1) == Next(max, Solo(max, s, pid, 0), Step(pid));
    assert Solo(max, s, pid, 2) == Next(max, Solo(max, s, pid, 1), Step(pid));
    assert Solo(max, s, pid, 3) == Next(max, Solo(max, s, pid, 2), Step(pid));
  }

  /**
   Starting: from any reachable state, an undisturbed start of a STARTING Run with its own revision
   leaves it RUNNING, attached to its one execution, and returns the ref. So it also repairs a
   stranded Run.
   */
  lemma {:induction false} UndisturbedStartLinks(max: int, acts: seq<Action>, run: RunId, pid: Pid)
    requires
      var s := After(max, Initial, acts);
      run in s.rows && s.rows[run].status == RunStarting && pid !in s.procs
    ensures
      var s := After(max, Initial, acts);
      var spawned := Next(max, s, SpawnStart(pid, run, RunStarting, s.rows[run].revision));
      var s' := Solo(max, spawned, pid, 4);
      && Linked(s', run) && OnlyTouches(s, s', run) && run in s'.port.created
      && pid in s'.procs && s'.procs[pid].pc == Returned(s'.port.refs[run])
  {
    ReachableInv(max, acts);
    var s := After(max, Initial, acts);
    hide After, Next;
    var revision := s.rows[run].revision;
    var s0 := Next(max, s, SpawnStart(pid, run, RunStarting, revision));
    StartReaches(max, s, run, pid);
    var s2 := Next(max, Next(max, s0, Step(pid)), Step(pid));
    StartFinishes(max, s, s2, run, pid);
    SoloFour(max, s0, pid);
  }

  /** The first half of a start: the external start and the attach. */
  lemma {:induction false} StartReaches(max: int, s: State, run: RunId, pid: Pid)
    requires Inv(max, s) && run in s.rows && s.rows[run].status == RunStarting && pid !in s.procs
    ensures
      var s0 := Next(max, s, SpawnStart(pid, run, RunStarting, s.rows[run].revision));
      var s2 := Next(max, Next(max, s0, Step(pid)), Step(pid));
      && s2.port == PortStart(s.port, run) && pid in s2.procs
      && s2.procs[pid] == Process(run, TailRevision(s2.port.refs[run]), 1, [], true)
      && s2.rows == s.rows[run := Row(RunStarting, Some(s2.port.refs[run]), 2)]
  {
    assert RowOk(s.port, run, s.rows[run]);
    var revision := s.rows[run].revision;
    var s0 := Next(max, s, SpawnStart(pid, run, RunStarting, revision));
    assert s0.procs[pid] == Process(run, StartCall(revision), 0, [], true) && s0.rows == s.rows;
    var s1 := Next(max, s0, Step(pid));
    assert s1.rows == s.rows && s1.port == PortStart(s.port, run);
    assert s1.procs[pid] == Process(run, StartAttach(revision, s1.port.refs[run]), 0, [], true);
    if s.rows[run].ref.Some? {
      assert s.rows == s.rows[run := Row(RunStarting, Some(s1.port.refs[run]), 2)];
    }
  }

  /** The second half: the RUNNING write. */
  lemma {:induction false} StartFinishes(max: int, s: State, s2: State, run: RunId, pid: Pid)
    requires Inv(max, s) && run in s.rows && s2.port == PortStart(s.port, run) && pid in s2.procs
    requires s2.procs[pid] == Process(run, TailRevision(s2.port.refs[run]), 1, [], true)
    requires s2.rows == s.rows[run := Row(RunStarting, Some(s2.port.refs[run]), 2)]
    ensures
      var s' := Next(max, Next(max, s2, Step(pid)), Step(pid));
      && Linked(s', run) && OnlyTouches(s, s', run) && run in s'.port.created
      && pid in s'.procs && s'.procs[pid].pc == Returned(s'.port.refs[run])
  {
    var ref := s2.port.refs[run];
    var s3 := Next(max, s2, Step(pid));
    assert s3.rows == s2.rows && s3.port == s2.port && s3.procs[pid].pc == TailRunning(ref, 2);
    var s4 := Next(max, s3, Step(pid));
    assert s4.rows == s.rows[run := Row(RunRunning, Some(ref), 3)] && s4.port == s2.port;
    assert s4.procs[pid].pc == Returned(ref);
  }

  /** A start that is not for a STARTING record does nothing; one with a stale revision only reaches the port. */
  lemma {:induction false} RefusedStart(max: int, s: State, run: RunId, pid: Pid, seen: RunStatus, revision: nat)
    requires pid !in s.procs
    requires seen != RunStarting || (run in s.rows && s.rows[run].revision != revision)
    ensures
      var s' := Solo(max, Next(max, s, SpawnStart(pid, run, seen, revision)), pid, 4);
      && s'.rows == s.rows && pid in s'.procs && s'.procs[pid].pc == Stopped
      && s'.port == if seen == RunStarting then PortStart(s.port, run) else s.port
  {
    hide Next;
    var s0 := Next(max, s, SpawnStart(pid, run, seen, revision));
    SoloFour(max, s0, pid);
    Spawned(max, s, run, pid, seen, revision);
    if seen != RunStarting {
      StoppedStays(max, s0, pid);
    } else {
      StaleStops(max, s, s0, run, pid, revision);
      var s2 := Next(max, Next(max, s0, Step(pid)), Step(pid));
      StoppedStays(max, s2, pid);
    }
  }

  lemma {:induction false} Spawned(max: int, s: State, run: RunId, pid: Pid, seen: RunStatus, revision: nat)
    requires pid !in s.procs
    ensures
      var s0 := Next(max, s, SpawnStart(pid, run, seen, revision));
      && s0.rows == s.rows && s0.port == s.port && pid in s0.procs
      && s0.procs[pid] == Process(run, if seen == RunStarting then StartCall(revision) else Stopped, 0, [], true)
  {
  }

  lemma {:induction false} StoppedStays(max: int, s: State, pid: Pid)
    requires pid in s.procs && s.procs[pid].pc == Stopped
    ensures Next(max, s, Step(pid)) == s
  {
    assert s.procs[pid := s.procs[pid]] == s.procs;
  }

  lemma {:induction false} StaleStops(max: int, s: State, s0: State, run: RunId, pid: Pid, revision: nat)
    requires run in s.rows && s.rows[run].revision != revision
    requires s0.rows == s.rows && s0.port == s.port && pid in s0.procs
    requires s0.procs[pid] == Process(run, StartCall(revision), 0, [], true)
    ensures
      var s2 := Next(max, Next(max, s0, Step(pid)), Step(pid));
      s2.rows == s.rows && s2.port == PortStart(s.port, run) && pid in s2.procs && s2.procs[pid].pc == Stopped
  {
    var s1 := Next(max, s0, Step(pid));
    assert s1.procs[pid].pc == StartAttach(revision, PortStart(s.port, run).refs[run]) && s1.rows == s.rows;
  }

  /** A reconciler that reads a linked Run returns its ref and writes nothing. */
  lemma {:induction false} LinkedIsReturned(max: int, s: State, pid: Pid)
    requires pid in s.procs && s.procs[pid].pc.ReadRun? && s.procs[pid].run in s.rows
    requires s.rows[s.procs[pid].run].ref.Some? && s.rows[s.procs[pid].run].status != RunStarting
    ensures
      var s', p := Next(max, s, Step(pid)), s.procs[pid];
      s' == s.(procs := s.procs[pid := p.(pc := Returned(s.rows[p.run].ref.value))])
  {
  }

  /** One that reads a STARTING Run with a ref makes it RUNNING and returns that ref. */
  lemma {:induction false} AttachedIsFinished(max: int, s: State, pid: Pid)
    requires pid in s.procs && s.procs[pid].pc.ReadRun? && s.procs[pid].run in s.rows
    requires s.rows[s.procs[pid].run].ref.Some? && s.rows[s.procs[pid].run].status == RunStarting
    ensures
      var s', p := Next(max, Next(max, Next(max, s, Step(pid)), Step(pid)), Step(pid)), s.procs[pid];
      var row := s.rows[p.run];
      && s'.rows == s.rows[p.run := Row(RunRunning, row.ref, row.revision + 1)] && s'.port == s.port
      && pid in s'.procs && s'.procs[pid].pc == Returned(row.ref.value)
  {
    var p := s.procs[pid];
    var ref := s.rows[p.run].ref.value;
    var s1 := Next(max, s, Step(pid));
    assert s1.procs[pid].pc == TailRevision(ref) && s1.rows == s.rows;
    var s2 := Next(max, s1, Step(pid));
    assert s2.procs[pid].pc == TailRunning(ref, s.rows[p.run].revision) && s2.rows == s.rows;
  }

  /** A crash between the attach and the RUNNING write strands the Run. */
  lemma CrashStrandsARun(max: int, run: RunId) returns (acts: seq<Action>)
    ensures Stranded(After(max, Initial, acts), run)
    ensures run in After(max, Initial, acts).port.created
  {
    acts := [];
    AfterSnoc(max, Initial, acts, CreateRun(run));
    acts := acts + [CreateRun(run)];
    AfterSnoc(max, Initial, acts, SpawnStart(0, run, RunStarting, 1));
    acts := acts + [SpawnStart(0, run, RunStarting, 1)];
    AfterSnoc(max, Initial, acts, Step(0));
    acts := acts + [Step(0)];
    AfterSnoc(max, Initial, acts, Step(0));
    acts := acts + [Step(0)];
    AfterSnoc(max, Initial, acts, Crash(0));
    acts := acts + [Crash(0)];
  }

  /**
   No reconcile pass ever picks a stranded Run up again: unless someone restarts it or
   writes it directly, it stays STARTING for ever, however many passes run.
   */
  lemma {:induction false} StrandedForever(max: int, s: State, acts: seq<Action>, run: RunId)
    requires Stranded(s, run)
    requires forall a :: a in acts ==>
               !(a.SpawnStart? && a.run == run) && !(a.OtherWriter? && a.run == run)
    ensures Stranded(After(max, s, acts), run)
  {
    hide Next;
    if acts != [] {
      var n := |acts| - 1;
      StrandedForever(max, s, acts[..n], run);
      StrandedNext(max, After(max, s, acts[..n]), acts[n], run);
    }
  }

  lemma StrandedNext(max: int, s: State, a: Action, run: RunId)
    requires Stranded(s, run)
    requires !(a.SpawnStart? && a.run == run) && !(a.OtherWriter? && a.run == run)
    ensures Stranded(Next(max, s, a), run)
  {
    match a
    case Step(pid) =>
      if pid in s.procs {
        AdvanceTouchesOwnRun(max, s.rows, s.port, s.procs[pid], run);
      }
    case SpawnPass(pid, order) =>
      assert !Candidate(s.rows, run);
      if order != [] {
        assert order == [order[0]] + order[1..];
      }
    case _ =>
  }

  lemma AdvanceTouchesOwnRun(max: int, rows: Rows, port: Port, p: Process, run: RunId)
    requires p.pc == Stopped || (p.run != run && run !in p.queue)
    ensures
      var (rows', _, p') := Advance(max, rows, port, p);
      && (run in rows ==> run in rows' && rows'[run] == rows[run])
      && (p'.pc == Stopped || (p'.run != run && run !in p'.queue))
  {
  }

  // ---------------------------------------------------------------------------
  // The calls, with others at work between any two awaits
  // ---------------------------------------------------------------------------

  /** What somebody else does: move a Run along its table, or start it and attach its ref. */
  datatype Meddling = Moves(run: RunId, target: RunStatus) | Starts(run: RunId, revision: nat)

  function Meddle(rows: Rows, port: Port, m: Meddling): (Rows, Port) {
    match m
    case Moves(run, target) =>
      var w := Transition(rows, run, target, Revision(rows, run));
      (if w.Written? then w.rows else rows, port)
    case Starts(run, revision) =>
      var port' := PortStart(port, run);
      var w := Attach(rows, run, revision, port'.refs[run]);
      (if w.Written? then w.rows else rows, port')
  }

  ghost predicate Holds(s: State, rows: Rows, port: Port, p: Process) {
    s.rows == rows && s.port == port && 0 in s.procs && s.procs[0] == p
  }

  /** Some run of the machine from `s` ends with this store, this port and process 0 here. */
  ghost predicate LeadsTo(max: int, s: State, rows: Rows, port: Port, p: Process) {
    exists acts :: Holds(After(max, s, acts), rows, port, p)
  }

  lemma {:induction false} LeadsSelf(max: int, s: State, rows: Rows, port: Port, p: Process)
    requires Holds(s, rows, port, p)
    ensures LeadsTo(max, s, rows, port, p)
  {
    assert After(max, s, []) == s;
  }

  /** Process 0 makes its next call. */
  lemma {:induction false} Follow(max: int, s: State, rows: Rows, port: Port, p: Process)
    requires LeadsTo(max, s, rows, port, p)
    ensures
      var (rows', port', p') := Advance(max, rows, port, p);
      LeadsTo(max, s, rows', port', p')
  {
    hide Advance, After;
    var acts :| Holds(After(max, s, acts), rows, port, p);
    var (rows', port', p') := Advance(max, rows, port, p);
    AfterSnoc(max, s, acts, Step(0));
    assert Holds(After(max, s, acts + [Step(0)]), rows', port', p');
  }

  lemma {:induction false} NewPid(procs: map<Pid, Process>) returns (pid: Pid)
    ensures pid !in procs && pid > 0
  {
    pid := Above(procs.Keys);
  }

  lemma {:induction false} Above(pids: set<Pid>) returns (pid: Pid)
    ensures pid > 0 && forall q :: q in pids ==> q < pid
    decreases |pids|
  {
    if pids == {} {
      pid := 1;
    } else {
      var q :| q in pids;
      var above := Above(pids - {q});
      pid := if above <= q then q + 1 else above;
      forall p | p in pids
        ensures p < pid
      {
        assert p == q || p in pids - {q};
      }
    }
  }

  /** Somebody else acts. */
  lemma {:induction false} Suffer(max: int, s: State, rows: Rows, port: Port, p: Process, m: Meddling)
    requires LeadsTo(max, s, rows, port, p)
    ensures
      var (rows', port') := Meddle(rows, port, m);
      LeadsTo(max, s, rows', port', p)
  {
    hide After;
    var acts :| Holds(After(max, s, acts), rows, port, p);
    var (rows', port') := Meddle(rows, port, m);
    if m.Moves? {
      AfterSnoc(max, s, acts, OtherWriter(m.run, m.target));
      assert Holds(After(max, s, acts + [OtherWriter(m.run, m.target)]), rows', port', p);
    } else {
      var d := After(max, s, acts);
      var pid := NewPid(d.procs);
      StartedBy(max, d, pid, m.run, m.revision);
      var a, b, c := acts + [SpawnStart(pid, m.run, RunStarting, m.revision)], Step(pid), Step(pid);
      AfterSnoc(max, s, acts, SpawnStart(pid, m.run, RunStarting, m.revision));
      AfterSnoc(max, s, a, b);
      AfterSnoc(max, s, a + [b], c);
      assert Holds(After(max, s, a + [b] + [c]), rows', port', p);
    }
  }

  lemma {:induction false} StartedBy(max: int, s: State, pid: Pid, run: RunId, revision: nat)
    requires pid !in s.procs && 0 in s.procs
    ensures
      var d := Next(max, Next(max, Next(max, s, SpawnStart(pid, run, RunStarting, revision)), Step(pid)), Step(pid));
      Holds(d, Meddle(s.rows, s.port, Starts(run, revision)).0, Meddle(s.rows, s.port, Starts(run, revision)).1, s.procs[0])
  {
    var one := Next(max, s, SpawnStart(pid, run, RunStarting, revision));
    assert one.procs[pid] == Process(run, StartCall(revision), 0, [], true);
    var two := Next(max, one, Step(pid));
    assert two.procs[pid] == Process(run, StartAttach(revision, PortStart(s.port, run).refs[run]), 0, [], true);
  }

  /** What a call begun in any reachable state can return: the port's own ref, already attached, and
      never a second execution. */
  lemma {:induction false} CallsReturnTheAttachedRef(max: int, before: seq<Action>, rows: Rows, port: Port, p: Process)
    requires LeadsTo(max, After(max, Initial, before), rows, port, p)
    ensures PortOk(port) && ProcessOk(max, rows, port, p)
    ensures p.pc.Returned? ==>
              p.run in rows && rows[p.run].ref == Some(p.pc.ref) && p.run in port.refs && port.refs[p.run] == p.pc.ref
  {
    hide After;
    var acts :| Holds(After(max, After(max, Initial, before), acts), rows, port, p);
    AfterSplit(max, Initial, before, acts);
    ReachableInv(max, before + acts);
  }

  ghost function Outcome(r: Option<ExecutionRef>): Pc { if r.Some? then Returned(r.value) else Stopped }

  class DurableRunBridge {
    const max: int
    var rows: Rows
    var port: Port
    /** What the others will do at the next awaits. */
    var others: seq<seq<Meddling>>

    constructor (max: int, rows: Rows, port: Port, others: seq<seq<Meddling>>)
      ensures this.max == max && this.rows == rows && this.port == port && this.others == others
    {
      this.max, this.rows, this.port, this.others := max, rows, port, others;
    }

    /** An await: the others have their turn. */
    method Await(ghost s: State, ghost p: Process)
      requires LeadsTo(max, s, rows, port, p)
      modifies this
      ensures LeadsTo(max, s, rows, port, p)
      ensures old(others) == [] ==> others == [] && rows == old(rows) && port == old(port)
    {
      if others != [] {
        for k := 0 to |others[0]|
          invariant others == old(others) && LeadsTo(max, s, rows, port, p)
        {
          hide LeadsTo;
          Suffer(max, s, rows, port, p, others[0][k]);
          var (rows', port') := Meddle(rows, port, others[0][k]);
          rows, port := rows', port';
        }
        others := others[1..];
      }
    }

    /** The end of every successful path: the ref is attached, the Run becomes RUNNING. */
    method ToRunning(run: RunId, ref: ExecutionRef, ghost attaches: nat, ghost starter: bool, ghost s: State) returns (r: Option<ExecutionRef>)
      requires LeadsTo(max, s, rows, port, Process(run, TailRevision(ref), attaches, [], starter))
      modifies this
      ensures LeadsTo(max, s, rows, port, Process(run, Outcome(r), attaches, [], starter))
      ensures r.Some? ==> r.value == ref
      ensures old(others) == [] && run in old(rows) && old(rows)[run].status == RunStarting ==>
                && r == Some(ref) && port == old(port) && others == []
                && rows == old(rows)[run := Row(RunRunning, old(rows)[run].ref, old(rows)[run].revision + 1)]
    {
      hide LeadsTo;
      Await(s, Process(run, TailRevision(ref), attaches, [], starter));
      Follow(max, s, rows, port, Process(run, TailRevision(ref), attaches, [], starter));
      var revision := Revision(rows, run);
      Await(s, Process(run, TailRunning(ref, revision), attaches, [], starter));
      Follow(max, s, rows, port, Process(run, TailRunning(ref, revision), attaches, [], starter));
      match Transition(rows, run, RunRunning, revision) {
        case Written(next) =>
          rows := next;
          r := Some(ref);
        case _ =>
          r := None;
      }
    }

    /** `start_run`: steps 2 to 4 for a Run committed STARTING by the caller. */
    method StartRun(run: RunId, seen: RunStatus, revision: nat, ghost s: State) returns (r: Option<ExecutionRef>, ghost attaches: nat)
      requires Holds(s, rows, port, Process(run, if seen == RunStarting then StartCall(revision) else Stopped, 0, [], true))
      modifies this
      ensures attaches <= 1 && LeadsTo(max, s, rows, port, Process(run, Outcome(r), attaches, [], true))
      ensures seen != RunStarting ==> r == None && rows == old(rows) && port == old(port)
      ensures
        var started := PortStart(old(port), run);
        (old(others) == [] && seen == RunStarting && run in old(rows) && old(rows)[run].status == RunStarting
         && old(rows)[run].revision == revision && (old(rows)[run].ref == None || old(rows)[run].ref == Some(started.refs[run]))) ==>
          && r == Some(started.refs[run]) && port == started
          && run in rows && rows == old(rows)[run := rows[run]] && rows[run].status == RunRunning && rows[run].ref == r
    {
      hide LeadsTo;
      LeadsSelf(max, s, rows, port, s.procs[0]);
      attaches := 0;
      if seen != RunStarting {
        return None, attaches;
      }
      Await(s, Process(run, StartCall(revision), 0, [], true));
      Follow(max, s, rows, port, Process(run, StartCall(revision), 0, [], true));
      port := PortStart(port, run);
      var ref := port.refs[run];
      Await(s, Process(run, StartAttach(revision, ref), 0, [], true));
      Follow(max, s, rows, port, Process(run, StartAttach(revision, ref), 0, [], true));
      attaches := 1;
      match Attach(rows, run, revision, ref) {
        case Written(next) =>
          rows := next;
          r := ToRunning(run, ref, attaches, true, s);
        case _ =>
          r := None;
      }
    }

    /** `_mark_failed_exhausted`. */
    method MarkFailed(run: RunId, ghost attaches: nat, ghost s: State)
      requires LeadsTo(max, s, rows, port, Process(run, FailRead, attaches, [], false))
      modifies this
      ensures LeadsTo(max, s, rows, port, Process(run, Stopped, attaches, [], false))
      ensures old(others) == [] && run in old(rows) && old(rows)[run].status == RunStarting ==>
                rows == old(rows)[run := Row(RunFailed, old(rows)[run].ref, old(rows)[run].revision + 1)]
      ensures old(others) == [] && (run !in old(rows) || old(rows)[run].status != RunStarting) ==> rows == old(rows)
      ensures old(others) == [] ==> port == old(port)
    {
      hide LeadsTo;
      Await(s, Process(run, FailRead, attaches, [], false));
      Follow(max, s, rows, port, Process(run, FailRead, attaches, [], false));
      if run in rows && rows[run].status == RunStarting {
        Await(s, Process(run, FailRevision, attaches, [], false));
        Follow(max, s, rows, port, Process(run, FailRevision, attaches, [], false));
        var revision := Revision(rows, run);
        Await(s, Process(run, FailWrite(revision), attaches, [], false));
        Follow(max, s, rows, port, Process(run, FailWrite(revision), attaches, [], false));
        match Transition(rows, run, RunFailed, revision) {
          case Written(next) => rows := next;
          case _ =>
        }
      }
    }

    /** Find the external execution of the Run, or start it. */
    method FindOrStart(run: RunId, attempt: nat, revision: nat, ghost attaches: nat, ghost s: State) returns (ref: ExecutionRef)
      requires LeadsTo(max, s, rows, port, Process(run, FindCall(attempt, revision), attaches, [], false))
      modifies this
      ensures LeadsTo(max, s, rows, port, Process(run, RecoverAttach(attempt, revision, ref), attaches, [], false))
      ensures old(others) == [] ==>
                others == [] && rows == old(rows) && port == PortStart(old(port), run) && ref == port.refs[run]
    {
      hide LeadsTo;
      Await(s, Process(run, FindCall(attempt, revision), attaches, [], false));
      Follow(max, s, rows, port, Process(run, FindCall(attempt, revision), attaches, [], false));
      if run in port.refs {
        ref := port.refs[run];
      } else {
        Await(s, Process(run, RecoverStart(attempt, revision), attaches, [], false));
        Follow(max, s, rows, port, Process(run, RecoverStart(attempt, revision), attaches, [], false));
        port := PortStart(port, run);
        ref := port.refs[run];
      }
    }

    /** After an attach that met another ref: converge on it if it is the same one, else stop. */
    method ReadTheWinner(run: RunId, ref: ExecutionRef, ghost attaches: nat, ghost s: State) returns (r: Option<ExecutionRef>)
      requires LeadsTo(max, s, rows, port, Process(run, ReadWinner(ref), attaches, [], false))
      modifies this
      ensures LeadsTo(max, s, rows, port, Process(run, Outcome(r), attaches, [], false))
    {
      hide LeadsTo;
      Await(s, Process(run, ReadWinner(ref), attaches, [], false));
      Follow(max, s, rows, port, Process(run, ReadWinner(ref), attaches, [], false));
      if run !in rows || rows[run].ref != Some(ref) {
        r := None;
      } else if rows[run].status == RunStarting {
        r := ToRunning(run, ref, attaches, false, s);
      } else {
        r := Some(ref);
      }
    }

    /** `_reconcile_one`: the bounded retry loop. */
    method ReconcileOne(run: RunId, ghost s: State) returns (r: Option<ExecutionRef>, ghost attaches: nat)
      requires Holds(s, rows, port, Process(run, EnterReconcile(max), 0, [], false))
      modifies this
      ensures LeadsTo(max, s, rows, port, Process(run, Outcome(r), attaches, [], false))
      ensures attaches == 0 || attaches <= max
      ensures old(others) == [] && run !in old(rows) ==> r == None && rows == old(rows) && port == old(port)
      ensures old(others) == [] && max >= 1 && run in old(rows) && old(rows)[run].ref.Some? ==>
                && r == old(rows)[run].ref && port == old(port)
                && (old(rows)[run].status != RunStarting ==> rows == old(rows))
                && (old(rows)[run].status == RunStarting ==>
                      rows == old(rows)[run := Row(RunRunning, r, old(rows)[run].revision + 1)])
      ensures old(others) == [] && max >= 1 && Candidate(old(rows), run) ==>
                && port == PortStart(old(port), run) && r == Some(port.refs[run])
                && rows == old(rows)[run := Row(RunRunning, r, old(rows)[run].revision + 2)]
    {
      hide LeadsTo;
      LeadsSelf(max, s, rows, port, s.procs[0]);
      var attempt := 0;
      attaches := 0;
      while attempt < max
        invariant attaches == attempt && (attempt == 0 || attempt <= max)
        invariant old(others) == [] ==> attempt == 0 && others == [] && rows == old(rows) && port == old(port)
        invariant LeadsTo(max, s, rows, port, Process(run, if attempt < max then ReadRun(attempt) else FailRead, attaches, [], false))
        decreases max - attempt
      {
        Await(s, Process(run, ReadRun(attempt), attaches, [], false));
        Follow(max, s, rows, port, Process(run, ReadRun(attempt), attaches, [], false));
        if run !in rows {
          return None, attaches;
        }
        var current := rows[run];
        if current.ref != None {
          if current.status == RunStarting {
            r := ToRunning(run, current.ref.value, attaches, false, s);
            return r, attaches;
          }
          return current.ref, attaches;
        }
        Await(s, Process(run, ReadRevision(attempt), attaches, [], false));
        Follow(max, s, rows, port, Process(run, ReadRevision(attempt), attaches, [], false));
        var revision := Revision(rows, run);
        var ref := FindOrStart(run, attempt, revision, attaches, s);
        Await(s, Process(run, RecoverAttach(attempt, revision, ref), attaches, [], false));
        Follow(max, s, rows, port, Process(run, RecoverAttach(attempt, revision, ref), attaches, [], false));
        attaches := attaches + 1;
        match Attach(rows, run, revision, ref) {
          case Written(next) =>
            rows := next;
            r := ToRunning(run, ref, attaches, false, s);
            return r, attaches;
          case StaleRevision =>
            attempt := attempt + 1;
          case RefConflict =>
            r := ReadTheWinner(run, ref, attaches, s);
            return r, attaches;
          case _ =>
            return None, attaches;
        }
      }
      MarkFailed(run, attaches, s);
      r := None;
    }
  }
}
