/**
 The Goal/Work/Run state machine: the canonical transition tables and the checked
 transitions every store write goes through.
 */
module Lifecycle {

  datatype GoalStatus =
    | GoalActive | GoalWaiting | GoalSucceeded | GoalFailed | GoalCancelRequested | GoalCancelled

  datatype WorkStatus =
    | WorkPending | WorkRunning | WorkWaiting | WorkSucceeded | WorkFailed | WorkCancelRequested | WorkCancelled

  datatype RunStatus =
    | RunStarting | RunRunning | RunWaiting | RunSucceeded | RunFailed | RunCancelRequested | RunCancelled

  function GoalTargets(s: GoalStatus): set<GoalStatus> {
    match s
    case GoalActive => {GoalWaiting, GoalSucceeded, GoalFailed, GoalCancelRequested, GoalCancelled}
    case GoalWaiting => {GoalActive, GoalSucceeded, GoalFailed, GoalCancelRequested, GoalCancelled}
    case GoalCancelRequested => {GoalCancelled}
    case _ => {}
  }

  function WorkTargets(s: WorkStatus): set<WorkStatus> {
    match s
    case WorkPending => {WorkRunning, WorkCancelled}
    case WorkRunning => {WorkWaiting, WorkSucceeded, WorkFailed, WorkCancelRequested, WorkCancelled}
    case WorkWaiting => {WorkRunning, WorkCancelRequested, WorkCancelled}
    case WorkCancelRequested => {WorkCancelled}
    case _ => {}
  }

  function RunTargets(s: RunStatus): set<RunStatus> {
    match s
    case RunStarting => {RunRunning, RunFailed, RunCancelled}
    case RunRunning => {RunWaiting, RunSucceeded, RunFailed, RunCancelRequested, RunCancelled}
    case RunWaiting => {RunRunning, RunCancelRequested, RunCancelled}
    case RunCancelRequested => {RunCancelled}
    case _ => {}
  }

  predicate GoalTerminal(s: GoalStatus) { s in {GoalSucceeded, GoalFailed, GoalCancelled} }
  predicate WorkTerminal(s: WorkStatus) { s in {WorkSucceeded, WorkFailed, WorkCancelled} }
  predicate RunTerminal(s: RunStatus) { s in {RunSucceeded, RunFailed, RunCancelled} }
  predicate RunActive(s: RunStatus) { s in {RunStarting, RunRunning, RunWaiting, RunCancelRequested} }

  datatype Refusal = TerminalRevive | InvalidTransition | MissingEvidence

  datatype Checked<+T> = Allowed(next: T) | Refused(why: Refusal)

  /** `transition_goal`: terminal first, then the table, then the evidence. */
  function TransitionGoal(s: GoalStatus, target: GoalStatus, evidence: bool): (r: Checked<GoalStatus>) {
    if GoalTerminal(s) then Refused(TerminalRevive)
    else if target !in GoalTargets(s) then Refused(InvalidTransition)
    else if target == GoalSucceeded && !evidence then Refused(MissingEvidence)
    else Allowed(target)
  }

  /** `transition_work`: terminal first, then the table, then the evidence. */
  function TransitionWork(s: WorkStatus, target: WorkStatus, evidence: bool): (r: Checked<WorkStatus>) {
    if WorkTerminal(s) then Refused(TerminalRevive)
    else if target !in WorkTargets(s) then Refused(InvalidTransition)
    else if target == WorkSucceeded && !evidence then Refused(MissingEvidence)
    else Allowed(target)
  }

  /** `transition_run`. */
  function TransitionRun(s: RunStatus, target: RunStatus): (r: Checked<RunStatus>) {
    if RunTerminal(s) then Refused(TerminalRevive)
    else if target !in RunTargets(s) then Refused(InvalidTransition)
    else Allowed(target)
  }

  /** A history of one Work: every step was allowed by `transition_work`. */
  ghost predicate WorkHistory(h: seq<WorkStatus>) {
    forall i :: 0 <= i < |h| - 1 ==> h[i + 1] in WorkTargets(h[i])
  }

  ghost predicate RunHistory(h: seq<RunStatus>) {
    forall i :: 0 <= i < |h| - 1 ==> h[i + 1] in RunTargets(h[i])
  }

  ghost predicate GoalHistory(h: seq<GoalStatus>) {
    forall i :: 0 <= i < |h| - 1 ==> h[i + 1] in GoalTargets(h[i])
  }

  /**
   Over a whole history PENDING occurs only first, a terminal status only last, and a
   cancel request is followed by nothing but the cancellation.
   */
  lemma WorkHistoryShape(h: seq<WorkStatus>, i: nat)
    requires WorkHistory(h) && i < |h|
    ensures h[i] == WorkPending ==> i == 0
    ensures WorkTerminal(h[i]) ==> i == |h| - 1
    ensures h[i] == WorkCancelRequested ==> i >= |h| - 2
  {
    if i > 0 {
      assert h[i - 1 + 1] in WorkTargets(h[i - 1]);
    }
    if i + 1 < |h| {
      assert h[i + 1] in WorkTargets(h[i]);
    }
    if i + 2 < |h| {
      assert h[i + 1 + 1] in WorkTargets(h[i + 1]);
    }
  }

  lemma RunHistoryShape(h: seq<RunStatus>, i: nat)
    requires RunHistory(h) && i < |h|
    ensures h[i] == RunStarting ==> i == 0
    ensures RunTerminal(h[i]) ==> i == |h| - 1
    ensures h[i] == RunCancelRequested ==> i >= |h| - 2
  {
    if i > 0 {
      assert h[i - 1 + 1] in RunTargets(h[i - 1]);
    }
    if i + 1 < |h| {
      assert h[i + 1] in RunTargets(h[i]);
    }
    if i + 2 < |h| {
      assert h[i + 1 + 1] in RunTargets(h[i + 1]);
    }
  }

  lemma GoalHistoryShape(h: seq<GoalStatus>, i: nat)
    requires GoalHistory(h) && i < |h|
    ensures GoalTerminal(h[i]) ==> i == |h| - 1
    ensures h[i] == GoalCancelRequested ==> i >= |h| - 2
  {
    if i + 1 < |h| {
      assert h[i + 1] in GoalTargets(h[i]);
    }
    if i + 2 < |h| {
      assert h[i + 1 + 1] in GoalTargets(h[i + 1]);
    }
  }

  // The tables read by target: from where each status can be entered.

  /** Work can be cancelled from every open status and asked to cancel while it runs or waits; it ends and parks only
      from RUNNING, runs only from PENDING and WAITING, and never becomes PENDING. */
  lemma {:induction false} WorkEntries(s: WorkStatus)
    ensures WorkPending !in WorkTargets(s)
    ensures WorkRunning in WorkTargets(s) <==> s == WorkPending || s == WorkWaiting
    ensures WorkWaiting in WorkTargets(s) <==> s == WorkRunning
    ensures WorkSucceeded in WorkTargets(s) <==> s == WorkRunning
    ensures WorkFailed in WorkTargets(s) <==> s == WorkRunning
    ensures WorkCancelRequested in WorkTargets(s) <==> s == WorkRunning || s == WorkWaiting
    ensures WorkCancelled in WorkTargets(s) <==> !WorkTerminal(s)
    ensures WorkTerminal(s) <==> WorkTargets(s) == {}
  {
  }

  /** The same for Runs, which may also fail before they run. */
  lemma {:induction false} RunEntries(s: RunStatus)
    ensures RunStarting !in RunTargets(s)
    ensures RunRunning in RunTargets(s) <==> s == RunStarting || s == RunWaiting
    ensures RunWaiting in RunTargets(s) <==> s == RunRunning
    ensures RunSucceeded in RunTargets(s) <==> s == RunRunning
    ensures RunFailed in RunTargets(s) <==> s == RunStarting || s == RunRunning
    ensures RunCancelRequested in RunTargets(s) <==> s == RunRunning || s == RunWaiting
    ensures RunCancelled in RunTargets(s) <==> !RunTerminal(s)
    ensures RunTerminal(s) <==> RunTargets(s) == {}
    ensures RunActive(s) <==> !RunTerminal(s)
  {
  }

  /** A Goal moves freely between ACTIVE and WAITING and ends from either. */
  lemma {:induction false} GoalEntries(s: GoalStatus)
    ensures GoalActive in GoalTargets(s) <==> s == GoalWaiting
    ensures GoalWaiting in GoalTargets(s) <==> s == GoalActive
    ensures GoalSucceeded in GoalTargets(s) <==> s == GoalActive || s == GoalWaiting
    ensures GoalFailed in GoalTargets(s) <==> s == GoalActive || s == GoalWaiting
    ensures GoalCancelRequested in GoalTargets(s) <==> s == GoalActive || s == GoalWaiting
    ensures GoalCancelled in GoalTargets(s) <==> !GoalTerminal(s)
    ensures GoalTerminal(s) <==> GoalTargets(s) == {}
  {
  }

  /** A transition is allowed exactly along the table and, into success, with evidence; a terminal record is refused as
      a revival whatever the target. */
  lemma {:induction false} TransitionsMean(g: GoalStatus, gt: GoalStatus, w: WorkStatus, wt: WorkStatus, r: RunStatus, rt: RunStatus, evidence: bool)
    ensures TransitionGoal(g, gt, evidence) == Allowed(gt) <==> gt in GoalTargets(g) && (gt == GoalSucceeded ==> evidence)
    ensures TransitionWork(w, wt, evidence) == Allowed(wt) <==> wt in WorkTargets(w) && (wt == WorkSucceeded ==> evidence)
    ensures TransitionRun(r, rt) == Allowed(rt) <==> rt in RunTargets(r)
    ensures TransitionGoal(g, gt, evidence) == Refused(TerminalRevive) <==> GoalTerminal(g)
    ensures TransitionWork(w, wt, evidence) == Refused(TerminalRevive) <==> WorkTerminal(w)
    ensures TransitionRun(r, rt) == Refused(TerminalRevive) <==> RunTerminal(r)
    ensures TransitionGoal(g, gt, evidence) == Refused(MissingEvidence) <==> gt == GoalSucceeded && gt in GoalTargets(g) && !evidence
    ensures TransitionWork(w, wt, evidence) == Refused(MissingEvidence) <==> wt == WorkSucceeded && wt in WorkTargets(w) && !evidence
    ensures TransitionGoal(g, gt, evidence).Allowed? ==> TransitionGoal(g, gt, evidence).next == gt
    ensures TransitionWork(w, wt, evidence).Allowed? ==> TransitionWork(w, wt, evidence).next == wt
    ensures TransitionRun(r, rt).Allowed? ==> TransitionRun(r, rt).next == rt
  {
  }
}
