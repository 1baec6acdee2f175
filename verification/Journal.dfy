/**
 The step-journaling adapter: a run is a fixed list of steps, each recorded in a durable
 journal when it is done. A call may be killed at an injected point or refused by a lost
 backend; calling again with the same identity and input resumes where the journal stops.
 */
module Journal {
  import opened Common

  type Payload = string

  datatype FailPoint =
    | NoFailure | BeforeModelPersist | AfterModelPersist | AfterMutation | DuringWaitSignal | DuringTimer | OnDisconnect

  datatype Identity = Identity(workId: string, runId: string, attempt: nat)

  /** The input of a run, without its fail point. An empty signal name means no wait. */
  datatype Input = Input(
    task: string, item: string, mutationKey: string, mutationValue: string, delay: int, waitFor: string)

  datatype Step = ReadTool | ModelPersist | MutationTool | Timer | WaitSignal

  datatype RunJournal = RunJournal(
    correlation: string,
    done: set<Step>,
    read: Option<string>,
    decision: Option<string>,
    committed: bool,
    value: Option<string>,
    signal: Option<Payload>,
    elapsed: int)

  datatype Output = Output(
    task: string, read: Option<string>, decision: Option<string>, committed: bool, value: Option<string>,
    signal: Option<Payload>, elapsed: int, correlation: string, identity: Identity)

  function ReadInventory(item: string): string { "Inventory item " + item }

  /** The deterministic agent: the same decision on every evaluation. */
  function Decide(task: string, item: string): string { "Deterministic evaluation completed via TestModel" }

  function NewJournal(correlation: string): RunJournal {
    RunJournal(correlation, {}, None, None, false, None, None, 0)
  }

  // ---------------------------------------------------------------------------
  // The external side-effect store
  // ---------------------------------------------------------------------------

  datatype Effect = Effect(calls: nat, applications: nat, value: string)

  type Effects = map<string, Effect>

  /** `record_mutation`: the first call for a key applies it, later calls only look it up. */
  function Recorded(e: Effects, key: string, value: string): Effects {
    if key in e then e[key := e[key].(calls := e[key].calls + 1)] else e[key := Effect(1, 1, value)]
  }

  predicate Duplicate(strict: bool, e: Effects, key: string, value: string) {
    strict && key in e && e[key].value != value
  }

  // ---------------------------------------------------------------------------
  // One call
  // ---------------------------------------------------------------------------

  datatype Stop = Killed(at: FailPoint) | DuplicateMutation | Blocked

  /** A call under way: the run's journal, the effects, the signal queue and the steps run so far. */
  datatype Progress = Progress(
    j: RunJournal, effects: Effects, queue: seq<Payload>, ran: seq<Step>, stop: Option<Stop>)

  predicate Skips(p: Progress, step: Step) { p.stop.Some? || step in p.j.done }

  function ReadStage(input: Input, p: Progress): Progress {
    if Skips(p, ReadTool) then p
    else p.(j := p.j.(read := Some(ReadInventory(input.item)), done := p.j.done + {ReadTool}), ran := p.ran + [ReadTool])
  }

  function ModelStage(input: Input, fail: FailPoint, p: Progress): Progress {
    if Skips(p, ModelPersist) then p
    else if fail == BeforeModelPersist then p.(stop := Some(Killed(fail)))
    else p.(
      j := p.j.(decision := Some(Decide(input.task, input.item)), done := p.j.done + {ModelPersist}),
      ran := p.ran + [ModelPersist],
      stop := if fail == AfterModelPersist then Some(Killed(fail)) else None)
  }

  function MutationStage(strict: bool, input: Input, fail: FailPoint, p: Progress): Progress {
    if Skips(p, MutationTool) then p
    else
      var e := Recorded(p.effects, input.mutationKey, input.mutationValue);
      if Duplicate(strict, p.effects, input.mutationKey, input.mutationValue) then
        p.(effects := e, ran := p.ran + [MutationTool], stop := Some(DuplicateMutation))
      else if fail == AfterMutation then
        p.(effects := e, ran := p.ran + [MutationTool], stop := Some(Killed(fail)))
      else p.(
        effects := e,
        j := p.j.(committed := true, value := Some(e[input.mutationKey].value), done := p.j.done + {MutationTool}),
        ran := p.ran + [MutationTool])
  }

  function TimerStage(input: Input, fail: FailPoint, p: Progress): Progress {
    if input.delay <= 0 || Skips(p, Timer) then p
    else if fail == DuringTimer then p.(stop := Some(Killed(fail)))
    else p.(j := p.j.(elapsed := input.delay, done := p.j.done + {Timer}), ran := p.ran + [Timer])
  }

  function SignalStage(input: Input, fail: FailPoint, p: Progress): Progress {
    if input.waitFor == "" || Skips(p, WaitSignal) then p
    else if fail == DuringWaitSignal then p.(stop := Some(Killed(fail)))
    else if p.queue == [] then p.(stop := Some(Blocked))
    else p.(
      j := p.j.(signal := Some(p.queue[0]), done := p.j.done + {WaitSignal}),
      queue := p.queue[1..],
      ran := p.ran + [WaitSignal])
  }

  function Front(strict: bool, input: Input, fail: FailPoint, p: Progress): Progress {
    MutationStage(strict, input, fail, ModelStage(input, fail, ReadStage(input, p)))
  }

  function Back(input: Input, fail: FailPoint, p: Progress): Progress {
    SignalStage(input, fail, TimerStage(input, fail, p))
  }

  /** The five steps of one call, each skipped when the journal already has it. */
  function Perform(strict: bool, input: Input, fail: FailPoint, j: RunJournal, e: Effects, queue: seq<Payload>): Progress {
    Back(input, fail, Front(strict, input, fail, Progress(j, e, queue, [], None)))
  }

  function Report(input: Input, identity: Identity, j: RunJournal): Output {
    Output(input.task, j.read, j.decision, j.committed, j.value, j.signal, j.elapsed, j.correlation, identity)
  }

  // ---------------------------------------------------------------------------
  // The adapter object
  // ---------------------------------------------------------------------------

  datatype Reply = Completed(output: Output) | Stopped(stop: Stop) | Disconnected | Cancelled

  function KeyOf(identity: Identity): string { identity.workId + ":" + identity.runId }

  function SignalKey(identity: Identity, name: string): string { KeyOf(identity) + ":" + name }

  function QueueOf(signals: map<string, seq<Payload>>, key: string): seq<Payload> {
    if key in signals then signals[key] else []
  }

  function CorrelationOf(trace: Option<string>): string { if trace.Some? then trace.value else "unknown-corr-id" }

  class SideEffectStore {
    var effects: Effects
    const strict: bool

    constructor (strict: bool)
      ensures this.strict == strict && effects == map[]
    {
      this.strict := strict;
      effects := map[];
    }

    /** Applies the mutation once per key; a second value under a strict key is refused. */
    method RecordMutation(key: string, value: string) returns (duplicate: bool)
      modifies this
      ensures effects == Recorded(old(effects), key, value)
      ensures duplicate == Duplicate(strict, old(effects), key, value)
    {
      if key in effects {
        duplicate := strict && effects[key].value != value;
        effects := effects[key := effects[key].(calls := effects[key].calls + 1)];
      } else {
        duplicate := false;
        effects := effects[key := Effect(1, 1, value)];
      }
    }
  }

  class BaselineMemoryAdapter {
    var journal: map<string, RunJournal>
    var signals: map<string, seq<Payload>>
    var cancelled: set<string>
    var failures: int

    constructor ()
      ensures journal == map[] && signals == map[] && cancelled == {} && failures == 0
    {
      journal, signals, cancelled, failures := map[], map[], {}, 0;
    }

    method SimulateBackendDisconnect(n: int)
      modifies this`failures
      ensures failures == n
    {
      failures := n;
    }

    method SendSignal(identity: Identity, name: string, payload: Payload)
      modifies this`signals
      ensures signals == old(signals)[SignalKey(identity, name) := QueueOf(old(signals), SignalKey(identity, name)) + [payload]]
    {
      var key := SignalKey(identity, name);
      signals := signals[key := QueueOf(signals, key) + [payload]];
    }

    method Cancel(identity: Identity)
      modifies this`cancelled
      ensures cancelled == old(cancelled) + {KeyOf(identity)}
    {
      cancelled := cancelled + {KeyOf(identity)};
    }

    /** The journal is all that an upgraded adapter takes over. */
    method ImportJournal(state: map<string, RunJournal>)
      modifies this`journal
      ensures journal == state
    {
      journal := state;
    }

    method ReadStep(key: string, input: Input, ghost p: Progress)
      requires key in journal && p.j == journal[key] && p.stop == None
      modifies this`journal
      ensures journal == old(journal)[key := ReadStage(input, p).j]
    {
      var state := journal[key];
      if ReadTool !in state.done {
        journal := journal[key := state.(read := Some(ReadInventory(input.item)), done := state.done + {ReadTool})];
      }
    }

    method ModelStep(key: string, input: Input, fail: FailPoint, ghost p: Progress) returns (stop: Option<Stop>)
      requires key in journal && p.j == journal[key] && p.stop == None
      modifies this`journal
      ensures journal == old(journal)[key := ModelStage(input, fail, p).j]
      ensures stop == ModelStage(input, fail, p).stop
    {
      var state := journal[key];
      if ModelPersist !in state.done {
        if fail == BeforeModelPersist {
          return Some(Killed(fail));
        }
        journal := journal[key :=
          state.(decision := Some(Decide(input.task, input.item)), done := state.done + {ModelPersist})];
        if fail == AfterModelPersist {
          return Some(Killed(fail));
        }
      }
      stop := None;
    }

    method MutationStep(key: string, input: Input, fail: FailPoint, store: SideEffectStore, ghost p: Progress)
      returns (stop: Option<Stop>)
      requires key in journal && p.j == journal[key] && p.stop == None && p.effects == store.effects
      modifies this`journal, store
      ensures journal == old(journal)[key := MutationStage(store.strict, input, fail, p).j]
      ensures store.effects == MutationStage(store.strict, input, fail, p).effects
      ensures stop == MutationStage(store.strict, input, fail, p).stop
    {
      var state := journal[key];
      if MutationTool !in state.done {
        var duplicate := store.RecordMutation(input.mutationKey, input.mutationValue);
        if duplicate {
          return Some(DuplicateMutation);
        }
        if fail == AfterMutation {
          return Some(Killed(fail));
        }
        journal := journal[key := state.(
          committed := true, value := Some(store.effects[input.mutationKey].value), done := state.done + {MutationTool})];
      }
      stop := None;
    }

    method TimerStep(key: string, input: Input, fail: FailPoint, ghost p: Progress) returns (stop: Option<Stop>)
      requires key in journal && p.j == journal[key] && p.stop == None
      modifies this`journal
      ensures journal == old(journal)[key := TimerStage(input, fail, p).j]
      ensures stop == TimerStage(input, fail, p).stop
    {
      var state := journal[key];
      if input.delay > 0 && Timer !in state.done {
        if fail == DuringTimer {
          return Some(Killed(fail));
        }
        journal := journal[key := state.(elapsed := input.delay, done := state.done + {Timer})];
      }
      stop := None;
    }

    method SignalStep(key: string, sig: string, input: Input, fail: FailPoint, ghost p: Progress)
      returns (stop: Option<Stop>)
      requires key in journal && p.j == journal[key] && p.stop == None && p.queue == QueueOf(signals, sig)
      modifies this`journal, this`signals
      ensures journal == old(journal)[key := SignalStage(input, fail, p).j]
      ensures QueueOf(signals, sig) == SignalStage(input, fail, p).queue
      ensures forall k :: k != sig ==> QueueOf(signals, k) == QueueOf(old(signals), k)
      ensures stop == SignalStage(input, fail, p).stop
    {
      var state := journal[key];
      if input.waitFor != "" && WaitSignal !in state.done {
        if fail == DuringWaitSignal {
          return Some(Killed(fail));
        }
        var queue := QueueOf(signals, sig);
        signals := signals[sig := queue];
        if queue == [] {
          return Some(Blocked);
        }
        signals := signals[sig := queue[1..]];
        journal := journal[key := state.(signal := Some(queue[0]), done := state.done + {WaitSignal})];
      }
      stop := None;
    }

    /** Read, model and mutation; the first step that stops ends the call. */
    method RunFront(key: string, input: Input, fail: FailPoint, store: SideEffectStore, ghost p: Progress)
      returns (stop: Option<Stop>)
      requires key in journal && p.j == journal[key] && p.stop == None && p.effects == store.effects
      modifies this`journal, store
      ensures
        var q := Front(store.strict, input, fail, p);
        journal == old(journal)[key := q.j] && store.effects == q.effects && stop == q.stop && q.queue == p.queue
    {
      hide ReadStage, ModelStage, MutationStage, Front;
      ghost var p1 := ReadStage(input, p);
      ghost var p2 := ModelStage(input, fail, p1);
      FrontFrames(store.strict, input, fail, p);
      ReadStep(key, input, p);
      stop := ModelStep(key, input, fail, p1);
      assert journal == old(journal)[key := p2.j];
      if stop == None {
        stop := MutationStep(key, input, fail, store, p2);
      }
    }

    /** Timer and signal; the first step that stops ends the call. */
    method RunBack(key: string, sig: string, input: Input, fail: FailPoint, ghost p: Progress)
      returns (stop: Option<Stop>)
      requires key in journal && p.j == journal[key] && p.stop == None && p.queue == QueueOf(signals, sig)
      modifies this`journal, this`signals
      ensures
        var q := Back(input, fail, p);
        && journal == old(journal)[key := q.j] && QueueOf(signals, sig) == q.queue && stop == q.stop
        && q.effects == p.effects
      ensures forall k :: k != sig ==> QueueOf(signals, k) == QueueOf(old(signals), k)
    {
      hide TimerStage, SignalStage;
      StageFrames(false, input, fail, p);
      stop := TimerStep(key, input, fail, p);
      ghost var p1 := TimerStage(input, fail, p);
      StageFrames(false, input, fail, p1);
      if stop == None {
        stop := SignalStep(key, sig, input, fail, p1);
      }
    }

    /**
     One call of the run: refused while the backend is away or the run is cancelled,
     otherwise the five stages on the run's own journal, and nothing else changes.
     */
    method StartOrResume(identity: Identity, input: Input, fail: FailPoint, trace: Option<string>, store: SideEffectStore)
      returns (reply: Reply)
      modifies this, store
      ensures cancelled == old(cancelled)
      ensures failures == old(failures) - (if old(failures) > 0 then 1 else 0)
      ensures reply == Disconnected <==> old(failures) > 0
      ensures reply == Cancelled <==> old(failures) <= 0 && KeyOf(identity) in cancelled
      ensures reply == Disconnected || reply == Cancelled ==>
                journal == old(journal) && signals == old(signals) && store.effects == old(store.effects)
      ensures old(failures) <= 0 && KeyOf(identity) !in cancelled ==>
                var key, sig := KeyOf(identity), SignalKey(identity, input.waitFor);
                var j := if key in old(journal) then old(journal)[key] else NewJournal(CorrelationOf(trace));
                var p := Perform(store.strict, input, fail, j, old(store.effects), QueueOf(old(signals), sig));
                && journal == old(journal)[key := p.j]
                && store.effects == p.effects
                && QueueOf(signals, sig) == p.queue
                && (forall k :: k != sig ==> QueueOf(signals, k) == QueueOf(old(signals), k))
                && reply == (if p.stop.Some? then Stopped(p.stop.value) else Completed(Report(input, identity, p.j)))
    {
      hide Perform, KeyOf, SignalKey, QueueOf, Report;
      if failures > 0 {
        failures := failures - 1;
        return Disconnected;
      }
      var key := KeyOf(identity);
      if key in cancelled {
        return Cancelled;
      }
      journal := journal[key := if key in journal then journal[key] else NewJournal(CorrelationOf(trace))];
      var stop := RunStages(key, SignalKey(identity, input.waitFor), input, fail, store);
      reply := if stop.Some? then Stopped(stop.value) else Completed(Report(input, identity, journal[key]));
    }

    /** The stages of a call whose journal is open. */
    method RunStages(key: string, sig: string, input: Input, fail: FailPoint, store: SideEffectStore) returns (stop: Option<Stop>)
      requires key in journal
      modifies this, store
      ensures cancelled == old(cancelled) && failures == old(failures)
      ensures
        var p := Perform(store.strict, input, fail, old(journal)[key], old(store.effects), QueueOf(old(signals), sig));
        && journal == old(journal)[key := p.j]
        && store.effects == p.effects && stop == p.stop
        && QueueOf(signals, sig) == p.queue
        && (forall k :: k != sig ==> QueueOf(signals, k) == QueueOf(old(signals), k))
    {
      hide Front, Back, QueueOf;
      ghost var p := Progress(journal[key], store.effects, QueueOf(signals, sig), [], None);
      stop := RunFront(key, input, fail, store, p);
      ghost var q := Front(store.strict, input, fail, p);
      StoppedStays(input, fail, q);
      assert journal == old(journal)[key := q.j];
      assert Perform(store.strict, input, fail, p.j, p.effects, p.queue) == Back(input, fail, q);
      if stop == None {
        stop := RunBack(key, sig, input, fail, q);
      }
    }
  }

  lemma {:induction false} StoppedStays(input: Input, fail: FailPoint, p: Progress)
    ensures p.stop.Some? ==> Back(input, fail, p) == p
  {
  }

  /** Only the mutation stage touches the effects, only the last one the queue; a stopped call does nothing more. */
  lemma StageFrames(strict: bool, input: Input, fail: FailPoint, p: Progress)
    ensures ReadStage(input, p).effects == p.effects && ReadStage(input, p).queue == p.queue
    ensures ReadStage(input, p).stop == p.stop
    ensures ModelStage(input, fail, p).effects == p.effects && ModelStage(input, fail, p).queue == p.queue
    ensures MutationStage(strict, input, fail, p).queue == p.queue
    ensures TimerStage(input, fail, p).effects == p.effects && TimerStage(input, fail, p).queue == p.queue
    ensures SignalStage(input, fail, p).effects == p.effects
    ensures p.stop.Some? ==>
              && MutationStage(strict, input, fail, p) == p
              && TimerStage(input, fail, p) == p && SignalStage(input, fail, p) == p && Back(input, fail, p) == p
  {
  }

  lemma FrontFrames(strict: bool, input: Input, fail: FailPoint, p: Progress)
    ensures
      var p1 := ReadStage(input, p);
      var p2 := ModelStage(input, fail, p1);
      var q := Front(strict, input, fail, p);
      && p1.stop == p.stop && p1.effects == p.effects && p2.effects == p.effects && q.queue == p.queue
      && q == if p2.stop.Some? then p2 else MutationStage(strict, input, fail, p2)
  {
    hide ReadStage, ModelStage, MutationStage;
    var p1 := ReadStage(input, p);
    var p2 := ModelStage(input, fail, p1);
    StageFrames(strict, input, fail, p);
    StageFrames(strict, input, fail, p1);
    StageFrames(strict, input, fail, p2);
  }

  // ---------------------------------------------------------------------------
  // Whole schedules of one run
  // ---------------------------------------------------------------------------

  /**
   What may happen to one run: calls with any fail point and trace, outages, signals,
   cancellation, an upgrade to a new adapter that takes over the journal only, and other
   runs that write the effect store under other keys.
   */
  datatype Event =
    | Call(fail: FailPoint, trace: Option<string>)
    | Outage(n: int)
    | Send(payload: Payload)
    | CancelRun
    | Upgrade
    | OtherEffects(effects: Effects)

  /** `offered` holds the payloads sent to this adapter, `ran` every step ever executed. */
  datatype Run = Run(
    journal: Option<RunJournal>, effects: Effects, queue: seq<Payload>, offered: seq<Payload>,
    failures: int, cancelled: bool, ran: seq<Step>, last: Option<Reply>)

  function Start(effects: Effects): Run { Run(None, effects, [], [], 0, false, [], None) }

  /** The run's view of one event; a Call is `StartOrResume` seen from its own key. */
  function Next(strict: bool, id: Identity, input: Input, r: Run, ev: Event): Run {
    match ev
    case Call(fail, trace) =>
      if r.failures > 0 then r.(failures := r.failures - 1, last := Some(Disconnected))
      else if r.cancelled then r.(last := Some(Cancelled))
      else
        var j := if r.journal.Some? then r.journal.value else NewJournal(CorrelationOf(trace));
        var p := Perform(strict, input, fail, j, r.effects, r.queue);
        r.(journal := Some(p.j), effects := p.effects, queue := p.queue, ran := r.ran + p.ran,
           last := Some(if p.stop.Some? then Stopped(p.stop.value) else Completed(Report(input, id, p.j))))
    case Outage(n) => r.(failures := n)
    case Send(payload) => r.(queue := r.queue + [payload], offered := r.offered + [payload])
    case CancelRun => r.(cancelled := true)
    case Upgrade =>
      r.(queue := [], failures := 0, cancelled := false,
         offered := if r.offered != [] && r.journal.Some? && WaitSignal in r.journal.value.done then r.offered[..1] else [])
    case OtherEffects(effects) =>
      if (input.mutationKey in effects) == (input.mutationKey in r.effects)
         && (input.mutationKey in effects ==> effects[input.mutationKey] == r.effects[input.mutationKey])
      then r.(effects := effects) else r
  }

  function After(strict: bool, id: Identity, input: Input, r: Run, events: seq<Event>): Run {
    if events == [] then r
    else Next(strict, id, input, After(strict, id, input, r, events[..|events| - 1]), events[|events| - 1])
  }

  /** The value the mutation settles on, decided by the effects before the run began. */
  function Settled(effects: Effects, input: Input): string {
    if input.mutationKey in effects then effects[input.mutationKey].value else input.mutationValue
  }

  /** The reference: what an uninterrupted run reports. */
  function Uninterrupted(id: Identity, input: Input, effects: Effects, correlation: string, payload: Option<Payload>): Output {
    Output(input.task, Some(ReadInventory(input.item)), Some(Decide(input.task, input.item)), true,
      Some(Settled(effects, input)), payload, if input.delay > 0 then input.delay else 0, correlation, id)
  }

  // The journal invariant, one clause per step.

  predicate JournalOk(input: Input, e0: Effects, j: RunJournal, offered: seq<Payload>, queue: seq<Payload>) {
    && j.read == (if ReadTool in j.done then Some(ReadInventory(input.item)) else None)
    && j.decision == (if ModelPersist in j.done then Some(Decide(input.task, input.item)) else None)
    && j.committed == (MutationTool in j.done)
    && j.value == (if MutationTool in j.done then Some(Settled(e0, input)) else None)
    && j.elapsed == (if Timer in j.done then input.delay else 0)
    && (Timer in j.done ==> input.delay > 0)
    && (WaitSignal in j.done ==> input.waitFor != "")
    && SignalOk(j, offered, queue)
  }

  predicate SignalOk(j: RunJournal, offered: seq<Payload>, queue: seq<Payload>) {
    if WaitSignal in j.done then
      |offered| >= 1 && j.signal == Some(offered[0]) && queue == offered[1..]
    else
      j.signal == None && queue == offered
  }

  predicate EffectsOk(input: Input, e0: Effects, e: Effects) {
    && (input.mutationKey in e0 ==> input.mutationKey in e)
    && (input.mutationKey in e ==>
          && e[input.mutationKey].value == Settled(e0, input)
          && e[input.mutationKey].applications == (if input.mutationKey in e0 then e0[input.mutationKey].applications else 1))
  }

  ghost predicate Inv(input: Input, e0: Effects, r: Run) {
    && EffectsOk(input, e0, r.effects)
    && (r.journal.Some? ==> JournalOk(input, e0, r.journal.value, r.offered, r.queue))
    && (r.journal == None ==> r.queue == r.offered)
  }

  /** A stage keeps the invariant and runs only steps the journal did not have. */
  ghost predicate StageKeeps(input: Input, e0: Effects, offered: seq<Payload>, p: Progress, q: Progress) {
    && JournalOk(input, e0, q.j, offered, q.queue) && EffectsOk(input, e0, q.effects)
    && q.j.correlation == p.j.correlation && p.j.done <= q.j.done
    && |q.ran| >= |p.ran| && q.ran[..|p.ran|] == p.ran
    && (forall i :: |p.ran| <= i < |q.ran| ==> q.ran[i] !in p.j.done)
  }

  lemma ReadStageKeeps(input: Input, e0: Effects, offered: seq<Payload>, p: Progress)
    requires JournalOk(input, e0, p.j, offered, p.queue) && EffectsOk(input, e0, p.effects)
    ensures StageKeeps(input, e0, offered, p, ReadStage(input, p))
    ensures p.stop == None ==> ReadTool in ReadStage(input, p).j.done
  {
    hide EffectsOk;
  }

  lemma ModelStageKeeps(input: Input, e0: Effects, fail: FailPoint, offered: seq<Payload>, p: Progress)
    requires JournalOk(input, e0, p.j, offered, p.queue) && EffectsOk(input, e0, p.effects)
    ensures StageKeeps(input, e0, offered, p, ModelStage(input, fail, p))
    ensures ModelStage(input, fail, p).stop == None ==> p.stop == None && ModelPersist in ModelStage(input, fail, p).j.done
  {
    hide EffectsOk;
  }

  lemma MutationStageKeeps(strict: bool, input: Input, e0: Effects, fail: FailPoint, offered: seq<Payload>, p: Progress)
    requires JournalOk(input, e0, p.j, offered, p.queue) && EffectsOk(input, e0, p.effects)
    ensures StageKeeps(input, e0, offered, p, MutationStage(strict, input, fail, p))
    ensures MutationStage(strict, input, fail, p).stop == None ==>
              p.stop == None && MutationTool in MutationStage(strict, input, fail, p).j.done
  {
    hide EffectsOk, Recorded, Duplicate, Settled;
    RecordedKeeps(input, e0, p.effects);
  }

  lemma RecordedKeeps(input: Input, e0: Effects, e: Effects)
    requires EffectsOk(input, e0, e)
    ensures
      var e' := Recorded(e, input.mutationKey, input.mutationValue);
      EffectsOk(input, e0, e') && input.mutationKey in e' && e'[input.mutationKey].value == Settled(e0, input)
  {
  }

  lemma TimerStageKeeps(input: Input, e0: Effects, fail: FailPoint, offered: seq<Payload>, p: Progress)
    requires JournalOk(input, e0, p.j, offered, p.queue) && EffectsOk(input, e0, p.effects)
    ensures StageKeeps(input, e0, offered, p, TimerStage(input, fail, p))
    ensures TimerStage(input, fail, p).stop == None ==>
              p.stop == None && (input.delay > 0 ==> Timer in TimerStage(input, fail, p).j.done)
  {
    hide EffectsOk;
  }

  lemma SignalStageKeeps(input: Input, e0: Effects, fail: FailPoint, offered: seq<Payload>, p: Progress)
    requires JournalOk(input, e0, p.j, offered, p.queue) && EffectsOk(input, e0, p.effects)
    ensures StageKeeps(input, e0, offered, p, SignalStage(input, fail, p))
    ensures SignalStage(input, fail, p).stop == None ==>
              p.stop == None && (input.waitFor != "" ==> WaitSignal in SignalStage(input, fail, p).j.done)
  {
    hide EffectsOk;
  }

  lemma FrontKeeps(strict: bool, input: Input, e0: Effects, fail: FailPoint, offered: seq<Payload>, p: Progress)
    requires JournalOk(input, e0, p.j, offered, p.queue) && EffectsOk(input, e0, p.effects)
    ensures StageKeeps(input, e0, offered, p, Front(strict, input, fail, p))
    ensures Front(strict, input, fail, p).stop == None ==>
              {ReadTool, ModelPersist, MutationTool} <= Front(strict, input, fail, p).j.done
  {
    hide ReadStage, ModelStage, MutationStage, JournalOk, EffectsOk;
    var a := ReadStage(input, p);
    ReadStageKeeps(input, e0, offered, p);
    var b := ModelStage(input, fail, a);
    ModelStageKeeps(input, e0, fail, offered, a);
    StageChain(input, e0, offered, p, a, b);
    MutationStageKeeps(strict, input, e0, fail, offered, b);
    StageChain(input, e0, offered, p, b, MutationStage(strict, input, fail, b));
    StageFrames(strict, input, fail, p);
  }

  lemma StageChain(input: Input, e0: Effects, offered: seq<Payload>, p: Progress, a: Progress, b: Progress)
    requires StageKeeps(input, e0, offered, p, a) && StageKeeps(input, e0, offered, a, b)
    ensures StageKeeps(input, e0, offered, p, b)
  {
    hide JournalOk, EffectsOk;
    forall i | |p.ran| <= i < |b.ran|
      ensures b.ran[i] !in p.j.done
    {
      if i < |a.ran| {
        assert b.ran[i] == b.ran[..|a.ran|][i];
      }
    }
    assert b.ran[..|p.ran|] == b.ran[..|a.ran|][..|p.ran|];
  }

  lemma BackKeeps(input: Input, e0: Effects, fail: FailPoint, offered: seq<Payload>, p: Progress)
    requires JournalOk(input, e0, p.j, offered, p.queue) && EffectsOk(input, e0, p.effects)
    ensures StageKeeps(input, e0, offered, p, Back(input, fail, p))
    ensures Back(input, fail, p).stop == None ==>
              && p.stop == None
              && (input.delay > 0 ==> Timer in Back(input, fail, p).j.done)
              && (input.waitFor != "" ==> WaitSignal in Back(input, fail, p).j.done)
  {
    hide TimerStage, SignalStage, JournalOk, EffectsOk;
    var a := TimerStage(input, fail, p);
    TimerStageKeeps(input, e0, fail, offered, p);
    SignalStageKeeps(input, e0, fail, offered, a);
    StageChain(input, e0, offered, p, a, SignalStage(input, fail, a));
  }

  lemma PerformKeeps(strict: bool, input: Input, e0: Effects, fail: FailPoint, offered: seq<Payload>, j: RunJournal, e: Effects, queue: seq<Payload>)
    requires JournalOk(input, e0, j, offered, queue) && EffectsOk(input, e0, e)
    ensures
      var p := Perform(strict, input, fail, j, e, queue);
      && StageKeeps(input, e0, offered, Progress(j, e, queue, [], None), p)
      && (p.stop == None ==>
            && {ReadTool, ModelPersist, MutationTool} <= p.j.done
            && (input.delay > 0 ==> Timer in p.j.done) && (input.waitFor != "" ==> WaitSignal in p.j.done))
  {
    hide Front, Back, JournalOk, EffectsOk;
    var start := Progress(j, e, queue, [], None);
    FrontKeeps(strict, input, e0, fail, offered, start);
    var mid := Front(strict, input, fail, start);
    StageKeepsGives(input, e0, offered, start, mid);
    BackKeeps(input, e0, fail, offered, mid);
    StageChain(input, e0, offered, start, mid, Back(input, fail, mid));
  }

  lemma StageKeepsGives(input: Input, e0: Effects, offered: seq<Payload>, p: Progress, q: Progress)
    requires StageKeeps(input, e0, offered, p, q)
    ensures JournalOk(input, e0, q.j, offered, q.queue) && EffectsOk(input, e0, q.effects)
  {
  }

  /** What one event does to a run whose journal is open: nothing is undone, nothing journaled runs. */
  ghost predicate Continues(r: Run, r': Run) {
    && r.journal.Some? && r'.journal.Some?
    && r'.journal.value.correlation == r.journal.value.correlation
    && r.journal.value.done <= r'.journal.value.done
    && |r'.ran| >= |r.ran| && r'.ran[..|r.ran|] == r.ran
    && (forall i :: |r.ran| <= i < |r'.ran| ==> r'.ran[i] !in r.journal.value.done)
  }

  lemma CallKeeps(strict: bool, id: Identity, input: Input, e0: Effects, r: Run, fail: FailPoint, trace: Option<string>)
    requires Inv(input, e0, r)
    ensures
      var r' := Next(strict, id, input, r, Call(fail, trace));
      Inv(input, e0, r') && (r.journal.Some? ==> Continues(r, r'))
  {
    hide Perform, JournalOk, EffectsOk;
    var j := if r.journal.Some? then r.journal.value else NewJournal(CorrelationOf(trace));
    NewJournalOk(input, e0, CorrelationOf(trace), r.offered);
    PerformKeeps(strict, input, e0, fail, r.offered, j, r.effects, r.queue);
  }

  lemma NewJournalOk(input: Input, e0: Effects, correlation: string, offered: seq<Payload>)
    ensures JournalOk(input, e0, NewJournal(correlation), offered, offered)
  {
  }

  lemma QueueEventKeeps(strict: bool, id: Identity, input: Input, e0: Effects, r: Run, ev: Event)
    requires Inv(input, e0, r) && (ev.Send? || ev.Upgrade?)
    ensures Inv(input, e0, Next(strict, id, input, r, ev))
  {
    hide EffectsOk, Perform;
    if r.offered != [] {
      assert ev.Send? ==> (r.offered + [ev.payload])[1..] == r.offered[1..] + [ev.payload];
      assert r.offered[..1][1..] == [];
    }
  }

  lemma NextKeeps(strict: bool, id: Identity, input: Input, e0: Effects, r: Run, ev: Event)
    requires Inv(input, e0, r)
    ensures
      var r' := Next(strict, id, input, r, ev);
      Inv(input, e0, r') && (r.journal.Some? ==> Continues(r, r'))
  {
    hide Perform;
    match ev
    case Call(fail, trace) => CallKeeps(strict, id, input, e0, r, fail, trace);
    case Send(_) => QueueEventKeeps(strict, id, input, e0, r, ev);
    case Upgrade => QueueEventKeeps(strict, id, input, e0, r, ev);
    case _ =>
  }

  lemma {:induction false} RunInv(strict: bool, id: Identity, input: Input, e0: Effects, events: seq<Event>)
    ensures Inv(input, e0, After(strict, id, input, Start(e0), events))
  {
    hide Next;
    if events != [] {
      var n := |events| - 1;
      RunInv(strict, id, input, e0, events[..n]);
      NextKeeps(strict, id, input, e0, After(strict, id, input, Start(e0), events[..n]), events[n]);
    }
  }

  /** The correlation id of a run is that of the first call that opened its journal. */
  lemma {:induction false} CorrelationNeverChanges(strict: bool, id: Identity, input: Input, e0: Effects, r: Run, events: seq<Event>)
    requires Inv(input, e0, r) && r.journal.Some?
    ensures Inv(input, e0, After(strict, id, input, r, events))
    ensures After(strict, id, input, r, events).journal.Some?
    ensures After(strict, id, input, r, events).journal.value.correlation == r.journal.value.correlation
  {
    hide Next, Inv;
    if events != [] {
      var n := |events| - 1;
      CorrelationNeverChanges(strict, id, input, e0, r, events[..n]);
      NextKeeps(strict, id, input, e0, After(strict, id, input, r, events[..n]), events[n]);
    }
  }

  /** And that is the one in the trace of that call. */
  lemma {:induction false} CorrelationIsTheOpeners(strict: bool, id: Identity, input: Input, e0: Effects, before: seq<Event>,
                                                   fail: FailPoint, trace: Option<string>, later: seq<Event>)
    requires After(strict, id, input, Start(e0), before).journal == None
    requires Next(strict, id, input, After(strict, id, input, Start(e0), before), Call(fail, trace)).journal.Some?
    ensures
      var mid := Next(strict, id, input, After(strict, id, input, Start(e0), before), Call(fail, trace));
      var r := After(strict, id, input, mid, later);
      r.journal.Some? && r.journal.value.correlation == CorrelationOf(trace)
  {
    var r := After(strict, id, input, Start(e0), before);
    RunInv(strict, id, input, e0, before);
    hide After, Perform, JournalOk, EffectsOk;
    NewJournalOk(input, e0, CorrelationOf(trace), r.offered);
    PerformKeeps(strict, input, e0, fail, r.offered, NewJournal(CorrelationOf(trace)), r.effects, r.queue);
    NextKeeps(strict, id, input, e0, r, Call(fail, trace));
    CorrelationNeverChanges(strict, id, input, e0, Next(strict, id, input, r, Call(fail, trace)), later);
  }

  /**
   Crash and resume refine the uninterrupted run: after any schedule of kills, outages,
   signals, upgrades and foreign writes, a call that completes reports exactly what the
   uninterrupted run reports.
   */
  lemma ResumeRefinesUninterrupted(strict: bool, id: Identity, input: Input, e0: Effects, events: seq<Event>, call: Event)
    requires call.Call?
    requires
      var r := Next(strict, id, input, After(strict, id, input, Start(e0), events), call);
      r.last.Some? && r.last.value.Completed?
    ensures
      var r := Next(strict, id, input, After(strict, id, input, Start(e0), events), call);
      && r.journal.Some?
      && (input.waitFor != "" ==> r.offered != [])
      && r.last.value.output == Uninterrupted(id, input, e0, r.journal.value.correlation,
           if input.waitFor != "" then Some(r.offered[0]) else None)
  {
    hide Perform;
    RunInv(strict, id, input, e0, events);
    var r := After(strict, id, input, Start(e0), events);
    var j := if r.journal.Some? then r.journal.value else NewJournal(CorrelationOf(call.trace));
    PerformKeeps(strict, input, e0, call.fail, r.offered, j, r.effects, r.queue);
  }

  /** The reference is real: one undisturbed call on a new run completes with it. */
  lemma CleanCallCompletes(strict: bool, id: Identity, input: Input, e0: Effects, trace: Option<string>, queue: seq<Payload>)
    requires !Duplicate(strict, e0, input.mutationKey, input.mutationValue)
    requires input.waitFor != "" ==> queue != []
    ensures
      var r := Next(strict, id, input, Start(e0).(queue := queue, offered := queue), Call(NoFailure, trace));
      r.last == Some(Completed(Uninterrupted(id, input, e0, CorrelationOf(trace),
        if input.waitFor != "" then Some(queue[0]) else None)))
  {
  }

  /** With no fail point, only a duplicate mutation or a missing signal can stop a call. */
  lemma FrontClean(strict: bool, input: Input, p: Progress)
    requires p.stop == None && (MutationTool !in p.j.done ==> !Duplicate(strict, p.effects, input.mutationKey, input.mutationValue))
    ensures
      var q := Front(strict, input, NoFailure, p);
      q.stop == None && q.queue == p.queue && (WaitSignal in q.j.done <==> WaitSignal in p.j.done)
  {
    hide Recorded, Duplicate, ReadInventory, Decide;
    var a := ReadStage(input, p);
    assert a.stop == None && a.effects == p.effects && (MutationTool in a.j.done <==> MutationTool in p.j.done);
    var b := ModelStage(input, NoFailure, a);
    assert b.stop == None && b.effects == p.effects && (MutationTool in b.j.done <==> MutationTool in p.j.done);
  }

  lemma BackClean(input: Input, p: Progress)
    requires p.stop == None
    ensures
      var stop := Back(input, NoFailure, p).stop;
      if input.waitFor != "" && WaitSignal !in p.j.done && p.queue == [] then stop == Some(Blocked) else stop == None
  {
  }

  lemma PerformClean(strict: bool, input: Input, j: RunJournal, e: Effects, queue: seq<Payload>)
    requires MutationTool !in j.done ==> !Duplicate(strict, e, input.mutationKey, input.mutationValue)
    ensures
      Perform(strict, input, NoFailure, j, e, queue).stop ==
        if input.waitFor != "" && WaitSignal !in j.done && queue == [] then Some(Blocked) else None
  {
    hide Front, Back, Duplicate;
    var p := Progress(j, e, queue, [], None);
    FrontClean(strict, input, p);
    BackClean(input, Front(strict, input, NoFailure, p));
  }

  /** Resuming ends: from any point of any schedule, one clean call with a signal at hand completes. */
  lemma ResumeCompletes(strict: bool, id: Identity, input: Input, e0: Effects, events: seq<Event>, trace: Option<string>)
    requires
      var r := After(strict, id, input, Start(e0), events);
      && r.failures <= 0 && !r.cancelled
      && (input.waitFor != "" ==> r.queue != [] || (r.journal.Some? && WaitSignal in r.journal.value.done))
    requires !strict || Settled(e0, input) == input.mutationValue
    ensures
      var r := Next(strict, id, input, After(strict, id, input, Start(e0), events), Call(NoFailure, trace));
      r.last.Some? && r.last.value.Completed?
  {
    hide Perform, After, JournalOk;
    RunInv(strict, id, input, e0, events);
    var r := After(strict, id, input, Start(e0), events);
    var j := if r.journal.Some? then r.journal.value else NewJournal(CorrelationOf(trace));
    PerformClean(strict, input, j, r.effects, r.queue);
  }

  /** The external mutation is applied at most once, however often the tool is called. */
  lemma AppliedAtMostOnce(strict: bool, id: Identity, input: Input, e0: Effects, events: seq<Event>)
    requires input.mutationKey !in e0
    ensures
      var e := After(strict, id, input, Start(e0), events).effects;
      input.mutationKey in e ==> e[input.mutationKey].applications == 1
  {
    RunInv(strict, id, input, e0, events);
  }

  function Count(ran: seq<Step>, step: Step): nat {
    if ran == [] then 0 else Count(ran[..|ran| - 1], step) + if ran[|ran| - 1] == step then 1 else 0
  }

  lemma {:induction false} CountAppend(a: seq<Step>, b: seq<Step>, step: Step)
    requires forall i :: 0 <= i < |b| ==> b[i] != step
    ensures Count(a + b, step) == Count(a, step)
  {
    if b == [] {
      assert a + b == a;
    } else {
      CountAppend(a, b[..|b| - 1], step);
      assert (a + b)[..|a + b| - 1] == a + b[..|b| - 1];
    }
  }

  /** A journaled step never runs again, whatever happens later. */
  lemma {:induction false} JournaledStepNeverRunsAgain(strict: bool, id: Identity, input: Input, e0: Effects, r: Run, events: seq<Event>, step: Step)
    requires Inv(input, e0, r) && r.journal.Some? && step in r.journal.value.done
    ensures
      var r' := After(strict, id, input, r, events);
      && Inv(input, e0, r') && r'.journal.Some? && step in r'.journal.value.done
      && Count(r'.ran, step) == Count(r.ran, step)
  {
    hide Next, Inv;
    if events != [] {
      var n := |events| - 1;
      JournaledStepNeverRunsAgain(strict, id, input, e0, r, events[..n], step);
      var mid := After(strict, id, input, r, events[..n]);
      NextKeeps(strict, id, input, e0, mid, events[n]);
      var end := Next(strict, id, input, mid, events[n]);
      assert end.ran == mid.ran + end.ran[|mid.ran|..];
      CountAppend(mid.ran, end.ran[|mid.ran|..], step);
    }
  }

  // ---------------------------------------------------------------------------
  // What a call does to the effect store
  // ---------------------------------------------------------------------------

  lemma {:induction false} CountSum(a: seq<Step>, b: seq<Step>, step: Step)
    ensures Count(a + b, step) == Count(a, step) + Count(b, step)
  {
    if b == [] {
      assert a + b == a;
    } else {
      CountSum(a, b[..|b| - 1], step);
      assert (a + b)[..|a + b| - 1] == a + b[..|b| - 1];
    }
  }

  lemma {:induction false} CountOne(a: seq<Step>, s: Step, step: Step)
    ensures Count(a + [s], step) == Count(a, step) + if s == step then 1 else 0
  {
    assert (a + [s])[..|a|] == a;
  }

  function Mark(done: set<Step>, step: Step): nat { if step in done then 1 else 0 }

  /** The run journals a step other than the mutation exactly when it executes it. */
  ghost predicate Tallies(p: Progress, q: Progress, step: Step) {
    Count(q.ran, step) + Mark(p.j.done, step) == Count(p.ran, step) + Mark(q.j.done, step)
  }

  lemma {:induction false} ReadTallies(input: Input, p: Progress, step: Step)
    requires step != MutationTool
    ensures Tallies(p, ReadStage(input, p), step)
  {
    hide Count;
    CountOne(p.ran, ReadTool, step);
  }

  lemma {:induction false} ModelTallies(input: Input, fail: FailPoint, p: Progress, step: Step)
    requires step != MutationTool
    ensures Tallies(p, ModelStage(input, fail, p), step)
  {
    hide Count;
    CountOne(p.ran, ModelPersist, step);
  }

  lemma {:induction false} MutationTallies(strict: bool, input: Input, fail: FailPoint, p: Progress, step: Step)
    requires step != MutationTool
    ensures Tallies(p, MutationStage(strict, input, fail, p), step)
  {
    hide Count, Recorded, Duplicate;
    CountOne(p.ran, MutationTool, step);
  }

  lemma {:induction false} TimerTallies(input: Input, fail: FailPoint, p: Progress, step: Step)
    requires step != MutationTool
    ensures Tallies(p, TimerStage(input, fail, p), step)
  {
    hide Count;
    CountOne(p.ran, Timer, step);
  }

  lemma {:induction false} SignalTallies(input: Input, fail: FailPoint, p: Progress, step: Step)
    requires step != MutationTool
    ensures Tallies(p, SignalStage(input, fail, p), step)
  {
    hide Count;
    CountOne(p.ran, WaitSignal, step);
  }

  lemma {:induction false} PerformTallies(strict: bool, input: Input, fail: FailPoint, j: RunJournal, e: Effects, queue: seq<Payload>, step: Step)
    requires step != MutationTool
    ensures
      var p := Perform(strict, input, fail, j, e, queue);
      Count(p.ran, step) + Mark(j.done, step) == Mark(p.j.done, step)
  {
    hide ReadStage, ModelStage, MutationStage, TimerStage, SignalStage, Mark;
    var p := Progress(j, e, queue, [], None);
    var a := ReadStage(input, p);
    ReadTallies(input, p, step);
    var b := ModelStage(input, fail, a);
    ModelTallies(input, fail, a, step);
    var c := MutationStage(strict, input, fail, b);
    MutationTallies(strict, input, fail, b, step);
    var d := TimerStage(input, fail, c);
    TimerTallies(input, fail, c, step);
    SignalTallies(input, fail, d, step);
  }

  /** The run has executed the step exactly as often as its journal says: once or not at all. */
  ghost predicate OncePerJournal(r: Run, step: Step) {
    Count(r.ran, step) == if r.journal.Some? then Mark(r.journal.value.done, step) else 0
  }

  lemma {:induction false} OnceStep(strict: bool, id: Identity, input: Input, r: Run, ev: Event, step: Step)
    requires step != MutationTool && OncePerJournal(r, step)
    ensures OncePerJournal(Next(strict, id, input, r, ev), step)
  {
    hide Perform, Count;
    if ev.Call? {
      var j := if r.journal.Some? then r.journal.value else NewJournal(CorrelationOf(ev.trace));
      PerformTallies(strict, input, ev.fail, j, r.effects, r.queue, step);
      CountSum(r.ran, Perform(strict, input, ev.fail, j, r.effects, r.queue).ran, step);
    }
  }

  /** Over every schedule each step but the mutation has been executed exactly once if it is journaled, and not at all
      otherwise; the mutation tool alone can be executed again, before it is journaled. */
  lemma {:induction false} ExecutedExactlyOnce(strict: bool, id: Identity, input: Input, e0: Effects, events: seq<Event>, step: Step)
    requires step != MutationTool
    ensures
      var r := After(strict, id, input, Start(e0), events);
      Count(r.ran, step) == if r.journal.Some? && step in r.journal.value.done then 1 else 0
  {
    EveryScheduleOnce(strict, id, input, e0, events, step);
  }

  lemma {:induction false} EveryScheduleOnce(strict: bool, id: Identity, input: Input, e0: Effects, events: seq<Event>, step: Step)
    requires step != MutationTool
    ensures OncePerJournal(After(strict, id, input, Start(e0), events), step)
  {
    if events != [] {
      hide Next, OncePerJournal;
      var n := |events| - 1;
      EveryScheduleOnce(strict, id, input, e0, events[..n], step);
      OnceStep(strict, id, input, After(strict, id, input, Start(e0), events[..n]), events[n], step);
    }
  }

  /** How often a key has been called for. */
  function CallsOf(e: Effects, key: string): nat { if key in e then e[key].calls else 0 }

  /** The effect store after `n` calls for one key: each is counted, the first is applied if the key is new, and no
      other key is touched. */
  ghost predicate Recorded1(e: Effects, d: Effects, key: string, value: string, n: nat) {
    && (forall k :: k != key ==> (k in d <==> k in e) && (k in e ==> d[k] == e[k]))
    && (key in d <==> key in e || n > 0)
    && CallsOf(d, key) == CallsOf(e, key) + n
    && (key in d ==>
          && d[key].value == (if key in e then e[key].value else value)
          && d[key].applications == (if key in e then e[key].applications else 1))
  }

  /** Every run of the mutation tool, whether it then succeeds, is refused or is killed, reaches the store once. */
  lemma {:induction false} MutationIsRecorded(strict: bool, input: Input, fail: FailPoint, p: Progress)
    ensures
      var q := MutationStage(strict, input, fail, p);
      && q.ran == (if Skips(p, MutationTool) then p.ran else p.ran + [MutationTool])
      && Recorded1(p.effects, q.effects, input.mutationKey, input.mutationValue, if Skips(p, MutationTool) then 0 else 1)
  {
  }

  lemma {:induction false} OthersRecordNothing(input: Input, fail: FailPoint, p: Progress)
    ensures ReadStage(input, p).effects == p.effects
         && Count(ReadStage(input, p).ran, MutationTool) == Count(p.ran, MutationTool)
    ensures ModelStage(input, fail, p).effects == p.effects
         && Count(ModelStage(input, fail, p).ran, MutationTool) == Count(p.ran, MutationTool)
    ensures TimerStage(input, fail, p).effects == p.effects
         && Count(TimerStage(input, fail, p).ran, MutationTool) == Count(p.ran, MutationTool)
    ensures SignalStage(input, fail, p).effects == p.effects
         && Count(SignalStage(input, fail, p).ran, MutationTool) == Count(p.ran, MutationTool)
  {
    hide Count;
    CountOne(p.ran, ReadTool, MutationTool);
    CountOne(p.ran, ModelPersist, MutationTool);
    CountOne(p.ran, Timer, MutationTool);
    CountOne(p.ran, WaitSignal, MutationTool);
  }

  /** One call reaches the store exactly as often as it ran the mutation tool. */
  lemma {:induction false} CallRecords(strict: bool, input: Input, fail: FailPoint, j: RunJournal, e: Effects, queue: seq<Payload>)
    ensures
      var p := Perform(strict, input, fail, j, e, queue);
      Recorded1(e, p.effects, input.mutationKey, input.mutationValue, Count(p.ran, MutationTool))
  {
    hide ReadStage, ModelStage, MutationStage, TimerStage, SignalStage, Recorded1;
    var p := Progress(j, e, queue, [], None);
    var a := ReadStage(input, p);
    OthersRecordNothing(input, fail, p);
    var b := ModelStage(input, fail, a);
    OthersRecordNothing(input, fail, a);
    var c := MutationStage(strict, input, fail, b);
    MutationIsRecorded(strict, input, fail, b);
    CountOne(b.ran, MutationTool, MutationTool);
    var d := TimerStage(input, fail, c);
    OthersRecordNothing(input, fail, c);
    OthersRecordNothing(input, fail, d);
    assert Count([], MutationTool) == 0;
    assert b.effects == e && Count(b.ran, MutationTool) == 0;
  }

  /** The run's own key after a schedule. */
  ghost predicate KeyAccounts(input: Input, e0: Effects, r: Run) {
    var key := input.mutationKey;
    && (key in r.effects <==> key in e0 || Count(r.ran, MutationTool) > 0)
    && CallsOf(r.effects, key) == CallsOf(e0, key) + Count(r.ran, MutationTool)
  }

  lemma {:induction false} KeyStep(strict: bool, id: Identity, input: Input, e0: Effects, r: Run, ev: Event)
    requires KeyAccounts(input, e0, r)
    ensures KeyAccounts(input, e0, Next(strict, id, input, r, ev))
  {
    hide Perform, Count;
    if ev.Call? {
      var j := if r.journal.Some? then r.journal.value else NewJournal(CorrelationOf(ev.trace));
      CallRecords(strict, input, ev.fail, j, r.effects, r.queue);
      CountSum(r.ran, Perform(strict, input, ev.fail, j, r.effects, r.queue).ran, MutationTool);
    }
  }

  /** Over every schedule: the store holds the run's key exactly if it did before or the mutation tool ran, and was
      called for it exactly once more for each time the tool ran. */
  lemma {:induction false} EffectsAccountForTheRun(strict: bool, id: Identity, input: Input, e0: Effects, events: seq<Event>)
    ensures KeyAccounts(input, e0, After(strict, id, input, Start(e0), events))
  {
    if events != [] {
      hide Next, KeyAccounts;
      var n := |events| - 1;
      EffectsAccountForTheRun(strict, id, input, e0, events[..n]);
      KeyStep(strict, id, input, e0, After(strict, id, input, Start(e0), events[..n]), events[n]);
    }
  }

  ghost predicate MutationRan(r: Run) {
    r.journal.Some? && MutationTool in r.journal.value.done ==> Count(r.ran, MutationTool) > 0
  }

  lemma {:induction false} JournaledMutationRan(strict: bool, id: Identity, input: Input, e0: Effects, events: seq<Event>)
    ensures MutationRan(After(strict, id, input, Start(e0), events))
  {
    if events != [] {
      var n := |events| - 1;
      JournaledMutationRan(strict, id, input, e0, events[..n]);
      var r, ev := After(strict, id, input, Start(e0), events[..n]), events[n];
      hide After, Perform, Count;
      if ev.Call? {
        var j := if r.journal.Some? then r.journal.value else NewJournal(CorrelationOf(ev.trace));
        PerformRan(strict, input, ev.fail, j, r.effects, r.queue);
        CountSum(r.ran, Perform(strict, input, ev.fail, j, r.effects, r.queue).ran, MutationTool);
      }
      AfterLast(strict, id, input, Start(e0), events);
    }
  }

  lemma {:induction false} AfterLast(strict: bool, id: Identity, input: Input, r: Run, events: seq<Event>)
    requires events != []
    ensures After(strict, id, input, r, events) ==
            Next(strict, id, input, After(strict, id, input, r, events[..|events| - 1]), events[|events| - 1])
  {
  }

  lemma {:induction false} ReadKeepsMutation(input: Input, p: Progress)
    ensures MutationTool in ReadStage(input, p).j.done <==> MutationTool in p.j.done
  {
  }

  lemma {:induction false} ModelKeepsMutation(input: Input, fail: FailPoint, p: Progress)
    ensures MutationTool in ModelStage(input, fail, p).j.done <==> MutationTool in p.j.done
  {
  }

  lemma {:induction false} TimerKeepsMutation(input: Input, fail: FailPoint, p: Progress)
    ensures MutationTool in TimerStage(input, fail, p).j.done <==> MutationTool in p.j.done
  {
  }

  lemma {:induction false} SignalKeepsMutation(input: Input, fail: FailPoint, p: Progress)
    ensures MutationTool in SignalStage(input, fail, p).j.done <==> MutationTool in p.j.done
  {
  }

  lemma {:induction false} OthersKeepMutation(input: Input, fail: FailPoint, p: Progress)
    ensures MutationTool in ReadStage(input, p).j.done <==> MutationTool in p.j.done
    ensures MutationTool in ModelStage(input, fail, p).j.done <==> MutationTool in p.j.done
    ensures MutationTool in TimerStage(input, fail, p).j.done <==> MutationTool in p.j.done
    ensures MutationTool in SignalStage(input, fail, p).j.done <==> MutationTool in p.j.done
  {
    hide ReadStage, ModelStage, TimerStage, SignalStage;
    ReadKeepsMutation(input, p);
    ModelKeepsMutation(input, fail, p);
    TimerKeepsMutation(input, fail, p);
    SignalKeepsMutation(input, fail, p);
  }

  lemma {:induction false} PerformRan(strict: bool, input: Input, fail: FailPoint, j: RunJournal, e: Effects, queue: seq<Payload>)
    ensures
      var p := Perform(strict, input, fail, j, e, queue);
      MutationTool in p.j.done ==> MutationTool in j.done || Count(p.ran, MutationTool) > 0
  {
    hide ReadStage, ModelStage, MutationStage, TimerStage, SignalStage, Count, Recorded1;
    var p := Progress(j, e, queue, [], None);
    var a := ReadStage(input, p);
    OthersKeepMutation(input, fail, p);
    var b := ModelStage(input, fail, a);
    OthersKeepMutation(input, fail, a);
    var c := MutationStage(strict, input, fail, b);
    MutationIsRecorded(strict, input, fail, b);
    SkippedMutation(strict, input, fail, b);
    CountOne(b.ran, MutationTool, MutationTool);
    var d := TimerStage(input, fail, c);
    OthersKeepMutation(input, fail, c);
    OthersRecordNothing(input, fail, c);
    OthersKeepMutation(input, fail, d);
    OthersRecordNothing(input, fail, d);
  }

  lemma {:induction false} SkippedMutation(strict: bool, input: Input, fail: FailPoint, p: Progress)
    ensures Skips(p, MutationTool) ==> MutationStage(strict, input, fail, p) == p
  {
  }

  /** A completed run has its mutation in the store: applied exactly once if the key was new, with its value. */
  lemma {:induction false} CompletedMeansApplied(strict: bool, id: Identity, input: Input, e0: Effects, events: seq<Event>, call: Event)
    requires call.Call?
    requires
      var r := Next(strict, id, input, After(strict, id, input, Start(e0), events), call);
      r.last.Some? && r.last.value.Completed?
    ensures
      var e := Next(strict, id, input, After(strict, id, input, Start(e0), events), call).effects;
      && input.mutationKey in e
      && (input.mutationKey !in e0 ==> e[input.mutationKey].applications == 1 && e[input.mutationKey].value == input.mutationValue)
  {
    var all := events + [call];
    assert all[..|events|] == events;
    EffectsAccountForTheRun(strict, id, input, e0, all);
    JournaledMutationRan(strict, id, input, e0, all);
    RunInv(strict, id, input, e0, all);
    RunInv(strict, id, input, e0, events);
    var r := After(strict, id, input, Start(e0), events);
    hide After, Perform, Count;
    AfterLast(strict, id, input, Start(e0), all);
    var j := if r.journal.Some? then r.journal.value else NewJournal(CorrelationOf(call.trace));
    NewJournalOk(input, e0, CorrelationOf(call.trace), r.offered);
    PerformKeeps(strict, input, e0, call.fail, r.offered, j, r.effects, r.queue);
  }

  // ---------------------------------------------------------------------------
  // Where a call stops
  // ---------------------------------------------------------------------------

  /** The first thing in the way of a call on this journal, in the order of the steps. */
  function Obstacle(strict: bool, input: Input, fail: FailPoint, done: set<Step>, e: Effects, queue: seq<Payload>): Option<Stop> {
    if ModelPersist !in done && fail in {BeforeModelPersist, AfterModelPersist} then Some(Killed(fail))
    else if MutationTool !in done && Duplicate(strict, e, input.mutationKey, input.mutationValue) then Some(DuplicateMutation)
    else if MutationTool !in done && fail == AfterMutation then Some(Killed(fail))
    else if input.delay > 0 && Timer !in done && fail == DuringTimer then Some(Killed(fail))
    else if input.waitFor != "" && WaitSignal !in done && fail == DuringWaitSignal then Some(Killed(fail))
    else if input.waitFor != "" && WaitSignal !in done && queue == [] then Some(Blocked)
    else None
  }

  /** The steps that are journaled when a call is stopped so. */
  function Reached(input: Input, fail: FailPoint, stop: Option<Stop>): set<Step> {
    var first := {ReadTool};
    var second := {ReadTool, ModelPersist};
    var third := {ReadTool, ModelPersist, MutationTool};
    var fourth := third + (if input.delay > 0 then {Timer} else {});
    match stop
    case Some(Killed(BeforeModelPersist)) => first
    case Some(Killed(AfterModelPersist)) => second
    case Some(DuplicateMutation) => second
    case Some(Killed(AfterMutation)) => second
    case Some(Killed(DuringTimer)) => third
    case None => fourth + (if input.waitFor != "" then {WaitSignal} else {})
    case _ => fourth
  }

  /** A call stops at the first obstacle and nowhere else, and has then journaled exactly the steps before it. */
  lemma {:induction false} StopsExactly(strict: bool, input: Input, fail: FailPoint, j: RunJournal, e: Effects, queue: seq<Payload>)
    ensures
      var p, stop := Perform(strict, input, fail, j, e, queue), Obstacle(strict, input, fail, j.done, e, queue);
      p.stop == stop && p.j.done == j.done + Reached(input, fail, stop)
  {
    hide Duplicate, Front, Back;
    var start := Progress(j, e, queue, [], None);
    var q := Front(strict, input, fail, start);
    FrontStops(strict, input, fail, start);
    BackStops(input, fail, q);
    var p, stop := Back(input, fail, q), Obstacle(strict, input, fail, j.done, e, queue);
    assert p.stop == stop;
    DoneTable(input, fail, j.done, q.j.done, p.j.done, stop);
  }

  lemma {:induction false} DoneTable(input: Input, fail: FailPoint, done: set<Step>, mid: set<Step>, end: set<Step>, stop: Option<Stop>)
    requires
      var inFront := stop in {Some(Killed(BeforeModelPersist)), Some(Killed(AfterModelPersist)), Some(DuplicateMutation), Some(Killed(AfterMutation))};
      && mid == done + {ReadTool} + (if stop == Some(Killed(BeforeModelPersist)) then {} else {ModelPersist})
                + (if inFront then {} else {MutationTool})
      && end == if inFront then mid
                else mid + (if input.delay > 0 && stop != Some(Killed(DuringTimer)) then {Timer} else {})
                     + (if input.waitFor != "" && stop == None then {WaitSignal} else {})
    ensures end == done + Reached(input, fail, stop)
  {
  }

  lemma {:induction false} FrontStops(strict: bool, input: Input, fail: FailPoint, p: Progress)
    requires p.stop == None
    ensures
      var q := Front(strict, input, fail, p);
      && q.queue == p.queue
      && q.stop == (if ModelPersist !in p.j.done && fail in {BeforeModelPersist, AfterModelPersist} then Some(Killed(fail))
                    else if MutationTool !in p.j.done && Duplicate(strict, p.effects, input.mutationKey, input.mutationValue) then Some(DuplicateMutation)
                    else if MutationTool !in p.j.done && fail == AfterMutation then Some(Killed(fail))
                    else None)
      && q.j.done == p.j.done + {ReadTool}
                     + (if q.stop == Some(Killed(BeforeModelPersist)) then {} else {ModelPersist})
                     + (if q.stop == None then {MutationTool} else {})
  {
    hide Recorded, Duplicate, ReadInventory, Decide;
    var a := ReadStage(input, p);
    assert a.stop == None && a.j.done == p.j.done + {ReadTool} && a.effects == p.effects && a.queue == p.queue;
    var b := ModelStage(input, fail, a);
    assert b.effects == p.effects && b.queue == p.queue;
    assert b.j.done == a.j.done + if b.stop == Some(Killed(BeforeModelPersist)) then {} else {ModelPersist};
  }

  lemma {:induction false} BackStops(input: Input, fail: FailPoint, p: Progress)
    ensures
      var q := Back(input, fail, p);
      && (p.stop.Some? ==> q == p)
      && (p.stop == None ==>
            && q.stop == (if input.delay > 0 && Timer !in p.j.done && fail == DuringTimer then Some(Killed(fail))
                          else if input.waitFor != "" && WaitSignal !in p.j.done && fail == DuringWaitSignal then Some(Killed(fail))
                          else if input.waitFor != "" && WaitSignal !in p.j.done && p.queue == [] then Some(Blocked)
                          else None)
            && q.j.done == p.j.done
                           + (if input.delay > 0 && q.stop != Some(Killed(DuringTimer)) then {Timer} else {})
                           + (if input.waitFor != "" && q.stop == None then {WaitSignal} else {}))
  {
  }

  // Outages and cancellation

  function Calls(fail: FailPoint, trace: Option<string>, n: nat): seq<Event> {
    if n == 0 then [] else Calls(fail, trace, n - 1) + [Call(fail, trace)]
  }

  /** An outage of `n` refuses exactly the next `n` calls and changes nothing else. */
  lemma {:induction false} OutageRefusesExactly(strict: bool, id: Identity, input: Input, r: Run, n: nat, k: nat, fail: FailPoint, trace: Option<string>)
    requires k <= n
    ensures
      var out := Next(strict, id, input, r, Outage(n));
      var d := After(strict, id, input, out, Calls(fail, trace, k));
      && d == r.(failures := n - k, last := if k == 0 then r.last else Some(Disconnected))
      && (k == n ==> Next(strict, id, input, d, Call(fail, trace)).last != Some(Disconnected))
  {
    hide Perform, Next;
    var out := Next(strict, id, input, r, Outage(n));
    OutageBegins(strict, id, input, r, n);
    var d := After(strict, id, input, out, Calls(fail, trace, k));
    if k > 0 {
      OutageRefusesExactly(strict, id, input, r, n, k - 1, fail, trace);
      var before := Calls(fail, trace, k - 1);
      assert (before + [Call(fail, trace)])[..|before|] == before;
      CallInOutage(strict, id, input, After(strict, id, input, out, before), fail, trace);
    }
    CallInOutage(strict, id, input, d, fail, trace);
  }

  lemma {:induction false} OutageBegins(strict: bool, id: Identity, input: Input, r: Run, n: nat)
    ensures Next(strict, id, input, r, Outage(n)) == r.(failures := n)
  {
  }

  lemma {:induction false} CallInOutage(strict: bool, id: Identity, input: Input, r: Run, fail: FailPoint, trace: Option<string>)
    ensures r.failures > 0 ==>
              Next(strict, id, input, r, Call(fail, trace)) == r.(failures := r.failures - 1, last := Some(Disconnected))
    ensures r.failures <= 0 ==> Next(strict, id, input, r, Call(fail, trace)).last != Some(Disconnected)
  {
    hide Perform;
  }

  /** A cancelled run stays as it is through any events but an upgrade: every call is turned down. */
  lemma {:induction false} CancelledStays(strict: bool, id: Identity, input: Input, r: Run, events: seq<Event>)
    requires r.cancelled && Upgrade !in events
    ensures
      var d := After(strict, id, input, r, events);
      && d.cancelled && d.journal == r.journal && d.ran == r.ran
      && (d.failures <= 0 ==> forall fail, trace :: Next(strict, id, input, d, Call(fail, trace)).last == Some(Cancelled))
  {
    hide Perform;
    if events != [] {
      CancelledStays(strict, id, input, r, events[..|events| - 1]);
    }
  }

  lemma {:induction false} CancelTurnsDown(strict: bool, id: Identity, input: Input, r: Run, events: seq<Event>, fail: FailPoint, trace: Option<string>)
    requires Upgrade !in events
    ensures
      var d := After(strict, id, input, Next(strict, id, input, r, CancelRun), events);
      && d.journal == r.journal && d.ran == r.ran
      && Next(strict, id, input, d, Call(fail, trace)).last == Some(if d.failures > 0 then Disconnected else Cancelled)
  {
    hide Perform;
    CancelledStays(strict, id, input, Next(strict, id, input, r, CancelRun), events);
  }

  // ---------------------------------------------------------------------------
  // Signals
  // ---------------------------------------------------------------------------

  /** Everything ever sent to the run, in order. */
  function Sent(events: seq<Event>): seq<Payload> {
    if events == [] then []
    else
      var n := |events| - 1;
      Sent(events[..n]) + if events[n].Send? then [events[n].payload] else []
  }

  lemma {:induction false} OfferedIsSent(strict: bool, id: Identity, input: Input, e0: Effects, events: seq<Event>)
    requires Upgrade !in events
    ensures After(strict, id, input, Start(e0), events).offered == Sent(events)
  {
    if events != [] {
      OfferedIsSent(strict, id, input, e0, events[..|events| - 1]);
    }
  }

  predicate Waited(r: Run) { r.journal.Some? && WaitSignal in r.journal.value.done }

  /** The payload the run has received. */
  function Received(r: Run): Option<Payload> { if r.journal.Some? then r.journal.value.signal else None }

  /** Without an upgrade a run receives the first payload ever sent to it, and every later one stays queued. */
  lemma {:induction false} FirstSentIsReceived(strict: bool, id: Identity, input: Input, e0: Effects, events: seq<Event>)
    requires Upgrade !in events
    ensures
      var r := After(strict, id, input, Start(e0), events);
      if Waited(r) then Sent(events) != [] && Received(r) == Some(Sent(events)[0]) && r.queue == Sent(events)[1..]
      else Received(r) == None && r.queue == Sent(events)
  {
    hide After, EffectsOk;
    OfferedIsSent(strict, id, input, e0, events);
    RunInv(strict, id, input, e0, events);
  }

  /** A payload once received stays. */
  lemma {:induction false} WaitedStep(strict: bool, id: Identity, input: Input, r: Run, ev: Event)
    requires Waited(r)
    ensures
      var d := Next(strict, id, input, r, ev);
      Waited(d) && Received(d) == Received(r)
  {
    hide Perform;
    if ev.Call? {
      PerformWaited(strict, input, ev.fail, r.journal.value, r.effects, r.queue);
    }
  }

  lemma {:induction false} PerformWaited(strict: bool, input: Input, fail: FailPoint, j: RunJournal, e: Effects, queue: seq<Payload>)
    requires WaitSignal in j.done || input.waitFor == ""
    ensures
      var p := Perform(strict, input, fail, j, e, queue);
      p.j.signal == j.signal && j.done <= p.j.done
  {
    hide Recorded, Duplicate, ReadInventory, Decide;
    var p := Progress(j, e, queue, [], None);
    var a := ReadStage(input, p);
    var b := ModelStage(input, fail, a);
    var c := MutationStage(strict, input, fail, b);
    var d := TimerStage(input, fail, c);
    assert a.j.signal == j.signal && j.done <= a.j.done;
    assert b.j.signal == j.signal && j.done <= b.j.done;
    assert c.j.signal == j.signal && j.done <= c.j.done;
    assert d.j.signal == j.signal && j.done <= d.j.done;
  }

  lemma {:induction false} WaitedStays(strict: bool, id: Identity, input: Input, r: Run, later: seq<Event>)
    requires Waited(r)
    ensures Waited(After(strict, id, input, r, later)) && Received(After(strict, id, input, r, later)) == Received(r)
  {
    hide Next, Received, Waited;
    if later != [] {
      var n := |later| - 1;
      WaitedStays(strict, id, input, r, later[..n]);
      WaitedStep(strict, id, input, After(strict, id, input, r, later[..n]), later[n]);
    }
  }

  /** Nothing is ever received: no signal is waited for, or the strict effect store holds another value
      under the run's key, so that no call gets past the mutation. */
  predicate Barred(strict: bool, input: Input, e0: Effects) {
    input.waitFor == "" || (strict && Settled(e0, input) != input.mutationValue)
  }

  ghost predicate BarredInv(strict: bool, input: Input, e0: Effects, r: Run) {
    && Inv(input, e0, r) && !Waited(r) && Received(r) == None
    && (input.waitFor != "" && r.journal.Some? ==> MutationTool !in r.journal.value.done)
  }

  lemma {:induction false} BarredPerform(strict: bool, input: Input, e0: Effects, fail: FailPoint, j: RunJournal, e: Effects, queue: seq<Payload>)
    requires Barred(strict, input, e0) && input.waitFor != "" && EffectsOk(input, e0, e)
    requires MutationTool !in j.done && WaitSignal !in j.done && j.signal == None
    ensures
      var p := Perform(strict, input, fail, j, e, queue);
      p.j.signal == None && WaitSignal !in p.j.done && MutationTool !in p.j.done
  {
    hide Recorded, ReadInventory, Decide;
    var p := Progress(j, e, queue, [], None);
    var a := ReadStage(input, p);
    var b := ModelStage(input, fail, a);
    assert b.effects == e && MutationTool !in b.j.done && WaitSignal !in b.j.done && b.j.signal == None;
    var c := MutationStage(strict, input, fail, b);
    assert input.mutationKey in e && Duplicate(strict, e, input.mutationKey, input.mutationValue);
    assert c.stop.Some? && c.j == b.j;
    StageFrames(strict, input, fail, c);
  }

  lemma {:induction false} BarredStep(strict: bool, id: Identity, input: Input, e0: Effects, r: Run, ev: Event)
    requires Barred(strict, input, e0) && BarredInv(strict, input, e0, r)
    ensures BarredInv(strict, input, e0, Next(strict, id, input, r, ev))
  {
    NextKeeps(strict, id, input, e0, r, ev);
    if ev.Call? && r.failures <= 0 && !r.cancelled {
      hide Perform, EffectsOk, Barred, JournalOk;
      var j := if r.journal.Some? then r.journal.value else NewJournal(CorrelationOf(ev.trace));
      if input.waitFor == "" {
        PerformWaited(strict, input, ev.fail, j, r.effects, r.queue);
        NotWaited(input, e0, Next(strict, id, input, r, ev));
      } else {
        BarredPerform(strict, input, e0, ev.fail, j, r.effects, r.queue);
      }
    }
  }

  lemma {:induction false} NotWaited(input: Input, e0: Effects, r: Run)
    requires Inv(input, e0, r) && input.waitFor == ""
    ensures !Waited(r)
  {
  }

  lemma {:induction false} BarredStays(strict: bool, id: Identity, input: Input, e0: Effects, r: Run, later: seq<Event>)
    requires Barred(strict, input, e0) && BarredInv(strict, input, e0, r)
    ensures BarredInv(strict, input, e0, After(strict, id, input, r, later))
  {
    hide Next, BarredInv, Barred;
    if later != [] {
      var n := |later| - 1;
      BarredStays(strict, id, input, e0, r, later[..n]);
      BarredStep(strict, id, input, e0, After(strict, id, input, r, later[..n]), later[n]);
    }
  }

  /** The same adapter with its queues, open for calls as the upgraded one is. */
  function Reopened(r: Run): Run { r.(failures := 0, cancelled := false) }

  ghost predicate Differ(strict: bool, id: Identity, input: Input, r: Run, d: Run) {
    exists later :: Received(After(strict, id, input, r, later)) != Received(After(strict, id, input, d, later))
  }

  /** An upgrade changes what a run can ever receive, compared with an adapter that keeps its queues, if
      and only if a payload is queued, the run still waits for it and is not barred from it. */
  lemma {:induction false} UpgradeLosesIff(strict: bool, id: Identity, input: Input, e0: Effects, events: seq<Event>)
    ensures
      var r := After(strict, id, input, Start(e0), events);
      Differ(strict, id, input, Reopened(r), Next(strict, id, input, r, Upgrade)) <==>
      r.queue != [] && !Waited(r) && !Barred(strict, input, e0)
  {
    hide After;
    RunInv(strict, id, input, e0, events);
    var r := After(strict, id, input, Start(e0), events);
    var kept, upgraded := Reopened(r), Next(strict, id, input, r, Upgrade);
    NextKeeps(strict, id, input, e0, r, Upgrade);
    ReopenedInv(input, e0, r);
    if Waited(r) {
      forall later
        ensures Received(After(strict, id, input, kept, later)) == Received(After(strict, id, input, upgraded, later))
      {
        WaitedStays(strict, id, input, kept, later);
        WaitedStays(strict, id, input, upgraded, later);
      }
    } else if r.queue == [] {
      QueueIsOffered(input, e0, r);
      assert kept == upgraded;
    } else if Barred(strict, input, e0) {
      BarredFromStart(strict, id, input, e0, events);
      BarredUpgrade(strict, id, input, e0, r);
      forall later
        ensures Received(After(strict, id, input, kept, later)) == Received(After(strict, id, input, upgraded, later))
      {
        BarredStays(strict, id, input, e0, kept, later);
        BarredStays(strict, id, input, e0, upgraded, later);
      }
    } else {
      OneCallTells(strict, id, input, e0, r);
    }
  }

  lemma {:induction false} ReopenedInv(input: Input, e0: Effects, r: Run)
    requires Inv(input, e0, r)
    ensures Inv(input, e0, Reopened(r))
  {
  }

  lemma {:induction false} QueueIsOffered(input: Input, e0: Effects, r: Run)
    requires Inv(input, e0, r) && !Waited(r)
    ensures r.queue == r.offered && Received(r) == None
  {
  }

  lemma {:induction false} BarredFromStart(strict: bool, id: Identity, input: Input, e0: Effects, events: seq<Event>)
    requires Barred(strict, input, e0)
    ensures BarredInv(strict, input, e0, After(strict, id, input, Start(e0), events))
  {
    hide After;
    NoEvents(strict, id, input, Start(e0));
    RunInv(strict, id, input, e0, []);
    BarredStays(strict, id, input, e0, Start(e0), events);
  }

  lemma {:induction false} NoEvents(strict: bool, id: Identity, input: Input, r: Run)
    ensures After(strict, id, input, r, []) == r
  {
  }

  lemma {:induction false} BarredUpgrade(strict: bool, id: Identity, input: Input, e0: Effects, r: Run)
    requires BarredInv(strict, input, e0, r) && Barred(strict, input, e0)
    ensures BarredInv(strict, input, e0, Reopened(r))
    ensures BarredInv(strict, input, e0, Next(strict, id, input, r, Upgrade))
  {
    hide Next, Barred, JournalOk, EffectsOk;
    BarredStep(strict, id, input, e0, r, Upgrade);
  }

  lemma {:induction false} OneEvent(strict: bool, id: Identity, input: Input, r: Run, ev: Event)
    ensures After(strict, id, input, r, [ev]) == Next(strict, id, input, r, ev)
  {
    hide Next;
    assert [ev][..0] == [];
    assert After(strict, id, input, r, [ev][..0]) == r;
  }

  lemma {:induction false} UpgradeEmpties(strict: bool, id: Identity, input: Input, e0: Effects, r: Run)
    requires Inv(input, e0, r) && !Waited(r)
    ensures
      var d := Next(strict, id, input, r, Upgrade);
      Inv(input, e0, d) && d.queue == [] && !Waited(d)
  {
    NextKeeps(strict, id, input, e0, r, Upgrade);
  }

  lemma {:induction false} OneCallTells(strict: bool, id: Identity, input: Input, e0: Effects, r: Run)
    requires Inv(input, e0, r) && r.queue != [] && !Waited(r) && !Barred(strict, input, e0)
    ensures Differ(strict, id, input, Reopened(r), Next(strict, id, input, r, Upgrade))
  {
    hide Next, After, Inv, Barred, Received;
    var call := Call(NoFailure, None);
    var kept, upgraded := Reopened(r), Next(strict, id, input, r, Upgrade);
    ReopenedInv(input, e0, r);
    UpgradeEmpties(strict, id, input, e0, r);
    CleanCallReceives(strict, id, input, e0, kept);
    EmptyReceivesNothing(strict, id, input, e0, upgraded);
    OneEvent(strict, id, input, kept, call);
    OneEvent(strict, id, input, upgraded, call);
  }

  lemma {:induction false} CleanCallReceives(strict: bool, id: Identity, input: Input, e0: Effects, r: Run)
    requires Inv(input, e0, r) && !Waited(r) && r.queue != [] && !Barred(strict, input, e0)
    requires r.failures == 0 && !r.cancelled
    ensures Received(Next(strict, id, input, r, Call(NoFailure, None))).Some?
  {
    hide Perform;
    var j := if r.journal.Some? then r.journal.value else NewJournal(CorrelationOf(None));
    NewJournalOk(input, e0, CorrelationOf(None), r.offered);
    PerformClean(strict, input, j, r.effects, r.queue);
    PerformKeeps(strict, input, e0, NoFailure, r.offered, j, r.effects, r.queue);
  }

  lemma {:induction false} EmptyReceivesNothing(strict: bool, id: Identity, input: Input, e0: Effects, r: Run)
    requires Inv(input, e0, r) && r.queue == [] && !Waited(r)
    ensures Received(Next(strict, id, input, r, Call(NoFailure, None))) == None
  {
    hide Perform, EffectsOk;
    NextKeeps(strict, id, input, e0, r, Call(NoFailure, None));
    QueueIsOffered(input, e0, r);
    var d := Next(strict, id, input, r, Call(NoFailure, None));
    assert d.offered == [];
  }

  // ---------------------------------------------------------------------------
  // Which runs share a journal, and which share a queue
  // ---------------------------------------------------------------------------

  lemma {:induction false} PrefixCollides(a: string, b: string, x: string, y: string)
    requires a + ":" + x == b + ":" + y && |a| < |b|
    ensures a + ":" <= b
  {
    var k := a + ":" + x;
    assert k[..|a| + 1] == a + ":";
    assert (b + ":" + y)[..|b|] == b;
    assert k[..|b|][..|a| + 1] == k[..|a| + 1];
  }

  lemma {:induction false} OneKey(a: string, b: string, x: string, y: string)
    requires a + ":" + x == b + ":" + y
    ensures a == b || a + ":" <= b || b + ":" <= a
  {
    if |a| < |b| {
      PrefixCollides(a, b, x, y);
    } else if |b| < |a| {
      PrefixCollides(b, a, y, x);
    } else {
      assert (a + ":" + x)[..|a|] == a && (b + ":" + y)[..|b|] == b;
    }
  }

  /** Two different prefixes can be completed to one key if and only if one of them, with its colon,
      begins the other. */
  lemma {:induction false} KeysCollideIff(a: string, b: string)
    requires a != b
    ensures (exists x, y :: a + ":" + x == b + ":" + y) <==> a + ":" <= b || b + ":" <= a
  {
    if x, y :| a + ":" + x == b + ":" + y {
      OneKey(a, b, x, y);
    }
    if a + ":" <= b {
      Completes(a, b);
    }
    if b + ":" <= a {
      Completes(b, a);
    }
  }

  lemma {:induction false} Completes(a: string, b: string)
    requires a + ":" <= b
    ensures exists x, y :: a + ":" + x == b + ":" + y
    ensures exists x, y :: b + ":" + y == a + ":" + x
  {
    var x := b[|a| + 1..] + ":";
    assert a + ":" + b[|a| + 1..] == b;
    assert a + ":" + x == b + ":" + "";
  }

  ghost predicate JournalsCanMeet(a: string, b: string) {
    exists x, y :: KeyOf(Identity(a, x, 1)) == KeyOf(Identity(b, y, 1))
  }

  /** Runs of two different Works can share a journal if and only if one work id, with a colon, begins the
      other; runs of one Work never do. */
  lemma {:induction false} JournalsMeetIff(a: string, b: string)
    requires a != b
    ensures JournalsCanMeet(a, b) <==> a + ":" <= b || b + ":" <= a
  {
    KeysCollideIff(a, b);
    if x, y :| a + ":" + x == b + ":" + y {
      assert KeyOf(Identity(a, x, 1)) == KeyOf(Identity(b, y, 1));
    }
    if x, y :| KeyOf(Identity(a, x, 1)) == KeyOf(Identity(b, y, 1)) {
      assert a + ":" + x == b + ":" + y;
    }
  }

  lemma {:induction false} OneWorkOneJournalEach(work: string, x: string, y: string)
    ensures KeyOf(Identity(work, x, 1)) == KeyOf(Identity(work, y, 1)) <==> x == y
  {
    assert (work + ":" + x)[|work| + 1..] == x && (work + ":" + y)[|work| + 1..] == y;
  }

  ghost predicate QueuesCanMeet(a: Identity, b: Identity) {
    exists m, n :: SignalKey(a, m) == SignalKey(b, n)
  }

  /** Two runs with different journals can share a signal queue if and only if one journal key, with a
      colon, begins the other: also two runs of one Work with a colon-free id. */
  lemma {:induction false} QueuesMeetIff(a: Identity, b: Identity)
    requires KeyOf(a) != KeyOf(b)
    ensures QueuesCanMeet(a, b) <==> KeyOf(a) + ":" <= KeyOf(b) || KeyOf(b) + ":" <= KeyOf(a)
  {
    hide KeyOf;
    KeysCollideIff(KeyOf(a), KeyOf(b));
    if x, y :| KeyOf(a) + ":" + x == KeyOf(b) + ":" + y {
      assert SignalKey(a, x) == SignalKey(b, y);
    }
    if x, y :| SignalKey(a, x) == SignalKey(b, y) {
      assert KeyOf(a) + ":" + x == KeyOf(b) + ":" + y;
    }
  }

  lemma {:induction false} BeginningHasColon(a: string, b: string)
    requires a + ":" <= b
    ensures ':' in b
  {
    assert b[|a|] == (a + ":")[|a|];
  }

  /** With colon-free work ids, different runs never share a journal. */
  lemma {:induction false} RunsAreSeparate(a: Identity, b: Identity)
    requires ':' !in a.workId && ':' !in b.workId
    ensures KeyOf(a) == KeyOf(b) <==> a.workId == b.workId && a.runId == b.runId
  {
    if KeyOf(a) == KeyOf(b) {
      OneKey(a.workId, b.workId, a.runId, b.runId);
      if a.workId + ":" <= b.workId {
        BeginningHasColon(a.workId, b.workId);
      } else if b.workId + ":" <= a.workId {
        BeginningHasColon(b.workId, a.workId);
      } else {
        OneWorkOneJournalEach(a.workId, a.runId, b.runId);
      }
    }
  }

  lemma {:induction false} BeginningRunHasColon(a: Identity, b: Identity)
    requires ':' !in a.workId && ':' !in b.workId && KeyOf(a) + ":" <= KeyOf(b)
    ensures ':' in b.runId
  {
    var rest := KeyOf(b)[|KeyOf(a)| + 1..];
    assert KeyOf(b) == KeyOf(a) + ":" + rest;
    var x := a.runId + ":" + rest;
    assert a.workId + ":" + x == b.workId + ":" + b.runId;
    RunsAreSeparate(Identity(a.workId, x, 1), b);
    assert x[|a.runId|] == ':' && x[|a.runId|] in x;
  }

  /** With colon-free work ids and run ids, different runs never share a queue. */
  lemma {:induction false} QueuesAreSeparate(a: Identity, b: Identity, m: string, n: string)
    requires ':' !in a.workId && ':' !in b.workId && ':' !in a.runId && ':' !in b.runId
    ensures SignalKey(a, m) == SignalKey(b, n) <==> a.workId == b.workId && a.runId == b.runId && m == n
  {
    hide KeyOf;
    RunsAreSeparate(a, b);
    if SignalKey(a, m) == SignalKey(b, n) {
      OneKey(KeyOf(a), KeyOf(b), m, n);
      if KeyOf(a) + ":" <= KeyOf(b) {
        BeginningRunHasColon(a, b);
      } else if KeyOf(b) + ":" <= KeyOf(a) {
        BeginningRunHasColon(b, a);
      } else {
        assert (KeyOf(a) + ":" + m)[|KeyOf(a)| + 1..] == m && (KeyOf(b) + ":" + n)[|KeyOf(b)| + 1..] == n;
      }
    }
    if a.workId == b.workId && a.runId == b.runId {
      SameKey(a, b);
    }
  }

  lemma {:induction false} SameKey(a: Identity, b: Identity)
    requires a.workId == b.workId && a.runId == b.runId
    ensures KeyOf(a) == KeyOf(b)
  {
  }
}
