/**
 The delivery reconciler: one call looks at a delivery record, may query or drive an
 external system, and returns the next record. The external side is an adversary that
 chooses every reply, including a start that takes effect and then raises.
 */
module Delivery {
  import opened Common

  datatype Kind = RUN_START | QUESTION_SIGNAL | ARTIFACT_ATTACH | OUTBOUND_MESSAGE | SOURCE_MUTATION | TRIGGER_FIRE

  datatype Status = PENDING | DISPATCHING | DELIVERED | AMBIGUOUS | FAILED | REPAIR_REQUIRED | CANCELLED

  // ---------------------------------------------------------------------------
  // Errors
  // ---------------------------------------------------------------------------

  datatype Category =
    | InvariantViolation | InvalidState | Timeout | Unavailable | NotFound | RateLimited | AuthenticationFailed
    | PermissionDenied | Conflict | InvalidInput | Unsupported | AmbiguousEffect

  datatype Error = Error(category: Category, ambiguity: bool)

  /** The exception classes the normaliser tells apart, in the order it tests them. */
  datatype Exn =
    | InvariantExn | TransitionExn | TimeoutExn | ConnectionExn | HttpExn(code: int) | LookupExn | ValueExn | OtherExn

  function Normalize(e: Exn): Error {
    match e
    case InvariantExn => Error(InvariantViolation, false)
    case TransitionExn => Error(InvalidState, false)
    case TimeoutExn => Error(Timeout, true)
    case ConnectionExn => Error(Unavailable, false)
    case HttpExn(code) =>
      if code == 404 then Error(NotFound, false)
      else if code == 429 then Error(RateLimited, false)
      else if code == 401 then Error(AuthenticationFailed, false)
      else if code == 403 then Error(PermissionDenied, false)
      else if code == 409 then Error(Conflict, false)
      else if code in {502, 503, 504} then Error(Unavailable, code == 504)
      else Error(Unavailable, true)
    case LookupExn => Error(NotFound, false)
    case ValueExn => Error(InvalidInput, false)
    case OtherExn => Error(Unavailable, true)
  }

  // ---------------------------------------------------------------------------
  // Records
  // ---------------------------------------------------------------------------

  /** `target` stands for the fields no reconcile changes: ids, refs, adapter, key, payload. */
  datatype Record = Record(
    target: string,
    kind: Kind,
    status: Status,
    attempts: nat,
    maxAttempts: nat,
    revision: nat,
    validUntil: Option<int>,
    lastError: Option<Error>,
    deliveredAt: Option<int>)

  predicate Terminal(r: Record) { r.status in {DELIVERED, REPAIR_REQUIRED, CANCELLED} }

  predicate Expired(r: Record, now: int) { r.validUntil.Some? && now > r.validUntil.value }

  function Moved(r: Record, status: Status, attempts: nat, error: Option<Error>, deliveredAt: Option<int>): Record {
    r.(status := status, attempts := attempts, revision := r.revision + 1, lastError := error, deliveredAt := deliveredAt)
  }

  // ---------------------------------------------------------------------------
  // The external side
  // ---------------------------------------------------------------------------

  datatype ExecutionState = ExecPending | ExecRunning | ExecWaiting | ExecCompleted | ExecFailed | ExecCancelled

  datatype FindReply = FindRaises(exn: Exn) | FindSays(found: bool)
  datatype StatusReply = StatusRaises(exn: Exn) | StatusSays(state: ExecutionState, error: Option<Error>)
  datatype StartReply = StartReturns | StartRaises(exn: Exn, tookEffect: bool)
  datatype SignalReply = SignalRaises(exn: Exn) | SignalSays(delivered: bool, error: Option<Error>)
  datatype HandlerReply = NoHandler | HandlerRaises(exn: Exn) | HandlerSays(success: bool, error: Option<Error>)

  /** What every external call would answer if this reconcile made it. */
  datatype Replies = Replies(
    find: FindReply, status: StatusReply, start: StartReply, signal: SignalReply, handler: HandlerReply)

  datatype Call = FindCall(nothing: bool) | StatusCall(nothing: bool) | StartCall | SignalCall | HandlerCall

  /** How many external executions exist for the delivery's run. */
  type World = nat

  predicate TakesEffect(reply: StartReply) { reply.StartReturns? || reply.tookEffect }

  function Started(w: World, idempotent: bool, reply: StartReply): World {
    if !TakesEffect(reply) then w else if idempotent && w >= 1 then w else w + 1
  }

  datatype Outcome = Outcome(record: Record, world: World, calls: seq<Call>)

  // ---------------------------------------------------------------------------
  // reconcile
  // ---------------------------------------------------------------------------

  datatype Attempt = Done(record: Record) | Raised(exn: Exn)

  function DispatchRunStart(r: Record, next: nat, now: int, reply: StartReply): Attempt {
    match reply
    case StartReturns => Done(Moved(r, DELIVERED, next, None, Some(now)))
    case StartRaises(exn, _) => Raised(exn)
  }

  function DispatchSignal(r: Record, next: nat, now: int, reply: SignalReply): Attempt {
    match reply
    case SignalRaises(exn) => Raised(exn)
    case SignalSays(delivered, error) =>
      Done(if delivered then Moved(r, DELIVERED, next, None, Some(now)) else Moved(r, FAILED, next, error, None))
  }

  function DispatchOther(r: Record, next: nat, now: int, reply: HandlerReply): Attempt {
    match reply
    case NoHandler => Done(Moved(r, FAILED, next, Some(Error(Unsupported, false)), None))
    case HandlerRaises(exn) => Raised(exn)
    case HandlerSays(success, error) =>
      Done(Moved(r, if success then DELIVERED else FAILED, next, error, if success then Some(now) else None))
  }

  /** The except clause of `reconcile`. */
  function Settle(r: Record, next: nat, a: Attempt): Record {
    match a
    case Done(record) => record
    case Raised(exn) =>
      var err := Normalize(exn);
      Moved(r, if next >= r.maxAttempts then REPAIR_REQUIRED else if err.ambiguity then AMBIGUOUS else FAILED,
        next, Some(err), None)
  }

  /** The except clause of `_reconcile_ambiguous`: any failure keeps the doubt. */
  function StayAmbiguous(r: Record, next: nat, err: Error): Record {
    Moved(r, if next >= r.maxAttempts then REPAIR_REQUIRED else AMBIGUOUS, next, Some(err), None)
  }

  function StartAfterProbe(r: Record, w: World, idempotent: bool, rep: Replies, now: int, probe: seq<Call>): Outcome {
    var next := r.attempts + 1;
    var record := match DispatchRunStart(r, next, now, rep.start)
      case Done(record) => record
      case Raised(exn) => StayAmbiguous(r, next, Normalize(exn));
    Outcome(record, Started(w, idempotent, rep.start), probe + [StartCall])
  }

  function ReconcileAmbiguous(r: Record, w: World, idempotent: bool, rep: Replies, now: int): Outcome {
    var next := r.attempts + 1;
    if r.kind != RUN_START then
      Outcome(Moved(r, REPAIR_REQUIRED, next, Some(Error(AmbiguousEffect, true)), None), w, [])
    else match rep.find
      case FindRaises(exn) => Outcome(StayAmbiguous(r, next, Normalize(exn)), w, [FindCall(false)])
      case FindSays(found) =>
        if !found then StartAfterProbe(r, w, idempotent, rep, now, [FindCall(true)])
        else match rep.status
          case StatusRaises(exn) =>
            Outcome(StayAmbiguous(r, next, Normalize(exn)), w, [FindCall(false), StatusCall(false)])
          case StatusSays(state, error) =>
            if error.Some? && error.value.category == NotFound then
              StartAfterProbe(r, w, idempotent, rep, now, [FindCall(false), StatusCall(true)])
            else
              var record :=
                if error.Some? && error.value.category == Unavailable then StayAmbiguous(r, next, error.value)
                else if state in {ExecRunning, ExecWaiting, ExecCompleted} then
                  Moved(r, DELIVERED, next, None, Some(now))
                else Moved(r, FAILED, next, error, None);
              Outcome(record, w, [FindCall(false), StatusCall(false)])
  }

  function Reconcile(r: Record, w: World, idempotent: bool, rep: Replies, now: int): Outcome {
    if Terminal(r) then Outcome(r, w, [])
    else if Expired(r, now) then
      Outcome(Moved(r, FAILED, r.attempts, Some(Error(Timeout, false)), None), w, [])
    else if r.status == AMBIGUOUS then ReconcileAmbiguous(r, w, idempotent, rep, now)
    else
      var next := r.attempts + 1;
      if next > r.maxAttempts then Outcome(Moved(r, REPAIR_REQUIRED, r.attempts, r.lastError, None), w, [])
      else match r.kind
        case RUN_START =>
          Outcome(Settle(r, next, DispatchRunStart(r, next, now, rep.start)), Started(w, idempotent, rep.start), [StartCall])
        case QUESTION_SIGNAL =>
          Outcome(Settle(r, next, DispatchSignal(r, next, now, rep.signal)), w, [SignalCall])
        case _ =>
          Outcome(Settle(r, next, DispatchOther(r, next, now, rep.handler)), w,
            if rep.handler.NoHandler? then [] else [HandlerCall])
  }

  // ---------------------------------------------------------------------------
  // One call
  // ---------------------------------------------------------------------------

  /** No blind replay: in AMBIGUOUS a start comes only after this call's own probe found nothing. */
  lemma AmbiguousProbesBeforeStart(r: Record, w: World, idempotent: bool, rep: Replies, now: int, i: nat)
    requires r.status == AMBIGUOUS
    requires i < |Reconcile(r, w, idempotent, rep, now).calls|
    requires Reconcile(r, w, idempotent, rep, now).calls[i] == StartCall
    ensures
      var calls := Reconcile(r, w, idempotent, rep, now).calls;
      && i >= 1 && (calls[i - 1] == FindCall(true) || calls[i - 1] == StatusCall(true))
      && calls[0].FindCall? && (forall k :: 0 <= k < |calls| && calls[k] == StartCall ==> k == i)
  {
  }

  /** Kinds without a probe make no external call from AMBIGUOUS and end in repair. */
  lemma UnprobedKindsMakeNoCall(r: Record, w: World, idempotent: bool, rep: Replies, now: int)
    requires r.status == AMBIGUOUS && r.kind != RUN_START && !Expired(r, now)
    ensures
      var o := Reconcile(r, w, idempotent, rep, now);
      o.calls == [] && o.world == w && o.record.status == REPAIR_REQUIRED
  {
  }

  // ---------------------------------------------------------------------------
  // What each status means
  // ---------------------------------------------------------------------------

  /** Which errors leave the effect in doubt, which say that something is missing, and which that the other side
      is not there. */
  lemma NormalizeMeans(e: Exn)
    ensures Normalize(e).ambiguity <==>
            e == TimeoutExn || e == OtherExn || (e.HttpExn? && e.code !in {404, 429, 401, 403, 409, 502, 503})
    ensures Normalize(e).category == NotFound <==> e == LookupExn || e == HttpExn(404)
    ensures Normalize(e).category == Unavailable <==>
            e == ConnectionExn || e == OtherExn || (e.HttpExn? && e.code !in {404, 429, 401, 403, 409})
    ensures Normalize(e).category == Timeout <==> e == TimeoutExn
  {
  }

  /** The exception a call answered with. */
  function RaisedBy(c: Call, rep: Replies): Option<Exn> {
    match c
    case FindCall(_) => if rep.find.FindRaises? then Some(rep.find.exn) else None
    case StatusCall(_) => if rep.status.StatusRaises? then Some(rep.status.exn) else None
    case StartCall => if rep.start.StartRaises? then Some(rep.start.exn) else None
    case SignalCall => if rep.signal.SignalRaises? then Some(rep.signal.exn) else None
    case HandlerCall => if rep.handler.HandlerRaises? then Some(rep.handler.exn) else None
  }

  /** The exception that ended the call, if one did. */
  function EndedBy(calls: seq<Call>, rep: Replies): Option<Exn> {
    if calls == [] then None else RaisedBy(calls[|calls| - 1], rep)
  }

  /** The probe ended with an answer about an execution that it found. */
  predicate Probed(calls: seq<Call>, rep: Replies, category: Option<Category>) {
    && calls == [FindCall(false), StatusCall(false)] && rep.status.StatusSays?
    && (match category
        case Some(c) => rep.status.error.Some? && rep.status.error.value.category == c
        case None => rep.status.error.None? || rep.status.error.value.category !in {NotFound, Unavailable})
  }

  predicate Live(state: ExecutionState) { state in {ExecRunning, ExecWaiting, ExecCompleted} }

  /** An open, unexpired record that has attempts left and no doubt to clear up first. */
  predicate Dispatches(r: Record) { r.status != AMBIGUOUS && r.attempts < r.maxAttempts }

  /** Past its time an open delivery fails as timed out, without a call. */
  lemma ExpiredCall(r: Record, w: World, idempotent: bool, rep: Replies, now: int)
    requires !Terminal(r) && r.validUntil.Some? && now > r.validUntil.value
    ensures
      var o := Reconcile(r, w, idempotent, rep, now);
      && o.calls == [] && o.world == w && o.record.status == FAILED && o.record.attempts == r.attempts
      && o.record.lastError == Some(Error(Timeout, false)) && o.record.deliveredAt == None
  {
  }

  /** Which calls a reconcile makes: one dispatch by kind, or the probe of a run start in doubt. */
  lemma CallsMade(r: Record, w: World, idempotent: bool, rep: Replies, now: int)
    requires r.status !in {DELIVERED, REPAIR_REQUIRED, CANCELLED} && (r.validUntil.None? || now <= r.validUntil.value)
    ensures
      var calls := Reconcile(r, w, idempotent, rep, now).calls;
      && (Dispatches(r) ==>
            calls == match r.kind
                     case RUN_START => [StartCall]
                     case QUESTION_SIGNAL => [SignalCall]
                     case _ => if rep.handler.NoHandler? then [] else [HandlerCall])
      && (!Dispatches(r) && (r.status != AMBIGUOUS || r.kind != RUN_START) ==> calls == [])
      && (r.status == AMBIGUOUS && r.kind == RUN_START ==>
            && (rep.find.FindRaises? ==> calls == [FindCall(false)])
            && (rep.find == FindSays(false) ==> calls == [FindCall(true), StartCall])
            && (rep.find == FindSays(true) ==>
                  calls == if rep.status.StatusSays? && rep.status.error.Some? && rep.status.error.value.category == NotFound
                           then [FindCall(false), StatusCall(true), StartCall]
                           else [FindCall(false), StatusCall(false)]))
  {
  }

  /** DELIVERED exactly when a start returned, a probe found the execution alive, the signal was delivered or the
      handler succeeded; and then with the time. */
  lemma DeliveredIff(r: Record, w: World, idempotent: bool, rep: Replies, now: int)
    requires !Terminal(r) && !Expired(r, now)
    ensures
      var o := Reconcile(r, w, idempotent, rep, now);
      && (o.record.status == DELIVERED <==>
            || (StartCall in o.calls && rep.start == StartReturns)
            || (Probed(o.calls, rep, None) && Live(rep.status.state))
            || (SignalCall in o.calls && rep.signal.SignalSays? && rep.signal.delivered)
            || (HandlerCall in o.calls && rep.handler.HandlerSays? && rep.handler.success))
      && o.record.deliveredAt == if o.record.status == DELIVERED then Some(now) else None
  {
    CallsMade(r, w, idempotent, rep, now);
    if r.status == AMBIGUOUS && r.kind == RUN_START {
      hide Dispatches;
      match rep.find {
        case FindRaises(exn) =>
        case FindSays(found) =>
          if found {
            match rep.status {
              case StatusRaises(exn) =>
              case StatusSays(state, error) =>
            }
          }
      }
    } else {
      match r.kind {
        case RUN_START =>
        case QUESTION_SIGNAL =>
        case _ =>
      }
    }
  }

  /** FAILED exactly when a dispatch was refused, had no handler or ended in an error without doubt, or when a
      probe found the execution dead. */
  lemma FailedIff(r: Record, w: World, idempotent: bool, rep: Replies, now: int)
    requires !Terminal(r) && !Expired(r, now)
    ensures
      var o := Reconcile(r, w, idempotent, rep, now);
      o.record.status == FAILED <==>
        || (SignalCall in o.calls && rep.signal.SignalSays? && !rep.signal.delivered)
        || (HandlerCall in o.calls && rep.handler.HandlerSays? && !rep.handler.success)
        || (Dispatches(r) && o.calls == [])
        || (Dispatches(r) && EndedBy(o.calls, rep).Some? && !Normalize(EndedBy(o.calls, rep).value).ambiguity
            && r.attempts + 1 < r.maxAttempts)
        || (Probed(o.calls, rep, None) && !Live(rep.status.state))
  {
    CallsMade(r, w, idempotent, rep, now);
    if r.status == AMBIGUOUS && r.kind == RUN_START {
      hide Dispatches;
      match rep.find {
        case FindRaises(exn) =>
        case FindSays(found) =>
          if found {
            match rep.status {
              case StatusRaises(exn) =>
              case StatusSays(state, error) =>
            }
          }
      }
    } else {
      match r.kind {
        case RUN_START =>
        case QUESTION_SIGNAL =>
        case _ =>
      }
    }
  }

  /** AMBIGUOUS exactly when an attempt is left and the dispatch ended in doubt, or the probe could not clear it. */
  lemma AmbiguousIff(r: Record, w: World, idempotent: bool, rep: Replies, now: int)
    requires !Terminal(r) && !Expired(r, now)
    ensures
      var o := Reconcile(r, w, idempotent, rep, now);
      o.record.status == AMBIGUOUS <==>
        && r.attempts + 1 < r.maxAttempts
        && (|| (EndedBy(o.calls, rep).Some? && (r.status == AMBIGUOUS || Normalize(EndedBy(o.calls, rep).value).ambiguity))
            || Probed(o.calls, rep, Some(Unavailable)))
  {
    CallsMade(r, w, idempotent, rep, now);
    if r.status == AMBIGUOUS && r.kind == RUN_START {
      hide Dispatches;
      match rep.find {
        case FindRaises(exn) =>
        case FindSays(found) =>
          if found {
            match rep.status {
              case StatusRaises(exn) =>
              case StatusSays(state, error) =>
            }
          }
      }
    } else {
      match r.kind {
        case RUN_START =>
        case QUESTION_SIGNAL =>
        case _ =>
      }
    }
  }

  /** REPAIR_REQUIRED exactly when attempts ran out, or a doubt stands that cannot be probed. */
  lemma RepairIff(r: Record, w: World, idempotent: bool, rep: Replies, now: int)
    requires !Terminal(r) && !Expired(r, now)
    ensures
      var o := Reconcile(r, w, idempotent, rep, now);
      o.record.status == REPAIR_REQUIRED <==>
        || (r.status != AMBIGUOUS && r.attempts >= r.maxAttempts)
        || (r.status == AMBIGUOUS && r.kind != RUN_START)
        || (r.attempts + 1 >= r.maxAttempts && (EndedBy(o.calls, rep).Some? || Probed(o.calls, rep, Some(Unavailable))))
  {
    CallsMade(r, w, idempotent, rep, now);
    if r.status == AMBIGUOUS && r.kind == RUN_START {
      hide Dispatches;
      match rep.find {
        case FindRaises(exn) =>
        case FindSays(found) =>
          if found {
            match rep.status {
              case StatusRaises(exn) =>
              case StatusSays(state, error) =>
            }
          }
      }
    } else {
      match r.kind {
        case RUN_START =>
        case QUESTION_SIGNAL =>
        case _ =>
      }
    }
  }

  /** A call that ended in an exception records it, and every call but an exhausted one spends an attempt. */
  lemma CallRecords(r: Record, w: World, idempotent: bool, rep: Replies, now: int)
    requires !Terminal(r) && !Expired(r, now)
    ensures
      var o := Reconcile(r, w, idempotent, rep, now);
      && o.record.attempts == r.attempts + (if r.status != AMBIGUOUS && r.attempts >= r.maxAttempts then 0 else 1)
      && o.record.target == r.target
      && (EndedBy(o.calls, rep).Some? ==> o.record.lastError == Some(Normalize(EndedBy(o.calls, rep).value)))
      && (StartCall in o.calls && rep.start == StartReturns ==> o.record.lastError == None)
      && (StartCall in o.calls && TakesEffect(rep.start) ==> o.world >= 1)
      && (StartCall !in o.calls || !TakesEffect(rep.start) ==> o.world == w)
  {
    CallsMade(r, w, idempotent, rep, now);
    if r.status == AMBIGUOUS && r.kind == RUN_START {
      hide Dispatches;
      match rep.find {
        case FindRaises(exn) =>
        case FindSays(found) =>
          if found {
            match rep.status {
              case StatusRaises(exn) =>
              case StatusSays(state, error) =>
            }
          }
      }
    } else {
      match r.kind {
        case RUN_START =>
        case QUESTION_SIGNAL =>
        case _ =>
      }
    }
  }

  /** A call that ended in an answer records the answer's error, and moves nothing but its own fields. */
  lemma AnswerRecords(r: Record, w: World, idempotent: bool, rep: Replies, now: int)
    requires !Terminal(r) && !Expired(r, now)
    ensures
      var o := Reconcile(r, w, idempotent, rep, now);
      && o.record.kind == r.kind && o.record.maxAttempts == r.maxAttempts && o.record.validUntil == r.validUntil
      && o.record.revision == r.revision + 1
      && (SignalCall in o.calls && rep.signal.SignalSays? ==>
            o.record.lastError == if rep.signal.delivered then None else rep.signal.error)
      && (HandlerCall in o.calls && rep.handler.HandlerSays? ==> o.record.lastError == rep.handler.error)
      && (Probed(o.calls, rep, None) ==> o.record.lastError == if Live(rep.status.state) then None else rep.status.error)
      && (Probed(o.calls, rep, Some(Unavailable)) ==> o.record.lastError == rep.status.error)
      && (r.status == AMBIGUOUS && r.kind != RUN_START ==> o.record.lastError == Some(Error(AmbiguousEffect, true)))
      && (r.status != AMBIGUOUS && r.attempts >= r.maxAttempts ==> o.record.lastError == r.lastError)
      && (Dispatches(r) && o.calls == [] ==> o.record.lastError == Some(Error(Unsupported, false)))
  {
    CallsMade(r, w, idempotent, rep, now);
    if r.status == AMBIGUOUS && r.kind == RUN_START {
      hide Dispatches;
      match rep.find {
        case FindRaises(exn) =>
        case FindSays(found) =>
          if found {
            match rep.status {
              case StatusRaises(exn) =>
              case StatusSays(state, error) =>
            }
          }
      }
    } else {
      match r.kind {
        case RUN_START =>
        case QUESTION_SIGNAL =>
        case _ =>
      }
    }
  }

  // ---------------------------------------------------------------------------
  // Runs of calls
  // ---------------------------------------------------------------------------

  datatype Event = Event(rep: Replies, now: int)

  function After(r: Record, w: World, idempotent: bool, events: seq<Event>): Outcome {
    if events == [] then Outcome(r, w, [])
    else
      var n := |events| - 1;
      var before := After(r, w, idempotent, events[..n]);
      var last := Reconcile(before.record, before.world, idempotent, events[n].rep, events[n].now);
      Outcome(last.record, last.world, before.calls + last.calls)
  }

  predicate Fresh(r: Record) { r.status == PENDING && r.attempts == 0 && r.maxAttempts >= 1 }

  predicate Alive(r: Record, events: seq<Event>) {
    forall i :: 0 <= i < |events| ==> !Expired(r, events[i].now)
  }

  /** What every call keeps, whatever the port answers. */
  predicate Budgeted(r: Record) {
    && r.attempts <= r.maxAttempts
    && (r.status == AMBIGUOUS ==> r.attempts < r.maxAttempts)
  }

  lemma CallKeepsBudget(r: Record, w: World, idempotent: bool, rep: Replies, now: int)
    requires Budgeted(r)
    ensures
      var r' := Reconcile(r, w, idempotent, rep, now).record;
      && Budgeted(r')
      && r'.maxAttempts == r.maxAttempts && r'.kind == r.kind && r'.target == r.target && r'.validUntil == r.validUntil
      && r.attempts <= r'.attempts <= r.attempts + 1
      && (Terminal(r) ==> r' == r)
      && (!Terminal(r) ==> r'.revision == r.revision + 1)
      && (!Terminal(r) && !Terminal(r') && !Expired(r, now) ==> r'.attempts == r.attempts + 1)
  {
    if !Terminal(r) && !Expired(r, now) {
      CallRecords(r, w, idempotent, rep, now);
      AnswerRecords(r, w, idempotent, rep, now);
      AmbiguousIff(r, w, idempotent, rep, now);
      FailedIff(r, w, idempotent, rep, now);
      CallsMade(r, w, idempotent, rep, now);
      hide Reconcile, Normalize;
    }
  }

  /**
   The attempt budget over whole runs, under any port behaviour: identity fields never
   change, attempts never fall and never exceed the maximum, AMBIGUOUS always leaves an attempt, and a
   record that is still open after k unexpired calls has used exactly k attempts.
   */
  lemma {:induction false} RunKeepsBudget(r: Record, w: World, idempotent: bool, events: seq<Event>)
    requires Fresh(r)
    ensures
      var r' := After(r, w, idempotent, events).record;
      && Budgeted(r')
      && r'.maxAttempts == r.maxAttempts && r'.kind == r.kind && r'.target == r.target && r'.validUntil == r.validUntil
      && (Alive(r, events) && !Terminal(r') ==> r'.attempts == |events|)
      && (forall k :: 0 <= k <= |events| ==> After(r, w, idempotent, events[..k]).record.attempts <= r'.attempts)
  {
    hide Reconcile;
    if events == [] {
      assert events[..0] == events;
    } else {
      var n := |events| - 1;
      RunKeepsBudget(r, w, idempotent, events[..n]);
      forall k | 0 <= k <= |events|
        ensures k <= n ==> events[..n][..k] == events[..k]
        ensures k > n ==> events[..k] == events
      {
      }
      var before := After(r, w, idempotent, events[..n]);
      CallKeepsBudget(before.record, before.world, idempotent, events[n].rep, events[n].now);
      if Alive(r, events) {
        assert Alive(r, events[..n]);
        assert !Expired(before.record, events[n].now);
      }
    }
  }

  /** A live delivery is settled within max_attempts + 1 calls. */
  lemma SettlesInTime(r: Record, w: World, idempotent: bool, events: seq<Event>)
    requires Fresh(r) && Alive(r, events) && |events| >= r.maxAttempts + 1
    ensures Terminal(After(r, w, idempotent, events).record)
  {
    RunKeepsBudget(r, w, idempotent, events);
  }

  /** Terminal records are fixed points: later calls touch neither them nor the outside. */
  lemma {:induction false} TerminalForever(r: Record, w: World, idempotent: bool, events: seq<Event>)
    requires r.status in {DELIVERED, REPAIR_REQUIRED, CANCELLED}
    ensures After(r, w, idempotent, events) == Outcome(r, w, [])
  {
    if events != [] {
      TerminalForever(r, w, idempotent, events[..|events| - 1]);
    }
  }

  /** Once the key has expired, no call touches the outside or spends an attempt. */
  lemma {:induction false} ExpiredForever(r: Record, w: World, idempotent: bool, events: seq<Event>)
    requires forall i :: 0 <= i < |events| ==> Expired(r, events[i].now)
    ensures
      var o := After(r, w, idempotent, events);
      && o.calls == [] && o.world == w
      && o.record.attempts == r.attempts && o.record.validUntil == r.validUntil
      && (events != [] && !Terminal(r) ==> o.record.status == FAILED)
      && (Terminal(r) ==> o.record == r)
  {
    if events != [] {
      var n := |events| - 1;
      ExpiredForever(r, w, idempotent, events[..n]);
    }
  }

  // ---------------------------------------------------------------------------
  // External executions
  // ---------------------------------------------------------------------------

  /** The port contract: discovery is truthful, and a known execution is not reported missing. */
  predicate Truthful(w: World, rep: Replies) {
    && (rep.find.FindSays? ==> (rep.find.found <==> w >= 1))
    && (rep.status.StatusSays? && rep.status.error.Some? && rep.status.error.value.category == NotFound ==> w == 0)
  }

  predicate TruthfulRun(r: Record, w: World, idempotent: bool, events: seq<Event>) {
    forall i :: 0 <= i < |events| ==> Truthful(After(r, w, idempotent, events[..i]).world, events[i].rep)
  }

  /** On a port that is idempotent per run, start is the only effect and never doubles. */
  lemma CallKeepsOneExecution(r: Record, w: World, rep: Replies, now: int)
    requires w <= 1 && r.kind == RUN_START && Truthful(w, rep)
    requires r.status == DELIVERED ==> w == 1
    ensures
      var o := Reconcile(r, w, true, rep, now);
      w <= o.world <= 1 && o.record.kind == RUN_START && (o.record.status == DELIVERED ==> o.world == 1)
  {
  }

  /**
   Over any run of calls, with replies lost after the effect or not: at most one external
   execution exists, and DELIVERED means that it does.
   */
  lemma {:induction false} AtMostOneExecution(r: Record, events: seq<Event>)
    requires Fresh(r) && r.kind == RUN_START && TruthfulRun(r, 0, true, events)
    ensures
      var o := After(r, 0, true, events);
      o.world <= 1 && o.record.kind == RUN_START && (o.record.status == DELIVERED ==> o.world == 1)
  {
    hide Reconcile, Truthful;
    if events != [] {
      var n := |events| - 1;
      forall i | 0 <= i < n
        ensures Truthful(After(r, 0, true, events[..n][..i]).world, events[..n][i].rep)
      {
        assert events[..n][..i] == events[..i];
      }
      AtMostOneExecution(r, events[..n]);
      var before := After(r, 0, true, events[..n]);
      CallKeepsOneExecution(before.record, before.world, events[n].rep, events[n].now);
    }
  }

  /** Without idempotence, exactly this call makes a second execution. */
  lemma SecondExecutionIff(r: Record, rep: Replies, now: int)
    requires r.kind == RUN_START && Truthful(1, rep)
    ensures Reconcile(r, 1, false, rep, now).world == 2 <==>
              && !Terminal(r) && !Expired(r, now)
              && r.status != AMBIGUOUS && r.attempts < r.maxAttempts && TakesEffect(rep.start)
  {
  }

  /** The call starts without a probe, and takes effect, while an execution exists. */
  predicate StartsUnprobed(r: Record, w: World, rep: Replies, now: int) {
    && w >= 1 && !Terminal(r) && !Expired(r, now)
    && r.status != AMBIGUOUS && r.attempts < r.maxAttempts && TakesEffect(rep.start)
  }

  lemma CallAddsIff(r: Record, w: World, rep: Replies, now: int)
    requires r.kind == RUN_START && Truthful(w, rep)
    ensures
      var o := Reconcile(r, w, false, rep, now);
      && w <= o.world <= w + 1 && o.record.kind == RUN_START
      && (w >= 1 ==> (o.world == w + 1 <==> StartsUnprobed(r, w, rep, now)))
  {
  }

  /** Call `k` of a run on a port without idempotence starts unprobed while an execution exists. */
  ghost predicate UnprobedAt(r: Record, events: seq<Event>, k: nat)
    requires k < |events|
  {
    var before := After(r, 0, false, events[..k]);
    StartsUnprobed(before.record, before.world, events[k].rep, events[k].now)
  }

  lemma {:induction false} UnprobedPrefix(r: Record, events: seq<Event>)
    requires events != []
    ensures
      var n := |events| - 1;
      (exists k :: 0 <= k < |events| && UnprobedAt(r, events, k)) <==>
      (exists k :: 0 <= k < n && UnprobedAt(r, events[..n], k)) || UnprobedAt(r, events, n)
  {
    hide After, StartsUnprobed;
    var n := |events| - 1;
    forall k | 0 <= k < n
      ensures UnprobedAt(r, events[..n], k) <==> UnprobedAt(r, events, k)
    {
      assert events[..n][..k] == events[..k];
    }
    if k :| 0 <= k < |events| && UnprobedAt(r, events, k) && k < n {
      assert UnprobedAt(r, events[..n], k);
    }
    if k :| 0 <= k < n && UnprobedAt(r, events[..n], k) {
      assert UnprobedAt(r, events, k);
    }
  }

  /** Over any run on a truthful port without idempotence, a second execution exists if and only if some call
      started unprobed while there was one. */
  lemma {:induction false} SecondExecutionInARunIff(r: Record, events: seq<Event>)
    requires r.kind == RUN_START && TruthfulRun(r, 0, false, events)
    ensures After(r, 0, false, events).record.kind == RUN_START
    ensures After(r, 0, false, events).world >= 2 <==> exists k :: 0 <= k < |events| && UnprobedAt(r, events, k)
  {
    hide Reconcile, StartsUnprobed;
    if events != [] {
      var n := |events| - 1;
      forall i | 0 <= i < n
        ensures Truthful(After(r, 0, false, events[..n][..i]).world, events[..n][i].rep)
      {
        assert events[..n][..i] == events[..i];
      }
      SecondExecutionInARunIff(r, events[..n]);
      var before := After(r, 0, false, events[..n]);
      CallAddsIff(before.record, before.world, events[n].rep, events[n].now);
      UnprobedPrefix(r, events);
      NothingUnprobedYet(before.record, before.world, events[n].rep, events[n].now);
    }
  }

  lemma {:induction false} NothingUnprobedYet(r: Record, w: World, rep: Replies, now: int)
    ensures StartsUnprobed(r, w, rep, now) ==> w >= 1
  {
  }

  /** A lost reply is reported as ambiguous, and the probe finds an execution that is not dead. */
  predicate Candid(rep: Replies) {
    && (rep.start.StartRaises? && rep.start.tookEffect ==> Normalize(rep.start.exn).ambiguity)
    && (rep.status.StatusSays? ==>
          || rep.status.state in {ExecRunning, ExecWaiting, ExecCompleted}
          || (rep.status.error.Some? && rep.status.error.value.category in {NotFound, Unavailable}))
  }

  /** Whoever holds the record knows that an execution may exist, or can no longer start one. */
  predicate Guarded(r: Record, now: int) { r.status == AMBIGUOUS || Terminal(r) || Expired(r, now) }

  lemma CandidCall(r: Record, w: World, rep: Replies, now: int)
    requires r.kind == RUN_START && Truthful(w, rep) && Candid(rep)
    requires w <= 1 && (w == 1 ==> Guarded(r, now))
    ensures
      var o := Reconcile(r, w, false, rep, now);
      o.world <= 1 && o.record.kind == RUN_START && o.record.validUntil == r.validUntil
      && (o.world == 1 ==> Guarded(o.record, now))
  {
  }

  predicate InOrder(events: seq<Event>) { forall i, j :: 0 <= i < j < |events| ==> events[i].now <= events[j].now }

  /**
   The AMBIGUOUS state alone is enough even on a port that is not idempotent, as long as
   every lost reply is reported as ambiguous: still at most one execution over any run
   under a clock that never goes back, whether or not the key expires on the way.
   */
  lemma {:induction false} CandidPortNeedsNoIdempotence(r: Record, events: seq<Event>)
    requires Fresh(r) && r.kind == RUN_START && InOrder(events) && TruthfulRun(r, 0, false, events)
    requires forall i :: 0 <= i < |events| ==> Candid(events[i].rep)
    ensures
      var o := After(r, 0, false, events);
      && o.world <= 1 && o.record.kind == RUN_START && o.record.validUntil == r.validUntil
      && (o.world == 1 ==> events != [] && Guarded(o.record, events[|events| - 1].now))
  {
    hide Reconcile;
    if events != [] {
      var n := |events| - 1;
      forall i | 0 <= i < n
        ensures Truthful(After(r, 0, false, events[..n][..i]).world, events[..n][i].rep)
      {
        assert events[..n][..i] == events[..i];
      }
      assert InOrder(events[..n]);
      CandidPortNeedsNoIdempotence(r, events[..n]);
      var before := After(r, 0, false, events[..n]);
      if before.world == 1 {
        assert events[..n][n - 1] == events[n - 1];
        assert events[n - 1].now <= events[n].now;
      }
      CandidCall(before.record, before.world, events[n].rep, events[n].now);
    }
  }

  /**
   A connection error is normalised as not ambiguous. When it hides a start that took
   effect, the record becomes FAILED and the next call starts again without asking: the
   at-most-one promise then rests on the port's idempotence alone.
   */
  lemma LostConnectionStartsTwice(r: Record, state: ExecutionState)
    requires Fresh(r) && r.kind == RUN_START && r.maxAttempts >= 2 && r.validUntil == None
    ensures
      var lost := Replies(FindSays(false), StatusSays(state, None), StartRaises(ConnectionExn, true), SignalRaises(OtherExn), NoHandler);
      var clean := lost.(start := StartReturns, find := FindSays(true));
      var events := [Event(lost, 0), Event(clean, 1)];
      && TruthfulRun(r, 0, false, events)
      && After(r, 0, false, events).world == 2
      && After(r, 0, true, events).world == 1
  {
    var lost := Replies(FindSays(false), StatusSays(state, None), StartRaises(ConnectionExn, true), SignalRaises(OtherExn), NoHandler);
    var clean := lost.(start := StartReturns, find := FindSays(true));
    var events := [Event(lost, 0), Event(clean, 1)];
    assert events[..0] == [] && events[..1] == [Event(lost, 0)] && [Event(lost, 0)][..0] == [];
    assert After(r, 0, false, events[..1]).world == 1;
    assert After(r, 0, true, events[..1]).world == 1;
  }
}
