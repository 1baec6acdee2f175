/**
 Submitting a request: an idempotency key collapses repeated deliveries to one Request,
 and a Request becomes exactly one Goal with its first Work. The request table, the Goals
 and the event log are durable; the request-to-Goal cache dies with the server. A submit
 may fail or crash at any point inside.
 */
module Submission {
  import opened Common

  type Id = int

  const MAX_TEXT := 4000

  datatype Transport = Web | Discord

  /** The scope of an idempotency key: user, namespace and value (the version is fixed). */
  datatype Scope = Scope(user: string, via: Transport, value: string)

  datatype Request = Request(user: string, text: string)
  datatype Delivery = Delivery(request: Id, scope: Scope)
  datatype Goal = Goal(id: Id, user: string, title: string)
  datatype Work = Work(id: Id, goal: Id, title: string)

  /** A provenance event; `created` marks goal.created, `ref` is its external reference. */
  datatype Event = Event(goal: Id, created: bool, ref: Option<Id>)

  /** `next` is the id supply: ids never repeat. */
  datatype State = State(
    keys: map<Scope, Id>, requests: map<Id, Request>, deliveries: seq<Delivery>,
    goals: seq<Goal>, works: seq<Work>, events: seq<Event>,
    cache: map<Id, Id>, next: Id)

  datatype Reply = Done(goal: Id, isNew: bool) | Empty | Failed

  /** Where a submit stops: an exception and a process death leave the same durable state. */
  datatype Crash = NoCrash | AfterIngest | AfterGoal | AfterWork

  function Cut(text: string): string { if |text| <= MAX_TEXT then text else text[..MAX_TEXT] }

  // ---------------------------------------------------------------------------
  // Pieces of a submit
  // ---------------------------------------------------------------------------

  function Ingested(s: State, scope: Scope, text: string): State {
    if scope in s.keys then
      s.(deliveries := s.deliveries + [Delivery(s.keys[scope], scope)])
    else
      s.(keys := s.keys[scope := s.next], requests := s.requests[s.next := Request(scope.user, text)],
         deliveries := s.deliveries + [Delivery(s.next, scope)], next := s.next + 1)
  }

  predicate Names(e: Event, goal: Id, request: Id) { e.created && e.goal == goal && e.ref == Some(request) }

  predicate Logged(events: seq<Event>, goal: Id, request: Id) {
    exists i :: 0 <= i < |events| && Names(events[i], goal, request)
  }

  /** The first of the user's Goals whose log has the goal.created event of the request. */
  function Lookup(goals: seq<Goal>, events: seq<Event>, user: string, request: Id): Option<Id> {
    if goals == [] then None
    else if goals[0].user == user && Logged(events, goals[0].id, request) then Some(goals[0].id)
    else Lookup(goals[1..], events, user, request)
  }

  function WithGoal(s: State, user: string, title: string, request: Id): State {
    s.(goals := s.goals + [Goal(s.next, user, title)], events := s.events + [Event(s.next, true, Some(request))], next := s.next + 1)
  }

  function WithWork(s: State, goal: Id, title: string): State {
    s.(works := s.works + [Work(s.next, goal, title)], events := s.events + [Event(goal, false, None)], next := s.next + 1)
  }

  /** The tail of a submit that found no Goal: Goal, Work, cache entry. */
  function Created(s: State, user: string, title: string, request: Id, isNew: bool, crash: Crash): (State, Reply) {
    var goal := s.next;
    var s2 := WithGoal(s, user, title, request);
    if crash == AfterGoal then (s2, Failed)
    else
      var s3 := WithWork(s2, goal, title);
      if crash == AfterWork then (s3, Failed)
      else (s3.(cache := s3.cache[request := goal]), Done(goal, isNew))
  }

  /** `submit` and `submit_from_discord`: state and reply, up to the point where it stops. */
  function Submitted(s: State, scope: Scope, text: string, crash: Crash): (State, Reply) {
    if text == "" then (s, Empty)
    else
      var isNew := scope !in s.keys;
      var s1 := Ingested(s, scope, Cut(text));
      if crash == AfterIngest then (s1, Failed)
      else
        var request := s1.keys[scope];
        var found :=
          if request in s1.cache then Some(s1.cache[request])
          else if isNew then None
          else Lookup(s1.goals, s1.events, scope.user, request);
        if found.Some? then (s1.(cache := s1.cache[request := found.value]), Done(found.value, isNew))
        else Created(s1, scope.user, Cut(text), request, isNew, crash)
  }

  // ---------------------------------------------------------------------------
  // The server object
  // ---------------------------------------------------------------------------

  class WebControl {
    var keys: map<Scope, Id>
    var requests: map<Id, Request>
    var deliveries: seq<Delivery>
    var goals: seq<Goal>
    var works: seq<Work>
    var events: seq<Event>
    var cache: map<Id, Id>
    var next: Id

    ghost function Value(): State
      reads this
    {
      State(keys, requests, deliveries, goals, works, events, cache, next)
    }

    constructor ()
      ensures Value() == Initial
    {
      keys, requests, deliveries := map[], map[], [];
      goals, works, events := [], [], [];
      cache, next := map[], 0;
    }

    /** The cold path: walk the user's Goals and the event log of each. */
    method FindGoalByRequest(user: string, request: Id) returns (r: Option<Id>)
      ensures r == Lookup(goals, events, user, request)
    {
      for g := 0 to |goals|
        invariant Lookup(goals, events, user, request) == Lookup(goals[g..], events, user, request)
      {
        assert goals[g..][1..] == goals[g + 1..];
        if goals[g].user == user {
          for e := 0 to |events|
            invariant forall i :: 0 <= i < e ==> !Names(events[i], goals[g].id, request)
          {
            if events[e].created && events[e].goal == goals[g].id && events[e].ref == Some(request) {
              return Some(goals[g].id);
            }
          }
        }
      }
      r := None;
    }

    method Ingest(scope: Scope, text: string) returns (request: Id, isNew: bool)
      modifies this
      ensures Value() == Ingested(old(Value()), scope, text)
      ensures scope in keys && request == keys[scope] && isNew == (scope !in old(keys))
    {
      isNew := scope !in keys;
      if isNew {
        request := next;
        next := next + 1;
        requests := requests[request := Request(scope.user, text)];
        keys := keys[scope := request];
      } else {
        request := keys[scope];
      }
      deliveries := deliveries + [Delivery(request, scope)];
    }

    method Submit(scope: Scope, text: string, crash: Crash) returns (reply: Reply)
      modifies this
      ensures (Value(), reply) == Submitted(old(Value()), scope, text, crash)
    {
      if text == "" {
        return Empty;
      }
      var title := if |text| <= MAX_TEXT then text else text[..MAX_TEXT];
      var request, isNew := Ingest(scope, title);
      if crash == AfterIngest {
        return Failed;
      }
      var found := if request in cache then Some(cache[request]) else None;
      if found == None && !isNew {
        found := FindGoalByRequest(scope.user, request);
      }
      if found.Some? {
        cache := cache[request := found.value];
        return Done(found.value, isNew);
      }
      var goal := next;
      next := next + 1;
      goals := goals + [Goal(goal, scope.user, title)];
      events := events + [Event(goal, true, Some(request))];
      if crash == AfterGoal {
        return Failed;
      }
      works := works + [Work(next, goal, title)];
      events := events + [Event(goal, false, None)];
      next := next + 1;
      if crash == AfterWork {
        return Failed;
      }
      cache := cache[request := goal];
      reply := Done(goal, isNew);
    }

    method Restart()
      modifies this`cache
      ensures cache == map[]
    {
      cache := map[];
    }
  }

  // ---------------------------------------------------------------------------
  // Runs
  // ---------------------------------------------------------------------------

  datatype Action =
    | Submit(scope: Scope, text: string, crash: Crash)
    | Restart
    | OtherGoal(user: string, title: string)     // a Goal that no request asked for
    | OtherWork(goal: Id, title: string)         // e.g. a retry of a broken Work

  const Initial := State(map[], map[], [], [], [], [], map[], 0)

  function Next(s: State, a: Action): State {
    match a
    case Submit(scope, text, crash) => Submitted(s, scope, text, crash).0
    case Restart => s.(cache := map[])
    case OtherGoal(user, title) =>
      s.(goals := s.goals + [Goal(s.next, user, title)], events := s.events + [Event(s.next, true, None)], next := s.next + 1)
    case OtherWork(goal, title) =>
      if exists i :: 0 <= i < |s.goals| && s.goals[i].id == goal then WithWork(s, goal, title) else s
  }

  function After(s: State, acts: seq<Action>): State {
    if acts == [] then s else Next(After(s, acts[..|acts| - 1]), acts[|acts| - 1])
  }

  /** The Goals a scope owns: those the event log ties to its request. */
  ghost predicate Owns(s: State, scope: Scope, goal: Id) {
    scope in s.keys && Logged(s.events, goal, s.keys[scope])
  }

  // ---------------------------------------------------------------------------
  // The invariant
  // ---------------------------------------------------------------------------

  /** What the event log says: which request each goal.created event names, and for which Goal. */
  function Links(events: seq<Event>): set<(Id, Id)> {
    set i | 0 <= i < |events| && events[i].created && events[i].ref.Some? :: (events[i].ref.value, events[i].goal)
  }

  function Owners(goals: seq<Goal>): set<(Id, string)> {
    set i | 0 <= i < |goals| :: (goals[i].id, goals[i].user)
  }

  lemma LinksAppend(events: seq<Event>, e: Event)
    ensures Links(events + [e]) == Links(events) + (if e.created && e.ref.Some? then {(e.ref.value, e.goal)} else {})
  {
    var more := events + [e];
    assert forall i :: 0 <= i < |events| ==> more[i] == events[i];
    assert more[|events|] == e;
    forall l | l in Links(events)
      ensures l in Links(more)
    {
      var i :| 0 <= i < |events| && events[i].created && events[i].ref.Some? && l == (events[i].ref.value, events[i].goal);
      assert more[i] == events[i];
    }
  }

  lemma OwnersAppend(goals: seq<Goal>, g: Goal)
    ensures Owners(goals + [g]) == Owners(goals) + {(g.id, g.user)}
  {
    var more := goals + [g];
    assert more[|goals|] == g;
    forall o | o in Owners(goals)
      ensures o in Owners(more)
    {
      var i :| 0 <= i < |goals| && o == (goals[i].id, goals[i].user);
      assert more[i] == goals[i];
    }
  }

  lemma LoggedIsLink(events: seq<Event>, goal: Id, request: Id)
    ensures Logged(events, goal, request) <==> (request, goal) in Links(events)
  {
  }

  ghost predicate KeysOk(s: State) {
    && (forall k :: k in s.keys ==>
          s.keys[k] < s.next && s.keys[k] in s.requests && s.requests[s.keys[k]].user == k.user)
    && (forall k, l :: k in s.keys && l in s.keys && s.keys[k] == s.keys[l] ==> k == l)
    && (forall r :: r in s.requests ==> r < s.next)
  }

  /** The log names a request at most once, with a Goal of that request's user. */
  ghost predicate LogOk(links: set<(Id, Id)>, owners: set<(Id, string)>, requests: map<Id, Request>) {
    && (forall l :: l in links ==> l.0 in requests && (l.1, requests[l.0].user) in owners)
    && (forall l, m :: l in links && m in links && l.0 == m.0 ==> l.1 == m.1)
  }

  /** The cache never says anything the log does not say. */
  ghost predicate CacheOk(cache: map<Id, Id>, links: set<(Id, Id)>) {
    forall r :: r in cache ==> (r, cache[r]) in links
  }

  ghost predicate Inv(s: State) {
    KeysOk(s) && LogOk(Links(s.events), Owners(s.goals), s.requests) && CacheOk(s.cache, Links(s.events))
  }

  /** The durable part only grows. */
  ghost predicate Grows(s: State, s': State) {
    && (forall k :: k in s.keys ==> k in s'.keys && s'.keys[k] == s.keys[k])
    && Links(s.events) <= Links(s'.events)
  }

  ghost predicate Owned(s: State, scope: Scope, goal: Id) {
    scope in s.keys && (s.keys[scope], goal) in Links(s.events)
  }

  lemma OwnsIsOwned(s: State, scope: Scope, goal: Id)
    ensures Owns(s, scope, goal) <==> Owned(s, scope, goal)
  {
    if scope in s.keys {
      LoggedIsLink(s.events, goal, s.keys[scope]);
    }
  }

  // ---------------------------------------------------------------------------
  // The cold path is exact
  // ---------------------------------------------------------------------------

  lemma {:induction false} LookupFinds(goals: seq<Goal>, events: seq<Event>, user: string, request: Id, g: Id)
    requires (g, user) in Owners(goals) && (request, g) in Links(events)
    requires forall l :: l in Links(events) && l.0 == request ==> l.1 == g
    ensures Lookup(goals, events, user, request) == Some(g)
  {
    LoggedIsLink(events, goals[0].id, request);
    if (goals[0].id, goals[0].user) != (g, user) {
      assert [goals[0]] + goals[1..] == goals;
      var i :| 0 <= i < |goals| && (g, user) == (goals[i].id, goals[i].user);
      assert goals[1..][i - 1] == goals[i];
      LookupFinds(goals[1..], events, user, request, g);
    }
  }

  lemma {:induction false} LookupSound(goals: seq<Goal>, events: seq<Event>, user: string, request: Id)
    ensures
      var found := Lookup(goals, events, user, request);
      found.Some? ==> (request, found.value) in Links(events)
  {
    if goals != [] {
      LoggedIsLink(events, goals[0].id, request);
      LookupSound(goals[1..], events, user, request);
    }
  }

  /** In a consistent state the event-log lookup finds a request's Goal exactly when there is one. */
  lemma LookupIsExact(s: State, scope: Scope)
    requires Inv(s) && scope in s.keys
    ensures
      var found := Lookup(s.goals, s.events, scope.user, s.keys[scope]);
      forall g :: Owned(s, scope, g) <==> found == Some(g)
  {
    var request := s.keys[scope];
    LookupSound(s.goals, s.events, scope.user, request);
    forall g | Owned(s, scope, g)
      ensures Lookup(s.goals, s.events, scope.user, request) == Some(g)
    {
      assert (request, g) in Links(s.events);
      LookupFinds(s.goals, s.events, scope.user, request, g);
    }
  }

  // ---------------------------------------------------------------------------
  // Every piece keeps the invariant
  // ---------------------------------------------------------------------------

  lemma IngestKeeps(s: State, scope: Scope, text: string)
    requires Inv(s)
    ensures
      var s1 := Ingested(s, scope, text);
      && Inv(s1) && Grows(s, s1) && scope in s1.keys
      && (scope !in s.keys ==> forall g :: !Owned(s1, scope, g))
  {
    hide Links, Owners, KeysOk;
    IngestKeepsKeys(s, scope, text);
    NextIsNoRequest(s);
  }

  lemma {:induction false} NextIsNoRequest(s: State)
    requires KeysOk(s)
    ensures s.next !in s.requests
  {
  }

  lemma {:induction false} IngestKeepsKeys(s: State, scope: Scope, text: string)
    requires KeysOk(s)
    ensures KeysOk(Ingested(s, scope, text))
  {
  }

  /** Appending a Goal with its creation event, for a request the log does not name yet (or for none). */
  lemma AppendGoalKeeps(s: State, user: string, title: string, ref: Option<Id>)
    requires Inv(s)
    requires ref.Some? ==> ref.value in s.requests && s.requests[ref.value].user == user
    requires ref.Some? ==> forall g :: (ref.value, g) !in Links(s.events)
    ensures
      var s' := s.(goals := s.goals + [Goal(s.next, user, title)], events := s.events + [Event(s.next, true, ref)], next := s.next + 1);
      && Inv(s') && Grows(s, s')
      && Links(s'.events) == Links(s.events) + (if ref.Some? then {(ref.value, s.next)} else {})
  {
    hide Links, Owners;
    LinksAppend(s.events, Event(s.next, true, ref));
    OwnersAppend(s.goals, Goal(s.next, user, title));
  }

  lemma WorkKeeps(s: State, goal: Id, title: string)
    requires Inv(s)
    ensures Inv(WithWork(s, goal, title)) && Grows(s, WithWork(s, goal, title))
    ensures Links(WithWork(s, goal, title).events) == Links(s.events)
  {
    hide Links, Owners;
    LinksAppend(s.events, Event(goal, false, None));
  }

  /** What every submit guarantees: the invariant, growth, and that a completed one answers with the scope's Goal. */
  ghost predicate SubmitOk(s: State, scope: Scope, o: (State, Reply)) {
    Inv(o.0) && Grows(s, o.0) && (o.1.Done? ==> Owned(o.0, scope, o.1.goal))
  }

  /** A scope that already owns a Goal is answered with it; nothing is created. */
  lemma SubmitFound(s: State, scope: Scope, text: string, crash: Crash, g: Id)
    requires Inv(s) && text != "" && crash != AfterIngest && Owned(s, scope, g)
    ensures SubmitOk(s, scope, Submitted(s, scope, text, crash))
    ensures Submitted(s, scope, text, crash).1 == Done(g, false)
    ensures Submitted(s, scope, text, crash).0.works == s.works
  {
    hide Lookup, Links, Owners;
    IngestKeeps(s, scope, Cut(text));
    LookupIsExact(Ingested(s, scope, Cut(text)), scope);
    assert Owned(Ingested(s, scope, Cut(text)), scope, g);
  }

  lemma CreatedKeeps(s: State, scope: Scope, title: string, isNew: bool, crash: Crash)
    requires Inv(s) && scope in s.keys && forall g :: !Owned(s, scope, g)
    ensures
      var o := Created(s, scope.user, title, s.keys[scope], isNew, crash);
      && SubmitOk(s, scope, o) && Owned(o.0, scope, s.next)
      && o.0.works == (if crash == AfterGoal then s.works else s.works + [Work(s.next + 1, s.next, title)])
  {
    hide Links, Owners, Inv;
    var request := s.keys[scope];
    KeyBelongsToUser(s, scope);
    forall g
      ensures (request, g) !in Links(s.events)
    {
      assert !Owned(s, scope, g);
    }
    AppendGoalKeeps(s, scope.user, title, Some(request));
    var s2 := WithGoal(s, scope.user, title, request);
    assert Owned(s2, scope, s.next) && s2.works == s.works;
    WorkKeeps(s2, s.next, title);
    var s3 := WithWork(s2, s.next, title);
    assert Owned(s3, scope, s.next) && s3.works == s.works + [Work(s.next + 1, s.next, title)];
    CacheKeeps(s3, request, s.next);
  }

  lemma KeyBelongsToUser(s: State, scope: Scope)
    requires Inv(s) && scope in s.keys
    ensures s.keys[scope] in s.requests && s.requests[s.keys[scope]].user == scope.user
  {
  }

  lemma CacheKeeps(s: State, request: Id, goal: Id)
    requires Inv(s) && (request, goal) in Links(s.events)
    ensures Inv(s.(cache := s.cache[request := goal]))
  {
    hide Links, Owners;
  }

  lemma SubmitReachesCreate(s: State, scope: Scope, text: string, crash: Crash)
    requires Inv(s) && text != "" && crash != AfterIngest && forall g :: !Owned(s, scope, g)
    ensures
      var s1 := Ingested(s, scope, Cut(text));
      && Inv(s1) && Grows(s, s1) && scope in s1.keys && (forall g :: !Owned(s1, scope, g))
      && Submitted(s, scope, text, crash) == Created(s1, scope.user, Cut(text), s1.keys[scope], scope !in s.keys, crash)
  {
    hide Lookup, Links, Owners, Created;
    IngestKeeps(s, scope, Cut(text));
    var s1 := Ingested(s, scope, Cut(text));
    forall g
      ensures !Owned(s1, scope, g)
    {
      assert !Owned(s, scope, g);
    }
    LookupIsExact(s1, scope);
    forall r | r in s1.cache
      ensures r != s1.keys[scope]
    {
      assert !Owned(s1, scope, s1.cache[r]);
    }
  }

  /** A scope without a Goal gets a fresh one, and its first Work unless the submit stops in between. */
  lemma SubmitCreates(s: State, scope: Scope, text: string, crash: Crash)
    requires Inv(s) && text != "" && crash != AfterIngest && forall g :: !Owned(s, scope, g)
    ensures SubmitOk(s, scope, Submitted(s, scope, text, crash))
    ensures
      var s' := Submitted(s, scope, text, crash).0;
      var goal := if scope in s.keys then s.next else s.next + 1;
      && Owned(s', scope, goal)
      && s'.works == (if crash == AfterGoal then s.works else s.works + [Work(goal + 1, goal, Cut(text))])
  {
    hide Submitted, Created, Links, Inv;
    SubmitReachesCreate(s, scope, text, crash);
    CreatedKeeps(Ingested(s, scope, Cut(text)), scope, Cut(text), scope !in s.keys, crash);
  }

  lemma SubmitKeeps(s: State, scope: Scope, text: string, crash: Crash)
    requires Inv(s)
    ensures SubmitOk(s, scope, Submitted(s, scope, text, crash))
  {
    hide Inv, Links;
    if text == "" || crash == AfterIngest {
      IngestKeeps(s, scope, Cut(text));
    } else if g :| Owned(s, scope, g) {
      SubmitFound(s, scope, text, crash, g);
    } else {
      SubmitCreates(s, scope, text, crash);
    }
  }

  lemma NextKeeps(s: State, a: Action)
    requires Inv(s)
    ensures Inv(Next(s, a)) && Grows(s, Next(s, a))
  {
    hide Submitted, Links, Owners;
    match a
    case Submit(scope, text, crash) => SubmitKeeps(s, scope, text, crash);
    case OtherGoal(user, title) => AppendGoalKeeps(s, user, title, None);
    case OtherWork(goal, title) => WorkKeeps(s, goal, title);
    case Restart =>
  }

  lemma {:induction false} ReachableInv(acts: seq<Action>)
    ensures Inv(After(Initial, acts))
  {
    hide Next, Inv;
    if acts == [] {
      InitialInv();
    } else {
      ReachableInv(acts[..|acts| - 1]);
      NextKeeps(After(Initial, acts[..|acts| - 1]), acts[|acts| - 1]);
    }
  }

  lemma InitialInv()
    ensures Inv(Initial)
  {
    assert Links([]) == {};
  }

  // ---------------------------------------------------------------------------
  // Exactly one Goal per scope
  // ---------------------------------------------------------------------------

  /** However submits, failures and restarts mix, a scope owns at most one Goal. */
  lemma OneGoalPerScope(acts: seq<Action>, scope: Scope, g: Id, h: Id)
    requires Owns(After(Initial, acts), scope, g) && Owns(After(Initial, acts), scope, h)
    ensures g == h
  {
    ReachableInv(acts);
    var s := After(Initial, acts);
    OwnsIsOwned(s, scope, g);
    OwnsIsOwned(s, scope, h);
    assert (s.keys[scope], g) in Links(s.events) && (s.keys[scope], h) in Links(s.events);
  }

  lemma {:induction false} OwnerNeverChanges(before: seq<Action>, later: seq<Action>, scope: Scope, g: Id)
    requires Owned(After(Initial, before), scope, g)
    ensures Owned(After(Initial, before + later), scope, g)
  {
    hide Next, Links, Inv;
    if later == [] {
      assert before + later == before;
    } else {
      var n := |later| - 1;
      OwnerNeverChanges(before, later[..n], scope, g);
      assert (before + later)[..|before| + n] == before + later[..n];
      ReachableInv(before + later[..n]);
      NextKeeps(After(Initial, before + later[..n]), later[n]);
    }
  }

  /** A completed submit answers with the Goal its scope owns. */
  lemma CompletedSubmitOwnsItsGoal(acts: seq<Action>, scope: Scope, text: string, crash: Crash)
    requires Submitted(After(Initial, acts), scope, text, crash).1.Done?
    ensures
      var o := Submitted(After(Initial, acts), scope, text, crash);
      Owns(o.0, scope, o.1.goal)
  {
    hide Submitted, Inv, Links;
    ReachableInv(acts);
    SubmitKeeps(After(Initial, acts), scope, text, crash);
    var o := Submitted(After(Initial, acts), scope, text, crash);
    OwnsIsOwned(o.0, scope, o.1.goal);
  }

  /** Two completed submits of one scope, with anything in between, answer with the same Goal. */
  lemma EveryCompletedSubmitAgrees(before: seq<Action>, later: seq<Action>, scope: Scope, text: string, again: string, crash: Crash, crash': Crash)
    requires Submitted(After(Initial, before), scope, text, crash).1.Done?
    requires
      var mid := before + [Submit(scope, text, crash)] + later;
      Submitted(After(Initial, mid), scope, again, crash').1.Done?
    ensures
      var mid := before + [Submit(scope, text, crash)] + later;
      Submitted(After(Initial, mid), scope, again, crash') ==
        (Submitted(After(Initial, mid), scope, again, crash').0, Done(Submitted(After(Initial, before), scope, text, crash).1.goal, false))
  {
    hide Submitted, Inv, Links;
    var first := before + [Submit(scope, text, crash)];
    ReachableInv(before);
    SubmitKeeps(After(Initial, before), scope, text, crash);
    assert first[..|before|] == before;
    var g := Submitted(After(Initial, before), scope, text, crash).1.goal;
    assert Owned(After(Initial, first), scope, g);
    OwnerNeverChanges(first, later, scope, g);
    ReachableInv(first + later);
    DoneMeansPastIngest(After(Initial, first + later), scope, again, crash');
    SubmitFound(After(Initial, first + later), scope, again, crash', g);
  }

  lemma DoneMeansPastIngest(s: State, scope: Scope, text: string, crash: Crash)
    requires Submitted(s, scope, text, crash).1.Done?
    ensures text != "" && crash != AfterIngest
  {
  }

  /** The cache always agrees with the event-log lookup it short-cuts. */
  lemma CacheAgreesWithLog(acts: seq<Action>, scope: Scope)
    requires scope in After(Initial, acts).keys && After(Initial, acts).keys[scope] in After(Initial, acts).cache
    ensures
      var s := After(Initial, acts);
      Lookup(s.goals, s.events, scope.user, s.keys[scope]) == Some(s.cache[s.keys[scope]])
  {
    ReachableInv(acts);
    var s := After(Initial, acts);
    LookupIsExact(s, scope);
    assert Owned(s, scope, s.cache[s.keys[scope]]);
  }

  // ---------------------------------------------------------------------------
  // The first Work of a Goal
  // ---------------------------------------------------------------------------

  ghost predicate HasWork(s: State, g: Id) {
    exists i :: 0 <= i < |s.works| && s.works[i].goal == g
  }

  /** Goals and the Goals that Works point at were issued by the id supply. */
  ghost predicate IdsOk(s: State) {
    && (forall i :: 0 <= i < |s.goals| ==> s.goals[i].id < s.next)
    && (forall i :: 0 <= i < |s.works| ==> s.works[i].goal < s.next)
  }

  lemma SubmitIds(s: State, scope: Scope, text: string, crash: Crash)
    requires IdsOk(s)
    ensures IdsOk(Submitted(s, scope, text, crash).0)
  {
    hide Lookup, Cut;
  }

  lemma {:induction false} IdsAreIssued(acts: seq<Action>)
    ensures IdsOk(After(Initial, acts))
  {
    hide Submitted;
    if acts != [] {
      var n := |acts| - 1;
      IdsAreIssued(acts[..n]);
      var a := acts[n];
      if a.Submit? {
        SubmitIds(After(Initial, acts[..n]), a.scope, a.text, a.crash);
      }
    }
  }

  /** New ids are new: no two Goals, no two Works, and no Goal and Work share one. */
  ghost predicate IdsDiffer(s: State) {
    && (forall i :: 0 <= i < |s.goals| ==> s.goals[i].id < s.next)
    && (forall i :: 0 <= i < |s.works| ==> s.works[i].id < s.next)
    && (forall i, j :: 0 <= i < j < |s.goals| ==> s.goals[i].id != s.goals[j].id)
    && (forall i, j :: 0 <= i < j < |s.works| ==> s.works[i].id != s.works[j].id)
    && (forall i, j :: 0 <= i < |s.goals| && 0 <= j < |s.works| ==> s.goals[i].id != s.works[j].id)
  }

  lemma {:induction false} GoalDiffers(s: State, user: string, title: string, request: Id)
    requires IdsDiffer(s)
    ensures IdsDiffer(WithGoal(s, user, title, request))
  {
  }

  lemma {:induction false} WorkDiffers(s: State, goal: Id, title: string)
    requires IdsDiffer(s)
    ensures IdsDiffer(WithWork(s, goal, title))
  {
  }

  lemma {:induction false} SubmitDiffers(s: State, scope: Scope, text: string, crash: Crash)
    requires IdsDiffer(s)
    ensures IdsDiffer(Submitted(s, scope, text, crash).0)
  {
    hide Lookup, Cut, WithGoal, WithWork, IdsDiffer;
    if text != "" {
      var s1 := Ingested(s, scope, Cut(text));
      assert IdsDiffer(s1) by {
        IngestDiffers(s, scope, Cut(text));
      }
      var request := s1.keys[scope];
      var s2 := WithGoal(s1, scope.user, Cut(text), request);
      GoalDiffers(s1, scope.user, Cut(text), request);
      WorkDiffers(s2, s1.next, Cut(text));
      CacheDiffers(s1, Submitted(s, scope, text, crash).0);
      CacheDiffers(WithWork(s2, s1.next, Cut(text)), Submitted(s, scope, text, crash).0);
    }
  }

  lemma {:induction false} IngestDiffers(s: State, scope: Scope, text: string)
    requires IdsDiffer(s)
    ensures IdsDiffer(Ingested(s, scope, text))
  {
  }

  lemma {:induction false} CacheDiffers(s: State, t: State)
    requires IdsDiffer(s)
    ensures t == s.(cache := t.cache) ==> IdsDiffer(t)
  {
  }

  /** In every run each Goal and each Work has an id of its own. */
  lemma {:induction false} EveryIdIsItsOwn(acts: seq<Action>)
    ensures IdsDiffer(After(Initial, acts))
  {
    hide Submitted;
    if acts != [] {
      var n := |acts| - 1;
      EveryIdIsItsOwn(acts[..n]);
      var s, a := After(Initial, acts[..n]), acts[n];
      hide IdsDiffer, WithWork;
      match a {
        case Submit(scope, text, crash) => SubmitDiffers(s, scope, text, crash);
        case Restart => CacheDiffers(s, Next(s, a));
        case OtherGoal(user, title) => OtherGoalDiffers(s, user, title);
        case OtherWork(goal, title) => WorkDiffers(s, goal, title);
      }
    }
  }

  lemma {:induction false} OtherGoalDiffers(s: State, user: string, title: string)
    requires IdsDiffer(s)
    ensures IdsDiffer(Next(s, OtherGoal(user, title)))
  {
  }

  /** The creating submit gives its Goal a Work if and only if it does not stop right after the Goal. */
  lemma FirstWorkIff(acts: seq<Action>, scope: Scope, text: string, crash: Crash)
    requires text != "" && crash != AfterIngest && forall g :: !Owned(After(Initial, acts), scope, g)
    ensures
      var s := After(Initial, acts);
      var s' := Submitted(s, scope, text, crash).0;
      var goal := if scope in s.keys then s.next else s.next + 1;
      Owned(s', scope, goal) && (HasWork(s', goal) <==> crash != AfterGoal)
  {
    hide Submitted, Inv, Links;
    var s := After(Initial, acts);
    ReachableInv(acts);
    IdsAreIssued(acts);
    SubmitCreates(s, scope, text, crash);
    var s' := Submitted(s, scope, text, crash).0;
    var goal := if scope in s.keys then s.next else s.next + 1;
    if crash != AfterGoal {
      assert s'.works[|s.works|].goal == goal;
    }
  }

  /** The Works of a Goal. */
  function WorksOf(works: seq<Work>, g: Id): seq<Work> {
    if works == [] then []
    else WorksOf(works[..|works| - 1], g) + if works[|works| - 1].goal == g then [works[|works| - 1]] else []
  }

  lemma {:induction false} WorksOfAppend(works: seq<Work>, w: Work, g: Id)
    ensures WorksOf(works + [w], g) == WorksOf(works, g) + if w.goal == g then [w] else []
  {
    assert (works + [w])[..|works|] == works;
  }

  lemma {:induction false} HasWorkIff(s: State, g: Id)
    ensures HasWork(s, g) <==> WorksOf(s.works, g) != []
    decreases |s.works|
  {
    if s.works != [] {
      var n := |s.works| - 1;
      var t := s.(works := s.works[..n]);
      HasWorkIff(t, g);
      if i :| 0 <= i < |s.works| && s.works[i].goal == g && i < n {
        assert t.works[i].goal == g;
      }
      if i :| 0 <= i < |t.works| && t.works[i].goal == g {
        assert s.works[i].goal == g;
      }
    }
  }

  lemma {:induction false} OwnedIsIssued(s: State, scope: Scope, g: Id)
    requires Inv(s) && IdsOk(s) && Owned(s, scope, g)
    ensures g < s.next && exists i :: 0 <= i < |s.goals| && s.goals[i].id == g
  {
    var l := (s.keys[scope], g);
    assert l in Links(s.events) && (l.1, s.requests[l.0].user) in Owners(s.goals);
  }

  /** A submit adds Works only to the Goal it creates. */
  lemma {:induction false} SubmitWorks(s: State, scope: Scope, text: string, crash: Crash, g: Id)
    requires g < s.next
    ensures WorksOf(Submitted(s, scope, text, crash).0.works, g) == WorksOf(s.works, g)
  {
    hide Lookup, Cut, WorksOf;
    var s1 := Ingested(s, scope, Cut(text));
    WorksOfAppend(s.works, Work(s1.next + 1, s1.next, Cut(text)), g);
  }

  predicate AddsWork(a: Action, g: Id) { a.OtherWork? && a.goal == g }

  lemma {:induction false} WorkStep(s: State, a: Action, scope: Scope, g: Id)
    requires Inv(s) && IdsOk(s) && Owned(s, scope, g)
    ensures AddsWork(a, g) ==> WorksOf(Next(s, a).works, g) != []
    ensures !AddsWork(a, g) ==> WorksOf(Next(s, a).works, g) == WorksOf(s.works, g)
  {
    hide Submitted, Inv, Links, WorksOf, Owned;
    OwnedIsIssued(s, scope, g);
    match a {
      case Submit(other, text, crash) => SubmitWorks(s, other, text, crash, g);
      case OtherWork(goal, title) => WorksOfAppend(s.works, Work(s.next, goal, title), g);
      case _ =>
    }
  }

  /**
   No submit of any scope, restart or new Goal ever gives an owned Goal a Work: after any later
   run it has one if and only if it had one before or another part of the system added one. So
   a Goal whose creating submit stopped right after it is never repaired by resubmitting.
   */
  lemma {:induction false} WorkComesOnlyFromElsewhere(before: seq<Action>, later: seq<Action>, scope: Scope, g: Id)
    requires Owned(After(Initial, before), scope, g)
    ensures HasWork(After(Initial, before + later), g) <==>
            HasWork(After(Initial, before), g) || exists n :: 0 <= n < |later| && AddsWork(later[n], g)
    ensures (forall n :: 0 <= n < |later| ==> !AddsWork(later[n], g)) ==>
              WorksOf(After(Initial, before + later).works, g) == WorksOf(After(Initial, before).works, g)
  {
    hide Next, Inv, Owned, WorksOf, AddsWork, HasWork;
    if later == [] {
      assert before + later == before;
    } else {
      var n := |later| - 1;
      var acts := before + later[..n];
      WorkComesOnlyFromElsewhere(before, later[..n], scope, g);
      assert (before + later)[..|before| + n] == acts;
      OwnerNeverChanges(before, later[..n], scope, g);
      ReachableInv(acts);
      IdsAreIssued(acts);
      var s := After(Initial, acts);
      WorkStep(s, later[n], scope, g);
      HasWorkIff(s, g);
      HasWorkIff(Next(s, later[n]), g);
      assert forall m :: 0 <= m < n ==> later[..n][m] == later[m];
      MoreWork(later, g);
    }
  }

  lemma {:induction false} MoreWork(later: seq<Action>, g: Id)
    requires later != []
    ensures
      var n := |later| - 1;
      (exists m :: 0 <= m < |later| && AddsWork(later[m], g)) <==>
      (exists m :: 0 <= m < n && AddsWork(later[..n][m], g)) || AddsWork(later[n], g)
  {
    hide AddsWork;
    var n := |later| - 1;
    if m :| 0 <= m < |later| && AddsWork(later[m], g) && m < n {
      assert AddsWork(later[..n][m], g);
    }
    if m :| 0 <= m < n && AddsWork(later[..n][m], g) {
      assert AddsWork(later[m], g);
    }
  }

  // ---------------------------------------------------------------------------
  // What a submit answers and leaves behind
  // ---------------------------------------------------------------------------

  /** The title is the text, cut at the limit. */
  lemma {:induction false} CutMeans(text: string)
    ensures Cut(text) <= text && |Cut(text)| == if |text| <= MAX_TEXT then |text| else MAX_TEXT
  {
  }

  /** A submit is answered if and only if it has a text and does not stop: past the ingest where the scope owns a Goal,
      past the cache entry where it does not. It says that it is new exactly for a scope never seen. */
  lemma {:induction false} AnsweredIff(acts: seq<Action>, scope: Scope, text: string, crash: Crash)
    ensures
      var s := After(Initial, acts);
      var o := Submitted(s, scope, text, crash);
      && (o.1.Done? <==> text != "" && (crash == NoCrash || (crash != AfterIngest && exists g :: Owned(s, scope, g))))
      && (o.1.Done? ==> (o.1.isNew <==> scope !in s.keys))
      && (text == "" ==> o == (s, Empty))
      && (text != "" && !o.1.Done? ==> o.1 == Failed)
  {
    var s := After(Initial, acts);
    ReachableInv(acts);
    hide After, Inv;
    if text != "" && crash != AfterIngest {
      if g :| Owned(s, scope, g) {
        SubmitFound(s, scope, text, crash, g);
      } else {
        SubmitCreates(s, scope, text, crash);
        CreatedReply(s, scope, text, crash);
      }
    }
  }

  lemma {:induction false} CreatedReply(s: State, scope: Scope, text: string, crash: Crash)
    requires Inv(s) && text != "" && crash != AfterIngest && forall g :: !Owned(s, scope, g)
    ensures
      var o := Submitted(s, scope, text, crash);
      && (o.1.Done? <==> crash == NoCrash) && (o.1.Done? ==> (o.1.isNew <==> scope !in s.keys))
      && (!o.1.Done? ==> o.1 == Failed)
  {
    hide Links, Owners, Cut;
    var s1 := Ingested(s, scope, Cut(text));
    NothingFound(s, scope);
  }

  /** Where a scope owns no Goal, neither the cache nor the log has one for its request. */
  lemma {:induction false} NothingFound(s: State, scope: Scope)
    requires Inv(s) && forall g :: !Owned(s, scope, g)
    ensures scope in s.keys ==> s.keys[scope] !in s.cache && Lookup(s.goals, s.events, scope.user, s.keys[scope]) == None
    ensures scope !in s.keys ==> s.next !in s.cache
  {
    hide Lookup;
    FoundIsOwned(s, scope);
  }

  lemma {:induction false} FoundIsOwned(s: State, scope: Scope)
    requires Inv(s)
    ensures scope in s.keys && s.keys[scope] in s.cache ==> Owned(s, scope, s.cache[s.keys[scope]])
    ensures scope in s.keys && Lookup(s.goals, s.events, scope.user, s.keys[scope]).Some? ==>
              Owned(s, scope, Lookup(s.goals, s.events, scope.user, s.keys[scope]).value)
    ensures s.next !in s.cache
  {
    hide Lookup;
    if scope in s.keys {
      LookupSound(s.goals, s.events, scope.user, s.keys[scope]);
    }
  }

  /** The lookup finds the first of the user's Goals, in order, that the log ties to the request. */
  lemma {:induction false} LookupMeans(goals: seq<Goal>, events: seq<Event>, user: string, request: Id, n: nat)
    ensures Lookup(goals, events, user, request) == None <==>
            forall m :: 0 <= m < |goals| ==> !(goals[m].user == user && Logged(events, goals[m].id, request))
    ensures n < |goals| && goals[n].user == user && Logged(events, goals[n].id, request)
            && (forall m :: 0 <= m < n ==> !(goals[m].user == user && Logged(events, goals[m].id, request))) ==>
              Lookup(goals, events, user, request) == Some(goals[n].id)
  {
    hide Logged;
    if goals != [] {
      LookupMeans(goals[1..], events, user, request, if n > 0 then n - 1 else 0);
      assert forall m :: 0 < m < |goals| ==> goals[m] == goals[1..][m - 1];
      if !(goals[0].user == user && Logged(events, goals[0].id, request)) {
        if Lookup(goals, events, user, request) == None {
          forall m | 0 <= m < |goals|
            ensures !(goals[m].user == user && Logged(events, goals[m].id, request))
          {
            assert m > 0 ==> goals[1..][m - 1] == goals[m];
          }
        }
        if n > 0 && n < |goals| {
          assert goals[1..][n - 1] == goals[n];
          assert forall m :: 0 <= m < n - 1 ==> goals[1..][m] == goals[m + 1];
        }
      }
    }
  }

  /** What a submit that stops leaves of its Goal, Work and cache entry. */
  lemma {:induction false} StoppedLeaves(acts: seq<Action>, scope: Scope, text: string, crash: Crash)
    requires text != "" && crash != NoCrash && forall g :: !Owned(After(Initial, acts), scope, g)
    ensures
      var s, d := After(Initial, acts), Submitted(After(Initial, acts), scope, text, crash).0;
      var goal, title := (if scope in s.keys then s.next else s.next + 1), Cut(text);
      && scope in d.keys && d.cache == s.cache
      && d.goals == s.goals + (if crash == AfterIngest then [] else [Goal(goal, scope.user, title)])
      && d.works == s.works + (if crash == AfterWork then [Work(goal + 1, goal, title)] else [])
  {
    var s := After(Initial, acts);
    ReachableInv(acts);
    hide After, Links, Owners, Cut;
    NothingFound(s, scope);
  }

  /** A submit for a scope that owns a Goal records the delivery and the cache entry, and nothing else. */
  lemma {:induction false} ResubmitLeaves(acts: seq<Action>, scope: Scope, text: string, crash: Crash, g: Id)
    requires text != "" && Owned(After(Initial, acts), scope, g)
    ensures
      var s, o := After(Initial, acts), Submitted(After(Initial, acts), scope, text, crash);
      && o.0 == s.(deliveries := s.deliveries + [Delivery(s.keys[scope], scope)],
                   cache := if crash == AfterIngest then s.cache else s.cache[s.keys[scope] := g])
      && (crash != AfterIngest ==> o.1 == Done(g, false))
  {
    var s := After(Initial, acts);
    ReachableInv(acts);
    hide After;
    LookupIsExact(s, scope);
    OwnedOnce(s, scope, g);
    hide Links, Owners, Cut, Lookup;
  }

  lemma {:induction false} OwnedOnce(s: State, scope: Scope, g: Id)
    requires Inv(s) && Owned(s, scope, g)
    ensures Lookup(s.goals, s.events, scope.user, s.keys[scope]) == Some(g)
    ensures s.keys[scope] in s.cache ==> s.cache[s.keys[scope]] == g
  {
    hide Lookup, Owners;
    LookupIsExact(s, scope);
    if s.keys[scope] in s.cache {
      assert (s.keys[scope], s.cache[s.keys[scope]]) in Links(s.events);
    }
  }

  /** The first submit of a scope, undisturbed: a Goal and a Work of its user with the cut text as title, a Request
      that holds it, the events of both, and the cache entry; nothing else changes. */
  lemma {:induction false} FirstSubmitCreates(acts: seq<Action>, scope: Scope, text: string)
    requires text != "" && scope !in After(Initial, acts).keys
    ensures
      var s := After(Initial, acts);
      var o := Submitted(s, scope, text, NoCrash);
      var request, goal, title := s.next, s.next + 1, Cut(text);
      && o.1 == Done(goal, true)
      && o.0.keys == s.keys[scope := request]
      && o.0.requests == s.requests[request := Request(scope.user, title)]
      && o.0.deliveries == s.deliveries + [Delivery(request, scope)]
      && o.0.goals == s.goals + [Goal(goal, scope.user, title)]
      && o.0.works == s.works + [Work(s.next + 2, goal, title)]
      && o.0.events == s.events + [Event(goal, true, Some(request)), Event(goal, false, None)]
      && o.0.cache == s.cache[request := goal]
  {
    var s := After(Initial, acts);
    ReachableInv(acts);
    hide After, Links, Owners, Cut;
    NothingOwnedYet(s, scope);
    NothingFound(s, scope);
    assert s.events + [Event(s.next + 1, true, Some(s.next))] + [Event(s.next + 1, false, None)]
        == s.events + [Event(s.next + 1, true, Some(s.next)), Event(s.next + 1, false, None)];
  }

  lemma {:induction false} NothingOwnedYet(s: State, scope: Scope)
    requires scope !in s.keys
    ensures forall g :: !Owned(s, scope, g)
  {
  }

  /** After every answered submit the cache has its answer, until a restart empties it. */
  lemma {:induction false} AnswerIsCached(acts: seq<Action>, scope: Scope, text: string, crash: Crash)
    requires Submitted(After(Initial, acts), scope, text, crash).1.Done?
    ensures
      var o := Submitted(After(Initial, acts), scope, text, crash);
      && scope in o.0.keys && o.0.keys[scope] in o.0.cache && o.0.cache[o.0.keys[scope]] == o.1.goal
      && Next(o.0, Restart) == o.0.(cache := map[])
  {
    hide After, Lookup, Cut;
  }

  // ---------------------------------------------------------------------------
  // What the promise rests on
  // ---------------------------------------------------------------------------

  /** With a request table that dies with the server, the same key makes a second Goal. */
  lemma VolatileRequestsMakeASecondGoal(acts: seq<Action>, scope: Scope, g: Id, text: string)
    requires Owned(After(Initial, acts), scope, g) && text != ""
    ensures
      var s := After(Initial, acts);
      var lost := s.(keys := map[], requests := map[], cache := map[]);
      var o := Submitted(lost, scope, text, NoCrash);
      && o.1.Done? && o.1.isNew && o.1.goal != g
      && Links(s.events) <= Links(o.0.events) && (o.0.keys[scope], o.1.goal) in Links(o.0.events)
      && exists i :: 0 <= i < |o.0.goals| && o.0.goals[i].id == g
  {
    ReachableInv(acts);
    IdsAreIssued(acts);
    var s := After(Initial, acts);
    hide After, Inv;
    OwnedIsIssued(s, scope, g);
    var lost := s.(keys := map[], requests := map[], cache := map[]);
    var s1 := Ingested(lost, scope, Cut(text));
    LinksAppend(s1.events, Event(s1.next, true, Some(s.next)));
    LinksAppend(s1.events + [Event(s1.next, true, Some(s.next))], Event(s1.next, false, None));
    var o := Submitted(lost, scope, text, NoCrash);
    var i :| 0 <= i < |s.goals| && s.goals[i].id == g;
    assert o.0.goals[i].id == g;
  }

  function CountFor(deliveries: seq<Delivery>, scope: Scope): nat {
    if deliveries == [] then 0
    else CountFor(deliveries[..|deliveries| - 1], scope) + if deliveries[|deliveries| - 1].scope == scope then 1 else 0
  }

  function SubmitsOf(acts: seq<Action>, scope: Scope): nat {
    if acts == [] then 0
    else
      var a := acts[|acts| - 1];
      SubmitsOf(acts[..|acts| - 1], scope) + if a.Submit? && a.scope == scope && a.text != "" then 1 else 0
  }

  lemma SubmitDelivers(s: State, scope: Scope, text: string, crash: Crash)
    requires text != ""
    ensures exists r :: Submitted(s, scope, text, crash).0.deliveries == s.deliveries + [Delivery(r, scope)]
  {
    hide Lookup, Cut;
    var r := if scope in s.keys then s.keys[scope] else s.next;
    var s1 := Ingested(s, scope, Cut(text));
    assert s1.deliveries == s.deliveries + [Delivery(r, scope)];
    assert Submitted(s, scope, text, crash).0.deliveries == s1.deliveries;
  }

  lemma EmptyTextDoesNothing(s: State, scope: Scope, crash: Crash)
    ensures Submitted(s, scope, "", crash) == (s, Empty)
  {
  }

  /** Every arrival is kept: a scope has one Delivery for each of its submits that had a text. */
  lemma {:induction false} EveryArrivalIsRecorded(acts: seq<Action>, scope: Scope)
    ensures CountFor(After(Initial, acts).deliveries, scope) == SubmitsOf(acts, scope)
  {
    hide Submitted;
    if acts != [] {
      var n := |acts| - 1;
      EveryArrivalIsRecorded(acts[..n], scope);
      var a, before := acts[n], After(Initial, acts[..n]);
      if a.Submit? && a.text != "" {
        SubmitDelivers(before, a.scope, a.text, a.crash);
        var r :| Submitted(before, a.scope, a.text, a.crash).0.deliveries == before.deliveries + [Delivery(r, a.scope)];
        assert (before.deliveries + [Delivery(r, a.scope)])[..|before.deliveries|] == before.deliveries;
      } else if a.Submit? {
        EmptyTextDoesNothing(before, a.scope, a.crash);
      }
    }
  }
}
