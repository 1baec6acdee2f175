/**
 The store of unlocked direct messages. Batches of turns and access events arrive in any
 order, late and repeatedly; turns are kept once, access events form a last-writer-wins merge.
 */
module DmStore {
  import opened Common

  type Name = string

  datatype Turn = Turn(id: Name, user: Name, name: Name, role: Name, content: Name, createdAt: int)

  datatype Access = Access(user: Name, name: Name, state: Name, at: int)

  datatype Batch = Batch(id: Name, turns: seq<Turn>, access: seq<Access>)

  datatype StoredTurn = StoredTurn(user: Name, role: Name, content: Name, createdAt: int, receivedAt: int, batch: Name)

  /** `stateAt` is `None` for a user known only from turns. */
  datatype User = User(name: Name, state: Name, stateAt: Option<int>)

  datatype Store = Store(turns: map<Name, StoredTurn>, users: map<Name, User>)

  datatype Arrival = Arrival(batch: Batch, stamp: int)

  const EMPTY := Store(map[], map[])

  /** One turn: the user row if missing, the name if given, the turn if its id is new. */
  function TakeTurn(s: Store, t: Turn, redact: Name -> Name, stamp: int, batch: Name): Store {
    var known := if t.user in s.users then s.users else s.users[t.user := User(t.name, "unlocked", None)];
    var named := if t.name != "" then known[t.user := known[t.user].(name := t.name)] else known;
    Store(if t.id in s.turns then s.turns
          else s.turns[t.id := StoredTurn(t.user, t.role, redact(t.content), t.createdAt, stamp, batch)],
          named)
  }

  predicate NotNewer(stateAt: Option<int>, at: int) { stateAt.None? || stateAt.value <= at }

  /** One access event: the user row if missing, then the state unless a newer one is stored. */
  function TakeAccess(users: map<Name, User>, a: Access): map<Name, User> {
    var known := if a.user in users then users else users[a.user := User(a.name, a.state, Some(a.at))];
    var u := known[a.user];
    if NotNewer(u.stateAt, a.at) then
      known[a.user := User(if a.name != "" then a.name else u.name, a.state, Some(a.at))]
    else known
  }

  function TakeTurns(s: Store, turns: seq<Turn>, redact: Name -> Name, stamp: int, batch: Name): Store {
    if turns == [] then s
    else TakeTurn(TakeTurns(s, turns[..|turns| - 1], redact, stamp, batch), turns[|turns| - 1], redact, stamp, batch)
  }

  function TakeAll(users: map<Name, User>, access: seq<Access>): map<Name, User> {
    if access == [] then users
    else TakeAccess(TakeAll(users, access[..|access| - 1]), access[|access| - 1])
  }

  /** Stable insertion behind every event that is not later. */
  function Insert(sorted: seq<Access>, a: Access): seq<Access> {
    if sorted == [] || sorted[|sorted| - 1].at <= a.at then sorted + [a]
    else Insert(sorted[..|sorted| - 1], a) + [sorted[|sorted| - 1]]
  }

  /** The stable sort of a batch by time. */
  function InOrder(access: seq<Access>): seq<Access> {
    if access == [] then [] else Insert(InOrder(access[..|access| - 1]), access[|access| - 1])
  }

  function Received(s: Store, b: Batch, redact: Name -> Name, stamp: int): Store {
    var t := TakeTurns(s, b.turns, redact, stamp, b.id);
    Store(t.turns, TakeAll(t.users, InOrder(b.access)))
  }

  function After(s: Store, arrivals: seq<Arrival>, redact: Name -> Name): Store {
    if arrivals == [] then s
    else
      var last := arrivals[|arrivals| - 1];
      Received(After(s, arrivals[..|arrivals| - 1], redact), last.batch, redact, last.stamp)
  }

  class DmStore {
    var turns: map<Name, StoredTurn>
    var users: map<Name, User>

    function State(): Store
      reads this
    {
      Store(turns, users)
    }

    constructor ()
      ensures State() == EMPTY
    {
      turns, users := map[], map[];
    }

    method InsertTurn(t: Turn, redact: Name -> Name, stamp: int, batch: Name) returns (rowcount: nat)
      modifies this
      ensures State() == TakeTurn(old(State()), t, redact, stamp, batch)
      ensures rowcount <= 1 && |turns| == |old(turns)| + rowcount
    {
      if t.user !in users {
        users := users[t.user := User(t.name, "unlocked", None)];
      }
      if t.name != "" {
        users := users[t.user := users[t.user].(name := t.name)];
      }
      rowcount := 0;
      if t.id !in turns {
        turns := turns[t.id := StoredTurn(t.user, t.role, redact(t.content), t.createdAt, stamp, batch)];
        rowcount := 1;
      }
    }

    method UpdateState(a: Access)
      modifies this
      ensures turns == old(turns) && users == TakeAccess(old(users), a)
    {
      if a.user !in users {
        users := users[a.user := User(a.name, a.state, Some(a.at))];
      }
      var u := users[a.user];
      if u.stateAt.None? || u.stateAt.value <= a.at {
        users := users[a.user := User(if a.name != "" then a.name else u.name, a.state, Some(a.at))];
      }
    }

    method Receive(b: Batch, redact: Name -> Name, stamp: int) returns (added: nat, duplicates: nat, access: nat)
      modifies this
      ensures State() == Received(old(State()), b, redact, stamp)
      ensures added == |turns| - |old(turns)| && added + duplicates == |b.turns| && access == |b.access|
    {
      hide TakeTurn, TakeAccess, InOrder;
      added := 0;
      for n := 0 to |b.turns|
        invariant State() == TakeTurns(old(State()), b.turns[..n], redact, stamp, b.id)
        invariant added == |turns| - |old(turns)| && 0 <= added <= n
      {
        assert b.turns[..n + 1][..n] == b.turns[..n];
        var rowcount := InsertTurn(b.turns[n], redact, stamp, b.id);
        added := added + rowcount;
      }
      assert b.turns[..|b.turns|] == b.turns;
      var sorted := InOrder(b.access);
      ghost var before := State();
      for n := 0 to |sorted|
        invariant users == TakeAll(before.users, sorted[..n]) && turns == before.turns
      {
        assert sorted[..n + 1][..n] == sorted[..n];
        UpdateState(sorted[n]);
      }
      assert sorted[..|sorted|] == sorted;
      duplicates, access := |b.turns| - added, |b.access|;
    }
  }

  // ---------------------------------------------------------------------------
  // The sort is a stable sort
  // ---------------------------------------------------------------------------

  ghost predicate ByTime(access: seq<Access>) { forall i, j :: 0 <= i < j < |access| ==> access[i].at <= access[j].at }

  lemma {:induction false} InsertKeeps(sorted: seq<Access>, a: Access)
    ensures multiset(Insert(sorted, a)) == multiset(sorted) + multiset{a}
  {
    if sorted != [] && sorted[|sorted| - 1].at > a.at {
      var n := |sorted| - 1;
      assert sorted == sorted[..n] + [sorted[n]];
      InsertKeeps(sorted[..n], a);
    }
  }

  lemma {:induction false} InsertBelow(sorted: seq<Access>, a: Access, top: int)
    requires a.at <= top && forall i :: 0 <= i < |sorted| ==> sorted[i].at <= top
    ensures forall i :: 0 <= i < |Insert(sorted, a)| ==> Insert(sorted, a)[i].at <= top
  {
    if sorted != [] && sorted[|sorted| - 1].at > a.at {
      InsertBelow(sorted[..|sorted| - 1], a, top);
    }
  }

  lemma {:induction false} InsertSorts(sorted: seq<Access>, a: Access)
    requires ByTime(sorted)
    ensures ByTime(Insert(sorted, a))
  {
    if sorted != [] && sorted[|sorted| - 1].at > a.at {
      var n := |sorted| - 1;
      InsertSorts(sorted[..n], a);
      InsertBelow(sorted[..n], a, sorted[n].at);
    }
  }

  lemma {:induction false} InOrderSorts(access: seq<Access>)
    ensures ByTime(InOrder(access)) && multiset(InOrder(access)) == multiset(access)
  {
    if access != [] {
      var n := |access| - 1;
      assert access == access[..n] + [access[n]];
      InOrderSorts(access[..n]);
      InsertSorts(InOrder(access[..n]), access[n]);
      InsertKeeps(InOrder(access[..n]), access[n]);
    }
  }

  /** Events of one time keep the order in which they came. */
  function At(access: seq<Access>, at: int): seq<Access> {
    if access == [] then []
    else At(access[..|access| - 1], at) + if access[|access| - 1].at == at then [access[|access| - 1]] else []
  }

  lemma {:induction false} InsertIsStable(sorted: seq<Access>, a: Access, at: int)
    ensures At(Insert(sorted, a), at) == At(sorted, at) + if a.at == at then [a] else []
  {
    if sorted == [] || sorted[|sorted| - 1].at <= a.at {
      assert (sorted + [a])[..|sorted|] == sorted;
    } else {
      var n := |sorted| - 1;
      InsertIsStable(sorted[..n], a, at);
      var inner := Insert(sorted[..n], a);
      assert (inner + [sorted[n]])[..|inner|] == inner;
    }
  }

  lemma {:induction false} InOrderIsStable(access: seq<Access>, at: int)
    ensures At(InOrder(access), at) == At(access, at)
  {
    if access != [] {
      InOrderIsStable(access[..|access| - 1], at);
      InsertIsStable(InOrder(access[..|access| - 1]), access[|access| - 1], at);
    }
  }

  // ---------------------------------------------------------------------------
  // Last writer wins
  // ---------------------------------------------------------------------------

  /** The newer of two events of `user`; of two at the same time, the one that came later. */
  function Newer(best: Option<Access>, a: Access, user: Name): Option<Access> {
    if a.user == user && (best.None? || best.value.at <= a.at) then Some(a) else best
  }

  function NewestFrom(best: Option<Access>, access: seq<Access>, user: Name): Option<Access> {
    if access == [] then best
    else Newer(NewestFrom(best, access[..|access| - 1], user), access[|access| - 1], user)
  }

  lemma {:induction false} InsertKeepsNewest(best: Option<Access>, sorted: seq<Access>, a: Access, user: Name)
    ensures NewestFrom(best, Insert(sorted, a), user) == Newer(NewestFrom(best, sorted, user), a, user)
  {
    if sorted == [] || sorted[|sorted| - 1].at <= a.at {
      assert (sorted + [a])[..|sorted|] == sorted;
    } else {
      var n := |sorted| - 1;
      InsertKeepsNewest(best, sorted[..n], a, user);
      var inner := Insert(sorted[..n], a);
      assert (inner + [sorted[n]])[..|inner|] == inner;
    }
  }

  lemma {:induction false} SortKeepsNewest(best: Option<Access>, access: seq<Access>, user: Name)
    ensures NewestFrom(best, InOrder(access), user) == NewestFrom(best, access, user)
  {
    if access != [] {
      var n := |access| - 1;
      SortKeepsNewest(best, access[..n], user);
      InsertKeepsNewest(best, InOrder(access[..n]), access[n], user);
    }
  }

  lemma {:induction false} NewestAppend(best: Option<Access>, a: seq<Access>, b: seq<Access>, user: Name)
    ensures NewestFrom(best, a + b, user) == NewestFrom(NewestFrom(best, a, user), b, user)
  {
    if b == [] {
      assert a + b == a;
    } else {
      var n := |b| - 1;
      assert (a + b)[..|a| + n] == a + b[..n];
      NewestAppend(best, a, b[..n], user);
    }
  }

  /** The user's row says what the newest event says. */
  ghost predicate Shows(users: map<Name, User>, user: Name, newest: Option<Access>) {
    match newest
    case Some(a) => user in users && users[user].state == a.state && users[user].stateAt == Some(a.at)
    case None => user in users ==> users[user].state == "unlocked" && users[user].stateAt == None
  }

  lemma {:induction false} OneAccessShows(users: map<Name, User>, a: Access, user: Name, best: Option<Access>)
    requires Shows(users, user, best)
    ensures Shows(TakeAccess(users, a), user, Newer(best, a, user))
    ensures TakeAccess(users, a).Keys == users.Keys + {a.user}
  {
  }

  lemma {:induction false} AccessShows(users: map<Name, User>, access: seq<Access>, user: Name, best: Option<Access>)
    requires Shows(users, user, best)
    ensures Shows(TakeAll(users, access), user, NewestFrom(best, access, user))
    ensures TakeAll(users, access).Keys == users.Keys + set a | a in access :: a.user
  {
    hide TakeAccess, Shows, Newer;
    if access != [] {
      var n := |access| - 1;
      AccessShows(users, access[..n], user, best);
      OneAccessShows(TakeAll(users, access[..n]), access[n], user, NewestFrom(best, access[..n], user));
      assert (set a | a in access :: a.user) == (set a | a in access[..n] :: a.user) + {access[n].user} by {
        assert access == access[..n] + [access[n]];
      }
    }
  }

  lemma {:induction false} TurnShows(s: Store, t: Turn, redact: Name -> Name, stamp: int, batch: Name, user: Name,
                                     best: Option<Access>)
    requires Shows(s.users, user, best)
    ensures Shows(TakeTurn(s, t, redact, stamp, batch).users, user, best)
    ensures TakeTurn(s, t, redact, stamp, batch).users.Keys == s.users.Keys + {t.user}
  {
  }

  lemma {:induction false} TurnsShow(s: Store, turns: seq<Turn>, redact: Name -> Name, stamp: int, batch: Name, user: Name,
                                     best: Option<Access>)
    requires Shows(s.users, user, best)
    ensures Shows(TakeTurns(s, turns, redact, stamp, batch).users, user, best)
    ensures TakeTurns(s, turns, redact, stamp, batch).users.Keys == s.users.Keys + set t | t in turns :: t.user
  {
    hide TakeTurn, Shows;
    if turns != [] {
      var n := |turns| - 1;
      TurnsShow(s, turns[..n], redact, stamp, batch, user, best);
      TurnShows(TakeTurns(s, turns[..n], redact, stamp, batch), turns[n], redact, stamp, batch, user, best);
      assert (set t | t in turns :: t.user) == (set t | t in turns[..n] :: t.user) + {turns[n].user} by {
        assert turns == turns[..n] + [turns[n]];
      }
    }
  }

  /** Every access event, in the order of arrival. */
  function AllAccess(arrivals: seq<Arrival>): seq<Access> {
    if arrivals == [] then [] else AllAccess(arrivals[..|arrivals| - 1]) + arrivals[|arrivals| - 1].batch.access
  }

  function AllTurns(arrivals: seq<Arrival>): seq<Turn> {
    if arrivals == [] then [] else AllTurns(arrivals[..|arrivals| - 1]) + arrivals[|arrivals| - 1].batch.turns
  }

  function Newest(access: seq<Access>, user: Name): Option<Access> { NewestFrom(None, access, user) }

  /** Whatever the batches, their order and their repeats: a user shows the newest event received. */
  lemma {:induction false} StateIsTheNewest(arrivals: seq<Arrival>, redact: Name -> Name, user: Name)
    ensures Shows(After(EMPTY, arrivals, redact).users, user, Newest(AllAccess(arrivals), user))
    ensures user in After(EMPTY, arrivals, redact).users <==>
            || (exists a :: a in AllAccess(arrivals) && a.user == user)
            || (exists t :: t in AllTurns(arrivals) && t.user == user)
  {
    if arrivals != [] {
      var n := |arrivals| - 1;
      var s, b, stamp := After(EMPTY, arrivals[..n], redact), arrivals[n].batch, arrivals[n].stamp;
      var before, best := AllAccess(arrivals[..n]), Newest(AllAccess(arrivals[..n]), user);
      StateIsTheNewest(arrivals[..n], redact, user);
      TurnsShow(s, b.turns, redact, stamp, b.id, user, best);
      var t := TakeTurns(s, b.turns, redact, stamp, b.id);
      AccessShows(t.users, InOrder(b.access), user, best);
      SortKeepsNewest(best, b.access, user);
      NewestAppend(None, before, b.access, user);
      InOrderSorts(b.access);
      SameElements(InOrder(b.access), b.access);
    }
  }

  lemma {:induction false} SameElements(a: seq<Access>, b: seq<Access>)
    requires multiset(a) == multiset(b)
    ensures forall x :: x in a <==> x in b
  {
    forall x
      ensures x in a <==> x in b
    {
      assert x in a <==> x in multiset(a);
      assert x in b <==> x in multiset(b);
    }
  }

  /** `k` is the last of the latest events of `user`. */
  ghost predicate IsNewest(access: seq<Access>, user: Name, k: nat) {
    && k < |access| && access[k].user == user
    && (forall i :: 0 <= i < |access| && access[i].user == user ==>
          access[i].at < access[k].at || (access[i].at == access[k].at && i <= k))
  }

  lemma {:induction false} NewestMeans(access: seq<Access>, user: Name) returns (k: nat)
    ensures Newest(access, user).None? ==> forall i :: 0 <= i < |access| ==> access[i].user != user
    ensures Newest(access, user).Some? ==> IsNewest(access, user, k) && Newest(access, user).value == access[k]
  {
    k := 0;
    if access != [] {
      var n := |access| - 1;
      k := NewestMeans(access[..n], user);
      assert forall i :: 0 <= i < n ==> access[..n][i] == access[i];
      var best := Newest(access[..n], user);
      if access[n].user == user && (best.None? || best.value.at <= access[n].at) {
        k := n;
      }
    }
  }

  ghost predicate Latest(access: seq<Access>, user: Name, a: Access) {
    a in access && a.user == user && forall b :: b in access && b.user == user ==> b.at <= a.at
  }

  /** The latest events of `user` do not contradict each other; so with distinct times. */
  ghost predicate Untied(access: seq<Access>, user: Name) {
    forall a, b :: Latest(access, user, a) && Latest(access, user, b) ==> a.state == b.state
  }

  lemma {:induction false} DistinctTimesAreUntied(access: seq<Access>, user: Name)
    requires forall a, b :: a in access && b in access && a.user == b.user && a.at == b.at ==> a == b
    ensures Untied(access, user)
  {
  }

  /** Two histories with the same events, in any batches, orders and repeats, agree on the user's
      state, provided that the latest events do not contradict each other. */
  lemma {:induction false} Converges(one: seq<Arrival>, two: seq<Arrival>, redact: Name -> Name, user: Name)
    requires forall a :: a in AllAccess(one) <==> a in AllAccess(two)
    requires Untied(AllAccess(one), user)
    requires user in After(EMPTY, one, redact).users && user in After(EMPTY, two, redact).users
    ensures
      var u, v := After(EMPTY, one, redact).users[user], After(EMPTY, two, redact).users[user];
      u.state == v.state && u.stateAt == v.stateAt
  {
    hide After;
    StateIsTheNewest(one, redact, user);
    StateIsTheNewest(two, redact, user);
    NewestAgrees(AllAccess(one), AllAccess(two), user);
  }

  lemma {:induction false} NewestIsLatest(access: seq<Access>, user: Name)
    ensures Newest(access, user).Some? ==> Latest(access, user, Newest(access, user).value)
    ensures Newest(access, user).None? ==> forall a :: a in access ==> a.user != user
  {
    hide Newest;
    var k := NewestMeans(access, user);
  }

  lemma {:induction false} NewestAgrees(a: seq<Access>, b: seq<Access>, user: Name)
    requires forall x :: x in a <==> x in b
    requires Untied(a, user)
    ensures
      match (Newest(a, user), Newest(b, user))
      case (Some(x), Some(y)) => x.state == y.state && x.at == y.at
      case (None, None) => true
      case _ => false
  {
    hide Newest;
    NewestIsLatest(a, user);
    NewestIsLatest(b, user);
    if Newest(a, user).Some? && Newest(b, user).Some? {
      assert Latest(a, user, Newest(b, user).value);
    }
  }

  /** Where they do contradict each other, a resend decides which of them is shown. */
  lemma {:induction false} TiesDiverge(past: seq<Arrival>, redact: Name -> Name, user: Name, x: Access, y: Access)
    returns (one: seq<Arrival>, two: seq<Arrival>)
    requires Latest(AllAccess(past), user, x) && Latest(AllAccess(past), user, y) && x.state != y.state
    ensures forall a :: a in AllAccess(one) <==> a in AllAccess(past)
    ensures forall a :: a in AllAccess(two) <==> a in AllAccess(past)
    ensures user in After(EMPTY, one, redact).users && user in After(EMPTY, two, redact).users
    ensures After(EMPTY, one, redact).users[user].state == x.state
    ensures After(EMPTY, two, redact).users[user].state == y.state
  {
    hide After;
    one := Resend(past, user, x);
    two := Resend(past, user, y);
    StateIsTheNewest(one, redact, user);
    StateIsTheNewest(two, redact, user);
  }

  lemma {:induction false} Resend(past: seq<Arrival>, user: Name, x: Access) returns (more: seq<Arrival>)
    requires Latest(AllAccess(past), user, x)
    ensures forall a :: a in AllAccess(more) <==> a in AllAccess(past)
    ensures Newest(AllAccess(more), user) == Some(x)
  {
    var again := Arrival(Batch("", [], [x]), 0);
    more := past + [again];
    assert more[..|past|] == past;
    assert AllAccess(more) == AllAccess(past) + [x];
    NewestAppend(None, AllAccess(past), [x], user);
    assert [x][..0] == [];
    NewestIsLatest(AllAccess(past), user);
  }

  // ---------------------------------------------------------------------------
  // Turns are kept once
  // ---------------------------------------------------------------------------

  ghost predicate HasId(turns: seq<Turn>, id: Name) { exists k :: 0 <= k < |turns| && turns[k].id == id }

  /** A stored turn is the first that arrived with its id. */
  ghost predicate KeptFirst(stored: map<Name, StoredTurn>, turns: seq<Turn>, redact: Name -> Name) {
    && (forall id :: id in stored <==> HasId(turns, id))
    && (forall k :: 0 <= k < |turns| && !HasId(turns[..k], turns[k].id) ==>
          && turns[k].id in stored && stored[turns[k].id].user == turns[k].user
          && stored[turns[k].id].role == turns[k].role && stored[turns[k].id].content == redact(turns[k].content)
          && stored[turns[k].id].createdAt == turns[k].createdAt)
  }

  lemma {:induction false} KeepOne(s: Store, turns: seq<Turn>, t: Turn, redact: Name -> Name, stamp: int, batch: Name)
    requires KeptFirst(s.turns, turns, redact)
    ensures KeptFirst(TakeTurn(s, t, redact, stamp, batch).turns, turns + [t], redact)
  {
    var more, next := turns + [t], TakeTurn(s, t, redact, stamp, batch).turns;
    forall id
      ensures HasId(more, id) <==> HasId(turns, id) || id == t.id
    {
      if HasId(turns, id) {
        var k :| 0 <= k < |turns| && turns[k].id == id;
        assert more[k].id == id;
      }
      assert more[|turns|].id == t.id;
    }
    forall k | 0 <= k < |more| && !HasId(more[..k], more[k].id)
      ensures
        && more[k].id in next && next[more[k].id].user == more[k].user
        && next[more[k].id].role == more[k].role && next[more[k].id].content == redact(more[k].content)
        && next[more[k].id].createdAt == more[k].createdAt
    {
      assert k < |turns| ==> more[k] == turns[k] && more[..k] == turns[..k];
      assert more[..|turns|] == turns;
    }
  }

  lemma {:induction false} KeepBatch(s: Store, past: seq<Turn>, turns: seq<Turn>, redact: Name -> Name, stamp: int, batch: Name)
    requires KeptFirst(s.turns, past, redact)
    ensures KeptFirst(TakeTurns(s, turns, redact, stamp, batch).turns, past + turns, redact)
  {
    hide KeptFirst, TakeTurn;
    if turns == [] {
      assert past + turns == past;
    } else {
      var n := |turns| - 1;
      KeepBatch(s, past, turns[..n], redact, stamp, batch);
      KeepOne(TakeTurns(s, turns[..n], redact, stamp, batch), past + turns[..n], turns[n], redact, stamp, batch);
      assert past + turns[..n] + [turns[n]] == past + turns;
    }
  }

  /** The stored turns are exactly the union of the message ids, each as it first arrived. */
  lemma {:induction false} TurnsAreTheUnion(arrivals: seq<Arrival>, redact: Name -> Name)
    ensures KeptFirst(After(EMPTY, arrivals, redact).turns, AllTurns(arrivals), redact)
  {
    if arrivals == [] {
      assert forall id :: !HasId([], id);
    } else {
      hide KeptFirst, TakeAll, TakeTurns;
      var n := |arrivals| - 1;
      TurnsAreTheUnion(arrivals[..n], redact);
      var b := arrivals[n].batch;
      KeepBatch(After(EMPTY, arrivals[..n], redact), AllTurns(arrivals[..n]), b.turns, redact, arrivals[n].stamp, b.id);
    }
  }

  // ---------------------------------------------------------------------------
  // Names, and what a stored turn carries
  // ---------------------------------------------------------------------------

  /** A turn names its user if it carries a name, creates a user it does not know as unlocked, and is stored with the
      batch and the time it came with unless its id is known. */
  lemma {:induction false} TurnMeans(s: Store, t: Turn, redact: Name -> Name, stamp: int, batch: Name)
    ensures
      var d := TakeTurn(s, t, redact, stamp, batch);
      && (forall u :: u != t.user ==> (u in d.users <==> u in s.users) && (u in s.users ==> d.users[u] == s.users[u]))
      && t.user in d.users
      && d.users[t.user] == (if t.user in s.users then s.users[t.user] else User("", "unlocked", None))
                            .(name := if t.name != "" then t.name else if t.user in s.users then s.users[t.user].name else "")
      && d.turns == (if t.id in s.turns then s.turns
                     else s.turns[t.id := StoredTurn(t.user, t.role, redact(t.content), t.createdAt, stamp, batch)])
  {
  }

  /** An access event touches its user only, and names it only if it carries a name and is not older than what is shown. */
  lemma {:induction false} AccessMeans(users: map<Name, User>, a: Access)
    ensures
      var d := TakeAccess(users, a);
      && (forall u :: u != a.user ==> (u in d <==> u in users) && (u in users ==> d[u] == users[u]))
      && a.user in d
      && (a.user !in users ==> d[a.user] == User(a.name, a.state, Some(a.at)))
      && (a.user in users && users[a.user].stateAt.Some? && users[a.user].stateAt.value > a.at ==> d[a.user] == users[a.user])
      && (a.user in users && (users[a.user].stateAt.None? || users[a.user].stateAt.value <= a.at) ==>
            d[a.user] == User(if a.name != "" then a.name else users[a.user].name, a.state, Some(a.at)))
  {
  }

  function LastName(turns: seq<Turn>, user: Name, name: Name): Name {
    if turns == [] then name
    else
      var t := turns[|turns| - 1];
      if t.user == user && t.name != "" then t.name else LastName(turns[..|turns| - 1], user, name)
  }

  /** Of the turns of a batch the last that carries a name names the user. */
  lemma {:induction false} TurnsName(s: Store, turns: seq<Turn>, redact: Name -> Name, stamp: int, batch: Name, user: Name)
    requires user in s.users
    ensures
      var d := TakeTurns(s, turns, redact, stamp, batch);
      user in d.users && d.users[user].name == LastName(turns, user, s.users[user].name)
  {
    hide TakeTurn;
    if turns != [] {
      var n := |turns| - 1;
      TurnsName(s, turns[..n], redact, stamp, batch, user);
      TurnMeans(TakeTurns(s, turns[..n], redact, stamp, batch), turns[n], redact, stamp, batch);
    }
  }
}
