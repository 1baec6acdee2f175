/**
 Accounts with a lockout after repeated wrong passwords, and sessions with an idle and an
 absolute lifetime. Hash comparison is equality of the password with the registered one;
 fresh session ids never repeat; the clock never goes back.
 */
module Auth {
  import opened Common

  type Name = string
  type Time = int

  /** Engine settings; all durations in the clock's unit. */
  datatype Config = Config(idle: int, absolute: int, maxFailed: int, lockout: int)

  datatype Account = Account(password: Name, role: int, failed: int, lockedUntil: Option<Time>)

  datatype Session = Session(user: Name, role: int, csrf: Name, createdAt: Time, lastSeen: Time, revoked: bool)

  /** `issued` holds every session id ever given out, also after the session is dropped. */
  datatype Engine = Engine(accounts: map<Name, Account>, sessions: map<Name, Session>, issued: set<Name>)

  datatype Call =
    | Register(user: Name, password: Name, role: int)
    | Login(user: Name, password: Name, prior: Option<Name>, newId: Name, csrf: Name)
    | Authenticate(id: Name, token: Option<Name>, mutating: bool)
    | Revoke(id: Name)

  datatype Reply =
    | Done
    | Granted(session: Session)
    | InvalidCredentials
    | Locked
    | InvalidSession
    | BadCsrf
    | EmptyPassword

  datatype Event = Event(call: Call, at: Time)

  predicate IsLocked(a: Account, now: Time) { a.lockedUntil.Some? && now < a.lockedUntil.value }

  predicate IsValid(cfg: Config, s: Session, now: Time) {
    !s.revoked && now - s.lastSeen <= cfg.idle && now - s.createdAt <= cfg.absolute
  }

  /** The account after a wrong password that was checked. */
  function Missed(cfg: Config, a: Account, now: Time): Account {
    a.(failed := a.failed + 1,
       lockedUntil := if a.failed + 1 >= cfg.maxFailed then Some(now + cfg.lockout) else a.lockedUntil)
  }

  function Step(cfg: Config, e: Engine, ev: Event): (Engine, Reply) {
    match ev.call
    case Register(user, password, role) =>
      if password == "" then (e, EmptyPassword)
      else (e.(accounts := e.accounts[user := Account(password, role, 0, None)]), Done)
    case Login(user, password, prior, newId, csrf) =>
      if user !in e.accounts then (e, InvalidCredentials)
      else
        var a := e.accounts[user];
        if IsLocked(a, ev.at) then (e, Locked)
        else if a.password != password then
          (e.(accounts := e.accounts[user := Missed(cfg, a, ev.at)]), InvalidCredentials)
        else
          var s := Session(user, a.role, csrf, ev.at, ev.at, false);
          var kept := if prior.Some? then e.sessions - {prior.value} else e.sessions;
          (Engine(e.accounts[user := a.(failed := 0, lockedUntil := None)], kept[newId := s], e.issued + {newId}),
           Granted(s))
    case Authenticate(id, token, mutating) =>
      if id !in e.sessions || !IsValid(cfg, e.sessions[id], ev.at) then (e, InvalidSession)
      else if mutating && token != Some(e.sessions[id].csrf) then (e, BadCsrf)
      else
        var s := e.sessions[id].(lastSeen := ev.at);
        (e.(sessions := e.sessions[id := s]), Granted(s))
    case Revoke(id) =>
      if id !in e.sessions then (e, Done)
      else (e.(sessions := e.sessions[id := e.sessions[id].(revoked := true)]), Done)
  }

  function After(cfg: Config, e: Engine, evs: seq<Event>): Engine {
    if evs == [] then e else Step(cfg, After(cfg, e, evs[..|evs| - 1]), evs[|evs| - 1]).0
  }

  /** The reply to call `n` of a run. */
  function ReplyAt(cfg: Config, e: Engine, evs: seq<Event>, n: nat): Reply
    requires n < |evs|
  {
    Step(cfg, After(cfg, e, evs[..n]), evs[n]).1
  }

  ghost predicate InOrder(evs: seq<Event>) { forall i, j :: 0 <= i <= j < |evs| ==> evs[i].at <= evs[j].at }

  ghost predicate FreshIds(e: Engine, evs: seq<Event>) {
    && (forall i :: 0 <= i < |evs| && evs[i].call.Login? ==> evs[i].call.newId !in e.issued)
    && (forall i, j :: 0 <= i < j < |evs| && evs[i].call.Login? && evs[j].call.Login? ==>
          evs[i].call.newId != evs[j].call.newId)
  }

  // ---------------------------------------------------------------------------
  // The engine
  // ---------------------------------------------------------------------------

  class AuthEngine {
    const cfg: Config
    var accounts: map<Name, Account>
    var sessions: map<Name, Session>
    ghost var issued: set<Name>

    ghost function State(): Engine
      reads this
    {
      Engine(accounts, sessions, issued)
    }

    constructor (cfg: Config)
      ensures this.cfg == cfg && State() == Engine(map[], map[], {})
    {
      this.cfg := cfg;
      accounts, sessions, issued := map[], map[], {};
    }

    method Register(user: Name, password: Name, role: int, ghost now: Time) returns (reply: Reply)
      modifies this
      ensures (State(), reply) == Step(cfg, old(State()), Event(Call.Register(user, password, role), now))
    {
      if password == "" {
        return EmptyPassword;
      }
      accounts := accounts[user := Account(password, role, 0, None)];
      reply := Done;
    }

    method Login(user: Name, password: Name, prior: Option<Name>, newId: Name, csrf: Name, now: Time)
      returns (reply: Reply)
      modifies this
      ensures (State(), reply) == Step(cfg, old(State()), Event(Call.Login(user, password, prior, newId, csrf), now))
    {
      if user !in accounts {
        return InvalidCredentials;
      }
      var a := accounts[user];
      if a.lockedUntil.Some? && now < a.lockedUntil.value {
        return Locked;
      }
      if a.password != password {
        a := a.(failed := a.failed + 1);
        if a.failed >= cfg.maxFailed {
          a := a.(lockedUntil := Some(now + cfg.lockout));
        }
        accounts := accounts[user := a];
        return InvalidCredentials;
      }
      accounts := accounts[user := a.(failed := 0, lockedUntil := None)];
      if prior.Some? {
        sessions := sessions - {prior.value};
      }
      var s := Session(user, a.role, csrf, now, now, false);
      sessions := sessions[newId := s];
      issued := issued + {newId};
      reply := Granted(s);
    }

    method Authenticate(id: Name, token: Option<Name>, mutating: bool, now: Time) returns (reply: Reply)
      modifies this
      ensures (State(), reply) == Step(cfg, old(State()), Event(Call.Authenticate(id, token, mutating), now))
    {
      if id !in sessions || !IsValid(cfg, sessions[id], now) {
        return InvalidSession;
      }
      var s := sessions[id];
      if mutating && (token.None? || token.value != s.csrf) {
        return BadCsrf;
      }
      s := s.(lastSeen := now);
      sessions := sessions[id := s];
      reply := Granted(s);
    }

    method Revoke(id: Name, ghost now: Time)
      modifies this
      ensures State() == Step(cfg, old(State()), Event(Call.Revoke(id), now)).0
    {
      if id in sessions {
        sessions := sessions[id := sessions[id].(revoked := true)];
      }
    }
  }

  // ---------------------------------------------------------------------------
  // The lockout bound
  // ---------------------------------------------------------------------------

  /** Call `n` checked a wrong password of `user`. */
  predicate ChecksWrong(cfg: Config, e: Engine, ev: Event, user: Name) {
    ev.call.Login? && ev.call.user == user && user in e.accounts
    && !IsLocked(e.accounts[user], ev.at) && e.accounts[user].password != ev.call.password
  }

  /** How many wrong passwords of `user` a run checks. */
  function Checks(cfg: Config, e: Engine, evs: seq<Event>, user: Name): nat {
    if evs == [] then 0
    else
      var n := |evs| - 1;
      Checks(cfg, e, evs[..n], user) + if ChecksWrong(cfg, After(cfg, e, evs[..n]), evs[n], user) then 1 else 0
  }

  /** The run neither registers `user` again nor lets it in. */
  ghost predicate Shut(cfg: Config, e: Engine, evs: seq<Event>, user: Name) {
    forall n :: 0 <= n < |evs| ==>
      && !(evs[n].call.Register? && evs[n].call.user == user)
      && !(evs[n].call.Login? && evs[n].call.user == user && ReplyAt(cfg, e, evs, n).Granted?)
  }

  lemma {:induction false} ShutPrefix(cfg: Config, e: Engine, evs: seq<Event>, user: Name, n: nat)
    requires Shut(cfg, e, evs, user) && n <= |evs|
    ensures Shut(cfg, e, evs[..n], user)
  {
    forall m | 0 <= m < n
      ensures evs[..n][m] == evs[m] && evs[..n][..m] == evs[..m]
    {
    }
  }

  /** The wrong passwords that can be checked before the lock starts to pace them. */
  function Free(cfg: Config, a: Account): int { if cfg.maxFailed - a.failed > 1 then cfg.maxFailed - a.failed else 1 }

  /** How far the lock is known to reach after `k` checks since time `from`. */
  ghost predicate Paced(cfg: Config, free: int, from: Time, k: nat, a: Account, now: Time) {
    k < free || (a.lockedUntil.Some? && a.lockedUntil.value >= from + (k - free + 1) * cfg.lockout
                 && a.lockedUntil.value - cfg.lockout <= now)
  }

  lemma {:induction false} Pacing(cfg: Config, e: Engine, evs: seq<Event>, user: Name, from: Time)
    requires cfg.lockout > 0 && user in e.accounts
    requires InOrder(evs) && (forall n :: 0 <= n < |evs| ==> from <= evs[n].at)
    requires Shut(cfg, e, evs, user)
    ensures
      var d, k := After(cfg, e, evs), Checks(cfg, e, evs, user);
      && user in d.accounts && d.accounts[user].failed == e.accounts[user].failed + k
      && Paced(cfg, Free(cfg, e.accounts[user]), from, k, d.accounts[user], if evs == [] then from else evs[|evs| - 1].at)
  {
    if evs != [] {
      var n := |evs| - 1;
      var before := evs[..n];
      ShutPrefix(cfg, e, evs, user, n);
      Pacing(cfg, e, before, user, from);
      PaceStep(cfg, After(cfg, e, before), evs[n], user, Free(cfg, e.accounts[user]), from, Checks(cfg, e, before, user),
               if before == [] then from else before[n - 1].at);
      assert !(evs[n].call.Login? && evs[n].call.user == user && ReplyAt(cfg, e, evs, n).Granted?);
    }
  }

  lemma {:induction false} PaceStep(cfg: Config, e: Engine, ev: Event, user: Name, free: int, from: Time, k: nat, now: Time)
    requires cfg.lockout > 0 && user in e.accounts && from <= now <= ev.at && free >= 1
    requires !(ev.call.Register? && ev.call.user == user)
    requires !(ev.call.Login? && ev.call.user == user && Step(cfg, e, ev).1.Granted?)
    requires Paced(cfg, free, from, k, e.accounts[user], now)
    requires e.accounts[user].failed + free - k >= cfg.maxFailed
    ensures
      var d, j := Step(cfg, e, ev).0, k + if ChecksWrong(cfg, e, ev, user) then 1 else 0;
      && user in d.accounts && d.accounts[user].failed == e.accounts[user].failed + j - k
      && Paced(cfg, free, from, j, d.accounts[user], ev.at)
  {
    if ChecksWrong(cfg, e, ev, user) && k + 1 >= free {
      var a := e.accounts[user];
      assert Missed(cfg, a, ev.at).lockedUntil == Some(ev.at + cfg.lockout);
      if k >= free {
        assert ev.at >= from + (k - free + 1) * cfg.lockout;
        assert (k + 1 - free + 1) * cfg.lockout == (k - free + 1) * cfg.lockout + cfg.lockout;
      } else {
        assert k + 1 - free + 1 == 1;
      }
    }
  }

  /** In any span without a success, at most `maxFailed` plus one wrong password per lockout period
      is checked. */
  lemma {:induction false} LockoutBound(cfg: Config, e: Engine, evs: seq<Event>, user: Name)
    requires cfg.maxFailed >= 1 && cfg.lockout > 0
    requires user in e.accounts && e.accounts[user].failed >= 0
    requires evs != [] && InOrder(evs) && Shut(cfg, e, evs, user)
    ensures Checks(cfg, e, evs, user) <= cfg.maxFailed + (evs[|evs| - 1].at - evs[0].at) / cfg.lockout
  {
    var from, k, free := evs[0].at, Checks(cfg, e, evs, user), Free(cfg, e.accounts[user]);
    var span := evs[|evs| - 1].at - from;
    Pacing(cfg, e, evs, user, from);
    if k > free {
      assert (k - free + 1) * cfg.lockout == (k - free) * cfg.lockout + cfg.lockout;
      assert span >= (k - free) * cfg.lockout;
      DivideAtLeast(span, k - free, cfg.lockout);
    } else {
      DivideAtLeast(span, 0, cfg.lockout);
    }
  }

  lemma {:induction false} DivideAtLeast(a: int, q: int, d: int)
    requires d > 0 && a >= q * d
    ensures a / d >= q
  {
    var k := a / d;
    assert a == k * d + a % d;
    assert (k + 1 - q) * d == k * d + d - q * d;
    PositiveFactor(k + 1 - q, d);
  }

  lemma {:induction false} PositiveFactor(x: int, d: int)
    requires d > 0 && x * d > 0
    ensures x > 0
  {
  }

  const EMPTY := Engine(map[], map[], {})

  lemma {:induction false} FailuresCountUp(cfg: Config, past: seq<Event>, user: Name)
    ensures
      var e := After(cfg, EMPTY, past);
      user in e.accounts ==> e.accounts[user].failed >= 0
  {
    if past != [] {
      FailuresCountUp(cfg, past[..|past| - 1], user);
    }
  }

  /** In any span without a success, whatever happened before, at most `maxFailed` wrong passwords and
      one more per lockout period are checked. */
  lemma {:induction false} LockoutBoundsGuessing(cfg: Config, past: seq<Event>, evs: seq<Event>, user: Name)
    requires cfg.maxFailed >= 1 && cfg.lockout > 0
    requires user in After(cfg, EMPTY, past).accounts
    requires evs != [] && InOrder(evs) && Shut(cfg, After(cfg, EMPTY, past), evs, user)
    ensures Checks(cfg, After(cfg, EMPTY, past), evs, user)
         <= cfg.maxFailed + (evs[|evs| - 1].at - evs[0].at) / cfg.lockout
  {
    FailuresCountUp(cfg, past, user);
    LockoutBound(cfg, After(cfg, EMPTY, past), evs, user);
  }

  // ---------------------------------------------------------------------------
  // The bound is met
  // ---------------------------------------------------------------------------

  function Guess(user: Name, at: Time): Event { Event(Login(user, "", None, "", ""), at) }

  /** When `i` lockout periods are over. */
  function Mark(cfg: Config, i: nat): Time { i * cfg.lockout }

  lemma {:induction false} NextMark(cfg: Config, i: nat)
    ensures Mark(cfg, i + 1) == Mark(cfg, i) + cfg.lockout && Mark(cfg, 0) == 0
  {
  }

  /** When guess `n` of the attack is made. */
  function GuessTime(cfg: Config, n: nat): Time { if n <= cfg.maxFailed then 0 else Mark(cfg, n - cfg.maxFailed) }

  /** `maxFailed` guesses at once, then one at the end of each lockout period. */
  function Attack(cfg: Config, user: Name, n: nat): seq<Event> {
    if n == 0 then [] else Attack(cfg, user, n - 1) + [Guess(user, GuessTime(cfg, n))]
  }

  /** The account after `n` guesses of the attack. */
  ghost predicate Guessed(cfg: Config, e: Engine, user: Name, n: nat) {
    && user in e.accounts && e.accounts[user].password != "" && e.accounts[user].failed == n
    && e.accounts[user].lockedUntil == (if n < cfg.maxFailed then None else Some(Mark(cfg, n - cfg.maxFailed + 1)))
  }

  lemma {:induction false} GuessStep(cfg: Config, e: Engine, user: Name, n: nat)
    requires cfg.maxFailed >= 1 && cfg.lockout > 0 && Guessed(cfg, e, user, n)
    ensures
      var ev := Guess(user, GuessTime(cfg, n + 1));
      ChecksWrong(cfg, e, ev, user) && Guessed(cfg, Step(cfg, e, ev).0, user, n + 1)
  {
    hide Mark;
    NextMark(cfg, if n + 1 <= cfg.maxFailed then 0 else n + 1 - cfg.maxFailed);
  }

  lemma {:induction false} AttackChecksAll(cfg: Config, e: Engine, user: Name, n: nat)
    requires cfg.maxFailed >= 1 && cfg.lockout > 0 && Guessed(cfg, e, user, 0)
    ensures
      var evs := Attack(cfg, user, n);
      |evs| == n && Checks(cfg, e, evs, user) == n && Guessed(cfg, After(cfg, e, evs), user, n)
  {
    hide Guessed, Step, ChecksWrong, GuessTime;
    if n > 0 {
      AttackChecksAll(cfg, e, user, n - 1);
      var before, last := Attack(cfg, user, n - 1), Guess(user, GuessTime(cfg, n));
      assert Attack(cfg, user, n) == before + [last];
      assert (before + [last])[..n - 1] == before;
      GuessStep(cfg, After(cfg, e, before), user, n - 1);
    }
  }

  lemma {:induction false} AttackAt(cfg: Config, user: Name, n: nat, i: nat)
    requires i < n
    ensures |Attack(cfg, user, n)| == n && Attack(cfg, user, n)[i] == Guess(user, GuessTime(cfg, i + 1))
    ensures Attack(cfg, user, n)[..i] == Attack(cfg, user, i)
  {
    hide GuessTime;
    if i < n - 1 {
      AttackAt(cfg, user, n - 1, i);
    } else {
      AttackLength(cfg, user, n - 1);
    }
  }

  lemma {:induction false} AttackLength(cfg: Config, user: Name, n: nat)
    ensures |Attack(cfg, user, n)| == n
  {
    if n > 0 {
      AttackLength(cfg, user, n - 1);
    }
  }

  lemma {:induction false} LaterGuess(cfg: Config, i: nat, j: nat)
    requires i <= j && cfg.lockout > 0 && cfg.maxFailed >= 1
    ensures GuessTime(cfg, i) <= GuessTime(cfg, j)
  {
    if i < j {
      LaterGuess(cfg, i, j - 1);
      if j - 1 >= cfg.maxFailed {
        NextMark(cfg, j - 1 - cfg.maxFailed);
      }
    }
  }

  /** The attack is a span of the kind the bound is about. */
  lemma {:induction false} AttackIsShut(cfg: Config, e: Engine, user: Name, n: nat)
    requires cfg.maxFailed >= 1 && cfg.lockout > 0 && Guessed(cfg, e, user, 0)
    ensures InOrder(Attack(cfg, user, n)) && Shut(cfg, e, Attack(cfg, user, n), user)
  {
    hide Guessed, GuessTime, After, Attack, Step;
    var evs := Attack(cfg, user, n);
    AttackLength(cfg, user, n);
    forall i, j | 0 <= i <= j < |evs|
      ensures evs[i].at <= evs[j].at
    {
      AttackAt(cfg, user, n, i);
      AttackAt(cfg, user, n, j);
      LaterGuess(cfg, i + 1, j + 1);
    }
    forall i | 0 <= i < |evs|
      ensures evs[i].call.Login? && !ReplyAt(cfg, e, evs, i).Granted?
    {
      AttackAt(cfg, user, n, i);
      AttackChecksAll(cfg, e, user, i);
      GuessStep(cfg, After(cfg, e, Attack(cfg, user, i)), user, i);
      WrongIsNotGranted(cfg, After(cfg, e, evs[..i]), evs[i], user);
    }
  }

  lemma {:induction false} WrongIsNotGranted(cfg: Config, e: Engine, ev: Event, user: Name)
    requires ChecksWrong(cfg, e, ev, user)
    ensures Step(cfg, e, ev).1 == InvalidCredentials
  {
  }

  /** The bound of `LockoutBound` is reached, over a span of any number of lockout periods. */
  lemma {:induction false} LockoutBoundIsMet(cfg: Config, e: Engine, user: Name, periods: nat)
    requires cfg.maxFailed >= 1 && cfg.lockout > 0
    requires user in e.accounts && e.accounts[user].password != ""
    requires e.accounts[user].failed == 0 && e.accounts[user].lockedUntil == None
    ensures
      var evs := Attack(cfg, user, cfg.maxFailed + periods);
      && InOrder(evs) && Shut(cfg, e, evs, user)
      && |evs| > 0 && evs[|evs| - 1].at - evs[0].at == periods * cfg.lockout
      && Checks(cfg, e, evs, user) == cfg.maxFailed + (evs[|evs| - 1].at - evs[0].at) / cfg.lockout
  {
    hide After, Checks, Step, Shut, InOrder, Attack;
    var n := cfg.maxFailed + periods;
    var evs := Attack(cfg, user, n);
    assert Guessed(cfg, e, user, 0);
    AttackChecksAll(cfg, e, user, n);
    AttackIsShut(cfg, e, user, n);
    AttackAt(cfg, user, n, 0);
    AttackAt(cfg, user, n, n - 1);
    NextMark(cfg, 0);
    MarkDivides(cfg, periods);
  }

  lemma {:induction false} MarkDivides(cfg: Config, i: nat)
    requires cfg.lockout > 0
    ensures i * cfg.lockout / cfg.lockout == i
  {
    DivideAtLeast(i * cfg.lockout, i, cfg.lockout);
    var q := i * cfg.lockout / cfg.lockout;
    assert q * cfg.lockout <= i * cfg.lockout;
    assert (i + 1 - q) * cfg.lockout == i * cfg.lockout + cfg.lockout - q * cfg.lockout;
    PositiveFactor(i + 1 - q, cfg.lockout);
  }

  // ---------------------------------------------------------------------------
  // Sessions
  // ---------------------------------------------------------------------------

  /** The session can no longer be used at time `now`. */
  ghost predicate Dead(cfg: Config, e: Engine, id: Name, now: Time) {
    id in e.issued && (id in e.sessions ==> !IsValid(cfg, e.sessions[id], now))
  }

  /** Expired, revoked or rotated away: no later call, at no later time, brings a session back. */
  lemma {:induction false} DeadForever(cfg: Config, e: Engine, evs: seq<Event>, id: Name, now: Time)
    requires Dead(cfg, e, id, now) && InOrder(evs) && FreshIds(e, evs)
    requires forall n :: 0 <= n < |evs| ==> now <= evs[n].at
    ensures Dead(cfg, After(cfg, e, evs), id, if evs == [] then now else evs[|evs| - 1].at)
    ensures forall n :: 0 <= n < |evs| && evs[n].call.Authenticate? && evs[n].call.id == id ==>
              ReplyAt(cfg, e, evs, n) == InvalidSession
  {
    if evs != [] {
      var n := |evs| - 1;
      var before := evs[..n];
      DeadForever(cfg, e, before, id, now);
      DeadStep(cfg, After(cfg, e, before), evs[n], id, if before == [] then now else before[n - 1].at);
      forall m | 0 <= m < n && evs[m].call.Authenticate? && evs[m].call.id == id
        ensures ReplyAt(cfg, e, evs, m) == InvalidSession
      {
        assert before[m] == evs[m] && before[..m] == evs[..m];
        assert ReplyAt(cfg, e, before, m) == InvalidSession;
      }
    }
  }

  lemma {:induction false} DeadStep(cfg: Config, e: Engine, ev: Event, id: Name, now: Time)
    requires Dead(cfg, e, id, now) && now <= ev.at
    requires ev.call.Login? ==> ev.call.newId != id
    ensures Dead(cfg, Step(cfg, e, ev).0, id, ev.at)
    ensures ev.call.Authenticate? && ev.call.id == id ==> Step(cfg, e, ev).1 == InvalidSession
  {
  }

  /** A session id that was given out and then refused as invalid is refused for ever. */
  lemma {:induction false} RefusedOnceRefusedForever(cfg: Config, e: Engine, evs: seq<Event>, i: nat, j: nat)
    requires InOrder(evs) && FreshIds(e, evs) && i < j < |evs|
    requires evs[i].call.Authenticate? && evs[j].call.Authenticate? && evs[i].call.id == evs[j].call.id
    requires evs[i].call.id in After(cfg, e, evs[..i]).issued
    requires ReplyAt(cfg, e, evs, i) == InvalidSession
    ensures ReplyAt(cfg, e, evs, j) == InvalidSession
  {
    var id, now := evs[i].call.id, evs[i].at;
    var d := After(cfg, e, evs[..i]);
    var more := evs[i..];
    assert forall n :: 0 <= n < |more| ==> more[n] == evs[i + n];
    IssuedOnly(cfg, e, evs[..i]);
    assert FreshIds(d, more);
    DeadForever(cfg, d, more, id, now);
    AfterAppend(cfg, e, evs[..i], more[..j - i]);
    assert evs[..i] + more[..j - i] == evs[..j];
    assert ReplyAt(cfg, d, more, j - i) == ReplyAt(cfg, e, evs, j);
  }

  lemma {:induction false} AfterAppend(cfg: Config, e: Engine, first: seq<Event>, more: seq<Event>)
    ensures After(cfg, e, first + more) == After(cfg, After(cfg, e, first), more)
  {
    hide Step;
    if more == [] {
      assert first + more == first;
    } else {
      var n := |more| - 1;
      assert (first + more)[..|first| + n] == first + more[..n];
      AfterAppend(cfg, e, first, more[..n]);
    }
  }

  /** Ids given out during a run are those of its logins. */
  lemma {:induction false} IssuedOnly(cfg: Config, e: Engine, evs: seq<Event>)
    ensures forall id :: id in After(cfg, e, evs).issued ==>
              id in e.issued || exists n :: 0 <= n < |evs| && evs[n].call.Login? && evs[n].call.newId == id
  {
    if evs != [] {
      var n := |evs| - 1;
      IssuedOnly(cfg, e, evs[..n]);
      assert forall m :: 0 <= m < n ==> evs[..n][m] == evs[m];
    }
  }

  // ---------------------------------------------------------------------------
  // Who is let in
  // ---------------------------------------------------------------------------

  /** The last registration of a user in a run, as password and role. */
  function Registration(evs: seq<Event>, user: Name): Option<(Name, int)> {
    if evs == [] then None
    else
      var c := evs[|evs| - 1].call;
      if c.Register? && c.user == user && c.password != "" then Some((c.password, c.role))
      else Registration(evs[..|evs| - 1], user)
  }

  lemma {:induction false} AccountIsTheRegistration(cfg: Config, evs: seq<Event>, user: Name)
    ensures
      var e := After(cfg, EMPTY, evs);
      && (user in e.accounts <==> Registration(evs, user).Some?)
      && (user in e.accounts ==> Registration(evs, user) == Some((e.accounts[user].password, e.accounts[user].role)))
  {
    if evs != [] {
      AccountIsTheRegistration(cfg, evs[..|evs| - 1], user);
    }
  }

  /** When a login is let in, what it leaves behind, and what every other login leaves. */
  lemma {:induction false} LoginMeans(cfg: Config, e: Engine, user: Name, password: Name, prior: Option<Name>, newId: Name, csrf: Name, now: Time)
    ensures
      var (d, reply) := Step(cfg, e, Event(Login(user, password, prior, newId, csrf), now));
      if user !in e.accounts then d == e && reply == InvalidCredentials
      else
        var a := e.accounts[user];
        if a.lockedUntil.Some? && now < a.lockedUntil.value then d == e && reply == Locked
        else if password != a.password then
          && reply == InvalidCredentials && d == e.(accounts := d.accounts) && user in d.accounts
          && d.accounts == e.accounts[user := d.accounts[user]]
          && d.accounts[user].password == a.password && d.accounts[user].role == a.role
          && d.accounts[user].failed == a.failed + 1
          && d.accounts[user].lockedUntil == (if a.failed + 1 >= cfg.maxFailed then Some(now + cfg.lockout) else a.lockedUntil)
        else
          var s := Session(user, a.role, csrf, now, now, false);
          && reply == Granted(s) && newId in d.sessions && d.sessions[newId] == s && d.issued == e.issued + {newId}
          && d.accounts == e.accounts[user := Account(a.password, a.role, 0, None)]
          && (forall id :: id != newId ==> (id in d.sessions <==> id in e.sessions && prior != Some(id)))
          && (forall id :: id != newId && id in d.sessions ==> d.sessions[id] == e.sessions[id])
  {
  }

  /** In any run a login is let in if and only if the account is not locked and the password is that of the last
      registration. */
  lemma {:induction false} GrantedIff(cfg: Config, past: seq<Event>, ev: Event)
    requires ev.call.Login?
    ensures
      var e := After(cfg, EMPTY, past);
      Step(cfg, e, ev).1.Granted? <==>
        && ev.call.user in e.accounts && !IsLocked(e.accounts[ev.call.user], ev.at)
        && Registration(past, ev.call.user).Some? && Registration(past, ev.call.user).value.0 == ev.call.password
  {
    AccountIsTheRegistration(cfg, past, ev.call.user);
  }

  // ---------------------------------------------------------------------------
  // How long a session lives
  // ---------------------------------------------------------------------------

  /** The run revokes the session or rotates it away. */
  ghost predicate Ended(cfg: Config, e: Engine, evs: seq<Event>, id: Name) {
    exists n :: 0 <= n < |evs| && Ends(cfg, e, evs, id, n)
  }

  ghost predicate Ends(cfg: Config, e: Engine, evs: seq<Event>, id: Name, n: nat)
    requires n < |evs|
  {
    || evs[n].call == Revoke(id)
    || (evs[n].call.Login? && evs[n].call.prior == Some(id) && ReplyAt(cfg, e, evs, n).Granted?)
  }

  lemma {:induction false} EndedStep(cfg: Config, e: Engine, evs: seq<Event>, id: Name)
    requires evs != []
    ensures
      var n := |evs| - 1;
      Ended(cfg, e, evs, id) <==> Ended(cfg, e, evs[..n], id) || Ends(cfg, e, evs, id, n)
  {
    hide After, Step;
    var n := |evs| - 1;
    forall k | 0 <= k < n
      ensures Ends(cfg, e, evs[..n], id, k) <==> Ends(cfg, e, evs, id, k)
    {
      assert evs[..n][..k] == evs[..k];
    }
    if k :| 0 <= k < |evs| && Ends(cfg, e, evs, id, k) && k < n {
      assert Ends(cfg, e, evs[..n], id, k);
    }
    if k :| 0 <= k < n && Ends(cfg, e, evs[..n], id, k) {
      assert Ends(cfg, e, evs, id, k);
    }
  }

  /** When the session was last used: at the latest request that was let through, or when it began. */
  function LastUse(cfg: Config, e: Engine, evs: seq<Event>, id: Name, began: Time): Time {
    if evs == [] then began
    else
      var n := |evs| - 1;
      if evs[n].call.Authenticate? && evs[n].call.id == id && ReplyAt(cfg, e, evs, n).Granted? then evs[n].at
      else LastUse(cfg, e, evs[..n], id, began)
  }

  /** What the engine holds of a session: itself with its last use, unless it was revoked or rotated away. */
  lemma {:induction false} SessionIsTracked(cfg: Config, e: Engine, evs: seq<Event>, id: Name)
    requires id in e.sessions && !e.sessions[id].revoked && id in e.issued && FreshIds(e, evs)
    ensures
      var d, s := After(cfg, e, evs), e.sessions[id];
      if Ended(cfg, e, evs, id) then id in d.sessions ==> d.sessions[id].revoked
      else id in d.sessions && d.sessions[id] == s.(lastSeen := LastUse(cfg, e, evs, id, s.lastSeen))
  {
    if evs != [] {
      var n := |evs| - 1;
      SessionIsTracked(cfg, e, evs[..n], id);
      EndedStep(cfg, e, evs, id);
      var d := After(cfg, e, evs[..n]);
      hide Ended;
      assert evs[n].call.Login? ==> evs[n].call.newId != id;
    } else {
      assert !Ended(cfg, e, evs, id);
    }
  }

  /** A request is let through if and only if its session was neither revoked nor rotated away, was used within the
      idle time, is within the absolute time, and the token is its own where one is needed. */
  lemma {:induction false} AuthenticatedIff(cfg: Config, e: Engine, evs: seq<Event>, id: Name, token: Option<Name>, mutating: bool, now: Time)
    requires id in e.sessions && !e.sessions[id].revoked && id in e.issued && FreshIds(e, evs)
    ensures
      var s := e.sessions[id];
      Step(cfg, After(cfg, e, evs), Event(Authenticate(id, token, mutating), now)).1.Granted? <==>
        && !Ended(cfg, e, evs, id)
        && now - LastUse(cfg, e, evs, id, s.lastSeen) <= cfg.idle
        && now - s.createdAt <= cfg.absolute
        && (mutating ==> token == Some(s.csrf))
  {
    hide Ended, LastUse, After;
    SessionIsTracked(cfg, e, evs, id);
  }

  /** In any run every session the engine holds is under an id that it issued. */
  lemma {:induction false} SessionsAreIssued(cfg: Config, evs: seq<Event>, id: Name)
    ensures id in After(cfg, EMPTY, evs).sessions ==> id in After(cfg, EMPTY, evs).issued
  {
    if evs != [] {
      SessionsAreIssued(cfg, evs[..|evs| - 1], id);
    }
  }

  /** A request that is not let through changes nothing; one that is only marks the use. */
  lemma {:induction false} RequestMeans(cfg: Config, e: Engine, id: Name, token: Option<Name>, mutating: bool, now: Time)
    ensures
      var (d, reply) := Step(cfg, e, Event(Authenticate(id, token, mutating), now));
      if reply.Granted? then
        && id in e.sessions && reply.session == e.sessions[id].(lastSeen := now)
        && d == e.(sessions := e.sessions[id := reply.session])
      else
        d == e && (reply == BadCsrf <==> id in e.sessions && IsValid(cfg, e.sessions[id], now))
  {
  }

  /** A registration starts afresh: no failures and no lock; an empty password is refused. */
  lemma {:induction false} RegisterMeans(cfg: Config, e: Engine, user: Name, password: Name, role: int, now: Time)
    ensures
      var (d, reply) := Step(cfg, e, Event(Register(user, password, role), now));
      if password == "" then d == e && reply == EmptyPassword
      else reply == Done && d == e.(accounts := e.accounts[user := Account(password, role, 0, None)])
  {
  }
}
