/**
 The device registry and its lease table. Every lock-protected section of the service is
 one atomic step; a claim is three of them (authenticate, take a Work from the store,
 record the lease), so calls of any number of devices interleave between them.
 */
module DeviceLeases {
  import opened Common
  import opened Lifecycle

  type DeviceId = string
  type WorkId = string
  type Token = string
  type LeaseId = string
  type CodeId = string

  const CODE_TTL := 600

  datatype DeviceStatus = ONLINE | OFFLINE | REVOKED

  /** The digest of a token is taken to be injective, so the token itself stands for it. */
  datatype Device = Device(
    owner: string, token: Token, status: DeviceStatus, heartbeat: Option<int>, revokedAt: Option<int>, revision: nat)

  datatype LeaseStatus = ACTIVE | COMPLETED | EXPIRED | RELEASED

  datatype Lease = Lease(
    work: WorkId, device: DeviceId, status: LeaseStatus, leasedAt: int, expiresAt: int, completedAt: Option<int>,
    ambiguous: bool, revision: nat)

  datatype Code = Code(owner: string, expiresAt: int, used: bool)

  type Leases = map<LeaseId, Lease>

  datatype Service = Service(
    devices: map<DeviceId, Device>, leases: Leases, byWork: map<WorkId, LeaseId>, codes: map<CodeId, Code>)

  datatype Refusal = UnknownDevice | DeviceRevoked | BadToken | NoSuchLease | LeaseNotActive | BadCode

  /** `_authenticate`: revocation is checked before the token. */
  function Authenticate(devices: map<DeviceId, Device>, d: DeviceId, token: Token): Option<Refusal> {
    if d !in devices then Some(UnknownDevice)
    else if devices[d].status == REVOKED then Some(DeviceRevoked)
    else if devices[d].token != token then Some(BadToken)
    else None
  }

  predicate LeaseExpired(l: Lease, now: int) { l.status == ACTIVE && now > l.expiresAt }

  // ---------------------------------------------------------------------------
  // What each section does to the service
  // ---------------------------------------------------------------------------

  function CodeIssued(s: Service, code: CodeId, owner: string, now: int): Service {
    s.(codes := s.codes[code := Code(owner, now + CODE_TTL, false)])
  }

  predicate CodeUsable(s: Service, code: CodeId, now: int) {
    code in s.codes && !s.codes[code].used && now <= s.codes[code].expiresAt
  }

  function Registered(s: Service, code: CodeId, d: DeviceId, token: Token, now: int): Service {
    if !CodeUsable(s, code, now) then s
    else s.(codes := s.codes[code := s.codes[code].(used := true)],
            devices := s.devices[d := Device(s.codes[code].owner, token, OFFLINE, None, None, 1)])
  }

  function Beaten(s: Service, d: DeviceId, token: Token, now: int): Service {
    if Authenticate(s.devices, d, token) != None then s
    else s.(devices := s.devices[d := s.devices[d].(status := ONLINE, heartbeat := Some(now), revision := s.devices[d].revision + 1)])
  }

  function Close(l: Lease, status: LeaseStatus): Lease {
    l.(status := status, revision := l.revision + 1, completedAt := None, ambiguous := false)
  }

  predicate ReleasedBy(l: Lease, d: DeviceId) { l.device == d && l.status == ACTIVE }

  function WorksOf(leases: Leases, ids: set<LeaseId>): set<WorkId>
    requires ids <= leases.Keys
  {
    set id | id in ids :: leases[id].work
  }

  /** The index after every lease in `gone` has been closed. */
  function Without(byWork: map<WorkId, LeaseId>, leases: Leases, gone: set<LeaseId>): map<WorkId, LeaseId>
    requires gone <= leases.Keys
  {
    byWork - WorksOf(leases, gone)
  }

  function RevokedLeases(leases: Leases, d: DeviceId): Leases {
    map id | id in leases :: if ReleasedBy(leases[id], d) then Close(leases[id], RELEASED) else leases[id]
  }

  predicate MayRevoke(s: Service, owner: string, d: DeviceId) { d in s.devices && s.devices[d].owner == owner }

  function Revoked(s: Service, owner: string, d: DeviceId, now: int): Service {
    if !MayRevoke(s, owner, d) then s
    else Service(
      s.devices[d := s.devices[d].(status := REVOKED, revokedAt := Some(now), revision := s.devices[d].revision + 1)],
      RevokedLeases(s.leases, d),
      Without(s.byWork, s.leases, set id | id in s.leases && ReleasedBy(s.leases[id], d)),
      s.codes)
  }

  function Leased(s: Service, id: LeaseId, work: WorkId, d: DeviceId, now: int, ttl: int): Service {
    s.(leases := s.leases[id := Lease(work, d, ACTIVE, now, now + ttl, None, false, 1)], byWork := s.byWork[work := id])
  }

  predicate Usable(s: Service, d: DeviceId, token: Token, id: LeaseId) {
    && Authenticate(s.devices, d, token) == None
    && id in s.leases && s.leases[id].device == d && s.leases[id].status == ACTIVE
  }

  function Renewed(s: Service, d: DeviceId, token: Token, id: LeaseId, now: int, ttl: int): Service {
    if !Usable(s, d, token, id) then s
    else s.(leases := s.leases[id := s.leases[id].(
      expiresAt := now + ttl, revision := s.leases[id].revision + 1, completedAt := None, ambiguous := false)])
  }

  /** The locked half of `complete_work`. */
  function Completed(s: Service, d: DeviceId, token: Token, id: LeaseId, now: int): Service {
    if !Usable(s, d, token, id) then s
    else s.(leases := s.leases[id := Close(s.leases[id], COMPLETED).(completedAt := Some(now))],
            byWork := s.byWork - {s.leases[id].work})
  }

  function SweptLeases(leases: Leases, now: int): Leases {
    map id | id in leases ::
      if LeaseExpired(leases[id], now) then Close(leases[id], EXPIRED).(ambiguous := true) else leases[id]
  }

  function Swept(s: Service, now: int): Service {
    s.(leases := SweptLeases(s.leases, now),
       byWork := Without(s.byWork, s.leases, set id | id in s.leases && LeaseExpired(s.leases[id], now)))
  }

  // ---------------------------------------------------------------------------
  // The service object
  // ---------------------------------------------------------------------------

  class DeviceAgentService {
    var devices: map<DeviceId, Device>
    var leases: Leases
    var byWork: map<WorkId, LeaseId>
    var codes: map<CodeId, Code>

    ghost function Value(): Service
      reads this
    {
      Service(devices, leases, byWork, codes)
    }

    constructor ()
      ensures Value() == Service(map[], map[], map[], map[])
    {
      devices, leases, byWork, codes := map[], map[], map[], map[];
    }

    method IssueRegistrationCode(code: CodeId, owner: string, now: int)
      modifies this
      ensures Value() == CodeIssued(old(Value()), code, owner, now)
    {
      codes := codes[code := Code(owner, now + CODE_TTL, false)];
    }

    method RegisterDevice(code: CodeId, d: DeviceId, token: Token, now: int) returns (refused: Option<Refusal>)
      modifies this
      ensures refused == None <==> CodeUsable(old(Value()), code, now)
      ensures Value() == Registered(old(Value()), code, d, token, now)
    {
      if code !in codes || codes[code].used || now > codes[code].expiresAt {
        return Some(BadCode);
      }
      var owner := codes[code].owner;
      codes := codes[code := codes[code].(used := true)];
      devices := devices[d := Device(owner, token, OFFLINE, None, None, 1)];
      refused := None;
    }

    method Heartbeat(d: DeviceId, token: Token, now: int) returns (refused: Option<Refusal>)
      modifies this
      ensures refused == Authenticate(old(devices), d, token)
      ensures Value() == Beaten(old(Value()), d, token, now)
    {
      refused := Authenticate(devices, d, token);
      if refused == None {
        var device := devices[d];
        devices := devices[d := device.(status := ONLINE, heartbeat := Some(now), revision := device.revision + 1)];
      }
    }

    /** Revokes the token and closes the device's active leases one by one. */
    method RevokeDevice(owner: string, d: DeviceId, now: int) returns (found: bool)
      modifies this
      ensures found <==> MayRevoke(old(Value()), owner, d)
      ensures Value() == Revoked(old(Value()), owner, d, now)
    {
      hide WorksOf, Without;
      if d !in devices || devices[d].owner != owner {
        return false;
      }
      devices := devices[d := devices[d].(status := REVOKED, revokedAt := Some(now), revision := devices[d].revision + 1)];
      ghost var before, index := leases, byWork;
      ghost var hit := set id | id in leases && ReleasedBy(leases[id], d);
      WithoutNone(byWork, leases);
      var todo := leases.Keys;
      assert hit - todo == {};
      while todo != {}
        invariant todo <= before.Keys == leases.Keys && codes == old(codes)
        invariant devices == Revoked(old(Value()), owner, d, now).devices
        invariant forall id :: id in before ==>
                    leases[id] == if id !in todo && ReleasedBy(before[id], d) then Close(before[id], RELEASED) else before[id]
        invariant byWork == Without(index, before, hit - todo)
        decreases todo
      {
        var id :| id in todo;
        var lease := leases[id];
        if lease.device == d && lease.status == ACTIVE {
          leases := leases[id := Close(lease, RELEASED)];
          byWork := byWork - {lease.work};
          WithoutOneMore(index, before, hit - todo, id);
          assert hit - (todo - {id}) == (hit - todo) + {id};
        } else {
          assert hit - (todo - {id}) == hit - todo;
        }
        todo := todo - {id};
      }
      assert hit - todo == hit;
      found := true;
    }

    /** Flags every lease past its time; its Work is not handed out again. */
    method SweepExpiredLeases(now: int) returns (flagged: seq<WorkId>)
      modifies this
      ensures Value() == Swept(old(Value()), now)
      ensures (set w | w in flagged) == WorksOf(old(leases), set id | id in old(leases) && LeaseExpired(old(leases)[id], now))
    {
      hide WorksOf, Without;
      ghost var before, index := leases, byWork;
      ghost var hit := set id | id in leases && LeaseExpired(leases[id], now);
      WithoutNone(byWork, leases);
      var todo := leases.Keys;
      assert hit - todo == {};
      flagged := [];
      while todo != {}
        invariant todo <= before.Keys == leases.Keys && devices == old(devices) && codes == old(codes)
        invariant forall id :: id in before ==>
                    leases[id] == if id !in todo && LeaseExpired(before[id], now)
                                  then Close(before[id], EXPIRED).(ambiguous := true) else before[id]
        invariant byWork == Without(index, before, hit - todo)
        invariant (set w | w in flagged) == WorksOf(before, hit - todo)
        decreases todo
      {
        var id :| id in todo;
        var lease := leases[id];
        if LeaseExpired(lease, now) {
          leases := leases[id := Close(lease, EXPIRED).(ambiguous := true)];
          byWork := byWork - {lease.work};
          ghost var was := flagged;
          flagged := flagged + [lease.work];
          assert (set w | w in flagged) == (set w | w in was) + {lease.work};
          WithoutOneMore(index, before, hit - todo, id);
          assert hit - (todo - {id}) == (hit - todo) + {id};
        } else {
          assert hit - (todo - {id}) == hit - todo;
        }
        todo := todo - {id};
      }
      assert hit - todo == hit;
    }

    /** The last section of a claim: the store has already handed over `work`. */
    method GrantLease(id: LeaseId, work: WorkId, d: DeviceId, now: int, ttl: int)
      modifies this
      ensures Value() == Leased(old(Value()), id, work, d, now, ttl)
    {
      leases := leases[id := Lease(work, d, ACTIVE, now, now + ttl, None, false, 1)];
      byWork := byWork[work := id];
    }

    method RenewLease(d: DeviceId, token: Token, id: LeaseId, now: int, ttl: int) returns (refused: Option<Refusal>)
      modifies this
      ensures refused == None <==> Usable(old(Value()), d, token, id)
      ensures Value() == Renewed(old(Value()), d, token, id, now, ttl)
    {
      refused := Authenticate(devices, d, token);
      if refused != None {
        return;
      }
      if id !in leases || leases[id].device != d {
        return Some(NoSuchLease);
      }
      if leases[id].status != ACTIVE {
        return Some(LeaseNotActive);
      }
      leases := leases[id := leases[id].(
        expiresAt := now + ttl, revision := leases[id].revision + 1, completedAt := None, ambiguous := false)];
    }

    method CompleteLease(d: DeviceId, token: Token, id: LeaseId, now: int) returns (refused: Option<Refusal>)
      modifies this
      ensures refused == None <==> Usable(old(Value()), d, token, id)
      ensures Value() == Completed(old(Value()), d, token, id, now)
    {
      refused := Authenticate(devices, d, token);
      if refused != None {
        return;
      }
      if id !in leases || leases[id].device != d {
        return Some(NoSuchLease);
      }
      if leases[id].status != ACTIVE {
        return Some(LeaseNotActive);
      }
      var work := leases[id].work;
      leases := leases[id := Close(leases[id], COMPLETED).(completedAt := Some(now))];
      byWork := byWork - {work};
    }

    /** The active lease of a Work, by way of the index. */
    method LeaseForWork(work: WorkId) returns (lease: Option<Lease>)
      requires IndexOk(Value())
      ensures lease.Some? <==> exists id :: id in leases && leases[id].work == work && leases[id].status == ACTIVE
      ensures lease.Some? ==> lease.value.work == work && lease.value.status == ACTIVE && lease.value in leases.Values
    {
      if work in byWork {
        lease := Some(leases[byWork[work]]);
      } else {
        lease := None;
      }
    }
  }

  lemma WithoutNone(byWork: map<WorkId, LeaseId>, leases: Leases)
    ensures WorksOf(leases, {}) == {} && Without(byWork, leases, {}) == byWork
  {
  }

  lemma WithoutOneMore(byWork: map<WorkId, LeaseId>, leases: Leases, gone: set<LeaseId>, id: LeaseId)
    requires gone <= leases.Keys && id in leases
    ensures WorksOf(leases, gone + {id}) == WorksOf(leases, gone) + {leases[id].work}
    ensures Without(byWork, leases, gone + {id}) == Without(byWork, leases, gone) - {leases[id].work}
  {
  }

  /** The index maps exactly the Work of each ACTIVE lease to that lease. */
  ghost predicate IndexOk(s: Service) {
    forall w, id :: (w in s.byWork && s.byWork[w] == id) <==>
      (id in s.leases && s.leases[id].work == w && s.leases[id].status == ACTIVE)
  }

  // ---------------------------------------------------------------------------
  // All interleavings
  // ---------------------------------------------------------------------------

  type Pid = nat

  /** A claim in flight: authenticated, or already holding a Work that has no lease yet. */
  datatype Claim = Authenticated(device: DeviceId) | Holding(device: DeviceId, work: WorkId)

  datatype System = System(service: Service, works: map<WorkId, WorkStatus>, claims: map<Pid, Claim>)

  datatype Action =
    | IssueCode(code: CodeId, owner: string, now: int)
    | Register(code: CodeId, d: DeviceId, token: Token, now: int)
    | Beat(d: DeviceId, token: Token, now: int)
    | Revoke(owner: string, d: DeviceId, now: int)
    | ClaimStart(pid: Pid, d: DeviceId, token: Token)
    | ClaimTake(pid: Pid, work: WorkId)
    | ClaimGrant(pid: Pid, id: LeaseId, now: int, ttl: int)
    | ClaimCrash(pid: Pid)
    | Renew(d: DeviceId, token: Token, id: LeaseId, now: int, ttl: int)
    | Complete(d: DeviceId, token: Token, id: LeaseId, now: int)
    | Sweep(now: int)
    | CreateWork(work: WorkId)
    | OtherWriter(work: WorkId, target: WorkStatus, evidence: bool)

  /** New ids are fresh: an action that would reuse one does not happen. */
  function Next(s: System, a: Action): System {
    match a
    case IssueCode(code, owner, now) =>
      if code in s.service.codes then s else s.(service := CodeIssued(s.service, code, owner, now))
    case Register(code, d, token, now) =>
      if d in s.service.devices then s else s.(service := Registered(s.service, code, d, token, now))
    case Beat(d, token, now) => s.(service := Beaten(s.service, d, token, now))
    case Revoke(owner, d, now) => s.(service := Revoked(s.service, owner, d, now))
    case ClaimStart(pid, d, token) =>
      if pid in s.claims || Authenticate(s.service.devices, d, token) != None then s
      else s.(claims := s.claims[pid := Authenticated(d)])
    case ClaimTake(pid, work) =>
      if pid !in s.claims || !s.claims[pid].Authenticated? || work !in s.works || s.works[work] != WorkPending then s
      else s.(works := s.works[work := WorkRunning], claims := s.claims[pid := Holding(s.claims[pid].device, work)])
    case ClaimGrant(pid, id, now, ttl) =>
      if pid !in s.claims || !s.claims[pid].Holding? || id in s.service.leases then s
      else s.(service := Leased(s.service, id, s.claims[pid].work, s.claims[pid].device, now, ttl), claims := s.claims - {pid})
    case ClaimCrash(pid) => s.(claims := s.claims - {pid})
    case Renew(d, token, id, now, ttl) => s.(service := Renewed(s.service, d, token, id, now, ttl))
    case Complete(d, token, id, now) => s.(service := Completed(s.service, d, token, id, now))
    case Sweep(now) => s.(service := Swept(s.service, now))
    case CreateWork(work) => if work in s.works then s else s.(works := s.works[work := WorkPending])
    case OtherWriter(work, target, evidence) =>
      if work in s.works && TransitionWork(s.works[work], target, evidence).Allowed?
      then s.(works := s.works[work := target]) else s
  }

  const Initial := System(Service(map[], map[], map[], map[]), map[], map[])

  function After(s: System, acts: seq<Action>): System {
    if acts == [] then s else Next(After(s, acts[..|acts| - 1]), acts[|acts| - 1])
  }

  predicate Taken(works: map<WorkId, WorkStatus>, w: WorkId) { w in works && works[w] != WorkPending }

  ghost predicate LeasesOk(s: Service, works: map<WorkId, WorkStatus>) {
    && IndexOk(s)
    && (forall a, b :: a in s.leases && b in s.leases && s.leases[a].work == s.leases[b].work ==> a == b)
    && (forall id :: id in s.leases ==>
          Taken(works, s.leases[id].work) && (s.leases[id].ambiguous <==> s.leases[id].status == EXPIRED))
  }

  ghost predicate ClaimsOk(s: System) {
    && (forall p :: p in s.claims && s.claims[p].Holding? ==>
          Taken(s.works, s.claims[p].work) && forall id :: id in s.service.leases ==> s.service.leases[id].work != s.claims[p].work)
    && (forall p, q ::
          (p in s.claims && q in s.claims && s.claims[p].Holding? && s.claims[q].Holding?
           && s.claims[p].work == s.claims[q].work) ==> p == q)
  }

  ghost predicate Inv(s: System) { LeasesOk(s.service, s.works) && ClaimsOk(s) }

  /** Closing some active leases keeps the table and the index in step. */
  lemma ClosingKeeps(s: Service, s': Service, works: map<WorkId, WorkStatus>, gone: set<LeaseId>)
    requires LeasesOk(s, works) && s'.leases.Keys == s.leases.Keys && gone <= s.leases.Keys
    requires forall id :: id in gone ==> s.leases[id].status == ACTIVE && s'.leases[id].status != ACTIVE
    requires forall id :: id in s.leases ==>
               && s'.leases[id].work == s.leases[id].work
               && (s'.leases[id].ambiguous <==> s'.leases[id].status == EXPIRED)
               && (id !in gone ==> s'.leases[id].status == s.leases[id].status)
    requires s'.byWork == Without(s.byWork, s.leases, gone)
    ensures LeasesOk(s', works)
  {
    assert IndexOk(s') by {
      forall w, id
        ensures (w in s'.byWork && s'.byWork[w] == id) <==>
                  (id in s'.leases && s'.leases[id].work == w && s'.leases[id].status == ACTIVE)
      {
        if id in s.leases && s.leases[id].work == w {
          assert w in WorksOf(s.leases, gone) <==> id in gone;
        }
      }
    }
  }

  lemma RevokeKeeps(s: System, owner: string, d: DeviceId, now: int)
    requires Inv(s)
    ensures Inv(Next(s, Revoke(owner, d, now)))
  {
    if MayRevoke(s.service, owner, d) {
      var gone := set id | id in s.service.leases && ReleasedBy(s.service.leases[id], d);
      ClosingKeeps(s.service, Revoked(s.service, owner, d, now), s.works, gone);
    }
  }

  lemma SweepKeeps(s: System, now: int)
    requires Inv(s)
    ensures Inv(Next(s, Sweep(now)))
  {
    var gone := set id | id in s.service.leases && LeaseExpired(s.service.leases[id], now);
    ClosingKeeps(s.service, Swept(s.service, now), s.works, gone);
  }

  lemma CompleteKeeps(s: System, d: DeviceId, token: Token, id: LeaseId, now: int)
    requires Inv(s)
    ensures Inv(Next(s, Complete(d, token, id, now)))
  {
    if Usable(s.service, d, token, id) {
      var work := s.service.leases[id].work;
      assert WorksOf(s.service.leases, {id}) == {work};
      ClosingKeeps(s.service, Completed(s.service, d, token, id, now), s.works, {id});
    }
  }

  lemma GrantKeeps(s: System, pid: Pid, id: LeaseId, now: int, ttl: int)
    requires Inv(s)
    ensures Inv(Next(s, ClaimGrant(pid, id, now, ttl)))
  {
    if pid in s.claims && s.claims[pid].Holding? && id !in s.service.leases {
      if s.claims[pid].work in s.service.byWork {
        IndexHit(s.service, s.claims[pid].work);
      }
    }
  }

  lemma IndexHit(s: Service, w: WorkId)
    requires IndexOk(s) && w in s.byWork
    ensures s.byWork[w] in s.leases && s.leases[s.byWork[w]].work == w && s.leases[s.byWork[w]].status == ACTIVE
  {
  }

  /** Anything that leaves the lease table alone, takes no Work back and adds no holder. */
  lemma FrameKeeps(s: System, s': System)
    requires Inv(s)
    requires s'.service.leases == s.service.leases && s'.service.byWork == s.service.byWork
    requires forall w :: Taken(s.works, w) ==> Taken(s'.works, w)
    requires forall p :: p in s'.claims && s'.claims[p].Holding? ==> p in s.claims && s'.claims[p] == s.claims[p]
    ensures Inv(s')
  {
  }

  lemma TakeKeeps(s: System, pid: Pid, work: WorkId)
    requires Inv(s)
    ensures Inv(Next(s, ClaimTake(pid, work)))
  {
  }

  lemma RenewKeeps(s: System, d: DeviceId, token: Token, id: LeaseId, now: int, ttl: int)
    requires Inv(s)
    ensures Inv(Next(s, Renew(d, token, id, now, ttl)))
  {
  }

  lemma NextKeeps(s: System, a: Action)
    requires Inv(s)
    ensures Inv(Next(s, a))
  {
    hide Inv, Revoked, Swept, Completed, Renewed;
    match a
    case Revoke(owner, d, now) => RevokeKeeps(s, owner, d, now);
    case Sweep(now) => SweepKeeps(s, now);
    case Complete(d, token, id, now) => CompleteKeeps(s, d, token, id, now);
    case ClaimGrant(pid, id, now, ttl) => GrantKeeps(s, pid, id, now, ttl);
    case ClaimTake(pid, work) => TakeKeeps(s, pid, work);
    case Renew(d, token, id, now, ttl) => RenewKeeps(s, d, token, id, now, ttl);
    case _ => FrameKeeps(s, Next(s, a));
  }

  lemma {:induction false} ReachableInv(acts: seq<Action>)
    ensures Inv(After(Initial, acts))
  {
    hide Next, Inv;
    if acts == [] {
      InitialInv();
    } else {
      ReachableInv(acts[..|acts| - 1]);
      NextKeeps(After(Initial, acts[..|acts| - 1]), acts[|acts| - 1]);
    }
  }

  lemma InitialInv()
    ensures Inv(Initial)
  {
  }

  /** Over every interleaving a Work gets at most one lease in its whole life. */
  lemma OneLeasePerWork(acts: seq<Action>, a: LeaseId, b: LeaseId)
    requires a in After(Initial, acts).service.leases && b in After(Initial, acts).service.leases
    requires After(Initial, acts).service.leases[a].work == After(Initial, acts).service.leases[b].work
    ensures a == b
  {
    ReachableInv(acts);
  }

  /** The work index always equals the map of ACTIVE leases. */
  lemma IndexIsExact(acts: seq<Action>)
    ensures IndexOk(After(Initial, acts).service)
  {
    ReachableInv(acts);
  }

  /** A leased Work never becomes claimable again, not even after its lease was released. */
  lemma LeasedWorkStaysTaken(acts: seq<Action>, id: LeaseId)
    requires id in After(Initial, acts).service.leases
    ensures Taken(After(Initial, acts).works, After(Initial, acts).service.leases[id].work)
  {
    ReachableInv(acts);
  }

  /** An expired lease is flagged ambiguous, and only an expired one is. */
  lemma AmbiguousIffExpired(acts: seq<Action>, id: LeaseId)
    requires id in After(Initial, acts).service.leases
    ensures
      var lease := After(Initial, acts).service.leases[id];
      lease.ambiguous <==> lease.status == EXPIRED
  {
    ReachableInv(acts);
  }

  // ---------------------------------------------------------------------------
  // What never changes back
  // ---------------------------------------------------------------------------

  /** A lease keeps its Work and device, and once it has left ACTIVE it is frozen. */
  ghost predicate LeaseMoves(l: Lease, l': Lease) {
    && l'.work == l.work && l'.device == l.device
    && (l.status != ACTIVE ==> l' == l)
  }

  predicate IsRevoked(s: System, d: DeviceId) { d in s.service.devices && s.service.devices[d].status == REVOKED }

  lemma StepMoves(s: System, a: Action, id: LeaseId)
    requires id in s.service.leases
    ensures id in Next(s, a).service.leases && LeaseMoves(s.service.leases[id], Next(s, a).service.leases[id])
    ensures IsRevoked(s, s.service.leases[id].device) ==>
              && Next(s, a).service.leases[id].expiresAt == s.service.leases[id].expiresAt
              && (s.service.leases[id].status != COMPLETED ==> Next(s, a).service.leases[id].status != COMPLETED)
  {
  }

  /** Closed leases are final: a lease leaves ACTIVE at most once and is completed at most once. */
  lemma {:induction false} ClosedLeaseIsFinal(s: System, acts: seq<Action>, id: LeaseId)
    requires id in s.service.leases
    ensures id in After(s, acts).service.leases
    ensures LeaseMoves(s.service.leases[id], After(s, acts).service.leases[id])
  {
    hide Next;
    if acts != [] {
      var n := |acts| - 1;
      ClosedLeaseIsFinal(s, acts[..n], id);
      StepMoves(After(s, acts[..n]), acts[n], id);
    }
  }

  lemma RevokedStep(s: System, a: Action, d: DeviceId)
    requires IsRevoked(s, d)
    ensures IsRevoked(Next(s, a), d)
  {
  }

  lemma {:induction false} RevokedForever(s: System, acts: seq<Action>, d: DeviceId)
    requires IsRevoked(s, d)
    ensures IsRevoked(After(s, acts), d)
  {
    hide Next;
    if acts != [] {
      RevokedForever(s, acts[..|acts| - 1], d);
      RevokedStep(After(s, acts[..|acts| - 1]), acts[|acts| - 1], d);
    }
  }

  /** No lease of a revoked device has been completed since `s`. */
  ghost predicate NothingCompleted(s: System, s': System, d: DeviceId) {
    forall id :: id in s'.service.leases && s'.service.leases[id].device == d && s'.service.leases[id].status == COMPLETED ==>
      id in s.service.leases && s.service.leases[id].status == COMPLETED
  }

  lemma NothingCompletedStep(s: System, s': System, a: Action, d: DeviceId)
    requires IsRevoked(s', d) && NothingCompleted(s, s', d)
    ensures NothingCompleted(s, Next(s', a), d)
  {
    var t := Next(s', a);
    forall id | id in t.service.leases && t.service.leases[id].device == d && t.service.leases[id].status == COMPLETED
      ensures id in s'.service.leases && s'.service.leases[id].status == COMPLETED && s'.service.leases[id].device == d
    {
      if id in s'.service.leases {
        StepMoves(s', a, id);
      }
    }
  }

  /**
   After a revocation none of the device's leases is ever renewed or completed again,
   including leases granted afterwards by claims that were in flight.
   */
  lemma {:induction false} RevokedDeviceIsPowerless(s: System, acts: seq<Action>, d: DeviceId)
    requires IsRevoked(s, d)
    ensures NothingCompleted(s, After(s, acts), d)
    ensures forall id :: id in s.service.leases && s.service.leases[id].device == d ==>
              id in After(s, acts).service.leases
              && After(s, acts).service.leases[id].expiresAt == s.service.leases[id].expiresAt
  {
    hide Next;
    if acts != [] {
      var n := |acts| - 1;
      RevokedDeviceIsPowerless(s, acts[..n], d);
      RevokedForever(s, acts[..n], d);
      NothingCompletedStep(s, After(s, acts[..n]), acts[n], d);
      forall id | id in s.service.leases && s.service.leases[id].device == d
        ensures id in After(s, acts).service.leases
                && After(s, acts).service.leases[id].expiresAt == s.service.leases[id].expiresAt
      {
        ClosedLeaseIsFinal(s, acts[..n], id);
        StepMoves(After(s, acts[..n]), acts[n], id);
      }
    }
  }

  // ---------------------------------------------------------------------------
  // Claims in flight across a revocation
  // ---------------------------------------------------------------------------

  /** The device holds nothing and has no claim under way. */
  ghost predicate Quiet(s: System, d: DeviceId) {
    && IsRevoked(s, d)
    && (forall p :: p in s.claims ==> s.claims[p].device != d)
    && (forall id :: id in s.service.leases && s.service.leases[id].device == d ==> s.service.leases[id].status != ACTIVE)
  }

  lemma QuietStep(s: System, a: Action, d: DeviceId)
    requires Quiet(s, d)
    ensures Quiet(Next(s, a), d)
  {
    RevokedStep(s, a, d);
    var t := Next(s, a);
    forall id | id in t.service.leases && t.service.leases[id].device == d
      ensures t.service.leases[id].status != ACTIVE
    {
      if id in s.service.leases {
        StepMoves(s, a, id);
      }
    }
  }

  /** A device revoked with no claim in flight never holds an active lease again. */
  lemma {:induction false} RevokeIsComplete(s: System, owner: string, d: DeviceId, now: int, acts: seq<Action>)
    requires MayRevoke(s.service, owner, d) && forall p :: p in s.claims ==> s.claims[p].device != d
    ensures Quiet(After(Next(s, Revoke(owner, d, now)), acts), d)
  {
    hide Next;
    if acts == [] {
      RevokeQuiets(s, owner, d, now);
    } else {
      var n := |acts| - 1;
      RevokeIsComplete(s, owner, d, now, acts[..n]);
      QuietStep(After(Next(s, Revoke(owner, d, now)), acts[..n]), acts[n], d);
    }
  }

  lemma RevokeQuiets(s: System, owner: string, d: DeviceId, now: int)
    requires MayRevoke(s.service, owner, d) && forall p :: p in s.claims ==> s.claims[p].device != d
    ensures Quiet(Next(s, Revoke(owner, d, now)), d)
  {
  }

  /** A name longer than every name of a set. */
  lemma {:induction false} NewName(names: set<string>) returns (name: string)
    ensures forall n :: n in names ==> |n| < |name|
    decreases |names|
  {
    if names == {} {
      name := "n";
    } else {
      var m :| m in names;
      var rest := NewName(names - {m});
      name := rest + m + "n";
      forall n | n in names
        ensures |n| < |name|
      {
        assert n == m || n in names - {m};
      }
    }
  }

  ghost predicate HoldsActive(s: System, d: DeviceId) {
    exists id :: id in s.service.leases && s.service.leases[id].device == d && s.service.leases[id].status == ACTIVE
  }

  lemma {:induction false} AfterSnoc(s: System, acts: seq<Action>, a: Action)
    ensures After(s, acts + [a]) == Next(After(s, acts), a)
  {
    assert (acts + [a])[..|acts|] == acts;
  }

  /** A claim that already holds its Work ends in an ACTIVE lease, whoever was revoked meanwhile. */
  lemma {:induction false} HolderGetsItsLease(s: System, pid: Pid) returns (a: Action)
    requires pid in s.claims && s.claims[pid].Holding?
    ensures HoldsActive(Next(s, a), s.claims[pid].device)
  {
    var id := NewName(s.service.leases.Keys);
    a := ClaimGrant(pid, id, 0, 0);
    assert id !in s.service.leases;
    var t := Next(s, a);
    assert id in t.service.leases && t.service.leases[id].device == s.claims[pid].device && t.service.leases[id].status == ACTIVE;
  }

  /** One that is only authenticated does once there is Work. */
  lemma {:induction false} ClaimerGetsItsLease(s: System, pid: Pid) returns (acts: seq<Action>)
    requires pid in s.claims
    ensures HoldsActive(After(s, acts), s.claims[pid].device)
  {
    hide After, HoldsActive;
    NoSteps(s);
    if s.claims[pid].Holding? {
      var grant := HolderGetsItsLease(s, pid);
      acts := [] + [grant];
      AfterSnoc(s, [], grant);
    } else {
      var work := NewName(s.works.Keys);
      var create, take := CreateWork(work), ClaimTake(pid, work);
      assert work !in s.works;
      var t := Next(Next(s, create), take);
      assert t.claims[pid] == Holding(s.claims[pid].device, work);
      var grant := HolderGetsItsLease(t, pid);
      acts := [] + [create] + [take] + [grant];
      AfterSnoc(s, [], create);
      AfterSnoc(s, [] + [create], take);
      AfterSnoc(s, [] + [create] + [take], grant);
    }
  }

  lemma {:induction false} NoSteps(s: System)
    ensures After(s, []) == s
  {
  }

  /**
   A revoked device can come to hold an ACTIVE lease again, which it can never complete, if and
   only if a claim of it was in flight at the revocation.
   */
  lemma {:induction false} RevokedHoldsAgainIff(s: System, owner: string, d: DeviceId, now: int)
    requires MayRevoke(s.service, owner, d)
    ensures
      (exists acts :: HoldsActive(After(Next(s, Revoke(owner, d, now)), acts), d)) <==>
      (exists pid :: pid in s.claims && s.claims[pid].device == d)
  {
    hide Next, After;
    var t := Next(s, Revoke(owner, d, now));
    RevokeKeepsClaims(s, owner, d, now);
    if pid :| pid in s.claims && s.claims[pid].device == d {
      var acts := ClaimerGetsItsLease(t, pid);
      assert HoldsActive(After(t, acts), d);
    } else {
      forall acts
        ensures !HoldsActive(After(t, acts), d)
      {
        RevokeIsComplete(s, owner, d, now, acts);
      }
    }
  }

  lemma {:induction false} RevokeKeepsClaims(s: System, owner: string, d: DeviceId, now: int)
    ensures Next(s, Revoke(owner, d, now)).claims == s.claims
  {
  }

  // ---------------------------------------------------------------------------
  // What each section does, told from outside
  // ---------------------------------------------------------------------------

  /** A token is accepted exactly from a registered device that is not revoked and whose token it is. */
  lemma {:induction false} AuthenticateMeans(devices: map<DeviceId, Device>, d: DeviceId, token: Token)
    ensures Authenticate(devices, d, token) == None <==> d in devices && devices[d].status != REVOKED && devices[d].token == token
    ensures Authenticate(devices, d, token) == Some(UnknownDevice) <==> d !in devices
    ensures Authenticate(devices, d, token) == Some(DeviceRevoked) <==> d in devices && devices[d].status == REVOKED
  {
  }

  /** A sweep expires exactly the ACTIVE leases that are past their time, and touches no other. */
  lemma {:induction false} SweepMeans(s: System, now: int, id: LeaseId)
    requires id in s.service.leases
    ensures
      var l, l' := s.service.leases[id], Next(s, Sweep(now)).service.leases[id];
      if l.status == ACTIVE && now > l.expiresAt then
        l' == l.(status := EXPIRED, ambiguous := true, completedAt := None, revision := l.revision + 1)
      else l' == l
    ensures Next(s, Sweep(now)).service.devices == s.service.devices && Next(s, Sweep(now)).works == s.works
  {
  }

  /** A grant or a renewal gives a lease its time anew; nothing else moves it. */
  lemma {:induction false} TermStep(s: System, a: Action, id: LeaseId)
    requires id in Next(s, a).service.leases
    ensures
      var after := Next(s, a).service.leases[id];
      && (id !in s.service.leases ==>
            a.ClaimGrant? && a.id == id && after.status == ACTIVE && after.expiresAt == a.now + a.ttl && after.leasedAt == a.now
            && a.pid in s.claims && s.claims[a.pid] == Holding(after.device, after.work))
      && (id in s.service.leases ==>
            after.expiresAt == if a.Renew? && a.id == id && Usable(s.service, a.d, a.token, id) then a.now + a.ttl
                               else s.service.leases[id].expiresAt)
  {
  }

  /** Along the way nobody renews the lease, and no sweep comes after time `end`. */
  ghost predicate Undisturbed(acts: seq<Action>, id: LeaseId, end: int) {
    forall n :: 0 <= n < |acts| ==> !(acts[n].Renew? && acts[n].id == id) && (acts[n].Sweep? ==> acts[n].now <= end)
  }

  lemma {:induction false} TermHolds(s: System, acts: seq<Action>, id: LeaseId)
    requires id in s.service.leases && s.service.leases[id].status == ACTIVE
    requires Undisturbed(acts, id, s.service.leases[id].expiresAt)
    ensures
      var t := After(s, acts);
      id in t.service.leases && t.service.leases[id].status != EXPIRED
      && t.service.leases[id].expiresAt == s.service.leases[id].expiresAt
  {
    hide Next;
    if acts != [] {
      var n := |acts| - 1;
      TermHolds(s, acts[..n], id);
      var t := After(s, acts[..n]);
      StepMoves(t, acts[n], id);
      TermStep(t, acts[n], id);
      OnlySweepsExpire(t, acts[n], id);
    }
  }

  lemma {:induction false} OnlySweepsExpire(s: System, a: Action, id: LeaseId)
    requires id in s.service.leases && s.service.leases[id].status != EXPIRED
    ensures
      var t := Next(s, a);
      id in t.service.leases
      && (t.service.leases[id].status == EXPIRED ==> a.Sweep? && a.now > s.service.leases[id].expiresAt)
  {
    if a.Sweep? {
      SweepMeans(s, a.now, id);
    }
  }

  /** The action gives the lease a term of `ttl` from `now`. */
  ghost predicate GivesTerm(s: System, a: Action, id: LeaseId, now: int, ttl: int) {
    || (a.ClaimGrant? && a.id == id && a.now == now && a.ttl == ttl && a.pid in s.claims && s.claims[a.pid].Holding?
        && id !in s.service.leases)
    || (a.Renew? && a.id == id && a.now == now && a.ttl == ttl && Usable(s.service, a.d, a.token, id))
  }

  /** A lease granted or renewed at `now` for `ttl` is expired by no sweep up to now + ttl, and by the first one
      after that if it is still ACTIVE. */
  lemma {:induction false} LeaseLivesItsTerm(s: System, a: Action, id: LeaseId, now: int, ttl: int, acts: seq<Action>, sweep: int)
    requires GivesTerm(s, a, id, now, ttl) && Undisturbed(acts, id, now + ttl)
    ensures
      var t := After(Next(s, a), acts);
      && id in t.service.leases && t.service.leases[id].status != EXPIRED
      && (t.service.leases[id].status == ACTIVE ==>
            (Next(t, Sweep(sweep)).service.leases[id].status == EXPIRED <==> sweep > now + ttl))
  {
    var s1 := Next(s, a);
    assert id in s1.service.leases && s1.service.leases[id].status == ACTIVE && s1.service.leases[id].expiresAt == now + ttl;
    TermHolds(s1, acts, id);
    var t := After(s1, acts);
    SweepMeans(t, sweep, id);
  }

  /** A completion closes exactly the device's own ACTIVE lease, with the time. */
  lemma {:induction false} CompleteMeans(s: System, d: DeviceId, token: Token, id: LeaseId, now: int)
    requires id in s.service.leases
    ensures
      var l, t := s.service.leases[id], Next(s, Complete(d, token, id, now));
      if Authenticate(s.service.devices, d, token) == None && l.device == d && l.status == ACTIVE then
        && t.service.leases == s.service.leases[id := l.(status := COMPLETED, completedAt := Some(now), ambiguous := false, revision := l.revision + 1)]
        && t.service.byWork == s.service.byWork - {l.work}
      else t == s
  {
  }

  /** A renewal leaves the lease ACTIVE and changes no other; it is refused to everybody else. */
  lemma {:induction false} RenewMeans(s: System, d: DeviceId, token: Token, id: LeaseId, now: int, ttl: int)
    requires id in s.service.leases
    ensures
      var l, t := s.service.leases[id], Next(s, Renew(d, token, id, now, ttl));
      if Authenticate(s.service.devices, d, token) == None && l.device == d && l.status == ACTIVE then
        && t.service.leases == s.service.leases[id := t.service.leases[id]]
        && t.service.leases[id] == Lease(l.work, l.device, ACTIVE, l.leasedAt, now + ttl, None, false, l.revision + 1)
        && t.service.byWork == s.service.byWork
      else t == s
  {
  }

  /** A revocation by the owner releases exactly the device's ACTIVE leases; by anybody else it does nothing. */
  lemma {:induction false} RevokeMeans(s: System, owner: string, d: DeviceId, now: int, id: LeaseId)
    requires id in s.service.leases
    ensures
      var l, t := s.service.leases[id], Next(s, Revoke(owner, d, now));
      if d in s.service.devices && s.service.devices[d].owner == owner then
        && IsRevoked(t, d) && t.service.devices[d].revokedAt == Some(now)
        && t.service.devices[d].revision == s.service.devices[d].revision + 1
        && (forall e :: e != d ==> (e in t.service.devices <==> e in s.service.devices))
        && (forall e :: e in s.service.devices && e != d ==> t.service.devices[e] == s.service.devices[e])
        && t.service.leases[id].status == (if l.device == d && l.status == ACTIVE then RELEASED else l.status)
        && (l.device != d || l.status != ACTIVE ==> t.service.leases[id] == l)
      else t == s
  {
  }

  /** A code that can be redeemed makes a device of its owner with the token given, and is used up; any other code
      does nothing. */
  lemma {:induction false} RegisterMeans(s: System, code: CodeId, d: DeviceId, token: Token, now: int)
    requires d !in s.service.devices
    ensures
      var t := Next(s, Register(code, d, token, now));
      if code in s.service.codes && !s.service.codes[code].used && now <= s.service.codes[code].expiresAt then
        && d in t.service.devices && t.service.devices == s.service.devices[d := t.service.devices[d]]
        && t.service.devices[d] == Device(s.service.codes[code].owner, token, OFFLINE, None, None, 1)
        && Authenticate(t.service.devices, d, token) == None
        && code in t.service.codes && t.service.codes[code].used
      else t == s
  {
  }

  lemma {:induction false} UsedStaysUsed(s: System, acts: seq<Action>, code: CodeId)
    requires code in s.service.codes && s.service.codes[code].used
    ensures code in After(s, acts).service.codes && After(s, acts).service.codes[code].used
  {
    hide Next;
    if acts != [] {
      UsedStaysUsed(s, acts[..|acts| - 1], code);
      UsedStep(After(s, acts[..|acts| - 1]), acts[|acts| - 1], code);
    }
  }

  lemma {:induction false} UsedStep(s: System, a: Action, code: CodeId)
    requires code in s.service.codes && s.service.codes[code].used
    ensures code in Next(s, a).service.codes && Next(s, a).service.codes[code].used
  {
    hide RevokedLeases, SweptLeases, Without;
  }

  /** A code makes at most one device, and only within its time. */
  lemma {:induction false} CodeWorksOnce(s: System, code: CodeId, owner: string, issued: int, d: DeviceId, token: Token, now: int,
                                         later: seq<Action>, e: DeviceId, other: Token, again: int)
    requires code !in s.service.codes && d !in s.service.devices
    ensures
      var t := Next(s, IssueCode(code, owner, issued));
      var r := Next(t, Register(code, d, token, now));
      && (d in r.service.devices <==> now <= issued + CODE_TTL)
      && (d in r.service.devices ==>
            && r.service.devices[d].owner == owner
            && Next(After(r, later), Register(code, e, other, again)) == After(r, later))
  {
    var t := Next(s, IssueCode(code, owner, issued));
    var r := Next(t, Register(code, d, token, now));
    if d in r.service.devices {
      UsedStaysUsed(r, later, code);
    }
  }

  /** A heartbeat marks an accepted device ONLINE, with the time, and nothing else. */
  lemma {:induction false} BeatMeans(s: System, d: DeviceId, token: Token, now: int)
    ensures
      var t := Next(s, Beat(d, token, now));
      if Authenticate(s.service.devices, d, token) == None then
        && t.service == s.service.(devices := t.service.devices) && t.works == s.works && t.claims == s.claims
        && t.service.devices == s.service.devices[d := t.service.devices[d]]
        && t.service.devices[d].status == ONLINE && t.service.devices[d].heartbeat == Some(now)
        && t.service.devices[d].token == token && t.service.devices[d].owner == s.service.devices[d].owner
        && t.service.devices[d].revision == s.service.devices[d].revision + 1
      else t == s
  {
  }

  /** A claim, undisturbed: an accepted device gets an ACTIVE lease on a pending Work, which is then RUNNING and indexed. */
  lemma {:induction false} UndisturbedClaim(s: System, pid: Pid, d: DeviceId, token: Token, work: WorkId, id: LeaseId, now: int, ttl: int)
    requires pid !in s.claims && Authenticate(s.service.devices, d, token) == None
    requires work in s.works && s.works[work] == WorkPending && id !in s.service.leases
    ensures
      var t := Next(Next(Next(s, ClaimStart(pid, d, token)), ClaimTake(pid, work)), ClaimGrant(pid, id, now, ttl));
      && t.works == s.works[work := WorkRunning] && t.claims == s.claims
      && t.service.leases == s.service.leases[id := Lease(work, d, ACTIVE, now, now + ttl, None, false, 1)]
      && t.service.byWork == s.service.byWork[work := id]
  {
    var one := Next(s, ClaimStart(pid, d, token));
    var two := Next(one, ClaimTake(pid, work));
    assert two.claims[pid] == Holding(d, work);
  }

  /** Without acceptance no claim begins, and without pending Work none takes any. */
  lemma {:induction false} RefusedClaim(s: System, pid: Pid, d: DeviceId, token: Token, work: WorkId)
    ensures pid !in s.claims && pid in Next(s, ClaimStart(pid, d, token)).claims ==> Authenticate(s.service.devices, d, token) == None
    ensures work !in s.works || s.works[work] != WorkPending ==> Next(s, ClaimTake(pid, work)) == s
  {
  }

  /** Whatever changes a lease or a device raises its revision by exactly one. */
  lemma {:induction false} ChangeRaisesTheRevision(s: System, a: Action, id: LeaseId, d: DeviceId)
    ensures id in s.service.leases ==>
              && id in Next(s, a).service.leases
              && (Next(s, a).service.leases[id] == s.service.leases[id]
                  || Next(s, a).service.leases[id].revision == s.service.leases[id].revision + 1)
    ensures d in s.service.devices ==>
              && d in Next(s, a).service.devices
              && (Next(s, a).service.devices[d] == s.service.devices[d]
                  || Next(s, a).service.devices[d].revision == s.service.devices[d].revision + 1)
  {
  }

  /** Over every interleaving exactly the completed leases have a completion time. */
  lemma {:induction false} CompletedIffTimed(acts: seq<Action>, id: LeaseId)
    requires id in After(Initial, acts).service.leases
    ensures
      var lease := After(Initial, acts).service.leases[id];
      lease.completedAt.Some? <==> lease.status == COMPLETED
  {
    hide Next;
    var n := |acts| - 1;
    var before := After(Initial, acts[..n]);
    if id in before.service.leases {
      CompletedIffTimed(acts[..n], id);
    }
    TimedStep(before, acts[n], id);
  }

  lemma {:induction false} TimedStep(s: System, a: Action, id: LeaseId)
    requires id in Next(s, a).service.leases
    requires id in s.service.leases ==> (s.service.leases[id].completedAt.Some? <==> s.service.leases[id].status == COMPLETED)
    ensures
      var lease := Next(s, a).service.leases[id];
      lease.completedAt.Some? <==> lease.status == COMPLETED
  {
  }

  // ---------------------------------------------------------------------------
  // A claim that dies
  // ---------------------------------------------------------------------------

  /** The Work was taken, has no lease, and nobody is about to give it one. */
  ghost predicate Orphaned(s: System, w: WorkId) {
    && Taken(s.works, w)
    && (forall id :: id in s.service.leases ==> s.service.leases[id].work != w)
    && (forall p :: p in s.claims && s.claims[p].Holding? ==> s.claims[p].work != w)
  }

  lemma {:induction false} OrphanedStep(s: System, a: Action, w: WorkId)
    requires Orphaned(s, w)
    ensures Orphaned(Next(s, a), w)
  {
    var t := Next(s, a);
    forall id | id in t.service.leases
      ensures t.service.leases[id].work != w
    {
      if id in s.service.leases {
        StepMoves(s, a, id);
      }
    }
  }

  /** A claim that dies between taking its Work and the lease leaves Work that is taken and never leased. */
  lemma {:induction false} CrashedClaimStrandsWork(past: seq<Action>, pid: Pid, acts: seq<Action>)
    requires pid in After(Initial, past).claims && After(Initial, past).claims[pid].Holding?
    ensures
      var s := After(Initial, past);
      var t := After(Next(s, ClaimCrash(pid)), acts);
      Orphaned(t, s.claims[pid].work)
  {
    hide Next;
    var s := After(Initial, past);
    if acts == [] {
      ReachableInv(past);
      CrashOrphans(s, pid);
    } else {
      var n := |acts| - 1;
      CrashedClaimStrandsWork(past, pid, acts[..n]);
      OrphanedStep(After(Next(s, ClaimCrash(pid)), acts[..n]), acts[n], s.claims[pid].work);
    }
  }

  lemma {:induction false} CrashOrphans(s: System, pid: Pid)
    requires Inv(s) && pid in s.claims && s.claims[pid].Holding?
    ensures Orphaned(Next(s, ClaimCrash(pid)), s.claims[pid].work)
  {
  }

  /** One that dies before it took any Work leaves everything as it was before it began. */
  lemma {:induction false} EarlyCrashLeavesNothing(s: System, pid: Pid, d: DeviceId, token: Token)
    requires pid !in s.claims
    ensures Next(Next(s, ClaimStart(pid, d, token)), ClaimCrash(pid)) == s
  {
    var t := Next(s, ClaimStart(pid, d, token));
    assert t.claims - {pid} == s.claims;
  }
}
