/**
 Process accounting: every process is charged to one group found by walking up its parents,
 and the tables together account for the total private memory. A process carries what the
 name and command line patterns read in it.
 */
module Memory {
  import opened Common

  datatype Proc = Proc(pid: int, ppid: int, mem: int, cmd: string,
                       system: bool, session: bool, component: Option<string>, desktop: bool, headless: bool,
                       app: Option<string>, name: string)

  const BODY := "Claude Code 본체"
  const DESKTOP := "Claude 데스크톱 앱"
  const HEADLESS := "헤드리스 Claude(claude -p)"

  // ---------------------------------------------------------------------------
  // The walk up the parents
  // ---------------------------------------------------------------------------

  /** The last process listed with each pid. */
  function ByPid(ps: seq<Proc>): map<int, Proc> {
    if ps == [] then map[] else ByPid(ps[..|ps| - 1])[ps[|ps| - 1].pid := ps[|ps| - 1]]
  }

  ghost predicate Keyed(byPid: map<int, Proc>) { forall k :: k in byPid ==> byPid[k].pid == k }

  lemma {:induction false} ByPidHas(ps: seq<Proc>)
    ensures Keyed(ByPid(ps))
    ensures forall p :: p in ps ==> p.pid in ByPid(ps)
  {
    if ps != [] {
      ByPidHas(ps[..|ps| - 1]);
    }
  }

  /** Of several processes listed with one pid the last counts. */
  lemma {:induction false} ByPidIsTheLast(ps: seq<Proc>, n: nat)
    requires n < |ps| && forall i :: n < i < |ps| ==> ps[i].pid != ps[n].pid
    ensures ps[n].pid in ByPid(ps) && ByPid(ps)[ps[n].pid] == ps[n]
  {
    if n < |ps| - 1 {
      ByPidIsTheLast(ps[..|ps| - 1], n);
    }
  }

  /** From `p` to the topmost parent below the system, or to where the parents repeat. */
  function Walk(byPid: map<int, Proc>, p: Proc, seen: set<int>): (path: seq<Proc>)
    requires Keyed(byPid) && p.pid in byPid
    ensures p.pid !in seen ==> path != [] && path[0] == p
    decreases byPid.Keys - seen
  {
    if p.pid in seen then []
    else if p.ppid !in byPid || byPid[p.ppid].system then [p]
    else [p] + Walk(byPid, byPid[p.ppid], seen + {p.pid})
  }

  method Chain(byPid: map<int, Proc>, start: Proc) returns (path: seq<Proc>)
    requires Keyed(byPid) && start.pid in byPid
    ensures path == Walk(byPid, start, {}) && path != []
  {
    var p, seen: set<int>, done := start, {}, false;
    path := [];
    while !done && p.pid !in seen
      invariant p.pid in byPid
      invariant path + (if done then [] else Walk(byPid, p, seen)) == Walk(byPid, start, {})
      decreases !done, byPid.Keys - seen
    {
      seen := seen + {p.pid};
      path := path + [p];
      if p.ppid !in byPid || byPid[p.ppid].system {
        done := true;
      } else {
        p := byPid[p.ppid];
      }
    }
  }

  predicate IsParent(byPid: map<int, Proc>, child: Proc, parent: Proc) {
    child.ppid in byPid && parent == byPid[child.ppid] && !parent.system
  }

  /** Each process is followed by its listed parent. */
  predicate Climbs(byPid: map<int, Proc>, path: seq<Proc>) {
    |path| <= 1 || (IsParent(byPid, path[0], path[1]) && Climbs(byPid, path[1..]))
  }

  function Pids(path: seq<Proc>): set<int> { if path == [] then {} else {path[0].pid} + Pids(path[1..]) }

  /** No pid comes twice. */
  predicate Distinct(path: seq<Proc>) { path == [] || (path[0].pid !in Pids(path[1..]) && Distinct(path[1..])) }

  /** The walk climbs, no process comes twice on it, and it stops only below the system, at a missing
      parent or where the parents repeat. */
  lemma {:induction false} WalkClimbs(byPid: map<int, Proc>, p: Proc, seen: set<int>)
    requires Keyed(byPid) && p.pid in byPid && p.pid !in seen
    ensures
      var path := Walk(byPid, p, seen);
      && path != [] && path[0] == p && Climbs(byPid, path) && Distinct(path) && Pids(path) !! seen
      && var top := path[|path| - 1].ppid;
         top !in byPid || byPid[top].system || top in seen + Pids(path)
    decreases byPid.Keys - seen
  {
    var path := Walk(byPid, p, seen);
    if p.ppid !in byPid || byPid[p.ppid].system {
      assert path[1..] == [];
    } else {
      var up, more := byPid[p.ppid], seen + {p.pid};
      var rest := Walk(byPid, up, more);
      assert path[1..] == rest;
      if up.pid !in more {
        WalkClimbs(byPid, up, more);
        assert path[|path| - 1] == rest[|rest| - 1];
      }
    }
  }

  // ---------------------------------------------------------------------------
  // The group of a process
  // ---------------------------------------------------------------------------

  datatype Group =
    | Body(session: int)
    | Helper(session: int, helper: int)
    | At(component: string)
    | Headless
    | App(name: string)

  function FirstSession(path: seq<Proc>, k: nat): Option<nat>
    requires k <= |path|
    ensures FirstSession(path, k).Some? ==> k <= FirstSession(path, k).value < |path|
    decreases |path| - k
  {
    if k == |path| then None else if path[k].session then Some(k) else FirstSession(path, k + 1)
  }

  function FirstComponent(path: seq<Proc>): Option<string> {
    if path == [] then None else if path[0].component.Some? then path[0].component else FirstComponent(path[1..])
  }

  function TopApp(path: seq<Proc>): Option<string> {
    if path == [] then None
    else if path[|path| - 1].app.Some? then path[|path| - 1].app else TopApp(path[..|path| - 1])
  }

  function GroupOfPath(path: seq<Proc>): Group
    requires path != []
  {
    var root := FirstSession(path, 0);
    if root == Some(0) then Body(path[0].pid)
    else if root.Some? then Helper(path[root.value].pid, path[root.value - 1].pid)
    else if FirstComponent(path).Some? then At(FirstComponent(path).value)
    else if exists i :: 0 <= i < |path| && path[i].desktop then App(DESKTOP)
    else if exists i :: 0 <= i < |path| && path[i].headless then Headless
    else App(if TopApp(path).Some? then TopApp(path).value else path[|path| - 1].name)
  }

  ghost predicate NoSession(path: seq<Proc>, k: nat)
    requires k <= |path|
  {
    forall i :: 0 <= i < k ==> !path[i].session
  }

  lemma {:induction false} FirstSessionMeans(path: seq<Proc>, k: nat)
    requires k <= |path|
    ensures
      match FirstSession(path, k)
      case Some(n) => path[n].session && forall i :: k <= i < n ==> !path[i].session
      case None => forall i :: k <= i < |path| ==> !path[i].session
    decreases |path| - k
  {
    if k < |path| && !path[k].session {
      FirstSessionMeans(path, k + 1);
    }
  }

  lemma {:induction false} FirstComponentMeans(path: seq<Proc>)
    ensures FirstComponent(path) == None <==> forall i :: 0 <= i < |path| ==> path[i].component.None?
    ensures forall n :: 0 <= n < |path| && path[n].component.Some? && (forall i :: 0 <= i < n ==> path[i].component.None?) ==>
              FirstComponent(path) == path[n].component
  {
    if path != [] {
      FirstComponentMeans(path[1..]);
      assert forall i :: 0 < i < |path| ==> path[i] == path[1..][i - 1];
      if path[0].component.None? {
        forall n | 0 <= n < |path| && path[n].component.Some? && (forall i :: 0 <= i < n ==> path[i].component.None?)
          ensures FirstComponent(path) == path[n].component
        {
          assert path[1..][n - 1].component.Some?;
          assert forall i :: 0 <= i < n - 1 ==> path[1..][i] == path[i + 1];
        }
        if FirstComponent(path) == None {
          forall i | 0 <= i < |path|
            ensures path[i].component.None?
          {
            assert i > 0 ==> path[1..][i - 1].component.None?;
          }
        }
      }
    }
  }

  lemma {:induction false} TopAppMeans(path: seq<Proc>)
    ensures TopApp(path) == None <==> forall i :: 0 <= i < |path| ==> path[i].app.None?
    ensures forall n :: 0 <= n < |path| && path[n].app.Some? && (forall i :: n < i < |path| ==> path[i].app.None?) ==>
              TopApp(path) == path[n].app
  {
    if path != [] && path[|path| - 1].app.None? {
      TopAppMeans(path[..|path| - 1]);
    }
  }

  /**
   Which group a process is charged to, by what stands on its way up: the session itself, the child
   of the first session above, the first component, the desktop app, a headless run, or else the
   topmost known app, or failing that the topmost process.
   */
  lemma {:induction false} GroupMeans(path: seq<Proc>)
    requires path != []
    ensures path[0].session <==> GroupOfPath(path) == Body(path[0].pid)
    ensures forall k :: 0 < k < |path| && path[k].session && NoSession(path, k) ==>
              GroupOfPath(path) == Helper(path[k].pid, path[k - 1].pid)
    ensures NoSession(path, |path|) ==>
              && (forall n :: 0 <= n < |path| && path[n].component.Some? && (forall i :: 0 <= i < n ==> path[i].component.None?) ==>
                    GroupOfPath(path) == At(path[n].component.value))
              && ((forall i :: 0 <= i < |path| ==> path[i].component.None?) ==>
                    && ((exists i :: 0 <= i < |path| && path[i].desktop) ==> GroupOfPath(path) == App(DESKTOP))
                    && ((forall i :: 0 <= i < |path| ==> !path[i].desktop) ==>
                          && ((exists i :: 0 <= i < |path| && path[i].headless) <==> GroupOfPath(path) == Headless)
                          && ((forall i :: 0 <= i < |path| ==> !path[i].headless) ==>
                                && (forall n :: 0 <= n < |path| && path[n].app.Some? && (forall i :: n < i < |path| ==> path[i].app.None?) ==>
                                      GroupOfPath(path) == App(path[n].app.value))
                                && ((forall i :: 0 <= i < |path| ==> path[i].app.None?) ==>
                                      GroupOfPath(path) == App(path[|path| - 1].name)))))
  {
    hide FirstSession, FirstComponent, TopApp;
    FirstSessionMeans(path, 0);
    FirstComponentMeans(path);
    TopAppMeans(path);
  }

  function GroupOf(byPid: map<int, Proc>, p: Proc): Group
    requires Keyed(byPid) && p.pid in byPid
  {
    GroupOfPath(Walk(byPid, p, {}))
  }

  /** The groups of a list of processes, one each. */
  function Groups(byPid: map<int, Proc>, ps: seq<Proc>): seq<Group>
    requires Keyed(byPid) && forall p :: p in ps ==> p.pid in byPid
    ensures |Groups(byPid, ps)| == |ps|
  {
    if ps == [] then [] else Groups(byPid, ps[..|ps| - 1]) + [GroupOf(byPid, ps[|ps| - 1])]
  }

  /** The memory of the processes charged to one of `gs`. */
  function SumOver(ps: seq<Proc>, groups: seq<Group>, gs: set<Group>): int
    requires |groups| == |ps|
  {
    if ps == [] then 0
    else
      var n := |ps| - 1;
      SumOver(ps[..n], groups[..n], gs) + if groups[n] in gs then ps[n].mem else 0
  }

  function Total(ps: seq<Proc>): int {
    if ps == [] then 0 else Total(ps[..|ps| - 1]) + ps[|ps| - 1].mem
  }

  lemma {:induction false} SumOverUnion(ps: seq<Proc>, groups: seq<Group>, gs: set<Group>, g: Group)
    requires |groups| == |ps| && g !in gs
    ensures SumOver(ps, groups, gs + {g}) == SumOver(ps, groups, gs) + SumOver(ps, groups, {g})
  {
    if ps != [] {
      var n := |ps| - 1;
      SumOverUnion(ps[..n], groups[..n], gs, g);
    }
  }

  // ---------------------------------------------------------------------------
  // Tables
  // ---------------------------------------------------------------------------

  function Get<K>(m: map<K, int>, k: K): int { if k in m then m[k] else 0 }

  /** `m[k] += v` on a table that starts at zero. */
  function Add<K>(m: map<K, int>, k: K, v: int): map<K, int> { m[k := Get(m, k) + v] }

  ghost function SumMap<K(!new)>(m: map<K, int>): int
    decreases |m|
  {
    if m == map[] then 0 else var k :| k in m; m[k] + SumMap(m - {k})
  }

  lemma {:induction false} SumMapAt<K(!new)>(m: map<K, int>, k: K)
    requires k in m
    ensures SumMap(m) == m[k] + SumMap(m - {k})
    decreases |m|
  {
    var c :| c in m && SumMap(m) == m[c] + SumMap(m - {c});
    if c != k {
      SumMapAt(m - {c}, k);
      SumMapAt(m - {k}, c);
      assert m - {c} - {k} == m - {k} - {c};
    }
  }

  lemma {:induction false} SumMapPut<K(!new)>(m: map<K, int>, k: K, v: int)
    ensures SumMap(m[k := v]) == SumMap(m) - Get(m, k) + v
  {
    SumMapAt(m[k := v], k);
    if k in m {
      SumMapAt(m, k);
      assert m[k := v] - {k} == m - {k};
    } else {
      assert m[k := v] - {k} == m;
    }
  }

  // ---------------------------------------------------------------------------
  // The books
  // ---------------------------------------------------------------------------

  datatype Part = Part(session: int, name: string)

  /** A session's direct child. */
  datatype Child = Child(session: int, helper: int)

  datatype Books = Books(parts: map<Part, int>, helpers: map<Child, int>, cmds: map<Child, seq<string>>,
                         at: map<string, int>, apps: map<string, int>, headless: int)

  const NO_BOOKS := Books(map[], map[], map[], map[], map[], 0)

  function Charge(b: Books, g: Group, p: Proc): Books {
    match g
    case Body(session) => b.(parts := Add(b.parts, Part(session, BODY), p.mem))
    case Helper(session, helper) =>
      var k := Child(session, helper);
      b.(helpers := Add(b.helpers, k, p.mem),
         cmds := b.cmds[k := (if k in b.cmds then b.cmds[k] else []) + [p.cmd]])
    case At(component) => b.(at := Add(b.at, component, p.mem))
    case Headless => b.(headless := b.headless + p.mem)
    case App(name) => b.(apps := Add(b.apps, name, p.mem))
  }

  /** The command lines gathered for one child of a session. */
  function Cmds(ps: seq<Proc>, groups: seq<Group>, k: Child): seq<string>
    requires |groups| == |ps|
  {
    if ps == [] then []
    else
      var n := |ps| - 1;
      Cmds(ps[..n], groups[..n], k) + if groups[n] == Helper(k.session, k.helper) then [ps[n].cmd] else []
  }

  function Children(groups: seq<Group>): set<Child> {
    set g | g in groups && g.Helper? :: Child(g.session, g.helper)
  }

  ghost function Booked(b: Books): int {
    SumMap(b.parts) + SumMap(b.helpers) + SumMap(b.at) + SumMap(b.apps) + b.headless
  }

  /** Every entry of the books is the memory of exactly the processes of its group. */
  ghost predicate Tallies(b: Books, ps: seq<Proc>, groups: seq<Group>)
    requires |groups| == |ps|
  {
    && (forall k :: Get(b.parts, k) == if k.name == BODY then SumOver(ps, groups, {Body(k.session)}) else 0)
    && (forall k :: Get(b.helpers, k) == SumOver(ps, groups, {Helper(k.session, k.helper)}))
    && (forall c :: Get(b.at, c) == SumOver(ps, groups, {At(c)}))
    && (forall a :: Get(b.apps, a) == SumOver(ps, groups, {App(a)}))
    && b.headless == SumOver(ps, groups, {Headless})
  }

  /** The children of sessions, with their command lines. */
  ghost predicate Gathers(b: Books, ps: seq<Proc>, groups: seq<Group>)
    requires |groups| == |ps|
  {
    && b.cmds.Keys == b.helpers.Keys == Children(groups)
    && (forall k :: Cmds(ps, groups, k) == if k in b.cmds then b.cmds[k] else [])
  }

  ghost predicate Match(b: Books, ps: seq<Proc>, groups: seq<Group>)
    requires |groups| == |ps|
  {
    Tallies(b, ps, groups) && Gathers(b, ps, groups) && Booked(b) == Total(ps)
  }

  lemma {:induction false} SumOverLast(ps: seq<Proc>, groups: seq<Group>, p: Proc, g: Group, gs: set<Group>)
    requires |groups| == |ps|
    ensures SumOver(ps + [p], groups + [g], gs) == SumOver(ps, groups, gs) + if g in gs then p.mem else 0
    ensures Total(ps + [p]) == Total(ps) + p.mem
  {
    assert (ps + [p])[..|ps|] == ps && (groups + [g])[..|ps|] == groups;
  }

  lemma {:induction false} CmdsLast(ps: seq<Proc>, groups: seq<Group>, p: Proc, g: Group, k: Child)
    requires |groups| == |ps|
    ensures Cmds(ps + [p], groups + [g], k) == Cmds(ps, groups, k) + if g == Helper(k.session, k.helper) then [p.cmd] else []
  {
    assert (ps + [p])[..|ps|] == ps && (groups + [g])[..|ps|] == groups;
  }

  lemma {:induction false} ChargeAdds(b: Books, g: Group, p: Proc)
    ensures Booked(Charge(b, g, p)) == Booked(b) + p.mem
  {
    match g {
      case Body(session) => SumMapPut(b.parts, Part(session, BODY), Get(b.parts, Part(session, BODY)) + p.mem);
      case Helper(session, helper) =>
        var k := Child(session, helper);
        SumMapPut(b.helpers, k, Get(b.helpers, k) + p.mem);
      case At(component) => SumMapPut(b.at, component, Get(b.at, component) + p.mem);
      case Headless =>
      case App(name) => SumMapPut(b.apps, name, Get(b.apps, name) + p.mem);
    }
  }

  lemma {:induction false} ChargeTallies(b: Books, ps: seq<Proc>, groups: seq<Group>, g: Group, p: Proc)
    requires |groups| == |ps| && Tallies(b, ps, groups)
    ensures Tallies(Charge(b, g, p), ps + [p], groups + [g])
  {
    hide SumOver;
    var qs, hs := ps + [p], groups + [g];
    forall gs
      ensures SumOver(qs, hs, gs) == SumOver(ps, groups, gs) + if g in gs then p.mem else 0
    {
      SumOverLast(ps, groups, p, g, gs);
    }
  }

  lemma {:induction false} ChargeGathers(b: Books, ps: seq<Proc>, groups: seq<Group>, g: Group, p: Proc)
    requires |groups| == |ps| && Gathers(b, ps, groups)
    ensures Gathers(Charge(b, g, p), ps + [p], groups + [g])
  {
    hide Cmds, Children;
    var qs, hs := ps + [p], groups + [g];
    forall k
      ensures Cmds(qs, hs, k) == Cmds(ps, groups, k) + if g == Helper(k.session, k.helper) then [p.cmd] else []
    {
      CmdsLast(ps, groups, p, g, k);
    }
    ChildrenLast(groups, g);
  }

  lemma {:induction false} ChargeMatches(b: Books, ps: seq<Proc>, groups: seq<Group>, g: Group, p: Proc)
    requires |groups| == |ps| && Match(b, ps, groups)
    ensures Match(Charge(b, g, p), ps + [p], groups + [g])
  {
    hide Booked, Tallies, Gathers, Charge, Total;
    ChargeTallies(b, ps, groups, g, p);
    ChargeGathers(b, ps, groups, g, p);
    ChargeAdds(b, g, p);
    SumOverLast(ps, groups, p, g, {});
  }

  lemma {:induction false} ChildrenLast(groups: seq<Group>, g: Group)
    ensures Children(groups + [g]) == Children(groups) + if g.Helper? then {Child(g.session, g.helper)} else {}
  {
    if g.Helper? {
      assert g in groups + [g];
    }
    forall k | k in Children(groups)
      ensures k in Children(groups + [g])
    {
      assert Helper(k.session, k.helper) in groups + [g];
    }
  }

  /** The groups whose memory one line of a session stands for, the children of `done` being named. */
  function PartGroups(ps: seq<Proc>, groups: seq<Group>, mcpLabel: seq<string> -> string, done: set<Child>, part: Part): set<Group>
    requires |groups| == |ps|
  {
    (if part.name == BODY then {Body(part.session)} else {})
    + set k | k in done && k.session == part.session && mcpLabel(Cmds(ps, groups, k)) == part.name
        :: Helper(k.session, k.helper)
  }

  /** Every line of every session is the memory of exactly its groups. */
  ghost predicate Named(parts: map<Part, int>, ps: seq<Proc>, groups: seq<Group>, mcpLabel: seq<string> -> string, done: set<Child>)
    requires |groups| == |ps|
  {
    forall part :: Get(parts, part) == SumOver(ps, groups, PartGroups(ps, groups, mcpLabel, done, part))
  }

  lemma {:induction false} NameOne(ps: seq<Proc>, groups: seq<Group>, mcpLabel: seq<string> -> string,
                                   done: set<Child>, k: Child, parts: map<Part, int>, mem: int)
    requires |groups| == |ps| && k !in done && Named(parts, ps, groups, mcpLabel, done)
    requires mem == SumOver(ps, groups, {Helper(k.session, k.helper)})
    ensures Named(Add(parts, Part(k.session, mcpLabel(Cmds(ps, groups, k))), mem), ps, groups, mcpLabel, done + {k})
  {
    hide SumOver, Cmds;
    var at := Part(k.session, mcpLabel(Cmds(ps, groups, k)));
    var next := Add(parts, at, mem);
    forall part
      ensures Get(next, part) == SumOver(ps, groups, PartGroups(ps, groups, mcpLabel, done + {k}, part))
    {
      var gs, hs := PartGroups(ps, groups, mcpLabel, done, part), PartGroups(ps, groups, mcpLabel, done + {k}, part);
      var g := Helper(k.session, k.helper);
      if part == at {
        assert hs == gs + {g};
        SumOverUnion(ps, groups, gs, g);
      } else {
        assert hs == gs;
      }
    }
  }

  datatype View = View(parts: map<Part, int>, at: map<string, int>, apps: map<string, int>)

  /** The memory that the headless line writes over. */
  function Overwritten(ps: seq<Proc>, groups: seq<Group>): int
    requires |groups| == |ps|
  {
    if SumOver(ps, groups, {Headless}) == 0 then 0 else SumOver(ps, groups, {App(HEADLESS)})
  }

  /** What every line of the view says, and what the lines add up to. */
  ghost predicate Accounts(v: View, ps: seq<Proc>, groups: seq<Group>, mcpLabel: seq<string> -> string)
    requires |groups| == |ps|
  {
    && Named(v.parts, ps, groups, mcpLabel, Children(groups))
    && (forall c :: Get(v.at, c) == SumOver(ps, groups, {At(c)}))
    && (forall a :: a != HEADLESS ==> Get(v.apps, a) == SumOver(ps, groups, {App(a)}))
    && Get(v.apps, HEADLESS) == SumOver(ps, groups, {Headless}) + SumOver(ps, groups, {App(HEADLESS)}) - Overwritten(ps, groups)
    && SumMap(v.parts) + SumMap(v.at) + SumMap(v.apps) == Total(ps) - Overwritten(ps, groups)
  }

  /** The first loop of `classify`: one charge for each process. */
  method ChargeAll(ps: seq<Proc>, byPid: map<int, Proc>) returns (b: Books)
    requires Keyed(byPid) && forall p :: p in ps ==> p.pid in byPid
    ensures Match(b, ps, Groups(byPid, ps))
  {
    hide Match, Charge, GroupOfPath, Walk;
    b := NO_BOOKS;
    NothingMatches();
    for n := 0 to |ps|
      invariant Match(b, ps[..n], Groups(byPid, ps[..n]))
    {
      var path := Chain(byPid, ps[n]);
      var g := GroupOfPath(path);
      ChargeMatches(b, ps[..n], Groups(byPid, ps[..n]), g, ps[n]);
      assert ps[..n + 1] == ps[..n] + [ps[n]] && ps[..n + 1][..n] == ps[..n];
      b := Charge(b, g, ps[n]);
    }
    assert ps[..|ps|] == ps;
  }

  lemma {:induction false} NothingMatches()
    ensures Match(NO_BOOKS, [], [])
  {
    EmptySums();
  }

  lemma {:induction false} EmptySums()
    ensures SumMap<Part>(map[]) == 0 && SumMap<Child>(map[]) == 0 && SumMap<string>(map[]) == 0
  {
  }

  method Classify(ps: seq<Proc>, mcpLabel: seq<string> -> string) returns (v: View)
    ensures Keyed(ByPid(ps)) && (forall p :: p in ps ==> p.pid in ByPid(ps))
    ensures Accounts(v, ps, Groups(ByPid(ps), ps), mcpLabel)
  {
    hide Match, Accounts, Groups;
    var byPid := ByPid(ps);
    ByPidHas(ps);
    var b := ChargeAll(ps, byPid);
    var apps := b.apps;
    if b.headless != 0 {
      apps := apps[HEADLESS := b.headless];
    }
    var parts := NameHelpers(ps, Groups(byPid, ps), b, mcpLabel);
    v := View(parts, b.at, apps);
    HeadlessLine(b, ps, Groups(byPid, ps), v, mcpLabel);
  }

  /** The second loop of `classify`: each child's memory goes to the line its command lines name. */
  method NameHelpers(ghost ps: seq<Proc>, ghost groups: seq<Group>, b: Books, mcpLabel: seq<string> -> string)
    returns (parts: map<Part, int>)
    requires |groups| == |ps| && Match(b, ps, groups)
    ensures Named(parts, ps, groups, mcpLabel, Children(groups))
    ensures SumMap(parts) == SumMap(b.parts) + SumMap(b.helpers)
  {
    hide Match, Named, Cmds, Children, SumMap, Add, SumOver;
    parts := b.parts;
    var todo := b.cmds.Keys;
    ghost var left, done: set<Child> := b.helpers, {};
    MatchKeys(b, ps, groups);
    BodyOnly(b, ps, groups, mcpLabel);
    while todo != {}
      invariant left.Keys == todo && done + todo == b.cmds.Keys && done !! todo
      invariant forall k :: k in left ==> left[k] == b.helpers[k]
      invariant Named(parts, ps, groups, mcpLabel, done)
      invariant SumMap(parts) + SumMap(left) == SumMap(b.parts) + SumMap(b.helpers)
      decreases |todo|
    {
      var k :| k in todo;
      MatchAt(b, ps, groups, k);
      NameOne(ps, groups, mcpLabel, done, k, parts, b.helpers[k]);
      MoveSum(parts, left, Part(k.session, mcpLabel(b.cmds[k])), k);
      parts := Add(parts, Part(k.session, mcpLabel(b.cmds[k])), b.helpers[k]);
      left, done := left - {k}, done + {k};
      todo := todo - {k};
    }
    assert left == map[];
    EmptySums();
    assert done == Children(groups);
  }

  lemma {:induction false} MoveSum(parts: map<Part, int>, left: map<Child, int>, at: Part, k: Child)
    requires k in left
    ensures SumMap(Add(parts, at, left[k])) + SumMap(left - {k}) == SumMap(parts) + SumMap(left)
  {
    hide SumMap;
    SumMapPut(parts, at, Get(parts, at) + left[k]);
    SumMapAt(left, k);
  }

  lemma {:induction false} MatchKeys(b: Books, ps: seq<Proc>, groups: seq<Group>)
    requires |groups| == |ps| && Match(b, ps, groups)
    ensures b.cmds.Keys == b.helpers.Keys == Children(groups)
  {
  }

  lemma {:induction false} MatchAt(b: Books, ps: seq<Proc>, groups: seq<Group>, k: Child)
    requires |groups| == |ps| && Match(b, ps, groups) && k in b.cmds && k in b.helpers
    ensures b.cmds[k] == Cmds(ps, groups, k)
    ensures b.helpers[k] == SumOver(ps, groups, {Helper(k.session, k.helper)})
  {
    assert Get(b.helpers, k) == b.helpers[k];
  }

  lemma {:induction false} BodyOnly(b: Books, ps: seq<Proc>, groups: seq<Group>, mcpLabel: seq<string> -> string)
    requires |groups| == |ps| && Match(b, ps, groups)
    ensures Named(b.parts, ps, groups, mcpLabel, {})
  {
    forall part
      ensures Get(b.parts, part) == SumOver(ps, groups, PartGroups(ps, groups, mcpLabel, {}, part))
    {
      var gs := PartGroups(ps, groups, mcpLabel, {}, part);
      if part.name == BODY {
        assert gs == {Body(part.session)};
      } else {
        assert gs == {};
        SumOverNone(ps, groups);
      }
    }
  }

  lemma {:induction false} SumOverNone(ps: seq<Proc>, groups: seq<Group>)
    requires |groups| == |ps|
    ensures SumOver(ps, groups, {}) == 0
  {
    if ps != [] {
      SumOverNone(ps[..|ps| - 1], groups[..|ps| - 1]);
    }
  }

  lemma {:induction false} HeadlessLine(b: Books, ps: seq<Proc>, groups: seq<Group>, v: View, mcpLabel: seq<string> -> string)
    requires |groups| == |ps| && Match(b, ps, groups)
    requires v.at == b.at && v.apps == if b.headless == 0 then b.apps else b.apps[HEADLESS := b.headless]
    requires Named(v.parts, ps, groups, mcpLabel, Children(groups))
    requires SumMap(v.parts) == SumMap(b.parts) + SumMap(b.helpers)
    ensures Accounts(v, ps, groups, mcpLabel)
  {
    hide SumOver, Named, SumMap, Cmds;
    SumMapPut(b.apps, HEADLESS, b.headless);
    assert Get(b.apps, HEADLESS) == SumOver(ps, groups, {App(HEADLESS)});
  }

  /** Nothing is lost if and only if nothing else carries the headless line's name beside headless memory. */
  lemma {:induction false} ConservedIff(v: View, ps: seq<Proc>, groups: seq<Group>, mcpLabel: seq<string> -> string)
    requires |groups| == |ps| && Accounts(v, ps, groups, mcpLabel)
    ensures SumMap(v.parts) + SumMap(v.at) + SumMap(v.apps) == Total(ps) <==>
            SumOver(ps, groups, {Headless}) == 0 || SumOver(ps, groups, {App(HEADLESS)}) == 0
  {
  }

  lemma {:induction false} AloneGroup(byPid: map<int, Proc>, p: Proc)
    requires Keyed(byPid) && p.pid in byPid && p.ppid !in byPid && !p.session && p.component.None? && !p.desktop
    ensures GroupOf(byPid, p) == if p.headless then Headless else App(if p.app.Some? then p.app.value else p.name)
  {
    var path := Walk(byPid, p, {});
    assert path == [p] && path[0] == p;
    assert FirstSession(path, 1) == None && FirstSession(path, 0) == None;
    assert path[1..] == [] && path[..0] == [];
    assert FirstComponent(path) == FirstComponent(path[1..]) == None;
    assert TopApp(path) == if p.app.Some? then p.app else TopApp(path[..0]);
    assert (exists i :: 0 <= i < |path| && path[i].headless) <==> path[0].headless;
  }

  /** A headless process beside a program that happens to have the name of the headless line. */
  lemma {:induction false} MemoryCanBeLost() returns (ps: seq<Proc>)
    ensures Keyed(ByPid(ps)) && (forall p :: p in ps ==> p.pid in ByPid(ps))
    ensures Overwritten(ps, Groups(ByPid(ps), ps)) != 0
  {
    var a := Proc(1, 0, 1, "", false, false, None, false, true, None, "");
    var b := Proc(2, 0, 1, "", false, false, None, false, false, None, HEADLESS);
    ps := [a, b];
    ByPidHas(ps);
    var byPid := ByPid(ps);
    assert ps[..1] == [a] && [a][..0] == [];
    assert ByPid([a]) == map[1 := a];
    assert byPid == map[1 := a, 2 := b];
    AloneGroup(byPid, a);
    AloneGroup(byPid, b);
    hide GroupOf;
    assert a in ps && b in ps;
    assert Groups(byPid, [a]) == [Headless];
    var gs := [Headless, App(HEADLESS)];
    assert Groups(byPid, ps) == gs;
    SumOverLast([], [], a, Headless, {Headless});
    SumOverLast([], [], a, Headless, {App(HEADLESS)});
    assert [] + [a] == [a] && [] + [Headless] == [Headless] && [a] + [b] == ps && [Headless] + [App(HEADLESS)] == gs;
    SumOverLast([a], [Headless], b, App(HEADLESS), {Headless});
    SumOverLast([a], [Headless], b, App(HEADLESS), {App(HEADLESS)});
  }
}
