/**
 The incremental synthesis of an idea: a job hands over only what is new while the stored
 text still rests on current inputs, and everything otherwise. Content digests are taken to
 be injective, so a signature of a text is that text.
 */
module Synthesis {
  import opened Common
  import Decided

  datatype Kind = ResultInput | MaterialInput

  /** A pasted result or a material; `current` is a result's latest flag and holds for every material. */
  datatype Entry = Entry(id: int, task: string, current: bool, summary: string, summaryAt: string)

  datatype Sig =
    | InputSig(kind: Kind, id: int, task: string, summaryAt: string)
    | TextSig(text: string)
    | GroundSig(grounds: string)

  /** One compressed input as it is handed over. */
  datatype Piece = Piece(sig: Sig, summary: string)

  datatype Idea = Idea(results: seq<Entry>, materials: seq<Entry>, text: string, grounds: string,
                       synth: Decided.Text, keys: seq<Sig>)

  datatype Job = Job(sigs: seq<Sig>, incremental: bool, previous: Decided.Text, inputs: seq<Piece>)

  /** The compressed entries, newest first. */
  function Pieces(kind: Kind, entries: seq<Entry>): seq<Piece> {
    if entries == [] then []
    else
      var e := entries[|entries| - 1];
      (if e.current && e.summary != "" then [Piece(InputSig(kind, e.id, e.task, e.summaryAt), e.summary)] else [])
      + Pieces(kind, entries[..|entries| - 1])
  }

  function Inputs(i: Idea): seq<Piece> { Pieces(ResultInput, i.results) + Pieces(MaterialInput, i.materials) }

  function SigsOf(pieces: seq<Piece>): seq<Sig> {
    if pieces == [] then [] else SigsOf(pieces[..|pieces| - 1]) + [pieces[|pieces| - 1].sig]
  }

  function Base(i: Idea): set<Sig> { {TextSig(i.text), GroundSig(i.grounds)} }

  function Sigs(i: Idea): seq<Sig> { SigsOf(Inputs(i)) + [TextSig(i.text), GroundSig(i.grounds)] }

  function Elements(s: seq<Sig>): set<Sig> { set x | x in s }

  function Unseen(pieces: seq<Piece>, folded: set<Sig>): seq<Piece> {
    if pieces == [] then []
    else
      var last := pieces[|pieces| - 1];
      Unseen(pieces[..|pieces| - 1], folded) + if last.sig in folded then [] else [last]
  }

  predicate IsCurrent(i: Idea) { Elements(Sigs(i)) == Elements(i.keys) }

  predicate IsIncremental(i: Idea) {
    i.synth != [] && Elements(i.keys) <= Elements(Sigs(i)) && Base(i) <= Elements(i.keys)
  }

  function JobOf(i: Idea): Option<Job> {
    if IsCurrent(i) || Inputs(i) == [] then None
    else if IsIncremental(i) then Some(Job(Sigs(i), true, i.synth, Unseen(Inputs(i), Elements(i.keys))))
    else Some(Job(Sigs(i), false, [], Inputs(i)))
  }

  /** Asking for a job drops a synthesis whose inputs are all gone. */
  function Asked(i: Idea): Idea {
    if !IsCurrent(i) && Inputs(i) == [] then i.(synth := [], keys := []) else i
  }

  function Saved(i: Idea, text: Decided.Text, sigs: seq<Sig>): Idea {
    if Decided.Strip(text) == [] then i else i.(synth := Decided.SetSynthesis(i.synth, text), keys := sigs)
  }

  class IdeaStore {
    var idea: Option<Idea>

    method SynthJob() returns (job: Option<Job>)
      modifies this
      ensures old(idea).None? ==> idea == None && job == None
      ensures old(idea).Some? ==> idea == Some(Asked(old(idea).value)) && job == JobOf(old(idea).value)
    {
      if idea.None? {
        return None;
      }
      var i := idea.value;
      var inputs, sigs, folded := Inputs(i), Sigs(i), Elements(i.keys);
      if Elements(sigs) == folded {
        return None;
      }
      if inputs == [] {
        idea := Some(i.(synth := [], keys := []));
        return None;
      }
      var incremental := i.synth != [] && folded <= Elements(sigs) && Elements(sigs[|sigs| - 2..]) <= folded;
      assert sigs[|sigs| - 2..] == [TextSig(i.text), GroundSig(i.grounds)];
      job := Some(Job(sigs, incremental, if incremental then i.synth else [],
                      if incremental then Unseen(inputs, folded) else inputs));
    }

    method SetSynthesis(text: Decided.Text, sigs: seq<Sig>) returns (ok: bool)
      modifies this
      ensures ok == (old(idea).Some? && Decided.Strip(text) != [])
      ensures idea == if old(idea).None? then None else Some(Saved(old(idea).value, text, sigs))
    {
      var stripped := Decided.Strip(text);
      if idea.None? || stripped == [] {
        return false;
      }
      var i := idea.value;
      idea := Some(i.(synth := Decided.KeepDecided(i.synth, stripped), keys := sigs));
      ok := true;
    }
  }

  // ---------------------------------------------------------------------------
  // Runs: edits, jobs and saves in any order
  // ---------------------------------------------------------------------------

  /** A job handed out, with what a text written for it rests on. */
  datatype Pending = Pending(job: Job, cover: set<Piece>, bases: set<Sig>)

  /** `cover` and `bases`: every input, idea text and direction that was handed over along the chain
      of syntheses that ends in the stored text. */
  datatype State = State(idea: Idea, cover: set<Piece>, bases: set<Sig>, jobs: seq<Pending>)

  datatype Action =
    | Edit(results: seq<Entry>, materials: seq<Entry>, text: string, grounds: string)
    | Ask
    | Save(n: int, written: Decided.Text)

  function Handed(s: State, job: Job): Pending {
    Pending(job,
            (if job.incremental then s.cover else {}) + set p | p in job.inputs,
            (if job.incremental then s.bases else {}) + Base(s.idea))
  }

  function Next(s: State, a: Action): State {
    match a
    case Edit(results, materials, text, grounds) =>
      s.(idea := s.idea.(results := results, materials := materials, text := text, grounds := grounds))
    case Ask =>
      var job := JobOf(s.idea);
      if job.Some? then s.(jobs := s.jobs + [Handed(s, job.value)])
      else if Asked(s.idea) != s.idea then s.(idea := Asked(s.idea), cover := {}, bases := {})
      else s
    case Save(n, text) =>
      if !(0 <= n < |s.jobs|) || Decided.Strip(text) == [] then s
      else
        var p := s.jobs[n];
        State(Saved(s.idea, text, p.job.sigs), p.cover, p.bases, s.jobs)
  }

  function After(s: State, acts: seq<Action>): State {
    if acts == [] then s else Next(After(s, acts[..|acts| - 1]), acts[|acts| - 1])
  }

  predicate IsInit(s: State) {
    s.idea.synth == [] && s.idea.keys == [] && s.cover == {} && s.bases == {} && s.jobs == []
  }

  ghost predicate Covers(cover: set<Piece>, x: Sig) { exists p :: p in cover && p.sig == x }

  /** The chain rests on exactly what the keys say. */
  ghost predicate Rests(cover: set<Piece>, bases: set<Sig>, sigs: seq<Sig>) {
    && (forall p :: p in cover ==> p.sig.InputSig?)
    && (forall x :: x in bases ==> !x.InputSig?)
    && (forall x: Sig :: x.InputSig? ==> (Covers(cover, x) <==> x in sigs))
    && (forall x: Sig :: !x.InputSig? ==> (x in bases <==> x in sigs))
  }

  ghost predicate Inv(s: State) {
    && Rests(s.cover, s.bases, s.idea.keys)
    && forall n :: 0 <= n < |s.jobs| ==> Rests(s.jobs[n].cover, s.jobs[n].bases, s.jobs[n].job.sigs)
  }

  lemma {:induction false} PiecesAreInputs(kind: Kind, entries: seq<Entry>)
    ensures forall p :: p in Pieces(kind, entries) ==> p.sig.InputSig?
  {
    if entries != [] {
      PiecesAreInputs(kind, entries[..|entries| - 1]);
    }
  }

  lemma {:induction false} SigsOfHas(pieces: seq<Piece>, x: Sig)
    ensures x in SigsOf(pieces) <==> exists p :: p in pieces && p.sig == x
  {
    if pieces != [] {
      var n := |pieces| - 1;
      SigsOfHas(pieces[..n], x);
      assert pieces == pieces[..n] + [pieces[n]];
      if x in SigsOf(pieces) && x != pieces[n].sig {
        var p :| p in pieces[..n] && p.sig == x;
        assert p in pieces;
      }
      if p :| p in pieces && p.sig == x && p != pieces[n] {
        assert p in pieces[..n];
      }
    }
  }

  lemma {:induction false} SigsMean(i: Idea, x: Sig)
    ensures x.InputSig? ==> (x in Sigs(i) <==> exists p :: p in Inputs(i) && p.sig == x)
    ensures !x.InputSig? ==> (x in Sigs(i) <==> x in Base(i))
    ensures forall p :: p in Inputs(i) ==> p.sig.InputSig?
  {
    PiecesAreInputs(ResultInput, i.results);
    PiecesAreInputs(MaterialInput, i.materials);
    SigsOfHas(Inputs(i), x);
  }

  lemma {:induction false} UnseenMeans(pieces: seq<Piece>, folded: set<Sig>, p: Piece)
    ensures p in Unseen(pieces, folded) <==> p in pieces && p.sig !in folded
  {
    if pieces != [] {
      var n := |pieces| - 1;
      UnseenMeans(pieces[..n], folded, p);
      assert pieces == pieces[..n] + [pieces[n]];
    }
  }

  lemma {:induction false} HandedMeans(s: State, p: Piece)
    requires JobOf(s.idea).Some?
    ensures
      var job := JobOf(s.idea).value;
      var h := Handed(s, job);
      && job.sigs == Sigs(s.idea) && job.incremental == IsIncremental(s.idea)
      && (p in h.cover <==>
            if job.incremental then p in s.cover || (p in Inputs(s.idea) && p.sig !in s.idea.keys) else p in Inputs(s.idea))
      && h.bases == (if job.incremental then s.bases else {}) + Base(s.idea)
  {
    hide Inputs;
    UnseenMeans(Inputs(s.idea), Elements(s.idea.keys), p);
    assert p.sig in Elements(s.idea.keys) <==> p.sig in s.idea.keys;
  }

  /** What is handed over continues the chain to exactly the new keys. */
  lemma {:induction false} HandedRests(s: State)
    requires Rests(s.cover, s.bases, s.idea.keys) && JobOf(s.idea).Some?
    ensures
      var h := Handed(s, JobOf(s.idea).value);
      Rests(h.cover, h.bases, h.job.sigs)
  {
    var i, job := s.idea, JobOf(s.idea).value;
    var h := Handed(s, job);
    hide JobOf, Handed, Inputs;
    forall p
      ensures
        && job.sigs == Sigs(s.idea) && job.incremental == IsIncremental(s.idea)
        && (p in h.cover <==>
              if job.incremental then p in s.cover || (p in Inputs(i) && p.sig !in i.keys) else p in Inputs(i))
        && h.bases == (if job.incremental then s.bases else {}) + Base(i)
    {
      HandedMeans(s, p);
    }
    forall x: Sig
      ensures x.InputSig? ==> (Covers(h.cover, x) <==> x in job.sigs)
      ensures !x.InputSig? ==> (x in h.bases <==> x in job.sigs)
      ensures forall p :: p in Inputs(i) ==> p.sig.InputSig?
    {
      HandedSig(s, h, x);
    }
    SigsMean(i, TextSig(""));
  }

  lemma {:induction false} HandedSig(s: State, h: Pending, x: Sig)
    requires Rests(s.cover, s.bases, s.idea.keys)
    requires h.job.sigs == Sigs(s.idea) && h.job.incremental == IsIncremental(s.idea)
    requires forall p :: p in h.cover <==>
               if h.job.incremental then p in s.cover || (p in Inputs(s.idea) && p.sig !in s.idea.keys) else p in Inputs(s.idea)
    requires h.bases == (if h.job.incremental then s.bases else {}) + Base(s.idea)
    ensures x.InputSig? ==> (Covers(h.cover, x) <==> x in h.job.sigs)
    ensures !x.InputSig? ==> (x in h.bases <==> x in h.job.sigs)
    ensures forall p :: p in Inputs(s.idea) ==> p.sig.InputSig?
  {
    hide Inputs, Sigs;
    var i := s.idea;
    SigsMean(i, x);
    assert x in Elements(i.keys) <==> x in i.keys;
    assert x in Elements(Sigs(i)) <==> x in Sigs(i);
    if x.InputSig? && x in i.keys {
      assert Covers(s.cover, x);
    }
  }

  lemma {:induction false} Step(s: State, a: Action)
    requires Inv(s)
    ensures Inv(Next(s, a))
  {
    hide JobOf, Rests, Handed;
    if a.Ask? && JobOf(s.idea).Some? {
      HandedRests(s);
      HandedJob(s);
    }
    NothingRests();
  }

  lemma {:induction false} HandedJob(s: State)
    requires JobOf(s.idea).Some?
    ensures Handed(s, JobOf(s.idea).value).job == JobOf(s.idea).value
  {
  }

  lemma {:induction false} NothingRests()
    ensures Rests({}, {}, [])
  {
  }

  /** Whatever the order of edits, jobs and saves: the inputs handed over along the chain of the stored
      text are exactly the input signatures of its keys, and no other idea text or direction went in. */
  lemma {:induction false} ChainIsTheKeys(s: State, acts: seq<Action>)
    requires IsInit(s)
    ensures Inv(After(s, acts))
  {
    if acts == [] {
      NothingRests();
    } else {
      hide Inv, Next;
      ChainIsTheKeys(s, acts[..|acts| - 1]);
      Step(After(s, acts[..|acts| - 1]), acts[|acts| - 1]);
    }
  }

  // ---------------------------------------------------------------------------
  // Current means rebuilt
  // ---------------------------------------------------------------------------

  /** A signature has one content. */
  ghost predicate Faithful(world: set<Piece>) { forall p, q :: p in world && q in world && p.sig == q.sig ==> p == q }

  ghost predicate Within(i: Idea, world: set<Piece>) { forall p :: p in Inputs(i) ==> p in world }

  ghost predicate EditsWithin(acts: seq<Action>, world: set<Piece>) {
    forall n :: 0 <= n < |acts| && acts[n].Edit? ==>
      Within(Idea(acts[n].results, acts[n].materials, acts[n].text, acts[n].grounds, [], []), world)
  }

  ghost predicate AllWithin(s: State, world: set<Piece>) {
    && Within(s.idea, world) && s.cover <= world
    && forall n :: 0 <= n < |s.jobs| ==> s.jobs[n].cover <= world
  }

  lemma {:induction false} WithinStep(s: State, a: Action, world: set<Piece>)
    requires AllWithin(s, world) && EditsWithin([a], world)
    ensures AllWithin(Next(s, a), world)
  {
    match a {
      case Edit(results, materials, text, grounds) =>
        assert [a][0] == a;
      case Ask =>
        if JobOf(s.idea).Some? {
          hide JobOf, Inputs;
          forall p | p in Handed(s, JobOf(s.idea).value).cover
            ensures p in world
          {
            HandedMeans(s, p);
          }
        }
      case Save(n, written) =>
    }
  }

  lemma {:induction false} RunWithin(s: State, acts: seq<Action>, world: set<Piece>)
    requires IsInit(s) && Within(s.idea, world) && EditsWithin(acts, world)
    ensures AllWithin(After(s, acts), world)
  {
    if acts != [] {
      hide Next, AllWithin;
      var n := |acts| - 1;
      assert EditsWithin(acts[..n], world) by {
        assert forall m :: 0 <= m < n ==> acts[..n][m] == acts[m];
      }
      assert EditsWithin([acts[n]], world);
      RunWithin(s, acts[..n], world);
      WithinStep(After(s, acts[..n]), acts[n], world);
    }
  }

  /** When no job is due, the chain of the stored text was handed exactly what a full rebuild would be,
      provided that a signature never stands for two contents. */
  lemma {:induction false} CurrentMeansRebuilt(s: State, acts: seq<Action>, world: set<Piece>)
    requires IsInit(s) && Within(s.idea, world) && EditsWithin(acts, world) && Faithful(world)
    requires IsCurrent(After(s, acts).idea)
    ensures
      var d := After(s, acts);
      d.cover == (set p | p in Inputs(d.idea)) && d.bases == Base(d.idea)
  {
    ChainIsTheKeys(s, acts);
    RunWithin(s, acts, world);
    var d := After(s, acts);
    hide After, Inputs, Sigs;
    forall x
      ensures x in Sigs(d.idea) <==> x in d.idea.keys
    {
      assert x in Elements(Sigs(d.idea)) <==> x in Elements(d.idea.keys);
    }
    forall p
      ensures p in d.cover <==> p in Inputs(d.idea)
    {
      SigsMean(d.idea, p.sig);
      if p in d.cover {
        assert Covers(d.cover, p.sig);
        var q :| q in Inputs(d.idea) && q.sig == p.sig;
      }
      if p in Inputs(d.idea) {
        assert Covers(d.cover, p.sig);
        var q :| q in d.cover && q.sig == p.sig;
      }
    }
    forall x
      ensures x in d.bases <==> x in Base(d.idea)
    {
      SigsMean(d.idea, x);
    }
  }

  /** A save with a job's signatures settles the idea until something changes. */
  lemma {:induction false} SaveSettles(i: Idea, text: Decided.Text)
    requires JobOf(i).Some? && Decided.Strip(text) != []
    ensures JobOf(Saved(i, text, JobOf(i).value.sigs)) == None
  {
    hide Decided.SetSynthesis, Decided.Strip;
    var d := Saved(i, text, JobOf(i).value.sigs);
    assert Inputs(d) == Inputs(i) && Sigs(d) == Sigs(i);
  }

  // ---------------------------------------------------------------------------
  // Signatures have the resolution of the clock
  // ---------------------------------------------------------------------------

  lemma {:induction false} SigsOfAppend(a: seq<Piece>, b: seq<Piece>)
    ensures SigsOf(a + b) == SigsOf(a) + SigsOf(b)
  {
    if b == [] {
      assert a + b == a;
    } else {
      var n := |b| - 1;
      assert (a + b)[..|a| + n] == a + b[..n];
      SigsOfAppend(a, b[..n]);
    }
  }

  lemma {:induction false} RewordKeepsSigs(kind: Kind, entries: seq<Entry>, k: nat, summary: string)
    requires k < |entries| && entries[k].summary != "" && summary != ""
    ensures SigsOf(Pieces(kind, entries[k := entries[k].(summary := summary)])) == SigsOf(Pieces(kind, entries))
  {
    hide SigsOf, Pieces;
    var n := |entries| - 1;
    var changed := entries[k := entries[k].(summary := summary)];
    if k < n {
      RewordKeepsSigs(kind, entries[..n], k, summary);
      assert changed[..n] == entries[..n][k := entries[..n][k].(summary := summary)];
    } else {
      assert changed[..n] == entries[..n];
    }
    LastPiece(kind, entries);
    LastPiece(kind, changed);
  }

  lemma {:induction false} LastPiece(kind: Kind, entries: seq<Entry>)
    requires entries != []
    ensures
      var n := |entries| - 1;
      var e := entries[n];
      SigsOf(Pieces(kind, entries)) ==
        (if e.current && e.summary != "" then [InputSig(kind, e.id, e.task, e.summaryAt)] else [])
        + SigsOf(Pieces(kind, entries[..n]))
  {
    var n := |entries| - 1;
    var e := entries[n];
    var head := if e.current && e.summary != "" then [Piece(InputSig(kind, e.id, e.task, e.summaryAt), e.summary)] else [];
    SigsOfAppend(head, Pieces(kind, entries[..n]));
    if head != [] {
      assert head[..0] == [];
    }
  }

  /** A summary rewritten within the second of the one before it is never handed over: the idea
      counts as current exactly as it did. */
  lemma {:induction false} SameSecondGoesUnnoticed(i: Idea, k: nat, summary: string)
    requires k < |i.results| && i.results[k].summary != "" && summary != ""
    ensures IsCurrent(i.(results := i.results[k := i.results[k].(summary := summary)])) == IsCurrent(i)
  {
    RewordKeepsSigs(ResultInput, i.results, k, summary);
    var d := i.(results := i.results[k := i.results[k].(summary := summary)]);
    SigsOfAppend(Pieces(ResultInput, i.results), Pieces(MaterialInput, i.materials));
    SigsOfAppend(Pieces(ResultInput, d.results), Pieces(MaterialInput, d.materials));
  }

  // ---------------------------------------------------------------------------
  // One signature, two contents
  // ---------------------------------------------------------------------------

  /** A piece that some entry is compressed to. */
  predicate Possible(p: Piece) { p.sig.InputSig? && p.summary != "" }

  /** The edit after which `p` is the only input. */
  function Only(p: Piece): Action
    requires Possible(p)
  {
    var e := Entry(p.sig.id, p.sig.task, true, p.summary, p.sig.summaryAt);
    if p.sig.kind == ResultInput then Edit([e], [], "", "") else Edit([], [e], "", "")
  }

  lemma {:induction false} OnlyInput(p: Piece, i: Idea)
    requires Possible(p)
    requires i.results == Only(p).results && i.materials == Only(p).materials && i.text == "" && i.grounds == ""
    ensures Inputs(i) == [p] && Sigs(i) == [p.sig, TextSig(""), GroundSig("")]
  {
    var e := Entry(p.sig.id, p.sig.task, true, p.summary, p.sig.summaryAt);
    assert [e][..0] == [] && [p][..0] == [];
    assert Pieces(p.sig.kind, [e]) == [p] + Pieces(p.sig.kind, []);
    assert Inputs(i) == [p];
    assert SigsOf([p]) == [] + [p.sig];
  }

  lemma {:induction false} AfterSnoc(s: State, acts: seq<Action>, a: Action)
    ensures After(s, acts + [a]) == Next(After(s, acts), a)
  {
    assert (acts + [a])[..|acts|] == acts;
  }

  /** With `p` synthesised and then reworded to `q` under its signature, the idea counts as current and
      the chain still rests on `p`. */
  lemma {:induction false} RewordedIsNotRebuilt(s: State, p: Piece, q: Piece) returns (acts: seq<Action>)
    requires IsInit(s) && Possible(p) && Possible(q) && p.sig == q.sig
    ensures EditsWithin(acts, {p, q})
    ensures
      var d := After(s, acts);
      IsCurrent(d.idea) && d.cover == {p} && Inputs(d.idea) == [q]
  {
    hide Inputs, Sigs, Decided.Strip, Decided.SetSynthesis, EditsWithin;
    var text := [Decided.HEADING];
    Decided.StripEmptyIff(text);
    assert !Decided.IsBlank(text[0]);
    var a, b, c, d := Only(p), Ask, Save(0, text), Only(q);
    var one := Next(s, a);
    OnlyInput(p, one.idea);
    var two := Next(one, b);
    FirstJob(one, p);
    var three := Next(two, c);
    var four := Next(three, d);
    OnlyInput(q, four.idea);
    acts := [] + [a] + [b] + [c] + [d];
    assert After(s, []) == s;
    AfterSnoc(s, [], a);
    AfterSnoc(s, [] + [a], b);
    AfterSnoc(s, [] + [a] + [b], c);
    AfterSnoc(s, [] + [a] + [b] + [c], d);
    FourEdits(p, q, text);
  }

  lemma {:induction false} FirstJob(s: State, p: Piece)
    requires s.idea.keys == [] && s.idea.synth == [] && s.jobs == []
    requires Inputs(s.idea) == [p] && Sigs(s.idea) == [p.sig, TextSig(""), GroundSig("")]
    ensures
      var d := Next(s, Ask);
      d.idea == s.idea && |d.jobs| == 1 && d.jobs[0].cover == {p} && d.jobs[0].job.sigs == Sigs(s.idea)
  {
    hide Inputs, Sigs;
    assert p.sig in Elements(Sigs(s.idea));
    var job := Job(Sigs(s.idea), false, [], [p]);
    assert JobOf(s.idea) == Some(job);
    assert Handed(s, job).cover == {p};
  }

  lemma {:induction false} FourEdits(p: Piece, q: Piece, text: Decided.Text)
    requires Possible(p) && Possible(q)
    ensures EditsWithin([] + [Only(p)] + [Ask] + [Save(0, text)] + [Only(q)], {p, q})
  {
    hide Inputs;
    var acts := [] + [Only(p)] + [Ask] + [Save(0, text)] + [Only(q)];
    forall n | 0 <= n < |acts| && acts[n].Edit?
      ensures Within(Idea(acts[n].results, acts[n].materials, acts[n].text, acts[n].grounds, [], []), {p, q})
    {
      var i := Idea(acts[n].results, acts[n].materials, acts[n].text, acts[n].grounds, [], []);
      if n == 0 {
        OnlyInput(p, i);
      } else {
        OnlyInput(q, i);
      }
    }
  }

  ghost predicate RebuiltWheneverCurrent(s: State, world: set<Piece>) {
    forall acts :: EditsWithin(acts, world) && IsCurrent(After(s, acts).idea) ==>
                     After(s, acts).cover == set p | p in Inputs(After(s, acts).idea)
  }

  /** Over inputs from `world`, being current means being rebuilt if and only if no signature has two
      contents there. */
  lemma {:induction false} RebuiltIff(s: State, world: set<Piece>)
    requires IsInit(s) && Within(s.idea, world) && forall p :: p in world ==> Possible(p)
    ensures RebuiltWheneverCurrent(s, world) <==> Faithful(world)
  {
    hide After, Inputs, IsCurrent;
    if Faithful(world) {
      forall acts | EditsWithin(acts, world) && IsCurrent(After(s, acts).idea)
        ensures After(s, acts).cover == set p | p in Inputs(After(s, acts).idea)
      {
        CurrentMeansRebuilt(s, acts, world);
      }
    } else {
      var p, q :| p in world && q in world && p.sig == q.sig && p != q;
      var acts := RewordedIsNotRebuilt(s, p, q);
      assert EditsWithin(acts, world);
      assert q in Inputs(After(s, acts).idea) && q !in After(s, acts).cover;
    }
  }

  // ---------------------------------------------------------------------------
  // What is handed over
  // ---------------------------------------------------------------------------

  /** The inputs are the compressed entries that count, newest first, under the signature of their wording's time. */
  lemma {:induction false} PiecesMean(kind: Kind, older: seq<Entry>, e: Entry)
    ensures Pieces(kind, older + [e]) ==
            (if e.current && e.summary != "" then [Piece(InputSig(kind, e.id, e.task, e.summaryAt), e.summary)] else [])
            + Pieces(kind, older)
    ensures Pieces(kind, []) == []
  {
    assert (older + [e])[..|older|] == older;
  }

  /** The signatures are those of the inputs, results before materials, then the idea's text and the direction. */
  lemma {:induction false} SigsAre(i: Idea, n: nat)
    ensures |Sigs(i)| == |Inputs(i)| + 2
    ensures n < |Inputs(i)| ==> Sigs(i)[n] == Inputs(i)[n].sig
    ensures Sigs(i)[|Inputs(i)|] == TextSig(i.text) && Sigs(i)[|Inputs(i)| + 1] == GroundSig(i.grounds)
    ensures Inputs(i) == Pieces(ResultInput, i.results) + Pieces(MaterialInput, i.materials)
  {
    SigsAt(Inputs(i), n);
  }

  lemma {:induction false} SigsAt(pieces: seq<Piece>, n: nat)
    ensures |SigsOf(pieces)| == |pieces| && (n < |pieces| ==> SigsOf(pieces)[n] == pieces[n].sig)
  {
    if pieces != [] {
      SigsAt(pieces[..|pieces| - 1], if n < |pieces| - 1 then n else 0);
      if n < |pieces| - 1 {
        assert SigsOf(pieces)[n] == SigsOf(pieces[..|pieces| - 1])[n];
      } else if n == |pieces| - 1 && n > 0 {
        assert |SigsOf(pieces[..|pieces| - 1])| == n;
      }
    }
  }

  lemma {:induction false} CurrentMeans(i: Idea)
    ensures IsCurrent(i) <==> forall x :: (x in Sigs(i)) == (x in i.keys)
  {
    hide Sigs;
    forall x
      ensures x in Elements(Sigs(i)) <==> x in Sigs(i)
      ensures x in Elements(i.keys) <==> x in i.keys
    {
    }
    if forall x :: (x in Sigs(i)) == (x in i.keys) {
      assert Elements(Sigs(i)) == Elements(i.keys);
    }
  }

  /** A job is due exactly if the signatures differ from the keys and there are inputs. It builds on the stored text
      exactly if there is one, everything it rests on is still there and neither text nor direction has changed; then it
      hands over exactly the inputs not yet in the keys, and otherwise everything. */
  lemma {:induction false} JobMeans(i: Idea)
    ensures JobOf(i).Some? <==> Inputs(i) != [] && exists x :: (x in Sigs(i)) != (x in i.keys)
    ensures JobOf(i).Some? ==>
              var job := JobOf(i).value;
              && job.sigs == Sigs(i)
              && (job.incremental <==> i.synth != [] && (forall x :: x in i.keys ==> x in Sigs(i))
                                       && TextSig(i.text) in i.keys && GroundSig(i.grounds) in i.keys)
              && job.previous == (if job.incremental then i.synth else [])
              && (!job.incremental ==> job.inputs == Inputs(i))
              && (job.incremental ==> forall p :: p in job.inputs <==> p in Inputs(i) && p.sig !in i.keys)
  {
    hide Inputs, Sigs;
    CurrentMeans(i);
    forall x
      ensures x in Elements(Sigs(i)) <==> x in Sigs(i)
      ensures x in Elements(i.keys) <==> x in i.keys
    {
    }
    forall p
      ensures p in Unseen(Inputs(i), Elements(i.keys)) <==> p in Inputs(i) && p.sig !in i.keys
    {
      UnseenMeans(Inputs(i), Elements(i.keys), p);
    }
  }

  /** Asking drops a synthesis exactly when it is not current and has no inputs left. */
  lemma {:induction false} AskMeans(i: Idea)
    ensures
      if Inputs(i) == [] && exists x :: (x in Sigs(i)) != (x in i.keys) then Asked(i) == i.(synth := [], keys := [])
      else Asked(i) == i
  {
    hide Inputs, Sigs;
    CurrentMeans(i);
  }

  /** A new input to a settled idea is handed over alone, on top of the stored text. */
  lemma {:induction false} NewInputAloneIsHanded(i: Idea, e: Entry)
    requires i.synth != [] && i.keys == Sigs(i) && e.current && e.summary != ""
    requires InputSig(ResultInput, e.id, e.task, e.summaryAt) !in Sigs(i)
    ensures
      var p := Piece(InputSig(ResultInput, e.id, e.task, e.summaryAt), e.summary);
      var job := JobOf(i.(results := i.results + [e]));
      job.Some? && job.value.incremental && job.value.previous == i.synth && forall q :: q in job.value.inputs <==> q == p
  {
    var d := i.(results := i.results + [e]);
    var p := Piece(InputSig(ResultInput, e.id, e.task, e.summaryAt), e.summary);
    PiecesMean(ResultInput, i.results, e);
    assert Inputs(d) == [p] + Inputs(i);
    forall x
      ensures x in Sigs(d) <==> x == p.sig || x in Sigs(i)
    {
      SigsMean(d, x);
      SigsMean(i, x);
      if x.InputSig? {
        if q :| q in Inputs(d) && q.sig == x {
          assert q == p || q in Inputs(i);
        }
        if q :| q in Inputs(i) && q.sig == x {
          assert q in Inputs(d);
        }
        assert p in Inputs(d);
      }
    }
    hide Sigs, Inputs;
    JobMeans(d);
    SigsMean(i, TextSig(i.text));
    SigsMean(i, GroundSig(i.grounds));
    assert p.sig in Sigs(d) && p.sig !in d.keys;
    forall q | q in Inputs(i)
      ensures q.sig in Sigs(i)
    {
      SigsMean(i, q.sig);
    }
  }

  /** A changed text or direction, or an input that is gone, rebuilds from everything. */
  lemma {:induction false} ChangeRebuilds(i: Idea)
    requires JobOf(i).Some?
    requires TextSig(i.text) !in i.keys || GroundSig(i.grounds) !in i.keys || exists x :: x in i.keys && x !in Sigs(i)
    ensures !JobOf(i).value.incremental && JobOf(i).value.inputs == Inputs(i) && JobOf(i).value.previous == []
  {
    hide Sigs, Inputs;
    JobMeans(i);
  }

  // ---------------------------------------------------------------------------
  // Decided lines through edits, jobs and saves
  // ---------------------------------------------------------------------------

  /** A save stores the text over the stored one, with its decided lines kept, and the signatures of its job. */
  lemma {:induction false} SaveMeans(i: Idea, text: Decided.Text, sigs: seq<Sig>)
    ensures
      var d := Saved(i, text, sigs);
      && d.results == i.results && d.materials == i.materials && d.text == i.text && d.grounds == i.grounds
      && d.synth == Decided.SetSynthesis(i.synth, text)
      && d.keys == if Decided.Strip(text) == [] then i.keys else sigs
  {
    hide Decided.KeepDecided, Decided.Strip;
  }

  /** Along the run every saved text is fit and no job finds the idea without inputs. */
  ghost predicate Steady(s: State, acts: seq<Action>) {
    forall n :: 0 <= n < |acts| ==>
      && (acts[n].Save? ==> Decided.Fit(Decided.Strip(acts[n].written)))
      && (acts[n].Ask? ==> Inputs(After(s, acts[..n]).idea) != [])
  }

  /** What is decided stays decided, whatever is edited, asked for and saved in between. */
  lemma {:induction false} DecidedStaysInRuns(s: State, acts: seq<Action>, w: seq<Decided.Word>)
    requires Steady(s, acts) && Decided.Listed(s.idea.synth, w) && !Decided.SaysNone(w)
    ensures Decided.Listed(After(s, acts).idea.synth, w)
  {
    if acts != [] {
      hide Decided.Listed, Decided.Fit, Decided.SaysNone, Next, Inputs;
      var n := |acts| - 1;
      SteadyPrefix(s, acts);
      DecidedStaysInRuns(s, acts[..n], w);
      DecidedStep(After(s, acts[..n]), acts[n], w);
    }
  }

  lemma {:induction false} SteadyPrefix(s: State, acts: seq<Action>)
    requires Steady(s, acts) && acts != []
    ensures Steady(s, acts[..|acts| - 1])
  {
    hide Decided.Fit, Decided.Strip, Inputs, After;
    var n := |acts| - 1;
    forall m | 0 <= m < n
      ensures acts[..n][m] == acts[m] && acts[..n][..m] == acts[..m]
    {
    }
  }

  lemma {:induction false} DecidedStep(s: State, a: Action, w: seq<Decided.Word>)
    requires a.Save? ==> Decided.Fit(Decided.Strip(a.written))
    requires a.Ask? ==> Inputs(s.idea) != []
    requires Decided.Listed(s.idea.synth, w) && !Decided.SaysNone(w)
    ensures Decided.Listed(Next(s, a).idea.synth, w)
  {
    hide Decided.Listed, Decided.Fit, Decided.Strip, Decided.SaysNone, Decided.SetSynthesis, Inputs, JobOf, Saved;
    if a.Save? && 0 <= a.n < |s.jobs| {
      SaveMeans(s.idea, a.written, s.jobs[a.n].job.sigs);
      Decided.SaveKeeps(s.idea.synth, a.written, w);
    }
  }
}
