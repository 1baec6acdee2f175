/**
 The decided section of a synthesis: each new text is rewritten so that bullets listed
 under the decided heading of the previous text are not lost. A text is its sequence of
 lines; a line is its words, whether blanks come before them and whether blanks follow.
 */
module Decided {

  type Word = string

  /** Whether a line ends a section: a bare row of hashes does only when a newline follows. */
  datatype Ending = Never | Always | IfFollowed

  /** One to six hashes. */
  predicate IsRow(w: Word) { 1 <= |w| <= 6 && forall k :: 0 <= k < |w| ==> w[k] == '#' }

  /** A row of hashes with the first word of the decided heading written right behind it. */
  predicate IsGluedRow(w: Word) { exists k :: 1 <= k <= |w| && IsRow(w[..k]) && w[k..] == "정해진" }

  /** `trail` says that blanks follow the last word; a line without words is blank. */
  datatype Line = Line(indented: bool, words: seq<Word>, trail: bool) {

    /** The pattern of any heading: a row of hashes and then a blank or a newline. */
    function Ends(): Ending {
      if indented || words == [] || !IsRow(words[0]) then Never
      else if |words| >= 2 || trail then Always
      else IfFollowed
    }

    /** The pattern of the decided heading. */
    predicate Decided() {
      && !indented && |words| >= 2
      && (|| (IsRow(words[0]) && |words| >= 3 && words[1] == "정해진" && "것" <= words[2])
          || (IsGluedRow(words[0]) && "것" <= words[1]))
    }
  }

  type Text = seq<Line>

  const BLANK := Line(false, [], false)
  const HEADING := Line(false, ["##", "정해진", "것"], false)

  predicate IsBlank(l: Line) { l.words == [] }

  predicate IsBullet(l: Line) {
    !l.indented && |l.words| >= 1 && l.words[0] in {"-", "*"} && (|l.words| >= 2 || l.trail)
  }

  predicate IsContinuation(l: Line) { l.indented && !IsBlank(l) }

  // ---------------------------------------------------------------------------
  // bullets
  // ---------------------------------------------------------------------------

  /** One bullet, up to whitespace; `lead` says that its text begins with a blank. */
  datatype Item = Item(lead: bool, words: seq<Word>)

  predicate SaysNone(words: seq<Word>) { words == ["없음"] || words == ["없음."] }

  /** The final filter: not empty and not literally "없음". */
  predicate IsReal(i: Item) { (i.lead || i.words != []) && (i.lead || !SaysNone(i.words)) }

  function Real(items: seq<Item>): seq<Item> {
    if items == [] then []
    else Real(items[..|items| - 1]) + if IsReal(items[|items| - 1]) then [items[|items| - 1]] else []
  }

  /** One line of the loop: a bullet opens an item, an indented line is folded into the last one. */
  function Take(items: seq<Item>, l: Line): seq<Item> {
    if IsBullet(l) then items + [Item(false, l.words[1..])]
    else if items != [] && IsContinuation(l) then
      var last := items[|items| - 1];
      items[..|items| - 1] + [Item(last.lead || last.words == [], last.words + l.words)]
    else items
  }

  function Fold(items: seq<Item>, lines: Text): seq<Item> {
    if lines == [] then items else Take(Fold(items, lines[..|lines| - 1]), lines[|lines| - 1])
  }

  method Bullets(lines: Text) returns (r: seq<Item>)
    ensures r == Real(Fold([], lines))
  {
    var items: seq<Item> := [];
    for n := 0 to |lines|
      invariant items == Fold([], lines[..n])
    {
      assert lines[..n + 1][..n] == lines[..n];
      var l := lines[n];
      if IsBullet(l) {
        items := items + [Item(false, l.words[1..])];
      } else if items != [] && IsContinuation(l) {
        var last := items[|items| - 1];
        items := items[|items| - 1 := Item(last.lead || last.words == [], last.words + l.words)];
      }
    }
    assert lines[..|lines|] == lines;
    r := [];
    for n := 0 to |items|
      invariant r == Real(items[..n])
    {
      assert items[..n + 1][..n] == items[..n];
      if IsReal(items[n]) {
        r := r + [items[n]];
      }
    }
    assert items[..|items|] == items;
  }

  // ---------------------------------------------------------------------------
  // section
  // ---------------------------------------------------------------------------

  /** The first decided heading that is followed by a newline, or the length of the text. */
  function DecidedFrom(t: Text, k: nat): (i: nat)
    requires k <= |t|
    ensures k <= i <= |t|
    ensures i < |t| ==> t[i].Decided() && i < |t| - 1
    ensures forall n :: k <= n < i && n < |t| - 1 ==> !t[n].Decided()
    decreases |t| - k
  {
    if k == |t| then k else if t[k].Decided() && k < |t| - 1 then k else DecidedFrom(t, k + 1)
  }

  predicate IsEnd(t: Text, k: nat)
    requires k < |t|
  {
    t[k].Ends() == Always || (t[k].Ends() == IfFollowed && k < |t| - 1)
  }

  /** The first line from `k` on that ends a section, or the length of the text. */
  function EndFrom(t: Text, k: nat): (j: nat)
    requires k <= |t|
    ensures k <= j <= |t|
    ensures j < |t| ==> IsEnd(t, j)
    ensures forall n :: k <= n < j ==> !IsEnd(t, n)
    decreases |t| - k
  {
    if k == |t| || IsEnd(t, k) then k else EndFrom(t, k + 1)
  }

  predicate HasHeading(t: Text) { DecidedFrom(t, 0) < |t| }

  /** `rstrip`: trailing blank lines go, and the blanks after the last word. */
  function RTrim(t: Text): Text {
    if t == [] then []
    else if IsBlank(t[|t| - 1]) then RTrim(t[..|t| - 1])
    else t[..|t| - 1] + [t[|t| - 1].(trail := false)]
  }

  /** `lstrip`: leading blank lines go, and the indentation of the first line left. */
  function LTrim(t: Text): Text {
    if t == [] then []
    else if IsBlank(t[0]) then LTrim(t[1..])
    else [t[0].(indented := false)] + t[1..]
  }

  function SectionLines(t: Text): Text {
    if HasHeading(t) then t[DecidedFrom(t, 0) + 1..EndFrom(t, DecidedFrom(t, 0) + 1)] else []
  }

  function Says(lines: Text): seq<Item> { Real(Fold([], LTrim(RTrim(lines)))) }

  /** The bullets listed under the decided heading. */
  function Items(t: Text): seq<Item> { Says(SectionLines(t)) }

  predicate Has(items: seq<Item>, words: seq<Word>) {
    exists n :: 0 <= n < |items| && items[n].words == words
  }

  /** A line once decided, up to whitespace. */
  predicate Listed(t: Text, words: seq<Word>) { Has(Items(t), words) }

  // ---------------------------------------------------------------------------
  // keep_decided
  // ---------------------------------------------------------------------------

  function Lost(before: seq<Item>, have: seq<Item>): seq<Item> {
    if before == [] then []
    else
      var last := before[|before| - 1];
      Lost(before[..|before| - 1], have) + if Has(have, last.words) then [] else [last]
  }

  function AddLine(b: Item): Line { Line(false, ["-"] + b.words, false) }

  function AddLines(lost: seq<Item>): Text {
    if lost == [] then [] else AddLines(lost[..|lost| - 1]) + [AddLine(lost[|lost| - 1])]
  }

  /** What is kept of the section body: nothing of a lone "없음", one empty line for an empty body. */
  function Body(lines: Text): Text {
    var trimmed := RTrim(lines);
    var stripped := LTrim(trimmed);
    if trimmed == [] then [BLANK]
    else if |stripped| == 1 && SaysNone(stripped[0].words) then []
    else trimmed
  }

  function Restored(t: Text, lost: seq<Item>): Text {
    if !HasHeading(t) then [HEADING] + AddLines(lost) + [BLANK] + t
    else
      var i := DecidedFrom(t, 0);
      var j := EndFrom(t, i + 1);
      t[..i + 1] + Body(t[i + 1..j]) + AddLines(lost) + [BLANK] + (if j < |t| then t[j..] else [BLANK])
  }

  function KeepDecided(previous: Text, t: Text): Text {
    var lost := Lost(Items(previous), Items(t));
    if lost == [] then t else Restored(t, lost)
  }

  // ---------------------------------------------------------------------------
  // Folding
  // ---------------------------------------------------------------------------

  lemma {:induction false} FoldAppend(items: seq<Item>, a: Text, b: Text)
    ensures Fold(items, a + b) == Fold(Fold(items, a), b)
  {
    hide Take;
    if b == [] {
      assert a + b == a;
    } else {
      var n := |b| - 1;
      FoldAppend(items, a, b[..n]);
      assert (a + b)[..|a| + n] == a + b[..n];
    }
  }

  lemma {:induction false} RealAppend(a: seq<Item>, b: seq<Item>)
    ensures Real(a + b) == Real(a) + Real(b)
  {
    hide IsReal;
    if b == [] {
      assert a + b == a;
    } else {
      var n := |b| - 1;
      RealAppend(a, b[..n]);
      assert (a + b)[..|a| + n] == a + b[..n];
    }
  }

  function Fresh(lost: seq<Item>): seq<Item> {
    if lost == [] then [] else Fresh(lost[..|lost| - 1]) + [Item(false, lost[|lost| - 1].words)]
  }

  lemma {:induction false} FoldOne(items: seq<Item>, l: Line)
    ensures Fold(items, [l]) == Take(items, l)
  {
    assert [l][..0] == [];
  }

  lemma {:induction false} TakeAdded(items: seq<Item>, b: Item)
    requires b.words != []
    ensures Take(items, AddLine(b)) == items + [Item(false, b.words)]
  {
    assert AddLine(b).words[1..] == b.words;
  }

  /** The restored lines open one item each, whatever stands before them. */
  lemma {:induction false} FoldAdded(items: seq<Item>, lost: seq<Item>)
    requires forall n :: 0 <= n < |lost| ==> lost[n].words != []
    ensures Fold(items, AddLines(lost)) == items + Fresh(lost)
  {
    hide Take, AddLine;
    if lost != [] {
      var n := |lost| - 1;
      FoldAdded(items, lost[..n]);
      FoldAppend(items, AddLines(lost[..n]), [AddLine(lost[n])]);
      FoldOne(items + Fresh(lost[..n]), AddLine(lost[n]));
      TakeAdded(items + Fresh(lost[..n]), lost[n]);
    }
  }

  lemma {:induction false} TakeBehind(items: seq<Item>, open: seq<Item>, l: Line)
    requires open != []
    ensures Take(items + open, l) == items + Take(open, l) && Take(open, l) != []
  {
    assert (items + open)[..|items + open| - 1] == items + open[..|open| - 1];
  }

  /** With an item open, only that item and later ones can change. */
  lemma {:induction false} FoldBehind(items: seq<Item>, open: seq<Item>, lines: Text)
    requires open != []
    ensures Fold(items + open, lines) == items + Fold(open, lines)
    ensures Fold(open, lines) != []
  {
    hide Take;
    if lines != [] {
      FoldBehind(items, open, lines[..|lines| - 1]);
      TakeBehind(items, Fold(open, lines[..|lines| - 1]), lines[|lines| - 1]);
    }
  }

  // ---------------------------------------------------------------------------
  // Trimming
  // ---------------------------------------------------------------------------

  predicate AllBlank(t: Text) { forall n :: 0 <= n < |t| ==> IsBlank(t[n]) }

  lemma {:induction false} RTrimEmpty(t: Text)
    ensures RTrim(t) == [] <==> AllBlank(t)
  {
    if t != [] && IsBlank(t[|t| - 1]) {
      RTrimEmpty(t[..|t| - 1]);
    }
  }

  /** Trimming a text that ends in a settled line followed by blanks stops at that line. */
  lemma {:induction false} RTrimStops(a: Text, l: Line, blanks: Text)
    requires !IsBlank(l) && !l.trail && AllBlank(blanks)
    ensures RTrim(a + [l] + blanks) == a + [l]
  {
    var t := a + [l] + blanks;
    if blanks == [] {
      assert t == a + [l];
      assert t[..|t| - 1] == a && l.(trail := false) == l;
    } else {
      var n := |blanks| - 1;
      assert t[|t| - 1] == blanks[n];
      assert t[..|t| - 1] == a + [l] + blanks[..n];
      RTrimStops(a, l, blanks[..n]);
    }
  }

  lemma {:induction false} RTrimTail(a: Text, b: Text)
    requires !AllBlank(b)
    ensures RTrim(a + b) == a + RTrim(b)
  {
    var n := |b| - 1;
    assert (a + b)[|a| + n] == b[n] && (a + b)[..|a| + n] == a + b[..n];
    if IsBlank(b[n]) {
      assert !AllBlank(b[..n]);
      RTrimTail(a, b[..n]);
    }
  }

  lemma {:induction false} LTrimHead(a: Text, b: Text)
    requires !AllBlank(a)
    ensures LTrim(a + b) == LTrim(a) + b
  {
    assert (a + b)[0] == a[0] && (a + b)[1..] == a[1..] + b;
    if IsBlank(a[0]) {
      var n :| 0 <= n < |a| && !IsBlank(a[n]);
      assert a[1..][n - 1] == a[n];
      LTrimHead(a[1..], b);
    }
  }

  lemma {:induction false} LTrimBlanks(a: Text, b: Text)
    requires AllBlank(a)
    ensures LTrim(a + b) == LTrim(b)
  {
    if a == [] {
      assert a + b == b;
    } else {
      assert (a + b)[0] == a[0] && (a + b)[1..] == a[1..] + b;
      LTrimBlanks(a[1..], b);
    }
  }

  lemma {:induction false} DashIsNoRow()
    ensures !IsRow("-")
  {
    assert "-"[0] != '#';
  }

  lemma {:induction false} RowIsNotNone(w: Word)
    requires IsRow(w)
    ensures !SaysNone([w])
  {
    assert "없음"[0] != '#' && "없음."[0] != '#';
  }

  /** Restored lines are settled bullets: no trimming touches them. */
  lemma {:induction false} AddedIsSettled(lost: seq<Item>)
    requires lost != []
    ensures
      var t := AddLines(lost);
      && |t| == |lost| && LTrim(t) == t
      && (forall n :: 0 <= n < |t| ==> t[n] == AddLine(lost[n]) && t[n].Ends() == Never)
  {
    DashIsNoRow();
    if |lost| == 1 {
      assert lost[..0] == [];
    } else {
      AddedIsSettled(lost[..|lost| - 1]);
    }
    var t := AddLines(lost);
    assert t[0] == AddLine(lost[0]) && t == [t[0].(indented := false)] + t[1..];
  }

  lemma {:induction false} RTrimAdded(a: Text, lost: seq<Item>, blanks: Text)
    requires lost != [] && AllBlank(blanks)
    ensures RTrim(a + AddLines(lost) + blanks) == a + AddLines(lost)
  {
    AddedIsSettled(lost);
    var t, n := AddLines(lost), |lost| - 1;
    assert t == t[..n] + [t[n]];
    assert a + t + blanks == (a + t[..n]) + [t[n]] + blanks;
    assert a + t == (a + t[..n]) + [t[n]];
    RTrimStops(a + t[..n], t[n], blanks);
  }

  // ---------------------------------------------------------------------------
  // Locating
  // ---------------------------------------------------------------------------

  lemma {:induction false} EndIs(t: Text, k: nat, j: nat)
    requires k <= j <= |t|
    requires j < |t| ==> IsEnd(t, j)
    requires forall n :: k <= n < j ==> !IsEnd(t, n)
    ensures EndFrom(t, k) == j
  {
  }

  lemma {:induction false} DecidedIs(t: Text, i: nat)
    requires i < |t| - 1 && t[i].Decided() && forall n :: 0 <= n < i ==> !t[n].Decided()
    ensures DecidedFrom(t, 0) == i
  {
  }

  /** The section behind a first decided heading, cut at the first line that ends it. */
  lemma {:induction false} SectionIs(head: Text, mid: Text, rest: Text)
    requires head != [] && head[|head| - 1].Decided() && forall n :: 0 <= n < |head| - 1 ==> !head[n].Decided()
    requires mid + rest != []
    requires forall n :: 0 <= n < |mid| ==>
               mid[n].Ends() == Never || (mid[n].Ends() == IfFollowed && n == |mid| - 1 && rest == [])
    requires rest != [] ==> IsEnd(rest, 0)
    ensures HasHeading(head + mid + rest) && SectionLines(head + mid + rest) == mid
  {
    var t, i, j := head + mid + rest, |head| - 1, |head| + |mid|;
    assert forall n :: 0 <= n < |head| ==> t[n] == head[n];
    DecidedIs(t, i);
    assert forall n :: 0 <= n < |mid| ==> t[|head| + n] == mid[n];
    forall n | |head| <= n < j
      ensures !IsEnd(t, n)
    {
      assert t[n] == mid[n - |head|];
    }
    assert rest != [] ==> t[j] == rest[0];
    EndIs(t, |head|, j);
    assert t[|head|..j] == mid;
  }

  // ---------------------------------------------------------------------------
  // The text had the heading
  // ---------------------------------------------------------------------------

  /** The decided section runs to the end of the text and its last line is a bare row of hashes. */
  predicate BareTail(t: Text) {
    HasHeading(t) && t[|t| - 1].Ends() == IfFollowed && EndFrom(t, DecidedFrom(t, 0) + 1) == |t|
  }

  lemma {:induction false} RTrimKeepsEndings(t: Text)
    ensures |RTrim(t)| <= |t|
    ensures forall n :: 0 <= n < |RTrim(t)| ==> RTrim(t)[n].words == t[n].words
    ensures forall n :: 0 <= n < |RTrim(t)| && t[n].Ends() != Always ==> RTrim(t)[n].Ends() == t[n].Ends()
  {
    if t != [] && IsBlank(t[|t| - 1]) {
      RTrimKeepsEndings(t[..|t| - 1]);
    }
  }

  predicate Calm(t: Text) { forall n :: 0 <= n < |t| ==> t[n].Ends() == Never }

  predicate SectionAt(t: Text, i: nat, j: nat) {
    HasHeading(t) && i == DecidedFrom(t, 0) && j == EndFrom(t, i + 1)
  }

  lemma {:induction false} BodyNeverEnds(t: Text, i: nat, j: nat)
    requires SectionAt(t, i, j) && !BareTail(t)
    ensures Calm(Body(t[i + 1..j]))
  {
    var lines := t[i + 1..j];
    RTrimKeepsEndings(lines);
    forall n | 0 <= n < |lines|
      ensures lines[n].Ends() == Never
    {
      assert !IsEnd(t, i + 1 + n);
    }
  }

  /** The rewritten section: the kept body, the restored lines, blanks. */
  lemma {:induction false} RestoredSection(t: Text, lost: seq<Item>, i: nat, j: nat) returns (blanks: Text)
    requires SectionAt(t, i, j) && !BareTail(t) && lost != []
    ensures HasHeading(Restored(t, lost))
    ensures SectionLines(Restored(t, lost)) == Body(t[i + 1..j]) + AddLines(lost) + blanks
    ensures AllBlank(blanks)
  {
    hide SectionLines, Body, Restored, AddLines;
    var body := Body(t[i + 1..j]);
    AddedIsSettled(lost);
    BodyNeverEnds(t, i, j);
    blanks := if j < |t| then [BLANK] else [BLANK, BLANK];
    var mid := body + AddLines(lost) + blanks;
    var head, rest := t[..i + 1], t[j..];
    RestoredSplits(t, lost);
    assert rest != [] ==> IsEnd(rest, 0);
    SectionIs(head, mid, rest);
  }

  lemma {:induction false} RestoredSplits(t: Text, lost: seq<Item>)
    requires HasHeading(t)
    ensures
      var i := DecidedFrom(t, 0);
      var j := EndFrom(t, i + 1);
      Restored(t, lost) == t[..i + 1]
        + (Body(t[i + 1..j]) + AddLines(lost) + (if j < |t| then [BLANK] else [BLANK, BLANK])) + t[j..]
  {
    hide Body, AddLines;
    var i := DecidedFrom(t, 0);
    var j := EndFrom(t, i + 1);
    var body, add := Body(t[i + 1..j]), AddLines(lost);
    if j == |t| {
      assert t[j..] == [];
      assert [BLANK] + [BLANK] == [BLANK, BLANK];
      Regroup(t[..i + 1], body, add, [BLANK], [BLANK]);
    } else {
      Regroup(t[..i + 1], body, add, [BLANK], t[j..]);
    }
  }

  lemma {:induction false} Regroup(a: Text, b: Text, c: Text, d: Text, e: Text)
    ensures a + b + c + d + e == a + (b + c + d) + e
    ensures a + b + c + d + e == a + (b + c + (d + e)) + []
  {
  }

  /** The kept body says what the section said. */
  lemma {:induction false} BodySaysTheSame(lines: Text, lost: seq<Item>)
    requires lost != [] && forall n :: 0 <= n < |lost| ==> lost[n].words != []
    ensures Fold([], LTrim(Body(lines) + AddLines(lost))) == Fold([], LTrim(RTrim(lines))) + Fresh(lost)
  {
    var trimmed, body := RTrim(lines), Body(lines);
    AddedIsSettled(lost);
    if AllBlank(body) {
      LTrimBlanks(body, AddLines(lost));
      FoldAdded([], lost);
      NothingInBody(lines);
    } else {
      assert body == trimmed;
      LTrimHead(trimmed, AddLines(lost));
      FoldAppend([], LTrim(trimmed), AddLines(lost));
      FoldAdded(Fold([], LTrim(trimmed)), lost);
    }
  }

  lemma {:induction false} NothingInBody(lines: Text)
    requires AllBlank(Body(lines))
    ensures Fold([], LTrim(RTrim(lines))) == []
  {
    hide RTrim, Fold, LTrim;
    var trimmed := RTrim(lines);
    RTrimTwice(lines);
    RTrimEmpty(trimmed);
    if trimmed == [] {
      NothingInNothing();
    } else {
      LoneNone(LTrim(trimmed)[0]);
      assert LTrim(trimmed) == [LTrim(trimmed)[0]];
    }
  }

  lemma {:induction false} NothingInNothing()
    ensures Fold([], LTrim([])) == []
  {
  }

  lemma {:induction false} LoneNone(l: Line)
    requires SaysNone(l.words)
    ensures Fold([], [l]) == []
  {
    FoldOne([], l);
  }

  lemma {:induction false} RTrimTwice(t: Text)
    ensures RTrim(RTrim(t)) == RTrim(t)
  {
    if t != [] && IsBlank(t[|t| - 1]) {
      RTrimTwice(t[..|t| - 1]);
    } else if t != [] {
      var r := RTrim(t);
      assert r[|r| - 1] == t[|t| - 1].(trail := false) && r[..|r| - 1] == t[..|t| - 1];
    }
  }

  /** With the heading there, the section afterwards lists what it listed, then what was lost. */
  lemma {:induction false} RestoredItems(t: Text, lost: seq<Item>)
    requires HasHeading(t) && !BareTail(t) && lost != []
    requires forall n :: 0 <= n < |lost| ==> lost[n].words != []
    ensures Items(Restored(t, lost)) == Items(t) + Real(Fresh(lost))
  {
    hide Says, SectionLines, Body, Restored, AddLines, Fresh, Real;
    var i := DecidedFrom(t, 0);
    var j := EndFrom(t, i + 1);
    SectionOf(t, i, j);
    var blanks := RestoredSection(t, lost, i, j);
    RestoredSays(t[i + 1..j], lost, blanks);
  }

  lemma {:induction false} SectionOf(t: Text, i: nat, j: nat)
    requires HasHeading(t) && i == DecidedFrom(t, 0) && j == EndFrom(t, i + 1)
    ensures SectionAt(t, i, j) && SectionLines(t) == t[i + 1..j]
  {
  }

  lemma {:induction false} RestoredSays(lines: Text, lost: seq<Item>, blanks: Text)
    requires lost != [] && forall n :: 0 <= n < |lost| ==> lost[n].words != []
    requires AllBlank(blanks)
    ensures Says(Body(lines) + AddLines(lost) + blanks) == Says(lines) + Real(Fresh(lost))
  {
    hide Body, Fold, LTrim, RTrim, Real, AddLines, Fresh;
    RTrimAdded(Body(lines), lost, blanks);
    BodySaysTheSame(lines, lost);
    RealAppend(Fold([], LTrim(RTrim(lines))), Fresh(lost));
  }

  // ---------------------------------------------------------------------------
  // The text had no heading
  // ---------------------------------------------------------------------------

  /** The text of the indented lines that stand before the first bullet. */
  function Opening(lines: Text): seq<Word> {
    if lines == [] || IsBullet(lines[0]) then []
    else (if IsContinuation(lines[0]) then lines[0].words else []) + Opening(lines[1..])
  }

  lemma {:induction false} TakeOpen(items: seq<Item>, open: Item, l: Line)
    requires open.words != []
    ensures Take([], l) == if IsBullet(l) then [Item(false, l.words[1..])] else []
    ensures Take(items + [open], l) ==
            if IsBullet(l) then items + [open] + [Item(false, l.words[1..])]
            else items + [Item(open.lead, open.words + if IsContinuation(l) then l.words else [])]
  {
    assert open.words + [] == open.words;
    assert (items + [open])[..|items|] == items;
  }

  /** An open item swallows exactly the opening of the lines behind it. */
  lemma {:induction false} FoldOpening(items: seq<Item>, open: Item, lines: Text)
    requires open.words != []
    ensures Fold(items + [open], lines) == items + [Item(open.lead, open.words + Opening(lines))] + Fold([], lines)
    decreases |lines|
  {
    hide Fold, Take;
    if lines == [] {
      FoldNone(items + [open]);
      FoldNone([]);
      assert open.words + Opening(lines) == open.words;
    } else {
      var l, rest := lines[0], lines[1..];
      assert lines == [l] + rest;
      FoldAppend(items + [open], [l], rest);
      FoldAppend([], [l], rest);
      FoldOne(items + [open], l);
      FoldOne([], l);
      TakeOpen(items, open, l);
      if IsBullet(l) {
        FoldBehind(items + [open], [Item(false, l.words[1..])], rest);
        assert open.words + Opening(lines) == open.words;
      } else {
        var more := if IsContinuation(l) then l.words else [];
        FoldOpening(items, Item(open.lead, open.words + more), rest);
        assert open.words + more + Opening(rest) == open.words + Opening(lines);
      }
    }
  }

  /** What precedes the first line of `t` that ends a section, as the reader of a section trims it. */
  function Preface(t: Text): Text { RTrim(t[..EndFrom(t, 0)]) }

  lemma {:induction false} PrependedSection(t: Text, lost: seq<Item>)
    requires !HasHeading(t) && lost != []
    ensures SectionLines(Restored(t, lost)) == AddLines(lost) + ([BLANK] + t[..EndFrom(t, 0)])
  {
    hide SectionLines, AddLines, Restored;
    var p := EndFrom(t, 0);
    AddedIsSettled(lost);
    var mid, rest := AddLines(lost) + ([BLANK] + t[..p]), t[p..];
    PrependedSplits(t, lost, p);
    assert p < |t| ==> IsEnd(t, p);
    forall n | 0 <= n < |mid|
      ensures mid[n].Ends() == Never || (mid[n].Ends() == IfFollowed && n == |mid| - 1 && rest == [])
    {
      if n > |lost| {
        assert mid[n] == t[n - |lost| - 1] && !IsEnd(t, n - |lost| - 1);
      }
    }
    SectionIs([HEADING], mid, rest);
  }

  lemma {:induction false} PrependedSplits(t: Text, lost: seq<Item>, p: nat)
    requires !HasHeading(t) && p <= |t|
    ensures Restored(t, lost) == [HEADING] + (AddLines(lost) + ([BLANK] + t[..p])) + t[p..]
  {
    hide AddLines;
    assert t == t[..p] + t[p..];
  }

  lemma {:induction false} PrependedFold(pre: Text, lost: seq<Item>)
    requires lost != [] && forall n :: 0 <= n < |lost| ==> lost[n].words != []
    ensures Fold([], LTrim(RTrim(AddLines(lost) + ([BLANK] + pre)))) == Fold(Fresh(lost), RTrim(pre))
  {
    hide AddLines, Fresh, LTrim, RTrim, Fold;
    var add := AddLines(lost);
    AddedIsSettled(lost);
    FoldAdded([], lost);
    assert [] + Fresh(lost) == Fresh(lost);
    RTrimEmpty(pre);
    FoldNone(Fresh(lost));
    if AllBlank(pre) {
      RTrimAdded([], lost, [BLANK] + pre);
      assert [] + add == add;
    } else {
      var tail := [BLANK] + RTrim(pre);
      assert add + ([BLANK] + pre) == (add + [BLANK]) + pre;
      RTrimTail(add + [BLANK], pre);
      assert (add + [BLANK]) + RTrim(pre) == add + tail;
      assert add[0] == AddLine(lost[0]);
      assert !AllBlank(add);
      LTrimHead(add, tail);
      FoldAppend([], add, tail);
      FoldAppend(Fresh(lost), [BLANK], RTrim(pre));
      FoldOne(Fresh(lost), BLANK);
    }
  }

  lemma {:induction false} FoldNone(items: seq<Item>)
    ensures Fold(items, []) == items
  {
  }

  /** Without the heading, the restored lines come first and the last of them swallows the opening. */
  lemma {:induction false} PrependedItems(t: Text, lost: seq<Item>)
    requires !HasHeading(t) && lost != []
    requires forall n :: 0 <= n < |lost| ==> lost[n].words != []
    ensures
      var n := |lost| - 1;
      Items(Restored(t, lost)) == Real(Fresh(lost[..n])
        + [Item(false, lost[n].words + Opening(Preface(t)))]
        + Fold([], Preface(t)))
  {
    hide AddLines, SectionLines, Restored, Real, Fold, RTrim, LTrim;
    var n := |lost| - 1;
    PrependedSection(t, lost);
    PrependedFold(t[..EndFrom(t, 0)], lost);
    FoldOpening(Fresh(lost[..n]), Item(false, lost[n].words), Preface(t));
  }

  // ---------------------------------------------------------------------------
  // Membership
  // ---------------------------------------------------------------------------

  lemma {:induction false} HasReal(items: seq<Item>, w: seq<Word>)
    requires forall n :: 0 <= n < |items| ==> !items[n].lead
    ensures Has(Real(items), w) <==> Has(items, w) && w != [] && !SaysNone(w)
  {
    if items != [] {
      HasReal(items[..|items| - 1], w);
      HasLast(items, w);
      if IsReal(items[|items| - 1]) {
        HasLast(Real(items), w);
        assert Real(items)[..|Real(items)| - 1] == Real(items[..|items| - 1]);
      }
    }
  }

  lemma {:induction false} HasLast(items: seq<Item>, w: seq<Word>)
    requires items != []
    ensures Has(items, w) <==> Has(items[..|items| - 1], w) || items[|items| - 1].words == w
  {
    if Has(items, w) && items[|items| - 1].words != w {
      var n :| 0 <= n < |items| && items[n].words == w;
      assert items[..|items| - 1][n].words == w;
    }
  }

  lemma {:induction false} HasAppend(a: seq<Item>, b: seq<Item>, w: seq<Word>)
    ensures Has(a + b, w) <==> Has(a, w) || Has(b, w)
  {
    if Has(a, w) {
      var n :| 0 <= n < |a| && a[n].words == w;
      assert (a + b)[n].words == w;
    }
    if Has(b, w) {
      var n :| 0 <= n < |b| && b[n].words == w;
      assert (a + b)[|a| + n].words == w;
    }
  }

  lemma {:induction false} FreshSays(lost: seq<Item>, w: seq<Word>)
    ensures |Fresh(lost)| == |lost|
    ensures forall n :: 0 <= n < |lost| ==> Fresh(lost)[n] == Item(false, lost[n].words)
    ensures Has(Fresh(lost), w) <==> Has(lost, w)
  {
    if lost != [] {
      FreshSays(lost[..|lost| - 1], w);
    }
    forall n | 0 <= n < |lost|
      ensures |Fresh(lost)| == |lost| && Fresh(lost)[n] == Item(false, lost[n].words)
    {
    }
  }

  lemma {:induction false} LostSays(before: seq<Item>, have: seq<Item>, w: seq<Word>)
    ensures Has(Lost(before, have), w) <==> Has(before, w) && !Has(have, w)
  {
    if before != [] {
      var last := before[|before| - 1];
      LostSays(before[..|before| - 1], have, w);
      HasLast(before, w);
      var more := if Has(have, last.words) then [] else [last];
      HasAppend(Lost(before[..|before| - 1], have), more, w);
      if more != [] {
        HasLast(more, w);
      }
    }
  }

  lemma {:induction false} LostFrom(before: seq<Item>, have: seq<Item>)
    ensures forall x :: x in Lost(before, have) ==> x in before
  {
    hide Has;
    if before != [] {
      var n := |before| - 1;
      LostFrom(before[..n], have);
      forall x | x in Lost(before, have)
        ensures x in before
      {
        assert x in Lost(before[..n], have) || x == before[n];
      }
    }
  }

  lemma {:induction false} AllIsLost(before: seq<Item>)
    ensures Lost(before, []) == before
  {
    if before != [] {
      AllIsLost(before[..|before| - 1]);
    }
  }

  /** An item that begins with a blank has had text folded into it. */
  lemma {:induction false} FoldedLeads(lines: Text)
    ensures forall x :: x in Fold([], lines) && x.lead ==> x.words != []
  {
    if lines != [] {
      FoldedLeads(lines[..|lines| - 1]);
    }
  }

  lemma {:induction false} RealFrom(items: seq<Item>)
    ensures forall x :: x in Real(items) ==> x in items && IsReal(x)
  {
    if items != [] {
      RealFrom(items[..|items| - 1]);
    }
  }

  lemma {:induction false} ItemsHaveText(t: Text)
    ensures forall x :: x in Items(t) ==> x.words != []
  {
    var lines := LTrim(RTrim(SectionLines(t)));
    FoldedLeads(lines);
    RealFrom(Fold([], lines));
  }

  lemma {:induction false} LostHaveText(previous: Text, t: Text)
    ensures
      var lost := Lost(Items(previous), Items(t));
      forall n :: 0 <= n < |lost| ==> lost[n].words != []
  {
    hide Items, Lost;
    var lost := Lost(Items(previous), Items(t));
    ItemsHaveText(previous);
    LostFrom(Items(previous), Items(t));
    forall n | 0 <= n < |lost|
      ensures lost[n].words != []
    {
      assert lost[n] in lost;
    }
  }

  // ---------------------------------------------------------------------------
  // The section ended in a bare row of hashes
  // ---------------------------------------------------------------------------

  /** `rstrip` can only drop bullets that hold nothing. */
  lemma {:induction false} RTrimSaysTheSame(items: seq<Item>, t: Text)
    ensures Real(Fold(items, RTrim(t))) == Real(Fold(items, t))
  {
    if t != [] {
      var n := |t| - 1;
      var l := t[n];
      if IsBlank(l) {
        RTrimSaysTheSame(items, t[..n]);
      } else {
        var before, r := Fold(items, t[..n]), RTrim(t);
        assert r[..|r| - 1] == t[..n] && r[|r| - 1] == l.(trail := false);
        if IsBullet(l) && |l.words| == 1 {
          var more := before + [Item(false, [])];
          assert l.words[1..] == [];
          assert Fold(items, t) == more && more[..|more| - 1] == before;
        }
      }
    }
  }

  lemma {:induction false} TrimsCommute(t: Text)
    ensures LTrim(RTrim(t)) == RTrim(LTrim(t))
  {
    if t != [] {
      assert t == [t[0]] + t[1..];
      if AllBlank(t[1..]) {
        RTrimOne(t[0], t[1..]);
        RTrimOne(t[0].(indented := false), t[1..]);
        RTrimEmpty(t[1..]);
        RTrimEmpty(LTrim(t[1..]));
        LTrimBlanks(t[1..], []);
        assert t[1..] + [] == t[1..];
      } else {
        RTrimTail([t[0]], t[1..]);
        RTrimTail([t[0].(indented := false)], t[1..]);
        var r := [t[0]] + RTrim(t[1..]);
        assert r[0] == t[0] && r[1..] == RTrim(t[1..]);
        if IsBlank(t[0]) {
          TrimsCommute(t[1..]);
        }
      }
    }
  }

  lemma {:induction false} RTrimOne(l: Line, blanks: Text)
    requires AllBlank(blanks)
    ensures RTrim([l] + blanks) == if IsBlank(l) then [] else [l.(trail := false)]
  {
    var t := [l] + blanks;
    if blanks != [] {
      assert t[..|t| - 1] == [l] + blanks[..|blanks| - 1];
      RTrimOne(l, blanks[..|blanks| - 1]);
    }
  }

  lemma {:induction false} HashesSayNothing(lines: Text, h: Line)
    requires !IsBlank(h) && !IsBullet(h) && !h.indented && !h.trail
    ensures Says(lines + [h]) == Says(lines)
    ensures RTrim(lines + [h]) == lines + [h]
  {
    hide Fold, Real;
    RTrimStops(lines, h, []);
    assert lines + [h] + [] == lines + [h];
    if AllBlank(lines) {
      LTrimBlanks(lines, [h]);
      RTrimEmpty(lines);
      assert LTrim([h]) == [h];
      FoldOne([], h);
      FoldNone([]);
    } else {
      LTrimHead(lines, [h]);
      FoldAppend([], LTrim(lines), [h]);
      FoldOne(Fold([], LTrim(lines)), h);
      TrimsCommute(lines);
      RTrimSaysTheSame([], LTrim(lines));
    }
  }

  /** Behind a bare row of hashes the restored lines fall outside the section. */
  lemma {:induction false} BareTailItems(t: Text, lost: seq<Item>)
    requires BareTail(t) && lost != []
    ensures Items(Restored(t, lost)) == Items(t)
  {
    hide Says, RTrim, AddLines, Restored, SectionLines;
    var i := DecidedFrom(t, 0);
    var lines, h := t[i + 1..|t| - 1], t[|t| - 1];
    assert t[i + 1..|t|] == lines + [h];
    assert !IsBullet(h);
    SectionOf(t, i, |t|);
    HashesSayNothing(lines, h);
    var rest := [h] + (AddLines(lost) + [BLANK, BLANK]);
    RestoredBare(t, lost, i, lines, h);
    forall m | 0 <= m < |lines|
      ensures lines[m].Ends() == Never
    {
      assert lines[m] == t[i + 1 + m] && !IsEnd(t, i + 1 + m);
    }
    SectionIs(t[..i + 1], lines, rest);
  }

  lemma {:induction false} RestoredBare(t: Text, lost: seq<Item>, i: nat, lines: Text, h: Line)
    requires SectionAt(t, i, |t|) && t[i + 1..|t|] == lines + [h]
    requires !h.indented && !h.trail && |h.words| == 1 && IsRow(h.words[0])
    ensures Restored(t, lost) == t[..i + 1] + lines + ([h] + (AddLines(lost) + [BLANK, BLANK]))
  {
    hide Body, AddLines;
    RestoredSplits(t, lost);
    BareBody(lines, h);
    assert t[|t|..] == [];
  }

  lemma {:induction false} BareBody(lines: Text, h: Line)
    requires !h.indented && !h.trail && |h.words| == 1 && IsRow(h.words[0])
    ensures Body(lines + [h]) == lines + [h]
  {
    RowIsNotNone(h.words[0]);
    assert h.words == [h.words[0]];
    HashesSayNothing(lines, h);
    if AllBlank(lines) {
      LTrimBlanks(lines, [h]);
    } else {
      LTrimHead(lines, [h]);
      LTrimSome(lines);
    }
  }

  lemma {:induction false} LTrimSome(t: Text)
    requires !AllBlank(t)
    ensures LTrim(t) != []
  {
    if IsBlank(t[0]) {
      var n :| 0 <= n < |t| && !IsBlank(t[n]);
      assert t[1..][n - 1] == t[n];
      LTrimSome(t[1..]);
    }
  }

  // ---------------------------------------------------------------------------
  // What is listed afterwards
  // ---------------------------------------------------------------------------

  /** With the heading there: exactly what was listed in either text, but for "없음" and unless the
      section ends in a bare row of hashes. */
  lemma {:induction false} HeadingKeepsIff(previous: Text, t: Text, w: seq<Word>)
    requires HasHeading(t)
    ensures Listed(KeepDecided(previous, t), w) <==>
            Listed(t, w) || (Listed(previous, w) && !SaysNone(w) && !BareTail(t))
  {
    hide Items, Restored, Real, Fresh, Lost, BareTail;
    var lost := Lost(Items(previous), Items(t));
    LostSays(Items(previous), Items(t), w);
    if lost != [] {
      LostHaveText(previous, t);
      if BareTail(t) {
        BareTailItems(t, lost);
      } else {
        RestoredItems(t, lost);
        HasAppend(Items(t), Real(Fresh(lost)), w);
        FreshSays(lost, w);
        HasReal(Fresh(lost), w);
      }
    }
  }

  lemma {:induction false} NoHeadingNoItems(t: Text)
    requires !HasHeading(t)
    ensures Items(t) == []
  {
    FoldNone([]);
  }

  /** Without the heading: everything, but that the opening is glued to the last restored line. */
  lemma {:induction false} NoHeadingLists(previous: Text, t: Text, w: seq<Word>)
    requires !HasHeading(t) && Items(previous) != []
    ensures
      var before := Items(previous);
      var n := |before| - 1;
      Listed(KeepDecided(previous, t), w) <==>
      || (!SaysNone(w) && Has(before[..n], w))
      || (!SaysNone(w) && w == before[n].words + Opening(Preface(t)))
      || Has(Real(Fold([], Preface(t))), w)
  {
    hide Items, Restored, Real, Fresh, Lost, Fold, Preface, Opening;
    var before := Items(previous);
    var n := |before| - 1;
    NoHeadingNoItems(t);
    AllIsLost(before);
    LostHaveText(previous, t);
    PrependedItems(t, before);
    var last := Item(false, before[n].words + Opening(Preface(t)));
    var front := Fresh(before[..n]) + [last];
    FreshSays(before[..n], w);
    RealAppend(front, Fold([], Preface(t)));
    HasAppend(Real(front), Real(Fold([], Preface(t))), w);
    HasReal(front, w);
    HasLast(front, w);
    assert front[..|front| - 1] == Fresh(before[..n]);
    ItemsHaveText(previous);
    EveryHas(before[..n], w);
  }

  lemma {:induction false} EveryHas(items: seq<Item>, w: seq<Word>)
    requires forall x :: x in items ==> x.words != []
    ensures Has(items, w) ==> w != []
  {
    if Has(items, w) {
      var n :| 0 <= n < |items| && items[n].words == w;
      assert items[n] in items;
    }
  }

  /** Without the heading, nothing but "없음" is lost if and only if no opening is glued to the last
      line, or that line stands elsewhere as well. */
  lemma {:induction false} NoHeadingKeepsIff(previous: Text, t: Text)
    requires !HasHeading(t) && Items(previous) != []
    ensures
      var last := Items(previous)[|Items(previous)| - 1].words;
      (forall w :: Listed(previous, w) && !SaysNone(w) ==> Listed(KeepDecided(previous, t), w)) <==>
      || Opening(Preface(t)) == []
      || SaysNone(last)
      || Has(Items(previous)[..|Items(previous)| - 1], last)
      || Has(Real(Fold([], Preface(t))), last)
  {
    hide Items, Real, Fold, Preface, Opening, KeepDecided;
    var before := Items(previous);
    var n := |before| - 1;
    var last, opening := before[n].words, Opening(Preface(t));
    HasLast(before, last);
    NoHeadingLists(previous, t, last);
    assert opening == [] <==> last == last + opening by {
      assert |last + opening| == |last| + |opening|;
      assert opening == [] ==> last + opening == last;
    }
    assert Listed(previous, last);
    if Listed(KeepDecided(previous, t), last) || SaysNone(last) {
      forall w | Listed(previous, w) && !SaysNone(w)
        ensures Listed(KeepDecided(previous, t), w)
      {
        HasLast(before, w);
        NoHeadingLists(previous, t, w);
      }
    }
  }

  // ---------------------------------------------------------------------------
  // Idempotence
  // ---------------------------------------------------------------------------

  lemma {:induction false} LostNothingIff(before: seq<Item>, have: seq<Item>)
    ensures Lost(before, have) == [] <==> forall w :: Has(before, w) ==> Has(have, w)
  {
    var lost := Lost(before, have);
    if lost != [] {
      assert Has(lost, lost[0].words);
      LostSays(before, have, lost[0].words);
    }
    forall w | lost == [] && Has(before, w)
      ensures Has(have, w)
    {
      LostSays(before, have, w);
    }
  }

  lemma {:induction false} RestoredDiffers(t: Text, lost: seq<Item>)
    requires lost != []
    ensures Restored(t, lost) != t
  {
    var i := DecidedFrom(t, 0);
    if !HasHeading(t) {
      assert |Restored(t, lost)| > |t|;
    } else {
      hide Body, Restored, AddLines, SectionLines;
      var j := EndFrom(t, i + 1);
      SectionOf(t, i, j);
      if BareTail(t) {
        RestoredSplits(t, lost);
        assert t[j..] == [];
        assert Restored(t, lost)[|Restored(t, lost)| - 1] == BLANK;
      } else {
        var blanks := RestoredSection(t, lost, i, j);
        BodyGrows(t[i + 1..j], lost, blanks);
      }
    }
  }

  lemma {:induction false} BodyGrows(lines: Text, lost: seq<Item>, blanks: Text)
    requires lost != [] && AllBlank(blanks)
    ensures Body(lines) + AddLines(lost) + blanks != lines
  {
    hide AddLines, RTrim, LTrim, SaysNone;
    var add := AddLines(lost);
    AddedIsSettled(lost);
    RTrimAdded(Body(lines), lost, blanks);
    assert [] + add == add;
    assert add[0] == AddLine(lost[0]);
    BulletIsNotNone(lost[0].words);
    assert |Body(lines) + add| > |Body(lines)|;
  }

  lemma {:induction false} BulletIsNotNone(words: seq<Word>)
    ensures !SaysNone(["-"] + words)
  {
    assert (["-"] + words)[0] == "-";
    assert |"-"| == 1 && |"없음"| == 2 && |"없음."| == 3;
  }

  /** A rewrite changes a text if and only if the text drops something. */
  lemma {:induction false} UnchangedIff(previous: Text, t: Text)
    ensures KeepDecided(previous, t) == t <==> forall w :: Listed(previous, w) ==> Listed(t, w)
  {
    hide Items, Restored, Lost;
    var lost := Lost(Items(previous), Items(t));
    LostNothingIff(Items(previous), Items(t));
    if lost != [] {
      RestoredDiffers(t, lost);
      var w :| Has(Items(previous), w) && !Has(Items(t), w);
      assert Listed(previous, w) && !Listed(t, w);
    }
  }

  /** Rewriting twice is rewriting once, exactly when no dropped line says "없음" or falls behind a
      bare row of hashes. */
  lemma {:induction false} IdempotentIff(previous: Text, t: Text)
    requires HasHeading(t)
    ensures
      var once := KeepDecided(previous, t);
      KeepDecided(previous, once) == once <==>
      forall w :: Listed(previous, w) && !Listed(t, w) ==> !SaysNone(w) && !BareTail(t)
  {
    hide KeepDecided, Items, BareTail;
    var once := KeepDecided(previous, t);
    UnchangedIff(previous, once);
    forall w
      ensures Listed(once, w) <==> Listed(t, w) || (Listed(previous, w) && !SaysNone(w) && !BareTail(t))
    {
      HeadingKeepsIff(previous, t, w);
    }
  }

  /** Without the heading, rewriting twice is rewriting once exactly when nothing is lost to the opening and
      every "없음" that was listed is listed by the text's own bullets. */
  lemma {:induction false} NoHeadingIdempotentIff(previous: Text, t: Text)
    requires !HasHeading(t) && Items(previous) != []
    ensures
      var once, own := KeepDecided(previous, t), Real(Fold([], Preface(t)));
      var last := Items(previous)[|Items(previous)| - 1].words;
      KeepDecided(previous, once) == once <==>
      && (forall w :: Listed(previous, w) && SaysNone(w) ==> Has(own, w))
      && (|| Opening(Preface(t)) == []
          || SaysNone(last)
          || Has(Items(previous)[..|Items(previous)| - 1], last)
          || Has(own, last))
  {
    hide Items, KeepDecided, Preface, Opening, Real, Fold, SaysNone;
    var once, own := KeepDecided(previous, t), Real(Fold([], Preface(t)));
    UnchangedIff(previous, once);
    NoHeadingKeepsIff(previous, t);
    forall w | SaysNone(w)
      ensures Listed(once, w) <==> Has(own, w)
    {
      NoHeadingLists(previous, t, w);
    }
    assert (forall w :: Listed(previous, w) ==> Listed(once, w)) <==>
           (forall w :: Listed(previous, w) && SaysNone(w) ==> Listed(once, w))
           && (forall w :: Listed(previous, w) && !SaysNone(w) ==> Listed(once, w));
  }

  // ---------------------------------------------------------------------------
  // Runs
  // ---------------------------------------------------------------------------

  /** `strip`: blank lines and blanks go at both ends; the first and the last line may read differently then. */
  function Strip(t: Text): Text { LTrim(RTrim(t)) }

  /** What a save stores: the stripped text rewritten, nothing new for an empty one. */
  function SetSynthesis(stored: Text, text: Text): Text {
    if Strip(text) == [] then stored else KeepDecided(stored, Strip(text))
  }

  lemma {:induction false} StripEmptyIff(t: Text)
    ensures Strip(t) == [] <==> AllBlank(t)
  {
    RTrimEmpty(t);
    RTrimEmpty(RTrim(t));
    RTrimTwice(t);
    if RTrim(t) != [] {
      LTrimSome(RTrim(t));
    }
  }

  function After(stored: Text, texts: seq<Text>): Text {
    if texts == [] then stored
    else SetSynthesis(After(stored, texts[..|texts| - 1]), texts[|texts| - 1])
  }

  /** A text with the heading, or without it and with nothing indented before its first bullet. */
  predicate Fit(t: Text) {
    if HasHeading(t) then !BareTail(t) else Opening(Preface(t)) == []
  }

  lemma {:induction false} OpensWithHeadingIsFit(t: Text)
    requires !HasHeading(t) && |t| > 0 && IsEnd(t, 0)
    ensures Fit(t)
  {
    assert t[..0] == [];
  }

  /** Rewriting a fit text twice is rewriting it once, as long as nothing decided says "없음". */
  lemma {:induction false} FitIsIdempotent(previous: Text, t: Text)
    requires Fit(t) && forall w :: Listed(previous, w) ==> !SaysNone(w)
    ensures KeepDecided(previous, KeepDecided(previous, t)) == KeepDecided(previous, t)
  {
    hide Items, KeepDecided, Preface, Opening, BareTail;
    var once := KeepDecided(previous, t);
    forall w | Listed(previous, w)
      ensures Listed(once, w)
    {
      if HasHeading(t) {
        HeadingKeepsIff(previous, t, w);
      } else {
        NoHeadingKeepsIff(previous, t);
      }
    }
    UnchangedIff(previous, once);
  }

  /** What a save can lose, told from the stored text and the stripped new one. */
  ghost predicate Keeps(stored: Text, t: Text) {
    || t == []
    || Items(stored) == []
    || if HasHeading(t) then
         !BareTail(t) || forall w :: Listed(stored, w) && !SaysNone(w) ==> Listed(t, w)
       else
         var last := Items(stored)[|Items(stored)| - 1].words;
         || Opening(Preface(t)) == []
         || SaysNone(last)
         || Has(Items(stored)[..|Items(stored)| - 1], last)
         || Has(Real(Fold([], Preface(t))), last)
  }

  /** A save loses nothing but "없음" if and only if the stripped text says so. */
  lemma {:induction false} SaveKeepsIff(stored: Text, text: Text)
    ensures
      (forall w :: Listed(stored, w) && !SaysNone(w) ==> Listed(SetSynthesis(stored, text), w)) <==>
      Keeps(stored, Strip(text))
  {
    hide Items, KeepDecided, Preface, Opening, BareTail, Strip, Real, Fold, SaysNone;
    var t := Strip(text);
    if t != [] && Items(stored) != [] {
      if HasHeading(t) {
        forall w
          ensures Listed(KeepDecided(stored, t), w) <==>
                  Listed(t, w) || (Listed(stored, w) && !SaysNone(w) && !BareTail(t))
        {
          HeadingKeepsIff(stored, t, w);
        }
      } else {
        NoHeadingKeepsIff(stored, t);
      }
    }
  }

  lemma {:induction false} FitKeeps(stored: Text, t: Text)
    requires Fit(t)
    ensures Keeps(stored, t)
  {
  }

  lemma {:induction false} SaveKeeps(stored: Text, text: Text, w: seq<Word>)
    requires Fit(Strip(text)) && Listed(stored, w) && !SaysNone(w)
    ensures Listed(SetSynthesis(stored, text), w)
  {
    hide Listed, Fit, SetSynthesis, Keeps;
    FitKeeps(stored, Strip(text));
    SaveKeepsIff(stored, text);
  }

  /** What is decided stays decided: any line but "없음", through any number of saves. */
  lemma {:induction false} DecidedStays(stored: Text, first: seq<Text>, more: seq<Text>, w: seq<Word>)
    requires forall n :: 0 <= n < |more| ==> Fit(Strip(more[n]))
    requires Listed(After(stored, first), w) && !SaysNone(w)
    ensures Listed(After(stored, first + more), w)
  {
    hide Listed, Fit, SetSynthesis, Strip;
    if more == [] {
      assert first + more == first;
    } else {
      var n := |more| - 1;
      assert (first + more)[..|first| + n] == first + more[..n];
      DecidedStays(stored, first, more[..n], w);
      SaveKeeps(After(stored, first + more[..n]), more[n], w);
    }
  }

  /** Over texts with the heading, the section lists exactly what any of them ever listed. */
  lemma {:induction false} DecidedIsTheUnion(stored: Text, texts: seq<Text>, w: seq<Word>)
    requires forall n :: 0 <= n < |texts| ==> Fit(Strip(texts[n])) && HasHeading(Strip(texts[n]))
    requires !SaysNone(w)
    ensures Listed(After(stored, texts), w) <==>
            Listed(stored, w) || exists n :: 0 <= n < |texts| && Listed(Strip(texts[n]), w)
  {
    hide Listed, Fit, HasHeading, SetSynthesis, Strip;
    if texts != [] {
      var n := |texts| - 1;
      DecidedIsTheUnion(stored, texts[..n], w);
      SaveLists(After(stored, texts[..n]), texts[n], w);
      assert forall m :: 0 <= m < n ==> texts[..n][m] == texts[m];
    }
  }

  lemma {:induction false} SaveLists(stored: Text, text: Text, w: seq<Word>)
    requires Fit(Strip(text)) && HasHeading(Strip(text)) && !SaysNone(w)
    ensures Listed(SetSynthesis(stored, text), w) <==> Listed(stored, w) || Listed(Strip(text), w)
  {
    hide Items, BareTail, KeepDecided, Preface, Opening, Strip;
    HeadingKeepsIff(stored, Strip(text), w);
  }

  // ---------------------------------------------------------------------------
  // Three texts that lose a decided line
  // ---------------------------------------------------------------------------

  const VALUE := Line(false, ["-", "값"], false)
  const ROW := Line(false, ["##"], false)
  const INTRO := Line(false, ["서론"], false)
  const INDENTED := Line(true, ["이어서"], false)
  const EMPTY_BULLET := Line(false, ["-"], true)
  const INDENTED_NONE := Line(true, ["없음"], false)

  lemma {:induction false} RealOne(i: Item)
    ensures Real([i]) == if IsReal(i) then [i] else []
  {
    assert [i][..0] == [];
  }

  lemma {:induction false} ItemsBelow(lines: Text)
    requires lines != [] && Calm(lines)
    ensures HasHeading([HEADING] + lines) && Items([HEADING] + lines) == Says(lines)
    ensures !BareTail([HEADING] + lines)
  {
    hide Says, SectionLines;
    SectionIs([HEADING], lines, []);
    assert [HEADING] + lines + [] == [HEADING] + lines;
  }

  lemma {:induction false} ValueItem()
    ensures Items([HEADING] + [VALUE]) == [Item(false, ["값"])]
    ensures Listed([HEADING] + [VALUE], ["값"]) && !SaysNone(["값"])
  {
    DashIsNoRow();
    hide Says, Items;
    ItemsBelow([VALUE]);
    ValueSays();
    assert Items([HEADING] + [VALUE])[0].words == ["값"];
  }

  lemma {:induction false} ValueSays()
    ensures Says([VALUE]) == [Item(false, ["값"])] && !SaysNone(["값"])
  {
    hide Fold, Real, RTrim;
    RTrimOne(VALUE, []);
    assert [VALUE] + [] == [VALUE] && LTrim([VALUE]) == [VALUE];
    FoldOne([], VALUE);
    var only := Item(false, ["값"]);
    assert VALUE.words[1..] == only.words;
    assert Fold([], [VALUE]) == [only];
    assert |"값"| == 1 && |"없음"| == 2 && |"없음."| == 3;
    RealOne(only);
  }

  /** A text without the heading whose opening has an indented line: it is glued to the last restored line. */
  lemma {:induction false} OpeningSwallowsALine() returns (previous: Text, t: Text, w: seq<Word>)
    ensures !HasHeading(t) && !SaysNone(w)
    ensures Listed(previous, w) && !Listed(KeepDecided(previous, t), w)
  {
    hide KeepDecided, Items, Real, Fold, Preface, Opening, SaysNone;
    previous, t, w := [HEADING] + [VALUE], [INTRO, INDENTED], ["값"];
    ValueItem();
    IndentedOpening();
    NoHeadingLists(previous, t, w);
  }

  lemma {:induction false} IndentedOpening()
    ensures Opening(Preface([INTRO, INDENTED])) == ["이어서"]
    ensures Real(Fold([], Preface([INTRO, INDENTED]))) == []
  {
    assert "서론"[0] != '#';
    hide Fold, RTrim;
    var t := [INTRO, INDENTED];
    EndIs(t, 0, 2);
    assert t[..2] == t;
    RTrimStops([INTRO], INDENTED, []);
    assert [INTRO] + [INDENTED] + [] == t && [INTRO] + [INDENTED] == t;
    assert t[1..] == [INDENTED] && [INDENTED][1..] == [];
    assert Opening([INDENTED]) == ["이어서"] + Opening([]);
    assert ["이어서"] + [] == ["이어서"] && [] + ["이어서"] == ["이어서"];
    assert Opening(t) == [] + Opening([INDENTED]);
    FoldAppend([], [INTRO], [INDENTED]);
    FoldOne([], INTRO);
    FoldOne([], INDENTED);
  }

  /** A section that ends in a bare row of hashes: the restored line falls behind it. */
  lemma {:induction false} HashesSwallowALine() returns (previous: Text, t: Text, w: seq<Word>)
    ensures HasHeading(t) && !SaysNone(w)
    ensures Listed(previous, w) && !Listed(KeepDecided(previous, t), w)
  {
    hide KeepDecided, Items, SaysNone;
    previous, t, w := [HEADING] + [VALUE], [HEADING, ROW], ["값"];
    ValueItem();
    RowSaysNothing();
    HeadingKeepsIff(previous, t, w);
  }

  /** A newline behind that row does not help: the save strips it first. */
  lemma {:induction false} StrippedHashesSwallowALine() returns (stored: Text, text: Text, w: seq<Word>)
    ensures text == [HEADING, ROW, BLANK] && !BareTail(text) && !SaysNone(w)
    ensures Listed(stored, w) && !Listed(SetSynthesis(stored, text), w)
  {
    hide KeepDecided, Items, SaysNone, LTrim, RTrim;
    stored, text, w := [HEADING] + [VALUE], [HEADING, ROW, BLANK], ["값"];
    RTrimStops([HEADING], ROW, [BLANK]);
    assert [HEADING] + [ROW] + [BLANK] == text && [HEADING] + [ROW] == [HEADING, ROW];
    HeadingStays();
    ValueItem();
    RowSaysNothing();
    HeadingKeepsIff(stored, [HEADING, ROW], w);
  }

  lemma {:induction false} HeadingStays()
    ensures LTrim([HEADING, ROW]) == [HEADING, ROW]
  {
    assert [HEADING] + [HEADING, ROW][1..] == [HEADING, ROW];
  }

  lemma {:induction false} RowSaysNothing()
    ensures BareTail([HEADING, ROW]) && Items([HEADING, ROW]) == []
  {
    hide Fold, RTrim, LTrim;
    var t := [HEADING, ROW];
    DecidedIs(t, 0);
    EndIs(t, 1, 2);
    assert t[1..2] == [] + [ROW];
    HashesSayNothing([], ROW);
    RTrimEmpty([]);
    NothingInNothing();
  }

  /** "없음" written below an empty bullet is listed, and is never listed again. */
  lemma {:induction false} NoneIsNeverKept() returns (previous: Text, t: Text, w: seq<Word>)
    ensures HasHeading(t) && !BareTail(t)
    ensures Listed(previous, w) && !Listed(KeepDecided(previous, t), w)
  {
    DashIsNoRow();
    hide KeepDecided, Items, BareTail;
    previous, t, w := [HEADING] + [EMPTY_BULLET, INDENTED_NONE], [HEADING] + [BLANK], ["없음"];
    ItemsBelow([EMPTY_BULLET, INDENTED_NONE]);
    NoneItem();
    assert Items(previous)[0].words == w;
    ItemsBelow([BLANK]);
    BlankSaysNothing();
    HeadingKeepsIff(previous, t, w);
  }

  lemma {:induction false} BlankSaysNothing()
    ensures Says([BLANK]) == []
  {
    hide Fold, LTrim, RTrim;
    RTrimEmpty([BLANK]);
    NothingInNothing();
  }

  lemma {:induction false} NoneItem()
    ensures Says([EMPTY_BULLET, INDENTED_NONE]) == [Item(true, ["없음"])]
  {
    hide Fold, RTrim, Real, LTrim, IsReal;
    NoneTrimmed();
    NoneTaken();
    FoldAppend([], [EMPTY_BULLET], [INDENTED_NONE]);
    assert [EMPTY_BULLET] + [INDENTED_NONE] == [EMPTY_BULLET, INDENTED_NONE];
    FoldOne([], EMPTY_BULLET);
    FoldOne([Item(false, [])], INDENTED_NONE);
    RealOne(Item(true, ["없음"]));
  }

  lemma {:induction false} NoneTrimmed()
    ensures LTrim(RTrim([EMPTY_BULLET, INDENTED_NONE])) == [EMPTY_BULLET, INDENTED_NONE]
  {
    hide RTrim;
    var lines := [EMPTY_BULLET, INDENTED_NONE];
    RTrimStops([EMPTY_BULLET], INDENTED_NONE, []);
    assert [EMPTY_BULLET] + [INDENTED_NONE] + [] == lines && [EMPTY_BULLET] + [INDENTED_NONE] == lines;
    assert [EMPTY_BULLET] + lines[1..] == lines;
  }

  lemma {:induction false} NoneTaken()
    ensures Take([], EMPTY_BULLET) == [Item(false, [])]
    ensures Take([Item(false, [])], INDENTED_NONE) == [Item(true, ["없음"])]
    ensures IsReal(Item(true, ["없음"]))
  {
    assert EMPTY_BULLET.words[1..] == [];
    assert [] + ["없음"] == ["없음"];
  }

  // ---------------------------------------------------------------------------
  // How lines, bullets and texts read
  // ---------------------------------------------------------------------------

  lemma {:induction false} RowMeans(w: Word)
    ensures IsRow(w) <==> w in {"#", "##", "###", "####", "#####", "######"}
  {
    if IsRow(w) {
      match |w| {
        case 1 => assert w == "#";
        case 2 => assert w == "##";
        case 3 => assert w == "###";
        case 4 => assert w == "####";
        case 5 => assert w == "#####";
        case _ => assert w == "######";
      }
    }
  }

  /** A line ends a section exactly if it begins with a row of hashes that a blank or a newline follows. */
  lemma {:induction false} EndsMeans(l: Line)
    ensures l.Ends() != Never <==> !l.indented && l.words != [] && IsRow(l.words[0])
    ensures l.Ends() == IfFollowed <==> !l.indented && |l.words| == 1 && IsRow(l.words[0]) && !l.trail
  {
  }

  /** The decided heading in its two spellings, with anything behind it; not indented and not with seven hashes. */
  lemma {:induction false} DecidedMeans(row: Word, rest: Word, more: seq<Word>, trail: bool)
    requires IsRow(row)
    ensures Line(false, [row, "정해진", "것" + rest] + more, trail).Decided()
    ensures Line(false, [row + "정해진", "것" + rest] + more, trail).Decided()
    ensures !Line(true, [row, "정해진", "것" + rest] + more, trail).Decided()
    ensures !Line(false, [row, "주장"] + more, trail).Decided()
  {
    var glued := row + "정해진";
    assert glued[..|row|] == row && glued[|row|..] == "정해진";
    assert IsGluedRow(glued);
    var a, b, c := [row, "정해진", "것" + rest] + more, [glued, "것" + rest] + more, [row, "주장"] + more;
    assert a[0] == row && a[1] == "정해진" && a[2] == "것" + rest && b[0] == glued && b[1] == "것" + rest;
    assert c[0] == row && c[1] == "주장" && |"주장"| == 2 && |"정해진"| == 3;
    RowIsNotGlued(row);
  }

  lemma {:induction false} RowIsNotGlued(row: Word)
    requires IsRow(row)
    ensures !IsGluedRow(row)
  {
    forall k | 1 <= k <= |row|
      ensures row[k..] != "정해진"
    {
      if k < |row| {
        assert row[k..][0] == '#' && "정해진"[0] != '#';
      } else {
        assert |row[k..]| == 0 && |"정해진"| == 3;
      }
    }
  }

  /** A bullet is an unindented dash or star with a blank behind it. */
  lemma {:induction false} BulletMeans(l: Line)
    ensures IsBullet(l) <==>
            !l.indented && l.words != [] && (l.words[0] == "-" || l.words[0] == "*") && (|l.words| > 1 || l.trail)
    ensures IsContinuation(l) <==> l.indented && l.words != []
  {
  }

  /** A bullet reads as its text and that of the indented lines up to the next bullet. */
  lemma {:induction false} BulletReads(b: Line, g: Text, rest: Text)
    requires IsBullet(b) && |b.words| > 1
    requires forall n :: 0 <= n < |g| ==> !IsBullet(g[n])
    requires rest == [] || IsBullet(rest[0])
    ensures Fold([], [b] + g + rest) == [Item(false, b.words[1..] + Opening(g))] + Fold([], rest)
  {
    hide Fold, Take;
    var open := Item(false, b.words[1..]);
    FoldAppend([], [b] + g, rest);
    FoldAppend([], [b], g);
    FoldOne([], b);
    TakeOpen([], open, b);
    FoldOpening([], open, g);
    NoBulletNoItem(g);
    var item := Item(false, b.words[1..] + Opening(g));
    assert [] + [open] == [open] && [] + [item] + [] == [item] && [] + [item] == [item];
    FoldOpening([], item, rest);
    assert item.words + Opening(rest) == item.words;
  }

  lemma {:induction false} NoBulletNoItem(g: Text)
    requires forall n :: 0 <= n < |g| ==> !IsBullet(g[n])
    ensures Fold([], g) == []
  {
    if g != [] {
      NoBulletNoItem(g[..|g| - 1]);
    }
  }

  /** What the indented lines of a group say, one after the other. */
  lemma {:induction false} OpeningMeans(l: Line, g: Text)
    ensures Opening([]) == []
    ensures Opening([l] + g) == if IsBullet(l) then [] else (if l.indented then l.words else []) + Opening(g)
  {
    assert ([l] + g)[0] == l && ([l] + g)[1..] == g;
  }

  /** The filter keeps the order and drops only what is empty or says "없음". */
  lemma {:induction false} RealMeans(items: seq<Item>, i: Item)
    ensures Real(items + [i]) == Real(items)
                                 + if i.lead || (i.words != [] && i.words != ["없음"] && i.words != ["없음."]) then [i] else []
    ensures Real([]) == []
  {
    assert (items + [i])[..|items|] == items;
  }

  /** `rstrip` cuts after the last line that is not blank. */
  lemma {:induction false} RTrimMeans(t: Text, k: nat)
    requires 0 < k <= |t| && !IsBlank(t[k - 1]) && AllBlank(t[k..])
    ensures RTrim(t) == t[..k - 1] + [t[k - 1].(trail := false)]
  {
    if k < |t| {
      assert t[k..][|t| - 1 - k] == t[|t| - 1];
      var u := t[..|t| - 1][k..];
      forall n | 0 <= n < |u|
        ensures IsBlank(u[n])
      {
        assert u[n] == t[k..][n];
      }
      RTrimMeans(t[..|t| - 1], k);
      assert t[..|t| - 1][..k - 1] == t[..k - 1];
    }
  }

  /** `lstrip` cuts before the first line that is not blank. */
  lemma {:induction false} LTrimMeans(t: Text, k: nat)
    requires k < |t| && !IsBlank(t[k]) && AllBlank(t[..k])
    ensures LTrim(t) == [t[k].(indented := false)] + t[k + 1..]
  {
    if k > 0 {
      assert t[..k][0] == t[0];
      var u := t[1..][..k - 1];
      forall n | 0 <= n < |u|
        ensures IsBlank(u[n])
      {
        assert u[n] == t[..k][n + 1];
      }
      LTrimMeans(t[1..], k - 1);
      assert t[1..][k..] == t[k + 1..];
    }
  }

  /** The kept body of a section: its lines as they are up to the last that is not blank, unless it is blank or a lone
      "없음". */
  lemma {:induction false} BodyMeans(lines: Text, k: nat)
    ensures AllBlank(lines) ==> Body(lines) == [BLANK]
    ensures 0 < k <= |lines| && !IsBlank(lines[k - 1]) && AllBlank(lines[k..]) && !AllBlank(lines[..k - 1]) ==>
              Body(lines) == lines[..k - 1] + [lines[k - 1].(trail := false)]
    ensures 0 < k <= |lines| && !IsBlank(lines[k - 1]) && AllBlank(lines[k..]) && AllBlank(lines[..k - 1]) ==>
              Body(lines) == if lines[k - 1].words == ["없음"] || lines[k - 1].words == ["없음."] then []
                             else lines[..k - 1] + [lines[k - 1].(trail := false)]
  {
    hide RTrim, LTrim;
    RTrimEmpty(lines);
    if 0 < k <= |lines| && !IsBlank(lines[k - 1]) && AllBlank(lines[k..]) {
      RTrimMeans(lines, k);
      var last := lines[k - 1].(trail := false);
      if AllBlank(lines[..k - 1]) {
        LTrimBlanks(lines[..k - 1], [last]);
        LTrimMeans([last], 0);
        assert [last][1..] == [];
      } else {
        LTrimHead(lines[..k - 1], [last]);
        LTrimSome(lines[..k - 1]);
      }
    }
  }

  /** The lost lines come in their order, each as a dash and its text. */
  lemma {:induction false} LostInOrder(a: seq<Item>, b: seq<Item>, have: seq<Item>)
    ensures Lost(a + b, have) == Lost(a, have) + Lost(b, have)
  {
    if b == [] {
      assert a + b == a;
    } else {
      var n := |b| - 1;
      assert (a + b)[..|a| + n] == a + b[..n] && (a + b)[|a| + n] == b[n];
      LostInOrder(a, b[..n], have);
    }
  }

  /** A rewrite adds the lost lines at the end of the section, or in a new one on top, and changes nothing outside it. */
  lemma {:induction false} OnlyTheSectionChanges(previous: Text, t: Text)
    requires Lost(Items(previous), Items(t)) != []
    ensures
      var lost, r := Lost(Items(previous), Items(t)), KeepDecided(previous, t);
      var add := seq(|lost|, n requires 0 <= n < |lost| => Line(false, ["-"] + lost[n].words, false));
      if !HasHeading(t) then r == [Line(false, ["##", "정해진", "것"], false)] + add + [BLANK] + t
      else
        var i := DecidedFrom(t, 0);
        var j := EndFrom(t, i + 1);
        r == t[..i + 1] + (Body(t[i + 1..j]) + add + (if j < |t| then [BLANK] else [BLANK, BLANK])) + t[j..]
  {
    hide Items, Lost, Body, AddLines;
    var lost := Lost(Items(previous), Items(t));
    AddLinesAre(lost);
    if HasHeading(t) {
      hide Restored;
      RestoredSplits(t, lost);
    }
  }

  lemma {:induction false} AddLinesAre(lost: seq<Item>)
    requires lost != []
    ensures AddLines(lost) == seq(|lost|, n requires 0 <= n < |lost| => Line(false, ["-"] + lost[n].words, false))
  {
    hide AddLines;
    AddedIsSettled(lost);
  }
}
