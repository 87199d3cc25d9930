/**
 Joining adjacent text nodes the way they are rendered, with a map back to their source
 (joinRenderedText, apps/extension/capture/screenshot.js:294-325, and the ranges built from it, 454-477).
 */
module JoinText {
  import opened Basics

  const FORM_FEED: char := '\U{000C}'

  datatype WhiteSpace = Normal | Nowrap | PreLine | Other

  datatype Entry = Entry(value: string, whiteSpace: WhiteSpace)

  // A source position: a character of an entry.
  datatype Position = Position(entry: nat, index: nat)

  // Where a joined character comes from; a collapsed run also names the other entries it touches.
  datatype Point = Point(entry: nat, start: nat, end: nat, entries: set<nat>)

  datatype Joined = Joined(text: string, mapping: seq<Point>, pending: Option<Point>)

  predicate Blank(c: char) { c == ' ' || c == '\t' || c == '\n' || c == FORM_FEED || c == '\r' }

  // The characters that collapse under a white-space value.
  predicate Collapses(w: WhiteSpace, c: char) {
    ((w == Normal || w == Nowrap || w == PreLine) && (c == ' ' || c == '\t' || c == FORM_FEED || c == '\r'))
    || ((w == Normal || w == Nowrap) && c == '\n')
  }

  // Of the five blanks all collapse when white space is normal or does not wrap, all but the newline when lines are
  // kept, and none otherwise; nothing else ever does.
  lemma CollapsesAre(c: char)
    ensures Collapses(Normal, c) <==> c in {' ', '\t', '\n', '\r', '\U{000C}'}
    ensures Collapses(Nowrap, c) <==> c in {' ', '\t', '\n', '\r', '\U{000C}'}
    ensures Collapses(PreLine, c) <==> c in {' ', '\t', '\r', '\U{000C}'}
    ensures !Collapses(Other, c)
  {
  }

  predicate In(entries: seq<Entry>, p: Position) { p.entry < |entries| && p.index < |entries[p.entry].value| }

  function CharAt(entries: seq<Entry>, p: Position): char
    requires In(entries, p)
  {
    entries[p.entry].value[p.index]
  }

  predicate Collapsed(entries: seq<Entry>, p: Position)
    requires In(entries, p)
  {
    Collapses(entries[p.entry].whiteSpace, CharAt(entries, p))
  }

  // ---------- one character at a time ----------

  function Emit(j: Joined): Joined {
    if j.pending.None? then j else Joined(j.text + " ", j.mapping + [j.pending.value], None)
  }

  function Step(j: Joined, entries: seq<Entry>, p: Position): Joined
    requires In(entries, p)
  {
    if Collapsed(entries, p) then
      j.(pending := Some(
        if j.pending.None? then Point(p.entry, p.index, p.index + 1, {p.entry})
        else if j.pending.value.entry == p.entry then j.pending.value.(end := p.index + 1)
        else j.pending.value.(entries := j.pending.value.entries + {p.entry})))
    else
      var e := Emit(j);
      Joined(e.text + [CharAt(entries, p)], e.mapping + [Point(p.entry, p.index, p.index + 1, {})], None)
  }

  predicate AllIn(entries: seq<Entry>, ps: seq<Position>) { forall p | p in ps :: In(entries, p) }

  function Fold(entries: seq<Entry>, ps: seq<Position>): Joined
    requires AllIn(entries, ps)
  {
    if ps == [] then Joined("", [], None) else Step(Fold(entries, ps[..|ps| - 1]), entries, ps[|ps| - 1])
  }

  // The characters of the entries in document order.
  function Of(entry: nat, n: nat): seq<Position> { seq(n, i requires 0 <= i < n => Position(entry, i)) }

  function Positions(entries: seq<Entry>): (ps: seq<Position>)
    ensures forall p | p in ps :: In(entries, p)
  {
    if entries == [] then []
    else
      var n := |entries| - 1;
      assert forall p | p in Positions(entries[..n]) :: In(entries, p);
      Positions(entries[..n]) + Of(n, |entries[n].value|)
  }

  function Join(entries: seq<Entry>): Joined { Emit(Fold(entries, Positions(entries))) }

  method JoinRenderedText(entries: seq<Entry>) returns (text: string, mapping: seq<Point>)
    ensures text == Join(entries).text && mapping == Join(entries).mapping
  {
    text, mapping := "", [];
    var pending: Option<Point> := None;
    ghost var ps: seq<Position> := [];
    for e := 0 to |entries|
      invariant ps == Positions(entries[..e]) && AllIn(entries, ps)
      invariant Joined(text, mapping, pending) == Fold(entries, ps)
    {
      var value := entries[e].value;
      ghost var before := ps;
      for i := 0 to |value|
        invariant ps == before + Of(e, i) && AllIn(entries, ps)
        invariant Joined(text, mapping, pending) == Fold(entries, ps)
      {
        var c := value[i];
        ghost var p := Position(e, i);
        assert (ps + [p])[..|ps|] == ps;
        assert before + Of(e, i + 1) == ps + [p];
        if Collapses(entries[e].whiteSpace, c) {
          if pending.None? {
            pending := Some(Point(e, i, i + 1, {e}));
          } else if pending.value.entry == e {
            pending := Some(pending.value.(end := i + 1));
          } else {
            pending := Some(pending.value.(entries := pending.value.entries + {e}));
          }
          ps := ps + [p];
          continue;
        }
        if pending.Some? {
          text, mapping, pending := text + " ", mapping + [pending.value], None;
        }
        text, mapping := text + [c], mapping + [Point(e, i, i + 1, {})];
        ps := ps + [p];
      }
      assert entries[..e + 1][..e] == entries[..e];
    }
    assert entries[..|entries|] == entries;
    if pending.Some? {
      text, mapping := text + " ", mapping + [pending.value];
    }
  }

  // ---------- what the map promises ----------

  // The next character of the same entry, or the first of a later one.
  predicate Follows(p: Position, q: Position) { (q.entry == p.entry && q.index == p.index + 1) || (q.entry > p.entry && q.index == 0) }

  predicate InOrder(ps: seq<Position>) { forall i | 0 <= i < |ps| - 1 :: Follows(ps[i], ps[i + 1]) }

  predicate SpanOk(entries: seq<Entry>, q: Point) { q.start < q.end && q.entry < |entries| && q.end <= |entries[q.entry].value| }

  // Every source character of the span collapses.
  predicate Blanks(entries: seq<Entry>, q: Point) {
    SpanOk(entries, q) && forall k | q.start <= k < q.end :: Collapses(entries[q.entry].whiteSpace, entries[q.entry].value[k])
  }

  // A joined character is its one source character, or the space of a collapsed run.
  predicate Faithful(entries: seq<Entry>, c: char, q: Point) {
    SpanOk(entries, q) &&
    if q.end == q.start + 1 && !Collapses(entries[q.entry].whiteSpace, entries[q.entry].value[q.start])
    then c == entries[q.entry].value[q.start] else c == ' ' && Blanks(entries, q)
  }

  predicate Before(a: Point, b: Point) { a.entry < b.entry || (a.entry == b.entry && a.end <= b.start) }

  predicate Ordered(qs: seq<Point>) { forall i, j | 0 <= i < j < |qs| :: Before(qs[i], qs[j]) }

  // Nothing of the point lies behind the position.
  predicate UpTo(q: Point, p: Position) { q.entry < p.entry || (q.entry == p.entry && q.end <= p.index + 1) }

  function All(j: Joined): seq<Point> { if j.pending.Some? then j.mapping + [j.pending.value] else j.mapping }

  predicate JoinedOk(entries: seq<Entry>, j: Joined) {
    && |j.text| == |j.mapping|
    && (forall i | 0 <= i < |j.text| :: Faithful(entries, j.text[i], j.mapping[i]))
    && (j.pending.Some? ==> Blanks(entries, j.pending.value))
    && Ordered(All(j))
  }

  // The state after a position: nothing lies behind it, and a run still open in its entry ends at it.
  predicate Reached(j: Joined, p: Position) {
    && (forall q | q in All(j) :: UpTo(q, p))
    && (j.pending.Some? && j.pending.value.entry == p.entry ==> j.pending.value.end == p.index + 1)
  }

  lemma StepKeeps(entries: seq<Entry>, j: Joined, p: Position, q: Position)
    requires JoinedOk(entries, j) && Reached(j, p) && In(entries, q) && Follows(p, q)
    ensures JoinedOk(entries, Step(j, entries, q)) && Reached(Step(j, entries, q), q)
  {
    if Collapsed(entries, q) && j.pending.Some? {
      PendingGrows(entries, j, p, q);
    } else {
      PointAdded(entries, j, p, q);
    }
  }

  lemma PointAdded(entries: seq<Entry>, j: Joined, p: Position, q: Position)
    requires JoinedOk(entries, j) && Reached(j, p) && In(entries, q) && Follows(p, q) && !(Collapsed(entries, q) && j.pending.Some?)
    ensures JoinedOk(entries, Step(j, entries, q)) && Reached(Step(j, entries, q), q)
  {
    var n := Step(j, entries, q);
    var added := Point(q.entry, q.index, q.index + 1, if Collapsed(entries, q) then {q.entry} else {});
    assert All(n) == All(j) + [added];
    OrderedGrows(All(j), added, p);
    assert |n.text| == |n.mapping| by { assert |j.text| == |j.mapping|; }
    forall i | 0 <= i < |n.text| ensures Faithful(entries, n.text[i], n.mapping[i]) {
      if i < |j.text| { assert Faithful(entries, j.text[i], j.mapping[i]); }
    }
    forall r | r in All(n) ensures UpTo(r, q) {
      if r != added { assert r in All(j) && UpTo(r, p); }
    }
  }

  lemma OrderedGrows(qs: seq<Point>, added: Point, p: Position)
    requires Ordered(qs) && (forall r | r in qs :: UpTo(r, p)) && Follows(p, Position(added.entry, added.start))
    ensures Ordered(qs + [added])
  {
    forall i | 0 <= i < |qs| ensures Before(qs[i], added) { assert qs[i] in qs && UpTo(qs[i], p); }
  }

  lemma PendingGrows(entries: seq<Entry>, j: Joined, p: Position, q: Position)
    requires JoinedOk(entries, j) && Reached(j, p) && In(entries, q) && Follows(p, q) && Collapsed(entries, q) && j.pending.Some?
    ensures JoinedOk(entries, Step(j, entries, q)) && Reached(Step(j, entries, q), q)
  {
    var n := Step(j, entries, q);
    var a, b := All(j), All(n);
    var m := |j.mapping|;
    assert a[m] == j.pending.value && a[m] in a && UpTo(a[m], p);
    assert b[m] == n.pending.value && b[m].entry == a[m].entry && b[m].start == a[m].start;
    assert Blanks(entries, n.pending.value);
    forall i, k | 0 <= i < k < |b| ensures Before(b[i], b[k]) { assert Before(a[i], a[k]); }
    forall r | r in b ensures UpTo(r, q) {
      if r != b[m] { assert r in a; }
    }
  }

  lemma {:induction false} FoldKeeps(entries: seq<Entry>, ps: seq<Position>)
    requires AllIn(entries, ps) && InOrder(ps)
    ensures JoinedOk(entries, Fold(entries, ps)) && (ps != [] ==> Reached(Fold(entries, ps), ps[|ps| - 1]))
  {
    if |ps| == 1 {
      assert ps[0] in ps && ps[..0] == [];
      assert Fold(entries, ps) == Step(Joined("", [], None), entries, ps[0]);
    } else if |ps| > 1 {
      FoldKeeps(entries, ps[..|ps| - 1]);
      assert ps[..|ps| - 1][|ps| - 2] == ps[|ps| - 2];
      assert Follows(ps[|ps| - 2], ps[|ps| - 1]);
      StepKeeps(entries, Fold(entries, ps[..|ps| - 1]), ps[|ps| - 2], ps[|ps| - 1]);
    }
  }

  lemma {:induction false} PositionsInOrder(entries: seq<Entry>)
    ensures InOrder(Positions(entries)) && (forall p | p in Positions(entries) :: p.entry < |entries|)
  {
    if entries == [] {
    } else {
      var n := |entries| - 1;
      PositionsInOrder(entries[..n]);
      var a, b := Positions(entries[..n]), Of(n, |entries[n].value|);
      if a != [] && b != [] { assert a[|a| - 1] in a; }
    }
  }

  // For every list of nodes: as many map entries as characters, each faithful, the spans disjoint and in
  // document order.
  lemma JoinIsFaithful(entries: seq<Entry>)
    ensures var j := Join(entries);
            && |j.text| == |j.mapping| && Ordered(j.mapping)
            && forall i | 0 <= i < |j.text| :: Faithful(entries, j.text[i], j.mapping[i])
  {
    PositionsInOrder(entries);
    FoldKeeps(entries, Positions(entries));
  }

  // A match's range runs forward: from the start of its first character's source to the end of its last one's.
  lemma RangeRunsForward(entries: seq<Entry>, matchStart: nat, matchEnd: nat)
    requires matchStart < matchEnd <= |Join(entries).text|
    ensures matchEnd <= |Join(entries).mapping|
    ensures var a, b := Join(entries).mapping[matchStart], Join(entries).mapping[matchEnd - 1];
            SpanOk(entries, a) && SpanOk(entries, b) && (a.entry < b.entry || (a.entry == b.entry && a.start < b.end))
  {
    JoinIsFaithful(entries);
    var j := Join(entries);
    assert Faithful(entries, j.text[matchStart], j.mapping[matchStart]);
    assert Faithful(entries, j.text[matchEnd - 1], j.mapping[matchEnd - 1]);
    if matchStart < matchEnd - 1 { assert Before(j.mapping[matchStart], j.mapping[matchEnd - 1]); }
  }

  // ---------- nothing but blanks is lost ----------

  function Strip(s: string): string {
    if s == "" then "" else Strip(s[..|s| - 1]) + (if Blank(s[|s| - 1]) then "" else [s[|s| - 1]])
  }

  function Source(entries: seq<Entry>): string {
    if entries == [] then "" else Source(entries[..|entries| - 1]) + entries[|entries| - 1].value
  }

  function Chars(entries: seq<Entry>, ps: seq<Position>): string
    requires AllIn(entries, ps)
  {
    seq(|ps|, i requires 0 <= i < |ps| => CharAt(entries, ps[i]))
  }

  lemma {:induction false} StripPush(s: string, c: char)
    ensures Strip(s + [c]) == Strip(s) + (if Blank(c) then "" else [c])
  {
    assert (s + [c])[..|s|] == s;
  }

  lemma StepStrips(entries: seq<Entry>, j: Joined, p: Position)
    requires In(entries, p)
    ensures Strip(Step(j, entries, p).text) == Strip(j.text) + (if Blank(CharAt(entries, p)) then "" else [CharAt(entries, p)])
  {
    StripPush(j.text, ' ');
    StripPush(Emit(j).text, CharAt(entries, p));
  }

  lemma {:induction false} FoldStrips(entries: seq<Entry>, ps: seq<Position>)
    requires AllIn(entries, ps)
    ensures Strip(Fold(entries, ps).text) == Strip(Chars(entries, ps))
  {
    if ps == [] {
    } else {
      var front, p := ps[..|ps| - 1], ps[|ps| - 1];
      FoldStrips(entries, front);
      CharsPush(entries, ps);
      StripPush(Chars(entries, front), CharAt(entries, p));
      StepStrips(entries, Fold(entries, front), p);
    }
  }

  lemma CharsPush(entries: seq<Entry>, ps: seq<Position>)
    requires AllIn(entries, ps) && ps != []
    ensures Chars(entries, ps) == Chars(entries, ps[..|ps| - 1]) + [CharAt(entries, ps[|ps| - 1])]
  {
  }

  lemma CharsOfFront(entries: seq<Entry>, n: nat, ps: seq<Position>)
    requires n < |entries| && AllIn(entries[..n], ps)
    ensures AllIn(entries, ps) && Chars(entries, ps) == Chars(entries[..n], ps)
  {
    forall p | p in ps ensures In(entries, p) && CharAt(entries, p) == CharAt(entries[..n], p) { assert In(entries[..n], p); }
  }

  lemma {:induction false} CharsAreSource(entries: seq<Entry>)
    ensures Chars(entries, Positions(entries)) == Source(entries)
  {
    if entries == [] {
    } else {
      var n := |entries| - 1;
      CharsAreSource(entries[..n]);
      var a, b := Positions(entries[..n]), Of(n, |entries[n].value|);
      CharsOfFront(entries, n, a);
      assert Chars(entries, b) == entries[n].value;
      assert Chars(entries, a + b) == Chars(entries, a) + Chars(entries, b);
    }
  }

  // Dropping space, tab, newline, form feed and carriage return leaves the same text on both sides.
  lemma {:induction false} JoinLosesOnlyBlanks(entries: seq<Entry>)
    ensures Strip(Join(entries).text) == Strip(Source(entries))
  {
    FoldStrips(entries, Positions(entries));
    CharsAreSource(entries);
    StripPush(Fold(entries, Positions(entries)).text, ' ');
  }

  // ---------- every run of blanks is one space, and no position is skipped ----------

  predicate IsRun(entries: seq<Entry>, q: Point) {
    SpanOk(entries, q) && Collapses(entries[q.entry].whiteSpace, entries[q.entry].value[q.start])
  }

  // Two runs are never next to each other, so a run is as long as it can be.
  predicate Alternates(entries: seq<Entry>, j: Joined) {
    && (forall i | 0 <= i < |All(j)| - 1 :: !IsRun(entries, All(j)[i]) || !IsRun(entries, All(j)[i + 1]))
    && (j.pending.None? && j.mapping != [] ==> !IsRun(entries, j.mapping[|j.mapping| - 1]))
  }

  // The position is in the point's span, or the point is a run that reaches into the position's entry.
  predicate CoveredBy(p: Position, q: Point) {
    (q.entry == p.entry && q.start <= p.index < q.end) || (q.entry < p.entry && p.entry in q.entries)
  }

  predicate Covered(j: Joined, p: Position) { exists q :: q in All(j) && CoveredBy(p, q) }

  lemma StepAlternates(entries: seq<Entry>, j: Joined, p: Position, q: Position)
    requires JoinedOk(entries, j) && Alternates(entries, j) && In(entries, q)
    requires (j.mapping == [] && j.pending.None?) || (Reached(j, p) && Follows(p, q))
    ensures Alternates(entries, Step(j, entries, q))
  {
    var n := Step(j, entries, q);
    var a, b := All(j), All(n);
    if Collapsed(entries, q) && j.pending.Some? {
      assert |a| == |b| && a[|a| - 1] == j.pending.value && b[|a| - 1] == n.pending.value;
      assert forall i | 0 <= i < |a| - 1 :: a[i] == b[i];
    } else {
      assert b[..|a|] == a && |b| == |a| + 1;
    }
  }

  lemma StepCovers(entries: seq<Entry>, j: Joined, p: Position, q: Position, r: Position)
    requires In(entries, q) && (j.pending.Some? ==> j.pending.value.start < j.pending.value.end)
    requires (j.mapping == [] && j.pending.None?) || (Reached(j, p) && Follows(p, q))
    requires r == q || Covered(j, r)
    ensures Covered(Step(j, entries, q), r)
  {
    var n := Step(j, entries, q);
    if r == q {
      if n.pending.Some? {
        assert n.pending.value in All(n);
        if j.pending.Some? { assert j.pending.value in All(j) && UpTo(j.pending.value, p); }
        assert CoveredBy(q, n.pending.value);
      } else {
        var last := n.mapping[|n.mapping| - 1];
        assert last in All(n) && CoveredBy(q, last);
      }
    } else {
      var c :| c in All(j) && CoveredBy(r, c);
      if n.pending.Some? && j.pending.Some? && c == j.pending.value {
        if j.pending.value in All(j) { assert UpTo(c, p); }
        assert n.pending.value in All(n) && CoveredBy(r, n.pending.value);
      } else {
        assert c in All(n);
      }
    }
  }

  lemma {:induction false} FoldCovers(entries: seq<Entry>, ps: seq<Position>)
    requires AllIn(entries, ps) && InOrder(ps)
    ensures Alternates(entries, Fold(entries, ps)) && forall r | r in ps :: Covered(Fold(entries, ps), r)
  {
    if ps == [] {
    } else {
      var front, q := ps[..|ps| - 1], ps[|ps| - 1];
      var j := Fold(entries, front);
      FoldCovers(entries, front);
      FoldKeeps(entries, front);
      var p := if front == [] then q else front[|front| - 1];
      if front != [] { assert Follows(ps[|ps| - 2], ps[|ps| - 1]); }
      StepAlternates(entries, j, p, q);
      forall r | r in ps ensures Covered(Fold(entries, ps), r) {
        if r != q { assert r in front; }
        StepCovers(entries, j, p, q, r);
      }
    }
  }

  // Every source character is mapped, alone or in one maximal run.
  lemma EveryPositionIsMapped(entries: seq<Entry>, r: Position)
    requires In(entries, r)
    ensures exists q :: q in Join(entries).mapping && CoveredBy(r, q)
    ensures var m := Join(entries).mapping; forall i | 0 <= i < |m| - 1 :: !IsRun(entries, m[i]) || !IsRun(entries, m[i + 1])
  {
    var ps := Positions(entries);
    PositionsInOrder(entries);
    FoldCovers(entries, ps);
    PositionsAreAll(entries, r);
    var j := Fold(entries, ps);
    assert Covered(j, r);
    assert Join(entries).mapping == All(j);
  }

  lemma {:induction false} PositionsAreAll(entries: seq<Entry>, r: Position)
    requires In(entries, r)
    ensures r in Positions(entries)
  {
    var n := |entries| - 1;
    if r.entry == n {
      assert Of(n, |entries[n].value|)[r.index] == r;
    } else {
      PositionsAreAll(entries[..n], r);
    }
  }
}
