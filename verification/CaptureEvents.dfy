/**
 Recorded events, the merge that adds them to a session by id, and the bounded recovery journal
 (apps/extension/background/event-merge.js, apps/extension/background/recovery-journal.js).
 */
module CaptureEvents {
  import opened Basics

  // A normalised event; the empty id stands for no id.
  datatype Event = Event(id: string, at: int, text: string)

  // An event as it arrives: any id, any time.
  datatype Raw = Raw(id: Option<string>, at: Option<int>, text: string)

  // normalizeCaptureEvent, as far as identity and time go.
  function Normalize(r: Raw, now: int): Event {
    Event(if r.id.Some? && |r.id.value| <= 160 then r.id.value else "", if r.at.Some? then r.at.value else now, r.text)
  }

  // An id of at most 160 characters is kept, a longer one counts as none; a time that is no number is the clock's.
  lemma NormalizeIs(r: Raw, now: int)
    ensures var e := Normalize(r, now);
            && e.text == r.text && (r.at.Some? ==> e.at == r.at.value) && (r.at.None? ==> e.at == now)
            && (r.id.Some? && |r.id.value| <= 160 ==> e.id == r.id.value)
            && (r.id.None? || |r.id.value| > 160 ==> e.id == "")
  {
  }

  function NormalizeAll(rs: seq<Option<Raw>>, now: int): seq<Event> {
    if rs == [] then []
    else (if rs[0].Some? then [Normalize(rs[0].value, now)] else []) + NormalizeAll(rs[1..], now)
  }

  ghost function Ids(s: seq<Event>): set<string> { set e | e in s && e.id != "" :: e.id }

  predicate UniqueIds(s: seq<Event>) {
    forall i, j | 0 <= i < j < |s| && s[i].id != "" :: s[i].id != s[j].id
  }

  predicate Identified(s: seq<Event>) { forall e | e in s :: e.id != "" }

  predicate Sorted(s: seq<Event>) { forall i, j | 0 <= i < j < |s| :: s[i].at <= s[j].at }

  // Splitting a list and putting it together again.
  lemma SplitLast(s: seq<Event>)
    requires s != []
    ensures s == s[..|s| - 1] + [s[|s| - 1]]
  {
  }

  lemma SplitAt(s: seq<Event>, k: nat)
    requires k <= |s|
    ensures s == s[..k] + s[k..] && s[..|s|] == s
  {
  }

  // ---------- the stable sort by time ----------

  // Behind every event that is not later.
  function Insert(s: seq<Event>, e: Event): (r: seq<Event>)
    ensures |r| == |s| + 1
  {
    if s == [] then [e]
    else if s[|s| - 1].at <= e.at then s + [e]
    else Insert(s[..|s| - 1], e) + [s[|s| - 1]]
  }

  function StableSort(s: seq<Event>): (r: seq<Event>)
    ensures |r| == |s|
  {
    if s == [] then [] else Insert(StableSort(s[..|s| - 1]), s[|s| - 1])
  }

  // The events recorded at one time, in their order.
  function At(s: seq<Event>, t: int): seq<Event> {
    if s == [] then [] else At(s[..|s| - 1], t) + (if s[|s| - 1].at == t then [s[|s| - 1]] else [])
  }

  lemma {:induction false} InsertKeeps(s: seq<Event>, e: Event)
    ensures multiset(Insert(s, e)) == multiset(s) + multiset{e}
    decreases |s|
  {
    if s == [] || s[|s| - 1].at <= e.at {
    } else {
      InsertKeeps(s[..|s| - 1], e);
      SplitLast(s);
    }
  }

  lemma {:induction false} InsertSorts(s: seq<Event>, e: Event)
    requires Sorted(s)
    ensures Sorted(Insert(s, e))
    ensures s != [] ==> Insert(s, e)[|s|].at == Max(s[|s| - 1].at, e.at)
    decreases |s|
  {
    if s == [] || s[|s| - 1].at <= e.at {
    } else {
      InsertSorts(s[..|s| - 1], e);
    }
  }

  lemma {:induction false} InsertAt(s: seq<Event>, e: Event, t: int)
    requires Sorted(s)
    ensures At(Insert(s, e), t) == At(s, t) + (if e.at == t then [e] else [])
    decreases |s|
  {
    var r := Insert(s, e);
    if s == [] {
      assert r[..0] == [];
    } else if s[|s| - 1].at <= e.at {
      assert r[..|s|] == s;
    } else {
      InsertAt(s[..|s| - 1], e, t);
      assert r[..|s|] == Insert(s[..|s| - 1], e);
    }
  }

  lemma {:induction false} StableSortKeeps(s: seq<Event>)
    ensures multiset(StableSort(s)) == multiset(s)
    decreases |s|
  {
    if s == [] {
    } else {
      var front, last := s[..|s| - 1], s[|s| - 1];
      StableSortKeeps(front);
      InsertKeeps(StableSort(front), last);
      SplitLast(s);
    }
  }

  lemma {:induction false} StableSortSorts(s: seq<Event>, t: int)
    ensures Sorted(StableSort(s)) && At(StableSort(s), t) == At(s, t)
    decreases |s|
  {
    if s == [] {
    } else {
      var front, last := s[..|s| - 1], s[|s| - 1];
      StableSortSorts(front, t);
      InsertSorts(StableSort(front), last);
      InsertAt(StableSort(front), last, t);
    }
  }

  // Sorting orders by time, loses and adds nothing, and keeps the order of simultaneous events.
  lemma {:induction false} StableSortIs(s: seq<Event>, t: int)
    ensures var r := StableSort(s); Sorted(r) && multiset(r) == multiset(s) && At(r, t) == At(s, t)
  {
    StableSortKeeps(s);
    StableSortSorts(s, t);
  }

  lemma {:induction false} SortKeeps(s: seq<Event>)
    ensures var r := StableSort(s); Ids(r) == Ids(s) && (UniqueIds(s) ==> UniqueIds(r)) && (forall e :: e in r <==> e in s)
  {
    var r := StableSort(s);
    StableSortIs(s, 0);
    assert forall e :: e in r <==> e in multiset(r);
    assert forall e :: e in s <==> e in multiset(s);
    if UniqueIds(s) {
      forall i, j | 0 <= i < j < |r| && r[i].id != "" ensures r[i].id != r[j].id {
        if r[i].id == r[j].id { Twice(r, s, i, j); }
      }
    }
  }

  // Two entries with one id in a permutation are two entries with one id in the original.
  lemma Twice(r: seq<Event>, s: seq<Event>, i: nat, j: nat)
    requires multiset(r) == multiset(s) && i < j < |r| && r[i].id == r[j].id != ""
    ensures !UniqueIds(s)
  {
    assert r[i] in multiset(r) && r[j] in multiset(r);
    if r[i] == r[j] {
      assert r == r[..i] + [r[i]] + r[i + 1..j] + [r[j]] + r[j + 1..];
      assert multiset(s)[r[i]] >= 2;
      if UniqueIds(s) { AtMostOnce(s, r[i]); }
    } else {
      var k :| 0 <= k < |s| && s[k] == r[i];
      var l :| 0 <= l < |s| && s[l] == r[j];
      assert k != l;
    }
  }

  lemma {:induction false} AtMostOnce(s: seq<Event>, e: Event)
    requires UniqueIds(s) && e.id != ""
    ensures multiset(s)[e] <= 1
    decreases |s|
  {
    if s == [] {
    } else {
      SplitLast(s);
      AtMostOnce(s[..|s| - 1], e);
      if s[|s| - 1] == e {
        assert e !in s[..|s| - 1];
      }
    }
  }

  // ---------- adding events by id ----------

  predicate HasId(s: seq<Event>, id: string) { exists i | 0 <= i < |s| :: s[i].id == id }

  // An event whose id is already there adds nothing; one without an id is always new.
  function Append(s: seq<Event>, e: Event): seq<Event> {
    if e.id != "" && HasId(s, e.id) then s else s + [e]
  }

  ghost function IdOf(e: Event): set<string> { if e.id != "" then {e.id} else {} }

  lemma HasIdIs(s: seq<Event>, id: string)
    requires id != ""
    ensures HasId(s, id) <==> id in Ids(s)
  {
    if HasId(s, id) {
      var i :| 0 <= i < |s| && s[i].id == id;
      assert s[i] in s;
    }
  }

  lemma IdsPush(s: seq<Event>, e: Event)
    ensures Ids(s + [e]) == Ids(s) + IdOf(e)
  {
    assert e in s + [e];
    assert forall d :: d in s + [e] <==> d in s || d == e;
  }

  lemma AppendIs(s: seq<Event>, e: Event)
    ensures Ids(Append(s, e)) == Ids(s) + IdOf(e) && (UniqueIds(s) ==> UniqueIds(Append(s, e)))
    ensures Append(s, e) == (if e.id in Ids(s) then s else s + [e])
  {
    if e.id != "" { HasIdIs(s, e.id); }
    IdsPush(s, e);
  }

  function AppendAll(s: seq<Event>, es: seq<Event>): seq<Event> {
    if es == [] then s else Append(AppendAll(s, es[..|es| - 1]), es[|es| - 1])
  }

  function MergeEvents(s: seq<Event>, es: seq<Event>): seq<Event> {
    var next := AppendAll(s, es);
    if |next| == |s| then s else StableSort(next)
  }

  lemma {:induction false} AppendAllIds(s: seq<Event>, es: seq<Event>)
    ensures Ids(AppendAll(s, es)) == Ids(s) + Ids(es) && (UniqueIds(s) ==> UniqueIds(AppendAll(s, es)))
  {
    if es == [] {
    } else {
      var front, last := es[..|es| - 1], es[|es| - 1];
      AppendAllIds(s, front);
      AppendIs(AppendAll(s, front), last);
      IdsPush(front, last);
      SplitLast(es);
    }
  }

  lemma {:induction false} AppendAllAdds(s: seq<Event>, es: seq<Event>)
    ensures var r := AppendAll(s, es); s <= r && forall e | e in r[|s|..] :: e in es && e.id !in Ids(s)
  {
    if es == [] {
    } else {
      var front, last := es[..|es| - 1], es[|es| - 1];
      AppendAllAdds(s, front);
      AppendAllIds(s, front);
      var p := AppendAll(s, front);
      AppendIs(p, last);
      assert (p + [last])[|s|..] == p[|s|..] + [last];
    }
  }

  lemma {:induction false} AppendAllIs(s: seq<Event>, es: seq<Event>)
    ensures var r := AppendAll(s, es);
            && s <= r && Ids(r) == Ids(s) + Ids(es) && (UniqueIds(s) ==> UniqueIds(r))
            && (forall e | e in r[|s|..] :: e in es && e.id !in Ids(s))
  {
    AppendAllIds(s, es);
    AppendAllAdds(s, es);
  }

  // The merge, for any session and any batch: the ids are the union, each id once; every earlier event
  // stays and what is added is new; the list is in time order, simultaneous events in arrival order.
  lemma {:induction false} MergeIs(s: seq<Event>, es: seq<Event>, t: int)
    ensures var r := MergeEvents(s, es);
            && Ids(r) == Ids(s) + Ids(es) && (UniqueIds(s) ==> UniqueIds(r))
            && (forall e | e in s :: e in r)
            && (forall e | e in r && e !in s :: e in es && e.id !in Ids(s))
            && (Sorted(r) || r == s)
            && (At(r, t) == At(s, t) || At(r, t) == At(AppendAll(s, es), t))
            && (r == s <==> AppendAll(s, es) == s) && (r != s ==> |r| > |s|)
  {
    AppendAllIs(s, es);
    var next := AppendAll(s, es);
    if |next| == |s| {
      assert next == s;
    } else {
      StableSortIs(next, t);
      SortKeeps(next);
      forall e | e in next && e !in s ensures e in es && e.id !in Ids(s) {
        assert e in next[|s|..];
      }
    }
  }

  // ---------- which version is kept ----------

  lemma SameEvent(s: seq<Event>, d: Event, e: Event)
    requires UniqueIds(s) && d in s && e in s && d.id == e.id != ""
    ensures d == e
  {
    var i :| 0 <= i < |s| && s[i] == d;
    var j :| 0 <= j < |s| && s[j] == e;
    assert i == j;
  }

  // The version stored first stays: a newer one of the same action adds nothing and replaces nothing.
  lemma FirstVersionStays(s: seq<Event>, es: seq<Event>, e: Event, newer: Event)
    requires UniqueIds(s) && e in s && newer.id == e.id != ""
    ensures forall d | d in MergeEvents(s, es) && d.id == e.id :: d == e
    ensures MergeEvents(MergeEvents(s, es), [newer]) == MergeEvents(s, es)
  {
    MergeIs(s, es, 0);
    forall d | d in MergeEvents(s, es) && d.id == e.id ensures d == e { SameEvent(MergeEvents(s, es), d, e); }
    NothingNew(MergeEvents(s, es), [newer]);
  }

  // Of the versions of a new action in one batch, the first is the one that is added.
  lemma FirstOfferedIsAdded(s: seq<Event>, es: seq<Event>, k: nat)
    requires UniqueIds(s) && k < |es| && es[k].id != "" && es[k].id !in Ids(s)
    requires forall i | 0 <= i < k :: es[i].id != es[k].id
    ensures forall d | d in MergeEvents(s, es) && d.id == es[k].id :: d == es[k]
    ensures es[k] in MergeEvents(s, es)
  {
    MergeIs(s, es, 0);
    AppendAllAddsFirst(s, es, k);
    StableSortIs(AppendAll(s, es), 0);
    assert es[k] in multiset(AppendAll(s, es));
    forall d | d in MergeEvents(s, es) && d.id == es[k].id ensures d == es[k] { SameEvent(MergeEvents(s, es), d, es[k]); }
  }

  lemma {:induction false} AppendAllAddsFirst(s: seq<Event>, es: seq<Event>, k: nat)
    requires k < |es| && es[k].id != "" && es[k].id !in Ids(s) && forall i | 0 <= i < k :: es[i].id != es[k].id
    ensures es[k] in AppendAll(s, es) && |AppendAll(s, es)| > |s|
    decreases |es|
  {
    var front, last := es[..|es| - 1], es[|es| - 1];
    AppendAllIs(s, front);
    if k < |es| - 1 {
      AppendAllAddsFirst(s, front, k);
    } else {
      assert forall e | e in front :: exists i | 0 <= i < k :: es[i] == e;
      assert last.id !in Ids(front);
      AppendIs(AppendAll(s, front), last);
    }
  }

  // Merging the same batch again changes nothing when every event of it carries an id.
  lemma MergeAgain(s: seq<Event>, es: seq<Event>)
    requires Identified(es)
    ensures MergeEvents(MergeEvents(s, es), es) == MergeEvents(s, es)
  {
    var r := MergeEvents(s, es);
    MergeIs(s, es, 0);
    forall e | e in es ensures e.id in Ids(r) { }
    NothingNew(r, es);
  }

  lemma {:induction false} NothingNew(s: seq<Event>, es: seq<Event>)
    requires forall e | e in es :: e.id in Ids(s)
    ensures AppendAll(s, es) == s
  {
    if es == [] {
    } else {
      NothingNew(s, es[..|es| - 1]);
      var e := es[|es| - 1];
      assert e in es;
      var d :| d in s && d.id != "" && d.id == e.id;
      var i :| 0 <= i < |s| && s[i] == d;
    }
  }

  lemma {:induction false} NormalizedPrefix(rs: seq<Option<Raw>>, k: nat, now: int)
    requires k < |rs|
    ensures NormalizeAll(rs[..k + 1], now)
         == NormalizeAll(rs[..k], now) + (if rs[k].Some? then [Normalize(rs[k].value, now)] else [])
    decreases k
  {
    if k == 0 {
      assert rs[..1][1..] == [];
    } else {
      NormalizedPrefix(rs[1..], k - 1, now);
      assert rs[..k + 1][1..] == rs[1..][..k] && rs[..k][1..] == rs[1..][..k - 1];
    }
  }

  method MergeCaptureEvents(events: seq<Event>, incoming: seq<Option<Raw>>, now: int) returns (r: seq<Event>)
    ensures r == MergeEvents(events, NormalizeAll(incoming, now))
  {
    var next := events;
    var eventIds := set i | 0 <= i < |events| && events[i].id != "" :: events[i].id;
    for k := 0 to |incoming|
      invariant next == AppendAll(events, NormalizeAll(incoming[..k], now))
      invariant eventIds == Ids(next)
    {
      NormalizedPrefix(incoming, k, now);
      if incoming[k].None? {
        assert NormalizeAll(incoming[..k + 1], now) == NormalizeAll(incoming[..k], now);
        continue;
      }
      var event := Normalize(incoming[k].value, now);
      AppendAllStep(events, NormalizeAll(incoming[..k], now), event);
      AppendIs(next, event);
      if event.id != "" && event.id in eventIds { continue; }
      next := next + [event];
      if event.id != "" { eventIds := eventIds + {event.id}; }
    }
    assert incoming[..|incoming|] == incoming;
    r := if |next| == |events| then events else StableSort(next);
  }

  // ---------- the recovery journal ----------

  const MAX_RECOVERY_EVENTS: nat := 1000

  function Named(s: seq<Event>, named: bool): seq<Event> {
    if s == [] then []
    else Named(s[..|s| - 1], named) + (if (s[|s| - 1].id != "") == named then [s[|s| - 1]] else [])
  }

  function Latest(s: seq<Event>, n: nat): seq<Event> { if |s| <= n then s else s[|s| - n..] }

  function Collected(s: seq<Event>): seq<Event> { AppendAll([], Named(s, true)) + Named(s, false) }

  function MergeRecovery(existing: seq<Event>, incoming: seq<Event>): seq<Event> {
    Latest(StableSort(Collected(existing + incoming)), MAX_RECOVERY_EVENTS)
  }

  lemma {:induction false} NamedIs(s: seq<Event>)
    ensures Identified(Named(s, true)) && Ids(Named(s, true)) == Ids(s)
    ensures Ids(Named(s, false)) == {} && forall e | e in Named(s, false) :: e.id == "" && e in s
    ensures Identified(s) ==> Named(s, false) == []
  {
    if s == [] {
    } else {
      NamedIs(s[..|s| - 1]);
      var last := s[|s| - 1];
      SplitLast(s);
      assert Ids(s) == Ids(s[..|s| - 1]) + Ids([last]);
      assert last in s;
    }
  }

  lemma CollectedIs(s: seq<Event>)
    ensures Ids(Collected(s)) == Ids(s) && UniqueIds(Collected(s)) && (Identified(s) ==> Identified(Collected(s)))
  {
    NamedIs(s);
    AppendAllIs([], Named(s, true));
    var named, rest := AppendAll([], Named(s, true)), Named(s, false);
    assert Ids(named + rest) == Ids(named) + Ids(rest);
    assert forall e | e in rest :: e.id == "";
    assert named[0..] == named;
  }

  lemma {:induction false} DistinctIds(s: seq<Event>)
    requires Identified(s) && UniqueIds(s)
    ensures |Ids(s)| == |s|
  {
    if s == [] {
    } else {
      var front, last := s[..|s| - 1], s[|s| - 1];
      DistinctIds(front);
      SplitLast(s);
      assert last.id !in Ids(front);
      assert Ids(s) == Ids(front) + {last.id};
    }
  }

  // The journal holds each id once, in time order, at most a thousand events, the latest ones; while the ids
  // fit it holds all of them.
  lemma RecoveryIs(existing: seq<Event>, incoming: seq<Event>)
    ensures var r := MergeRecovery(existing, incoming);
            && UniqueIds(r) && Sorted(r) && |r| <= MAX_RECOVERY_EVENTS
            && Ids(r) <= Ids(existing) + Ids(incoming)
            && (forall kept, lost | kept in r && lost in Collected(existing + incoming) && lost !in r :: lost.at <= kept.at)
    ensures Identified(existing) && Identified(incoming) ==> Identified(MergeRecovery(existing, incoming))
    ensures Identified(existing) && Identified(incoming) && |Ids(existing) + Ids(incoming)| <= MAX_RECOVERY_EVENTS
        ==> Ids(MergeRecovery(existing, incoming)) == Ids(existing) + Ids(incoming)
  {
    var s := existing + incoming;
    var c := Collected(s);
    var sorted := StableSort(c);
    var r := MergeRecovery(existing, incoming);
    assert Ids(s) == Ids(existing) + Ids(incoming);
    CollectedIs(s);
    SortKeeps(c);
    StableSortIs(c, 0);
    LatestIs(sorted, MAX_RECOVERY_EVENTS);
    if Identified(existing) && Identified(incoming) {
      assert Identified(s);
      assert Identified(sorted);
      DistinctIds(c);
    }
  }

  lemma LatestIs(s: seq<Event>, n: nat)
    requires Sorted(s) && UniqueIds(s)
    ensures var r := Latest(s, n);
            && UniqueIds(r) && Sorted(r) && |r| <= n && (|s| <= n ==> r == s) && Ids(r) <= Ids(s)
            && (Identified(s) ==> Identified(r))
            && (forall kept, lost | kept in r && lost in s && lost !in r :: lost.at <= kept.at)
  {
    var r := Latest(s, n);
    assert forall e | e in r :: e in s;
    forall kept, lost | kept in r && lost in s && lost !in r ensures lost.at <= kept.at {
      if |s| > n {
        var i :| 0 <= i < |s| && s[i] == lost;
        var j :| 0 <= j < |r| && r[j] == kept;
        assert r[j] == s[|s| - n + j];
        assert i < |s| - n by { InTail(s, n, i); }
      }
    }
  }

  lemma InTail(s: seq<Event>, n: nat, i: nat)
    requires n <= |s| && i < |s|
    ensures i >= |s| - n ==> s[i] in s[|s| - n..]
  {
    if i >= |s| - n { assert s[|s| - n..][i - (|s| - n)] == s[i]; }
  }

  lemma NamedStep(s: seq<Event>, k: nat)
    requires k < |s|
    ensures Named(s[..k + 1], true) == if s[k].id != "" then Named(s[..k], true) + [s[k]] else Named(s[..k], true)
    ensures Named(s[..k + 1], false) == if s[k].id == "" then Named(s[..k], false) + [s[k]] else Named(s[..k], false)
  {
    assert s[..k + 1][..k] == s[..k];
  }

  lemma {:induction false} AppendAllStep(s: seq<Event>, es: seq<Event>, e: Event)
    ensures AppendAll(s, es + [e]) == Append(AppendAll(s, es), e)
  {
    assert (es + [e])[..|es|] == es;
  }

  // What the loop has after k events: the first of each id, in order, and the events without one.
  function FirstOfEach(s: seq<Event>, k: nat): seq<Event>
    requires k <= |s|
  {
    AppendAll([], Named(s[..k], true))
  }

  function Nameless(s: seq<Event>, k: nat): seq<Event>
    requires k <= |s|
  {
    Named(s[..k], false)
  }

  lemma CollectStep(s: seq<Event>, k: nat)
    requires k < |s|
    ensures var order := FirstOfEach(s, k);
            && FirstOfEach(s, k + 1) == (if s[k].id == "" || s[k].id in Ids(order) then order else order + [s[k]])
            && Ids(FirstOfEach(s, k + 1)) == Ids(order) + IdOf(s[k])
    ensures Nameless(s, k + 1) == if s[k].id == "" then Nameless(s, k) + [s[k]] else Nameless(s, k)
  {
    NamedStep(s, k);
    AppendAllStep([], Named(s[..k], true), s[k]);
    AppendIs(FirstOfEach(s, k), s[k]);
  }

  method MergeRecoveryEvents(existing: seq<Event>, incoming: seq<Event>) returns (r: seq<Event>)
    ensures r == MergeRecovery(existing, incoming)
  {
    var all := existing + incoming;
    var order, anonymous := CollectEvents(all);
    assert all[..|all|] == all;
    r := Latest(StableSort(order + anonymous), MAX_RECOVERY_EVENTS);
  }

  method CollectEvents(all: seq<Event>) returns (order: seq<Event>, anonymous: seq<Event>)
    ensures order == FirstOfEach(all, |all|) && anonymous == Nameless(all, |all|)
  {
    var byId: map<string, Event> := map[];
    order, anonymous := [], [];
    for k := 0 to |all|
      invariant order == FirstOfEach(all, k) && anonymous == Nameless(all, k)
      invariant byId.Keys == Ids(order)
    {
      CollectStep(all, k);
      var event := all[k];
      if event.id != "" {
        if event.id !in byId {
          byId := byId[event.id := event];
          order := order + [event];
        }
      } else {
        anonymous := anonymous + [event];
      }
    }
  }
}
