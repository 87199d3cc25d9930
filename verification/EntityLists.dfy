/**
 The list steps of mergeChangedEntities (apps/extension/editor/editor.js:115-139) on lists of
 entries with ids: look-up, additions, deletions and reordering, and what each does to the
 entry an id names.
 */
module EntityLists {
  import opened Basics
  import opened Json

  function Ids(s: seq<Entry>): (r: seq<Json>)
    ensures |r| == |s| && forall i | 0 <= i < |s| :: r[i] == s[i].id
  {
    if s == [] then [] else [s[0].id] + Ids(s[1..])
  }

  // The position of the entry that a Map built from the list holds for an id: the last one.
  function Index(s: seq<Entry>, id: Json): (r: Option<nat>)
    ensures r.Some? ==> r.value < |s| && s[r.value].id == id
    ensures r.None? <==> forall e | e in s :: e.id != id
  {
    if s == [] then None
    else if s[|s| - 1].id == id then Some(|s| - 1)
    else
      assert s == s[..|s| - 1] + [s[|s| - 1]];
      Index(s[..|s| - 1], id)
  }

  function Lookup(s: seq<Entry>, id: Json): (r: Option<Json>)
    ensures r.Some? ==> Entry(id, r.value) in s
    ensures r.None? <==> forall e | e in s :: e.id != id
  {
    var i := Index(s, id);
    if i.None? then None else Some(s[i.value].value)
  }

  function Additions(base: seq<Entry>, candidate: seq<Entry>, current: seq<Entry>): seq<Entry> {
    if candidate == [] then []
    else
      (if Lookup(base, candidate[0].id).None? && Lookup(current, candidate[0].id).None? then [candidate[0]] else [])
      + Additions(base, candidate[1..], current)
  }

  // Remove the first entry with this id.
  function Splice(s: seq<Entry>, id: Json): seq<Entry> {
    if s == [] then []
    else if s[0].id == id then s[1..]
    else [s[0]] + Splice(s[1..], id)
  }

  function DropDeleted(base: seq<Entry>, candidate: seq<Entry>, current: seq<Entry>, merged: seq<Entry>): seq<Entry>
    decreases |base|
  {
    if base == [] then merged
    else
      DropDeleted(base[1..], candidate, current,
                  if Lookup(candidate, base[0].id).None? && Lookup(current, base[0].id) == Some(base[0].value)
                  then Splice(merged, base[0].id) else merged)
  }

  function Reorder(candidate: seq<Entry>, merged: seq<Entry>): seq<Entry> {
    if candidate == [] then []
    else
      var value := Lookup(merged, candidate[0].id);
      (if value.Some? then [Entry(candidate[0].id, value.value)] else []) + Reorder(candidate[1..], merged)
  }

  // ---------- laws ----------

  lemma LookupIs(s: seq<Entry>, e: Entry)
    requires UniqueIds(s) && e in s
    ensures Lookup(s, e.id) == Some(e.value)
  {
    var i :| 0 <= i < |s| && s[i] == e;
    var found := Index(s, e.id);
    if found.value < i { } else if i < found.value { }
  }

  lemma LookupCons(s: seq<Entry>, id: Json)
    requires UniqueIds(s) && s != []
    ensures UniqueIds(s[1..])
    ensures Lookup(s, id) == if s[0].id == id then Some(s[0].value) else Lookup(s[1..], id)
    ensures Lookup(s[1..], s[0].id).None?
  {
    assert s == [s[0]] + s[1..];
    if s[0].id == id {
      LookupIs(s, s[0]);
    } else if Lookup(s[1..], id).Some? {
      LookupIs(s, Entry(id, Lookup(s[1..], id).value));
    }
  }

  lemma LookupConcat(a: seq<Entry>, b: seq<Entry>, id: Json)
    requires UniqueIds(a) && UniqueIds(b) && forall x | x in b :: Lookup(a, x.id).None?
    ensures UniqueIds(a + b)
    ensures Lookup(a + b, id) == if Lookup(a, id).Some? then Lookup(a, id) else Lookup(b, id)
  {
    forall i, j | 0 <= i < j < |a + b| ensures (a + b)[i].id != (a + b)[j].id {
      if i < |a| <= j { assert b[j - |a|] in b && a[i] in a; }
    }
    if Lookup(a, id).Some? {
      LookupIs(a + b, Entry(id, Lookup(a, id).value));
    } else if Lookup(b, id).Some? {
      LookupIs(a + b, Entry(id, Lookup(b, id).value));
    }
  }

  lemma LookupPrepend(e: Entry, rest: seq<Entry>, id: Json)
    requires UniqueIds(rest) && Lookup(rest, e.id).None?
    ensures UniqueIds([e] + rest)
    ensures Lookup([e] + rest, id) == if e.id == id then Some(e.value) else Lookup(rest, id)
  {
    forall i, j | 0 <= i < j < |[e] + rest| ensures ([e] + rest)[i].id != ([e] + rest)[j].id {
      assert ([e] + rest)[j] == rest[j - 1] && rest[j - 1] in rest;
    }
    if e.id == id {
      LookupIs([e] + rest, e);
    } else if Lookup(rest, id).Some? {
      LookupIs([e] + rest, Entry(id, Lookup(rest, id).value));
    }
  }

  // An entry's id is new to both lists.
  predicate New(base: seq<Entry>, current: seq<Entry>, id: Json) { Lookup(base, id).None? && Lookup(current, id).None? }

  lemma {:induction false} AdditionsCons(base: seq<Entry>, candidate: seq<Entry>, current: seq<Entry>)
    requires candidate != []
    ensures var rest := Additions(base, candidate[1..], current);
            Additions(base, candidate, current) == if New(base, current, candidate[0].id) then [candidate[0]] + rest else rest
  {
  }

  lemma {:induction false} AdditionsRule(base: seq<Entry>, candidate: seq<Entry>, current: seq<Entry>, id: Json)
    requires UniqueIds(candidate)
    ensures UniqueIds(Additions(base, candidate, current))
    ensures Lookup(Additions(base, candidate, current), id) == if New(base, current, id) then Lookup(candidate, id) else None
    decreases |candidate|
  {
    if candidate == [] {
    } else {
      var e, tail := candidate[0], candidate[1..];
      var rest := Additions(base, tail, current);
      LookupCons(candidate, id);
      AdditionsRule(base, tail, current, id);
      AdditionsRule(base, tail, current, e.id);
      AdditionsCons(base, candidate, current);
      if New(base, current, e.id) { LookupPrepend(e, rest, id); }
    }
  }

  lemma {:induction false} SpliceRule(s: seq<Entry>, gone: Json, id: Json)
    requires UniqueIds(s)
    ensures UniqueIds(Splice(s, gone))
    ensures Lookup(Splice(s, gone), id) == if id == gone then None else Lookup(s, id)
    decreases |s|
  {
    if s == [] {
    } else {
      LookupCons(s, id);
      if s[0].id != gone {
        SpliceRule(s[1..], gone, id);
        SpliceRule(s[1..], gone, s[0].id);
        LookupPrepend(s[0], Splice(s[1..], gone), id);
      }
    }
  }

  // The candidate deleted the entry and the user has not changed it since.
  predicate Deleted(base: Option<Json>, candidate: Option<Json>, current: Option<Json>) {
    base.Some? && candidate.None? && current == base
  }

  lemma {:induction false} DropDeletedRule(base: seq<Entry>, candidate: seq<Entry>, current: seq<Entry>, merged: seq<Entry>, id: Json)
    requires UniqueIds(base) && UniqueIds(merged)
    ensures var r := DropDeleted(base, candidate, current, merged);
            && UniqueIds(r)
            && Lookup(r, id) == if Deleted(Lookup(base, id), Lookup(candidate, id), Lookup(current, id)) then None else Lookup(merged, id)
    decreases |base|
  {
    if base == [] {
    } else {
      LookupCons(base, id);
      SpliceRule(merged, base[0].id, id);
      var drop := Lookup(candidate, base[0].id).None? && Lookup(current, base[0].id) == Some(base[0].value);
      DropDeletedRule(base[1..], candidate, current, if drop then Splice(merged, base[0].id) else merged, id);
    }
  }

  lemma {:induction false} NothingToDrop(base: seq<Entry>, candidate: seq<Entry>, current: seq<Entry>, merged: seq<Entry>)
    requires forall e | e in base :: !Deleted(Some(e.value), Lookup(candidate, e.id), Lookup(current, e.id))
    ensures DropDeleted(base, candidate, current, merged) == merged
    decreases |base|
  {
    if base == [] {
    } else {
      NothingToDrop(base[1..], candidate, current, merged);
    }
  }

  lemma {:induction false} NothingToAdd(base: seq<Entry>, candidate: seq<Entry>, current: seq<Entry>)
    requires forall e | e in candidate :: Lookup(base, e.id).Some? || Lookup(current, e.id).Some?
    ensures Additions(base, candidate, current) == []
    decreases |candidate|
  {
    if candidate == [] {
    } else {
      NothingToAdd(base, candidate[1..], current);
    }
  }

  lemma {:induction false} ReorderCons(candidate: seq<Entry>, merged: seq<Entry>)
    requires candidate != []
    ensures var value := Lookup(merged, candidate[0].id);
            var rest := Reorder(candidate[1..], merged);
            Reorder(candidate, merged) == if value.Some? then [Entry(candidate[0].id, value.value)] + rest else rest
  {
  }

  lemma {:induction false} ReorderRule(candidate: seq<Entry>, merged: seq<Entry>, id: Json)
    requires UniqueIds(candidate)
    ensures UniqueIds(Reorder(candidate, merged))
    ensures Lookup(Reorder(candidate, merged), id) == if Lookup(candidate, id).Some? then Lookup(merged, id) else None
    decreases |candidate|
  {
    if candidate == [] {
    } else {
      var e, tail := candidate[0], candidate[1..];
      LookupCons(candidate, id);
      ReorderRule(tail, merged, id);
      ReorderRule(tail, merged, e.id);
      ReorderCons(candidate, merged);
      var value := Lookup(merged, e.id);
      if value.Some? { LookupPrepend(Entry(e.id, value.value), Reorder(tail, merged), id); }
    }
  }

  lemma {:induction false} ReorderKeepsOrder(candidate: seq<Entry>, merged: seq<Entry>)
    requires forall e | e in candidate :: Lookup(merged, e.id).Some?
    ensures Ids(Reorder(candidate, merged)) == Ids(candidate)
    decreases |candidate|
  {
    if candidate == [] {
    } else {
      ReorderKeepsOrder(candidate[1..], merged);
    }
  }

  lemma {:induction false} SameIds(s: seq<Entry>, t: seq<Entry>, id: Json)
    requires Ids(s) == Ids(t)
    ensures Lookup(s, id).Some? <==> Lookup(t, id).Some?
    ensures UniqueIds(s) ==> UniqueIds(t)
  {
    forall e | e in s ensures exists f | f in t :: f.id == e.id {
      var i :| 0 <= i < |s| && s[i] == e;
      assert Ids(s)[i] == Ids(t)[i] && t[i] in t;
    }
    forall e | e in t ensures exists f | f in s :: f.id == e.id {
      var i :| 0 <= i < |t| && t[i] == e;
      assert Ids(s)[i] == Ids(t)[i] && s[i] in s;
    }
    if UniqueIds(s) {
      forall i, j | 0 <= i < j < |t| ensures t[i].id != t[j].id {
        assert Ids(s)[i] == Ids(t)[i] && Ids(s)[j] == Ids(t)[j];
      }
    }
  }

  // A list is determined by its order of ids and the entry of each.
  lemma {:induction false} SameEntries(s: seq<Entry>, t: seq<Entry>)
    requires Ids(s) == Ids(t) && UniqueIds(s) && UniqueIds(t)
    requires forall id | id in Ids(s) :: Lookup(s, id) == Lookup(t, id)
    ensures s == t
  {
    assert |s| == |Ids(s)| == |t|;
    forall i | 0 <= i < |s| ensures s[i] == t[i] {
      assert Ids(s)[i] in Ids(s) && Ids(s)[i] == s[i].id && Ids(t)[i] == t[i].id;
      LookupIs(s, s[i]);
      LookupIs(t, t[i]);
    }
  }
}
