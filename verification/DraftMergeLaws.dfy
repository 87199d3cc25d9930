/** What the three-way merge means, field by field and entity by entity. */
module DraftMergeLaws {
  import opened Basics
  import opened Json
  import opened EntityLists
  import opened DraftMerge

  // ---------- objects ----------

  // The value one field ends up with: the user's change wins, the candidate's change applies
  // where the user made none, and two changed objects or lists are merged in turn.
  function FieldRule(base: Option<Json>, candidate: Option<Json>, current: Option<Json>): Option<Json> {
    if candidate.None? then (if current == base then None else current)
    else if base.None? then (if current.None? then candidate else current)
    else if current.None? then None
    else Some(Merge(base.value, candidate.value, current.value))
  }

  // The keys handled so far carry the merged value, the others still the user's.
  ghost predicate MergedUpTo(base: Json, candidate: Json, current: Json, i: nat, merged: Json)
    requires base.Obj? && i <= |base.keys|
  {
    forall k :: Field(merged, k) == if k in base.keys[..i] then FieldRule(Field(base, k), Field(candidate, k), Field(current, k))
                                    else Field(current, k)
  }

  lemma {:induction false} MergeFieldsRule(base: Json, candidate: Json, current: Json, i: nat, merged: Json)
    requires base.Obj? && merged.Obj? && i <= |base.keys| && WfObject(base) && WfObject(merged)
    requires MergedUpTo(base, candidate, current, i, merged)
    ensures var r := MergeFields(base, candidate, current, i, merged);
            WfObject(r) && MergedUpTo(base, candidate, current, |base.keys|, r)
    decreases |base.keys| - i
  {
    if i == |base.keys| {
    } else {
      var k := base.keys[i];
      var next := Field(candidate, k);
      var now := Field(current, k);
      var after := if next.None? then (if now == Some(base.values[k]) then Delete(merged, k) else merged)
      else if now.None? then merged
      else Set(merged, k, Merge(base.values[k], next.value, now.value));
      if next.Some? && now.Some? { SetWf(merged, k, Merge(base.values[k], next.value, now.value)); }
      assert base.keys[..i + 1] == base.keys[..i] + [k];
      MergeFieldsRule(base, candidate, current, i + 1, after);
    }
  }

  lemma NextKey(keys: seq<string>, i: nat, key: string)
    requires i < |keys|
    ensures key in keys[i..] <==> key == keys[i] || key in keys[i + 1..]
  {
    assert keys[i..] == [keys[i]] + keys[i + 1..];
  }

  lemma {:induction false} AddNewFieldsRule(base: Json, candidate: Json, current: Json, i: nat, merged: Json, key: string)
    requires candidate.Obj? && merged.Obj? && i <= |candidate.keys| && WfObject(candidate) && WfObject(merged)
    ensures var r := AddNewFields(base, candidate, current, i, merged);
            && WfObject(r)
            && Field(r, key) == if key in candidate.keys[i..] && Field(base, key).None? && Field(current, key).None?
                                then Field(candidate, key) else Field(merged, key)
    decreases |candidate.keys| - i
  {
    if i == |candidate.keys| {
    } else {
      var k := candidate.keys[i];
      var after := if Field(base, k).None? && Field(current, k).None? then Set(merged, k, candidate.values[k]) else merged;
      SetWf(merged, k, candidate.values[k]);
      AddNewFieldsRule(base, candidate, current, i + 1, after, key);
      NextKey(candidate.keys, i, key);
    }
  }

  // Merging objects is merging each field, on every triple of well-formed objects.
  lemma {:induction false} MergeObjects(base: Json, candidate: Json, current: Json, key: string)
    requires base.Obj? && candidate.Obj? && current.Obj?
    requires WfObject(base) && WfObject(candidate) && WfObject(current)
    ensures var r := Merge(base, candidate, current);
            && r.Obj? && WfObject(r)
            && Field(r, key) == FieldRule(Field(base, key), Field(candidate, key), Field(current, key))
  {
    if candidate != base && current != base {
      MergeFieldsRule(base, candidate, current, 0, current);
      assert base.keys[..|base.keys|] == base.keys;
      AddNewFieldsRule(base, candidate, current, 0, MergeFields(base, candidate, current, 0, current), key);
    }
  }

  // ---------- lists of entities ----------

  // Lists of objects with distinct truthy ids.
  ghost predicate Entities(s: seq<Json>) {
    AllHaveIds(s) && UniqueIds(Keyed(s)) && forall j | j in s :: WfObject(j)
  }

  lemma {:induction false} MergeKeepsId(base: Json, candidate: Json, current: Json)
    requires HasId(base) && HasId(candidate) && HasId(current) && Key(base) == Key(candidate) == Key(current)
    requires WfObject(base) && WfObject(candidate) && WfObject(current)
    ensures var r := Merge(base, candidate, current); HasId(r) && Key(r) == Key(current) && WfObject(r)
  {
    MergeObjects(base, candidate, current, "id");
  }

  // How one of the user's entries is merged.
  function MergeOne(base: Option<Json>, candidate: Option<Json>, current: Json): Json {
    if base.Some? && candidate.Some? then Merge(base.value, candidate.value, current) else current
  }

  ghost predicate Good(e: Entry) { e == EntryOf(e.value) && HasId(e.value) && WfObject(e.value) }

  ghost predicate AllGood(s: seq<Entry>) { forall e | e in s :: Good(e) }

  lemma {:induction false} KeyedGood(s: seq<Json>)
    requires AllHaveIds(s) && forall j | j in s :: WfObject(j)
    ensures AllGood(Keyed(s))
  {
  }

  lemma MergeHead(base: Option<Json>, candidate: Option<Json>, current: Entry)
    requires Good(current)
    requires base.Some? ==> Good(Entry(current.id, base.value))
    requires candidate.Some? ==> Good(Entry(current.id, candidate.value))
    ensures Good(EntryOf(MergeOne(base, candidate, current.value)))
    ensures Key(MergeOne(base, candidate, current.value)) == current.id
  {
    if base.Some? && candidate.Some? { MergeKeepsId(base.value, candidate.value, current.value); }
  }

  lemma GoodCons(e: Entry, rest: seq<Entry>)
    ensures AllGood([e] + rest) <==> Good(e) && AllGood(rest)
  {
    assert forall x :: x in [e] + rest <==> x == e || x in rest;
  }

  lemma GoodLookup(s: seq<Entry>, id: Json)
    requires AllGood(s)
    ensures Lookup(s, id).Some? ==> Good(Entry(id, Lookup(s, id).value))
  {
  }

  lemma MergeEachUnfold(base: seq<Json>, candidate: seq<Entry>, current: seq<Entry>) returns (head: Entry)
    requires AllGood(Keyed(base)) && AllGood(candidate) && current != [] && Good(current[0])
    ensures MergeEach(base, candidate, current) == [head] + MergeEach(base, candidate, current[1..])
    ensures Good(head) && head == Entry(current[0].id, MergeOne(Lookup(Keyed(base), current[0].id), Lookup(candidate, current[0].id), current[0].value))
  {
    var id := current[0].id;
    GoodLookup(Keyed(base), id);
    GoodLookup(candidate, id);
    MergeHead(Lookup(Keyed(base), id), Lookup(candidate, id), current[0]);
    head := EntryOf(MergeOne(Lookup(Keyed(base), id), Lookup(candidate, id), current[0].value));
  }

  lemma {:induction false} MergeEachRule(base: seq<Json>, candidate: seq<Entry>, current: seq<Entry>, id: Json)
    requires AllGood(Keyed(base)) && AllGood(candidate) && AllGood(current) && UniqueIds(current)
    ensures var r := MergeEach(base, candidate, current);
            && Ids(r) == Ids(current) && UniqueIds(r) && AllGood(r)
            && Lookup(r, id) == if Lookup(current, id).None? then None
                                else Some(MergeOne(Lookup(Keyed(base), id), Lookup(candidate, id), Lookup(current, id).value))
    decreases |current|
  {
    if current == [] {
    } else {
      assert current == [current[0]] + current[1..];
      GoodCons(current[0], current[1..]);
      LookupCons(current, id);
      MergeEachRule(base, candidate, current[1..], id);
      var rest := MergeEach(base, candidate, current[1..]);
      var head := MergeEachUnfold(base, candidate, current);
      GoodCons(head, rest);
      SameIds(current[1..], rest, head.id);
      LookupPrepend(head, rest, id);
      assert Ids([head] + rest) == [head.id] + Ids(rest);
    }
  }

  // What becomes of one entity, given how each side holds it.
  function EntityRule(base: Option<Json>, candidate: Option<Json>, current: Option<Json>, sameOrder: bool): Option<Json> {
    if current.Some? then
      if candidate.None? && base.Some? && (current == base || sameOrder) then None
      else Some(MergeOne(base, candidate, current.value))
    else if base.None? then candidate
    else None
  }

  // Merging lists of entities is merging entity by entity, and keeps ids distinct.
  lemma {:induction false} MergeLists(base: seq<Json>, candidate: seq<Json>, current: seq<Json>, id: Json)
    requires Entities(base) && Entities(candidate) && Entities(current)
    ensures var r := MergeEntries(base, Keyed(candidate), Keyed(current));
            && UniqueIds(r)
            && Lookup(r, id) == EntityRule(Lookup(Keyed(base), id), Lookup(Keyed(candidate), id), Lookup(Keyed(current), id),
                                           Ids(Keyed(current)) == Ids(Keyed(base)))
  {
    var (b, c, u) := (Keyed(base), Keyed(candidate), Keyed(current));
    var kept := MergeEach(base, c, u);
    var added := Additions(b, c, u);
    KeyedGood(base);
    KeyedGood(candidate);
    KeyedGood(current);
    MergeEachRule(base, c, u, id);
    AdditionsRule(b, c, u, id);
    SameIds(u, kept, id);
    forall x | x in added ensures Lookup(kept, x.id).None? {
      AdditionsRule(b, c, u, x.id);
      LookupIs(added, x);
      SameIds(u, kept, x.id);
    }
    LookupConcat(kept, added, id);
    DropDeletedRule(b, c, u, kept + added, id);
    ReorderRule(c, DropDeleted(b, c, u, kept + added), id);
    if Ids(u) == Ids(b) { SameIds(u, b, id); }
  }

  // The candidate kept every entity of the base.
  ghost predicate Keeps(base: seq<Json>, candidate: seq<Json>) {
    forall e | e in Keyed(base) :: Lookup(Keyed(candidate), e.id).Some?
  }

  // The order of the merged list: the candidate's when the user did not reorder, add or delete,
  // otherwise the user's with the candidate's additions at the end.
  lemma {:induction false} MergedOrder(base: seq<Json>, candidate: seq<Json>, current: seq<Json>)
    requires Entities(base) && Entities(candidate) && Entities(current)
    requires forall e | e in Keyed(base) :: !Deleted(Some(e.value), Lookup(Keyed(candidate), e.id), Lookup(Keyed(current), e.id))
    ensures var (b, c, u) := (Keyed(base), Keyed(candidate), Keyed(current)); var r := MergeEntries(base, c, u);
            && (Ids(u) != Ids(b) ==> Ids(r) == Ids(u) + Ids(Additions(b, c, u)))
            && (Ids(u) == Ids(b) && (forall e | e in c :: Lookup(r, e.id).Some?) ==> Ids(r) == Ids(c))
  {
    KeyedGood(base);
    KeyedGood(candidate);
    KeyedGood(current);
    EntriesOrder(base, Keyed(candidate), Keyed(current));
  }

  lemma {:induction false} EntriesOrder(base: seq<Json>, c: seq<Entry>, u: seq<Entry>)
    requires AllGood(Keyed(base)) && AllGood(c) && AllGood(u) && UniqueIds(c) && UniqueIds(u)
    requires forall e | e in Keyed(base) :: !Deleted(Some(e.value), Lookup(c, e.id), Lookup(u, e.id))
    ensures var b := Keyed(base); var r := MergeEntries(base, c, u);
            && (Ids(u) != Ids(b) ==> Ids(r) == Ids(u) + Ids(Additions(b, c, u)))
            && (Ids(u) == Ids(b) && (forall e | e in c :: Lookup(r, e.id).Some?) ==> Ids(r) == Ids(c))
  {
    var b := Keyed(base);
    var kept := MergeEach(base, c, u);
    var added := Additions(b, c, u);
    assert Ids(kept) == Ids(u) by { MergeEachRule(base, c, u, Null); }
    NothingToDrop(b, c, u, kept + added);
    IdsConcat(kept, added);
    if Ids(u) == Ids(b) && forall e | e in c :: Lookup(MergeEntries(base, c, u), e.id).Some? { ReorderComplete(c, kept + added); }
  }

  lemma {:induction false} IdsConcat(s: seq<Entry>, t: seq<Entry>)
    ensures Ids(s + t) == Ids(s) + Ids(t)
  {
  }

  lemma {:induction false} ReorderComplete(c: seq<Entry>, merged: seq<Entry>)
    requires UniqueIds(c) && forall e | e in c :: Lookup(Reorder(c, merged), e.id).Some?
    ensures Ids(Reorder(c, merged)) == Ids(c)
  {
    forall e | e in c ensures Lookup(merged, e.id).Some? { ReorderRule(c, merged, e.id); }
    ReorderKeepsOrder(c, merged);
  }

  // Lists that are not of entities are not merged: the user's stays, unless the user left it alone.
  lemma {:induction false} PlainListsAreNotMerged(base: seq<Json>, candidate: seq<Json>, current: seq<Json>)
    requires !AllHaveIds(base) || !AllHaveIds(candidate) || !AllHaveIds(current)
    ensures MergeEntities(base, candidate, current) == if current == base then candidate else current
  {
  }

  // Nor are values of different kinds, or plain ones.
  lemma {:induction false} PlainValuesAreNotMerged(base: Json, candidate: Json, current: Json)
    requires !(base.Arr? && candidate.Arr? && current.Arr?) && !(base.Obj? && candidate.Obj? && current.Obj?)
    ensures Merge(base, candidate, current) == if candidate != base && current == base then candidate else current
  {
  }

  // ---------- the identities ----------

  lemma {:induction false} KeyedValues(s: seq<Json>)
    ensures Values(Keyed(s)) == s
  {
  }

  // Nothing changed by the candidate: the user's list stays.
  lemma {:induction false} MergeUnchangedCandidate(base: seq<Json>, current: seq<Json>)
    requires Entities(base) && Entities(current)
    ensures MergeEntities(base, base, current) == current
  {
    var (b, u) := (Keyed(base), Keyed(current));
    var r := MergeEntries(base, b, u);
    UserEntriesStay(base, current, Null);
    forall id ensures Lookup(r, id) == Lookup(u, id) { UserEntriesStay(base, current, id); }
    UserOrderStays(base, current);
    SameEntries(r, u);
    KeyedValues(current);
  }

  lemma {:induction false} UserEntriesStay(base: seq<Json>, current: seq<Json>, id: Json)
    requires Entities(base) && Entities(current)
    ensures var r := MergeEntries(base, Keyed(base), Keyed(current)); UniqueIds(r) && Lookup(r, id) == Lookup(Keyed(current), id)
  {
    MergeLists(base, base, current, id);
    if Ids(Keyed(current)) == Ids(Keyed(base)) { SameIds(Keyed(current), Keyed(base), id); }
  }

  lemma {:induction false} UserOrderStays(base: seq<Json>, current: seq<Json>)
    requires Entities(base) && Entities(current)
    ensures Ids(MergeEntries(base, Keyed(base), Keyed(current))) == Ids(Keyed(current))
  {
    var (b, u) := (Keyed(base), Keyed(current));
    forall e | e in b ensures Lookup(b, e.id) == Some(e.value) { LookupIs(b, e); }
    MergedOrder(base, base, current);
    NothingToAdd(b, b, u);
    if Ids(u) == Ids(b) {
      forall e | e in b ensures Lookup(MergeEntries(base, b, u), e.id).Some? {
        UserEntriesStay(base, current, e.id);
        SameIds(u, b, e.id);
      }
    } else {
      assert Ids(u) + Ids(Additions(b, b, u)) == Ids(u);
    }
  }

  // Nothing changed by the user: the candidate's list replaces it.
  lemma {:induction false} MergeUnchangedCurrent(base: seq<Json>, candidate: seq<Json>)
    requires Entities(base) && Entities(candidate)
    ensures MergeEntities(base, candidate, base) == candidate
  {
    var (b, c) := (Keyed(base), Keyed(candidate));
    var r := MergeEntries(base, c, b);
    CandidateEntriesTaken(base, candidate, Null);
    forall id ensures Lookup(r, id) == Lookup(c, id) { CandidateEntriesTaken(base, candidate, id); }
    CandidateOrderTaken(base, candidate);
    SameEntries(r, c);
    KeyedValues(candidate);
  }

  lemma {:induction false} CandidateEntriesTaken(base: seq<Json>, candidate: seq<Json>, id: Json)
    requires Entities(base) && Entities(candidate)
    ensures var r := MergeEntries(base, Keyed(candidate), Keyed(base)); UniqueIds(r) && Lookup(r, id) == Lookup(Keyed(candidate), id)
  {
    MergeLists(base, candidate, base, id);
    CandidateTaken(Lookup(Keyed(base), id), Lookup(Keyed(candidate), id));
  }

  lemma {:induction false} CandidateTaken(base: Option<Json>, candidate: Option<Json>)
    ensures EntityRule(base, candidate, base, true) == candidate
  {
  }

  lemma {:induction false} CandidateOrderTaken(base: seq<Json>, candidate: seq<Json>)
    requires Entities(base) && Entities(candidate)
    ensures Ids(MergeEntries(base, Keyed(candidate), Keyed(base))) == Ids(Keyed(candidate))
  {
    var (b, c) := (Keyed(base), Keyed(candidate));
    var merged := DropDeleted(b, c, b, MergeEach(base, c, b) + Additions(b, c, b));
    assert MergeEntries(base, c, b) == Reorder(c, merged);
    forall e | e in c ensures Lookup(Reorder(c, merged), e.id).Some? { CandidateEntriesTaken(base, candidate, e.id); }
    ReorderComplete(c, merged);
  }

  // Both made the same change: merging it with itself changes nothing, at any depth.
  lemma {:induction false} MergeAgreed(base: Json, both: Json)
    requires Wf(both)
    ensures Merge(base, both, both) == both
    decreases base, 1
  {
    if both != base && base.Arr? && both.Arr? {
      MergeAgreedList(base.items, both.items);
    } else if both != base && base.Obj? && both.Obj? {
      forall k | k in base.values && k in both.values ensures Merge(base.values[k], both.values[k], both.values[k]) == both.values[k] {
        MergeAgreed(base.values[k], both.values[k]);
      }
      MergeAgreedFields(base, both, 0);
      AddNothing(base, both, 0);
    }
  }

  lemma {:induction false} MergeAgreedFields(base: Json, both: Json, i: nat)
    requires base.Obj? && both.Obj? && i <= |base.keys|
    requires forall k | k in base.values && k in both.values :: Merge(base.values[k], both.values[k], both.values[k]) == both.values[k]
    ensures MergeFields(base, both, both, i, both) == both
    decreases |base.keys| - i
  {
    if i == |base.keys| {
    } else {
      var key := base.keys[i];
      if key in base.values && key in both.values { assert both.values[key := both.values[key]] == both.values; }
      MergeAgreedFields(base, both, i + 1);
    }
  }

  lemma {:induction false} AddNothing(base: Json, both: Json, i: nat)
    requires both.Obj? && i <= |both.keys|
    ensures AddNewFields(base, both, both, i, both) == both
    decreases |both.keys| - i
  {
    if i == |both.keys| {
    } else {
      AddNothing(base, both, i + 1);
    }
  }

  lemma {:induction false} MergeAgreedList(base: seq<Json>, both: seq<Json>)
    requires Wf(Arr(both))
    ensures MergeEntities(base, both, both) == both
    decreases base, 0
  {
    if AllHaveIds(base) && AllHaveIds(both) {
      var (b, c) := (Keyed(base), Keyed(both));
      forall e | e in c ensures Lookup(c, e.id) == Some(e.value) { LookupIs(c, e); }
      forall i, e | 0 <= i < |base| && e in c ensures Merge(base[i], e.value, e.value) == e.value {
        MergeAgreed(base[i], e.value);
      }
      MergeEachAgreed(base, c, c);
      NothingToAdd(b, c, c);
      assert c + [] == c;
      NothingToDrop(b, c, c, c);
      ReorderSelf(c, c);
      assert MergeEntries(base, c, c) == c;
      KeyedValues(both);
    }
  }

  lemma {:induction false} MergeEachAgreed(base: seq<Json>, candidate: seq<Entry>, current: seq<Entry>)
    requires forall e | e in current :: Lookup(candidate, e.id) == Some(e.value) && e == EntryOf(e.value)
    requires forall i, e | 0 <= i < |base| && e in current :: Merge(base[i], e.value, e.value) == e.value
    ensures MergeEach(base, candidate, current) == current
    decreases |current|
  {
    if current == [] {
    } else {
      assert current == [current[0]] + current[1..];
      MergeEachAgreed(base, candidate, current[1..]);
    }
  }

  lemma {:induction false} ReorderSelf(s: seq<Entry>, all: seq<Entry>)
    requires forall e | e in s :: Lookup(all, e.id) == Some(e.value)
    ensures Reorder(s, all) == s
    decreases |s|
  {
    if s == [] {
    } else {
      ReorderSelf(s[1..], all);
    }
  }

  // ---------- well-formedness ----------

  // Merging well-formed trees gives a well-formed tree: at every depth list ids stay distinct.
  lemma {:induction false} MergeWf(base: Json, candidate: Json, current: Json)
    requires Wf(base) && Wf(candidate) && Wf(current)
    ensures Wf(Merge(base, candidate, current))
    decreases base, 1
  {
    if candidate == base || current == base {
    } else if base.Arr? && candidate.Arr? && current.Arr? {
      MergeListWf(base.items, candidate.items, current.items);
    } else if base.Obj? && candidate.Obj? && current.Obj? {
      var r := Merge(base, candidate, current);
      MergeObjects(base, candidate, current, "");
      forall k | k in r.values ensures Wf(r.values[k]) {
        MergeObjects(base, candidate, current, k);
        if k in base.values && k in candidate.values && k in current.values {
          MergeWf(base.values[k], candidate.values[k], current.values[k]);
        }
      }
    }
  }

  lemma {:induction false} MergeListWf(base: seq<Json>, candidate: seq<Json>, current: seq<Json>)
    requires Wf(Arr(base)) && Wf(Arr(candidate)) && Wf(Arr(current))
    ensures Wf(Arr(MergeEntities(base, candidate, current)))
    decreases base, 0, 1
  {
    if AllHaveIds(base) && AllHaveIds(candidate) && AllHaveIds(current) {
      var r := MergeEntries(base, Keyed(candidate), Keyed(current));
      MergeLists(base, candidate, current, Null);
      forall e | e in r ensures Good(e) && Wf(e.value) { MergedEntryWf(base, candidate, current, e); }
      GoodWf(r);
    }
  }

  lemma {:induction false} MergedEntryWf(base: seq<Json>, candidate: seq<Json>, current: seq<Json>, e: Entry)
    requires Wf(Arr(base)) && Wf(Arr(candidate)) && Wf(Arr(current)) && Entities(base) && Entities(candidate) && Entities(current)
    requires e in MergeEntries(base, Keyed(candidate), Keyed(current))
    ensures Good(e) && Wf(e.value)
    decreases base, 0, 0
  {
    MergeLists(base, candidate, current, e.id);
    LookupIs(MergeEntries(base, Keyed(candidate), Keyed(current)), e);
    MergedEntryGood(base, candidate, current, e);
    MergedEntryComesFrom(base, candidate, current, e);
    if e.value !in current && e.value !in candidate {
      var i, j, k :| 0 <= i < |base| && j in candidate && k in current && e.value == Merge(base[i], j, k);
      MergeWf(base[i], j, k);
    }
  }

  lemma {:induction false} GoodWf(r: seq<Entry>)
    requires UniqueIds(r) && forall e | e in r :: Good(e) && Wf(e.value)
    ensures Wf(Arr(Values(r)))
  {
    assert Keyed(Values(r)) == r;
    forall x | x in Values(r) ensures Wf(x) && HasId(x) {
      var i :| 0 <= i < |r| && Values(r)[i] == x;
      assert r[i] in r;
    }
  }

  lemma {:induction false} KeyedLookup(s: seq<Json>, id: Json)
    ensures Lookup(Keyed(s), id).Some? ==> Lookup(Keyed(s), id).value in s
  {
    var i := Index(Keyed(s), id);
    if i.Some? { assert Keyed(s)[i.value].value == s[i.value]; }
  }

  lemma {:induction false} MergedEntryGood(base: seq<Json>, candidate: seq<Json>, current: seq<Json>, e: Entry)
    requires Entities(base) && Entities(candidate) && Entities(current)
    requires Some(e.value) == EntityRule(Lookup(Keyed(base), e.id), Lookup(Keyed(candidate), e.id), Lookup(Keyed(current), e.id),
                                         Ids(Keyed(current)) == Ids(Keyed(base)))
    ensures Good(e)
  {
    var (b, c, u) := (Lookup(Keyed(base), e.id), Lookup(Keyed(candidate), e.id), Lookup(Keyed(current), e.id));
    KeyedGood(base);
    KeyedGood(candidate);
    KeyedGood(current);
    GoodLookup(Keyed(base), e.id);
    GoodLookup(Keyed(candidate), e.id);
    GoodLookup(Keyed(current), e.id);
    if u.Some? { MergeHead(b, c, Entry(e.id, u.value)); }
  }

  // A merged entry is either the merge of three entries or comes from one of the two lists.
  lemma {:induction false} MergedEntryComesFrom(base: seq<Json>, candidate: seq<Json>, current: seq<Json>, e: Entry)
    requires Some(e.value) == EntityRule(Lookup(Keyed(base), e.id), Lookup(Keyed(candidate), e.id), Lookup(Keyed(current), e.id),
                                         Ids(Keyed(current)) == Ids(Keyed(base)))
    ensures e.value in current || e.value in candidate
            || exists i, j, k | 0 <= i < |base| && j in candidate && k in current :: e.value == Merge(base[i], j, k)
  {
    var (b, c, u) := (Lookup(Keyed(base), e.id), Lookup(Keyed(candidate), e.id), Lookup(Keyed(current), e.id));
    KeyedLookup(base, e.id);
    KeyedLookup(candidate, e.id);
    KeyedLookup(current, e.id);
    if u.Some? && b.Some? && c.Some? {
      var i :| 0 <= i < |base| && base[i] == b.value;
      assert e.value == Merge(base[i], c.value, u.value);
    }
  }
}
