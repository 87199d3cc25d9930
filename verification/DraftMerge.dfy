/**
 The three-way merge that lays a candidate's changes over edits the user made while the
 candidate was being written (apps/extension/editor/editor.js:79-158).
 */
module DraftMerge {
  import opened Basics
  import opened Json
  import opened EntityLists

  // mergeChangedValue
  function Merge(base: Json, candidate: Json, current: Json): Json
    decreases base, 3, 0
  {
    if candidate == base then current
    else if current == base then candidate
    else if base.Arr? && candidate.Arr? && current.Arr? then
      Arr(MergeEntities(base.items, candidate.items, current.items))
    else if base.Obj? && candidate.Obj? && current.Obj? then
      AddNewFields(base, candidate, current, 0, MergeFields(base, candidate, current, 0, current))
    else current
  }

  // The keys of the base object, in order.
  function MergeFields(base: Json, candidate: Json, current: Json, i: nat, merged: Json): (r: Json)
    requires base.Obj? && merged.Obj? && i <= |base.keys|
    ensures r.Obj?
    decreases base, 2, |base.keys| - i
  {
    if i == |base.keys| then merged
    else
      var key := base.keys[i];
      var next := Field(candidate, key);
      var now := Field(current, key);
      MergeFields(base, candidate, current, i + 1,
                  if key !in base.values then merged
                  else if next.None? then (if now == Some(base.values[key]) then Delete(merged, key) else merged)
                  else if now.None? then merged
                  else Set(merged, key, Merge(base.values[key], next.value, now.value)))
  }

  // The keys only the candidate has, in order.
  function AddNewFields(base: Json, candidate: Json, current: Json, i: nat, merged: Json): (r: Json)
    requires candidate.Obj? && merged.Obj? && i <= |candidate.keys|
    ensures r.Obj?
    decreases |candidate.keys| - i
  {
    if i == |candidate.keys| then merged
    else
      var key := candidate.keys[i];
      var value := Field(candidate, key);
      AddNewFields(base, candidate, current, i + 1,
                   if value.Some? && Field(base, key).None? && Field(current, key).None? then Set(merged, key, value.value) else merged)
  }

  // mergeChangedEntities
  function MergeEntities(base: seq<Json>, candidate: seq<Json>, current: seq<Json>): seq<Json>
    decreases base, 2, 0
  {
    if !(AllHaveIds(base) && AllHaveIds(candidate) && AllHaveIds(current)) then
      (if current == base then candidate else current)
    else Values(MergeEntries(base, Keyed(candidate), Keyed(current)))
  }

  function MergeEntries(base: seq<Json>, candidate: seq<Entry>, current: seq<Entry>): seq<Entry>
    decreases base, 1, 0
  {
    var kept := MergeEach(base, candidate, current);
    var merged := DropDeleted(Keyed(base), candidate, current, kept + Additions(Keyed(base), candidate, current));
    if Ids(current) == Ids(Keyed(base)) then Reorder(candidate, merged) else merged
  }

  function MergeEach(base: seq<Json>, candidate: seq<Entry>, current: seq<Entry>): (r: seq<Entry>)
    ensures |r| == |current|
    decreases base, 0, |current|
  {
    if current == [] then []
    else
      var next := Lookup(candidate, current[0].id);
      var original := Index(Keyed(base), current[0].id);
      [if next.Some? && original.Some? then EntryOf(Merge(base[original.value], next.value, current[0].value)) else current[0]]
      + MergeEach(base, candidate, current[1..])
  }
}
