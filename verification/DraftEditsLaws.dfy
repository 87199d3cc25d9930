/** What the draft keeps when a candidate is merged into it while the user edits. */
module DraftEditsLaws {
  import opened Basics
  import opened Json
  import opened EntityLists
  import opened DraftMerge
  import opened DraftMergeLaws
  import opened DraftEdits

  // ---------- drafts ----------

  // Steps are numbered by position.
  predicate Numbered(steps: seq<Json>) {
    forall i | 0 <= i < |steps| :: Field(steps[i], "order") == Some(Num((i + 1) as real))
  }

  predicate Resolved(step: Json, images: set<Json>) {
    Field(step, "screenshotId").Some? ==> Field(step, "screenshotId").value in images
  }

  ghost predicate GoodDoc(d: Doc) {
    && Entities(d.steps) && Entities(d.screenshots) && Numbered(d.steps)
    && forall s | s in d.steps :: Resolved(s, KeySet(d.screenshots))
  }

  function Step(d: Doc, id: Json): Option<Json> { Lookup(Keyed(d.steps), id) }

  // A candidate keeps the steps and their order, keeps every image, and uses every image it adds.
  ghost predicate CandidateOf(base: Doc, c: Doc) {
    && GoodDoc(c)
    && Ids(Keyed(c.steps)) == Ids(Keyed(base.steps))
    && KeySet(base.screenshots) <= KeySet(c.screenshots)
    && KeySet(c.screenshots) - KeySet(base.screenshots) <= Assigned(c.steps)
  }

  predicate SameImage(base: Doc, step: Json) {
    Step(base, Key(step)).Some? ==> Field(step, "screenshotId") == Field(Step(base, Key(step)).value, "screenshotId")
  }

  // What any number of user edits keep of the draft they started from: every image, and the
  // image each of its steps shows.
  ghost predicate EditedFrom(base: Doc, u: Doc) {
    && GoodDoc(u)
    && Ids(Keyed(u.screenshots)) == Ids(Keyed(base.screenshots))
    && forall s | s in u.steps :: SameImage(base, s)
  }

  // The field rule when the user left the field alone.
  lemma UserLeftField(x: Option<Json>, y: Option<Json>)
    ensures FieldRule(x, y, x) == y
  {
  }

  // ---------- the merged lists ----------

  lemma {:induction false} MergedEntities(base: seq<Json>, c: seq<Json>, u: seq<Json>)
    requires Entities(base) && Entities(c) && Entities(u)
    ensures var m := MergeEntities(base, c, u); Entities(m) && Keyed(m) == MergeEntries(base, Keyed(c), Keyed(u))
  {
    var r := MergeEntries(base, Keyed(c), Keyed(u));
    MergeLists(base, c, u, Null);
    forall e | e in r ensures Good(e) {
      MergeLists(base, c, u, e.id);
      LookupIs(r, e);
      MergedEntryGood(base, c, u, e);
    }
    GoodValues(r);
  }

  lemma {:induction false} GoodValues(r: seq<Entry>)
    requires UniqueIds(r) && AllGood(r)
    ensures Entities(Values(r)) && Keyed(Values(r)) == r
  {
    forall x | x in Values(r) ensures HasId(x) && WfObject(x) {
      var i :| 0 <= i < |r| && Values(r)[i] == x;
      assert r[i] in r;
    }
    forall i | 0 <= i < |r| ensures Keyed(Values(r))[i] == r[i] { assert Good(r[i]) by { assert r[i] in r; } }
    assert Keyed(Values(r)) == r;
  }

  // When the candidate has the base's ids in the base's order, the merged list has the user's.
  lemma {:induction false} MergedIds(base: seq<Json>, c: seq<Json>, u: seq<Json>)
    requires Entities(base) && Entities(c) && Entities(u) && Ids(Keyed(c)) == Ids(Keyed(base))
    ensures Ids(Keyed(MergeEntities(base, c, u))) == Ids(Keyed(u))
  {
    MergedEntities(base, c, u);
    forall e | e in Keyed(base) ensures Lookup(Keyed(c), e.id).Some? { SameIds(Keyed(base), Keyed(c), e.id); }
    MergedOrder(base, c, u);
    if Ids(Keyed(u)) == Ids(Keyed(base)) {
      forall e | e in Keyed(c) ensures Lookup(MergeEntries(base, Keyed(c), Keyed(u)), e.id).Some? {
        MergeLists(base, c, u, e.id);
        SameIds(Keyed(base), Keyed(c), e.id);
        SameIds(Keyed(base), Keyed(u), e.id);
      }
    } else {
      forall e | e in Keyed(c) ensures Lookup(Keyed(base), e.id).Some? { SameIds(Keyed(base), Keyed(c), e.id); }
      NothingToAdd(Keyed(base), Keyed(c), Keyed(u));
    }
  }

  // When the user kept every image, the merged list has exactly the candidate's images.
  lemma {:induction false} MergedImages(base: seq<Json>, c: seq<Json>, u: seq<Json>)
    requires Entities(base) && Entities(c) && Entities(u) && Ids(Keyed(u)) == Ids(Keyed(base))
    requires forall e | e in Keyed(base) :: Lookup(Keyed(c), e.id).Some?
    ensures Ids(Keyed(MergeEntities(base, c, u))) == Ids(Keyed(c))
  {
    MergedEntities(base, c, u);
    MergedOrder(base, c, u);
    forall e | e in Keyed(c) ensures Lookup(MergeEntries(base, Keyed(c), Keyed(u)), e.id).Some? {
      MergeLists(base, c, u, e.id);
      SameIds(Keyed(base), Keyed(u), e.id);
    }
  }

  lemma {:induction false} KeySetIds(s: seq<Json>)
    ensures KeySet(s) == set id | id in Ids(Keyed(s))
    ensures forall id :: id in KeySet(s) <==> Lookup(Keyed(s), id).Some?
  {
    forall id | id in KeySet(s) ensures id in Ids(Keyed(s)) && Lookup(Keyed(s), id).Some? {
      var i :| 0 <= i < |s| && Key(s[i]) == id;
      assert Ids(Keyed(s))[i] == id && Keyed(s)[i] in Keyed(s);
    }
    forall id | id in Ids(Keyed(s)) ensures id in KeySet(s) {
      var i :| 0 <= i < |s| && Ids(Keyed(s))[i] == id;
      assert s[i] in s;
    }
    forall id | Lookup(Keyed(s), id).Some? ensures id in KeySet(s) { KeyedLookup(s, id); }
  }

  // ---------- the merged draft ----------

  lemma MergedField(base: Doc, c: Doc, u: Doc, id: Json, key: string)
    requires GoodDoc(base) && CandidateOf(base, c) && EditedFrom(base, u) && Step(u, id).Some?
    ensures var m := MergeEntities(base.steps, c.steps, u.steps);
            && Lookup(Keyed(m), id).Some?
            && Field(Lookup(Keyed(m), id).value, key) ==
               if Step(base, id).None? then Field(Step(u, id).value, key)
               else FieldRule(Field(Step(base, id).value, key), Field(Step(c, id).value, key), Field(Step(u, id).value, key))
  {
    MergedEntities(base.steps, c.steps, u.steps);
    MergeLists(base.steps, c.steps, u.steps, id);
    SameIds(Keyed(base.steps), Keyed(c.steps), id);
    if Step(base, id).Some? {
      GoodStep(base.steps, id);
      GoodStep(c.steps, id);
      GoodStep(u.steps, id);
      MergeObjects(Step(base, id).value, Step(c, id).value, Step(u, id).value, key);
    }
  }

  lemma {:induction false} GoodStep(s: seq<Json>, id: Json)
    requires Entities(s) && Lookup(Keyed(s), id).Some?
    ensures var j := Lookup(Keyed(s), id).value; j in s && j.Obj? && WfObject(j) && Key(j) == id
  {
    KeyedGood(s);
    GoodLookup(Keyed(s), id);
    KeyedLookup(s, id);
  }

  // Step numbers depend only on the order of ids.
  lemma MergedNumbers(base: Doc, c: Doc, u: Doc)
    requires GoodDoc(base) && CandidateOf(base, c) && EditedFrom(base, u)
    ensures Numbered(MergeEntities(base.steps, c.steps, u.steps))
  {
    var m := MergeEntities(base.steps, c.steps, u.steps);
    MergedEntities(base.steps, c.steps, u.steps);
    MergedIds(base.steps, c.steps, u.steps);
    forall i | 0 <= i < |m| ensures Field(m[i], "order") == Some(Num((i + 1) as real)) {
      var id := Ids(Keyed(m))[i];
      LookupIs(Keyed(m), Keyed(m)[i]);
      assert |m| == |Ids(Keyed(m))| == |Ids(Keyed(u.steps))| == |u.steps|;
      assert Ids(Keyed(u.steps))[i] == id;
      LookupIs(Keyed(u.steps), Keyed(u.steps)[i]);
      MergedField(base, c, u, id, "order");
      if Step(base, id).Some? { SameOrder(base, c, id); }
    }
  }

  lemma SameOrder(base: Doc, c: Doc, id: Json)
    requires GoodDoc(base) && CandidateOf(base, c) && Step(base, id).Some?
    ensures Step(c, id).Some? && Field(Step(base, id).value, "order") == Field(Step(c, id).value, "order")
    ensures Field(Step(base, id).value, "order").Some?
  {
    var i := Index(Keyed(base.steps), id).value;
    assert Ids(Keyed(base.steps))[i] == Ids(Keyed(c.steps))[i];
    LookupIs(Keyed(c.steps), Keyed(c.steps)[i]);
  }

  // The image a merged step shows: the candidate's choice for a step of the base, the user's for
  // a step the user added.
  lemma MergedImageOf(base: Doc, c: Doc, u: Doc, id: Json)
    requires GoodDoc(base) && CandidateOf(base, c) && EditedFrom(base, u) && Step(u, id).Some?
    ensures var m := MergeEntities(base.steps, c.steps, u.steps);
            && Lookup(Keyed(m), id).Some?
            && Field(Lookup(Keyed(m), id).value, "screenshotId")
               == if Step(base, id).Some? then Field(Step(c, id).value, "screenshotId") else Field(Step(u, id).value, "screenshotId")
    ensures Step(base, id).Some? ==> Step(c, id).Some?
  {
    MergedField(base, c, u, id, "screenshotId");
    if Step(base, id).Some? {
      GoodStep(u.steps, id);
      SameIds(Keyed(base.steps), Keyed(c.steps), id);
      UserLeftField(Field(Step(base, id).value, "screenshotId"), Field(Step(c, id).value, "screenshotId"));
    }
  }

  // The merged draft has exactly the user's steps in the user's order, numbered by position; its
  // images are the base's plus those the candidate added that some step still shows; and every
  // image a step shows is there.
  lemma MergedDraft(base: Doc, c: Doc, u: Doc, title: string, description: string, now: string)
    requires GoodDoc(base) && CandidateOf(base, c) && EditedFrom(base, u)
    ensures var m := MergePending(base, c, u, title, description, now);
            && Ids(Keyed(m.steps)) == Ids(Keyed(u.steps))
            && GoodDoc(m)
            && KeySet(m.screenshots) == KeySet(base.screenshots) + ((KeySet(c.screenshots) - KeySet(base.screenshots)) * Assigned(m.steps))
  {
    var steps := MergeEntities(base.steps, c.steps, u.steps);
    var images := MergeEntities(base.screenshots, c.screenshots, u.screenshots);
    var m := MergePending(base, c, u, title, description, now);
    MergedEntities(base.steps, c.steps, u.steps);
    MergedIds(base.steps, c.steps, u.steps);
    MergedNumbers(base, c, u);
    ImagesKept(base, c, u, Assigned(steps));
    forall s | s in steps ensures Resolved(s, KeySet(m.screenshots)) { MergedStepResolves(base, c, u, s, KeySet(m.screenshots)); }
  }

  lemma {:induction false} LookupMember(s: seq<Json>, j: Json)
    requires Entities(s) && j in s
    ensures Lookup(Keyed(s), Key(j)) == Some(j)
  {
    var i :| 0 <= i < |s| && s[i] == j;
    LookupIs(Keyed(s), Keyed(s)[i]);
  }

  lemma MergedStepResolves(base: Doc, c: Doc, u: Doc, s: Json, images: set<Json>)
    requires GoodDoc(base) && CandidateOf(base, c) && EditedFrom(base, u)
    requires s in MergeEntities(base.steps, c.steps, u.steps)
    requires images == KeySet(base.screenshots)
                       + ((KeySet(c.screenshots) - KeySet(base.screenshots)) * Assigned(MergeEntities(base.steps, c.steps, u.steps)))
    ensures Resolved(s, images)
  {
    var id := Key(s);
    assert Step(u, id).Some? && Field(s, "screenshotId") == (if Step(base, id).Some? then Field(Step(c, id).value, "screenshotId")
                                                             else Field(Step(u, id).value, "screenshotId"))
           && (Step(base, id).Some? ==> Step(c, id).Some?) by {
      MergedEntities(base.steps, c.steps, u.steps);
      LookupMember(MergeEntities(base.steps, c.steps, u.steps), s);
      MergedIds(base.steps, c.steps, u.steps);
      SameIds(Keyed(MergeEntities(base.steps, c.steps, u.steps)), Keyed(u.steps), id);
      MergedImageOf(base, c, u, id);
    }
    var shown := Field(s, "screenshotId");
    if shown.Some? {
      if Step(base, id).Some? {
        assert shown.value in KeySet(c.screenshots) by { GoodStep(c.steps, id); }
        assert Truthy(shown.value) by { ImageIdsTruthy(c.screenshots, shown.value); }
        assert shown.value in Assigned(MergeEntities(base.steps, c.steps, u.steps));
      } else {
        assert shown.value in KeySet(u.screenshots) by { GoodStep(u.steps, id); }
        assert KeySet(u.screenshots) == KeySet(base.screenshots) by { KeySetIds(base.screenshots); KeySetIds(u.screenshots); }
      }
    }
  }

  lemma ImageIdsTruthy(images: seq<Json>, id: Json)
    requires AllHaveIds(images) && id in KeySet(images)
    ensures Truthy(id)
  {
  }

  lemma {:induction false} ImagesKept(base: Doc, c: Doc, u: Doc, used: set<Json>)
    requires GoodDoc(base) && CandidateOf(base, c) && EditedFrom(base, u)
    ensures var kept := Referenced(MergeEntities(base.screenshots, c.screenshots, u.screenshots),
                                   KeySet(base.screenshots), KeySet(c.screenshots), used);
            && Entities(kept)
            && KeySet(kept) == KeySet(base.screenshots) + ((KeySet(c.screenshots) - KeySet(base.screenshots)) * used)
  {
    var images := MergeEntities(base.screenshots, c.screenshots, u.screenshots);
    KeySetIds(base.screenshots);
    KeySetIds(c.screenshots);
    forall e | e in Keyed(base.screenshots) ensures Lookup(Keyed(c.screenshots), e.id).Some? { }
    MergedEntities(base.screenshots, c.screenshots, u.screenshots);
    MergedImages(base.screenshots, c.screenshots, u.screenshots);
    KeySetIds(images);
    assert KeySet(images) == KeySet(c.screenshots);
    ReferencedEntities(images, KeySet(base.screenshots), KeySet(c.screenshots), used);
  }

  // Dropping images keeps the others as they are.
  lemma {:induction false} ReferencedKeeps(images: seq<Json>, base: set<Json>, candidate: set<Json>, used: set<Json>, other: Json)
    requires Entities(images)
    ensures var r := Referenced(images, base, candidate, used);
            && Entities(r)
            && Lookup(Keyed(r), other) == if other in base || other !in candidate || other in used then Lookup(Keyed(images), other) else None
    decreases |images|
  {
    if images == [] {
    } else {
      var rest := Referenced(images[1..], base, candidate, used);
      TailEntities(images, other);
      ReferencedKeeps(images[1..], base, candidate, used, other);
      ReferencedKeeps(images[1..], base, candidate, used, Key(images[0]));
      PrependEntity(images[0], rest, other);
    }
  }

  lemma {:induction false} ReferencedEntities(images: seq<Json>, base: set<Json>, candidate: set<Json>, used: set<Json>)
    requires Entities(images)
    ensures var r := Referenced(images, base, candidate, used);
            Entities(r) && KeySet(r) == (set k | k in KeySet(images) && (k in base || k !in candidate || k in used))
  {
    var r := Referenced(images, base, candidate, used);
    ReferencedKeeps(images, base, candidate, used, Null);
    KeySetIds(r);
    KeySetIds(images);
    forall k ensures k in KeySet(r) <==> k in KeySet(images) && (k in base || k !in candidate || k in used) {
      ReferencedKeeps(images, base, candidate, used, k);
    }
  }

  // The draft shown after a candidate was written is good again, whether or not the user edited
  // it meanwhile, and shows the steps the user sees.
  lemma PersistedDraft(base: Doc, c: Doc, u: Doc, t1: string, d1: string, t2: string, d2: string, n1: string, n2: string)
    requires GoodDoc(base) && CandidateOf(base, c) && EditedFrom(base, u)
    ensures var m := AfterPersist(base, c, u, t1, d1, t2, d2, n1, n2);
            && GoodDoc(m) && m.title == t2 && m.description == d2
            && m.updatedAt == (if u != base || t2 != t1 || d2 != d1 then n2 else n1)
            && Ids(Keyed(m.steps)) == Ids(Keyed(u.steps))
            && KeySet(base.screenshots) <= KeySet(m.screenshots) <= KeySet(c.screenshots)
            && KeySet(m.screenshots) - KeySet(base.screenshots) <= Assigned(m.steps)
  {
    var written := c.(title := t1, description := d1, updatedAt := n1);
    assert CandidateOf(base, written);
    if u != base || t2 != t1 || d2 != d1 { MergedDraft(base, written, u, t2, d2, n2); }
  }

  // ---------- the user's edits ----------

  // Everything EditedFrom asks except the numbering.
  ghost predicate EditedUnnumbered(base: Doc, u: Doc) {
    && Entities(u.steps) && Entities(u.screenshots)
    && (forall s | s in u.steps :: Resolved(s, KeySet(u.screenshots)) && SameImage(base, s))
    && Ids(Keyed(u.screenshots)) == Ids(Keyed(base.screenshots))
  }

  lemma EntitiesByIndex(s: seq<Json>)
    requires forall i | 0 <= i < |s| :: HasId(s[i]) && WfObject(s[i])
    requires forall i, j | 0 <= i < j < |s| :: Key(s[i]) != Key(s[j])
    ensures Entities(s)
  {
  }

  lemma KeysDiffer(s: seq<Json>, i: nat, j: nat)
    requires Entities(s) && i < j < |s|
    ensures Key(s[i]) != Key(s[j]) && HasId(s[i]) && HasId(s[j])
  {
    assert Keyed(s)[i].id != Keyed(s)[j].id;
  }

  // One step with a field other than the id and the image changed.
  predicate Touched(before: Json, after: Json, key: string, value: Json) {
    before.Obj? && after == Set(before, key, value) && key != "id" && key != "screenshotId"
  }

  lemma TouchedStep(before: Json, after: Json, key: string, value: Json)
    requires Touched(before, after, key, value) && HasId(before) && WfObject(before)
    ensures HasId(after) && WfObject(after) && Key(after) == Key(before)
    ensures Field(after, "screenshotId") == Field(before, "screenshotId") && Field(after, key) == Some(value)
  {
    SetWf(before, key, value);
  }

  lemma TouchKeeps(base: Doc, u: Doc, now: string)
    requires EditedUnnumbered(base, u)
    ensures EditedFrom(base, Touch(u, now)) && Ids(Keyed(Touch(u, now).steps)) == Ids(Keyed(u.steps))
  {
    var after := Touch(u, now).steps;
    forall i | 0 <= i < |after|
      ensures HasId(after[i]) && WfObject(after[i]) && Key(after[i]) == Key(u.steps[i])
      ensures Field(after[i], "order") == Some(Num((i + 1) as real))
      ensures Resolved(after[i], KeySet(u.screenshots)) && SameImage(base, after[i])
    {
      assert u.steps[i] in u.steps;
      TouchedStep(u.steps[i], after[i], "order", Num((i + 1) as real));
    }
    forall i, j | 0 <= i < j < |after| ensures Key(after[i]) != Key(after[j]) { KeysDiffer(u.steps, i, j); }
    EntitiesByIndex(after);
  }

  lemma InstructKeeps(base: Doc, u: Doc, at: nat, text: string)
    requires EditedUnnumbered(base, u) && at < |u.steps| && u.steps[at].Obj?
    ensures EditedUnnumbered(base, u.(steps := u.steps[at := Set(u.steps[at], "instruction", Str(text))]))
  {
    var after := u.steps[at := Set(u.steps[at], "instruction", Str(text))];
    assert u.steps[at] in u.steps;
    TouchedStep(u.steps[at], after[at], "instruction", Str(text));
    forall i | 0 <= i < |after|
      ensures HasId(after[i]) && WfObject(after[i]) && Key(after[i]) == Key(u.steps[i])
      ensures Resolved(after[i], KeySet(u.screenshots)) && SameImage(base, after[i])
    {
      assert u.steps[i] in u.steps;
    }
    forall i, j | 0 <= i < j < |after| ensures Key(after[i]) != Key(after[j]) { KeysDiffer(u.steps, i, j); }
    EntitiesByIndex(after);
  }

  lemma MoveKeeps(base: Doc, u: Doc, i: nat, j: nat)
    requires EditedUnnumbered(base, u) && i < |u.steps| && j < |u.steps|
    ensures EditedUnnumbered(base, u.(steps := Swapped(u.steps, i, j)))
  {
    var after := Swapped(u.steps, i, j);
    forall k | 0 <= k < |after| ensures after[k] in u.steps { }
    forall k, l | 0 <= k < l < |after| ensures Key(after[k]) != Key(after[l]) {
      var k' := if k == i then j else if k == j then i else k;
      var l' := if l == i then j else if l == j then i else l;
      if i != j { assert after[k] == u.steps[k'] && after[l] == u.steps[l']; }
      if k' < l' { KeysDiffer(u.steps, k', l'); } else if l' < k' { KeysDiffer(u.steps, l', k'); }
    }
    EntitiesByIndex(after);
  }

  lemma {:induction false} TailEntities(steps: seq<Json>, other: Json)
    requires Entities(steps) && steps != []
    ensures Entities(steps[1..]) && HasId(steps[0]) && WfObject(steps[0])
    ensures Lookup(Keyed(steps), other) == if other == Key(steps[0]) then Some(steps[0]) else Lookup(Keyed(steps[1..]), other)
    ensures Lookup(Keyed(steps[1..]), Key(steps[0])).None?
  {
    assert steps == [steps[0]] + steps[1..];
    assert Keyed(steps[1..]) == Keyed(steps)[1..];
    LookupCons(Keyed(steps), other);
  }

  // Deleting a step removes exactly that step.
  lemma {:induction false} RemainingKeeps(steps: seq<Json>, id: Json, other: Json)
    requires Entities(steps)
    ensures Entities(Remaining(steps, id))
    ensures Lookup(Keyed(Remaining(steps, id)), other) == if other == id then None else Lookup(Keyed(steps), other)
    decreases |steps|
  {
    if steps == [] {
    } else {
      TailEntities(steps, other);
      RemainingKeeps(steps[1..], id, other);
      RemainingKeeps(steps[1..], id, Key(steps[0]));
      if Key(steps[0]) != id { PrependEntity(steps[0], Remaining(steps[1..], id), other); }
      assert Remaining(steps, id) == if Key(steps[0]) == id then Remaining(steps[1..], id) else [steps[0]] + Remaining(steps[1..], id);
    }
  }

  lemma {:induction false} PrependEntity(j: Json, rest: seq<Json>, other: Json)
    requires HasId(j) && WfObject(j) && Entities(rest) && Lookup(Keyed(rest), Key(j)).None?
    ensures Entities([j] + rest)
    ensures Lookup(Keyed([j] + rest), other) == if other == Key(j) then Some(j) else Lookup(Keyed(rest), other)
  {
    LookupPrepend(EntryOf(j), Keyed(rest), other);
    assert Keyed([j] + rest) == [EntryOf(j)] + Keyed(rest);
  }

  lemma AddKeeps(base: Doc, u: Doc, id: string, text: string)
    requires EditedUnnumbered(base, u) && id != ""
    requires Lookup(Keyed(u.steps), Str(id)).None? && Step(base, Str(id)).None?
    ensures EditedUnnumbered(base, u.(steps := u.steps + [NewStep(u, id, text)]))
  {
    var step := NewStep(u, id, text);
    NewStepIs(u, id, text);
    var after := u.steps + [step];
    forall k | 0 <= k < |after|
      ensures HasId(after[k]) && WfObject(after[k]) && Resolved(after[k], KeySet(u.screenshots)) && SameImage(base, after[k])
    {
      if k < |u.steps| { assert u.steps[k] in u.steps; }
    }
    forall k, l | 0 <= k < l < |after| ensures Key(after[k]) != Key(after[l]) {
      if l < |u.steps| { KeysDiffer(u.steps, k, l); } else { assert Keyed(u.steps)[k] in Keyed(u.steps); }
    }
    EntitiesByIndex(after);
  }

  lemma NewStepIs(u: Doc, id: string, text: string)
    requires AllHaveIds(u.screenshots)
    ensures var step := NewStep(u, id, text);
            step.Obj? && WfObject(step) && Field(step, "id") == Some(Str(id)) && Resolved(step, KeySet(u.screenshots))
  {
    var plain := Obj(["id", "order", "instruction"],
    map["id" := Str(id), "order" := Num((|u.steps| + 1) as real), "instruction" := Str(Cut(text))]);
    assert Range(plain.keys) == {"id", "order", "instruction"};
    var image := FirstUnassigned(u.screenshots, Assigned(u.steps));
    if image.Some? {
      SetWf(plain, "screenshotId", image.value);
      var s :| s in u.screenshots && Field(s, "id") == image;
      assert Key(s) in KeySet(u.screenshots);
    }
  }

  // A new step's id is new (crypto.randomUUID).
  predicate NewIds(base: Doc, u: Doc, e: Edit) {
    e.Add? ==> e.newId != "" && Lookup(Keyed(u.steps), Str(e.newId)).None? && Step(base, Str(e.newId)).None?
  }

  lemma EditKeeps(base: Doc, u: Doc, e: Edit)
    requires EditedFrom(base, u) && NewIds(base, u, e)
    ensures EditedFrom(base, ApplyEdit(u, e))
  {
    match e
    case Add(id, text, at) =>
      AddKeeps(base, u, id, text);
      TouchKeeps(base, u.(steps := u.steps + [NewStep(u, id, text)]), at);
    case Instruct(id, text, at) =>
      var i := PositionOf(u.steps, id);
      if i.Some? {
        InstructKeeps(base, u, i.value, Cut(text));
        TouchKeeps(base, u.(steps := u.steps[i.value := Set(u.steps[i.value], "instruction", Str(Cut(text)))]), at);
      } else {
        TouchKeeps(base, u, at);
      }
    case Remove(id, at) =>
      RemainingKeeps(u.steps, id, id);
      TouchKeeps(base, u.(steps := Remaining(u.steps, id)), at);
    case Move(id, up, at) =>
      var i := PositionOf(u.steps, id);
      var target := MoveTarget(i, up);
      if i.Some? && 0 <= target < |u.steps| {
        MoveKeeps(base, u, i.value, target);
        TouchKeeps(base, u.(steps := Swapped(u.steps, i.value, target)), at);
      } else {
        TouchKeeps(base, u, at);
      }
  }

  predicate AllNewIds(base: Doc, u: Doc, edits: seq<Edit>)
    requires AllObjects(u.steps)
    decreases |edits|
  {
    edits == [] || (NewIds(base, u, edits[0]) && AllNewIds(base, ApplyEdit(u, edits[0]), edits[1..]))
  }

  lemma {:induction false} EditsKeep(base: Doc, u: Doc, edits: seq<Edit>)
    requires EditedFrom(base, u) && AllNewIds(base, u, edits)
    ensures EditedFrom(base, ApplyEdits(u, edits))
    decreases |edits|
  {
    if edits == [] {
    } else {
      EditKeeps(base, u, edits[0]);
      EditsKeep(base, ApplyEdit(u, edits[0]), edits[1..]);
    }
  }

  lemma SelfEdited(base: Doc)
    requires GoodDoc(base)
    ensures EditedFrom(base, base)
  {
    forall s | s in base.steps ensures SameImage(base, s) { LookupMember(base.steps, s); }
  }

  // ---------- the candidates ----------

  lemma UpdateEntity(s: seq<Json>, i: nat, j: Json)
    requires Entities(s) && i < |s| && HasId(j) && WfObject(j) && Key(j) == Key(s[i])
    ensures var r := s[i := j]; Entities(r) && Ids(Keyed(r)) == Ids(Keyed(s)) && KeySet(r) == KeySet(s)
  {
    var r := s[i := j];
    forall k | 0 <= k < |r| ensures HasId(r[k]) && WfObject(r[k]) && Key(r[k]) == Key(s[k]) { assert s[k] in s; }
    forall k, l | 0 <= k < l < |r| ensures Key(r[k]) != Key(r[l]) { KeysDiffer(s, k, l); }
    EntitiesByIndex(r);
    assert Ids(Keyed(r)) == Ids(Keyed(s));
    KeySetIds(r);
    KeySetIds(s);
  }

  lemma SetField(j: Json, key: string, value: Json)
    requires HasId(j) && WfObject(j) && key != "id"
    ensures var r := Set(j, key, value); HasId(r) && WfObject(r) && Key(r) == Key(j)
  {
    SetWf(j, key, value);
  }

  predicate FreshImage(j: Json, dataUrl: string) {
    Field(j, "dataUrl") == Some(Str(dataUrl)) && Field(j, "annotations") == Some(Arr([])) && Field(j, "masks") == Some(Arr([]))
  }

  lemma AnnotatedFields(image: Json, annotations: Json, masks: Json, key: string)
    requires HasId(image) && WfObject(image)
    ensures var r := Annotated(image, annotations, masks);
            && HasId(r) && WfObject(r) && Key(r) == Key(image)
            && Field(r, key) == if key == "annotations" then Some(annotations) else if key == "masks" then Some(masks) else Field(image, key)
  {
    SetField(image, "annotations", annotations);
    SetField(Set(image, "annotations", annotations), "masks", masks);
  }

  lemma ReplacedFields(image: Json, dataUrl: string)
    requires HasId(image) && WfObject(image)
    ensures var r := Replaced(image, dataUrl); HasId(r) && WfObject(r) && Key(r) == Key(image) && FreshImage(r, dataUrl)
  {
    SetField(image, "dataUrl", Str(dataUrl));
    AnnotatedFields(Set(image, "dataUrl", Str(dataUrl)), Arr([]), Arr([]), "dataUrl");
  }

  lemma AnnotateIsCandidate(base: Doc, screenshotId: Json, annotations: Json, masks: Json)
    requires GoodDoc(base)
    ensures var c := AnnotateCandidate(base, screenshotId, annotations, masks); c.Some? ==> CandidateOf(base, c.value)
  {
    var at := PositionOf(base.screenshots, screenshotId);
    if at.Some? {
      var image := base.screenshots[at.value];
      assert image in base.screenshots;
      AnnotatedFields(image, annotations, masks, "id");
      UpdateEntity(base.screenshots, at.value, Annotated(image, annotations, masks));
    }
  }

  lemma UploadIsCandidate(base: Doc, stepId: Json, dataUrl: string, newId: string)
    requires GoodDoc(base) && newId != "" && Str(newId) !in KeySet(base.screenshots)
    ensures var c := UploadCandidate(base, stepId, dataUrl, newId); c.Some? ==> CandidateOf(base, c.value)
  {
    var at := PositionOf(base.steps, stepId);
    if at.Some? {
      var step := base.steps[at.value];
      var shown := Field(step, "screenshotId");
      var target := if shown.Some? && Truthy(shown.value) then PositionOf(base.screenshots, shown.value) else None;
      if target.Some? && !SharedScreenshot(base.steps, stepId, shown.value) {
        var image := base.screenshots[target.value];
        assert image in base.screenshots;
        ReplacedFields(image, dataUrl);
        UpdateEntity(base.screenshots, target.value, Replaced(image, dataUrl));
      } else {
        AddImageIsCandidate(base, at.value, dataUrl, newId);
      }
    }
  }

  lemma AddImage(s: seq<Json>, newId: string, dataUrl: string)
    requires Entities(s) && newId != "" && Str(newId) !in KeySet(s)
    ensures var r := s + [NewImage(newId, dataUrl)]; Entities(r) && KeySet(r) == KeySet(s) + {Str(newId)}
  {
    var image := NewImage(newId, dataUrl);
    assert Range(image.keys) == {"id", "dataUrl", "annotations", "masks"};
    var r := s + [image];
    forall k, l | 0 <= k < l < |r| ensures Key(r[k]) != Key(r[l]) {
      if l < |s| { KeysDiffer(s, k, l); } else { assert s[k] in s; }
    }
    forall k | 0 <= k < |r| ensures HasId(r[k]) && WfObject(r[k]) { if k < |s| { assert s[k] in s; } }
    EntitiesByIndex(r);
    KeySetAppend(s, image);
  }

  // The step shows the new image; everything else about the steps stays.
  lemma ShowImage(steps: seq<Json>, at: nat, newId: string, images: set<Json>)
    requires Entities(steps) && newId != "" && at < |steps| && steps[at].Obj?
    requires forall s | s in steps :: Resolved(s, images)
    ensures var r := steps[at := Set(steps[at], "screenshotId", Str(newId))];
            && Entities(r) && Ids(Keyed(r)) == Ids(Keyed(steps))
            && (forall s | s in r :: Resolved(s, images + {Str(newId)})) && Str(newId) in Assigned(r)
  {
    var shown := Set(steps[at], "screenshotId", Str(newId));
    assert steps[at] in steps;
    SetField(steps[at], "screenshotId", Str(newId));
    UpdateEntity(steps, at, shown);
    var r := steps[at := shown];
    assert Str(newId) in Assigned(r) by { assert r[at] in r; }
    forall s | s in r ensures Resolved(s, images + {Str(newId)}) { if s != shown { assert s in steps; } }
  }

  lemma ShowKeepsNumbers(steps: seq<Json>, at: nat, image: Json)
    requires Numbered(steps) && at < |steps| && steps[at].Obj?
    ensures Numbered(steps[at := Set(steps[at], "screenshotId", image)])
  {
    var r := steps[at := Set(steps[at], "screenshotId", image)];
    forall i | 0 <= i < |r| ensures Field(r[i], "order") == Some(Num((i + 1) as real)) {
      assert Field(steps[i], "order") == Some(Num((i + 1) as real));
    }
  }

  lemma AddImageIsCandidate(base: Doc, at: nat, dataUrl: string, newId: string)
    requires GoodDoc(base) && newId != "" && Str(newId) !in KeySet(base.screenshots) && at < |base.steps| && base.steps[at].Obj?
    ensures CandidateOf(base, base.(steps := base.steps[at := Set(base.steps[at], "screenshotId", Str(newId))],
                                    screenshots := base.screenshots + [NewImage(newId, dataUrl)]))
  {
    AddImage(base.screenshots, newId, dataUrl);
    ShowImage(base.steps, at, newId, KeySet(base.screenshots));
    ShowKeepsNumbers(base.steps, at, Str(newId));
  }

  lemma KeySetAppend(s: seq<Json>, j: Json)
    ensures KeySet(s + [j]) == KeySet(s) + {Key(j)}
  {
    assert forall x :: x in s + [j] <==> x in s || x == j;
  }
}
