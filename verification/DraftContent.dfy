/**
 What is in the draft after a candidate was written while the user went on editing: the texts of its steps,
 the image each of them shows, and what those images contain.
 */
module DraftContent {
  import opened Basics
  import opened Json
  import opened EntityLists
  import opened DraftMerge
  import opened DraftMergeLaws
  import opened DraftEdits
  import opened DraftEditsLaws

  function Image(d: Doc, id: Json): Option<Json> { Lookup(Keyed(d.screenshots), id) }

  function StepField(d: Doc, id: Json, key: string): Option<Json> {
    if Step(d, id).Some? then Field(Step(d, id).value, key) else None
  }

  function ImageField(d: Doc, id: Json, key: string): Option<Json> {
    if Image(d, id).Some? then Field(Image(d, id).value, key) else None
  }

  // The candidate changes nothing of the steps but the image they show.
  ghost predicate OnlyImages(base: Doc, c: Doc) {
    forall id, key | Step(base, id).Some? && key != "screenshotId" :: StepField(c, id, key) == StepField(base, id, key)
  }

  // ---------- any candidate, any concurrent draft ----------

  // A field the user changed to a plain value keeps it in the merged draft, whatever the candidate did to it.
  lemma UserEditWins(base: Doc, c: Doc, u: Doc, t: string, d: string, now: string, id: Json, key: string)
    requires GoodDoc(base) && CandidateOf(base, c) && EditedFrom(base, u) && Step(u, id).Some?
    requires var mine := StepField(u, id, key); mine != StepField(base, id, key) && (mine.Some? ==> !mine.value.Arr? && !mine.value.Obj?)
    ensures StepField(MergePending(base, c, u, t, d, now), id, key) == StepField(u, id, key)
  {
    MergedField(base, c, u, id, key);
    SameIds(Keyed(base.steps), Keyed(c.steps), id);
    if Step(base, id).Some? { PlainValueStays(StepField(base, id, key), StepField(c, id, key), StepField(u, id, key)); }
  }

  lemma PlainValueStays(base: Option<Json>, candidate: Option<Json>, current: Option<Json>)
    requires current != base && (current.Some? ==> !current.value.Arr? && !current.value.Obj?)
    ensures FieldRule(base, candidate, current) == current
  {
  }

  // Each field of an image of the base follows the rule for its three versions.
  lemma MergedImage(base: Doc, c: Doc, u: Doc, t: string, d: string, now: string, id: Json, key: string)
    requires GoodDoc(base) && CandidateOf(base, c) && EditedFrom(base, u) && Image(base, id).Some?
    ensures var m := MergePending(base, c, u, t, d, now);
            Image(m, id).Some? && ImageField(m, id, key) == FieldRule(ImageField(base, id, key), ImageField(c, id, key), ImageField(u, id, key))
  {
    var images := MergeEntities(base.screenshots, c.screenshots, u.screenshots);
    MergedEntities(base.screenshots, c.screenshots, u.screenshots);
    MergeLists(base.screenshots, c.screenshots, u.screenshots, id);
    SameIds(Keyed(u.screenshots), Keyed(base.screenshots), id);
    KeySetIds(base.screenshots);
    KeySetIds(c.screenshots);
    GoodStep(base.screenshots, id);
    GoodStep(c.screenshots, id);
    GoodStep(u.screenshots, id);
    MergeObjects(Image(base, id).value, Image(c, id).value, Image(u, id).value, key);
    ReferencedKeeps(images, KeySet(base.screenshots), KeySet(c.screenshots), Assigned(MergeEntities(base.steps, c.steps, u.steps)), id);
  }

  // An image that only the candidate brought is there as it brought it, exactly while some step shows it.
  lemma MergedNewImage(base: Doc, c: Doc, u: Doc, t: string, d: string, now: string, id: Json)
    requires GoodDoc(base) && CandidateOf(base, c) && EditedFrom(base, u) && Image(base, id).None? && Image(c, id).Some?
    ensures var m := MergePending(base, c, u, t, d, now); Image(m, id) == if id in Assigned(m.steps) then Image(c, id) else None
  {
    var images := MergeEntities(base.screenshots, c.screenshots, u.screenshots);
    MergedEntities(base.screenshots, c.screenshots, u.screenshots);
    MergeLists(base.screenshots, c.screenshots, u.screenshots, id);
    SameIds(Keyed(u.screenshots), Keyed(base.screenshots), id);
    KeySetIds(base.screenshots);
    KeySetIds(c.screenshots);
    ReferencedKeeps(images, KeySet(base.screenshots), KeySet(c.screenshots), Assigned(MergeEntities(base.steps, c.steps, u.steps)), id);
  }

  // ---------- once the candidate is written ----------

  // Each step the user still has keeps every text of the user's; its image is the candidate's choice when the
  // step was there before.
  lemma PersistedStep(base: Doc, c: Doc, u: Doc, t1: string, d1: string, t2: string, d2: string, n1: string, n2: string, id: Json, key: string)
    requires GoodDoc(base) && CandidateOf(base, c) && EditedFrom(base, u) && OnlyImages(base, c) && Step(u, id).Some?
    ensures var m := AfterPersist(base, c, u, t1, d1, t2, d2, n1, n2);
            && Step(m, id).Some?
            && StepField(m, id, key) == if key == "screenshotId" && Step(base, id).Some? then StepField(c, id, key) else StepField(u, id, key)
  {
    SameIds(Keyed(base.steps), Keyed(c.steps), id);
    if u != base || t2 != t1 || d2 != d1 {
      MergedField(base, c, u, id, key);
      MergedImageOf(base, c, u, id);
      if Step(base, id).Some? { CandidateLeftField(StepField(base, id, key), StepField(u, id, key)); }
    }
  }

  lemma CandidateLeftField(x: Option<Json>, y: Option<Json>)
    ensures FieldRule(x, x, y) == y
  {
  }

  // Each image of the base carries the candidate's change, unless the user changed it too.
  lemma PersistedImage(base: Doc, c: Doc, u: Doc, t1: string, d1: string, t2: string, d2: string, n1: string, n2: string, id: Json, key: string)
    requires GoodDoc(base) && CandidateOf(base, c) && EditedFrom(base, u) && Image(base, id).Some?
    ensures var m := AfterPersist(base, c, u, t1, d1, t2, d2, n1, n2);
            Image(m, id).Some? && ImageField(m, id, key) == FieldRule(ImageField(base, id, key), ImageField(c, id, key), ImageField(u, id, key))
  {
    if u != base || t2 != t1 || d2 != d1 {
      MergedImage(base, c.(title := t1, description := d1, updatedAt := n1), u, t2, d2, n2, id, key);
    } else {
      KeySetIds(base.screenshots);
      KeySetIds(c.screenshots);
      UserLeftField(ImageField(base, id, key), ImageField(c, id, key));
    }
  }

  lemma ImageTaken(base: Doc, c: Doc, u: Doc, t1: string, d1: string, t2: string, d2: string, n1: string, n2: string, id: Json, key: string)
    requires GoodDoc(base) && CandidateOf(base, c) && EditedFrom(base, u) && Image(base, id).Some? && u.screenshots == base.screenshots
    ensures var m := AfterPersist(base, c, u, t1, d1, t2, d2, n1, n2); Image(m, id).Some? && ImageField(m, id, key) == ImageField(c, id, key)
  {
    PersistedImage(base, c, u, t1, d1, t2, d2, n1, n2, id, key);
    UserLeftField(ImageField(base, id, key), ImageField(c, id, key));
  }

  // An image that only the candidate brought is there exactly while some step shows it.
  lemma PersistedNewImage(base: Doc, c: Doc, u: Doc, t1: string, d1: string, t2: string, d2: string, n1: string, n2: string, id: Json)
    requires GoodDoc(base) && CandidateOf(base, c) && EditedFrom(base, u) && Image(base, id).None? && Image(c, id).Some?
    ensures var m := AfterPersist(base, c, u, t1, d1, t2, d2, n1, n2);
            Image(m, id) == if id in Assigned(m.steps) then Image(c, id) else None
  {
    if u != base || t2 != t1 || d2 != d1 {
      MergedNewImage(base, c.(title := t1, description := d1, updatedAt := n1), u, t2, d2, n2, id);
    } else {
      KeySetIds(base.screenshots);
      KeySetIds(c.screenshots);
    }
  }

  // ---------- the editor's own candidates ----------

  lemma {:induction false} EditsLeaveImages(u: Doc, edits: seq<Edit>)
    requires AllObjects(u.steps)
    ensures ApplyEdits(u, edits).screenshots == u.screenshots
    decreases |edits|
  {
    if edits == [] {
    } else {
      EditsLeaveImages(ApplyEdit(u, edits[0]), edits[1..]);
    }
  }

  // Changing an entity in place changes the look-up of its id alone.
  lemma UpdateLookup(s: seq<Json>, i: nat, j: Json, id: Json)
    requires Entities(s) && i < |s| && HasId(j) && WfObject(j) && Key(j) == Key(s[i])
    ensures Lookup(Keyed(s[i := j]), id) == if id == Key(j) then Some(j) else Lookup(Keyed(s), id)
  {
    var r := s[i := j];
    UpdateEntity(s, i, j);
    SameIds(Keyed(s), Keyed(r), id);
    if id == Key(j) {
      LookupIs(Keyed(r), Keyed(r)[i]);
    } else if Lookup(Keyed(s), id).Some? {
      var k := Index(Keyed(s), id).value;
      assert k != i && Keyed(r)[k] == EntryOf(s[k]) == Keyed(s)[k];
      LookupIs(Keyed(r), Keyed(r)[k]);
    }
  }

  lemma {:induction false} AppendLookup(s: seq<Json>, j: Json, id: Json)
    requires Entities(s) && Entities(s + [j])
    ensures Lookup(Keyed(s + [j]), id) == if id == Key(j) then Some(j) else Lookup(Keyed(s), id)
  {
    var r := s + [j];
    assert Keyed(r) == Keyed(s) + [EntryOf(j)];
    LookupIs(Keyed(r), EntryOf(j));
    if id != Key(j) && Lookup(Keyed(s), id).Some? { LookupIs(Keyed(r), Entry(id, Lookup(Keyed(s), id).value)); }
  }

  // Editing annotations and masks while the user edits the steps: the image ends up with the new annotations and
  // masks and is otherwise as before, every other image is as before, and the steps are the user's.
  lemma {:induction false} AnnotatedWhileEditing(base: Doc, edits: seq<Edit>, imageId: Json, annotations: Json, masks: Json,
                              t1: string, d1: string, t2: string, d2: string, n1: string, n2: string, id: Json, key: string)
    requires GoodDoc(base) && AllNewIds(base, base, edits)
    requires AnnotateCandidate(base, imageId, annotations, masks).Some?
    ensures var c := AnnotateCandidate(base, imageId, annotations, masks).value; var u := ApplyEdits(base, edits);
            var m := AfterPersist(base, c, u, t1, d1, t2, d2, n1, n2);
            && (Step(u, id).Some? ==> Step(m, id).Some? && StepField(m, id, key) == StepField(u, id, key))
            && Image(m, imageId).Some? && (Image(base, id).Some? ==> Image(m, id).Some?)
            && (Image(base, id).Some? ==> ImageField(m, id, key) == if id == imageId && key == "annotations" then Some(annotations)
                                          else if id == imageId && key == "masks" then Some(masks) else ImageField(base, id, key))
  {
    var c := AnnotateCandidate(base, imageId, annotations, masks).value;
    var u := ApplyEdits(base, edits);
    AnnotateIsCandidate(base, imageId, annotations, masks);
    SelfEdited(base);
    EditsKeep(base, base, edits);
    EditsLeaveImages(base, edits);
    AnnotatedImage(base, imageId, annotations, masks, id, key);
    AnnotatedImage(base, imageId, annotations, masks, imageId, key);
    ImageTaken(base, c, u, t1, d1, t2, d2, n1, n2, imageId, key);
    if Image(base, id).Some? {
      ImageTaken(base, c, u, t1, d1, t2, d2, n1, n2, id, key);
    }
    if Step(u, id).Some? { AnnotatedSteps(base, c, u, t1, d1, t2, d2, n1, n2, id, key); }
  }

  lemma AnnotatedImage(base: Doc, imageId: Json, annotations: Json, masks: Json, id: Json, key: string)
    requires GoodDoc(base) && AnnotateCandidate(base, imageId, annotations, masks).Some?
    ensures var c := AnnotateCandidate(base, imageId, annotations, masks).value;
            && Image(base, imageId).Some? && (Image(c, id).Some? <==> Image(base, id).Some?)
            && (Image(base, id).Some? ==> ImageField(c, id, key) == if id == imageId && key == "annotations" then Some(annotations)
                                          else if id == imageId && key == "masks" then Some(masks) else ImageField(base, id, key))
  {
    var at := PositionOf(base.screenshots, imageId).value;
    var image := base.screenshots[at];
    assert image in base.screenshots;
    LookupMember(base.screenshots, image);
    AnnotatedFields(image, annotations, masks, key);
    UpdateLookup(base.screenshots, at, Annotated(image, annotations, masks), id);
  }

  lemma AnnotatedSteps(base: Doc, c: Doc, u: Doc, t1: string, d1: string, t2: string, d2: string, n1: string, n2: string, id: Json, key: string)
    requires GoodDoc(base) && CandidateOf(base, c) && EditedFrom(base, u) && c.steps == base.steps && Step(u, id).Some?
    ensures var m := AfterPersist(base, c, u, t1, d1, t2, d2, n1, n2); Step(m, id).Some? && StepField(m, id, key) == StepField(u, id, key)
  {
    PersistedStep(base, c, u, t1, d1, t2, d2, n1, n2, id, key);
    if Step(base, id).Some? { GoodStep(u.steps, id); }
  }

  // ---------- uploads ----------

  // The image the step shows in the candidate is the uploaded one, without annotations and masks; no other image
  // and no text is different.
  ghost predicate Uploaded(base: Doc, c: Doc, stepId: Json, dataUrl: string, imageId: Json) {
    && StepField(c, stepId, "screenshotId") == Some(imageId) && OnlyImages(base, c)
    && Image(c, imageId).Some? && FreshImage(Image(c, imageId).value, dataUrl)
    && (forall id | Image(base, id).Some? && id != imageId :: Image(c, id) == Image(base, id))
    && (forall id | Step(base, id).Some? && id != stepId :: StepField(c, id, "screenshotId") == StepField(base, id, "screenshotId"))
  }

  // The image an upload goes to: the step's own, or a new one when it has none or another step shows it too.
  function UploadTarget(base: Doc, stepId: Json, newId: string): Json {
    var own := StepField(base, stepId, "screenshotId");
    if own.Some? && !SharedScreenshot(base.steps, stepId, own.value) then own.value else Str(newId)
  }

  lemma UploadIs(base: Doc, stepId: Json, dataUrl: string, newId: string)
    requires GoodDoc(base) && newId != "" && Str(newId) !in KeySet(base.screenshots) && UploadCandidate(base, stepId, dataUrl, newId).Some?
    ensures Uploaded(base, UploadCandidate(base, stepId, dataUrl, newId).value, stepId, dataUrl, UploadTarget(base, stepId, newId))
    ensures Step(base, stepId).Some?
  {
    var at := PositionOf(base.steps, stepId).value;
    TargetIs(base, stepId, newId, at);
    var shown := Field(base.steps[at], "screenshotId");
    if shown.Some? && !SharedScreenshot(base.steps, stepId, shown.value) {
      var target := PositionOf(base.screenshots, shown.value).value;
      ReplacedIs(base, stepId, dataUrl, at, target, shown.value);
    } else {
      AddedIs(base, UploadCandidate(base, stepId, dataUrl, newId).value, stepId, dataUrl, at, newId);
    }
  }

  lemma {:induction false} TargetIs(base: Doc, stepId: Json, newId: string, at: nat)
    requires GoodDoc(base) && PositionOf(base.steps, stepId) == Some(at)
    ensures Step(base, stepId) == Some(base.steps[at])
    ensures var shown := Field(base.steps[at], "screenshotId");
            && (shown.Some? ==> Truthy(shown.value) && PositionOf(base.screenshots, shown.value).Some?)
            && UploadTarget(base, stepId, newId) == if shown.Some? && !SharedScreenshot(base.steps, stepId, shown.value) then shown.value else Str(newId)
  {
    LookupMember(base.steps, base.steps[at]);
    if Field(base.steps[at], "screenshotId").Some? { ShownIsFound(base, base.steps[at]); }
  }

  // The image a step shows is among the images of the draft.
  lemma ShownIsFound(d: Doc, step: Json)
    requires GoodDoc(d) && step in d.steps && Field(step, "screenshotId").Some?
    ensures var shown := Field(step, "screenshotId").value; Truthy(shown) && PositionOf(d.screenshots, shown).Some?
  {
    var image :| image in d.screenshots && Key(image) == Field(step, "screenshotId").value;
    PositionFound(d.screenshots, image);
  }

  lemma {:induction false} PositionFound(s: seq<Json>, j: Json)
    requires AllHaveIds(s) && j in s
    ensures PositionOf(s, Key(j)).Some?
  {
    if Field(s[0], "id") == Some(Key(j)) {
    } else {
      PositionFound(s[1..], j);
    }
  }

  // The candidate holds this step and this image, and everything else of the base.
  ghost predicate Changed(base: Doc, c: Doc, stepId: Json, step: Json, imageId: Json, image: Json) {
    && (forall id :: Step(c, id) == if id == stepId then Some(step) else Step(base, id))
    && (forall id :: Image(c, id) == if id == imageId then Some(image) else Image(base, id))
  }

  ghost predicate SameTexts(before: Json, after: Json) {
    forall key | key != "screenshotId" :: Field(after, key) == Field(before, key)
  }

  lemma ShowKeepsTexts(step: Json, image: Json)
    requires step.Obj?
    ensures SameTexts(step, Set(step, "screenshotId", image)) && Field(Set(step, "screenshotId", image), "screenshotId") == Some(image)
  {
  }

  lemma ChangedIs(base: Doc, c: Doc, stepId: Json, step: Json, imageId: Json, image: Json, dataUrl: string)
    requires Changed(base, c, stepId, step, imageId, image) && Step(base, stepId).Some? && FreshImage(image, dataUrl)
    requires SameTexts(Step(base, stepId).value, step)
    requires Field(step, "screenshotId") == Some(imageId)
    ensures Uploaded(base, c, stepId, dataUrl, imageId)
  {
    forall id, key | Step(base, id).Some? && key != "screenshotId" ensures StepField(c, id, key) == StepField(base, id, key) { }
  }

  lemma ReplacedIs(base: Doc, stepId: Json, dataUrl: string, at: nat, target: nat, imageId: Json)
    requires GoodDoc(base) && at < |base.steps| && Field(base.steps[at], "id") == Some(stepId)
    requires target < |base.screenshots| && Field(base.screenshots[target], "id") == Some(imageId) && base.screenshots[target].Obj?
    requires Field(base.steps[at], "screenshotId") == Some(imageId)
    ensures Uploaded(base, base.(screenshots := base.screenshots[target := Replaced(base.screenshots[target], dataUrl)]), stepId, dataUrl, imageId)
  {
    var image := base.screenshots[target];
    var c := base.(screenshots := base.screenshots[target := Replaced(image, dataUrl)]);
    LookupMember(base.steps, base.steps[at]);
    ReplacedFields(image, dataUrl) by { assert image in base.screenshots; }
    forall id ensures Image(c, id) == if id == imageId then Some(Replaced(image, dataUrl)) else Image(base, id) {
      UpdateLookup(base.screenshots, target, Replaced(image, dataUrl), id);
    }
    ChangedIs(base, c, stepId, base.steps[at], imageId, Replaced(image, dataUrl), dataUrl);
  }

  lemma AddedIs(base: Doc, c: Doc, stepId: Json, dataUrl: string, at: nat, newId: string)
    requires GoodDoc(base) && newId != "" && Str(newId) !in KeySet(base.screenshots)
    requires at < |base.steps| && Field(base.steps[at], "id") == Some(stepId) && base.steps[at].Obj?
    requires c.steps == base.steps[at := Set(base.steps[at], "screenshotId", Str(newId))]
    requires c.screenshots == base.screenshots + [NewImage(newId, dataUrl)]
    ensures Uploaded(base, c, stepId, dataUrl, Str(newId))
  {
    var step := Set(base.steps[at], "screenshotId", Str(newId));
    assert base.steps[at] in base.steps && Key(base.steps[at]) == stepId;
    LookupMember(base.steps, base.steps[at]);
    NewImageIsFresh(newId, dataUrl);
    AddedChanges(base, c, stepId, dataUrl, at, newId);
    ShowKeepsTexts(base.steps[at], Str(newId));
    ChangedIs(base, c, stepId, step, Str(newId), NewImage(newId, dataUrl), dataUrl);
  }

  lemma NewImageIsFresh(newId: string, dataUrl: string)
    ensures FreshImage(NewImage(newId, dataUrl), dataUrl)
  {
  }

  lemma AddedChanges(base: Doc, c: Doc, stepId: Json, dataUrl: string, at: nat, newId: string)
    requires GoodDoc(base) && newId != "" && Str(newId) !in KeySet(base.screenshots)
    requires at < |base.steps| && Field(base.steps[at], "id") == Some(stepId) && base.steps[at].Obj?
    requires c.steps == base.steps[at := Set(base.steps[at], "screenshotId", Str(newId))]
    requires c.screenshots == base.screenshots + [NewImage(newId, dataUrl)]
    ensures Changed(base, c, stepId, Set(base.steps[at], "screenshotId", Str(newId)), Str(newId), NewImage(newId, dataUrl))
  {
    forall id ensures Step(c, id) == if id == stepId then Some(Set(base.steps[at], "screenshotId", Str(newId))) else Step(base, id) {
      AddedStep(base.steps, at, stepId, newId, id);
    }
    forall id ensures Image(c, id) == if id == Str(newId) then Some(NewImage(newId, dataUrl)) else Image(base, id) {
      AddedImage(base.screenshots, newId, dataUrl, id);
    }
  }

  lemma AddedStep(steps: seq<Json>, at: nat, stepId: Json, newId: string, id: Json)
    requires Entities(steps) && at < |steps| && Field(steps[at], "id") == Some(stepId) && steps[at].Obj?
    ensures var step := Set(steps[at], "screenshotId", Str(newId));
            Lookup(Keyed(steps[at := step]), id) == if id == stepId then Some(step) else Lookup(Keyed(steps), id)
  {
    var step := Set(steps[at], "screenshotId", Str(newId));
    SetField(steps[at], "screenshotId", Str(newId)) by { assert steps[at] in steps; }
    UpdateLookup(steps, at, step, id);
  }

  lemma {:induction false} AddedImage(images: seq<Json>, newId: string, dataUrl: string, id: Json)
    requires Entities(images) && newId != "" && Str(newId) !in KeySet(images)
    ensures var image := NewImage(newId, dataUrl);
            Lookup(Keyed(images + [image]), id) == if id == Str(newId) then Some(image) else Lookup(Keyed(images), id)
  {
    AddImage(images, newId, dataUrl);
    AppendLookup(images, NewImage(newId, dataUrl), id);
  }

  // Uploading an image while the user edits the steps: as long as the user keeps the step it shows the uploaded
  // image, and every text and every other image is as the user sees it. Without the step an image of its own is
  // replaced all the same, and a new one is not left over.
  lemma {:induction false} UploadedWhileEditing(base: Doc, edits: seq<Edit>, stepId: Json, dataUrl: string, newId: string,
                             t1: string, d1: string, t2: string, d2: string, n1: string, n2: string, id: Json, key: string)
    requires GoodDoc(base) && AllNewIds(base, base, edits) && newId != "" && Str(newId) !in KeySet(base.screenshots)
    requires UploadCandidate(base, stepId, dataUrl, newId).Some?
    ensures var c := UploadCandidate(base, stepId, dataUrl, newId).value; var u := ApplyEdits(base, edits);
            var m := AfterPersist(base, c, u, t1, d1, t2, d2, n1, n2); var imageId := UploadTarget(base, stepId, newId);
            && (Step(u, stepId).Some? ==> StepField(m, stepId, "screenshotId") == Some(imageId))
            && (Step(u, stepId).Some? || Image(base, imageId).Some? ==> Image(m, imageId).Some? && FreshImage(Image(m, imageId).value, dataUrl))
            && (Step(u, stepId).None? && Image(base, imageId).None? ==> Image(m, imageId).None?)
            && (Step(u, id).Some? && (id != stepId || key != "screenshotId") ==>
                  Step(m, id).Some? && StepField(m, id, key) == StepField(u, id, key))
            && (Image(base, id).Some? && id != imageId ==> Image(m, id).Some? && ImageField(m, id, key) == ImageField(base, id, key))
  {
    var c := UploadCandidate(base, stepId, dataUrl, newId).value;
    var u := ApplyEdits(base, edits);
    UploadIsCandidate(base, stepId, dataUrl, newId);
    SelfEdited(base);
    EditsKeep(base, base, edits);
    EditsLeaveImages(base, edits);
    var imageId := UploadTarget(base, stepId, newId);
    UploadIs(base, stepId, dataUrl, newId);
    if Step(u, stepId).Some? { UploadShown(base, c, u, t1, d1, t2, d2, n1, n2, stepId, dataUrl, imageId); }
    else if Image(base, imageId).Some? { PersistedFresh(base, c, u, t1, d1, t2, d2, n1, n2, imageId, dataUrl); }
    else { UploadUnshown(base, c, u, t1, d1, t2, d2, n1, n2, stepId, dataUrl, imageId); }
    if Step(u, id).Some? { UploadLeavesStep(base, c, u, t1, d1, t2, d2, n1, n2, stepId, dataUrl, imageId, id, key); }
    if Image(base, id).Some? && id != imageId {
      ImageTaken(base, c, u, t1, d1, t2, d2, n1, n2, id, key);
      assert Image(c, id) == Image(base, id);
    }
  }

  lemma UploadLeavesStep(base: Doc, c: Doc, u: Doc, t1: string, d1: string, t2: string, d2: string, n1: string, n2: string,
                         stepId: Json, dataUrl: string, imageId: Json, id: Json, key: string)
    requires GoodDoc(base) && CandidateOf(base, c) && EditedFrom(base, u) && Uploaded(base, c, stepId, dataUrl, imageId) && Step(u, id).Some?
    ensures var m := AfterPersist(base, c, u, t1, d1, t2, d2, n1, n2);
            Step(m, id).Some? && (id != stepId || key != "screenshotId" ==> StepField(m, id, key) == StepField(u, id, key))
  {
    PersistedStep(base, c, u, t1, d1, t2, d2, n1, n2, id, key);
    if Step(base, id).Some? { GoodStep(u.steps, id); }
  }

  lemma UploadShown(base: Doc, c: Doc, u: Doc, t1: string, d1: string, t2: string, d2: string, n1: string, n2: string,
                    stepId: Json, dataUrl: string, imageId: Json)
    requires GoodDoc(base) && CandidateOf(base, c) && EditedFrom(base, u) && u.screenshots == base.screenshots
    requires Uploaded(base, c, stepId, dataUrl, imageId) && Step(u, stepId).Some? && Step(base, stepId).Some?
    ensures var m := AfterPersist(base, c, u, t1, d1, t2, d2, n1, n2);
            && StepField(m, stepId, "screenshotId") == Some(imageId)
            && Image(m, imageId).Some? && FreshImage(Image(m, imageId).value, dataUrl)
  {
    var m := AfterPersist(base, c, u, t1, d1, t2, d2, n1, n2);
    PersistedStep(base, c, u, t1, d1, t2, d2, n1, n2, stepId, "screenshotId");
    if Image(base, imageId).Some? {
      PersistedFresh(base, c, u, t1, d1, t2, d2, n1, n2, imageId, dataUrl);
    } else {
      PersistedNewImage(base, c, u, t1, d1, t2, d2, n1, n2, imageId);
      PersistedDraft(base, c, u, t1, d1, t2, d2, n1, n2);
      ShownIsAssigned(m, c, stepId, imageId);
    }
  }

  lemma UploadUnshown(base: Doc, c: Doc, u: Doc, t1: string, d1: string, t2: string, d2: string, n1: string, n2: string,
                      stepId: Json, dataUrl: string, imageId: Json)
    requires GoodDoc(base) && CandidateOf(base, c) && EditedFrom(base, u) && u.screenshots == base.screenshots
    requires Uploaded(base, c, stepId, dataUrl, imageId) && Step(u, stepId).None? && Image(base, imageId).None?
    ensures Image(AfterPersist(base, c, u, t1, d1, t2, d2, n1, n2), imageId).None?
  {
    var m := AfterPersist(base, c, u, t1, d1, t2, d2, n1, n2);
    PersistedDraft(base, c, u, t1, d1, t2, d2, n1, n2);
    PersistedNewImage(base, c, u, t1, d1, t2, d2, n1, n2, imageId);
    KeySetIds(base.screenshots);
    forall s | s in m.steps ensures Field(s, "screenshotId") != Some(imageId) {
      var id := Key(s);
      LookupMember(m.steps, s);
      SameIds(Keyed(m.steps), Keyed(u.steps), id);
      PersistedStep(base, c, u, t1, d1, t2, d2, n1, n2, id, "screenshotId");
      if Step(base, id).Some? { GoodStep(base.steps, id); } else { GoodStep(u.steps, id); }
    }
  }

  lemma ShownIsAssigned(m: Doc, c: Doc, stepId: Json, imageId: Json)
    requires Entities(m.steps) && StepField(m, stepId, "screenshotId") == Some(imageId) && Entities(c.screenshots) && Image(c, imageId).Some?
    ensures imageId in Assigned(m.steps)
  {
    GoodStep(m.steps, stepId);
    GoodStep(c.screenshots, imageId);
  }

  lemma PersistedFresh(base: Doc, c: Doc, u: Doc, t1: string, d1: string, t2: string, d2: string, n1: string, n2: string, imageId: Json, dataUrl: string)
    requires GoodDoc(base) && CandidateOf(base, c) && EditedFrom(base, u) && u.screenshots == base.screenshots
    requires Image(base, imageId).Some? && Image(c, imageId).Some? && FreshImage(Image(c, imageId).value, dataUrl)
    ensures var m := AfterPersist(base, c, u, t1, d1, t2, d2, n1, n2); Image(m, imageId).Some? && FreshImage(Image(m, imageId).value, dataUrl)
  {
    ImageTaken(base, c, u, t1, d1, t2, d2, n1, n2, imageId, "dataUrl");
    ImageTaken(base, c, u, t1, d1, t2, d2, n1, n2, imageId, "annotations");
    ImageTaken(base, c, u, t1, d1, t2, d2, n1, n2, imageId, "masks");
  }

  // ---------- both together ----------

  // From any good draft, for either kind of candidate and any edits made while it was written: the user's steps in
  // the user's order, numbered, every image resolved and none left over, under the user's title and description.
  lemma {:induction false} ConcurrentEditing(base: Doc, c: Doc, edits: seq<Edit>, t1: string, d1: string, t2: string, d2: string, n1: string, n2: string)
    requires GoodDoc(base) && AllNewIds(base, base, edits)
    requires (exists id, annotations, masks :: AnnotateCandidate(base, id, annotations, masks) == Some(c))
             || (exists id, dataUrl, newId :: newId != "" && Str(newId) !in KeySet(base.screenshots)
                                              && UploadCandidate(base, id, dataUrl, newId) == Some(c))
    ensures var u := ApplyEdits(base, edits); var m := AfterPersist(base, c, u, t1, d1, t2, d2, n1, n2);
            && Ids(Keyed(m.steps)) == Ids(Keyed(u.steps)) && Numbered(m.steps) && m.title == t2 && m.description == d2
            && (forall s | s in m.steps :: Resolved(s, KeySet(m.screenshots)))
            && KeySet(m.screenshots) - KeySet(base.screenshots) <= Assigned(m.steps)
            && KeySet(base.screenshots) <= KeySet(m.screenshots)
  {
    if id, annotations, masks :| AnnotateCandidate(base, id, annotations, masks) == Some(c) {
      AnnotateIsCandidate(base, id, annotations, masks);
    } else {
      var id, dataUrl, newId :| newId != "" && Str(newId) !in KeySet(base.screenshots) && UploadCandidate(base, id, dataUrl, newId) == Some(c);
      UploadIsCandidate(base, id, dataUrl, newId);
    }
    SelfEdited(base);
    EditsKeep(base, base, edits);
    PersistedDraft(base, c, ApplyEdits(base, edits), t1, d1, t2, d2, n1, n2);
  }
}
