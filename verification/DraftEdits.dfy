/**
 The draft the user edits (apps/extension/editor/draft-model.js:1-41), the candidates the
 editor writes beside it, and the merge of the two (apps/extension/editor/editor.js:142-203,399-409).
 */
module DraftEdits {
  import opened Basics
  import opened Json
  import opened EntityLists
  import opened DraftMerge

  datatype Doc = Doc(title: string, description: string, updatedAt: string, steps: seq<Json>, screenshots: seq<Json>)

  // ---------- the user's edits ----------

  predicate AllObjects(steps: seq<Json>) { forall s | s in steps :: s.Obj? }

  function Renumber(steps: seq<Json>): (r: seq<Json>)
    requires AllObjects(steps)
    ensures |r| == |steps|
    ensures forall i | 0 <= i < |steps| :: steps[i].Obj? && r[i] == Set(steps[i], "order", Num((i + 1) as real))
  {
    assert forall i | 0 <= i < |steps| :: steps[i] in steps;
    seq(|steps|, i requires 0 <= i < |steps| && steps[i].Obj? => Set(steps[i], "order", Num((i + 1) as real)))
  }

  function Touch(d: Doc, now: string): Doc
    requires AllObjects(d.steps)
  {
    d.(updatedAt := now, steps := Renumber(d.steps))
  }

  function Assigned(steps: seq<Json>): set<Json> {
    set s | s in steps && Field(s, "screenshotId").Some? && Truthy(Field(s, "screenshotId").value) :: Field(s, "screenshotId").value
  }

  function FirstUnassigned(screenshots: seq<Json>, used: set<Json>): (r: Option<Json>)
    ensures r.Some? ==> exists s :: s in screenshots && Field(s, "id") == r
  {
    if screenshots == [] then None
    else if Key(screenshots[0]) !in used then Field(screenshots[0], "id")
    else FirstUnassigned(screenshots[1..], used)
  }

  function Cut(text: string): string { if |text| <= 500 then text else text[..500] }

  function NewStep(d: Doc, id: string, instruction: string): Json {
    var step := Obj(["id", "order", "instruction"],
    map["id" := Str(id), "order" := Num((|d.steps| + 1) as real), "instruction" := Str(Cut(instruction))]);
    var screenshotId := FirstUnassigned(d.screenshots, Assigned(d.steps));
    if screenshotId.Some? && Truthy(screenshotId.value) then Set(step, "screenshotId", screenshotId.value) else step
  }

  function AddStep(d: Doc, id: string, instruction: string, now: string): Doc
    requires AllObjects(d.steps)
  {
    Touch(d.(steps := d.steps + [NewStep(d, id, instruction)]), now)
  }

  function PositionOf(steps: seq<Json>, id: Json): (r: Option<nat>)
    ensures r.Some? ==> r.value < |steps| && Field(steps[r.value], "id") == Some(id)
  {
    if steps == [] then None
    else if Field(steps[0], "id") == Some(id) then Some(0)
    else
      var rest := PositionOf(steps[1..], id);
      if rest.None? then None else Some(rest.value + 1)
  }

  function UpdateInstruction(d: Doc, id: Json, instruction: string, now: string): Doc
    requires AllObjects(d.steps)
  {
    var at := PositionOf(d.steps, id);
    Touch(if at.Some? then d.(steps := d.steps[at.value := Set(d.steps[at.value], "instruction", Str(Cut(instruction)))]) else d, now)
  }

  function Remaining(steps: seq<Json>, id: Json): (r: seq<Json>)
    ensures forall s | s in r :: s in steps
  {
    if steps == [] then []
    else (if Field(steps[0], "id") == Some(id) then [] else [steps[0]]) + Remaining(steps[1..], id)
  }

  function DeleteStep(d: Doc, id: Json, now: string): Doc
    requires AllObjects(d.steps)
  {
    Touch(d.(steps := Remaining(d.steps, id)), now)
  }

  function Swapped(steps: seq<Json>, i: nat, j: nat): seq<Json>
    requires i < |steps| && j < |steps|
  {
    steps[i := steps[j]][j := steps[i]]
  }

  // -1 when there is no such step.
  function MoveTarget(at: Option<nat>, up: bool): int {
    if at.None? then -1 else if up then at.value - 1 else at.value + 1
  }

  function MoveStep(d: Doc, id: Json, up: bool, now: string): Doc
    requires AllObjects(d.steps)
  {
    var at := PositionOf(d.steps, id);
    var target := MoveTarget(at, up);
    Touch(if at.Some? && 0 <= target < |d.steps| then d.(steps := Swapped(d.steps, at.value, target)) else d, now)
  }

  datatype Edit =
    | Add(newId: string, text: string, at: string)
    | Instruct(id: Json, text: string, at: string)
    | Remove(id: Json, at: string)
    | Move(id: Json, up: bool, at: string)

  function ApplyEdit(d: Doc, e: Edit): (r: Doc)
    requires AllObjects(d.steps)
    ensures AllObjects(r.steps)
  {
    match e
    case Add(id, text, at) => AddStep(d, id, text, at)
    case Instruct(id, text, at) => UpdateInstruction(d, id, text, at)
    case Remove(id, at) => DeleteStep(d, id, at)
    case Move(id, up, at) => MoveStep(d, id, up, at)
  }

  function ApplyEdits(d: Doc, edits: seq<Edit>): Doc
    requires AllObjects(d.steps)
    decreases |edits|
  {
    if edits == [] then d else ApplyEdits(ApplyEdit(d, edits[0]), edits[1..])
  }

  // ---------- the candidates the editor builds ----------

  function Annotated(image: Json, annotations: Json, masks: Json): Json
    requires image.Obj?
  {
    Set(Set(image, "annotations", annotations), "masks", masks)
  }

  // An image of its own, without annotations and masks.
  function Replaced(image: Json, dataUrl: string): Json
    requires image.Obj?
  {
    Annotated(Set(image, "dataUrl", Str(dataUrl)), Arr([]), Arr([]))
  }

  function NewImage(newId: string, dataUrl: string): Json {
    Obj(["id", "dataUrl", "annotations", "masks"],
        map["id" := Str(newId), "dataUrl" := Str(dataUrl), "annotations" := Arr([]), "masks" := Arr([])])
  }

  // A screenshot whose annotations and masks were edited.
  function AnnotateCandidate(d: Doc, screenshotId: Json, annotations: Json, masks: Json): Option<Doc>
    requires AllObjects(d.screenshots)
  {
    var at := PositionOf(d.screenshots, screenshotId);
    if at.None? then None
    else Some(d.(screenshots := d.screenshots[at.value := Annotated(d.screenshots[at.value], annotations, masks)]))
  }

  predicate SharedScreenshot(steps: seq<Json>, stepId: Json, screenshotId: Json) {
    exists s | s in steps :: Field(s, "id") != Some(stepId) && Field(s, "screenshotId") == Some(screenshotId)
  }

  // An uploaded image: it replaces the step's own screenshot, or is added when the step has
  // none or shares it.
  function UploadCandidate(d: Doc, stepId: Json, dataUrl: string, newId: string): Option<Doc>
    requires AllObjects(d.steps) && AllObjects(d.screenshots)
  {
    var at := PositionOf(d.steps, stepId);
    if at.None? then None
    else
      var step := d.steps[at.value];
      var screenshotId := Field(step, "screenshotId");
      var target := if screenshotId.Some? && Truthy(screenshotId.value) then PositionOf(d.screenshots, screenshotId.value) else None;
      if target.Some? && !SharedScreenshot(d.steps, stepId, screenshotId.value) then
        Some(d.(screenshots := d.screenshots[target.value := Replaced(d.screenshots[target.value], dataUrl)]))
      else
        Some(d.(steps := d.steps[at.value := Set(step, "screenshotId", Str(newId))],
                screenshots := d.screenshots + [NewImage(newId, dataUrl)]))
  }

  // ---------- laying the candidate over the edited draft ----------

  // Drop an image that only the candidate brought and no step uses.
  function Referenced(images: seq<Json>, base: set<Json>, candidate: set<Json>, used: set<Json>): (r: seq<Json>)
    ensures forall x :: x in r <==> x in images && (Key(x) in base || Key(x) !in candidate || Key(x) in used)
  {
    if images == [] then []
    else
      var rest := Referenced(images[1..], base, candidate, used);
      assert images == [images[0]] + images[1..];
      if Key(images[0]) in base || Key(images[0]) !in candidate || Key(images[0]) in used then [images[0]] + rest else rest
  }

  function KeySet(s: seq<Json>): set<Json> { set x | x in s :: Key(x) }

  function MergePending(base: Doc, candidate: Doc, current: Doc, title: string, description: string, now: string): Doc {
    var steps := MergeEntities(base.steps, candidate.steps, current.steps);
    var images := MergeEntities(base.screenshots, candidate.screenshots, current.screenshots);
    Doc(title, description, now, steps, Referenced(images, KeySet(base.screenshots), KeySet(candidate.screenshots), Assigned(steps)))
  }

  // persistCandidate once the candidate is written: the draft shown from then on. The title and
  // description fields are read before the write (first) and after it (last).
  function AfterPersist(base: Doc, candidate: Doc, current: Doc, firstTitle: string, firstDescription: string,
                        lastTitle: string, lastDescription: string, first: string, last: string): Doc
  {
    var written := candidate.(title := firstTitle, description := firstDescription, updatedAt := first);
    if current != base || lastTitle != firstTitle || lastDescription != firstDescription
    then MergePending(base, written, current, lastTitle, lastDescription, last)
    else written
  }
}
