/**
 What each edit of the user's does to the steps, position by position
 (apps/extension/editor/draft-model.js:1-41).
 */
module EditLaws {
  import opened Basics
  import opened Json
  import opened DraftEdits

  // Step `now` is step `was` at the given place: it keeps every field, and its order is the place counted from one.
  ghost predicate At(was: Json, now: Json, place: nat) {
    && now.Obj? && Field(now, "order") == Some(Num((place + 1) as real))
    && forall key | key != "order" :: Field(now, key) == Field(was, key)
  }

  // The same, but for one more field.
  ghost predicate AtWith(was: Json, now: Json, place: nat, field: string, value: Json) {
    && now.Obj? && Field(now, "order") == Some(Num((place + 1) as real)) && Field(now, field) == Some(value)
    && forall key | key != "order" && key != field :: Field(now, key) == Field(was, key)
  }

  // Everything of the draft but its steps and its time is as before.
  predicate OnlySteps(d: Doc, r: Doc, now: string) {
    r.updatedAt == now && r.title == d.title && r.description == d.description && r.screenshots == d.screenshots
  }

  // Every step is where it was.
  ghost predicate InPlace(d: Doc, r: Doc) {
    |r.steps| == |d.steps| && forall p | 0 <= p < |d.steps| :: At(d.steps[p], r.steps[p], p)
  }

  // The first step with this id, if there is one.
  predicate FirstAt(steps: seq<Json>, id: Json, k: nat) {
    && k < |steps| && Field(steps[k], "id") == Some(id)
    && forall p | 0 <= p < k :: Field(steps[p], "id") != Some(id)
  }

  predicate Nowhere(steps: seq<Json>, id: Json) { forall p | 0 <= p < |steps| :: Field(steps[p], "id") != Some(id) }

  lemma {:induction false} PositionIs(steps: seq<Json>, id: Json)
    ensures if PositionOf(steps, id).Some? then FirstAt(steps, id, PositionOf(steps, id).value) else Nowhere(steps, id)
  {
    if steps == [] {
    } else if Field(steps[0], "id") != Some(id) {
      PositionIs(steps[1..], id);
      assert forall p | 0 <= p < |steps[1..]| :: steps[1..][p] == steps[p + 1];
      var at := PositionOf(steps[1..], id);
      forall p | 0 <= p < (if at.Some? then at.value + 1 else |steps|) ensures Field(steps[p], "id") != Some(id) {
        if p > 0 { assert steps[p] == steps[1..][p - 1]; }
      }
    }
  }

  lemma OneFirst(steps: seq<Json>, id: Json, k: nat, l: nat)
    requires FirstAt(steps, id, k)
    ensures !Nowhere(steps, id) && (FirstAt(steps, id, l) ==> l == k)
  {
  }

  lemma Numbered(d: Doc, now: string)
    requires AllObjects(d.steps)
    ensures OnlySteps(d, Touch(d, now), now) && InPlace(d, Touch(d, now))
  {
    forall p | 0 <= p < |d.steps| ensures At(d.steps[p], Touch(d, now).steps[p], p) { }
  }

  // ---------- moving a step ----------

  // The steps at i and j have changed places, and every other step is where it was.
  ghost predicate Exchanged(d: Doc, r: Doc, i: nat, j: nat)
    requires i < |d.steps| && j < |d.steps|
  {
    && |r.steps| == |d.steps| && At(d.steps[i], r.steps[j], j) && At(d.steps[j], r.steps[i], i)
    && forall p | 0 <= p < |d.steps| && p != i && p != j :: At(d.steps[p], r.steps[p], p)
  }

  // Up exchanges a step with the one before it, down with the one after it; at either end, and for an unknown step,
  // nothing moves.
  ghost predicate Moved(d: Doc, r: Doc, id: Json, up: bool, now: string) {
    && OnlySteps(d, r, now)
    && (Nowhere(d.steps, id) ==> InPlace(d, r))
    && (forall k: nat | FirstAt(d.steps, id, k) ::
          if up && k > 0 then Exchanged(d, r, k, k - 1)
          else if !up && k + 1 < |d.steps| then Exchanged(d, r, k, k + 1)
          else InPlace(d, r))
  }

  lemma MoveIs(d: Doc, id: Json, up: bool, now: string)
    requires AllObjects(d.steps)
    ensures Moved(d, MoveStep(d, id, up, now), id, up, now)
  {
    PositionIs(d.steps, id);
    var at := PositionOf(d.steps, id);
    if at.None? {
      Numbered(d, now);
    } else {
      var k := at.value;
      forall l: nat | FirstAt(d.steps, id, l) ensures l == k { OneFirst(d.steps, id, k, l); }
      if up && k > 0 {
        ExchangeIs(d, k, k - 1, now);
      } else if !up && k + 1 < |d.steps| {
        ExchangeIs(d, k, k + 1, now);
      } else {
        Numbered(d, now);
      }
    }
  }

  lemma ExchangeIs(d: Doc, i: nat, j: nat, now: string)
    requires AllObjects(d.steps) && i < |d.steps| && j < |d.steps| && i != j
    ensures AllObjects(Swapped(d.steps, i, j))
    ensures var r := Touch(d.(steps := Swapped(d.steps, i, j)), now); OnlySteps(d, r, now) && Exchanged(d, r, i, j)
  {
    var s := Swapped(d.steps, i, j);
    forall x | x in s ensures x.Obj? { assert x in d.steps; }
    assert s[j] == d.steps[i] && s[i] == d.steps[j];
    Numbered(d.(steps := s), now);
  }

  // ---------- adding a step ----------

  // The first five hundred characters.
  predicate IsCut(text: string, cut: string) { cut <= text && |cut| == if |text| <= 500 then |text| else 500 }

  predicate Shown(steps: seq<Json>, image: Json) { exists p | 0 <= p < |steps| :: Field(steps[p], "screenshotId") == Some(image) }

  // The first image that no step shows.
  predicate FirstUnshown(d: Doc, q: nat) {
    && q < |d.screenshots| && !Shown(d.steps, Key(d.screenshots[q]))
    && forall p | 0 <= p < q :: Shown(d.steps, Key(d.screenshots[p]))
  }

  // A new step comes last, with its text cut to five hundred characters and the first image that is not shown yet.
  ghost predicate Added(d: Doc, r: Doc, id: string, text: string, now: string) {
    var n := |d.steps|;
    && OnlySteps(d, r, now) && |r.steps| == n + 1
    && (forall p | 0 <= p < n :: At(d.steps[p], r.steps[p], p))
    && Field(r.steps[n], "id") == Some(Str(id)) && Field(r.steps[n], "order") == Some(Num((n + 1) as real))
    && (exists cut :: IsCut(text, cut) && Field(r.steps[n], "instruction") == Some(Str(cut)))
    && (forall q: nat | FirstUnshown(d, q) :: Field(r.steps[n], "screenshotId") == Some(Key(d.screenshots[q])))
    && ((forall p | 0 <= p < |d.screenshots| :: Shown(d.steps, Key(d.screenshots[p]))) ==> Field(r.steps[n], "screenshotId").None?)
  }

  lemma AddIs(d: Doc, id: string, text: string, now: string)
    requires AllObjects(d.steps) && AllHaveIds(d.screenshots)
    ensures Added(d, AddStep(d, id, text, now), id, text, now)
  {
    var step := NewStep(d, id, text);
    var all := d.(steps := d.steps + [step]);
    forall x | x in all.steps ensures x.Obj? { if x !in d.steps { assert x == step; } }
    Numbered(all, now);
    var r, n := AddStep(d, id, text, now), |d.steps|;
    assert r == Touch(all, now);
    forall p | 0 <= p < n ensures At(d.steps[p], r.steps[p], p) { assert all.steps[p] == d.steps[p]; }
    assert all.steps[n] == step && At(step, r.steps[n], n);
    NewStepIs(d, id, text);
  }

  lemma NewStepIs(d: Doc, id: string, text: string)
    requires AllHaveIds(d.screenshots)
    ensures var step := NewStep(d, id, text);
            && Field(step, "id") == Some(Str(id)) && IsCut(text, Cut(text)) && Field(step, "instruction") == Some(Str(Cut(text)))
            && (forall q: nat | FirstUnshown(d, q) :: Field(step, "screenshotId") == Some(Key(d.screenshots[q])))
            && ((forall p | 0 <= p < |d.screenshots| :: Shown(d.steps, Key(d.screenshots[p]))) ==> Field(step, "screenshotId").None?)
  {
    var q := UnassignedIs(d.screenshots, d.steps);
    forall p: nat | FirstUnshown(d, p) ensures p == q { }
  }

  lemma AssignedIs(steps: seq<Json>, image: Json)
    requires Truthy(image)
    ensures image in Assigned(steps) <==> Shown(steps, image)
  {
    if image in Assigned(steps) {
      var s :| s in steps && Field(s, "screenshotId") == Some(image);
      var p :| 0 <= p < |steps| && steps[p] == s;
    }
  }

  lemma {:induction false} UnassignedIs(images: seq<Json>, steps: seq<Json>) returns (q: nat)
    requires AllHaveIds(images)
    ensures q <= |images| && forall p | 0 <= p < q :: Shown(steps, Key(images[p]))
    ensures var r := FirstUnassigned(images, Assigned(steps));
            if q == |images| then r.None? else r == Some(Key(images[q])) && Truthy(Key(images[q])) && !Shown(steps, Key(images[q]))
  {
    if images == [] {
      q := 0;
    } else {
      assert HasId(images[0]);
      AssignedIs(steps, Key(images[0]));
      if Key(images[0]) in Assigned(steps) {
        var rest := UnassignedIs(images[1..], steps);
        q := rest + 1;
        forall p | 0 <= p < q ensures Shown(steps, Key(images[p])) { if p > 0 { assert images[p] == images[1..][p - 1]; } }
      } else {
        q := 0;
      }
    }
  }

  // ---------- changing an instruction ----------

  // The step has the new text, cut likewise, and everything else is as it was.
  ghost predicate Instructed(d: Doc, r: Doc, id: Json, text: string, now: string) {
    && OnlySteps(d, r, now)
    && (Nowhere(d.steps, id) ==> InPlace(d, r))
    && (forall k: nat | FirstAt(d.steps, id, k) ::
          && |r.steps| == |d.steps| && (forall p | 0 <= p < |d.steps| && p != k :: At(d.steps[p], r.steps[p], p))
          && exists cut :: IsCut(text, cut) && AtWith(d.steps[k], r.steps[k], k, "instruction", Str(cut)))
  }

  lemma InstructIs(d: Doc, id: Json, text: string, now: string)
    requires AllObjects(d.steps)
    ensures Instructed(d, UpdateInstruction(d, id, text, now), id, text, now)
  {
    PositionIs(d.steps, id);
    var at := PositionOf(d.steps, id);
    if at.None? {
      Numbered(d, now);
    } else {
      var k := at.value;
      forall l: nat | FirstAt(d.steps, id, l) ensures l == k { OneFirst(d.steps, id, k, l); }
      InstructedAt(d, k, text, now);
    }
  }

  lemma InstructedAt(d: Doc, k: nat, text: string, now: string)
    requires AllObjects(d.steps) && k < |d.steps| && d.steps[k].Obj?
    ensures var changed := d.(steps := d.steps[k := Set(d.steps[k], "instruction", Str(Cut(text)))]);
            && AllObjects(changed.steps)
            && var r := Touch(changed, now);
               && OnlySteps(d, r, now) && |r.steps| == |d.steps| && (forall p | 0 <= p < |d.steps| && p != k :: At(d.steps[p], r.steps[p], p))
               && IsCut(text, Cut(text)) && AtWith(d.steps[k], r.steps[k], k, "instruction", Str(Cut(text)))
  {
    var changed := d.(steps := d.steps[k := Set(d.steps[k], "instruction", Str(Cut(text)))]);
    forall x | x in changed.steps ensures x.Obj? { if x !in d.steps { assert x == changed.steps[k]; } }
    Numbered(changed, now);
  }

  // ---------- deleting a step ----------

  // The steps behind the deleted one move up; without such a step nothing moves.
  ghost predicate Removed(d: Doc, r: Doc, id: Json, now: string) {
    && OnlySteps(d, r, now)
    && (Nowhere(d.steps, id) ==> InPlace(d, r))
    && (forall k: nat | FirstAt(d.steps, id, k) && Nowhere(d.steps[k + 1..], id) :: Closed(d, r, k))
  }

  ghost predicate Closed(d: Doc, r: Doc, k: nat) {
    && k < |d.steps| && |r.steps| == |d.steps| - 1
    && (forall p | 0 <= p < k :: At(d.steps[p], r.steps[p], p))
    && (forall p | k < p < |d.steps| :: At(d.steps[p], r.steps[p - 1], p - 1))
  }

  lemma RemoveIs(d: Doc, id: Json, now: string)
    requires AllObjects(d.steps)
    ensures Removed(d, DeleteStep(d, id, now), id, now)
  {
    var left := d.(steps := Remaining(d.steps, id));
    assert AllObjects(left.steps);
    Numbered(left, now);
    if Nowhere(d.steps, id) { RemainingAll(d.steps, id); }
    forall k: nat | FirstAt(d.steps, id, k) && Nowhere(d.steps[k + 1..], id) ensures Closed(d, Touch(left, now), k) {
      RemainingAt(d.steps, id, k);
      ClosedIs(d, left, Touch(left, now), k);
    }
  }

  lemma ClosedIs(d: Doc, left: Doc, r: Doc, k: nat)
    requires k < |d.steps| && left.steps == d.steps[..k] + d.steps[k + 1..] && InPlace(left, r)
    ensures Closed(d, r, k)
  {
    forall p | 0 <= p < k ensures At(d.steps[p], r.steps[p], p) { assert left.steps[p] == d.steps[p]; }
    forall p | k < p < |d.steps| ensures At(d.steps[p], r.steps[p - 1], p - 1) { assert left.steps[p - 1] == d.steps[p]; }
  }

  lemma {:induction false} RemainingAt(steps: seq<Json>, id: Json, k: nat)
    requires FirstAt(steps, id, k) && Nowhere(steps[k + 1..], id)
    ensures Remaining(steps, id) == steps[..k] + steps[k + 1..]
  {
    RemainingSplit(steps[..k], steps[k..], id);
    assert steps == steps[..k] + steps[k..];
    RemainingAll(steps[..k], id);
    RemainingAll(steps[k + 1..], id);
    assert steps[k..][1..] == steps[k + 1..] && steps[k..][0] == steps[k];
  }

  lemma {:induction false} RemainingAll(steps: seq<Json>, id: Json)
    requires Nowhere(steps, id)
    ensures Remaining(steps, id) == steps
  {
    if steps == [] {
    } else {
      assert forall p | 0 <= p < |steps[1..]| :: steps[1..][p] == steps[p + 1];
      RemainingAll(steps[1..], id);
    }
  }

  lemma {:induction false} RemainingSplit(s: seq<Json>, t: seq<Json>, id: Json)
    ensures Remaining(s + t, id) == Remaining(s, id) + Remaining(t, id)
  {
    if s == [] {
      assert s + t == t;
    } else {
      assert (s + t)[1..] == s[1..] + t;
      RemainingSplit(s[1..], t, id);
    }
  }
}
