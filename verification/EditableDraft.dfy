/** The draft object the editor page changes in place. */
module EditableDraft {
  import opened Basics
  import opened Json
  import opened DraftEdits
  import opened DraftEditsLaws
  import EditLaws

  lemma {:induction false} RemainingHead(steps: seq<Json>, index: nat, id: Json)
    requires index < |steps|
    ensures Remaining(steps[index..], id)
         == (if Field(steps[index], "id") == Some(id) then [] else [steps[index]]) + Remaining(steps[index + 1..], id)
  {
    assert steps[index..][0] == steps[index] && steps[index..][1..] == steps[index + 1..];
  }

  method Filter(steps: seq<Json>, id: Json) returns (kept: seq<Json>)
    ensures kept == Remaining(steps, id)
  {
    kept := [];
    var index := 0;
    while index < |steps|
      invariant index <= |steps|
      invariant Remaining(steps, id) == kept + Remaining(steps[index..], id)
    {
      RemainingHead(steps, index, id);
      if Field(steps[index], "id") != Some(id) { kept := kept + [steps[index]]; }
      index := index + 1;
    }
  }

  class Draft {
    var title: string
    var description: string
    var updatedAt: string
    var steps: seq<Json>
    var screenshots: seq<Json>

    function View(): Doc
      reads this
    {
      Doc(title, description, updatedAt, steps, screenshots)
    }

    constructor (d: Doc)
      ensures View() == d
    {
      title, description, updatedAt, steps, screenshots := d.title, d.description, d.updatedAt, d.steps, d.screenshots;
    }

    method Touch(now: string)
      requires AllObjects(steps)
      modifies this`updatedAt, this`steps
      ensures View() == DraftEdits.Touch(old(View()), now)
    {
      updatedAt := now;
      var index := 0;
      while index < |steps|
        invariant index <= |steps| == |old(steps)| && updatedAt == now
        invariant forall i | 0 <= i < index :: steps[i] == Set(old(steps)[i], "order", Num((i + 1) as real))
        invariant forall i | index <= i < |steps| :: steps[i] == old(steps)[i]
      {
        assert steps[index] in old(steps);
        steps := steps[index := Set(steps[index], "order", Num((index + 1) as real))];
        index := index + 1;
      }
      assert steps == Renumber(old(steps));
    }

    method AddStep(id: string, instruction: string, now: string)
      requires AllObjects(steps)
      modifies this`updatedAt, this`steps
      ensures View() == ApplyEdit(old(View()), Add(id, instruction, now))
      ensures AllHaveIds(screenshots) ==> EditLaws.Added(old(View()), View(), id, instruction, now)
    {
      if AllHaveIds(screenshots) { EditLaws.AddIs(View(), id, instruction, now); }
      steps := steps + [NewStep(View(), id, instruction)];
      Touch(now);
    }

    method UpdateStepInstruction(id: Json, instruction: string, now: string)
      requires AllObjects(steps)
      modifies this`updatedAt, this`steps
      ensures View() == ApplyEdit(old(View()), Instruct(id, instruction, now))
      ensures EditLaws.Instructed(old(View()), View(), id, instruction, now)
    {
      EditLaws.InstructIs(View(), id, instruction, now);
      var at := PositionOf(steps, id);
      if at.Some? { steps := steps[at.value := Set(steps[at.value], "instruction", Str(Cut(instruction)))]; }
      Touch(now);
    }

    method DeleteStep(id: Json, now: string)
      requires AllObjects(steps)
      modifies this`updatedAt, this`steps
      ensures View() == ApplyEdit(old(View()), Remove(id, now))
      ensures EditLaws.Removed(old(View()), View(), id, now)
    {
      EditLaws.RemoveIs(View(), id, now);
      var kept := Filter(steps, id);
      steps := kept;
      Touch(now);
    }

    method MoveStep(id: Json, up: bool, now: string)
      requires AllObjects(steps)
      modifies this`updatedAt, this`steps
      ensures View() == ApplyEdit(old(View()), Move(id, up, now))
      ensures EditLaws.Moved(old(View()), View(), id, up, now)
    {
      EditLaws.MoveIs(View(), id, up, now);
      var index := PositionOf(steps, id);
      if index.Some? {
        var target := MoveTarget(index, up);
        if 0 <= target < |steps| {
          steps := steps[index.value := steps[target]][target := steps[index.value]];
        }
      }
      Touch(now);
    }

    // The end of persistCandidate: the merged draft is assigned over the shown one, and is good
    // again whatever the user did while the candidate was being written.
    method FinishPersist(before: Doc, candidate: Doc, t1: string, d1: string, t2: string, d2: string, n1: string, n2: string)
      requires GoodDoc(before) && CandidateOf(before, candidate) && EditedFrom(before, View())
      modifies this
      ensures View() == AfterPersist(before, candidate, old(View()), t1, d1, t2, d2, n1, n2)
      ensures GoodDoc(View())
    {
      PersistedDraft(before, candidate, View(), t1, d1, t2, d2, n1, n2);
      var merged := AfterPersist(before, candidate, View(), t1, d1, t2, d2, n1, n2);
      title, description, updatedAt := merged.title, merged.description, merged.updatedAt;
      steps, screenshots := merged.steps, merged.screenshots;
    }
  }
}
