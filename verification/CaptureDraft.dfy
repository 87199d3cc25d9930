/**
 The draft a finish writes: one step for each recorded event, and the images taken of them
 (apps/extension/background/service-worker.js:390-425).
 */
module CaptureDraft {
  import opened Basics
  import opened CaptureEvents
  import opened CaptureStores

  // A ready image of the live store, and the event it was taken at.
  datatype Image = Image(id: string, eventId: string)

  datatype Step = Step(order: nat, event: Event, screenshotId: Option<string>)

  datatype Draft = Draft(id: string, steps: seq<Step>, screenshots: seq<string>)

  // imageByEventId: of several images of one event the last one counts.
  function ImageOf(images: seq<Image>, eventId: string): Option<string> {
    if images == [] then None
    else
      var last := images[|images| - 1];
      if last.eventId == eventId then Some(last.id) else ImageOf(images[..|images| - 1], eventId)
  }

  function Shown(events: seq<Event>, images: seq<Image>): seq<string> {
    if events == [] then []
    else
      var image := ImageOf(images, events[0].id);
      (if image.Some? then [image.value] else []) + Shown(events[1..], images)
  }

  // `spare`: the image of the page that is taken when nothing was recorded.
  function NewDraft(id: string, events: seq<Event>, images: seq<Image>, spare: string): Draft {
    Draft(id,
          seq(|events|, k requires 0 <= k < |events| => Step(k + 1, events[k], ImageOf(images, events[k].id))),
          Shown(events, images) + (if events == [] then [spare] else []))
  }

  function Actions(d: Draft): seq<Event> { seq(|d.steps|, k requires 0 <= k < |d.steps| => d.steps[k].event) }

  ghost predicate Distinct(s: seq<string>) { forall i, j | 0 <= i < j < |s| :: s[i] != s[j] }

  predicate DistinctImages(images: seq<Image>) { forall i, j | 0 <= i < j < |images| :: images[i].id != images[j].id }

  // The steps are the recorded events, numbered and in their order.
  lemma ActionsOfDraft(id: string, events: seq<Event>, images: seq<Image>, spare: string)
    ensures var d := NewDraft(id, events, images, spare);
            d.id == id && Actions(d) == events && forall k | 0 <= k < |d.steps| :: d.steps[k].order == k + 1
  {
  }

  lemma {:induction false} ImageOfIs(images: seq<Image>, eventId: string)
    ensures ImageOf(images, eventId).Some? <==> exists i | i in images :: i.eventId == eventId
    ensures ImageOf(images, eventId).Some? ==> Image(ImageOf(images, eventId).value, eventId) in images
  {
    if images == [] {
    } else {
      var last := images[|images| - 1];
      assert images == images[..|images| - 1] + [last];
      ImageOfIs(images[..|images| - 1], eventId);
    }
  }

  lemma {:induction false} ShownIs(events: seq<Event>, images: seq<Image>, id: string)
    ensures id in Shown(events, images) <==> exists e | e in events :: ImageOf(images, e.id) == Some(id)
  {
    if events == [] {
    } else {
      assert events == [events[0]] + events[1..];
      ShownIs(events[1..], images, id);
    }
  }

  // Every image a step shows is in the draft, and each step shows an image of its own event when there is one.
  lemma {:induction false} StepsResolve(id: string, events: seq<Event>, images: seq<Image>, spare: string, k: nat)
    requires k < |events|
    ensures var d := NewDraft(id, events, images, spare); var shown := d.steps[k].screenshotId;
            && (shown.Some? <==> exists i | i in images :: i.eventId == events[k].id)
            && (shown.Some? ==> shown.value in d.screenshots && Image(shown.value, events[k].id) in images)
  {
    ImageOfIs(images, events[k].id);
    var shown := ImageOf(images, events[k].id);
    if shown.Some? { ShownIs(events, images, shown.value); }
  }

  // And every image in the draft is shown by a step, unless nothing was recorded.
  lemma {:induction false} ImagesAreShown(id: string, events: seq<Event>, images: seq<Image>, spare: string, image: string)
    requires events != []
    ensures var d := NewDraft(id, events, images, spare);
            image in d.screenshots <==> exists k | 0 <= k < |d.steps| :: d.steps[k].screenshotId == Some(image)
  {
    var d := NewDraft(id, events, images, spare);
    ShownIs(events, images, image);
    assert d.screenshots == Shown(events, images);
    if e :| e in events && ImageOf(images, e.id) == Some(image) {
      var k :| 0 <= k < |events| && events[k] == e;
      assert d.steps[k].screenshotId == Some(image);
    }
  }

  lemma SameImage(images: seq<Image>, a: Image, b: Image)
    requires DistinctImages(images) && a in images && b in images && a.id == b.id
    ensures a == b
  {
    var i :| 0 <= i < |images| && images[i] == a;
    var j :| 0 <= j < |images| && images[j] == b;
    assert i == j;
  }

  // No image is in the draft twice, so its images have ids of their own.
  lemma {:induction false} ShownDistinct(events: seq<Event>, images: seq<Image>)
    requires Wf(events) && DistinctImages(images)
    ensures Distinct(Shown(events, images))
  {
    if events == [] {
    } else {
      var rest := events[1..];
      var image := ImageOf(images, events[0].id);
      assert Identified(rest) && UniqueIds(rest) && forall e | e in rest :: e.id != events[0].id;
      ShownDistinct(rest, images);
      if image.Some? && image.value in Shown(rest, images) {
        ShownIs(rest, images, image.value);
        var e :| e in rest && ImageOf(images, e.id) == image;
        ImageOfIs(images, events[0].id);
        ImageOfIs(images, e.id);
        SameImage(images, Image(image.value, events[0].id), Image(image.value, e.id));
        assert false;
      }
    }
  }

  type Drafts = map<string, Draft>

  // A draft of these events is written, unless there was one already or the write had no effect.
  ghost predicate Drafted(before: Drafts, after: Drafts, id: string, events: seq<Event>) {
    after == before || Written(before, after, id, events)
  }

  ghost predicate Written(before: Drafts, after: Drafts, id: string, events: seq<Event>) {
    id !in before && exists images, spare :: DistinctImages(images) && after == before[id := NewDraft(id, events, images, spare)]
  }

  // The draft that was there is kept, and a new one is of these events.
  predicate Leaves(before: Drafts, after: Drafts, id: string, events: seq<Event>) {
    if id in before then id in after && after[id] == before[id] else id in after ==> Actions(after[id]) == events
  }

  // A finish that ends leaves every action in the draft exactly when none was there before, or that one has them.
  lemma CompleteIff(before: Drafts, after: Drafts, id: string, events: seq<Event>)
    requires Leaves(before, after, id, events) && id in after
    ensures Ids(events) <= Ids(Actions(after[id])) <==> id !in before || Ids(events) <= Ids(Actions(before[id]))
  {
  }

  lemma DraftedIs(before: Drafts, after: Drafts, id: string, events: seq<Event>)
    requires Drafted(before, after, id, events)
    ensures Leaves(before, after, id, events)
  {
  }
}
