/**
 The canonical form of a local draft and the fingerprint a handoff record keeps of it
 (apps/extension/editor/handoff.js). SHA-256 is taken as injective: a digest is the text
 it was computed from.
 */
module Handoff {
  import opened Basics

  // What a screenshot's "annotations" property can be; None inside Listed is a list that
  // normalizeAnnotations refuses.
  datatype Annotations = Absent | NotAList | Listed(normalized: Option<seq<string>>)

  datatype Mask = Mask(x: Option<real>, y: Option<real>, width: Option<real>, height: Option<real>)

  // "unlisted" stands for every property the canonical form does not mention.
  datatype Step = Step(id: Option<string>, order: Option<int>, instruction: Option<string>,
                       screenshotId: Option<string>, unlisted: string)
  datatype Screenshot = Screenshot(id: Option<string>, dataUrl: Option<string>, masks: Option<seq<Mask>>,
                                   annotations: Annotations, unlisted: string)
  datatype Draft = Draft(id: Option<string>, title: Option<string>, description: Option<string>,
                         updatedAt: Option<string>, steps: Option<seq<Step>>,
                         screenshots: Option<seq<Screenshot>>, unlisted: string)

  datatype CanonicalStep = CanonicalStep(id: Option<string>, order: Option<int>, instruction: string,
                                         screenshotId: Option<string>)
  datatype CanonicalScreenshot = CanonicalScreenshot(id: Option<string>, dataUrl: string, masks: seq<Mask>,
                                                     annotations: seq<string>)
  datatype Content = Content(id: Option<string>, title: string, description: string,
                             steps: seq<CanonicalStep>, screenshots: seq<CanonicalScreenshot>)
  datatype Canonical = Canonical(content: Content, updatedAt: Option<string>)

  // The two texts that are hashed: with and without the update time.
  datatype Text = FullText(canonical: Canonical) | ContentText(content: Content)
  // A stored fingerprint has the shape of a digest but need not be the digest of anything.
  datatype Fingerprint = Sha256(text: Text) | Unrelated(tag: nat)

  function Or<T>(o: Option<T>, default: T): T { if o.Some? then o.value else default }

  function CanonicalizeStep(s: Step): CanonicalStep {
    CanonicalStep(s.id, s.order, Or(s.instruction, ""), s.screenshotId)
  }

  function CanonicalizeScreenshot(s: Screenshot): Option<CanonicalScreenshot> {
    match s.annotations
    case NotAList => None
    case Listed(None) => None
    case Listed(Some(items)) => Some(CanonicalScreenshot(s.id, Or(s.dataUrl, ""), Or(s.masks, []), items))
    case Absent => Some(CanonicalScreenshot(s.id, Or(s.dataUrl, ""), Or(s.masks, []), []))
  }

  function CanonicalizeScreenshots(s: seq<Screenshot>): (r: Option<seq<CanonicalScreenshot>>)
    ensures r.Some? <==> forall i | 0 <= i < |s| :: CanonicalizeScreenshot(s[i]).Some?
    ensures r.Some? ==> |r.value| == |s|
  {
    if s == [] then Some([])
    else
      var head := CanonicalizeScreenshot(s[0]);
      var rest := CanonicalizeScreenshots(s[1..]);
      if head.Some? && rest.Some? then
        assert forall i | 1 <= i < |s| :: s[i] == s[1..][i - 1];
        Some([head.value] + rest.value)
      else
        assert rest.None? ==> exists i | 0 <= i < |s[1..]| :: CanonicalizeScreenshot(s[1..][i]).None? && s[1..][i] == s[i + 1];
        None
  }

  // None: the canonical form throws (a screenshot's annotations are unusable).
  function Canonicalize(d: Draft): Option<Canonical> {
    var screenshots := CanonicalizeScreenshots(Or(d.screenshots, []));
    if screenshots.None? then None
    else
      var steps := Or(d.steps, []);
      Some(Canonical(
             Content(d.id, Or(d.title, ""), Or(d.description, ""),
                     seq(|steps|, i requires 0 <= i < |steps| => CanonicalizeStep(steps[i])),
                     screenshots.value),
             d.updatedAt))
  }

  predicate NamesCanonical(fingerprint: Fingerprint, c: Canonical) {
    fingerprint == Sha256(ContentText(c.content)) || fingerprint == Sha256(FullText(c))
  }

  // The fingerprint is the current or the legacy digest of this draft.
  predicate Names(fingerprint: Fingerprint, d: Draft) {
    Canonicalize(d).Some? && NamesCanonical(fingerprint, Canonicalize(d).value)
  }

  // ---------- what the canonical form stands for ----------

  predicate SameText(a: Option<string>, b: Option<string>) { a == b || (a in {None, Some("")} && b in {None, Some("")}) }

  predicate SameStep(a: Step, b: Step) {
    a.id == b.id && a.order == b.order && a.screenshotId == b.screenshotId && SameText(a.instruction, b.instruction)
  }

  function Items(a: Annotations): Option<seq<string>> {
    match a
    case Absent => Some([])
    case NotAList => None
    case Listed(items) => items
  }

  predicate SameMasks(a: Option<seq<Mask>>, b: Option<seq<Mask>>) { a == b || (a in {None, Some([])} && b in {None, Some([])}) }

  predicate SameScreenshot(a: Screenshot, b: Screenshot) {
    a.id == b.id && SameText(a.dataUrl, b.dataUrl) && SameMasks(a.masks, b.masks) && Items(a.annotations) == Items(b.annotations)
  }

  function StepsOf(d: Draft): seq<Step> { if d.steps.Some? then d.steps.value else [] }

  function ScreenshotsOf(d: Draft): seq<Screenshot> { if d.screenshots.Some? then d.screenshots.value else [] }

  // Two drafts agree in everything a user can see, an absent list or text standing for an empty one.
  predicate SameContent(a: Draft, b: Draft) {
    && a.id == b.id && SameText(a.title, b.title) && SameText(a.description, b.description)
    && |StepsOf(a)| == |StepsOf(b)| && (forall i | 0 <= i < |StepsOf(a)| :: SameStep(StepsOf(a)[i], StepsOf(b)[i]))
    && |ScreenshotsOf(a)| == |ScreenshotsOf(b)|
    && (forall i | 0 <= i < |ScreenshotsOf(a)| :: SameScreenshot(ScreenshotsOf(a)[i], ScreenshotsOf(b)[i]))
  }

  predicate Usable(d: Draft) { forall i | 0 <= i < |ScreenshotsOf(d)| :: Items(ScreenshotsOf(d)[i].annotations).Some? }

  lemma {:induction false} CanonicalScreenshots(s: seq<Screenshot>)
    requires CanonicalizeScreenshots(s).Some?
    ensures var r := CanonicalizeScreenshots(s).value;
            |r| == |s| && forall i | 0 <= i < |s| :: CanonicalizeScreenshot(s[i]) == Some(r[i])
  {
    if s == [] {
    } else {
      CanonicalScreenshots(s[1..]);
      forall i | 1 <= i < |s| ensures CanonicalizeScreenshot(s[i]) == Some(CanonicalizeScreenshots(s).value[i]) {
        assert s[i] == s[1..][i - 1];
      }
    }
  }

  // A draft has a canonical form exactly when every list of annotations can be used.
  lemma CanonicalIff(d: Draft)
    ensures Canonicalize(d).Some? <==> Usable(d)
  {
    var s := ScreenshotsOf(d);
    assert forall i | 0 <= i < |s| :: CanonicalizeScreenshot(s[i]).Some? <==> Items(s[i].annotations).Some?;
  }

  // Two drafts have one canonical form exactly when they agree in content and update time; so a draft that is
  // deleted for its fingerprint is the one that was handed over.
  lemma CanonicalDetermines(a: Draft, b: Draft)
    requires Usable(a) && Usable(b)
    ensures Canonicalize(a).Some? && Canonicalize(b).Some?
    ensures Canonicalize(a).value.content == Canonicalize(b).value.content <==> SameContent(a, b)
    ensures Canonicalize(a) == Canonicalize(b) <==> SameContent(a, b) && a.updatedAt == b.updatedAt
  {
    CanonicalIff(a);
    CanonicalIff(b);
    SameStepsIff(StepsOf(a), StepsOf(b));
    SameScreenshotsIff(ScreenshotsOf(a), ScreenshotsOf(b));
  }

  function CanonicalSteps(s: seq<Step>): seq<CanonicalStep> { seq(|s|, i requires 0 <= i < |s| => CanonicalizeStep(s[i])) }

  lemma SameStepsIff(s: seq<Step>, t: seq<Step>)
    ensures CanonicalSteps(s) == CanonicalSteps(t) <==> |s| == |t| && forall i | 0 <= i < |s| :: SameStep(s[i], t[i])
  {
    if CanonicalSteps(s) == CanonicalSteps(t) {
      assert |s| == |CanonicalSteps(t)|;
      forall i | 0 <= i < |s| ensures SameStep(s[i], t[i]) { assert CanonicalSteps(s)[i] == CanonicalSteps(t)[i]; }
    }
  }

  lemma {:induction false} SameScreenshotsIff(s: seq<Screenshot>, t: seq<Screenshot>)
    requires CanonicalizeScreenshots(s).Some? && CanonicalizeScreenshots(t).Some?
    ensures CanonicalizeScreenshots(s) == CanonicalizeScreenshots(t) <==> |s| == |t| && forall i | 0 <= i < |s| :: SameScreenshot(s[i], t[i])
  {
    CanonicalScreenshots(s);
    CanonicalScreenshots(t);
    var (x, y) := (CanonicalizeScreenshots(s).value, CanonicalizeScreenshots(t).value);
    forall i | 0 <= i < |s| && i < |t| ensures x[i] == y[i] <==> SameScreenshot(s[i], t[i]) {
      assert CanonicalizeScreenshot(s[i]) == Some(x[i]) && CanonicalizeScreenshot(t[i]) == Some(y[i]);
    }
    if |s| == |t| && forall i | 0 <= i < |s| :: SameScreenshot(s[i], t[i]) { assert x == y; }
  }
}
