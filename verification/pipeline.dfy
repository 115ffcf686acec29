/** `generateFullStorybook`: the outline first, then one illustration per act
    in act order, folded into one page per act. The outline is given as the
    outcome of `generateStoryStructure`; `image(k, scene)` is the outcome of
    `generateImage(scene, visualStyle)` for the act at index `k`. The
    `onPageComplete` and `onError` callbacks are recorded as events in call
    order; `onProgress` messages are not modelled. */
module Pipeline {
  import opened Common
  import opened Records

  const NoActsMessage: string := "No story acts were generated"

  /** A callback invocation. */
  datatype Event = PageCompleted(page: PageDraft) | ErrorReported(message: string)

  /** The value the pipeline returns: the outline's title and the pages. */
  datatype Generated = Generated(title: string, pages: seq<PageDraft>)

  /** A run: what the call returns or throws, and the callbacks it made. */
  datatype Run = Run(result: Result<Generated>, events: seq<Event>)

  /** The page for one act: everything but the picture comes from the act;
      the picture is the image's URL, or `null` when it failed. */
  function DraftFor(storybookId: string, act: Act, image: Result<string>): (p: PageDraft)
    ensures p.storybookId == storybookId && p.pageNumber == act.actNumber
    ensures p.actTitle == act.actTitle && p.textContent == act.textContent
    ensures p.imagePrompt == act.sceneDescription
    ensures p.imageUrl.Some? <==> image.Ok?
    ensures image.Ok? ==> p.imageUrl == Some(image.value)
  {
    PageDraft(storybookId, act.actNumber, act.actTitle, act.textContent,
              if image.Ok? then Some(image.value) else None, act.sceneDescription)
  }

  function PageFailureMessage(act: Act, error: string): string
  {
    "Failed to generate page " + IntToString(act.actNumber) + ": " + error
  }

  /** The callback that follows one act's illustration. */
  function EventFor(storybookId: string, act: Act, image: Result<string>): Event
  {
    if image.Ok? then PageCompleted(DraftFor(storybookId, act, image))
    else ErrorReported(PageFailureMessage(act, image.message))
  }

  /** The act list the pipeline works through, or the fatal error that stops
      it first. */
  function ActsOf(structure: Result<Structure>): (r: Result<seq<Act>>)
    ensures r.Ok? ==> |r.value| > 0
    ensures structure.Err? ==> r == Err(structure.message)
    ensures structure.Ok? && structure.value.acts.Some? && |structure.value.acts.value| > 0
            ==> r == Ok(structure.value.acts.value)
    ensures structure.Ok? && (structure.value.acts.None? || structure.value.acts.value == [])
            ==> r == Err(NoActsMessage)
  {
    match structure
    case Err(m) => Err(m)
    case Ok(s) =>
      if s.acts.None? || |s.acts.value| == 0 then Err(NoActsMessage) else Ok(s.acts.value)
  }

  /** `generateFullStorybook(storybookId, …, visualStyle, callbacks)`. A fatal
      error is reported once and rethrown. Otherwise the call returns one page
      per act, in act order, and one callback per act: the page on success,
      the page's error on failure. A failed picture never fails the run. */
  method GenerateFullStorybook(storybookId: string, structure: Result<Structure>,
                               image: (nat, string) -> Result<string>)
    returns (run: Run)
    ensures ActsOf(structure).Err? ==>
      run == Run(Err(ActsOf(structure).message), [ErrorReported(ActsOf(structure).message)])
    ensures run.result.Err? ==> run.events == [ErrorReported(run.result.message)]
    ensures ActsOf(structure).Ok? ==> (
      var acts := ActsOf(structure).value;
      && run.result.Ok?
      && run.result.value.title == structure.value.title
      && |run.result.value.pages| == |acts| == |run.events|
      && (forall k :: 0 <= k < |acts| ==>
            run.result.value.pages[k] == DraftFor(storybookId, acts[k], image(k, acts[k].sceneDescription)))
      && (forall k :: 0 <= k < |acts| ==>
            run.events[k] == EventFor(storybookId, acts[k], image(k, acts[k].sceneDescription))))
  {
    var acts := ActsOf(structure);
    if acts.Err? {
      return Run(Err(acts.message), [ErrorReported(acts.message)]);
    }
    var pages: seq<PageDraft> := [];
    var events: seq<Event> := [];
    var k := 0;
    while k < |acts.value|
      invariant k <= |acts.value|
      invariant |pages| == k && |events| == k
      invariant forall i :: 0 <= i < k ==>
        pages[i] == DraftFor(storybookId, acts.value[i], image(i, acts.value[i].sceneDescription))
      invariant forall i :: 0 <= i < k ==>
        events[i] == EventFor(storybookId, acts.value[i], image(i, acts.value[i].sceneDescription))
    {
      var act := acts.value[k];
      var outcome := image(k, act.sceneDescription);
      var page := DraftFor(storybookId, act, outcome);
      match outcome {
        case Ok(url) =>
          events := events + [PageCompleted(page)];
        case Err(message) =>
          events := events + [ErrorReported(PageFailureMessage(act, message))];
      }
      pages := pages + [page];
      k := k + 1;
    }
    run := Run(Ok(Generated(structure.value.title, pages)), events);
  }

  /** A page has no picture exactly when its act's callback was an error
      report, and every reported page error names that page's act number. */
  lemma FailedPagesAreReported(storybookId: string, act: Act, image: Result<string>)
    ensures DraftFor(storybookId, act, image).imageUrl.None? <==> EventFor(storybookId, act, image).ErrorReported?
    ensures EventFor(storybookId, act, image).ErrorReported? ==>
      IsPrefix("Failed to generate page " + IntToString(act.actNumber) + ": ",
               EventFor(storybookId, act, image).message)
  {
    if image.Err? {
      PrefixOfConcat("Failed to generate page " + IntToString(act.actNumber) + ": ", image.message);
    }
  }

  /** Page numbers come from the outline, not from the position, and the act
      count is not forced to four: two acts numbered 7 and 3, whose second
      picture fails, give two pages numbered 7 and 3 and a run that succeeds. */
  method TwoActsNumberedByTheOutline() returns (run: Run)
    ensures run.result.Ok? && |run.result.value.pages| == 2
    ensures run.result.value.pages[0].pageNumber == 7 && run.result.value.pages[1].pageNumber == 3
    ensures run.result.value.pages[0].imageUrl == Some("u") && run.result.value.pages[1].imageUrl.None?
    ensures |run.events| == 2 && run.events[0].PageCompleted? && run.events[1].ErrorReported?
  {
    var acts := [Act(7, "Introduction", "a fox", "Once"), Act(3, "The Journey", "a hill", "Then")];
    var image := (k: nat, scene: string) => if k == 0 then Ok("u") else Err("boom");
    run := GenerateFullStorybook("b1", Ok(Structure("Fox", Some(acts))), image);
    assert ActsOf(Ok(Structure("Fox", Some(acts)))) == Ok(acts);
  }
}
