/** The generation hook (`useGeneration`): the storybook job that runs the
    pipeline, saves the pages and settles the storybook's status, and the
    two single-page regenerations. Database calls report errors instead of
    throwing; the outcome of saving the pages is a parameter, and the status
    updates' own errors are never acted on, so they are not. */
module UseGeneration {
  import opened Common
  import opened Records
  import opened Pipeline

  const SaveFailedPrefix: string := "Failed to save pages: "

  /** The hook's `generating` flag and `error` message. */
  datatype HookState = HookState(generating: bool, error: Option<string>)

  /** What `generateStory` resolves to: `{success: true, data}` or
      `{success: false, error}`. */
  datatype Outcome = Success(data: Generated) | Failure(error: string)

  /** One `generateStory` call: its outcome, the database writes it issues in
      order, and the hook states it passes through, first to last. */
  datatype Session = Session(outcome: Outcome, writes: seq<DbWrite>, states: seq<HookState>)

  /** The hook states set by the pipeline's `onError` callbacks, in order. */
  function ErrorTrail(events: seq<Event>): (t: seq<HookState>)
    ensures |t| <= |events|
    ensures forall i :: 0 <= i < |t| ==> t[i].generating && t[i].error.Some?
    ensures (forall i :: 0 <= i < |events| ==> events[i].PageCompleted?) ==> t == []
    ensures |events| == 1 && events[0].ErrorReported? ==> t == [HookState(true, Some(events[0].message))]
  {
    if events == [] then []
    else
      (if events[0].ErrorReported? then [HookState(true, Some(events[0].message))] else [])
      + ErrorTrail(events[1..])
  }

  /** The trail of a run is the trail of its first part followed by the trail
      of the rest: each reported error contributes its own state, in order. */
  lemma {:induction false} ErrorTrailConcat(a: seq<Event>, b: seq<Event>)
    ensures ErrorTrail(a + b) == ErrorTrail(a) + ErrorTrail(b)
    decreases |a|
  {
    if a == [] {
      assert a + b == b;
    } else {
      assert (a + b)[1..] == a[1..] + b;
      ErrorTrailConcat(a[1..], b);
    }
  }

  /** The state the hook leaves after a thrown error with this message. */
  function Caught(message: string): seq<HookState>
  {
    [HookState(true, Some(message)), HookState(false, Some(message))]
  }

  /** `generateStory(storybookId, …)` given the pipeline's run and the error,
      if any, of saving its pages. A failed pipeline saves nothing; pages are
      saved before the status becomes `ready`; a failed save marks the
      storybook `error`; `generating` holds from the first state to the last
      but one, and `error` starts cleared. Every page error the pipeline
      reports is shown, in order, right after the start, and a successful
      call leaves the last of them on display. */
  function GenerateStory(storybookId: string, run: Run, saveError: Option<DbError>): (s: Session)
    ensures |s.states| >= 2 && s.states[0] == HookState(true, None)
    ensures forall i :: 0 <= i < |s.states| - 1 ==> s.states[i].generating
    ensures !s.states[|s.states| - 1].generating
    ensures s.outcome.Success? <==> run.result.Ok? && saveError.None?
    ensures s.outcome.Success? ==> (&& s.outcome.data == run.result.value
                                    && s.writes == [InsertPages(run.result.value.pages), SetStatus(storybookId, Ready)])
    ensures run.result.Err? ==> s.outcome == Failure(run.result.message) && s.writes == [SetStatus(storybookId, Failed)]
    ensures run.result.Ok? && saveError.Some? ==> (&& s.outcome.Failure?
                                                   && IsPrefix(SaveFailedPrefix, s.outcome.error)
                                                   && s.writes == [InsertPages(run.result.value.pages), SetStatus(storybookId, Failed)])
    ensures s.outcome.Failure? ==> s.states[|s.states| - 1].error == Some(s.outcome.error)
    ensures run.result.Ok? && saveError.Some? ==> s.outcome.error == SaveFailedPrefix + Describe(saveError.value)
    ensures |s.states| > 1 + |ErrorTrail(run.events)|
    ensures s.outcome.Success? ==> |s.states| == 2 + |ErrorTrail(run.events)|
    ensures s.states[..1 + |ErrorTrail(run.events)|] == [HookState(true, None)] + ErrorTrail(run.events)
    ensures s.outcome.Success? ==> s.states[|s.states| - 1].error == s.states[|s.states| - 2].error
    ensures s.outcome.Success? && (forall k :: 0 <= k < |run.events| ==> run.events[k].PageCompleted?)
            ==> s.states[|s.states| - 1].error.None?
  {
    var trail := [HookState(true, None)] + ErrorTrail(run.events);
    match run.result
    case Err(m) =>
      Session(Failure(m), [SetStatus(storybookId, Failed)], trail + Caught(m))
    case Ok(generated) =>
      match saveError
      case Some(e) =>
        var m := SaveFailedPrefix + Describe(e);
        PrefixOfConcat(SaveFailedPrefix, Describe(e));
        Session(Failure(m), [InsertPages(generated.pages), SetStatus(storybookId, Failed)], trail + Caught(m))
      case None =>
        Session(Success(generated), [InsertPages(generated.pages), SetStatus(storybookId, Ready)],
                trail + [HookState(false, trail[|trail| - 1].error)])
  }

  /** Every session ends with exactly one status write, for this storybook,
      and it is `ready` exactly when the call succeeded; pages are written at
      most once, and never after the status. */
  lemma StatusSettledLast(storybookId: string, run: Run, saveError: Option<DbError>)
    ensures var s := GenerateStory(storybookId, run, saveError);
      && |s.writes| > 0
      && s.writes[|s.writes| - 1].SetStatus?
      && s.writes[|s.writes| - 1].storybookId == storybookId
      && (s.writes[|s.writes| - 1].status == Ready <==> s.outcome.Success?)
      && (s.writes[|s.writes| - 1].status == Ready || s.writes[|s.writes| - 1].status == Failed)
      && (forall i :: 0 <= i < |s.writes| - 1 ==> s.writes[i].InsertPages?)
  {
  }

  /** The whole job: the pipeline, then `generateStory`'s handling of it. With
      a usable outline and a successful save the storybook becomes `ready`
      whatever happened to the pictures, and the saved pages are one per act
      with `null` exactly where the picture failed. Without a usable outline
      no page is ever saved. */
  method StoryJob(storybookId: string, structure: Result<Structure>,
                  image: (nat, string) -> Result<string>, saveError: Option<DbError>)
    returns (s: Session)
    ensures ActsOf(structure).Ok? && saveError.None? ==> (
      var acts := ActsOf(structure).value;
      && s.outcome.Success?
      && |s.writes| == 2
      && s.writes[1] == SetStatus(storybookId, Ready)
      && s.writes[0].InsertPages?
      && |s.writes[0].pages| == |acts|
      && forall k :: 0 <= k < |acts| ==>
           (s.writes[0].pages[k].imageUrl.None? <==> image(k, acts[k].sceneDescription).Err?))
    ensures ActsOf(structure).Err? ==> (&& s.outcome == Failure(ActsOf(structure).message)
                                        && forall w :: w in s.writes ==> !w.InsertPages?)
  {
    var run := GenerateFullStorybook(storybookId, structure, image);
    s := GenerateStory(storybookId, run, saveError);
  }

  /** What a regeneration resolves to and the writes it issues. */
  datatype Regeneration = Regeneration(result: Result<string>, writes: seq<DbWrite>)

  /** `regeneratePageImage(pageId, …)` given the outcome of `generateImage`.
      The update's own error is not checked: success follows the image. */
  function RegeneratePageImage(pageId: string, image: Result<string>): (r: Regeneration)
    ensures r.result == image
    ensures |r.writes| <= 1 && (|r.writes| == 1 <==> image.Ok?)
    ensures forall w :: w in r.writes ==> w == UpdatePage(pageId, SetImageUrl(image.value))
  {
    match image
    case Ok(url) => Regeneration(Ok(url), [UpdatePage(pageId, SetImageUrl(url))])
    case Err(m) => Regeneration(Err(m), [])
  }

  /** `regeneratePageText(pageId, …)` given the outcome of `generateActText`. */
  function RegeneratePageText(pageId: string, text: Result<string>): (r: Regeneration)
    ensures r.result == text
    ensures |r.writes| <= 1 && (|r.writes| == 1 <==> text.Ok?)
    ensures forall w :: w in r.writes ==> w == UpdatePage(pageId, SetTextContent(text.value))
  {
    match text
    case Ok(t) => Regeneration(Ok(t), [UpdatePage(pageId, SetTextContent(t))])
    case Err(m) => Regeneration(Err(m), [])
  }

  /** Applied to the page it names, an image regeneration's write changes the
      picture and nothing else, and a text regeneration's write the text and
      nothing else. */
  lemma RegenerationsTouchOneField(p: Page, image: Result<string>, text: Result<string>)
    ensures forall w :: w in RegeneratePageImage(p.id, image).writes ==>
      ApplyUpdate(p, w.update) == p.(imageUrl := Some(image.value))
    ensures forall w :: w in RegeneratePageText(p.id, text).writes ==>
      ApplyUpdate(p, w.update) == p.(textContent := text.value)
  {
  }
}
