/** The page editor screen (`DirectorsCut`): the pages in display order, the
    single busy key shared by all cards, the error banner, and the two
    per-page regenerations. The generators are one parameter, `generate`,
    giving the outcome of the request it is handed; the database update's
    result is never read, so it is not a parameter. */
module DirectorsCut {
  import opened Common
  import opened Records
  import opened PageOrder
  import opened PageEditor

  const ImageFailedPrefix: string := "Failed to regenerate image: "
  const TextFailedPrefix: string := "Failed to regenerate text: "

  /** The editor's state: its pages, the busy key (`null` is `None`) and the
      error banner (`''` when hidden). */
  datatype Editor = Editor(pages: seq<Page>, busy: Option<string>, error: string)

  /** The state once the sorting effect has run over the pages handed in
      (`None` when none were). */
  function Init(initial: Option<seq<Page>>): (e: Editor)
    ensures e.busy.None? && e.error == ""
    ensures initial.None? ==> e.pages == []
    ensures initial.Some? ==> (&& SortedByNumber(e.pages)
                               && multiset(e.pages) == multiset(initial.value)
                               && forall n :: WithNumber(e.pages, n) == WithNumber(initial.value, n))
  {
    match initial
    case None => Editor([], None, "")
    case Some(ps) =>
      assert forall n :: WithNumber(SortByNumber(ps), n) == WithNumber(ps, n) by {
        forall n { SortIsStable(ps, n); }
      }
      Editor(SortByNumber(ps), None, "")
  }

  /** `pages.findIndex(p => p.id === id)`, as an option. */
  function FindIndex(ps: seq<Page>, id: string): (r: Option<nat>)
    ensures r.Some? ==> r.value < |ps| && ps[r.value].id == id
    ensures r.Some? ==> forall k :: 0 <= k < r.value ==> ps[k].id != id
    ensures r.None? ==> forall k :: 0 <= k < |ps| ==> ps[k].id != id
    decreases |ps|
  {
    if ps == [] then None
    else if ps[0].id == id then Some(0)
    else
      match FindIndex(ps[1..], id)
      case None => None
      case Some(k) => Some(k + 1)
  }

  /** `pages.map(p => p.id === id ? { ...p, <field> } : p)`. */
  function UpdateWhere(ps: seq<Page>, id: string, u: PageUpdate): (r: seq<Page>)
    ensures |r| == |ps|
    ensures forall k :: 0 <= k < |ps| && ps[k].id != id ==> r[k] == ps[k]
    ensures forall k :: 0 <= k < |ps| && ps[k].id == id ==> r[k] == ApplyUpdate(ps[k], u)
    decreases |ps|
  {
    if ps == [] then []
    else [if ps[0].id == id then ApplyUpdate(ps[0], u) else ps[0]] + UpdateWhere(ps[1..], id, u)
  }

  /** The update leaves the display order intact: same ids and page numbers
      in the same positions, so sorted pages stay sorted. */
  lemma UpdateKeepsOrder(ps: seq<Page>, id: string, u: PageUpdate)
    ensures forall k :: 0 <= k < |ps| ==>
      UpdateWhere(ps, id, u)[k].id == ps[k].id && UpdateWhere(ps, id, u)[k].pageNumber == ps[k].pageNumber
    ensures SortedByNumber(ps) ==> SortedByNumber(UpdateWhere(ps, id, u))
  {
    var r := UpdateWhere(ps, id, u);
    forall k | 0 <= k < |ps|
      ensures r[k].id == ps[k].id && r[k].pageNumber == ps[k].pageNumber
    {
      if ps[k].id == id {
        ApplyUpdateTouchesOneField(ps[k], u);
      }
    }
  }

  /** The `TypeError` V8 throws when reading `field` of the `undefined` that
      `find` returns for an unknown id. The wording is the engine's own, not
      the application's: other JavaScript engines phrase it differently. */
  function MissingPageMessage(field: string): string
  {
    "Cannot read properties of undefined (reading '" + field + "')"
  }

  /** What the editor asks the generators for: an image for a scene in a
      style, or the text of one act. */
  datatype GenRequest =
    | ImageRequest(scene: string, style: string)
    | TextRequest(prompt: string, childName: string, actTitle: string, actNumber: int)

  /** One regeneration: the state while it runs, the request it makes (none
      when the page is not found), the database writes, the final state. */
  datatype Regeneration = Regeneration(during: Editor, request: Option<GenRequest>,
                                       writes: seq<DbWrite>, after: Editor)

  /** `handleRegenerateImage(pageId)`. The page's stored prompt and the
      storybook's style are sent; a new picture replaces only the matching
      pages' `image_url`; a failure leaves the pages alone and shows a
      prefixed message; the busy key is cleared on every exit. */
  function RegenerateImage(e: Editor, storybook: Storybook, pageId: string,
                           generate: GenRequest -> Result<string>): (r: Regeneration)
    ensures r.during == e.(busy := Some(ImageKey(pageId)), error := "")
    ensures r.after.busy.None?
    ensures FindIndex(e.pages, pageId).None? ==> (&& r.request.None? && r.writes == []
                                                  && r.after.pages == e.pages
                                                  && r.after.error == ImageFailedPrefix + MissingPageMessage("image_prompt"))
    ensures FindIndex(e.pages, pageId).Some? ==>
      r.request == Some(ImageRequest(e.pages[FindIndex(e.pages, pageId).value].imagePrompt, storybook.visualStyle))
    ensures r.request.Some? && generate(r.request.value).Ok? ==> (
      var url := generate(r.request.value).value;
      && r.writes == [UpdatePage(pageId, SetImageUrl(url))]
      && r.after.pages == UpdateWhere(e.pages, pageId, SetImageUrl(url))
      && r.after.error == "")
    ensures r.request.Some? && generate(r.request.value).Err? ==> (&& r.writes == [] && r.after.pages == e.pages
                                                                   && r.after.error == ImageFailedPrefix + generate(r.request.value).message)
  {
    var during := e.(busy := Some(ImageKey(pageId)), error := "");
    match FindIndex(e.pages, pageId)
    case None =>
      Regeneration(during, None, [], during.(busy := None, error := ImageFailedPrefix + MissingPageMessage("image_prompt")))
    case Some(k) =>
      var request := ImageRequest(e.pages[k].imagePrompt, storybook.visualStyle);
      match generate(request)
      case Err(m) =>
        Regeneration(during, Some(request), [], during.(busy := None, error := ImageFailedPrefix + m))
      case Ok(url) =>
        Regeneration(during, Some(request), [UpdatePage(pageId, SetImageUrl(url))],
                     during.(pages := UpdateWhere(e.pages, pageId, SetImageUrl(url)), busy := None))
  }

  /** `handleRegenerateText(pageId)`. The storybook's original idea and child
      name and the page's act title and page number (as the act number) are
      sent; new text replaces only the matching pages' `text_content`. */
  function RegenerateText(e: Editor, storybook: Storybook, pageId: string,
                          generate: GenRequest -> Result<string>): (r: Regeneration)
    ensures r.during == e.(busy := Some(TextKey(pageId)), error := "")
    ensures r.after.busy.None?
    ensures FindIndex(e.pages, pageId).None? ==> (&& r.request.None? && r.writes == []
                                                  && r.after.pages == e.pages
                                                  && r.after.error == TextFailedPrefix + MissingPageMessage("act_title"))
    ensures FindIndex(e.pages, pageId).Some? ==> (
      var p := e.pages[FindIndex(e.pages, pageId).value];
      r.request == Some(TextRequest(storybook.originalPrompt, storybook.childName, p.actTitle, p.pageNumber)))
    ensures r.request.Some? && generate(r.request.value).Ok? ==> (
      var text := generate(r.request.value).value;
      && r.writes == [UpdatePage(pageId, SetTextContent(text))]
      && r.after.pages == UpdateWhere(e.pages, pageId, SetTextContent(text))
      && r.after.error == "")
    ensures r.request.Some? && generate(r.request.value).Err? ==> (&& r.writes == [] && r.after.pages == e.pages
                                                                   && r.after.error == TextFailedPrefix + generate(r.request.value).message)
  {
    var during := e.(busy := Some(TextKey(pageId)), error := "");
    match FindIndex(e.pages, pageId)
    case None =>
      Regeneration(during, None, [], during.(busy := None, error := TextFailedPrefix + MissingPageMessage("act_title")))
    case Some(k) =>
      var p := e.pages[k];
      var request := TextRequest(storybook.originalPrompt, storybook.childName, p.actTitle, p.pageNumber);
      match generate(request)
      case Err(m) =>
        Regeneration(during, Some(request), [], during.(busy := None, error := TextFailedPrefix + m))
      case Ok(text) =>
        Regeneration(during, Some(request), [UpdatePage(pageId, SetTextContent(text))],
                     during.(pages := UpdateWhere(e.pages, pageId, SetTextContent(text)), busy := None))
  }

  /** After either regeneration the editor keeps its pages' ids and order,
      stays sorted, and every page either is as it was or differs in the one
      field that regeneration writes. */
  lemma RegenerationsKeepTheEditorInOrder(e: Editor, storybook: Storybook, pageId: string,
                                          generate: GenRequest -> Result<string>)
    requires SortedByNumber(e.pages)
    ensures var after := RegenerateImage(e, storybook, pageId, generate).after;
      && |after.pages| == |e.pages| && SortedByNumber(after.pages)
      && forall k :: 0 <= k < |e.pages| ==>
           after.pages[k] == e.pages[k] || (e.pages[k].id == pageId && after.pages[k] == e.pages[k].(imageUrl := after.pages[k].imageUrl))
    ensures var after := RegenerateText(e, storybook, pageId, generate).after;
      && |after.pages| == |e.pages| && SortedByNumber(after.pages)
      && forall k :: 0 <= k < |e.pages| ==>
           after.pages[k] == e.pages[k] || (e.pages[k].id == pageId && after.pages[k] == e.pages[k].(textContent := after.pages[k].textContent))
  {
    var ri := RegenerateImage(e, storybook, pageId, generate);
    if ri.request.Some? && generate(ri.request.value).Ok? {
      UpdateKeepsOrder(e.pages, pageId, SetImageUrl(generate(ri.request.value).value));
    }
    var rt := RegenerateText(e, storybook, pageId, generate);
    if rt.request.Some? && generate(rt.request.value).Ok? {
      UpdateKeepsOrder(e.pages, pageId, SetTextContent(generate(rt.request.value).value));
    }
  }

  /** What the screen shows: a loading view while there are no pages, else
      one card per page in display order, all reading the one busy key. */
  datatype View = Loading | Grid(cards: seq<Card>)

  function ViewOf(e: Editor): (v: View)
    ensures v.Loading? <==> |e.pages| == 0
    ensures v.Grid? ==> |v.cards| == |e.pages| && forall k :: 0 <= k < |e.pages| ==> v.cards[k] == CardOf(e.pages[k], e.busy)
  {
    if |e.pages| == 0 then Loading else Grid(seq(|e.pages|, k requires 0 <= k < |e.pages| => CardOf(e.pages[k], e.busy)))
  }

  /** While a regeneration runs, only the page it names is blocked: every
      card of another page keeps its buttons enabled. */
  lemma OnlyTheTargetIsBlocked(e: Editor, storybook: Storybook, pageId: string,
                               generate: GenRequest -> Result<string>, k: nat)
    requires k < |e.pages| && e.pages[k].id != pageId
    ensures !CardOf(e.pages[k], RegenerateImage(e, storybook, pageId, generate).during.busy).buttonsDisabled
    ensures !CardOf(e.pages[k], RegenerateText(e, storybook, pageId, generate).during.busy).buttonsDisabled
  {
    OtherPageNeverBlocks(e.pages[k], pageId);
  }
}
