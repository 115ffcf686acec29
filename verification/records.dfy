/** The entities the application moves between the generators, the database
    and the screens: acts of a story outline, page rows, storybook rows, and
    the writes the application issues against the database. */
module Records {
  import opened Common

  /** The storybook statuses the application writes and branches on. */
  const Generating: string := "generating"
  const Ready: string := "ready"
  const Failed: string := "error"

  /** One act of the outline returned by the text model. */
  datatype Act = Act(actNumber: int, actTitle: string, sceneDescription: string, textContent: string)

  /** The parsed outline. `acts` is `None` when the parsed object has no
      `acts` field. */
  datatype Structure = Structure(title: string, acts: Option<seq<Act>>)

  /** A page as assembled by the generation pipeline, before the database
      gives it an id. `imageUrl` is `None` (`null`) when the illustration
      failed. */
  datatype PageDraft = PageDraft(
    storybookId: string,
    pageNumber: int,
    actTitle: string,
    textContent: string,
    imageUrl: Option<string>,
    imagePrompt: string)

  /** A stored page row. */
  datatype Page = Page(
    id: string,
    storybookId: string,
    pageNumber: int,
    actTitle: string,
    textContent: string,
    imageUrl: Option<string>,
    imagePrompt: string)

  /** A stored storybook row (the fields the application reads). */
  datatype Storybook = Storybook(
    id: string,
    title: string,
    childName: string,
    originalPrompt: string,
    visualStyle: string,
    status: string)

  /** The row inserted when a user submits a story idea. */
  datatype NewStorybook = NewStorybook(
    userId: string,
    title: string,
    childName: string,
    originalPrompt: string,
    visualStyle: string,
    status: string)

  /** The single-field update a regeneration sends for one page. */
  datatype PageUpdate = SetImageUrl(url: string) | SetTextContent(text: string)

  /** A write the application issues against the database, in issue order. */
  datatype DbWrite =
    | InsertStorybook(row: NewStorybook)
    | InsertPages(pages: seq<PageDraft>)
    | SetStatus(storybookId: string, status: string)
    | UpdatePage(pageId: string, update: PageUpdate)
    | DeleteStorybook(storybookId: string)

  /** `{ ...p, image_url }` or `{ ...p, text_content }`. */
  function ApplyUpdate(p: Page, u: PageUpdate): Page
  {
    match u
    case SetImageUrl(url) => p.(imageUrl := Some(url))
    case SetTextContent(text) => p.(textContent := text)
  }

  /** An update changes exactly the field it names: the id, the page number,
      the act title, the prompt and the other content field stay as they were. */
  lemma ApplyUpdateTouchesOneField(p: Page, u: PageUpdate)
    ensures var q := ApplyUpdate(p, u);
      && q.id == p.id && q.storybookId == p.storybookId && q.pageNumber == p.pageNumber
      && q.actTitle == p.actTitle && q.imagePrompt == p.imagePrompt
      && (u.SetImageUrl? ==> q.imageUrl == Some(u.url) && q.textContent == p.textContent)
      && (u.SetTextContent? ==> q.textContent == u.text && q.imageUrl == p.imageUrl)
  {
  }
}
