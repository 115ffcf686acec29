/** The create page (`CreateStoryPage`): the title derived from the idea and
    the order of effects when the form is submitted. */
module CreateStoryPage {
  import opened Common
  import opened Records
  import MagicPrompt

  /** The owner of every storybook created here. */
  const DummyUserId: string := "00000000-0000-0000-0000-000000000000"
  const TitleLimit: nat := 50
  const Ellipsis: string := "..."
  const CreateFailedPrefix: string := "Failed to create storybook: "
  const NoDataMessage: string := "no data returned"

  /** The title: the idea itself when it has at most fifty characters, else
      its first fifty followed by `...`. */
  function Title(prompt: string): (t: string)
    ensures |prompt| <= TitleLimit ==> t == prompt
    ensures |prompt| > TitleLimit ==> |t| == TitleLimit + 3 && IsPrefix(prompt[..TitleLimit], t) && IsSuffix(Ellipsis, t)
    ensures |t| <= TitleLimit + 3
  {
    if |prompt| > TitleLimit then
      var t := prompt[..TitleLimit] + Ellipsis;
      assert t[..TitleLimit] == prompt[..TitleLimit];
      assert t[TitleLimit..] == Ellipsis;
      t
    else prompt
  }

  /** A title is its own title: deriving it again from a truncated title
      cuts the same fifty characters and adds the same ellipsis. */
  lemma TitleIdempotent(prompt: string)
    ensures Title(Title(prompt)) == Title(prompt)
  {
    if |prompt| > TitleLimit {
      var t := Title(prompt);
      assert t[..TitleLimit] == prompt[..TitleLimit];
      assert t == prompt[..TitleLimit] + Ellipsis;
    }
  }

  /** What the create call answers: the inserted row and the error, each
      possibly absent. */
  datatype CreateReply = CreateReply(data: Option<Storybook>, error: Option<DbError>)

  /** An effect of the submit handler, in the order it happens. */
  datatype Effect =
    | Insert(row: NewStorybook)
    | StartGeneration(storybookId: string, userId: string, prompt: string, childName: string, visualStyle: string)
    | Navigate(path: string)
    | Alert(message: string)

  /** The effects of a submit and the final `isGenerating` flag. */
  datatype Handled = Handled(effects: seq<Effect>, isGenerating: bool)

  /** `handleSubmit(submission)`. The storybook is inserted first, owned by
      the fixed user and marked `generating`; on an error or an empty reply
      the user is alerted and the page is released; otherwise generation is
      started for the new id and only then does the page move to its editor. */
  function HandleSubmit(s: MagicPrompt.Submission, reply: CreateReply): (h: Handled)
    ensures |h.effects| >= 2
    ensures h.effects[0] == Insert(NewStorybook(DummyUserId, Title(s.prompt), s.childName, s.prompt, s.visualStyle, Generating))
    ensures reply.error.Some? ==> h == Handled([h.effects[0], Alert(CreateFailedPrefix + Describe(reply.error.value))], false)
    ensures reply.error.None? && reply.data.None? ==> h == Handled([h.effects[0], Alert(CreateFailedPrefix + NoDataMessage)], false)
    ensures h.isGenerating <==> reply.error.None? && reply.data.Some?
    ensures h.isGenerating ==> (
      var id := reply.data.value.id;
      h.effects[1..] == [StartGeneration(id, DummyUserId, s.prompt, s.childName, s.visualStyle), Navigate("/edit/" + id)])
    ensures forall k :: 0 <= k < |h.effects| && h.effects[k].Navigate? ==> h.isGenerating && k == |h.effects| - 1
  {
    var insert := Insert(NewStorybook(DummyUserId, Title(s.prompt), s.childName, s.prompt, s.visualStyle, Generating));
    if reply.error.Some? then
      Handled([insert, Alert(CreateFailedPrefix + Describe(reply.error.value))], false)
    else if reply.data.None? then
      Handled([insert, Alert(CreateFailedPrefix + NoDataMessage)], false)
    else
      var id := reply.data.value.id;
      Handled([insert, StartGeneration(id, DummyUserId, s.prompt, s.childName, s.visualStyle), Navigate("/edit/" + id)], true)
  }
}
