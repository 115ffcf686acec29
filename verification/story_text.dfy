/** The text half of the generators: the story outline (`generateStoryStructure`)
    and the text of one act (`generateActText`). The chat completion is a
    parameter: `Ok(content)` is the first choice's message content, `Err` any
    error the chat call or the reading of its reply throws. `parse` stands for
    `JSON.parse`, `None` when it throws. */
module StoryText {
  import opened Common
  import opened Records
  import JsonSpan

  const MissingKeyMessage: string :=
    "OpenAI API key not configured. Please set VITE_OPENAI_API_KEY in .env.local"
  const StructureFailedMessage: string := "Failed to generate story structure"
  const TextFailedMessage: string := "Failed to generate text"

  /** `generateStoryStructure(prompt, childName)`. A missing key is reported
      with its own message before anything is sent; every later failure (the
      call, a reply without a JSON object, an object that does not parse)
      collapses into the one generic message. An outline is returned only when
      it is what the reported `{…}` span of the reply parses to. */
  function GenerateStoryStructure(keyConfigured: bool, completion: Result<string>,
                                  parse: string -> Option<Structure>): (r: Result<Structure>)
    ensures !keyConfigured ==> r == Err(MissingKeyMessage)
    ensures r.Err? ==> (r.message == MissingKeyMessage <==> !keyConfigured)
    ensures keyConfigured && r.Err? ==> r.message == StructureFailedMessage
    ensures keyConfigured && completion.Err? ==> r == Err(StructureFailedMessage)
    ensures r.Ok? ==> (&& keyConfigured && completion.Ok?
                       && exists i, j :: JsonSpan.IsReported(completion.value, i, j)
                                         && parse(completion.value[i..j]) == Some(r.value))
    ensures keyConfigured && completion.Ok? && JsonSpan.Extract(completion.value).None? ==> r.Err?
    ensures keyConfigured && completion.Ok? && JsonSpan.Extract(completion.value).Some?
            && parse(JsonSpan.Extract(completion.value).value).Some?
            ==> r == Ok(parse(JsonSpan.Extract(completion.value).value).value)
  {
    if !keyConfigured then Err(MissingKeyMessage)
    else
      match completion
      case Err(_) => Err(StructureFailedMessage)
      case Ok(content) =>
        match JsonSpan.Extract(content)
        case None => Err(StructureFailedMessage)
        case Some(span) =>
          match parse(span)
          case None => Err(StructureFailedMessage)
          case Some(structure) => Ok(structure)
  }

  /** A reply in which no `{` precedes a `}` never yields an outline, whatever
      the parser would make of it. */
  lemma NoObjectNoOutline(completion: string, parse: string -> Option<Structure>)
    requires forall i, j :: 0 <= i < j < |completion| ==> !(completion[i] == '{' && completion[j] == '}')
    ensures GenerateStoryStructure(true, Ok(completion), parse) == Err(StructureFailedMessage)
  {
    JsonSpan.ExtractShape(completion);
  }

  /** An object with chatter around it, nested acts and all, yields exactly
      what that object parses to, provided the chatter before it opens no
      brace and the chatter after it closes none. */
  lemma OutlineAmidChatter(pre: string, obj: string, post: string, parse: string -> Option<Structure>)
    requires |obj| >= 2 && obj[0] == '{' && obj[|obj| - 1] == '}'
    requires forall k :: 0 <= k < |pre| ==> pre[k] != '{'
    requires forall k :: 0 <= k < |post| ==> post[k] != '}'
    requires parse(obj).Some?
    ensures GenerateStoryStructure(true, Ok(pre + obj + post), parse) == Ok(parse(obj).value)
  {
    JsonSpan.ExtractAmidChatter(pre, obj, post);
  }

  /** `generateActText(prompt, childName, actTitle, actNumber)`: the reply's
      content without surrounding white space, or the generic text error.
      There is no key check of its own: a missing key surfaces as a failed
      call. */
  function GenerateActText(completion: Result<string>): (r: Result<string>)
    ensures r.Ok? <==> completion.Ok?
    ensures r.Err? ==> r.message == TextFailedMessage
    ensures r.Ok? ==> (&& |r.value| <= |completion.value|
                       && exists i :: (&& 0 <= i <= |completion.value| - |r.value|
                                       && completion.value[i..i + |r.value|] == r.value
                                       && IsBlank(completion.value[..i])
                                       && IsBlank(completion.value[i + |r.value|..])))
    ensures r.Ok? && |r.value| > 0 ==> !IsJsSpace(r.value[0]) && !IsJsSpace(r.value[|r.value| - 1])
  {
    match completion
    case Err(_) => Err(TextFailedMessage)
    case Ok(content) => Ok(Trim(content))
  }

  /** The act text is empty exactly when the reply was white space only, and
      trimming what was returned changes nothing more. */
  lemma ActTextEmptyIffBlank(content: string)
    ensures GenerateActText(Ok(content)).value == "" <==> IsBlank(content)
    ensures Trim(GenerateActText(Ok(content)).value) == GenerateActText(Ok(content)).value
  {
    TrimEmptyIffBlank(content);
    TrimIdempotent(content);
  }
}
