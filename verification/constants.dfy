/** The fixed vocabulary of generation: the selectable illustration styles,
    the four act titles and the safety preamble of every image prompt. */
module Constants {
  import opened Common

  /** One option of the style picker: the value sent to the image service and
      the title shown to the user (`label` in the source). */
  datatype VisualStyle = VisualStyle(value: string, title: string)

  const VisualStyles: seq<VisualStyle> := [
    VisualStyle("watercolor", "Watercolor"),
    VisualStyle("claymation", "Claymation"),
    VisualStyle("pastel", "Pastel Illustration"),
    VisualStyle("cartoon", "Cartoon"),
    VisualStyle("digital_art", "Digital Art")
  ]

  /** The style a fresh story form starts with. */
  const DefaultStyle: string := "watercolor"

  const ActTitles: seq<string> := [
    "Introduction",
    "The Journey",
    "The Gentle Conflict",
    "The Sleepy Resolution"
  ]

  const SafetyPromptPrefix: string :=
    "Illustration for children's storybook, soft lighting, friendly and gentle, no scary elements, toddler-safe, warm colors"

  /** The style picker offers five styles with distinct values; the default
      style is the first of them. */
  lemma VisualStylesWellFormed()
    ensures |VisualStyles| == 5
    ensures forall i, j :: 0 <= i < j < |VisualStyles| ==> VisualStyles[i].value != VisualStyles[j].value
    ensures VisualStyles[0].value == DefaultStyle
  {
  }

  /** The story outline has exactly four acts, with these titles in this order. */
  lemma ActTitlesAreTheFourBeats()
    ensures |ActTitles| == 4
    ensures ActTitles[0] == "Introduction" && ActTitles[1] == "The Journey"
    ensures ActTitles[2] == "The Gentle Conflict" && ActTitles[3] == "The Sleepy Resolution"
  {
  }

  /** The prompt for one illustration: the safety preamble, then the style,
      then the scene. */
  function GetImagePrompt(style: string, scene: string): (r: string)
    ensures IsPrefix(SafetyPromptPrefix, r)
    ensures IsSuffix(scene, r)
    ensures IsSubstring(style, r)
  {
    var r := SafetyPromptPrefix + ", " + style + " style, " + scene;
    var i := |SafetyPromptPrefix| + 2;
    assert r[i..i + |style|] == style;
    r
  }

  /** For a fixed style, the prompt determines the scene: two different scenes
      never share an image prompt. */
  lemma GetImagePromptInjective(style: string, a: string, b: string)
    requires GetImagePrompt(style, a) == GetImagePrompt(style, b)
    ensures a == b
  {
    var head := SafetyPromptPrefix + ", " + style + " style, ";
    assert GetImagePrompt(style, a) == head + a;
    assert GetImagePrompt(style, b) == head + b;
    assert a == (head + a)[|head|..];
  }
}
