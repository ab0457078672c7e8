/** Generation records, the length classes offered by the forms, and the prompts
    sent to the hosted model (app.py, `generate_content` and `translate_content`). */
module Content {
  import opened Text

  /** The three choices of the "Content Length" selectboxes. */
  datatype LengthClass = Short | Medium | Long

  /** The label a length choice is shown with and stored under. */
  function Label(l: LengthClass): string
  {
    match l
    case Short => "Short (2-3 paragraphs)"
    case Medium => "Medium (4-5 paragraphs)"
    case Long => "Long (6-8 paragraphs)"
  }

  /** The options of both length selectboxes, in display order. */
  const LengthOptions: seq<string> := [Label(Short), Label(Medium), Label(Long)]

  /** The length-guide table: the guidance text keyed by length label. */
  const LengthGuide: map<string, string> := map[
    Label(Short) := "2-3 paragraphs or 8-10 lines",
    Label(Medium) := "4-5 paragraphs or 12-16 lines",
    Label(Long) := "6-8 paragraphs or 20-24 lines"
  ]

  /** The guidance for a length choice: the table's entry for its label, which
      always exists, so the lookup never fails. */
  function Guidance(l: LengthClass): (g: string)
    ensures Label(l) in LengthGuide && g == LengthGuide[Label(l)]
  {
    LengthGuideCoversOptions();
    LengthGuide[Label(l)]
  }

  /** `length_guide` is defined for exactly the labels the selectboxes offer,
      and those labels name three different choices. */
  lemma LengthGuideCoversOptions()
    ensures LengthGuide.Keys == set s | s in LengthOptions
    ensures forall l: LengthClass :: Label(l) in LengthOptions
    ensures forall a: LengthClass, b: LengthClass :: Label(a) == Label(b) ==> a == b
  {
  }

  /** One generation result as kept in the session history. */
  datatype Record = Record(
    content: string,
    theme: string,
    language: string,
    style: string,
    length: LengthClass,
    timestamp: string,
    custom: bool)

  /** What a call to the hosted model gives back: its text, or the message of
      the exception it raised. */
  datatype Reply = Answered(text: string) | Raised(message: string)

  // The literal pieces of the templated prompt's f-string.
  const Intro: string := "You are a culturally-aware creative writer. Generate a "
  const AfterStyle: string := " in "
  const AfterLanguage: string := " language.\n\nTheme: "
  const StyleLine: string := "\nStyle: "
  const LengthLine: string := "\nLength: "
  const RequirementsHead: string := "\n\nRequirements:\n1. Write ENTIRELY in "
  const RequirementsMiddle: string :=
    " (no English unless it's English language request)\n2. Incorporate authentic cultural elements and details\n3. Make it engaging and vivid with rich descriptions\n4. Use appropriate literary devices for the "
  const RequirementsTail: string := " format\n5. Ensure cultural sensitivity and accuracy\n\nGenerate the "
  const Closing: string := " now:"

  /** The f-string of the templated prompt, as its segments. */
  function TemplateParts(theme: string, language: string, style: string, length: LengthClass): seq<string>
  {
    [ Intro, style, AfterStyle, language, AfterLanguage, theme, StyleLine, style,
      LengthLine, Guidance(length), RequirementsHead, language, RequirementsMiddle, style,
      RequirementsTail, style, Closing ]
  }

  /** The templated prompt embeds the style, language, theme and length guidance. */
  function TemplatePrompt(theme: string, language: string, style: string, length: LengthClass): (prompt: string)
    ensures Occurs(style, prompt) && Occurs(language, prompt)
    ensures Occurs(theme, prompt) && Occurs(Guidance(length), prompt)
  {
    var parts := TemplateParts(theme, language, style, length);
    ConcatHasPart(parts, 1);
    ConcatHasPart(parts, 3);
    ConcatHasPart(parts, 5);
    ConcatHasPart(parts, 9);
    Concat(parts)
  }

  /** Prompt selection: a non-empty custom prompt is sent verbatim, otherwise the
      template filled from the form. */
  function SelectPrompt(theme: string, language: string, style: string, length: LengthClass,
                        customPrompt: string): (prompt: string)
    ensures customPrompt != "" ==> prompt == customPrompt
    ensures customPrompt == "" ==>
      Occurs(style, prompt) && Occurs(language, prompt) &&
      Occurs(theme, prompt) && Occurs(Guidance(length), prompt)
  {
    if customPrompt != "" then customPrompt else TemplatePrompt(theme, language, style, length)
  }

  /** The record built after a successful model call: the reply text, the form's
      fields and time as given, and the custom flag set exactly when a custom
      prompt was typed. */
  function MakeRecord(content: string, theme: string, language: string, style: string,
                      length: LengthClass, timestamp: string, customPrompt: string): (r: Record)
    ensures r.content == content && r.theme == theme && r.language == language
    ensures r.style == style && r.length == length && r.timestamp == timestamp
    ensures r.custom <==> |customPrompt| > 0
  {
    Record(content, theme, language, style, length, timestamp, customPrompt != "")
  }

  // The literal pieces of the translation prompt's f-string.
  const TranslateIntro: string := "Translate the following text to "
  const TranslateMiddle: string := " and provide cultural context:\n\nText: "
  const TranslateFormat: string :=
    "\n\nFormat:\nTranslation: [translated text]\nCultural Notes: [brief explanation of cultural elements]"

  /** The prompt of `translate_content` embeds the text and the target language. */
  function TranslationPrompt(text: string, targetLanguage: string): (prompt: string)
    ensures Occurs(text, prompt) && Occurs(targetLanguage, prompt)
  {
    var parts := [TranslateIntro, targetLanguage, TranslateMiddle, text, TranslateFormat];
    ConcatHasPart(parts, 1);
    ConcatHasPart(parts, 3);
    Concat(parts)
  }

  /** The literal that starts a failed translation's message. */
  const FailurePrefix: string := "Translation failed: "

  /** What `translate_content` returns for a model reply: the reply's text, or a
      failure message that never throws. */
  function TranslationText(reply: Reply): (shown: string)
    ensures reply.Answered? ==> shown == reply.text
    ensures reply.Raised? ==>
      Occurs(reply.message, shown) && |FailurePrefix| <= |shown| && shown[..|FailurePrefix|] == FailurePrefix
  {
    match reply
    case Answered(text) => text
    case Raised(message) =>
      var shown := FailurePrefix + message;
      assert OccursAt(message, shown, |FailurePrefix|) by {
        assert shown[|FailurePrefix|..|FailurePrefix| + |message|] == message;
      }
      shown
  }
}
