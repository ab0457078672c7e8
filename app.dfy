/** The steps of one user session (app.py, `main` and `generate_content`): lazy
    creation of the history, the two generation forms with their input guards,
    the translate tab and the history tab. The hosted model is the parameter
    `model`, a function from prompt to reply; the wall clock is the parameter `now`. */
module App {
  import opened Wrappers
  import opened Text
  import opened Content
  import opened History

  /** The part of the session state this model keeps: the `history` key, which
      is absent (null) until the script first runs. */
  class Session {
    var history: Store?

    constructor ()
      ensures history == null
    {
      history := null;
    }

    /** The script's start-up step: creates an empty history only when there is
        none, so running it again changes nothing. */
    method InitHistory()
      modifies this
      ensures history != null
      ensures old(history) == null ==> fresh(history) && history.records == []
      ensures old(history) != null ==> history == old(history) && history.records == old(history.records)
    {
      if history == null {
        history := new Store();
      }
    }
  }

  /** The "Generate Content" button calls the model only with a theme and a
      language; a missing one gives a warning instead. */
  function CanGenerate(theme: string, language: string): (ok: bool)
    ensures !ok <==> |theme| == 0 || |language| == 0
  {
    theme != "" && language != ""
  }

  /** The custom-prompt button calls the model only with a prompt, a theme and a
      language: a stricter gate than the templated form's. */
  function CanGenerateCustom(customPrompt: string, theme: string, language: string): (ok: bool)
    ensures ok <==> |customPrompt| > 0 && CanGenerate(theme, language)
  {
    customPrompt != "" && theme != "" && language != ""
  }

  /** The "Translate & Explain" button calls the model only with a target language. */
  function CanTranslate(targetLanguage: string): (ok: bool)
    ensures ok <==> |targetLanguage| > 0
  {
    targetLanguage != ""
  }

  /** `generate_content`: the prompt is chosen, the model is called, and only a
      reply appends a record; a raised exception leaves the history as it was
      and gives None. */
  method GenerateContent(history: Store, model: string -> Reply,
                         theme: string, language: string, style: string, length: LengthClass,
                         customPrompt: string, now: string)
    returns (result: Option<Record>)
    modifies history
    ensures var reply := model(SelectPrompt(theme, language, style, length, customPrompt));
      && (reply.Raised? ==> result == None && history.records == old(history.records))
      && (reply.Answered? ==>
            && result == Some(Record(reply.text, theme, language, style, length, now, customPrompt != ""))
            && history.records == old(history.records) + [result.value])
  {
    var prompt := SelectPrompt(theme, language, style, length, customPrompt);
    var reply := model(prompt);
    match reply
    case Raised(_) =>
      result := None;
    case Answered(text) =>
      var record := MakeRecord(text, theme, language, style, length, now, customPrompt);
      history.Append(record);
      result := Some(record);
  }

  /** What pressing a generate button led to. */
  datatype Attempt = NotAttempted | Failed | Generated(record: Record)

  /** The "Generate" tab: when its button is pressed with both fields filled, the
      templated prompt is sent and a reply is stored as a non-custom record and
      offered for download. Without a press nothing happens. */
  method GenerateTab(history: Store, model: string -> Reply, clicked: bool,
                     theme: string, language: string, style: string, length: LengthClass, now: string)
    returns (attempt: Attempt, fileName: Option<string>)
    modifies history
    ensures attempt.NotAttempted? <==> !clicked || !CanGenerate(theme, language)
    ensures !attempt.Generated? ==> history.records == old(history.records) && fileName == None
    ensures attempt.Failed? ==> model(TemplatePrompt(theme, language, style, length)).Raised?
    ensures attempt.Generated? ==>
      var reply := model(TemplatePrompt(theme, language, style, length));
      && reply.Answered?
      && attempt.record == Record(reply.text, theme, language, style, length, now, false)
      && history.records == old(history.records) + [attempt.record]
      && fileName == Some(DownloadFileName(theme, language))
  {
    fileName := None;
    if !clicked || !CanGenerate(theme, language) {
      attempt := NotAttempted;
    } else {
      var result := GenerateContent(history, model, theme, language, style, length, "", now);
      if result.Some? {
        attempt := Generated(result.value);
        fileName := Some(DownloadFileName(theme, language));
      } else {
        attempt := Failed;
      }
    }
  }

  /** The "Custom Prompt" tab: when its button is pressed with prompt, theme and
      language filled, the prompt is sent verbatim and a reply is stored as a
      custom record. Without a press nothing happens. */
  method CustomPromptTab(history: Store, model: string -> Reply, clicked: bool,
                         theme: string, language: string, style: string, length: LengthClass,
                         customPrompt: string, now: string)
    returns (attempt: Attempt)
    modifies history
    ensures attempt.NotAttempted? <==> !clicked || !CanGenerateCustom(customPrompt, theme, language)
    ensures !attempt.Generated? ==> history.records == old(history.records)
    ensures attempt.Failed? ==> model(customPrompt).Raised?
    ensures attempt.Generated? ==>
      && model(customPrompt).Answered?
      && attempt.record == Record(model(customPrompt).text, theme, language, style, length, now, true)
      && history.records == old(history.records) + [attempt.record]
  {
    if !clicked || !CanGenerateCustom(customPrompt, theme, language) {
      attempt := NotAttempted;
    } else {
      var result := GenerateContent(history, model, theme, language, style, length, customPrompt, now);
      attempt := if result.Some? then Generated(result.value) else Failed;
    }
  }

  /** The "Translate" tab. With an empty history it only shows a notice: no
      selector, no preview, no translation. Otherwise the selector labels every
      record and offers its positions, the record picked is previewed, and a
      press of the button with a target language sends its content for
      translation. The history is only read. */
  method TranslateTab(history: Store, selected: Option<nat>, targetLanguage: string, clicked: bool,
                      model: string -> Reply)
    returns (labels: seq<string>, preview: Option<string>, translation: Option<string>)
    requires selected.None? <==> history.records == []
    requires selected.Some? ==> selected.value in SelectorOptions(|history.records|)
    ensures |labels| == |history.records|
    ensures forall i :: 0 <= i < |labels| ==> labels[i] == Title(history.records[i])
    ensures preview.Some? <==> history.records != []
    ensures selected.Some? ==>
      selected.value < |history.records| &&
      preview == Some(Preview(history.records[selected.value].content))
    ensures translation.Some? <==> history.records != [] && clicked && CanTranslate(targetLanguage)
    ensures translation.Some? ==>
      selected.Some? && selected.value < |history.records| &&
      translation.value ==
        TranslationText(model(TranslationPrompt(history.records[selected.value].content, targetLanguage)))
  {
    labels := seq(|history.records|, i requires 0 <= i < |history.records| reads history => Title(history.records[i]));
    match selected
    case None =>
      preview, translation := None, None;
    case Some(index) =>
      var record := history.records[index];
      preview := Some(Preview(record.content));
      if clicked && CanTranslate(targetLanguage) {
        translation := Some(TranslationText(model(TranslationPrompt(record.content, targetLanguage))));
      } else {
        translation := None;
      }
  }

  /** The "History" tab: "Clear History" (offered only for a non-empty history)
      empties it and stops the run; otherwise the records are listed most recent
      first and the history is left as it was. */
  method HistoryTab(history: Store, clearClicked: bool) returns (entries: seq<HistoryEntry>)
    modifies history
    ensures old(history.records) == [] || clearClicked ==> history.records == [] && entries == []
    ensures old(history.records) != [] && !clearClicked ==>
      && history.records == old(history.records)
      && |entries| == |history.records|
      && forall i :: 0 <= i < |entries| ==> entries[i] == EntryAt(i, history.records[|history.records| - 1 - i])
  {
    if history.records == [] {
      entries := [];
    } else if clearClicked {
      history.Clear();
      entries := [];
    } else {
      entries := RenderHistory(history.records);
    }
  }
}
