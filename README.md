# Cultural Story Weaver: session history and prompt logic

A model, in Dafny, of the logic of a Streamlit form around a hosted language model. The
form takes a cultural theme, a target language, a style and a length class. It builds a
prompt and sends it to the model. Each reply is stored as a record in the session's
history, which is listed most recent first, summarised in the sidebar, offered for
translation and can be cleared.

Modules (one file each):

- `Wrappers` (`wrappers.dfy`): `Option`, for Python's `None`.
- `Text` (`text.dfy`): substring occurrence and f-string assembly. It also holds the
  300-character preview, `str.replace(' ', '_')`, the download file name, and decimal
  rendering of positions with its read-back.
- `Content` (`content.dfy`): the closed `LengthClass` enumeration and its labels. It holds
  the `length_guide` table, the `Record`, and the model `Reply` (text or raised exception).
  It builds the templated, custom and translation prompts and the text of a translation.
- `History` (`history.dfy`): the `Store` class holding `st.session_state.history` as a
  `seq<Record>`, with `Append` and `Clear`. It has the sidebar stats, the translate
  selector's options, and the history listing loop.
- `App` (`app.dfy`): the `Session` class with lazy creation of the history. It has the
  input guards, `generate_content`, and one step method per tab (generate, custom
  prompt, translate, history).

The hosted model is the parameter `model: string -> Reply`. The timestamp taken from the
wall clock is the opaque string parameter `now`.

## Model

| member | source | states |
|---|---|---|
| `App.Session.InitHistory` | app.py:34-35 | an empty history is created only when none exists; an existing history (object and records) is kept, so a second run changes nothing |
| `History.Store.Append` | app.py:92 | the record is added at the end, at index equal to the old size; every earlier record keeps its index |
| `History.Store.Clear` | app.py:271-272 | the history becomes empty, whatever it held |
| `App.GenerateContent` | app.py:51-97 | a reply to the selected prompt appends exactly one record; its content is the reply text, its theme, language, style, length and timestamp are the inputs, and its custom flag is "custom prompt non-empty". A raised exception gives None and leaves the history unchanged |
| `App.GenerateTab` | app.py:214-233 | the model is called iff the button is pressed and theme and language are both non-empty; a reply stores a non-custom record built from the templated prompt's reply and offers the download file name; a refusal or failure changes nothing |
| `App.CustomPromptTab` | app.py:310-317 | the model is called iff the button is pressed and prompt, theme and language are all non-empty; the prompt is sent verbatim and a reply is stored as a custom record; otherwise the history is unchanged |
| `App.TranslateTab` | app.py:239-259 | an empty history gives no selection, no preview and no translation; otherwise the selector labels every record in order, the index it offers is in bounds, the preview is that record's content preview, and a translation is produced iff the button is pressed and the target language is non-empty, from the prompt embedding the record's content |
| `App.HistoryTab` | app.py:262-287 | an empty history, or a click on "Clear History", leaves the history empty with nothing listed; otherwise the history is unchanged and listed most recent first |
| `Content.LengthGuideCoversOptions` | app.py:54-58 | `length_guide` has exactly the three labels of the length selectboxes as keys, and the three labels are distinct |
| `Content.TemplatePrompt` | app.py:63-76 | the templated prompt contains the style, the language, the theme and the guidance for the chosen length |
| `Content.SelectPrompt` | app.py:60-76 | a non-empty custom prompt is the prompt exactly; otherwise the prompt contains style, language, theme and length guidance |
| `Content.TranslationPrompt` | app.py:101-107 | the translation prompt contains the text and the target language |
| `Content.TranslationText` | app.py:109-114 | a reply gives its text; a raised exception gives "Translation failed: " followed by, and containing, the exception message |
| `Text.ConcatHasPart` | app.py:63-76 | every interpolated or literal segment of an f-string occurs in the assembled string |
| `Text.Preview` | app.py:251 | content of at most 300 characters is shown unchanged; longer content shows its first 300 characters then "...", 303 characters in all |
| `Text.PreviewProperties` | app.py:251 | a preview is at most 303 long, starts with the content's first min(len, 300) characters, and previewing a preview changes nothing |
| `Text.ReplaceSpaces` | app.py:231 | same length as the input; each space becomes `_` and every other character is kept; the result has no space |
| `Text.DownloadFileName` | app.py:231 | the name is the theme with spaces replaced (same length, no spaces), then `_`, the language unchanged, then `.txt` |
| `Text.Decimal` | app.py:286 | the rendering of a position is a non-empty string of decimal digits |
| `Text.DecimalRoundTrip` | app.py:286 | reading back the digits of a rendered position gives the position |
| `History.DownloadKeysDiffer` | app.py:286 | different positions get different `download_{i}` keys |
| `History.RenderHistory` | app.py:276-287 | one entry per record in reverse insertion order, each with its expander label, file name and key for its display position; all keys are pairwise distinct |
| `History.LanguagesBounds` | app.py:157-161 | the number of distinct languages is at most the number of records, and at least 1 when there is a record |
| `History.SidebarStats` | app.py:157-161 | stats are shown iff the history is non-empty; the total is the history's length and "Languages Used" is the number of distinct languages, between 1 and the total |
| `History.SelectorOptions` | app.py:242-246 | the selector offers exactly the indices 0 to n-1 in order, so every option is a valid index |
| `Content.Guidance` | app.py:67 | the guidance for a length choice is the length-guide table's entry for its label; the entry always exists, so the lookup cannot fail |
| `Content.MakeRecord` | app.py:82-90 | the record holds the reply text, the theme, language, style, length and timestamp as given, and its custom flag is set exactly when the custom prompt is non-empty |
| `App.CanGenerate` | app.py:215-218 | generation is refused exactly when the theme or the language is empty |
| `App.CanGenerateCustom` | app.py:311 | custom generation runs exactly when the prompt is non-empty and the templated form's condition (theme and language non-empty) holds |
| `App.CanTranslate` | app.py:256 | translation runs exactly when the target language is non-empty |
| `History.Languages` | app.py:160 | the set holds the language of every record, and every language in it belongs to some record |
| `History.Title` | app.py:245 | the selector label starts with the record's timestamp and contains its theme and its language |
| `History.ExpanderTitle` | app.py:277 | the history expander label is the document marker followed by the selector label, so it also contains the theme and the language |
| `History.DownloadKey` | app.py:286 | the key is `download_` followed by the decimal rendering of the display position |

## Left out

- Streamlit rendering is not modelled: page config, CSS, tabs, columns, spinners, `st.rerun`, messages and widgets. It is display only. A click on "Clear History" is modelled as ending the run with nothing listed.
- `configure_api` and the `api_configured` flag are not modelled. They depend only on whether the foreign library accepts the key.
- The Gemini client is the parameter `model`. A reply or a raised exception is its whole observable outcome, and `response.text` raising is part of `Raised`.
- The wall-clock timestamp is the input `now`. Monotonic timestamps across appends are therefore not stated.
- The generation error banner (`st.error(f"Generation failed: ...")`) is not modelled. Only its effect is: no record and a None result.
- Records store the `LengthClass` value, not its label string. `Content.Label` gives the label shown in the history tab, and `Content.LengthGuideCoversOptions` shows the two are interchangeable.
- The translate tab's lookup `history[selected_idx]` is modelled for the index the selector offers, which is absent exactly when the history is empty. Python's negative indexing never arises there, and the code has no out-of-range error path (a stale index after a clear cannot be used, because the clear ends the run).
- A generated content may be empty: the code stores `response.text` without checking it, and the model follows the code.
