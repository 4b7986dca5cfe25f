# Travel chatbot session — a Dafny model

This project models the conversation core of a one-page Streamlit travel
assistant (`streamlit_app.py`). The page keeps two values in the browser
session: the transcript `messages` and the latest itinerary
`quick_itinerary_md`.

- The transcript is a list of role-tagged messages. A fresh session seeds it
  with one fixed system instruction. The reset button clears it, and the
  next run seeds it again.
- Every action does the same three steps: append the user's message, send
  the whole transcript to a hosted chat-completion endpoint, then append the
  assistant's answer. The actions are the chat input, the quick trip wizard,
  the packing checklist and four suggested-question chips.
- The wizard and the packing checklist build their prompts from form input.
  The wizard refuses an empty destination and sends nothing.
- The Markdown download lists every message except the system instruction
  under a speaker heading.

Modules, one per component:

- `Wrappers` (`wrappers.dfy`): `Option`.
- `Text` (`text.dfy`): Python's `sep.join`, `str(n)` for the day count, and
  substring containment.
- `Transcript` (`transcript.dfy`): roles, messages, the system instruction,
  the well-formedness invariant, and `Exchange`. `Exchange` is the effect of
  one action on the transcript.
- `Prompts` (`prompts.dfy`): the wizard and packing prompt templates and the
  chip questions.
- `Export` (`export.dfy`): the Markdown export as functions, with lemmas
  about which messages add lines and in what order.
- `Sessions` (`session.dfy`): the `Session` class. It holds `messages` and
  `quickItineraryMd`, has one method per action, and `ExportMd`, the
  line-collecting loop of `_export_md`, proved equal to `Export.Markdown`.

The completion call is a parameter `complete: seq<Message> -> Option<string>`.
It is applied to the transcript as it stands after the user message is
appended, which is exactly what the source sends. `None` stands for a call
that raised. The code then stops before the answer is appended, so the user
message stays in the transcript unanswered.

Points worth knowing about the code:

- The JSON download (`streamlit_app.py:192`) dumps the whole list, system
  message included; only the Markdown export skips it.
- The Markdown export skips messages by role, not by content: a user message
  that quotes the instruction is exported. `Export.ExportIgnoresSystem`
  proves that inserting a system message anywhere, with any content, leaves
  the Markdown unchanged.
- The wizard's check is Python truthiness (`not dest`). It rejects only the
  empty string, and a destination of spaces is accepted.

## Model

| member | source | states |
|---|---|---|
| `Transcript.Seed` | streamlit_app.py:56-67 | the initial transcript is one message, the system instruction, and it is well formed |
| `Transcript.Exchange` | streamlit_app.py:110-117 | one action keeps every earlier entry, appends the user prompt, and appends the assistant answer only when the call succeeds; a failed call leaves the transcript one longer, ending in the unanswered user message |
| `Transcript.ExchangeWellFormed` | streamlit_app.py:110-117 | an action keeps the system instruction first and only first, and puts every answer right after a user message |
| `Transcript.ExchangeCounts` | streamlit_app.py:138-145 | an action adds exactly one user message, one assistant message exactly when the call succeeds, and no system message |
| `Transcript.AnswersNeverExceedQuestions` | streamlit_app.py:245-252 | in any reachable transcript there is exactly one system message and no more answers than user messages |
| `Text.Decimal` | streamlit_app.py:102 | the rendered day count is non-empty, all digits, and starts with 0 only for zero |
| `Text.DecimalRoundTrip` | streamlit_app.py:102 | reading the rendered day count back gives the day count |
| `Text.JoinContainsEach` | streamlit_app.py:104 | every selected item appears in the ", "-joined list |
| `Text.JoinLength` | streamlit_app.py:159 | a joined string is the elements plus one separator per gap |
| `Text.JoinStartsWithFirst` | streamlit_app.py:159 | a joined string begins with its first element |
| `Prompts.WizardPrompt` | streamlit_app.py:94-109 | a wizard prompt is produced exactly when the destination is non-empty |
| `Prompts.WizardPromptMentions` | streamlit_app.py:98-109 | the wizard prompt contains the destination, the line with the day count and "일", and every interest; the interests line is the ", "-join of the selections, or "미선택" when none are selected |
| `Prompts.WizardPromptExample` | streamlit_app.py:98-104 | for Osaka, 3 days and one interest, the prompt contains "Osaka", "3" and the interest |
| `Prompts.SelectionLineContainsEach` | streamlit_app.py:135 | a selection line names every selected item |
| `Prompts.PackPromptMentions` | streamlit_app.py:133-137 | the packing prompt has the season, companions and style lines and names every activity; the activities line is the ", "-join of the selections, or "일반 관광" when the list is empty |
| `Export.Heading` | streamlit_app.py:156 | the heading is "### 사용자" exactly when the role is user, and "### 챗봇" for every other role |
| `Export.Spoken` | streamlit_app.py:153-155 | the exported messages are no more than the transcript and contain no system message |
| `Export.BodyLines` | streamlit_app.py:153-158 | each exported message adds exactly two lines |
| `Export.ExportLinesShape` | streamlit_app.py:151-159 | for every transcript, the export has 1 + 2 × (number of non-system messages) lines and the title is the first |
| `Export.SpokenOfWellFormed` | streamlit_app.py:153-155 | in a session's transcript the exported messages are exactly the messages after the system instruction, in order |
| `Export.SessionExportLinesAt` | streamlit_app.py:151-159 | for a session's transcript of n messages the export has 2n - 1 lines, and lines 1 + 2j and 2 + 2j are the heading and the content of message j + 1 |
| `Export.ExportLinesAt` | streamlit_app.py:151-159 | the export has 1 + 2 × (number of non-system messages) lines: the title first, then for the j-th non-system message its heading line and its content line, in transcript order |
| `Export.BodyLinesOfSpoken` | streamlit_app.py:153-155 | dropping the system messages does not change the exported lines |
| `Export.ExportIgnoresSystem` | streamlit_app.py:154-155 | inserting a system message of any content at any position leaves the Markdown unchanged |
| `Export.MarkdownStartsWithHeader` | streamlit_app.py:152 | the Markdown starts with "# 여행 추천 챗봇 대화 내역\n" |
| `Export.FreshExport` | streamlit_app.py:151-159 | a fresh session exports the title alone |
| `Export.MarkdownSnoc` | streamlit_app.py:156-159 | appending a non-system message extends the Markdown by its heading and its content, each after a newline |
| `Export.MarkdownAfterFailure` | streamlit_app.py:156-159 | after a failed call the Markdown ends with the unanswered prompt under the user heading |
| `Export.MarkdownAfterAnswer` | streamlit_app.py:156-159 | after a successful action the Markdown ends with the user heading and prompt, then the bot heading and answer |
| `Export.MarkdownAfterExchange` | streamlit_app.py:151-159 | what one action adds to the Markdown, for a failed call and for a successful one |
| `Export.SpokenLength` | streamlit_app.py:153-155 | exactly the system messages are left out of the export |
| `Export.ExportLineCount` | streamlit_app.py:151-159 | a session's transcript of n messages exports to 2n - 1 lines |
| `Sessions.Session.constructor` | streamlit_app.py:56-70 | a new session holds the seeded transcript and an empty itinerary |
| `Sessions.Session.Reset` | streamlit_app.py:40-42 | after a reset the transcript is the single system message and the itinerary is "" |
| `Sessions.Session.Send` | streamlit_app.py:110-117 | the user message is appended before the call, the call sees the whole transcript including it, and the answer is appended only on success |
| `Sessions.Session.Ask` | streamlit_app.py:243-253 | empty input changes nothing; otherwise the transcript becomes the exchange of the input text; the itinerary is unchanged |
| `Sessions.Session.Wizard` | streamlit_app.py:94-119 | an empty destination changes neither transcript nor itinerary; otherwise the wizard prompt is exchanged, and on success the itinerary equals the content of the assistant message just appended |
| `Sessions.Session.Pack` | streamlit_app.py:132-146 | the packing prompt is exchanged; the itinerary is unchanged |
| `Sessions.Session.Chip` | streamlit_app.py:206-224 | the i-th chip's fixed question is exchanged; the itinerary is unchanged |
| `Sessions.Session.ExportMd` | streamlit_app.py:151-159 | the loop that collects lines, skipping system messages, returns exactly `Markdown` of the transcript |

## Left out

- Page configuration, CSS, widgets, column layout, success, warning and info
  banners, and the HTML chat bubbles (`streamlit_app.py:10-30`, `162-171`,
  `229-238`). These are presentation only. An action's visible result is
  reduced to an `Outcome` value.
- The API-key gate (`streamlit_app.py:47-51`). Without a key the run stops
  before the session is seeded and before any action. The model assumes a
  key, so `Reset` clears and re-seeds in one step.
- The OpenAI client, the model name and the temperature. They are passed
  through unchanged. The call itself is the `complete` parameter.
- The reply's content is modelled as a string. The API can return no
  content, and `_export_md` would then fail on it. That case is not modelled.
- The JSON download (`streamlit_app.py:192-199`) and the UTF-8 encoding of
  downloads. Both are library serialisation. The JSON holds the whole list,
  system message included.
- The itinerary download button (`streamlit_app.py:183-190`). It only shows
  `quickItineraryMd` when it is non-empty.
- `st.rerun()` after the chip and chat actions. It re-renders the page and
  changes no state.
- The date, budget, season, companion and style values are opaque strings.
  The widget option lists and the 1..60 day range are not enforced, and the
  model does not need them.
- Sessions.Session.Wizard: that the wizard does not call the model for an
  empty destination is stated as "the session is unchanged", since calls
  are not observable in the model.
