# Customer consultation script: a verified model

`app.py` is a Streamlit page for a broadband operator's support staff. The
user types a contract code. The page looks the customer up in a spreadsheet
and shows an LLM-written summary of the customer's fields. The user can then
ask follow-up questions in a chat whose transcript is rendered as HTML. A
"clear everything" button drops the code, the summary, the transcript and the
question.

This project models the deterministic core of that script and proves what
it promises. The core is:

- the table preparation (placeholder name column, positional schema);
- the lookup of a row by contract code;
- the text dump of one row;
- the per-session state and the steps one run of the script applies to it
  (reset, summary caching, transcript seeding, asking);
- the HTML rendering of the transcript.

Modules, one file each:

- `PyText` (`pytext.dfy`): Python's `str.strip()` and `sep.join`, with their
  laws. `str.split` on a one-character separator is there only to state that
  the join can be undone; the script never splits.
- `Dataset` (`dataset.dfy`): cells, tables, the canonical schema, name-column
  insertion, lookup (`Find`) and the field dump (`FieldDump`). These are all
  pure functions.
- `Chat` (`chat.dfy`): turns, service replies, the prompts, the stored text
  of a reply or an error, transcript well-formedness, and the renderer. The
  renderer is the function `ChatHtml` and the loop `RenderChat`, which is
  proved equal to it.
- `Sessions` (`sessions.dfy`): the session dictionary as a
  `map<string, Value>`, and one pure step function per update (`ResetStep`,
  `SummaryStep`, `SeedStep`, `AskStep`, and `RerunStep` for a whole run).
  The class `Session` holds the dictionary in a field. Its methods update it
  in place the way the script does, and each is proved to produce exactly the
  map its step function describes.

The text-generation service is a parameter `llm: seq<Turn> -> Reply`. It maps
the list of turns sent to either the generated text or the message of the
exception raised. All reasoning about replies is therefore about which
messages were sent and what was done with the answer.

On a change of contract code the script keeps the summary and the
transcript of the customer looked up before. Lines 123 and 147 only test
whether the keys are present, and only the "clear everything" loop
(app.py:93-95) deletes them. So after code `b` follows code `a`, the page
shows `b`'s key fields (app.py:107-118) next to `a`'s summary
(app.py:141-142), and the questions go to a transcript seeded with `a`'s
fields. The model follows the code (`RerunStep`). The discrepancy is recorded
under Findings, with a corrected run (`RerunTrackedStep`) proved to always
show the customer whose code is entered.

## Model

| member | source | states |
|---|---|---|
| PyText.Strip | app.py:137 | `strip()` returns a result no longer than its input, neither of whose ends is whitespace (in the sense of Python's `str.isspace`, `IsSpace`); the result is empty exactly when the input is all whitespace |
| PyText.StripLeft | app.py:137 | the leading-whitespace strip keeps a suffix of the input that does not start with whitespace |
| PyText.StripLeftDropsSpace | app.py:137 | every character the leading-whitespace strip drops is whitespace |
| PyText.StripRight | app.py:137 | the trailing-whitespace strip keeps a prefix of the input that does not end with whitespace |
| PyText.StripRightDropsSpace | app.py:137 | every character the trailing-whitespace strip drops is whitespace |
| PyText.StripSurrounds | app.py:137 | `strip()` removes exactly the surrounding whitespace: the input is a run of whitespace, then the stripped text, then another run of whitespace |
| PyText.StripIsSlice | app.py:166 | the stripped text is one contiguous piece of the original, starting right after its leading whitespace |
| PyText.StripIdempotent | app.py:166 | stripping twice gives the same text as stripping once |
| PyText.StripUntrimmed | app.py:166 | a text with no whitespace at either end is left unchanged by strip |
| PyText.Join | app.py:121 | a join of no parts is empty; otherwise its length is the parts' total length plus one separator between each pair of neighbours |
| PyText.JoinEnds | app.py:121 | a join starts with its first part and ends with its last part, so no separator is added before or after |
| PyText.SplitJoin | app.py:121 | splitting a join at its one-character separator recovers the parts, when no part holds the separator |
| Dataset.CanonicalShape | app.py:38-79 | the schema has 59 names; the contract code is first, the customer name second, the town fourth |
| Dataset.InsertNameColumn | app.py:35-36 | a table that already has a name column is returned unchanged; otherwise the name column goes in at position 1 with one name per row, and removing position 1 gives the original back; insertion into a table with no columns fails |
| Dataset.Prepare | app.py:35-79 | a prepared table always has the canonical columns and one row per input row; preparation succeeds exactly when the column count fits the schema once the name column is accounted for |
| Dataset.LoadedIsKeyed | app.py:100 | in a prepared table the contract code is the first column of every row |
| Dataset.MatchPositions | app.py:100 | the mask selects exactly the rows whose code cell is the entered text, in increasing table order |
| Dataset.Find | app.py:99-105 | no lookup for the empty code; "not found" exactly when no row's code equals the entered text; otherwise the first such row, with all its cells |
| Dataset.FindUnique | app.py:100-105 | a code held by exactly one row finds that row |
| Dataset.FieldDump | app.py:121 | the dump of a row starts with the first column's `column: value` line and ends with the last column's, so no newline comes before or after; a row of no columns dumps to "" |
| Dataset.DumpLines | app.py:121 | splitting the dump at newlines gives back exactly one line per column, when no name or value holds a newline |
| Chat.SummaryRequestInjective | app.py:124-134 | the summary request (`SummaryRequest`: one user turn, the fixed introduction, the dump, the fixed rules) determines the dump: different dumps never give the same request |
| Chat.ReplyText | app.py:137-139 | a generated reply is kept stripped; a failure becomes the error prefix followed by the exception's message, and is never passed on |
| Chat.SeedTranscript | app.py:147-150 | a new transcript has exactly one turn, a system turn holding the fixed instruction followed by the field dump, and is well formed (the shape every later exchange keeps) |
| Chat.ExchangeKeepsWellFormed | app.py:158-170 | appending a non-blank question and its answer keeps a transcript shaped as a system turn followed by user/assistant pairs |
| Chat.Label | app.py:183-186 | a turn gets the "Você" label exactly when its role is `user`, and the "Assistente" label otherwise |
| Chat.TurnHtmlInjective | app.py:184-186 | a turn's paragraph (`TurnHtml`: label, unescaped content, `</p>`) determines the turn's content and whether it carries the user's label: equal paragraphs come from equal contents under the same label |
| Chat.TurnsHtmlSnoc | app.py:182-186 | rendering one more turn (`TurnsHtml`, the fold the loop performs) appends that turn's paragraph |
| Chat.TurnsHtmlAppend | app.py:182-186 | rendering a concatenation of turns renders the two parts one after the other, in order |
| Chat.ChatHtml | app.py:178-187 | the rendering begins with the container opening and ends with `</div>` |
| Chat.RenderChat | app.py:178-187 | the `+=` loop over the turns after the first builds exactly `ChatHtml` of the transcript |
| Chat.ChatHtmlHidesFirst | app.py:182 | the system turn is never shown: the rendering, which goes over `[1:]` (`AfterFirst`), is the same for transcripts that differ only in their first turn |
| Chat.ChatHtmlSeedOnly | app.py:178-187 | a transcript holding only its system turn renders as an empty container |
| Chat.ChatHtmlAfterExchange | app.py:182-187 | after a question is answered, the rendering gains the user's paragraph and then the assistant's (each a `TurnHtml` paragraph), just before the closing tag |
| Sessions.ResetStep | app.py:93-95 | reset removes the four keys where present, keeps every other key with its value, and adds nothing |
| Sessions.SummaryStep | app.py:123-139 | the summary is produced only when none is cached, from the service's reply to the summary request (`SummaryRequest` of the dump); a cached one is kept as it is; no other key changes |
| Sessions.SeedStep | app.py:147-150 | the transcript is seeded only when absent; an existing one is never re-seeded; no other key changes |
| Sessions.Exchange | app.py:159-170 | an exchange grows the transcript by two: the old turns as a prefix, the question as typed in a user turn, then the assistant turn |
| Sessions.AskStep | app.py:158-170 | without the button or with a blank question nothing changes; otherwise the transcript becomes the exchange whose answer is the stored text of the reply to the transcript already holding the question (`Asked`); no other key changes |
| Sessions.ForgetQuestion | app.py:152 | when the question box is not drawn, its buffer is forgotten and every other key is kept |
| Sessions.Consult | app.py:121-170 | for a found row: a cached summary is kept and an absent one comes from the reply to the summary request; a transcript only grows at its end, and an absent one starts with the seed; with nothing sent the transcript is the existing one or the seed; no other key changes |
| Sessions.RerunStep | app.py:92-170 | one run, with the code read from its buffer (`TextInput`, absent reads as ""): the clear button resets; a code that finds nothing only forgets the question buffer; a found code `Consult`s that row's dump |
| Sessions.ResetThenRerun | app.py:92-99 | after a reset the next run changes nothing, because no code is left to look up |
| Sessions.StaleAfterCodeChange | app.py:123-150 | as written, after a run for code `a`, re-running with code `b` keeps `a`'s summary and `a`'s transcript |
| Sessions.FirstRunFills | app.py:123-150 | the first run for a found code, with nothing sent, stores that row's summary and a transcript holding just its seed |
| Sessions.RerunKeepsDerived | app.py:123-150 | as written, a run that sends nothing leaves an existing summary and transcript exactly as they were, whatever code it finds |
| Sessions.TrackStep | app.py:123 | the corrected run records the active code and drops the summary and transcript when they were built for a different code |
| Sessions.RerunTrackedStep | app.py:92-170 | the corrected run resets on the button, only forgets the question buffer for a code that finds no row, and otherwise re-keys the state to the code before consulting the row |
| Sessions.TrackedShowsCurrent | app.py:123-150 | with the correction, a run for a found code always leaves that row's summary and a transcript seeded from that row |
| Sessions.TypingKeepsCoherent | app.py:90 | typing into the code or the question buffer between runs keeps the summary and transcript tied to the active code |
| Sessions.TrackedKeepsCoherent | app.py:92-170 | a fresh session is coherent, and every corrected run keeps it coherent |
| Sessions.Session.Reset | app.py:93-95 | the deletion loop leaves exactly the map `ResetStep` describes |
| Sessions.Session.EnsureSummary | app.py:123-139 | filling the summary in place leaves exactly `SummaryStep`'s map |
| Sessions.Session.EnsureTranscript | app.py:147-150 | seeding the transcript in place leaves exactly `SeedStep`'s map |
| Sessions.Session.IsBlank | app.py:158 | the question is blank exactly when every character is whitespace |
| Sessions.Session.Ask | app.py:158-170 | appending the user turn, asking the service with the transcript as it then is, and appending the answer leaves exactly `AskStep`'s map, and the transcript stays well formed |
| Sessions.Session.ForgetQuestionBox | app.py:152 | dropping the question buffer in place leaves exactly `ForgetQuestion`'s map |
| Sessions.Session.Rerun | app.py:90-170 | one run of the script in place leaves exactly `RerunStep`'s map |

## Left out

- Reading the spreadsheet (two file paths, an error message and `st.stop()` when both are missing, app.py:22-33) is file I/O. The model starts from a table already read.
- The placeholder names come from a random generator (app.py:36). They are a parameter `names` with one entry per row.
- The OpenAI client, model name and temperature (app.py:18, 132-136, 161-165) are an external service. The service is a function parameter, so the same messages always get the same reply. That is the intent of temperature 0, not a guarantee the service gives.
- A reply whose content is `None` makes `.strip()` raise inside the `try`. The model folds this into `Failure` with that exception's message.
- The API-key check at start-up (app.py:13-16) is a start-up guard with no state.
- Streamlit widgets, markdown output, the key-field info block (app.py:107-118), `st.rerun()` and `@st.cache_data` are UI plumbing. The model treats each rerun as a fresh call of `Session.Rerun` on the same session state.
- Widgets write their default value `""` into the session state when first drawn. The model does not do this; it reads an absent buffer as `""` (`TextInput`), which gives the same result for every step modelled.
- Streamlit forgets the buffer of a keyed widget that a run does not draw. The model applies this only to the question box (`ForgetQuestion`), the one keyed widget drawn conditionally; the code box is drawn on every run, and buttons keep no buffer.
- HTML escaping: turn contents are pasted into the HTML unescaped, and the model does the same. It does not model an HTML parser or `components.html`.
- Cells that are not Python strings (numbers, dates, missing values) are kept only as the text an f-string shows for them (`Other`). They never equal a typed code, as in pandas. How pandas formats them is not modelled.
- Dataset.Find: it requires only that the code is the first column and the table is rectangular (`Keyed`), which every prepared table satisfies (`LoadedIsKeyed`). The full schema is not required.

## Findings

| source | as written | input that shows it | evidently intended | confidence | as-written member | corrected member |
|---|---|---|---|---|---|---|
| app.py:123-150 | the summary and the transcript are filled only when their keys are absent, and nothing removes them when the contract code changes | run with code `a`, then type code `b` whose customer's summary differs, without pressing "clear everything", and run again: `a`'s summary and `a`'s transcript are shown for `b` | the summary and the transcript are rebuilt for the customer whose code is entered | medium, not executed | Sessions.StaleAfterCodeChange | Sessions.TrackedShowsCurrent |
