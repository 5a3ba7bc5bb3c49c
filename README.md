# Movie Graph Assistant — verified model of the question-answering pipeline

The Movie Graph Assistant is a Streamlit page (`app.py`) that answers questions
about a Neo4j movie graph. A question goes to the Gemini LLM, which writes a
Cypher query; the query runs on Neo4j; the rows come back, are normalised, and
go to the LLM a second time to be summarised. This project models the three
pieces of `app.py` that have behaviour of their own, and proves what they do:

- `normalizer.dfy` (module `ResultNormalizer`): the normalisation in
  `run_cypher`. Rows are maps from column name to value (`map<string, V>`, with
  `V` the value type left abstract). When the result is non-empty and its first
  row has exactly one column, the result is flattened to that column's values;
  otherwise the rows are returned as they came. A later row lacking the column
  raises `KeyError` in Python, modelled as a `Failure` carrying the column name.
- `cleanup.dfy` (module `TextCleanup`): the LLM-text cleanup
  `text.strip("```").strip()` and the blank-question test `not question.strip()`.
  Python's `str.strip` is modelled as CPython computes it: a left scan and a
  right scan over the string, with the argument read as a set of characters.
  Whitespace is Python's `str.isspace` for one code point.
- `pipeline.dfy` (module `Pipeline`): `generate_cypher`, `run_cypher` and
  `summarize_results`, and the Submit handler. The Gemini client, the Neo4j
  driver and the page are one object, `World`, that appends to its `log` every
  LLM call (`Ask`), every database call (`Query`) and every message put on the
  page (`Show`). What the LLM replies to a prompt and what the database gives
  for a query are oracles held by the object: a reply or an error message, and
  rows or an error message. The helpers and the handler are methods that go
  through the object, so the calls they make are the ones in the log. Each
  method's contract gives the events it appends and its result as a function
  of the oracles (`SubmitEffect`, `AnswerEffect`, `ResponseEffect`,
  `ExecutionEffect`), and lemmas state what that log contains.
- `results.dfy` (module `Results`): `Option` and `Result`.

`main.py` repeats the normaliser and the cleanup inline (`main.py:64`,
`main.py:75-80`, `main.py:94`); the same definitions model those lines.

## Model

| member | source | states |
|---|---|---|
| ResultNormalizer.SoleKey | app.py:24 | `list(row.keys())[0]` of a one-column row is its only key: the row's key set is exactly that key |
| ResultNormalizer.Project | app.py:25 | the comprehension `[row[key] for row in rows]` succeeds exactly when every row has `key`, and then yields one value per row, in order, each `rows[i][key]` |
| ResultNormalizer.Normalize | app.py:20-28 | the rows come back unchanged exactly when the result is empty or its first row does not have one column; it fails exactly when the first row has one column and some row lacks it, naming that column; otherwise it is the flat column, same length as the rows, element `i` being row `i`'s value |
| ResultNormalizer.SingleColumn | app.py:23-25 | a one-column result built from a list of values: row `i` maps the key to value `i` |
| ResultNormalizer.SingleColumnIsFlattened | app.py:23-25 | a non-empty one-column result normalises to exactly its list of values, in order |
| ResultNormalizer.OneColumnPerRow | app.py:23-27 | when every row has one column, normalisation succeeds exactly when all rows name the first row's column, and the flat list then rebuilds the rows (flattening loses nothing) |
| ResultNormalizer.DirectorExample | app.py:23-25 | a single row `{"name": "Ron Howard"}` normalises to the list `["Ron Howard"]` |
| TextCleanup.KeptFrom | app.py:66 | the left scan of `strip`: every character it passes is removed and it stops at a kept character or at the end |
| TextCleanup.KeptUntil | app.py:66 | the right scan of `strip`: every character it passes is removed and it stops at a kept character or at the left bound |
| TextCleanup.Strip | app.py:66 | `s.strip(chars)` is a contiguous run of `s` with only removable characters around it, and it neither starts nor ends with one |
| TextCleanup.StripUnique | app.py:66 | any run with removable characters around it and kept characters at its ends is the result of `strip` |
| TextCleanup.StripFlanks | app.py:66 | `strip` removes flanks made of removable characters, of any length, and keeps the body between them intact |
| TextCleanup.Clean | app.py:66 | the cleaned reply neither starts nor ends with whitespace and is a contiguous run of the raw reply |
| TextCleanup.CleanRemovesOuterBackticks | app.py:66 | any number of backticks at the very ends of the reply are all removed, and the text between them is then whitespace-stripped |
| TextCleanup.CleanFixedIffTidy | app.py:66 | the cleanup leaves a text unchanged if and only if neither end of it is a backtick or whitespace |
| TextCleanup.TidyIsFixed | app.py:66 | a text whose ends are neither backticks nor whitespace is left unchanged |
| TextCleanup.FixedIsTidy | app.py:66 | a text the cleanup leaves unchanged has no backtick and no whitespace at either end |
| TextCleanup.LeadingBacktickSatBehindWhitespace | app.py:66 | a backtick that starts the cleaned text was preceded by whitespace after the backtick pass |
| TextCleanup.TrailingBacktickSatBehindWhitespace | app.py:66 | a backtick that ends the cleaned text was followed by whitespace after the backtick pass |
| TextCleanup.CleanPeelsLayers | app.py:66 | backticks, then whitespace, around a core with no whitespace at its ends, are peeled down to exactly the core |
| TextCleanup.InnerFenceSurvives | app.py:66 | in "```\n```" followed by tidy text, the fence after the newline survives the cleanup |
| TextCleanup.GluedFenceRemoved | app.py:66 | a fence glued to tidy text is removed entirely |
| TextCleanup.CleanIsNotIdempotent | app.py:66 | cleaning "```\n```" + text gives "```" + text, and cleaning that again gives a different, shorter text |
| TextCleanup.CleanKeepsLanguageTag | app.py:66 | a reply fenced as "```" tag newline query newline "```" keeps the language tag in front of the query |
| TextCleanup.BlankIffAllWhitespace | app.py:87 | a question is blank exactly when every one of its characters is whitespace |
| TextCleanup.IsWhitespace | app.py:87 | the characters `str.strip()` removes, Python's `str.isspace` code points: tab to carriage return, the information separators, space, next line, no-break space and the Unicode space separators, line and paragraph separators |
| TextCleanup.IsBlank | app.py:87 | `not question.strip()`: the question is empty once whitespace is stripped from both ends |
| Pipeline.CleanReply | app.py:65-66 | what the helpers make of an LLM reply: it succeeds exactly when the call did, the text is the cleaned reply, and a failure carries the call's message |
| Pipeline.NormalizeReply | app.py:19-28 | what `run_cypher` makes of the driver's answer: a driver failure is raised again with its message; otherwise the normalised rows, or a missing-column error naming the column |
| Pipeline.MissingColumnFailsExecution | app.py:24-25 | when the first row has one column and some later row lacks it, executing the query fails with that column missing |
| Pipeline.World.Ask | app.py:65 | one LLM call: the reply is the oracle's reply to the prompt, and the call is appended to the log |
| Pipeline.World.Query | app.py:19-20 | one database call: the answer is the oracle's for the query, and the call is appended to the log |
| Pipeline.World.Show | app.py:88-100 | a page message is appended to the log |
| Pipeline.GenerateCypher | app.py:31-67 | exactly one LLM call, on the Cypher prompt for the question; the result is that reply, cleaned |
| Pipeline.RunCypher | app.py:16-28 | exactly one database call, on the query; the result is the normalised answer |
| Pipeline.SummarizeResults | app.py:70-78 | exactly one LLM call, on the summary prompt for the question and the values; the result is that reply, cleaned |
| Pipeline.Submit | app.py:86-104 | the log gains exactly the events of the handler and the outcome is the handler's: for a blank question only the warning, otherwise the answer |
| Pipeline.Answer | app.py:89-104 | the log gains the Cypher call and nothing else when generation fails, which ends the handler with the call's error; otherwise the Cypher call followed by the response |
| Pipeline.Respond | app.py:92-104 | the log gains the query on the page, the execution events, then the summary call with the same question and the result or None; the outcome is the cleaned summary or its error |
| Pipeline.Execute | app.py:95-101 | the log gains one database call and then the raw output or the error on the page; the result handed on is the normalised rows, or None when execution raised |
| Pipeline.WarningIffBlank | app.py:87-91 | the handler starts with the warning exactly when the question is blank |
| Pipeline.NoCallIffBlank | app.py:86-91 | a blank question makes no LLM or database call, and any other question makes at least one |
| Pipeline.CallsInOrder | app.py:91-103 | the calls of a non-blank question are generation once, and if it succeeded, execution once with the generated query and summarisation once with the same question and the result, or None when execution raised; nothing is retried |
| Pipeline.FailedExecutionIsReported | app.py:95-103 | after a successful generation the summary is asked for None exactly when execution raised, and the error was then put on the page |

## Left out

- The Streamlit page itself (title, text area, button, how messages are drawn): only the messages before the answer are recorded, in order, as log events; the answer itself is the outcome.
- `load_dotenv` and the credential reads (`app.py:8-13`): environment I/O.
- The Neo4j driver, its session and what a Cypher query means: the database is an oracle from a query to rows or an error message. Nothing in the code parses the query.
- The Gemini client (`app.py:65`, `app.py:77`): a remote, non-deterministic service, modelled as an oracle from a prompt to a reply or an error message. An oracle is a function, so the model answers the same prompt the same way; that each call happens is recorded in the log.
- The prompt wording (`app.py:32-64`, `app.py:71-76`): a prompt is reduced to what it embeds, the question (and for the summary, the values). How `values` is rendered into the prompt text is not modelled.
- `main.py` as a script: console I/O around the same normaliser and cleanup.
- Exceptions other than the driver's error and the missing column inside `run_cypher`: both are caught by the handler's `except Exception`, and nothing else in the `try` block is modelled as failing.

The cleaned text can still start or end with triple backticks: a fence separated from the end by whitespace survives the backtick pass, and the whitespace pass then exposes it (`"```\n```foo"` cleans to `"```foo"`, see `TextCleanup.InnerFenceSurvives` and `TextCleanup.CleanIsNotIdempotent`). The model follows `app.py` here, not a description of the cleanup as always removing the fences.
