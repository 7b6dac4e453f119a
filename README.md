# DeepSeek chat front-end: the turn controller

This project models the turn controller of a Streamlit chat page that talks
to a locally served language model. The page keeps a conversation log in its
session state. The log is a list of `{role, content}` entries. It is seeded
once with the assistant's greeting, and after that it is only appended to.
Each submitted query adds a `"user"` entry. The controller then builds a
prompt from the whole log and calls the model. If the call succeeds, the
answer is added as an `"ai"` entry.

Everything is in `app.dfy`, module `App`:

- `Msg(role, content)` is a log entry. `Role` is `User`, `Ai` or
  `Other(tag)`. `Other` covers any role string except `"user"` and `"ai"`.
  `RoleOf` and `TagOf` map between role strings and roles.
- `PromptMsg` is `System | Human | AiMsg`. These are plain tagged messages
  standing for the prompt template objects.
- `Prompt(log)` is the prompt as a pure function. It is defined entry by
  entry, the way the assembly loop appends. `Spoken(log)` is an independent
  reference definition: the log's user and assistant entries, in order.
  Lemmas connect the two.
- `Step(log, query, reply)` is one submit cycle as a function. `Replay`
  applies a series of cycles.
- `Session` is a class. Its fields are `initialized`, which says whether
  `message_log` exists in the session state, and `log`. Its methods are
  `Seed` (the conditional initialisation), `BuildPrompt` (the assembly loop),
  `Submit` (the submit cycle) and `Run` (one execution of the script: seed,
  then submit).

The model call is an oracle. Its outcome is the `reply` parameter: `Ok(text)`
or `Fail`. `Fail` stands for an exception raised while the prompt is built or
while the model is called. Either way the exception propagates before the
answer would be appended, so the log keeps the user entry and gains no
assistant entry.

Notes on the code's behaviour:

- `if user_query:` skips both a missing input (`None`) and the empty
  string. So an empty query never reaches the log or the model (`Truthy`).
- The log's role strings are `"user"` and `"ai"`. The system instruction
  never enters the log.
- The model's answer is not checked. An empty answer is appended as it is.

## Model

| member | source | states |
|---|---|---|
| `App.FreshLog` | app.py:86-87 | the seeded log is exactly one entry, role `"ai"`, with the greeting text |
| `App.RoleOf` | app.py:107-110 | role dispatch: `User` exactly for `"user"`, `Ai` exactly for `"ai"`, any other string is kept as `Other` |
| `App.TagOf` | app.py:107-110 | every role has a string that the dispatch sends back to that role |
| `App.RoleOfTagOf` | app.py:107-110 | the other way round: the role recovered from a string gives back the same string |
| `App.Contribution` | app.py:107-110 | an entry contributes one message exactly when its role is user or ai; user gives human and ai gives AI; content is carried over unchanged |
| `App.Prompt` | app.py:104-112 | the prompt starts with the system instruction; it has at most one message per log entry; no later message is a system message |
| `App.SpokenIsLogIffNoOthers` | app.py:106-110 | the conversational entries are the whole log if and only if no entry has another role |
| `App.PromptMatchesSpoken` | app.py:104-112 | prompt length is 1 + the number of user/ai entries; message i+1 is user/ai entry i, in log order, role-mapped, content unchanged |
| `App.PromptLengthNoOthers` | app.py:104-112 | for a log of user and ai entries only, the prompt is the system message followed by the log entry for entry |
| `App.PromptAppend` | app.py:106-110 | the prompt of a concatenated log is the first part's prompt followed by the second part's messages |
| `App.OtherContributesNothing` | app.py:107-110 | inserting an entry with another role anywhere leaves the prompt unchanged |
| `App.Truthy` | app.py:115 | a query is acted on exactly when it is present and not the empty string |
| `App.Step` | app.py:115-123 | a submit cycle only appends to the log, and adds at most two entries |
| `App.StepOutcome` | app.py:115-123 | a falsy query leaves the log as it was; success adds `("user", query)` then `("ai", answer)`; failure adds only `("user", query)` |
| `App.SubmitOutcome` | app.py:115-123 | for a log produced by one cycle: a falsy query asks nothing and keeps the log; otherwise the prompt ends with the query as a human message, success appends the user and ai entries, failure only the user entry; a well-formed log stays well formed |
| `App.SentPromptEndsWithQuery` | app.py:117-120 | the prompt assembled for the model call is the previous log's prompt followed by the new query as a human message |
| `App.ReplayAppendOnly` | app.py:115-123 | over any series of cycles, every earlier entry stays in place; the log grows by at most two per cycle |
| `App.StepWellFormed` | app.py:115-123 | a cycle keeps the greeting first and adds only user and ai entries |
| `App.ReplayWellFormed` | app.py:86-123 | any series of cycles keeps the log well formed |
| `App.ReachablePromptMirrorsLog` | app.py:86-123 | for every log a session can reach, the prompt is the system message followed by every log entry in order |
| `App.Scenarios` | app.py:86-123 | a fresh session answered once holds three entries; a failed call leaves two; empty or absent queries change nothing |
| `App.Session.constructor` | app.py:86 | a new session state holds no log |
| `App.Session.Seed` | app.py:86-87 | seeds the greeting only when there is no log yet; an existing log is left untouched |
| `App.Session.BuildPrompt` | app.py:104-112 | the loop's result equals `Prompt(log)`: it starts with the system message and has 1 + (number of user/ai entries) messages; for a valid seeded session it is the system message followed by every log entry, role-mapped; the log is only read |
| `App.Session.Submit` | app.py:115-123 | a falsy query changes nothing and the model is not asked; otherwise the user entry is appended and the result is the prompt assembled for the model call from the extended log, which ends with the query; on success the answer is added as an ai entry, on failure nothing more is added; earlier entries are unchanged |
| `App.Session.Run` | app.py:86-123 | one execution of the script: seed if needed, then one submit cycle; the result is `None` for an empty or absent query, otherwise the prompt assembled from the seeded log plus the query |

## Left out

- Page styling, title, sidebar, model picker and the rendering of the log (app.py:13-70, 90-98): these are widget configuration without logic.
- The model client and the HTTP call to the local model server in `gen_ai` (app.py:73-78, 100-102): network I/O through a foreign library, modelled only as the `reply` oracle parameter. The oracle's answer does not depend on the prompt in the model.
- Template semantics of the prompt library (app.py:108, 110, 112), such as reading `{...}` in content as variables: that is behaviour of an unseen library. Messages are plain tagged data. A template error is covered by `Fail`.
- Session.Submit: a failure while the prompt is built is folded into `Fail`, so the result still reports the assembled prompt even though the model call at app.py:121 is never reached.
- The spinner, `st.rerun` and how the framework keeps the session state between reruns (app.py:119, 127): framework control flow. The session state is a class instance, and `Run` is one script execution.
- Temperature and output format (app.py:76-77): configuration constants; the temperature is a float.
