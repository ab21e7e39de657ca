# Kudwa financial backend: the document normaliser and the query agent

This project models two parts of the backend in Dafny and proves properties about them.

- **`QuickBooksParser.parse`** (`parsers.dfy`, module `Parsers`) takes an uploaded JSON document of unknown shape and turns it into transaction records.
  - It looks for the first list whose element 0 is an object. The search is depth-first, follows object keys in document order, and never descends into lists.
  - If nothing is found and the root is an object, the root becomes the only candidate.
  - For each candidate it lower-cases the keys and keeps only string, number and boolean values.
  - It then reads each field through a chain of fallback keys with a default, flips the sign of expense amounts, and parses the date with a fallback to today.
  - The loop (`Parse`) is proved equal to a specification function (`ParseDocument`). The properties are proved about that function and about the outcome of each candidate.
- **`FinancialAgent._get_sql` and `FinancialAgent.run`** (`agent.dfy`, module `Agent`) answer a question about the financial records.
  - `_get_sql` sends the model an instruction prompt, the last three turns of history and the question. It then strips code fences and whitespace from the SQL that comes back.
  - `run` rejects SQL whose upper-cased text contains DROP, DELETE, UPDATE, INSERT or ALTER, executes the SQL, returns a fixed "No data found." result for zero rows, and otherwise has the model narrate the rows.
  - Every failure is caught and replaced by a fixed demo payload.
  - The language model, the database and `json.dumps` are function-valued fields of a `Services` value. Each returns a result or a failure.
  - `Run` returns the agent's result and a trace of the external calls it made, in order. The properties are stated over that trace and result.
- **`strings.dfy`** (module `Strings`) holds the Python string operations both parts use: `lower()`, `upper()`, `in`, `replace` and `strip()`.

The two instruction prompts appear as placeholder constants; only their position in the message lists is modelled. The user message of the narration request is built as the code writes it: the f-string `"Q: {question}\\nData: {...}"` puts a backslash and an `n` between the question and the data, not a newline.

## Model

| member | source | states |
|---|---|---|
| Parsers.FindList | src/infrastructure/parsers.py:21-28 | `find_list` returns either the empty list or a list whose element 0 is an object |
| Parsers.FindIn | src/infrastructure/parsers.py:24-28 | the key loop of `find_list` returns either nothing or a list whose element 0 is an object |
| Parsers.AllLists | src/infrastructure/parsers.py:21-28 | reference walk: every list of objects reachable through objects, in depth-first key order; each one is non-empty and starts with an object |
| Parsers.FindListIsFirst | src/infrastructure/parsers.py:21-28 | `find_list` returns the first list of the depth-first, key-order walk, or `[]` when there is none |
| Parsers.FindInIsFirst | src/infrastructure/parsers.py:25-27 | the key loop returns the first hit among the remaining members, in key order |
| Parsers.ListsAreNotSearched | src/infrastructure/parsers.py:22-28 | a list that does not qualify yields nothing, whatever lists of objects it holds inside |
| Parsers.CandidatesFallback | src/infrastructure/parsers.py:30-34 | the candidates are the first qualifying list if there is one; otherwise exactly `[root]` for an object root, and nothing for a list or scalar root; the first candidate is always an object |
| Parsers.Lowered | src/infrastructure/parsers.py:39 | the normalised map has only lower-case keys, and a key is present exactly when some member with a str/int/float/bool value lower-cases to it |
| Parsers.LaterKeyWins | src/infrastructure/parsers.py:39 | when several keys lower-case alike, the value of the last scalar member among them is kept |
| Parsers.Normalise | src/infrastructure/parsers.py:37-67 | a candidate without `.items()` raises; an object is skipped exactly when its normalised map is empty; an emitted record keeps the candidate as its raw data; an expense-typed record never has a positive amount |
| Parsers.NormaliseErrors | src/infrastructure/parsers.py:39-51 | each exception a candidate can raise happens exactly under its condition, in code order: no `.items()`, an amount `float()` rejects, then a type that is not text; none is the invalid-JSON error |
| Parsers.RecordFields | src/infrastructure/parsers.py:46-62 | type comes from `type` or is "Unknown"; category from `category`, `account` or "Uncategorized"; description from `description`, `memo` or "Unknown"; the date is the date `strptime` reads from `date`, `timestamp` or "2024-01-01" when it accepts that text, and today otherwise |
| Parsers.RecordAmount | src/infrastructure/parsers.py:45-51 | the amount field converted with `float()`; an expense amount is minus its magnitude; other amounts are unchanged, including 0 when there is neither `amount` nor `value` |
| Parsers.OverflowingAmountRaises | src/infrastructure/parsers.py:45 | an integer amount too large for a double makes `float()` raise, so the parse aborts |
| Parsers.FailureIsFinal | src/infrastructure/parsers.py:36-68 | once a prefix of the candidates raises, the whole parse raises the same exception |
| Parsers.FirstFailureWins | src/infrastructure/parsers.py:36-68 | the parse succeeds exactly when no candidate raises; otherwise it raises the exception of the first candidate that does |
| Parsers.EmittedIndices | src/infrastructure/parsers.py:37-42 | the emitted indices increase, each points at a candidate that yields a record, and every other candidate yields none |
| Parsers.CollectIsEmitted | src/infrastructure/parsers.py:60-68 | a successful parse returns one record per emitted index, in order, each one the record of that candidate |
| Parsers.RecordsFollowCandidates | src/infrastructure/parsers.py:36-68 | records follow candidate order, at most one per candidate, and every candidate without a record was skipped |
| Parsers.NothingFound | src/infrastructure/parsers.py:30-42 | a list or scalar root with no list of objects inside parses to no records |
| Parsers.CollectStep | src/infrastructure/parsers.py:37-67 | one iteration of the loop appends a record, skips, or raises that candidate's exception |
| Parsers.ParseOfCandidates | src/infrastructure/parsers.py:30-68 | `parse` of a loaded document succeeds exactly when no candidate raises, and otherwise raises the first candidate's exception; on success record `j` is the record of candidate `Emitted[j]`, in increasing candidate order, and every other candidate was skipped |
| Parsers.Parse | src/infrastructure/parsers.py:13-68 | the loop of `parse` returns exactly `ParseDocument`: the invalid-JSON error, the first exception, or the records in candidate order |
| Strings.LowerIsLowerCase | src/infrastructure/parsers.py:39 | the result of `lower()` holds no upper-case letter, and lowering it again changes nothing |
| Strings.ReplaceAllAbsent | src/infrastructure/ai_agent.py:47 | replacing a pattern that does not occur leaves the text unchanged |
| Strings.RemoveFencesLeavesNone | src/infrastructure/ai_agent.py:47 | after every triple backtick is replaced from left to right, none is left, and a leading run of backticks keeps its length modulo 3 |
| Strings.StripShape | src/infrastructure/ai_agent.py:46-47 | `strip()` neither starts nor ends with whitespace, and the input is that result with only whitespace around it |
| Strings.StripIdempotent | src/infrastructure/ai_agent.py:46-47 | stripping twice is stripping once |
| Agent.MessageWindow | src/infrastructure/ai_agent.py:37-41 | the message list is the instructions, then the last (at most 3) history turns in order with role and content only, then the question; it has at most 5 messages; a KeyError happens exactly when one of those turns lacks a key |
| Agent.BuildMessages | src/infrastructure/ai_agent.py:37-41 | the appending loop builds exactly that message list, or stops at the first turn that lacks a key |
| Agent.FencesRemoved | src/infrastructure/ai_agent.py:46-47 | the cleaned SQL contains no fence and neither starts nor ends with whitespace |
| Agent.UnfencedIsOnlyStripped | src/infrastructure/ai_agent.py:46-47 | a reply without any backtick is only stripped |
| Agent.GetSql | src/infrastructure/ai_agent.py:36-47 | `_get_sql` returns the cleaned reply; it makes one model call exactly when the message list could be built |
| Agent.GateIgnoresCase | src/infrastructure/ai_agent.py:55-56 | a denylisted word written in any letter case, anywhere in the SQL, trips the gate |
| Agent.UpdatedAtIsRejected | src/infrastructure/ai_agent.py:55-56 | the substring match rejects a query that only names the column `updated_at` |
| Agent.PassesWithoutLetters | src/infrastructure/ai_agent.py:55 | SQL with no D, N or L in either case contains none of the five keywords |
| Agent.CreatePasses | src/infrastructure/ai_agent.py:55 | CREATE is not on the list: `CREATE SCHEMA x` passes the gate |
| Agent.NarrateRows | src/infrastructure/ai_agent.py:66-89 | for non-empty rows, the narration call is made unless `json.dumps` raises; the answer is the model's text with the rows and the SQL; any failure gives the demo payload |
| Agent.ExecuteAndNarrate | src/infrastructure/ai_agent.py:59-89 | the SQL is executed first; a failing execution gives the demo payload, zero rows give the "No data found." result with no further call, and other rows go on to narration |
| Agent.Run | src/infrastructure/ai_agent.py:49-89 | `run` never raises; the model is asked for SQL unless a history turn lacks a key; the executor is called at most once, second, with exactly the SQL `_get_sql` produced, and only when that SQL passes the gate; every path that stops before execution gives the demo payload |
| Agent.EmptyRowsSkipNarration | src/infrastructure/ai_agent.py:63-64 | the result is "No data found." exactly when the query returns zero rows; it then carries the executed SQL and the model is not asked to narrate |
| Agent.NarratedAnswer | src/infrastructure/ai_agent.py:73-89 | a narrated answer carries the model's text, the executed rows in order and exactly the executed SQL; any other outcome after the gate, other than zero rows, gives the demo payload |
| Agent.ResultShapes | src/infrastructure/ai_agent.py:63-64 | the "No data found." result uses the keys answer/data/sql, and the narrated result uses answer/data_points/generated_sql |

## Left out

- `json.loads` is not modelled at the text level. The document arrives already loaded, or as `None` when it is not JSON. Objects are ordered key/value sequences, and the duplicate keys `json.loads` would merge are not excluded.
- Python's `float(text)`, `datetime.strptime` and `datetime.now()` are abstract fields of `Env`. Amounts are exact reals, so float rounding, `nan` and `inf` are not modelled. `float()` of an `int` is modelled only by its overflow bound: it raises from a magnitude of 2^1024 - 2^970 on, and below that the integer is kept exactly.
- The `raw_data` field keeps the candidate's JSON value rather than the `json.dumps` text.
- The narration payload's `json.dumps(data)` is an abstract function that may fail.
- src/domain/schemas.py is not part of this model, so `TransactionDTO` validation is not modelled. Description and category are kept as the scalar values the code passes on.
- `ParserStrategy`, `RootfiParser` and `ParserFactory` are left out. They only dispatch to the same parser.
- The OpenAI client, the SQLAlchemy session and `text()` are left out. Each is an abstract function returning a result or a failure.
  - The model is a function of the message list, so identical requests get identical replies.
  - An empty `choices` list counts as a failed call.
- `async`/`await`, the module-level `settings` and `client`, `get_settings` and the `print` in the exception handler are left out.
- The wording of `SYSTEM_SQL` and `SYSTEM_NARRATIVE` is not modelled.
- Strings.Lower, Strings.Upper: only ASCII letters change case. Python's full Unicode case mapping is not modelled, including characters whose upper case is an ASCII letter (`ſ` becomes `S`) and characters that expand (`ß` becomes `SS`).
- History turns are dictionaries from text to text. A turn that is not a dictionary, or whose role or content is not text, is not modelled.
- Behaviours this code does not have, which the model therefore does not have either:
  - Only the first list of objects is kept, not all of them; `AllLists` collects all of them as a reference, and `FindListIsFirst` relates the two.
  - There is no near-zero amount filter. A record without `amount` or `value` is emitted with amount 0.
  - There is no recursion depth limit.
  - An unparseable date becomes today's date, not a fixed one.
  - There is no provider failover.
  - A gate rejection is not a distinct security result. It raises, and the handler returns the demo payload without the rejected SQL.
  - A candidate that raises aborts the whole parse instead of being skipped.
