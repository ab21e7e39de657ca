/**
 * `FinancialAgent` (src/infrastructure/ai_agent.py): `_get_sql` builds the
 * prompt from the question and the last turns of history and cleans up the
 * SQL the language model returns; `run` passes that SQL through a keyword
 * denylist, executes it, and has the model narrate the rows, turning every
 * failure into a fixed demo payload.
 *
 * The language model, the database and `json.dumps` are outside the model:
 * they come in as the fields of a `Services` value, each returning either
 * what the call produced or a failure. Every call the agent makes is recorded,
 * in order, in the `calls` trace that `run` returns beside its result.
 */
module Agent {
  import opened Wrappers
  import opened Strings

  /** One chat message `{"role": ..., "content": ...}`. */
  datatype Message = Message(role: string, content: string)

  /** One history entry, a dictionary; `_get_sql` reads its "role" and "content". */
  type Turn = map<string, string>

  /** What `chat.completions.create` gives: a failure, or a first choice whose content may be null. */
  datatype Completion = CallFailed | Completed(content: Option<string>)

  /** A value in a result row. */
  datatype Cell = Null | Int(i: int) | Real(r: real) | Text(s: string) | Blob(bytes: seq<int>)

  /** One row of the query result, `dict(r)`. */
  type Row = map<string, Cell>

  /** What `db.execute(text(sql))` gives: a failure, or all rows of the result. */
  datatype Execution = ExecutionFailed | Rows(rows: seq<Row>)

  /**
   * The outside world: the chat model, the query executor, and `json.dumps`
   * of the rows (`None` when it raises, e.g. on a value it cannot serialise).
   */
  datatype Services = Services(
    complete: seq<Message> -> Completion,
    execute: string -> Execution,
    dumps: seq<Row> -> Option<string>)

  /** An external call the agent made. */
  datatype Call = Generate(messages: seq<Message>) | Execute(sql: string) | Narrate(messages: seq<Message>)

  /** The dictionary `run` returns; the two shapes have different keys. */
  datatype AgentResult =
    | NoData(sql: string)
    | Answer(answer: Option<string>, dataPoints: seq<Row>, generatedSql: string)
  {
    function Keys(): seq<string> {
      if NoData? then ["answer", "data", "sql"] else ["answer", "data_points", "generated_sql"]
    }

    function AnswerText(): Option<string> {
      if NoData? then Some(NoDataAnswer) else answer
    }
  }

  // The two instruction prompts: only their role in the message lists matters here.
  const SqlInstructions := "<SYSTEM_SQL>"
  const NarrativeInstructions := "<SYSTEM_NARRATIVE>"

  const HistoryTurns := 3
  const NoDataAnswer := "No data found."
  const SqlFence := "```sql"

  /** The keywords of the safety gate. */
  const Denylist := ["DROP", "DELETE", "UPDATE", "INSERT", "ALTER"]

  // ---------------------------------------------------------------------------
  // _get_sql

  /** `history[-3:]` */
  function Window(history: seq<Turn>): seq<Turn> {
    if |history| <= HistoryTurns then history else history[|history| - HistoryTurns..]
  }

  predicate HasRoleAndContent(turn: Turn) {
    "role" in turn && "content" in turn
  }

  function ToMessages(turns: seq<Turn>): seq<Message>
    requires forall i | 0 <= i < |turns| :: HasRoleAndContent(turns[i])
  {
    seq(|turns|, i requires 0 <= i < |turns| && HasRoleAndContent(turns[i]) => Message(turns[i]["role"], turns[i]["content"]))
  }

  /** The messages `_get_sql` sends; `None` when a turn it copies lacks "role" or "content" (a KeyError). */
  function SqlMessages(question: string, history: seq<Turn>): Option<seq<Message>> {
    var turns := Window(history);
    if forall i | 0 <= i < |turns| :: HasRoleAndContent(turns[i]) then
      Some([Message("system", SqlInstructions)] + ToMessages(turns) + [Message("user", question)])
    else
      None
  }

  /**
   * The message list is the instructions, then the last (at most three) turns
   * of history in their original order with role and content only, then the
   * question; at most five messages. Only those last turns are read.
   */
  lemma MessageWindow(question: string, history: seq<Turn>)
    ensures var n := if |history| < HistoryTurns then |history| else HistoryTurns;
      && (SqlMessages(question, history).None? <==>
            exists i | |history| - n <= i < |history| :: !HasRoleAndContent(history[i]))
      && (SqlMessages(question, history).Some? ==>
            var m := SqlMessages(question, history).value;
            && |m| == n + 2 <= 5
            && m[0] == Message("system", SqlInstructions)
            && m[|m| - 1] == Message("user", question)
            && forall j | 0 < j < |m| - 1 ::
                 m[j] == Message(history[|history| - n + j - 1]["role"], history[|history| - n + j - 1]["content"]))
  {
    var n := if |history| < HistoryTurns then |history| else HistoryTurns;
    var turns := Window(history);
    assert |turns| == n;
    assert forall j | 0 <= j < n :: turns[j] == history[|history| - n + j];
    if SqlMessages(question, history).Some? {
      var m := SqlMessages(question, history).value;
      var middle := ToMessages(turns);
      assert m == [Message("system", SqlInstructions)] + middle + [Message("user", question)];
      assert forall j | 0 < j < |m| - 1 :: m[j] == middle[j - 1];
    }
  }

  /** The loop of `_get_sql` that appends the last turns to the message list. */
  method BuildMessages(question: string, history: seq<Turn>) returns (messages: Option<seq<Message>>)
    ensures messages == SqlMessages(question, history)
  {
    var turns := if |history| <= HistoryTurns then history else history[|history| - HistoryTurns..];
    var built := [Message("system", SqlInstructions)];
    for i := 0 to |turns|
      invariant forall j | 0 <= j < i :: HasRoleAndContent(turns[j])
      invariant built == [Message("system", SqlInstructions)] + ToMessages(turns[..i])
    {
      if "role" !in turns[i] || "content" !in turns[i] {
        return None;
      }
      built := built + [Message(turns[i]["role"], turns[i]["content"])];
    }
    assert turns[..|turns|] == turns;
    return Some(built + [Message("user", question)]);
  }

  /** `sql.strip().replace("```sql", "").replace("```", "").strip()` */
  function CleanSql(content: string): string {
    Strip(ReplaceAll(ReplaceAll(Strip(content), SqlFence, ""), Fence, ""))
  }

  /** The cleaned SQL holds no code fence and neither starts nor ends with whitespace. */
  lemma FencesRemoved(content: string)
    ensures !Contains(CleanSql(content), Fence)
    ensures CleanSql(content) == [] || (!IsSpace(CleanSql(content)[0]) && !IsSpace(CleanSql(content)[|CleanSql(content)| - 1]))
  {
    var unfenced := ReplaceAll(ReplaceAll(Strip(content), SqlFence, ""), Fence, "");
    RemoveFencesLeavesNone(ReplaceAll(Strip(content), SqlFence, ""));
    var r := Strip(unfenced);
    StripShape(unfenced);
    var a := LeadingSpaces(unfenced);
    assert r == unfenced[a..a + |r|];
    if Contains(r, Fence) {
      ContainsSlice(unfenced, a, a + |r|, Fence);
    }
  }

  /** A reply without any backtick is only stripped. */
  lemma UnfencedIsOnlyStripped(content: string)
    requires '`' !in content
    ensures CleanSql(content) == Strip(content)
  {
    var s := Strip(content);
    var t := content[LeadingSpaces(content)..];
    assert '`' !in t;
    assert s == t[..|t| - TrailingSpaces(t)];
    assert '`' !in s;
    AbsentLetter(s, SqlFence, 0);
    ReplaceAllAbsent(s, SqlFence, "");
    AbsentLetter(s, Fence, 0);
    ReplaceAllAbsent(s, Fence, "");
    StripIdempotent(content);
  }

  /** A word with a letter that `s` lacks does not occur in `s`. */
  lemma AbsentLetter(s: string, w: string, j: nat)
    requires j < |w| && w[j] !in s
    ensures !Contains(s, w)
  {
    forall i | 0 <= i <= |s| - |w| ensures !OccursAt(s, w, i) {
      assert s[i..i + |w|][j] == s[i + j];
    }
  }

  /** An upper-case letter of `w` that `s` lacks in both cases keeps `w` out of `s.upper()`. */
  lemma UpperAbsentLetter(s: string, w: string, j: nat)
    requires j < |w| && IsUpperLetter(w[j]) && w[j] !in s && LowerChar(w[j]) !in s
    ensures !Contains(Upper(s), w)
  {
    forall k | 0 <= k < |s| ensures Upper(s)[k] != w[j] {
      assert s[k] != w[j] && s[k] != LowerChar(w[j]);
    }
    AbsentLetter(Upper(s), w, j);
  }

  /** What `_get_sql` returns; `None` when it raises. */
  function GeneratedSql(question: string, history: seq<Turn>, services: Services): Option<string> {
    match SqlMessages(question, history)
    case None => None
    case Some(messages) =>
      match services.complete(messages)
      case Completed(Some(content)) => Some(CleanSql(content))
      case _ => None
  }

  /**
   * `_get_sql` as it runs: it builds the messages with the loop of
   * `BuildMessages`, makes the model call and records it. `GeneratedSql` is the
   * value it returns, which the contract of `Run` refers to.
   */
  method GetSql(question: string, history: seq<Turn>, services: Services) returns (sql: Option<string>, calls: seq<Call>)
    ensures sql == GeneratedSql(question, history, services)
    ensures calls == if SqlMessages(question, history).Some? then [Generate(SqlMessages(question, history).value)] else []
  {
    var messages := BuildMessages(question, history);
    if messages.None? {
      return None, [];
    }
    calls := [Generate(messages.value)];
    var reply := services.complete(messages.value);
    if reply.CallFailed? || reply.content.None? {
      return None, calls;
    }
    var text := Strip(reply.content.value);
    text := ReplaceAll(text, SqlFence, "");
    text := ReplaceAll(text, Fence, "");
    return Some(Strip(text)), calls;
  }

  // ---------------------------------------------------------------------------
  // run

  /** `any(x in sql.upper() for x in [...])`: the gate rejects the SQL. */
  predicate IsUnsafe(sql: string) {
    exists i | 0 <= i < |Denylist| :: Contains(Upper(sql), Denylist[i])
  }

  /** A denylisted word written in any letter case trips the gate, wherever it occurs. */
  lemma GateIgnoresCase(sql: string, word: string)
    requires Upper(word) in Denylist
    requires Contains(sql, word)
    ensures IsUnsafe(sql)
  {
    ContainsUpper(sql, word);
    var i :| 0 <= i < |Denylist| && Denylist[i] == Upper(word);
  }

  /** A substring match: a column named `updated_at` trips the gate. */
  lemma UpdatedAtIsRejected()
    ensures IsUnsafe("SELECT updated_at FROM t")
  {
    var w := "update";
    var sql := "SELECT " + w + "d_at FROM t";
    assert sql == "SELECT updated_at FROM t";
    assert sql[7..13] == w;
    assert OccursAt(sql, w, 7);
    assert Upper(w) == Denylist[2];
    GateIgnoresCase(sql, w);
  }

  /** SQL with no D, N or L in either case contains no denylisted word. */
  lemma PassesWithoutLetters(sql: string)
    requires 'D' !in sql && 'd' !in sql && 'N' !in sql && 'n' !in sql && 'L' !in sql && 'l' !in sql
    ensures !IsUnsafe(sql)
  {
    UpperAbsentLetter(sql, "DROP", 0);
    UpperAbsentLetter(sql, "DELETE", 0);
    UpperAbsentLetter(sql, "UPDATE", 2);
    UpperAbsentLetter(sql, "INSERT", 1);
    UpperAbsentLetter(sql, "ALTER", 1);
  }

  /** CREATE is not on the list: a CREATE statement passes the gate. */
  lemma CreatePasses()
    ensures !IsUnsafe("CREATE SCHEMA x")
  {
    PassesWithoutLetters("CREATE SCHEMA x");
  }

  const DemoRows: seq<Row> := [map["mock_revenue" := Int(50000), "mock_expense" := Int(12000)]]
  const DemoSql := "SELECT SUM(amount) FROM financial_records -- (Mock)"
  const DemoOpening := "[DEMO MODE] OpenAI API unavailable (Billing/Quota). Displaying mock analysis for: '"
  const DemoClosing := "'. The system logic is intact."

  /** The payload of the catch-all `except`. */
  function Demo(question: string): AgentResult {
    Answer(Some(DemoOpening + question + DemoClosing), DemoRows, DemoSql)
  }

  /** The narration request; the f-string's `\\n` puts a backslash and an `n` in the text, not a newline. */
  function NarrationMessages(question: string, payload: string): seq<Message> {
    [Message("system", NarrativeInstructions), Message("user", "Q: " + question + "\\nData: " + payload)]
  }

  /**
   * What the narration step of `run` leads to for non-empty rows: a call to the
   * model, unless `json.dumps` of the rows raises; the model's text with the
   * rows and the SQL when the call comes back; the demo payload otherwise.
   */
  predicate NarrationOutcome(question: string, sql: string, data: seq<Row>, services: Services,
                             result: AgentResult, calls: seq<Call>)
  {
    && |calls| <= 1
    && (|calls| == 1 <==> services.dumps(data).Some?)
    && (|calls| == 1 ==> calls[0] == Narrate(NarrationMessages(question, services.dumps(data).value)))
    && (if |calls| == 1 && services.complete(calls[0].messages).Completed?
        then result == Answer(services.complete(calls[0].messages).content, data, sql)
        else result == Demo(question))
  }

  /**
   * What `run` leads to once the SQL has passed the gate: the SQL is executed;
   * a failing execution gives the demo payload; zero rows give the "No data
   * found." result with no further call; other rows go on to narration.
   */
  predicate ExecutionOutcome(question: string, sql: string, services: Services,
                             result: AgentResult, calls: seq<Call>)
  {
    && |calls| >= 1
    && calls[0] == Execute(sql)
    && match services.execute(sql)
       case ExecutionFailed => |calls| == 1 && result == Demo(question)
       case Rows(rows) =>
         if rows == [] then |calls| == 1 && result == NoData(sql)
         else NarrationOutcome(question, sql, rows, services, result, calls[1..])
  }

  /** Step 4 of `run` for non-empty rows: serialise them and have the model narrate. */
  method NarrateRows(question: string, sql: string, data: seq<Row>, services: Services)
    returns (result: AgentResult, calls: seq<Call>)
    ensures NarrationOutcome(question, sql, data, services, result, calls)
  {
    var payload := services.dumps(data);
    if payload.None? {
      return Demo(question), [];
    }
    var messages := NarrationMessages(question, payload.value);
    calls := [Narrate(messages)];
    var narration := services.complete(messages);
    if narration.CallFailed? {
      return Demo(question), calls;
    }
    return Answer(narration.content, data, sql), calls;
  }

  /** Steps 3 and 4 of `run`: execute, stop at zero rows, narrate. */
  method ExecuteAndNarrate(question: string, sql: string, services: Services) returns (result: AgentResult, calls: seq<Call>)
    ensures ExecutionOutcome(question, sql, services, result, calls)
    ensures forall i | 0 < i < |calls| :: calls[i].Narrate?
  {
    var execution := services.execute(sql);
    if execution.ExecutionFailed? {
      return Demo(question), [Execute(sql)];
    }
    var data := execution.rows;
    if data == [] {
      return NoData(sql), [Execute(sql)];
    }
    var narrated;
    result, narrated := NarrateRows(question, sql, data, services);
    calls := [Execute(sql)] + narrated;
    assert calls[1..] == narrated;
  }

  /**
   * `FinancialAgent.run`. It never raises. The model is asked for SQL unless a
   * copied history turn lacks a key. The executor is called at most once, only
   * with the SQL `_get_sql` produced, and only when that SQL passes the gate;
   * every path that stops before it gives the demo payload.
   */
  method Run(question: string, history: seq<Turn>, services: Services) returns (result: AgentResult, calls: seq<Call>)
    ensures calls == [] <==> SqlMessages(question, history).None?
    ensures calls != [] ==> calls[0] == Generate(SqlMessages(question, history).value)
    ensures var sql := GeneratedSql(question, history, services);
      |calls| >= 2 <==> sql.Some? && !IsUnsafe(sql.value)
    ensures forall i | 0 <= i < |calls| :: calls[i].Execute? ==> i == 1
    ensures |calls| >= 2 ==> calls[1].Execute? && Some(calls[1].sql) == GeneratedSql(question, history, services)
    ensures |calls| < 2 ==> result == Demo(question)
    ensures |calls| >= 2 ==>
      ExecutionOutcome(question, GeneratedSql(question, history, services).value, services, result, calls[1..])
  {
    var generated, asked := GetSql(question, history, services);
    if generated.None? || IsUnsafe(generated.value) {
      assert forall i | 0 <= i < |asked| :: asked[i].Generate?;
      return Demo(question), asked;
    }
    var sql := generated.value;
    var rest;
    result, rest := ExecuteAndNarrate(question, sql, services);
    assert |asked| == 1 && asked[0].Generate?;
    calls := asked + rest;
    assert calls[1..] == rest;
    assert calls[1] == Execute(sql);
    assert forall i | 1 < i < |calls| :: calls[i] == rest[i - 1] && calls[i].Narrate?;
    assert forall i | 0 <= i < |calls| && calls[i].Execute? :: i == 1;
  }

  /**
   * Zero rows give the "No data found." result carrying the executed SQL, and
   * the model is not asked to narrate; the result is `NoData` for no other reason.
   */
  lemma EmptyRowsSkipNarration(question: string, sql: string, services: Services, result: AgentResult, calls: seq<Call>)
    requires ExecutionOutcome(question, sql, services, result, calls)
    ensures result.NoData? <==> services.execute(sql) == Rows([])
    ensures result.NoData? ==> result == NoData(sql) && calls == [Execute(sql)]
    ensures forall c <- calls :: c.Narrate? ==> services.execute(sql).Rows? && services.execute(sql).rows != []
  {
    if services.execute(sql).Rows? && services.execute(sql).rows != [] {
      assert forall c <- calls[1..] :: c.Narrate?;
      assert calls == [calls[0]] + calls[1..];
    }
  }

  /**
   * A narrated answer holds the model's text, every executed row in order, and
   * exactly the SQL that was executed; any failure after the gate gives the
   * demo payload.
   */
  lemma NarratedAnswer(question: string, sql: string, services: Services, result: AgentResult, calls: seq<Call>)
    requires ExecutionOutcome(question, sql, services, result, calls)
    ensures |calls| == 2 && services.complete(calls[1].messages).Completed? ==>
      services.execute(sql).Rows? &&
      result == Answer(services.complete(calls[1].messages).content, services.execute(sql).rows, sql)
    ensures !result.NoData? && !(|calls| == 2 && services.complete(calls[1].messages).Completed?) ==>
      result == Demo(question)
  {
  }

  /** The two result shapes carry different keys, and the empty result a fixed answer. */
  lemma ResultShapes(sql: string, answer: Option<string>, rows: seq<Row>)
    ensures NoData(sql).Keys() == ["answer", "data", "sql"]
    ensures NoData(sql).AnswerText() == Some("No data found.")
    ensures Answer(answer, rows, sql).Keys() == ["answer", "data_points", "generated_sql"]
  {
  }
}
