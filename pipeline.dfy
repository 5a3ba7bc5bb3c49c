/** The three helpers of app.py and its Submit handler (lines 16-28, 31-67,
    70-78 and 86-104). The Gemini client, the Neo4j driver and the Streamlit
    page are one object that logs every call and every message; the replies
    the client and the driver give are oracles, and the prompt templates are
    reduced to what they embed. */
module Pipeline {
  import opened Results
  import opened ResultNormalizer
  import opened TextCleanup

  /** A prompt sent to the LLM, without its fixed template wording: the Cypher
      prompt embeds the question verbatim, the summary prompt the question and
      the normalised result (None after a failed execution). */
  datatype Prompt<V> =
    | CypherPrompt(question: string)
    | SummaryPrompt(question: string, values: Option<Normalized<V>>)

  /** What the LLM replies to a prompt: a text, or the message of the exception the client raised. */
  type Llm<!V> = Prompt<V> -> Result<string, string>

  /** What `session.run(query).data()` gives: the rows, or the driver's error message. */
  type Database<V> = string -> Result<seq<Row<V>>, string>

  /** Why `run_cypher` raised. */
  datatype ExecError =
    | DriverError(message: string)   // connection, syntax or any other driver failure
    | MissingColumn(key: string)     // KeyError from `row[key]` in the normaliser

  /** What `generate_cypher` and `summarize_results` make of the LLM's reply:
      the text, cleaned; a failed call propagates with its message. */
  function CleanReply(reply: Result<string, string>): (r: Result<string, string>)
    ensures r.Success? <==> reply.Success?
    ensures r.Failure? ==> r.error == reply.error
    ensures r.Success? ==> r.value == Clean(reply.value)
  {
    match reply
    case Success(text) => Success(Clean(text))
    case Failure(message) => Failure(message)
  }

  /** What `run_cypher` makes of the driver's answer: a driver failure is raised
      again; the rows are normalised, which raises KeyError for a missing column. */
  function NormalizeReply<V>(reply: Result<seq<Row<V>>, string>): (r: Result<Normalized<V>, ExecError>)
    ensures reply.Failure? ==> r == Failure(DriverError(reply.error))
    ensures reply.Success? ==>
              match Normalize(reply.value)
              case Success(values) => r == Success(values)
              case Failure(key) => r == Failure(MissingColumn(key))
  {
    match reply
    case Failure(message) => Failure(DriverError(message))
    case Success(data) =>
      match Normalize(data)
      case Success(values) => Success(values)
      case Failure(key) => Failure(MissingColumn(key))
  }

  /** Only the first row decides that the result is one column; a later row
      without that column makes `run_cypher` raise KeyError, which the handler
      reports as an execution failure. */
  lemma MissingColumnFailsExecution<V>(data: seq<Row<V>>, i: nat)
    requires data != [] && |data[0]| == 1 && i < |data| && SoleKey(data[0]) !in data[i]
    ensures NormalizeReply(Success(data)) == Failure(MissingColumn(SoleKey(data[0])))
  {
  }

  /** A message the handler puts on the page before the answer. */
  datatype Message<V> =
    | Warning                          // st.warning: blank question
    | Code(query: string)              // st.code with the generated query
    | RawOutput(values: Normalized<V>) // st.success and the raw output
    | ExecutionError(error: ExecError) // st.error in the except branch

  /** One thing that happened in the outside world: an LLM call, a database call
      or a message on the page. */
  datatype Event<V> =
    | Asked(prompt: Prompt<V>)
    | Ran(query: string)
    | Shown(message: Message<V>)

  /** The outside world of the handler: the Gemini client, the Neo4j driver and
      the page, with the log of everything asked of them, in order. */
  class World<V> {
    const llm: Llm<V>
    const db: Database<V>
    var log: seq<Event<V>>

    constructor (llm: Llm<V>, db: Database<V>)
      ensures this.llm == llm && this.db == db && log == []
    {
      this.llm := llm;
      this.db := db;
      log := [];
    }

    /** `client.models.generate_content`: one LLM call. */
    method Ask(prompt: Prompt<V>) returns (reply: Result<string, string>)
      modifies this
      ensures reply == llm(prompt)
      ensures log == old(log) + [Asked(prompt)]
    {
      reply := llm(prompt);
      log := log + [Asked(prompt)];
    }

    /** `session.run(query).data()`: one database call. */
    method Query(query: string) returns (reply: Result<seq<Row<V>>, string>)
      modifies this
      ensures reply == db(query)
      ensures log == old(log) + [Ran(query)]
    {
      reply := db(query);
      log := log + [Ran(query)];
    }

    /** A message on the page. */
    method Show(message: Message<V>)
      modifies this
      ensures log == old(log) + [Shown(message)]
    {
      log := log + [Shown(message)];
    }
  }

  /** `generate_cypher`: one LLM call on the Cypher prompt; the cleaned reply is the query. */
  method GenerateCypher<V>(world: World<V>, question: string) returns (r: Result<string, string>)
    modifies world
    ensures r == CleanReply(world.llm(CypherPrompt(question)))
    ensures world.log == old(world.log) + [Asked(CypherPrompt(question))]
  {
    var reply := world.Ask(CypherPrompt(question));
    r := CleanReply(reply);
  }

  /** `run_cypher`: one database call; the rows, normalised. */
  method RunCypher<V>(world: World<V>, query: string) returns (r: Result<Normalized<V>, ExecError>)
    modifies world
    ensures r == NormalizeReply(world.db(query))
    ensures world.log == old(world.log) + [Ran(query)]
  {
    var reply := world.Query(query);
    r := NormalizeReply(reply);
  }

  /** `summarize_results`: one LLM call on the question and the result; the reply, cleaned. */
  method SummarizeResults<V>(world: World<V>, question: string, values: Option<Normalized<V>>) returns (r: Result<string, string>)
    modifies world
    ensures r == CleanReply(world.llm(SummaryPrompt(question, values)))
    ensures world.log == old(world.log) + [Asked(SummaryPrompt(question, values))]
  {
    var reply := world.Ask(SummaryPrompt(question, values));
    r := CleanReply(reply);
  }

  /** How one press of Submit ends. */
  datatype Outcome =
    | Rejected                          // blank question: warning only
    | GenerationError(message: string)  // generate_cypher raised; nothing after it runs
    | Answered(summary: string)         // the answer shown to the user
    | SummaryError(message: string)     // summarize_results raised

  /** What one press of Submit does: the events, in order, and how it ends. */
  datatype Effect<V> = Effect(log: seq<Event<V>>, outcome: Outcome)

  /** The value `run_cypher` hands on: the result, or None after a failure. */
  function ValuesOf<V>(run: Result<Normalized<V>, ExecError>): Option<Normalized<V>> {
    if run.Success? then Some(run.value) else None
  }

  /** How the handler ends once the summary is asked for: with the cleaned
      summary, or with the error `summarize_results` raised. */
  function Concluded(summary: Result<string, string>): Outcome {
    if summary.Success? then Answered(summary.value) else SummaryError(summary.error)
  }

  /** The page message after execution: the raw output, or the error. */
  function ReportOf<V>(run: Result<Normalized<V>, ExecError>): Message<V> {
    if run.Success? then RawOutput(run.value) else ExecutionError(run.error)
  }

  /** The events of the `try`/`except` around `run_cypher` (lines 95-101). */
  function ExecutionEffect<V>(db: Database<V>, query: string): seq<Event<V>> {
    [Ran(query), Shown(ReportOf(NormalizeReply(db(query))))]
  }

  /** The handler's answer to a question that is not blank (lines 90-104). */
  function AnswerEffect<V>(question: string, llm: Llm<V>, db: Database<V>): Effect<V> {
    match CleanReply(llm(CypherPrompt(question)))
    case Failure(message) => Effect([Asked(CypherPrompt(question))], GenerationError(message))
    case Success(query) =>
      var rest := ResponseEffect(question, query, llm, db);
      Effect([Asked(CypherPrompt(question))] + rest.log, rest.outcome)
  }

  /** What follows a successful generation (lines 92-104): the query is shown
      and executed, and the result, or None, is summarised. */
  function ResponseEffect<V>(question: string, query: string, llm: Llm<V>, db: Database<V>): Effect<V> {
    var values := ValuesOf(NormalizeReply(db(query)));
    Effect([Shown(Code(query))] + ExecutionEffect(db, query) + [Asked(SummaryPrompt(question, values))],
           Concluded(CleanReply(llm(SummaryPrompt(question, values)))))
  }

  /** The Submit handler (lines 86-104). */
  function SubmitEffect<V>(question: string, llm: Llm<V>, db: Database<V>): Effect<V> {
    if IsBlank(question) then Effect([Shown(Warning)], Rejected) else AnswerEffect(question, llm, db)
  }

  /** The Submit handler: a blank question is only warned about; any other is answered. */
  method Submit<V>(world: World<V>, question: string) returns (outcome: Outcome)
    modifies world
    ensures world.log == old(world.log) + SubmitEffect(question, world.llm, world.db).log
    ensures outcome == SubmitEffect(question, world.llm, world.db).outcome
  {
    if IsBlank(question) {
      world.Show(Warning);
      outcome := Rejected;
    } else {
      outcome := Answer(world, question);
    }
  }

  /** The handler's answer to a question that is not blank: generate the query;
      a generation failure propagates and ends the handler. */
  method Answer<V>(world: World<V>, question: string) returns (outcome: Outcome)
    modifies world
    ensures world.log == old(world.log) + AnswerEffect(question, world.llm, world.db).log
    ensures outcome == AnswerEffect(question, world.llm, world.db).outcome
  {
    ghost var start := world.log;
    var cypher := GenerateCypher(world, question);
    if cypher.Failure? {
      outcome := GenerationError(cypher.error);
    } else {
      outcome := Respond(world, question, cypher.value);
      SequenceAssociates(start, [Asked(CypherPrompt(question))], ResponseEffect(question, cypher.value, world.llm, world.db).log);
    }
  }

  /** Show the generated query, execute it, and summarise the result. */
  method Respond<V>(world: World<V>, question: string, query: string) returns (outcome: Outcome)
    modifies world
    ensures world.log == old(world.log) + ResponseEffect(question, query, world.llm, world.db).log
    ensures outcome == ResponseEffect(question, query, world.llm, world.db).outcome
  {
    ghost var start := world.log;
    var code: seq<Event<V>> := [Shown(Code(query))];
    world.Show(Code(query));
    var values := Execute(world, query);
    SequenceAssociates(start, code, ExecutionEffect(world.db, query));
    var summary := SummarizeResults(world, question, values);
    SequenceAssociates(start, code + ExecutionEffect(world.db, query), [Asked(SummaryPrompt(question, values))]);
    outcome := Concluded(summary);
  }

  /** Appending to a log in steps is appending the steps at once. */
  lemma SequenceAssociates<T>(a: seq<T>, b: seq<T>, c: seq<T>)
    ensures a + b + c == a + (b + c)
  {
  }

  /** The `try`/`except` around `run_cypher`: execute once, report the raw output
      or the error, and hand on the result or None. */
  method Execute<V>(world: World<V>, query: string) returns (values: Option<Normalized<V>>)
    modifies world
    ensures values == ValuesOf(NormalizeReply(world.db(query)))
    ensures world.log == old(world.log) + ExecutionEffect(world.db, query)
  {
    var run := RunCypher(world, query);
    if run.Success? {
      world.Show(RawOutput(run.value));
      values := Some(run.value);
    } else {
      world.Show(ExecutionError(run.error));
      values := None;
    }
  }

  /** The calls in a log, in order, without the page messages. */
  function Calls<V>(log: seq<Event<V>>): (calls: seq<Event<V>>)
    ensures |calls| <= |log|
    ensures forall i :: 0 <= i < |calls| ==> !calls[i].Shown?
  {
    if log == [] then []
    else if log[0].Shown? then Calls(log[1..])
    else [log[0]] + Calls(log[1..])
  }

  /** The calls of two logs one after the other. */
  lemma {:induction false} CallsAppend<V>(a: seq<Event<V>>, b: seq<Event<V>>)
    ensures Calls(a + b) == Calls(a) + Calls(b)
  {
    if a == [] {
      assert a + b == b;
    } else {
      assert (a + b)[0] == a[0];
      assert (a + b)[1..] == a[1..] + b;
      CallsAppend(a[1..], b);
    }
  }

  /** The first thing the handler does is warn exactly when the question is blank. */
  lemma {:induction false} WarningIffBlank<V>(question: string, llm: Llm<V>, db: Database<V>)
    ensures var log := SubmitEffect(question, llm, db).log;
            log != [] && (log[0] == Shown(Warning) <==> IsBlank(question))
  {
  }

  /** A blank question makes no LLM or database call; any other question does. */
  lemma {:induction false} NoCallIffBlank<V>(question: string, llm: Llm<V>, db: Database<V>)
    ensures Calls(SubmitEffect(question, llm, db).log) == [] <==> IsBlank(question)
  {
    if !IsBlank(question) {
      var log := SubmitEffect(question, llm, db).log;
      assert log == [log[0]] + log[1..];
      CallsAppend([log[0]], log[1..]);
    }
  }

  /** The calls a non-blank question makes: generation once; if it succeeds,
      then execution once with the generated query, then summarisation once with
      the same question and the result, or None when execution raised. Nothing
      is retried. */
  lemma {:induction false} CallsInOrder<V>(question: string, llm: Llm<V>, db: Database<V>)
    requires !IsBlank(question)
    ensures var generated := CleanReply(llm(CypherPrompt(question)));
            Calls(SubmitEffect(question, llm, db).log) ==
              if generated.Failure? then [Asked(CypherPrompt(question))]
              else [Asked(CypherPrompt(question)), Ran(generated.value),
                    Asked(SummaryPrompt(question, ValuesOf(NormalizeReply(db(generated.value)))))]
  {
    var generated := CleanReply(llm(CypherPrompt(question)));
    if generated.Success? {
      var query := generated.value;
      CallsOfAnswer(question, query, ReportOf(NormalizeReply(db(query))), ValuesOf(NormalizeReply(db(query))));
    }
  }

  /** The calls in the log of an answered question: the page messages drop out. */
  lemma {:induction false} CallsOfAnswer<V>(question: string, query: string, report: Message<V>, values: Option<Normalized<V>>)
    ensures Calls([Asked(CypherPrompt(question))] + ([Shown(Code(query))] + [Ran(query), Shown(report)] + [Asked(SummaryPrompt(question, values))]))
            == [Asked(CypherPrompt(question)), Ran(query), Asked(SummaryPrompt(question, values))]
  {
    var ask: seq<Event<V>> := [Asked(CypherPrompt(question))];
    var code: seq<Event<V>> := [Shown(Code(query))];
    var exec: seq<Event<V>> := [Ran(query), Shown(report)];
    var summarize: seq<Event<V>> := [Asked(SummaryPrompt(question, values))];
    CallsAppend(ask, code + exec + summarize);
    CallsAppend(code + exec, summarize);
    CallsAppend(code, exec);
    assert exec == [exec[0]] + [exec[1]];
    CallsAppend([exec[0]], [exec[1]]);
  }

  /** The summary prompt gets None exactly when execution raised, and then the
      error was reported on the page. */
  lemma {:induction false} FailedExecutionIsReported<V>(question: string, llm: Llm<V>, db: Database<V>)
    requires !IsBlank(question) && CleanReply(llm(CypherPrompt(question))).Success?
    ensures var query := CleanReply(llm(CypherPrompt(question))).value;
            var log := SubmitEffect(question, llm, db).log;
            && |log| == 5
            && (log[4] == Asked(SummaryPrompt(question, None)) <==> NormalizeReply(db(query)).Failure?)
            && (NormalizeReply(db(query)).Failure? ==> log[3] == Shown(ExecutionError(NormalizeReply(db(query)).error)))
  {
  }
}
