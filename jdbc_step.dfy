/** The JDBC tasklet: a batch step that runs either one inline SQL command or
    one command per script resource against a database, and appends what the
    commands reported to the step's exit description.

    The database, the script reader and the step context are oracles: the
    model fixes what the tasklet asks of them and what it does with their
    answers, not what they compute. */
module JdbcStep {
  import opened Wrappers
  import opened JavaText

  /** The step context of the running step. Named parameters in a command are
      bound against it by the database; the model only passes it along. */
  datatype StepContext = StepContext(properties: map<string, string>)

  /** A script location such as file:/... or classpath:/... */
  datatype Resource = Resource(location: string)

  datatype Kind = Query | Mutation

  /** One request the database was asked to run. */
  datatype Call = Call(kind: Kind, sql: string, context: StepContext)

  /** The database behind the JDBC template. Its answers may depend on every
      call it received before, so it keeps the history of calls. */
  class Database {
    /** The rendering of the row list a query returns, or the exception it throws. */
    const answerQuery: (seq<Call>, string, StepContext) -> Attempt<string>
    /** The row count an update returns, or the exception it throws. */
    const answerUpdate: (seq<Call>, string, StepContext) -> Attempt<nat>
    var history: seq<Call>

    constructor (answerQuery: (seq<Call>, string, StepContext) -> Attempt<string>,
                 answerUpdate: (seq<Call>, string, StepContext) -> Attempt<nat>)
      ensures this.answerQuery == answerQuery && this.answerUpdate == answerUpdate
      ensures history == []
    {
      this.answerQuery := answerQuery;
      this.answerUpdate := answerUpdate;
      history := [];
    }

    /** queryForList, with the row list already rendered by its toString. */
    method QueryForList(sql: string, context: StepContext) returns (rows: Attempt<string>)
      modifies this
      ensures rows == answerQuery(old(history), sql, context)
      ensures history == old(history) + [Call(Query, sql, context)]
    {
      rows := answerQuery(history, sql, context);
      history := history + [Call(Query, sql, context)];
    }

    /** update: the number of rows the command changed. */
    method Update(sql: string, context: StepContext) returns (count: Attempt<nat>)
      modifies this
      ensures count == answerUpdate(old(history), sql, context)
      ensures history == old(history) + [Call(Mutation, sql, context)]
    {
      count := answerUpdate(history, sql, context);
      history := history + [Call(Mutation, sql, context)];
    }
  }

  /** The step's exit status; the tasklet only ever appends to its description. */
  datatype ExitStatus = ExitStatus(exitCode: string, exitDescription: string) {
    function AddExitDescription(description: string): (status: ExitStatus) {
      ExitStatus(exitCode, exitDescription + description)
    }
  }

  class StepExecution {
    var exitStatus: ExitStatus

    constructor (exitStatus: ExitStatus)
      ensures this.exitStatus == exitStatus
    {
      this.exitStatus := exitStatus;
    }
  }

  /** What a tasklet tells the step it ran in; this one never asks to be called again. */
  datatype RepeatStatus = Finished | Continuable

  /** The outcome of the configuration check: accepted, or an IllegalStateException. */
  datatype ConfigCheck = Accepted | IllegalState(message: string)

  const NoDataSource := "A DataSource must be provided"
  const NoSqlSource := "A SQL query must be provided"
  const NullPointerException := "java.lang.NullPointerException"

  // ---------------------------------------------------------------------------
  // Classifying a command

  const Select := "SELECT"

  /** A command is a query when its trimmed, upper-cased text starts with
      SELECT: exactly when SELECT, in some ASCII case, follows its leading
      characters at or below U+0020. */
  function IsQuery(command: string): (r: bool)
    ensures r <==> exists k :: SelectAt(command, k)
  {
    QueryIffSelectFirst(command);
    StartsWith(ToUpperCase(Trim(command)), Select)
  }

  /** The kind of call runCommand makes for a command. */
  function KindOf(command: string): (kind: Kind)
    ensures kind == Query <==> exists k :: SelectAt(command, k)
  {
    if IsQuery(command) then Query else Mutation
  }

  /** Index k is where SELECT, in any ASCII case, follows nothing but
      characters at or below U+0020. */
  ghost predicate SelectAt(command: string, k: int): (r: bool) {
    0 <= k && k + 6 <= |command| &&
    (forall i :: 0 <= i < k ==> command[i] <= ' ') &&
    ToUpperCase(command[k..k + 6]) == Select
  }

  /** Upper-casing commutes with taking an infix. */
  lemma UpperInfix(s: string, lo: int, hi: int)
    requires 0 <= lo <= hi <= |s|
    ensures ToUpperCase(s[lo..hi]) == ToUpperCase(s)[lo..hi]
  {
  }

  /** A query has SELECT, in some ASCII case, right after its leading
      characters at or below U+0020. */
  lemma QueryHasSelectFirst(command: string)
    requires StartsWith(ToUpperCase(Trim(command)), Select)
    ensures SelectAt(command, |command| - |TrimLeading(command)|)
  {
    var lo := |command| - |TrimLeading(command)|;
    var r := Trim(command);
    TrimSpec(command);
    UpperInfix(r, 0, 6);
    UpperInfix(command, lo, lo + 6);
    assert command[lo..lo + 6] == r[..6];
  }

  /** Wherever SELECT follows nothing but characters at or below U+0020, the
      command is a query, whatever comes after the keyword. */
  lemma SelectFirstIsQuery(command: string, k: int)
    requires SelectAt(command, k)
    ensures StartsWith(ToUpperCase(Trim(command)), Select)
  {
    var t := TrimLeading(command);
    var lo := |command| - |t|;
    var r := Trim(command);
    TrimLeadingSpec(command);
    TrimTrailingSpec(t);
    UpperInfix(command, k, k + 6);
    assert ToUpperCase(command)[k..k + 6] == Select;
    assert ToUpperCase(command)[k] == 'S';
    assert command[k] > ' ';
    assert k == lo;
    forall j | 0 <= j < 6
      ensures t[j] == command[k + j] && UpperChar(t[j]) == Select[j]
    {
      assert ToUpperCase(command)[k + j] == Select[j];
    }
    assert t[5] > ' ';
    assert |r| >= 6;
    assert r[..6] == t[..6];
    UpperInfix(r, 0, 6);
  }

  /** The trimmed, upper-cased command starts with SELECT exactly when, after
      its leading characters at or below U+0020, its next six characters spell
      SELECT in some ASCII case; what follows them does not matter. */
  lemma QueryIffSelectFirst(command: string)
    ensures StartsWith(ToUpperCase(Trim(command)), Select) <==> exists k :: SelectAt(command, k)
  {
    if StartsWith(ToUpperCase(Trim(command)), Select) {
      QueryHasSelectFirst(command);
    }
    if k :| SelectAt(command, k) {
      SelectFirstIsQuery(command, k);
    }
  }

  /** Leading characters at or below U+0020 do not change a classification. */
  lemma {:induction false} TrimLeadingSkipsBlanks(blanks: string, command: string)
    requires forall i :: 0 <= i < |blanks| ==> blanks[i] <= ' '
    ensures TrimLeading(blanks + command) == TrimLeading(command)
  {
    if blanks != [] {
      assert (blanks + command)[0] == blanks[0];
      assert (blanks + command)[1..] == blanks[1..] + command;
      assert TrimLeading(blanks + command) == TrimLeading(blanks[1..] + command);
      TrimLeadingSkipsBlanks(blanks[1..], command);
    } else {
      assert blanks + command == command;
    }
  }

  lemma LeadingBlanksIgnored(blanks: string, command: string)
    requires forall i :: 0 <= i < |blanks| ==> blanks[i] <= ' '
    ensures IsQuery(blanks + command) == IsQuery(command)
  {
    TrimLeadingSkipsBlanks(blanks, command);
  }

  /** The classification is case-insensitive: two commands that upper-case
      alike are classified alike. */
  lemma QueryIgnoresCase(c: string, d: string)
    requires ToUpperCase(c) == ToUpperCase(d)
    ensures IsQuery(c) == IsQuery(d)
  {
    assert |c| == |d|;
    forall i | 0 <= i < |c|
      ensures UpperChar(c[i]) == UpperChar(d[i])
    {
      assert ToUpperCase(c)[i] == ToUpperCase(d)[i];
    }
    assert forall i :: 0 <= i < |c| ==> (c[i] <= ' ' <==> d[i] <= ' ');
    forall k
      ensures SelectAt(c, k) <==> SelectAt(d, k)
    {
      if 0 <= k && k + 6 <= |c| {
        UpperInfix(c, k, k + 6);
        UpperInfix(d, k, k + 6);
      }
    }
  }

  /** Examples: any casing and leading blanks make a query, the test is a pure
      prefix test, and a DELETE or a truncated keyword is an update. */
  lemma ClassificationExamples()
    ensures IsQuery("  select * from T")
    ensures IsQuery("selectx")
    ensures !IsQuery("DELETE FROM T WHERE ID=1")
    ensures !IsQuery(" SELEC")
  {
    assert SelectAt("  select * from T", 2);
    assert SelectAt("selectx", 0);
    QueryIffSelectFirst("DELETE FROM T WHERE ID=1");
    assert forall k :: SelectAt("DELETE FROM T WHERE ID=1", k) ==> k == 0;
    assert !SelectAt("DELETE FROM T WHERE ID=1", 0) by {
      assert ToUpperCase("DELETE FROM T WHERE ID=1"[0..6])[0] == 'D';
    }
  }

  // ---------------------------------------------------------------------------
  // Result messages

  /** What one command reported: the rendered row list of a query, or the row
      count of an update. */
  datatype Reply = Rows(rendering: string) | RowsUpdated(count: nat)

  /** The message runCommand reports. It says both which kind of command ran
      and exactly what the database returned for it: it parses back to the reply. */
  function Message(reply: Reply): (msg: string)
    ensures ParseMessage(msg) == Some(reply)
  {
    match reply
    case Rows(rendering) =>
      var msg := "Result: " + rendering;
      assert msg[8..] == rendering;
      msg
    case RowsUpdated(count) =>
      var digits := NatToString(count);
      var msg := "Updated: " + digits + " rows";
      assert msg[0] == 'U';
      assert msg[9..|msg| - 5] == digits;
      assert msg[|msg| - 5..] == " rows";
      DecimalRoundTrip(count);
      msg
  }

  /** Reads a message back: the inverse of Message. */
  function ParseMessage(msg: string): (reply: Option<Reply>) {
    if "Result: " <= msg then Some(Rows(msg[8..]))
    else if "Updated: " <= msg && |msg| >= 9 + 5 && msg[|msg| - 5..] == " rows" then
      var digits := msg[9..|msg| - 5];
      if digits != [] && forall i :: 0 <= i < |digits| ==> IsDigit(digits[i])
      then Some(RowsUpdated(DecimalValue(digits)))
      else None
    else None
  }

  // ---------------------------------------------------------------------------
  // What a run does, as functions of the state before it

  /** The outcome of running some commands (the accumulated message, or the
      exception that ended the run) and the calls the database received. */
  datatype Run = Run(outcome: Attempt<string>, calls: seq<Call>)

  /** A run that returned, followed by another run. */
  function Then(first: Run, rest: Run): (run: Run)
    requires first.outcome.Returned?
  {
    Run(match rest.outcome
        case Returned(msg) => Returned(first.outcome.value + msg)
        case Threw(e) => Threw(e),
        first.calls + rest.calls)
  }

  /** runCommand: classify the command, hand it to the database as a query or
      as an update, and format the answer. Without a template it throws a
      NullPointerException and calls nothing. */
  function CommandRun(template: Database?, past: seq<Call>, command: string, context: StepContext): (run: Run)
    ensures run.calls == [] <==> template == null
    ensures |run.calls| <= 1
    ensures template == null ==> run.outcome == Threw(NullPointerException)
  {
    if template == null then Run(Threw(NullPointerException), [])
    else if IsQuery(command) then
      Run(match template.answerQuery(past, command, context)
          case Returned(rows) => Returned(Message(Rows(rows)))
          case Threw(e) => Threw(e),
          [Call(Query, command, context)])
    else
      Run(match template.answerUpdate(past, command, context)
          case Returned(count) => Returned(Message(RowsUpdated(count)))
          case Threw(e) => Threw(e),
          [Call(Mutation, command, context)])
  }

  /** A command with a template is exactly one call, of the kind its text
      selects, and its message is the database's answer in the matching format. */
  lemma CommandIsOneCall(template: Database, past: seq<Call>, command: string, context: StepContext)
    ensures var run := CommandRun(template, past, command, context);
      var rows, count := template.answerQuery(past, command, context), template.answerUpdate(past, command, context);
      run.calls == [Call(KindOf(command), command, context)] &&
      (IsQuery(command) ==>
        (run.outcome.Returned? <==> rows.Returned?) &&
        (rows.Returned? ==>
          run.outcome == Returned(Message(Rows(rows.value))) &&
          ParseMessage(run.outcome.value) == Some(Rows(rows.value))) &&
        (rows.Threw? ==> run.outcome == Threw(rows.exception))) &&
      (!IsQuery(command) ==>
        (run.outcome.Returned? <==> count.Returned?) &&
        (count.Returned? ==>
          run.outcome == Returned(Message(RowsUpdated(count.value))) &&
          ParseMessage(run.outcome.value) == Some(RowsUpdated(count.value))) &&
        (count.Threw? ==> run.outcome == Threw(count.exception)))
  {
  }

  /** runScripts: read each script in turn and run its whole text as one
      command, each message followed by a newline. A read or a command that
      throws ends the run. */
  function ScriptsRun(template: Database?, past: seq<Call>, scripts: seq<Resource>,
                      read: Resource -> Attempt<string>, context: StepContext): (run: Run)
    ensures |run.calls| <= |scripts|
    decreases |scripts|
  {
    if scripts == [] then Run(Returned(""), [])
    else match read(scripts[0])
      case Threw(e) => Run(Threw(e), [])
      case Returned(command) =>
        var first := CommandRun(template, past, command, context);
        match first.outcome
        case Threw(_) => first
        case Returned(msg) =>
          Then(Run(Returned(msg + "\n"), first.calls),
               ScriptsRun(template, past + first.calls, scripts[1..], read, context))
  }

  /** Then is associative. */
  lemma ThenAssociative(a: Run, b: Run, c: Run)
    requires a.outcome.Returned? && b.outcome.Returned?
    ensures Then(a, Then(b, c)) == Then(Then(a, b), c)
  {
    assert a.calls + (b.calls + c.calls) == (a.calls + b.calls) + c.calls;
    if c.outcome.Returned? {
      var x, y, z := a.outcome.value, b.outcome.value, c.outcome.value;
      assert x + (y + z) == (x + y) + z;
    }
  }

  /** Running scripts a then b is running a, and then, unless a threw, running b
      against the database a left: the scripts run in order, their messages
      are concatenated, and a failure skips everything after it. */
  lemma {:induction false} ScriptsRunSplits(template: Database?, past: seq<Call>, a: seq<Resource>,
                                            b: seq<Resource>, read: Resource -> Attempt<string>,
                                            context: StepContext)
    ensures var ra := ScriptsRun(template, past, a, read, context);
      ScriptsRun(template, past, a + b, read, context) ==
        if ra.outcome.Threw? then ra
        else Then(ra, ScriptsRun(template, past + ra.calls, b, read, context))
    decreases |a|
  {
    var ra := ScriptsRun(template, past, a, read, context);
    if a == [] {
      assert a + b == b;
      var rb := ScriptsRun(template, past, b, read, context);
      assert ra == Run(Returned(""), []);
      assert past + ra.calls == past;
      assert Then(ra, rb).calls == rb.calls;
      if rb.outcome.Returned? {
        assert "" + rb.outcome.value == rb.outcome.value;
      }
    } else {
      assert (a + b)[0] == a[0];
      assert (a + b)[1..] == a[1..] + b;
      match read(a[0]) {
        case Threw(e) =>
        case Returned(command) =>
          var first := CommandRun(template, past, command, context);
          if first.outcome.Returned? {
            var head := Run(Returned(first.outcome.value + "\n"), first.calls);
            var past' := past + first.calls;
            ScriptsRunSplits(template, past', a[1..], b, read, context);
            var ra' := ScriptsRun(template, past', a[1..], read, context);
            assert ra == Then(head, ra');
            if ra'.outcome.Returned? {
              var rb := ScriptsRun(template, past' + ra'.calls, b, read, context);
              assert past' + ra'.calls == past + ra.calls;
              ThenAssociative(head, ra', rb);
            }
          }
      }
    }
  }

  /** One script: its whole text is one command, and its message gets a
      newline. */
  lemma OneScript(template: Database?, past: seq<Call>, script: Resource,
                  read: Resource -> Attempt<string>, context: StepContext)
    ensures var run := ScriptsRun(template, past, [script], read, context);
      (read(script).Threw? ==> run == Run(Threw(read(script).exception), [])) &&
      (read(script).Returned? ==>
        var one := CommandRun(template, past, read(script).value, context);
        run.calls == one.calls &&
        (one.outcome.Returned? ==> run.outcome == Returned(one.outcome.value + "\n")) &&
        (one.outcome.Threw? ==> run.outcome == one.outcome))
  {
    assert [script][1..] == [];
    if read(script).Returned? {
      var one := CommandRun(template, past, read(script).value, context);
      assert one.calls + [] == one.calls;
      if one.outcome.Returned? {
        assert (one.outcome.value + "\n") + "" == one.outcome.value + "\n";
      }
    }
  }

  /** One more script, given what the scripts before it did: a read that
      throws or a command that throws ends the whole run there; otherwise the
      command's message and a newline extend the accumulated message. */
  lemma ScriptsRunStep(template: Database?, past: seq<Call>, scripts: seq<Resource>, i: nat,
                       read: Resource -> Attempt<string>, context: StepContext,
                       buffer: string, calls: seq<Call>)
    requires i < |scripts|
    requires ScriptsRun(template, past, scripts[..i], read, context) == Run(Returned(buffer), calls)
    ensures read(scripts[i]).Threw? ==>
      ScriptsRun(template, past, scripts, read, context) == Run(Threw(read(scripts[i]).exception), calls)
    ensures read(scripts[i]).Returned? ==>
      var one := CommandRun(template, past + calls, read(scripts[i]).value, context);
      (one.outcome.Threw? ==>
        ScriptsRun(template, past, scripts, read, context) == Run(one.outcome, calls + one.calls)) &&
      (one.outcome.Returned? ==>
        ScriptsRun(template, past, scripts[..i + 1], read, context) ==
          Run(Returned(buffer + one.outcome.value + "\n"), calls + one.calls))
  {
    ScriptsRunSplits(template, past, scripts[..i], [scripts[i]], read, context);
    OneScript(template, past + calls, scripts[i], read, context);
    assert scripts[..i + 1] == scripts[..i] + [scripts[i]];
    ScriptsRunSplits(template, past, scripts[..i + 1], scripts[i + 1..], read, context);
    assert scripts[..i + 1] + scripts[i + 1..] == scripts;
    if read(scripts[i]).Returned? {
      var one := CommandRun(template, past + calls, read(scripts[i]).value, context);
      if one.outcome.Returned? {
        assert buffer + (one.outcome.value + "\n") == buffer + one.outcome.value + "\n";
      }
    }
  }

  /** A run of scripts that returns issued exactly one call per script, in the
      order of the scripts, each call carrying its script's whole text. */
  lemma {:induction false} ScriptsRunOneCallEach(template: Database?, past: seq<Call>, scripts: seq<Resource>,
                                                 read: Resource -> Attempt<string>, context: StepContext)
    requires ScriptsRun(template, past, scripts, read, context).outcome.Returned?
    ensures var run := ScriptsRun(template, past, scripts, read, context);
      |run.calls| == |scripts| &&
      forall i :: 0 <= i < |scripts| ==>
        read(scripts[i]).Returned? &&
        run.calls[i] == Call(KindOf(read(scripts[i]).value), read(scripts[i]).value, context)
    decreases |scripts|
  {
    if scripts != [] {
      var command := read(scripts[0]).value;
      var first := CommandRun(template, past, command, context);
      assert template != null;
      CommandIsOneCall(template, past, command, context);
      assert first.calls == [Call(KindOf(command), command, context)];
      ScriptsRunOneCallEach(template, past + first.calls, scripts[1..], read, context);
      var run := ScriptsRun(template, past, scripts, read, context);
      var rest := ScriptsRun(template, past + first.calls, scripts[1..], read, context);
      assert run.calls == first.calls + rest.calls;
      forall i | 1 <= i < |scripts|
        ensures read(scripts[i]).Returned? &&
          run.calls[i] == Call(KindOf(read(scripts[i]).value), read(scripts[i]).value, context)
      {
        assert scripts[i] == scripts[1..][i - 1];
      }
    }
  }

  /** execute: inline SQL with text wins; otherwise a non-empty script list is
      run; otherwise nothing runs and the message is empty. */
  function ExecuteRun(template: Database?, sql: Option<string>, scripts: Option<seq<Resource>>,
                      past: seq<Call>, read: Resource -> Attempt<string>, context: StepContext): (run: Run)
    ensures |run.calls| <= if HasText(sql) then 1 else if scripts.Some? then |scripts.value| else 0
  {
    if HasText(sql) then CommandRun(template, past, sql.value, context)
    else if scripts.Some? && scripts.value != [] then ScriptsRun(template, past, scripts.value, read, context)
    else Run(Returned(""), [])
  }

  /** SQL with text runs as the one and only command, whatever scripts are set
      and whatever they contain; without a template it throws before any
      script is touched. */
  lemma InlineSqlWins(template: Database?, sql: Option<string>, scripts: Option<seq<Resource>>,
                      scripts': Option<seq<Resource>>, past: seq<Call>,
                      read: Resource -> Attempt<string>, read': Resource -> Attempt<string>,
                      context: StepContext)
    requires HasText(sql)
    ensures var run := ExecuteRun(template, sql, scripts, past, read, context);
      run == ExecuteRun(template, sql, scripts', past, read', context) &&
      (template != null ==> run.calls == [Call(KindOf(sql.value), sql.value, context)]) &&
      (template == null ==> run == Run(Threw(NullPointerException), []))
  {
    if template != null {
      CommandIsOneCall(template, past, sql.value, context);
    }
  }

  /** Without SQL text and without scripts nothing reaches the database and the
      message is empty. */
  lemma NoSourceRunsNothing(template: Database?, sql: Option<string>, scripts: Option<seq<Resource>>,
                            past: seq<Call>, read: Resource -> Attempt<string>, context: StepContext)
    requires !HasText(sql) && (scripts.None? || scripts.value == [])
    ensures ExecuteRun(template, sql, scripts, past, read, context) == Run(Returned(""), [])
  {
  }

  // ---------------------------------------------------------------------------
  // The tasklet

  class JdbcTasklet {
    var jdbcTemplate: Database?
    var sql: Option<string>
    var scripts: Option<seq<Resource>>

    constructor ()
      ensures jdbcTemplate == null && sql == None && scripts == None
    {
      jdbcTemplate := null;
      sql := None;
      scripts := None;
    }

    method SetSql(sql: Option<string>)
      modifies this
      ensures this.sql == sql
      ensures scripts == old(scripts) && jdbcTemplate == old(jdbcTemplate)
    {
      this.sql := sql;
    }

    method SetScript(scripts: Option<seq<Resource>>)
      modifies this
      ensures this.scripts == scripts
      ensures sql == old(sql) && jdbcTemplate == old(jdbcTemplate)
    {
      this.scripts := scripts;
    }

    /** The template wraps the data source; the model keeps the database itself. */
    method SetDataSource(dataSource: Database)
      modifies this
      ensures jdbcTemplate == dataSource
      ensures sql == old(sql) && scripts == old(scripts)
    {
      jdbcTemplate := dataSource;
    }

    /** afterPropertiesSet: a template is required, and so is SQL or a script
      list. Only null is refused: blank SQL or an empty list pass. */
    function AfterPropertiesSet(): (r: ConfigCheck)
      reads this
      ensures r == Accepted <==> jdbcTemplate != null && (sql.Some? || scripts.Some?)
      ensures jdbcTemplate == null ==> r == IllegalState(NoDataSource)
      ensures jdbcTemplate != null && sql.None? && scripts.None? ==> r == IllegalState(NoSqlSource)
    {
      if jdbcTemplate == null then IllegalState(NoDataSource)
      else if sql.None? && scripts.None? then IllegalState(NoSqlSource)
      else Accepted
    }

    /** Every call the database has received so far. */
    function History(): (calls: seq<Call>)
      reads this, jdbcTemplate
    {
      if jdbcTemplate == null then [] else jdbcTemplate.history
    }

    /** execute: run the configured commands, append their message to the
      exit description, and report the step finished. An exception leaves the
      exit status as it was. */
    method Execute(stepExecution: StepExecution, context: StepContext, read: Resource -> Attempt<string>)
      returns (status: Attempt<RepeatStatus>)
      modifies stepExecution, jdbcTemplate
      ensures var run := ExecuteRun(jdbcTemplate, sql, scripts, old(History()), read, context);
        History() == old(History()) + run.calls &&
        match run.outcome
        case Returned(msg) =>
          status == Returned(Finished) &&
          stepExecution.exitStatus == old(stepExecution.exitStatus).AddExitDescription(msg)
        case Threw(e) =>
          status == Threw(e) && stepExecution.exitStatus == old(stepExecution.exitStatus)
    {
      var msg := Returned("");
      if HasText(sql) {
        msg := RunCommand(context, sql.value);
      } else if scripts.Some? && |scripts.value| > 0 {
        msg := RunScripts(context, scripts.value, read);
      }
      match msg
      case Threw(e) =>
        status := Threw(e);
      case Returned(text) =>
        stepExecution.exitStatus := stepExecution.exitStatus.AddExitDescription(text);
        status := Returned(Finished);
    }

    /** runScripts: the loop over the scripts, appending each message and a
      newline to a buffer. */
    method RunScripts(context: StepContext, scripts: seq<Resource>, read: Resource -> Attempt<string>)
      returns (messages: Attempt<string>)
      modifies jdbcTemplate
      ensures var run := ScriptsRun(jdbcTemplate, old(History()), scripts, read, context);
        messages == run.outcome && History() == old(History()) + run.calls
    {
      ghost var past := History();
      ghost var calls: seq<Call> := [];
      var buffer := "";
      var i := 0;
      while i < |scripts|
        invariant 0 <= i <= |scripts|
        invariant History() == past + calls
        invariant ScriptsRun(jdbcTemplate, past, scripts[..i], read, context) == Run(Returned(buffer), calls)
      {
        ScriptsRunStep(jdbcTemplate, past, scripts, i, read, context, buffer, calls);
        var command := read(scripts[i]);
        if command.Threw? {
          return Threw(command.exception);
        }
        ghost var one := CommandRun(jdbcTemplate, History(), command.value, context);
        var msg := RunCommand(context, command.value);
        calls := calls + one.calls;
        if msg.Threw? {
          return msg;
        }
        buffer := buffer + msg.value + "\n";
        i := i + 1;
      }
      assert scripts[..i] == scripts;
      messages := Returned(buffer);
    }

    /** runCommand: a query or an update, by the command's text. */
    method RunCommand(context: StepContext, command: string) returns (msg: Attempt<string>)
      modifies jdbcTemplate
      ensures var run := CommandRun(jdbcTemplate, old(History()), command, context);
        msg == run.outcome && History() == old(History()) + run.calls
    {
      if jdbcTemplate == null {
        return Threw(NullPointerException);
      }
      if IsQuery(command) {
        var rows := jdbcTemplate.QueryForList(command, context);
        msg := match rows
          case Returned(rendering) => Returned(Message(Rows(rendering)))
          case Threw(e) => Threw(e);
      } else {
        var count := jdbcTemplate.Update(command, context);
        msg := match count
          case Returned(n) => Returned(Message(RowsUpdated(n)))
          case Threw(e) => Threw(e);
      }
    }
  }

  /** The gap between the two checks: SQL that is present but blank passes the
      configuration check, yet execute runs nothing and reports an empty message. */
  lemma BlankSqlPassesCheckButRunsNothing(tasklet: JdbcTasklet, past: seq<Call>,
                                          read: Resource -> Attempt<string>, context: StepContext)
    requires tasklet.jdbcTemplate != null && tasklet.sql.Some? && !HasText(tasklet.sql)
    requires tasklet.scripts.None? || tasklet.scripts.value == []
    ensures tasklet.AfterPropertiesSet() == Accepted
    ensures ExecuteRun(tasklet.jdbcTemplate, tasklet.sql, tasklet.scripts, past, read, context) == Run(Returned(""), [])
  {
  }

  /** For instance, SQL made of a space and a tab. */
  lemma BlankSqlExample()
    ensures !HasText(Some(" \t"))
  {
  }
}
