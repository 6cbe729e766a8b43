# JDBC job tasklet, modelled in Dafny

This project models the two classes of a Spring XD "JDBC job" module.

- `JdbcTasklet` is a batch step. It runs either one inline SQL command or one command per
  script resource against a database. Each command counts as a query when its trimmed,
  upper-cased text starts with `SELECT`, and as an update otherwise. The step appends what the
  commands reported (`Result: <rows>` or `Updated: <n> rows`) to the step's exit description
  and reports itself finished.
- `JdbcJobModuleOptionMetadata` holds the module's seven options. It has one validation rule:
  SQL or a script path must contain some non-whitespace character.

Files:

- `wrappers.dfy` (module `Wrappers`): `Option`, where `None` stands for Java's `null`.
  `Attempt`: a Java call either returns a value or throws an exception.
- `java_text.dfy` (module `JavaText`): the parts of `String` and Spring's `StringUtils` that
  the two classes use.
  - `Character.isWhitespace`, `hasText`, `trim`, `toUpperCase`, `startsWith`.
  - The decimal text Java writes for an int.
- `jdbc_step.dfy` (module `JdbcStep`):
  - the database, as a class `Database` that records every call it receives and answers
    through two oracle functions;
  - the pure functions `CommandRun`, `ScriptsRun` and `ExecuteRun`, which say what a run does;
  - the class `JdbcTasklet`, whose methods (`Execute`, `RunScripts` with its loop,
    `RunCommand`) are proved against those functions;
  - the lemmas about classification, messages and script runs.
- `jdbc_options.dfy` (module `JdbcOptions`): the class `JdbcJobModuleOptionMetadata`, with
  frame-exact setters, its getters and the validity function.

Oracles and parameters:

- The database is `Database`. Its answers come from two functions, `answerQuery` and
  `answerUpdate`. They receive the history of earlier calls, the command text and the step
  context. A query's answer is the rendered row list; an update's answer is a row count. Either
  one may be an exception instead.
- The script reader is the `read` parameter of `Execute`. For each resource it gives the text
  read, which may be empty, or the exception that opening the resource threw.
- The step context is carried to the database but never looked into.
- `Execute` gets the step execution and the step context as two parameters. The source gets
  both from its chunk context.

Details of the code worth knowing:

- The configuration check refuses only `null`. An empty script list passes it, and so does SQL
  made only of whitespace.
- Script messages are newline-terminated rather than newline-separated: the last message
  is followed by a newline too.

## Model

| member | source | states |
|---|---|---|
| `JdbcStep.JdbcTasklet.constructor` | src/main/java/com/gopivotal/spring/xd/module/jdbc/JdbcTasklet.java:54-58 | a new tasklet has no template, no SQL and no scripts |
| `JdbcStep.JdbcTasklet.SetSql` | src/main/java/com/gopivotal/spring/xd/module/jdbc/JdbcTasklet.java:88-90 | replaces the SQL and leaves scripts and template unchanged |
| `JdbcStep.JdbcTasklet.SetScript` | src/main/java/com/gopivotal/spring/xd/module/jdbc/JdbcTasklet.java:96-98 | replaces the script list and leaves SQL and template unchanged |
| `JdbcStep.JdbcTasklet.SetDataSource` | src/main/java/com/gopivotal/spring/xd/module/jdbc/JdbcTasklet.java:104-106 | the template becomes non-null (the given database); SQL and scripts unchanged |
| `JdbcStep.JdbcTasklet.AfterPropertiesSet` | src/main/java/com/gopivotal/spring/xd/module/jdbc/JdbcTasklet.java:108-111 | accepted iff a template is set and SQL or scripts is non-null; the data-source message wins when both checks fail |
| `JdbcStep.BlankSqlPassesCheckButRunsNothing` | src/main/java/com/gopivotal/spring/xd/module/jdbc/JdbcTasklet.java:108-128 | SQL that is present but has no text passes the null-only check, yet with no scripts execute calls nothing and reports `""` |
| `JdbcStep.BlankSqlExample` | src/main/java/com/gopivotal/spring/xd/module/jdbc/JdbcTasklet.java:124 | a space and a tab is not text |
| `JdbcStep.JdbcTasklet.Execute` | src/main/java/com/gopivotal/spring/xd/module/jdbc/JdbcTasklet.java:118-132 | the database receives exactly the calls `ExecuteRun` gives; on success it returns FINISHED and the exit description gains the whole message; on an exception the exit status is untouched |
| `JdbcStep.ExecuteRun` | src/main/java/com/gopivotal/spring/xd/module/jdbc/JdbcTasklet.java:118-132 | SQL with text makes at most one call, scripts at most one each, and no source none (what the calls are: `InlineSqlWins`, `ScriptsRunOneCallEach`, `NoSourceRunsNothing`) |
| `JdbcStep.InlineSqlWins` | src/main/java/com/gopivotal/spring/xd/module/jdbc/JdbcTasklet.java:124-125 | SQL with text is the one and only command run, whatever the scripts and the reader; without a template it throws a NullPointerException before any script is touched |
| `JdbcStep.NoSourceRunsNothing` | src/main/java/com/gopivotal/spring/xd/module/jdbc/JdbcTasklet.java:123-128 | SQL without text and a null or empty script list: no call, message `""` |
| `JdbcStep.ScriptsRun` | src/main/java/com/gopivotal/spring/xd/module/jdbc/JdbcTasklet.java:134-149 | the scripts make at most one call each (exactly one each when the run returns, by `ScriptsRunOneCallEach`) |
| `JdbcStep.JdbcTasklet.RunScripts` | src/main/java/com/gopivotal/spring/xd/module/jdbc/JdbcTasklet.java:134-149 | the buffer loop returns the outcome of `ScriptsRun` and issues exactly its calls, in order |
| `JdbcStep.ScriptsRunSplits` | src/main/java/com/gopivotal/spring/xd/module/jdbc/JdbcTasklet.java:140-146 | running scripts `a + b` means running `a`; if `a` threw, that is the result; otherwise run `b` against the database `a` left, concatenating messages and calls |
| `JdbcStep.OneScript` | src/main/java/com/gopivotal/spring/xd/module/jdbc/JdbcTasklet.java:141-144 | one script is its whole text run as one command, and its message gets a trailing `"\n"` |
| `JdbcStep.ScriptsRunStep` | src/main/java/com/gopivotal/spring/xd/module/jdbc/JdbcTasklet.java:141-144 | one more script: a failed read or command ends the whole run, otherwise the buffer grows by `msg + "\n"` |
| `JdbcStep.ScriptsRunOneCallEach` | src/main/java/com/gopivotal/spring/xd/module/jdbc/JdbcTasklet.java:141-144 | a run that returns made exactly one call per script, in script order, each with the script's whole text and the kind that text selects |
| `JdbcStep.ThenAssociative` | src/main/java/com/gopivotal/spring/xd/module/jdbc/JdbcTasklet.java:144 | appending runs is associative |
| `JdbcStep.JdbcTasklet.RunCommand` | src/main/java/com/gopivotal/spring/xd/module/jdbc/JdbcTasklet.java:170-187 | returns the outcome of `CommandRun` and issues exactly its calls |
| `JdbcStep.CommandIsOneCall` | src/main/java/com/gopivotal/spring/xd/module/jdbc/JdbcTasklet.java:173-182 | with a template, a command is exactly one call of the kind its text selects; it returns iff the database answer did, its message is `Result: <rows>` or `Updated: <n> rows` for that answer and parses back to it, and the database's exception is rethrown as is |
| `JdbcStep.CommandRun` | src/main/java/com/gopivotal/spring/xd/module/jdbc/JdbcTasklet.java:170-187 | a command makes no call exactly when there is no template, and then throws a NullPointerException; otherwise it makes one call |
| `JdbcStep.IsQuery` | src/main/java/com/gopivotal/spring/xd/module/jdbc/JdbcTasklet.java:173 | the trimmed, upper-cased command starts with `SELECT` iff `SELECT`, in some ASCII case, follows its leading characters at or below U+0020 |
| `JdbcStep.KindOf` | src/main/java/com/gopivotal/spring/xd/module/jdbc/JdbcTasklet.java:173-181 | a command goes to `queryForList` iff `SELECT` follows its leading blanks, and to `update` otherwise |
| `JdbcStep.Message` | src/main/java/com/gopivotal/spring/xd/module/jdbc/JdbcTasklet.java:177-182 | `Result: <rows>` and `Updated: <n> rows` parse back to the kind and the exact rendering or count |
| `JdbcStep.Database.constructor` | src/main/java/com/gopivotal/spring/xd/module/jdbc/JdbcTasklet.java:104-105 | a new database has the given oracles and an empty history |
| `JdbcStep.Database.QueryForList` | src/main/java/com/gopivotal/spring/xd/module/jdbc/JdbcTasklet.java:175-176 | answers with its query oracle and records one query call |
| `JdbcStep.Database.Update` | src/main/java/com/gopivotal/spring/xd/module/jdbc/JdbcTasklet.java:181 | answers with its update oracle and records one update call |
| `JdbcStep.QueryIffSelectFirst` | src/main/java/com/gopivotal/spring/xd/module/jdbc/JdbcTasklet.java:173 | a command is a query iff, right after its leading characters at or below U+0020, six characters upper-case to `SELECT` |
| `JdbcStep.QueryHasSelectFirst` | src/main/java/com/gopivotal/spring/xd/module/jdbc/JdbcTasklet.java:173 | a query has `SELECT`, in some case, right after its leading blanks |
| `JdbcStep.SelectFirstIsQuery` | src/main/java/com/gopivotal/spring/xd/module/jdbc/JdbcTasklet.java:173 | `SELECT` in any case after blanks makes a query, whatever follows it |
| `JdbcStep.LeadingBlanksIgnored` | src/main/java/com/gopivotal/spring/xd/module/jdbc/JdbcTasklet.java:173 | prefixing characters at or below U+0020 never changes the classification |
| `JdbcStep.TrimLeadingSkipsBlanks` | src/main/java/com/gopivotal/spring/xd/module/jdbc/JdbcTasklet.java:173 | trimming `blanks + c` leaves what trimming `c` leaves |
| `JdbcStep.QueryIgnoresCase` | src/main/java/com/gopivotal/spring/xd/module/jdbc/JdbcTasklet.java:173 | commands that upper-case alike are classified alike |
| `JdbcStep.UpperInfix` | src/main/java/com/gopivotal/spring/xd/module/jdbc/JdbcTasklet.java:173 | upper-casing commutes with taking an infix |
| `JdbcStep.ClassificationExamples` | src/main/java/com/gopivotal/spring/xd/module/jdbc/JdbcTasklet.java:173 | `  select * from T` and `selectx` are queries; `DELETE FROM T WHERE ID=1` and ` SELEC` are updates |
| `JavaText.TrimLeadingSpec` | src/main/java/com/gopivotal/spring/xd/module/jdbc/JdbcTasklet.java:173 | the leading half of `trim` keeps a suffix that starts above U+0020, and drops only characters at or below it |
| `JavaText.TrimTrailingSpec` | src/main/java/com/gopivotal/spring/xd/module/jdbc/JdbcTasklet.java:173 | the trailing half of `trim` keeps a prefix that ends above U+0020, and drops only characters at or below it |
| `JavaText.TrimSpec` | src/main/java/com/gopivotal/spring/xd/module/jdbc/JdbcTasklet.java:173 | `trim` keeps the infix that neither starts nor ends at or below U+0020; everything cut off is at or below U+0020 |
| `JavaText.TrimIdempotent` | src/main/java/com/gopivotal/spring/xd/module/jdbc/JdbcTasklet.java:173 | trimming twice is trimming once |
| `JavaText.WhitespaceIsTrimmed` | src/main/java/com/gopivotal/spring/xd/module/jdbc/JdbcTasklet.java:173 | every `isWhitespace` character is cut by `trim`, but NUL is cut without being whitespace: the two notions differ |
| `JavaText.NatToString` | src/main/java/com/gopivotal/spring/xd/module/jdbc/JdbcTasklet.java:182 | the row count is written as at least one decimal digit, with no leading zero unless it is 0 |
| `JavaText.DecimalRoundTrip` | src/main/java/com/gopivotal/spring/xd/module/jdbc/JdbcTasklet.java:182 | the digits written for a count read back as that count |
| `JavaText.NatToStringInjective` | src/main/java/com/gopivotal/spring/xd/module/jdbc/JdbcTasklet.java:182 | different counts are written differently |
| `JavaText.ContainsText` | src/main/java/com/gopivotal/spring/xd/module/jdbc/JdbcJobModuleOptionMetadata.java:71 | true iff some character is not whitespace |
| `JavaText.HasText` | src/main/java/com/gopivotal/spring/xd/module/jdbc/JdbcJobModuleOptionMetadata.java:71 | true iff the string is non-null and has a non-whitespace character |
| `JdbcOptions.JdbcJobModuleOptionMetadata.constructor` | src/main/java/com/gopivotal/spring/xd/module/jdbc/JdbcJobModuleOptionMetadata.java:25-37 | connection settings null, SQL and script `""`, restartable false; such an instance fails validation |
| `JdbcOptions.JdbcJobModuleOptionMetadata.IsEitherSqlOrScript` | src/main/java/com/gopivotal/spring/xd/module/jdbc/JdbcJobModuleOptionMetadata.java:69-72 | valid iff SQL or script is non-null and contains a non-whitespace character |
| `JdbcOptions.BlankSourcesFailValidation` | src/main/java/com/gopivotal/spring/xd/module/jdbc/JdbcJobModuleOptionMetadata.java:71 | SQL and script both null or whitespace-only: invalid, whatever the other fields hold |
| `JdbcOptions.JdbcJobModuleOptionMetadata.SetDriverClassName` | src/main/java/com/gopivotal/spring/xd/module/jdbc/JdbcJobModuleOptionMetadata.java:39-42 | only the driver changes; the getter returns the value as given; validity unchanged |
| `JdbcOptions.JdbcJobModuleOptionMetadata.SetPassword` | src/main/java/com/gopivotal/spring/xd/module/jdbc/JdbcJobModuleOptionMetadata.java:44-47 | only the password changes; the getter returns the value as given; validity unchanged |
| `JdbcOptions.JdbcJobModuleOptionMetadata.SetUrl` | src/main/java/com/gopivotal/spring/xd/module/jdbc/JdbcJobModuleOptionMetadata.java:49-52 | only the URL changes; the getter returns the value as given; validity unchanged |
| `JdbcOptions.JdbcJobModuleOptionMetadata.SetUsername` | src/main/java/com/gopivotal/spring/xd/module/jdbc/JdbcJobModuleOptionMetadata.java:54-57 | only the username changes; the getter returns the value as given; validity unchanged |
| `JdbcOptions.JdbcJobModuleOptionMetadata.SetSql` | src/main/java/com/gopivotal/spring/xd/module/jdbc/JdbcJobModuleOptionMetadata.java:59-62 | only SQL changes, its getter returns it as given, and SQL with text makes the options valid whatever the script holds |
| `JdbcOptions.JdbcJobModuleOptionMetadata.SetScript` | src/main/java/com/gopivotal/spring/xd/module/jdbc/JdbcJobModuleOptionMetadata.java:64-67 | only the script changes, its getter returns it as given, and a script with text makes the options valid whatever SQL holds |
| `JdbcOptions.JdbcJobModuleOptionMetadata.SetRestartable` | src/main/java/com/gopivotal/spring/xd/module/jdbc/JdbcJobModuleOptionMetadata.java:74-77 | only the flag changes; the getter returns it; validity unchanged |

The getters (JdbcJobModuleOptionMetadata.java:79-105) are the plain functions `GetSql` and
the rest. What they return is stated in the setters' contracts above.

## Left out

- Real JDBC execution, named-parameter binding and the rendering of a row list as text. They
  belong to the data-access library: the database is an oracle, and the step context reaches it
  unexamined. So binding errors are just some exception the oracle may answer with.
- Script reading (`scriptToString`, stream and encoding handling). It is I/O. It becomes the
  `read` parameter, which yields some text (possibly empty: the source swallows a read failure)
  or the exception that opening the resource threw.
- Closing the reader, the logging, and the Spring lifecycle and annotation processing
  (`InitializingBean`, `@ModuleOption`, `@AssertTrue`). None of these changes what the model
  computes.
- The `StepContribution` argument of `execute`. The source never uses it.
- `JdbcStep.JdbcTasklet.Execute`: appends the message to the exit description by plain
  concatenation. Spring's `ExitStatus.addExitDescription` also joins with `"; "` and skips an
  empty or repeated description; that is library behaviour.
- `JdbcStep.ScriptsRun`: the reader is a function of the resource alone, so a resource listed
  twice yields the same text both times. The source opens and reads it afresh each time
  (JdbcTasklet.java:142), and a resource whose content changes in between is not modelled.
- `JdbcStep.JdbcTasklet.SetDataSource`: takes a non-null database. With a null data source the
  template's constructor throws, and that is library behaviour.
- `JavaText.HasText`: `Character.isWhitespace` is modelled over ASCII only. Every non-ASCII
  character counts as text, Unicode space separators such as U+3000 included.
- Upper-casing is ASCII only and ignores the locale. Java's `toUpperCase` also maps some
  non-ASCII letters to ASCII ones (U+017F LATIN SMALL LETTER LONG S becomes `S`), so
  `ſelect` is a query in Java and an update here.
- Row counts are natural numbers. A JDBC driver reporting a negative count is not modelled.
- Concurrency. The source has none of its own.
