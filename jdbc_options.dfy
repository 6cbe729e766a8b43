/** The options a JDBC job module accepts: connection settings, the SQL source
    and the restart flag. One cross-field rule: SQL or a script path must be
    given, as text. */
module JdbcOptions {
  import opened Wrappers
  import opened JavaText

  /** The seven option values at one moment; None stands for null. */
  datatype OptionValues = OptionValues(
    driverClassName: Option<string>,
    password: Option<string>,
    url: Option<string>,
    username: Option<string>,
    sql: Option<string>,
    script: Option<string>,
    restartable: bool)

  class JdbcJobModuleOptionMetadata {
    var driverClassName: Option<string>
    var password: Option<string>
    var url: Option<string>
    var username: Option<string>
    var sql: Option<string>
    var script: Option<string>
    var restartable: bool

    /** The four connection settings start out null, SQL and script empty,
      and the job is not restartable, so a fresh instance fails validation. */
    constructor ()
      ensures Values() == OptionValues(None, None, None, None, Some(""), Some(""), false)
      ensures !IsEitherSqlOrScript()
    {
      driverClassName, password, url, username := None, None, None, None;
      sql, script := Some(""), Some("");
      restartable := false;
    }

    function Values(): (values: OptionValues)
      reads this
    {
      OptionValues(driverClassName, password, url, username, sql, script, restartable)
    }

    /** The validation rule: SQL or the script path holds a non-whitespace
      character. Null, empty and whitespace-only values all count as missing. */
    function IsEitherSqlOrScript(): (valid: bool)
      reads this
      ensures valid <==>
        (sql.Some? && exists i :: 0 <= i < |sql.value| && !IsWhitespace(sql.value[i])) ||
        (script.Some? && exists i :: 0 <= i < |script.value| && !IsWhitespace(script.value[i]))
    {
      HasText(sql) || HasText(script)
    }

    method SetDriverClassName(driverClass: Option<string>)
      modifies this
      ensures Values() == old(Values()).(driverClassName := driverClass)
      ensures GetDriverClassName() == driverClass
      ensures IsEitherSqlOrScript() == old(IsEitherSqlOrScript())
    {
      driverClassName := driverClass;
    }

    method SetPassword(password: Option<string>)
      modifies this
      ensures Values() == old(Values()).(password := password)
      ensures GetPassword() == password
      ensures IsEitherSqlOrScript() == old(IsEitherSqlOrScript())
    {
      this.password := password;
    }

    method SetUrl(url: Option<string>)
      modifies this
      ensures Values() == old(Values()).(url := url)
      ensures GetUrl() == url
      ensures IsEitherSqlOrScript() == old(IsEitherSqlOrScript())
    {
      this.url := url;
    }

    method SetUsername(username: Option<string>)
      modifies this
      ensures Values() == old(Values()).(username := username)
      ensures GetUsername() == username
      ensures IsEitherSqlOrScript() == old(IsEitherSqlOrScript())
    {
      this.username := username;
    }

    /** SQL with text makes the options valid whatever the script path holds. */
    method SetSql(sql: Option<string>)
      modifies this
      ensures Values() == old(Values()).(sql := sql)
      ensures GetSql() == sql
      ensures HasText(sql) ==> IsEitherSqlOrScript()
      ensures IsEitherSqlOrScript() == (HasText(sql) || HasText(script))
    {
      this.sql := sql;
    }

    /** A script path with text makes the options valid whatever the SQL holds. */
    method SetScript(script: Option<string>)
      modifies this
      ensures Values() == old(Values()).(script := script)
      ensures GetScript() == script
      ensures HasText(script) ==> IsEitherSqlOrScript()
      ensures IsEitherSqlOrScript() == (HasText(sql) || HasText(script))
    {
      this.script := script;
    }

    method SetRestartable(restartable: bool)
      modifies this
      ensures Values() == old(Values()).(restartable := restartable)
      ensures GetRestartable() == restartable
      ensures IsEitherSqlOrScript() == old(IsEitherSqlOrScript())
    {
      this.restartable := restartable;
    }

    function GetDriverClassName(): (value: Option<string>) reads this { driverClassName }
    function GetPassword(): (value: Option<string>) reads this { password }
    function GetUrl(): (value: Option<string>) reads this { url }
    function GetUsername(): (value: Option<string>) reads this { username }
    function GetSql(): (value: Option<string>) reads this { sql }
    function GetScript(): (value: Option<string>) reads this { script }
    function GetRestartable(): (value: bool) reads this { restartable }
  }

  /** Options whose SQL and script path are both null, empty or made of
      whitespace fail validation, whatever the other five fields hold. */
  lemma BlankSourcesFailValidation(options: JdbcJobModuleOptionMetadata)
    requires options.sql.None? || forall i :: 0 <= i < |options.sql.value| ==> IsWhitespace(options.sql.value[i])
    requires options.script.None? || forall i :: 0 <= i < |options.script.value| ==> IsWhitespace(options.script.value[i])
    ensures !options.IsEitherSqlOrScript()
  {
  }
}
