/**
 * scripts/check-db.js: load `.env` the same way lib/db.ts does, but without
 * the password guard, then try one connection and explain a failure.
 */
module CheckDb {
  import opened Wrappers
  import opened EnvFile

  /** The environment after the script read `.env` (`None` when the file does not exist). */
  function EnvAfterScriptLoad(env: map<string, string>, dotEnv: Option<string>): (r: map<string, string>)
    ensures dotEnv.None? ==> r == env
    ensures dotEnv.Some? ==> r == MergeLines(env, SplitLines(dotEnv.value))
  {
    LoadFilesCons(env, dotEnv, []);
    assert [dotEnv] + [] == [dotEnv];
    LoadFiles(env, [dotEnv])
  }

  /** The script's loading step, on the process environment. */
  method LoadDotEnv(env: ProcessEnv, dotEnv: Option<string>)
    modifies env
    ensures env.vars == EnvAfterScriptLoad(old(env.vars), dotEnv)
  {
    if dotEnv.Some? {
      env.LoadContent(dotEnv.value);
    }
  }

  /** Without a password set and without `.env.local`, the script and lib/db.ts load the same environment. */
  lemma ScriptLoadMatchesManualLoad(env: map<string, string>, dotEnv: Option<string>)
    requires !Defined(env, PasswordKey)
    ensures EnvAfterScriptLoad(env, dotEnv) == EnvAfterManualLoad(env, None, dotEnv)
  {
    LoadFilesCons(env, None, [dotEnv]);
    assert [None] + [dotEnv] == [None, dotEnv];
  }

  /**
   * Unlike `loadEnvManually`, the script reads `.env` even when the password is
   * already set: a key that `.env` defines first is picked up by the script and
   * not by lib/db.ts.
   */
  lemma ScriptLoadIgnoresPasswordGuard(env: map<string, string>, content: string, key: string, j: nat)
    requires Defined(env, PasswordKey) && !Defined(env, key)
    requires DefinesAt(ParseLines(SplitLines(content)), j, key)
    requires forall i :: 0 <= i < j ==> !DefinesAt(ParseLines(SplitLines(content)), i, key)
    ensures EnvAfterManualLoad(env, None, Some(content)) == env
    ensures key in EnvAfterScriptLoad(env, Some(content))
    ensures EnvAfterScriptLoad(env, Some(content))[key] == ParseLines(SplitLines(content))[j].value.1
  {
    var es := ParseLines(SplitLines(content));
    FirstDefinitionWins(env, es, key, j);
    assert EnvAfterScriptLoad(env, Some(content)) == MergeEntries(env, es);
  }

  /** The outcome of `mysql.createConnection` followed by `SHOW TABLES`. */
  datatype ConnectResult = Connected(tables: seq<string>) | Failed(code: Option<string>, message: string)

  /** The three failures the script explains. */
  datatype Hint = ServerNotStarted | BadCredentials | MissingDatabase

  /** The advice printed after a failed connection, by error code. */
  function HintFor(code: Option<string>): (h: Option<Hint>)
    ensures h == Some(ServerNotStarted) <==> code == Some("ECONNREFUSED")
    ensures h == Some(BadCredentials) <==> code == Some("ER_ACCESS_DENIED_ERROR")
    ensures h == Some(MissingDatabase) <==> code == Some("ER_BAD_DB_ERROR")
  {
    if code == Some("ECONNREFUSED") then Some(ServerNotStarted)
    else if code == Some("ER_ACCESS_DENIED_ERROR") then Some(BadCredentials)
    else if code == Some("ER_BAD_DB_ERROR") then Some(MissingDatabase)
    else None
  }

  /** `names.join(', ')`. */
  function JoinComma(names: seq<string>): string {
    if names == [] then "" else if |names| == 1 then names[0] else names[0] + ", " + JoinComma(names[1..])
  }

  /** A join is empty exactly when there is no table, or one whose name is empty. */
  lemma {:induction false} JoinCommaEmpty(names: seq<string>)
    ensures JoinComma(names) == "" <==> names == [] || (|names| == 1 && names[0] == "")
  {
    if |names| > 1 {
      assert |JoinComma(names)| >= 2;
    }
  }

  /** The table list line: the joined names, or 'Aucune table' when the join is empty. */
  function TablesLine(tables: seq<string>): (line: string)
    ensures tables == [] || (|tables| == 1 && tables[0] == "") ==> line == "Aucune table"
    ensures !(tables == [] || (|tables| == 1 && tables[0] == "")) ==> line == JoinComma(tables)
  {
    JoinCommaEmpty(tables);
    if JoinComma(tables) == "" then "Aucune table" else JoinComma(tables)
  }

  /** What `testConnection` reports. */
  datatype Diagnosis =
    | Success(config: ConnectionConfig, tablesLine: string)
    | Failure(config: ConnectionConfig, code: Option<string>, message: string, hint: Option<Hint>)

  /** `testConnection()` against the environment, given what the server answered. */
  function TestConnection(env: map<string, string>, result: ConnectResult): (d: Diagnosis)
    ensures d.config == ConnectionConfigOf(env)
    ensures d.Success? <==> result.Connected?
    ensures result.Connected? ==> d.tablesLine == TablesLine(result.tables)
    ensures result.Failed? ==> d.code == result.code && d.message == result.message && d.hint == HintFor(result.code)
  {
    var config := ConnectionConfigOf(env);
    match result
    case Connected(tables) => Success(config, TablesLine(tables))
    case Failed(code, message) => Failure(config, code, message, HintFor(code))
  }
}
