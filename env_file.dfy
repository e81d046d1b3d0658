/**
 * Manual `.env` loading and the connection settings of lib/db.ts. The same
 * line parse and merge are used by scripts/check-db.js (module CheckDb).
 */
module EnvFile {
  import opened Wrappers
  import opened Strings

  /** The position of the first `c` in `s`, or `|s|` when there is none. */
  function IndexOf(s: string, c: char): (i: nat)
    ensures i <= |s|
    ensures forall j :: 0 <= j < i ==> s[j] != c
    ensures i < |s| ==> s[i] == c
  {
    if s == [] || s[0] == c then 0 else 1 + IndexOf(s[1..], c)
  }

  /** `content.split('\n')`. */
  function SplitLines(s: string): (r: seq<string>)
    ensures |r| >= 1
    ensures forall i :: 0 <= i < |r| ==> '\n' !in r[i]
    decreases |s|
  {
    var i := IndexOf(s, '\n');
    if i == |s| then [s] else [s[..i]] + SplitLines(s[i + 1..])
  }

  /** `lines.join('\n')`. */
  function JoinLines(lines: seq<string>): string {
    if lines == [] then "" else if |lines| == 1 then lines[0] else lines[0] + "\n" + JoinLines(lines[1..])
  }

  /** Splitting loses nothing: joining the lines gives back the content. */
  lemma {:induction false} SplitJoin(s: string)
    ensures JoinLines(SplitLines(s)) == s
    decreases |s|
  {
    var i := IndexOf(s, '\n');
    if i < |s| {
      SplitJoin(s[i + 1..]);
      assert s == s[..i] + "\n" + s[i + 1..];
    }
  }

  predicate IsQuote(c: char) {
    c == '\'' || c == '"'
  }

  /** `v.replace(/^['"]|['"]$/g, '')`: one leading and one trailing quote, each removed on its own. */
  function StripQuotes(v: string): (r: string)
    ensures |v| - 2 <= |r| <= |v|
    ensures |v| > 0 && IsQuote(v[0]) ==> |r| < |v| && r == v[1..1 + |r|]
    ensures !(|v| > 0 && IsQuote(v[0])) ==> r == v[..|r|]
  {
    var a := if |v| > 0 && IsQuote(v[0]) then 1 else 0;
    var t := v[a..];
    var r := if |t| > 0 && IsQuote(t[|t| - 1]) then t[..|t| - 1] else t;
    assert r == v[a..a + |r|];
    r
  }

  /** A value written between quotes of either kind comes back without them. */
  lemma StripQuotesOfQuoted(open: char, v: string, close: char)
    requires IsQuote(open) && IsQuote(close)
    ensures StripQuotes([open] + v + [close]) == v
  {
    var s := [open] + v + [close];
    assert s[1..] == v + [close];
    assert (v + [close])[..|v|] == v;
  }

  /** A value that neither starts nor ends with a quote is kept as it is. */
  lemma StripQuotesOfUnquoted(v: string)
    requires v == [] || (!IsQuote(v[0]) && !IsQuote(v[|v| - 1]))
    ensures StripQuotes(v) == v
  {
  }

  /**
   * `/^([^=]+)=(.*)$/` matches `line` with its `=` at index `i`: `i` is the
   * first `=`, some text precedes it, and no line terminator follows it
   * (`.` does not match one and `$` only matches at the very end).
   */
  ghost predicate SplitsAt(line: string, i: int) {
    && 1 <= i < |line| && line[i] == '='
    && (forall j :: 0 <= j < i ==> line[j] != '=')
    && (forall j :: i < j < |line| ==> !IsLineTerminator(line[j]))
  }

  predicate NoLineTerminator(s: string) {
    forall j :: 0 <= j < |s| ==> !IsLineTerminator(s[j])
  }

  /** One `.env` line: the trimmed key and the trimmed, unquoted value, or nothing when the line does not match. */
  function ParseLine(line: string): Option<(string, string)> {
    var i := IndexOf(line, '=');
    if 0 < i < |line| && NoLineTerminator(line[i + 1..]) then
      Some((Trim(line[..i]), StripQuotes(Trim(line[i + 1..]))))
    else
      None
  }

  /** `ParseLine` agrees with the regular expression: it matches exactly the lines the pattern matches, split at the same `=`. */
  lemma ParseLineMatchesPattern(line: string)
    ensures ParseLine(line).Some? <==> exists i :: SplitsAt(line, i)
    ensures forall i :: SplitsAt(line, i) ==>
      ParseLine(line) == Some((Trim(line[..i]), StripQuotes(Trim(line[i + 1..]))))
  {
    var i := IndexOf(line, '=');
    if 0 < i < |line| && NoLineTerminator(line[i + 1..]) {
      SplitsAtIndexOf(line);
    }
    forall k | SplitsAt(line, k) ensures k == i && NoLineTerminator(line[i + 1..]) {
      SplitsAtOnlyIndexOf(line, k);
    }
  }

  lemma SplitsAtIndexOf(line: string)
    requires 0 < IndexOf(line, '=') < |line| && NoLineTerminator(line[IndexOf(line, '=') + 1..])
    ensures SplitsAt(line, IndexOf(line, '='))
  {
    var i := IndexOf(line, '=');
    forall j | i < j < |line| ensures !IsLineTerminator(line[j]) {
      assert line[j] == line[i + 1..][j - i - 1];
    }
  }

  lemma SplitsAtOnlyIndexOf(line: string, k: int)
    requires SplitsAt(line, k)
    ensures k == IndexOf(line, '=') && NoLineTerminator(line[k + 1..])
  {
  }

  /** A line saved with a Windows line ending keeps its `\r` after the split and is ignored. */
  lemma CarriageReturnLineIgnored(key: string, value: string)
    requires |key| > 0 && '=' !in key
    ensures ParseLine(key + "=" + value + "\r") == None
  {
    var line := key + "=" + value + "\r";
    assert line[|key|] == '=';
    assert forall j :: 0 <= j < |key| ==> line[j] == key[j];
    assert IndexOf(line, '=') == |key|;
    var rest := line[|key| + 1..];
    assert rest[|rest| - 1] == '\r';
  }

  /** `!process.env[key]` is false: the key is set to a non-empty value. */
  predicate Defined(env: map<string, string>, key: string) {
    key in env && env[key] != ""
  }

  /** What one line yields: a key and a value, or nothing. */
  type Entry = Option<(string, string)>

  /** Every line parsed, in order. */
  function ParseLines(lines: seq<string>): (r: seq<Entry>)
    ensures |r| == |lines|
    ensures forall i :: 0 <= i < |lines| ==> r[i] == ParseLine(lines[i])
  {
    if lines == [] then [] else [ParseLine(lines[0])] + ParseLines(lines[1..])
  }

  /** One step of the `forEach`: set the key unless it is already defined. */
  function MergeEntry(env: map<string, string>, e: Entry): map<string, string> {
    match e
    case None => env
    case Some((k, v)) => if Defined(env, k) then env else env[k := v]
  }

  /** The parsed lines of one file, merged in order. */
  function MergeEntries(env: map<string, string>, es: seq<Entry>): map<string, string>
    decreases |es|
  {
    if es == [] then env else MergeEntry(MergeEntries(env, es[..|es| - 1]), es[|es| - 1])
  }

  /** The lines of one file, parsed and merged in order. */
  function MergeLines(env: map<string, string>, lines: seq<string>): map<string, string> {
    MergeEntries(env, ParseLines(lines))
  }

  lemma {:induction false} MergeEntriesAppend(env: map<string, string>, a: seq<Entry>, b: seq<Entry>)
    ensures MergeEntries(env, a + b) == MergeEntries(MergeEntries(env, a), b)
    decreases |b|
  {
    if b == [] {
      assert a + b == a;
    } else {
      assert (a + b)[..|a + b| - 1] == a + b[..|b| - 1];
      MergeEntriesAppend(env, a, b[..|b| - 1]);
    }
  }

  lemma MergeEntriesStep(env: map<string, string>, es: seq<Entry>, i: nat)
    requires i < |es|
    ensures MergeEntries(env, es[..i + 1]) == MergeEntry(MergeEntries(env, es[..i]), es[i])
  {
    assert es[..i + 1][..i] == es[..i];
  }

  /** A key that is already defined keeps its value, whatever the lines say. */
  lemma {:induction false} MergeKeepsDefined(env: map<string, string>, es: seq<Entry>, key: string)
    requires Defined(env, key)
    ensures Defined(MergeEntries(env, es), key) && MergeEntries(env, es)[key] == env[key]
    decreases |es|
  {
    if es != [] {
      MergeKeepsDefined(env, es[..|es| - 1], key);
    }
  }

  /** Entry `j` gives `key` a non-empty value. */
  ghost predicate DefinesAt(es: seq<Entry>, j: int, key: string) {
    0 <= j < |es| && es[j].Some? && es[j].value.0 == key && es[j].value.1 != ""
  }

  /** Entries that never give `key` a non-empty value cannot make it defined. */
  lemma {:induction false} MergeWithoutDefinition(env: map<string, string>, es: seq<Entry>, key: string)
    requires !Defined(env, key)
    requires forall j :: 0 <= j < |es| ==> !DefinesAt(es, j, key)
    ensures !Defined(MergeEntries(env, es), key)
    decreases |es|
  {
    if es != [] {
      var pre := es[..|es| - 1];
      forall j | 0 <= j < |pre| ensures !DefinesAt(pre, j, key) {
        assert pre[j] == es[j] && !DefinesAt(es, j, key);
      }
      MergeWithoutDefinition(env, pre, key);
      assert !DefinesAt(es, |es| - 1, key);
    }
  }

  /**
   * The first entry that gives an undefined key a non-empty value wins: later
   * entries cannot change it. An earlier entry with an empty value does not
   * count, since an empty value still reads as undefined.
   */
  lemma FirstDefinitionWins(env: map<string, string>, es: seq<Entry>, key: string, j: nat)
    requires !Defined(env, key)
    requires DefinesAt(es, j, key)
    requires forall i :: 0 <= i < j ==> !DefinesAt(es, i, key)
    ensures key in MergeEntries(env, es)
    ensures MergeEntries(env, es)[key] == es[j].value.1
  {
    var pre, rest := es[..j], es[j + 1..];
    forall i | 0 <= i < |pre| ensures !DefinesAt(pre, i, key) {
      assert pre[i] == es[i] && !DefinesAt(es, i, key);
    }
    MergeWithoutDefinition(env, pre, key);
    assert es[..j + 1][..j] == pre;
    var e2 := MergeEntries(env, es[..j + 1]);
    assert Defined(e2, key) && e2[key] == es[j].value.1;
    MergeKeepsDefined(e2, rest, key);
    assert es == es[..j + 1] + rest;
    MergeEntriesAppend(env, es[..j + 1], rest);
  }

  /** A key the environment lacks and no entry names stays absent. */
  lemma {:induction false} MergeAddsOnlyParsedKeys(env: map<string, string>, es: seq<Entry>, key: string)
    requires key !in env
    requires forall j :: 0 <= j < |es| ==> es[j].None? || es[j].value.0 != key
    ensures key !in MergeEntries(env, es)
    decreases |es|
  {
    if es != [] {
      var pre := es[..|es| - 1];
      forall j | 0 <= j < |pre| ensures pre[j].None? || pre[j].value.0 != key {
        assert pre[j] == es[j];
      }
      MergeAddsOnlyParsedKeys(env, pre, key);
    }
  }

  /** The files `loadEnvManually` reads, in order; `None` for a file that does not exist. */
  function LoadFiles(env: map<string, string>, files: seq<Option<string>>): map<string, string>
    decreases |files|
  {
    if files == [] then env
    else
      var before := LoadFiles(env, files[..|files| - 1]);
      match files[|files| - 1]
      case None => before
      case Some(content) => MergeLines(before, SplitLines(content))
  }

  /** Reading the files one after the other: the first file, then the rest. */
  lemma LoadFilesCons(env: map<string, string>, f: Option<string>, files: seq<Option<string>>)
    ensures f.None? ==> LoadFiles(env, [f] + files) == LoadFiles(env, files)
    ensures f.Some? ==> LoadFiles(env, [f] + files) == LoadFiles(MergeLines(env, SplitLines(f.value)), files)
    decreases |files|
  {
    if files != [] {
      var init := files[..|files| - 1];
      assert ([f] + files)[..|files|] == [f] + init;
      LoadFilesCons(env, f, init);
    } else {
      assert ([f] + files)[..0] == [];
    }
  }

  const PasswordKey := "MYSQL_PASSWORD"

  /** `loadEnvManually()` over the contents of `.env.local` and `.env`. */
  function EnvAfterManualLoad(env: map<string, string>, envLocal: Option<string>, dotEnv: Option<string>)
    : (r: map<string, string>)
    ensures Defined(env, PasswordKey) ==> r == env
    ensures !Defined(env, PasswordKey) ==> r == LoadFiles(env, [envLocal, dotEnv])
  {
    if Defined(env, PasswordKey) then env else LoadFiles(env, [envLocal, dotEnv])
  }

  /** Loading never changes a key that was already defined. */
  lemma {:induction false} LoadFilesKeepsDefined(env: map<string, string>, files: seq<Option<string>>, key: string)
    requires Defined(env, key)
    ensures Defined(LoadFiles(env, files), key) && LoadFiles(env, files)[key] == env[key]
    decreases |files|
  {
    if files != [] {
      LoadFilesKeepsDefined(env, files[..|files| - 1], key);
      var before := LoadFiles(env, files[..|files| - 1]);
      if files[|files| - 1].Some? {
        MergeKeepsDefined(before, ParseLines(SplitLines(files[|files| - 1].value)), key);
      }
    }
  }

  /** A key given a non-empty value by `.env.local` keeps it, whatever `.env` says. */
  lemma EnvLocalWins(env: map<string, string>, local: string, dotEnv: Option<string>, key: string, j: nat)
    requires !Defined(env, PasswordKey) && !Defined(env, key)
    requires DefinesAt(ParseLines(SplitLines(local)), j, key)
    requires forall i :: 0 <= i < j ==> !DefinesAt(ParseLines(SplitLines(local)), i, key)
    ensures key in EnvAfterManualLoad(env, Some(local), dotEnv)
    ensures EnvAfterManualLoad(env, Some(local), dotEnv)[key] == ParseLines(SplitLines(local))[j].value.1
  {
    var es := ParseLines(SplitLines(local));
    FirstDefinitionWins(env, es, key, j);
    var afterLocal := MergeLines(env, SplitLines(local));
    var files := [Some(local), dotEnv];
    assert files[..1] == [Some(local)];
    assert files[..1][..0] == [];
    assert LoadFiles(env, files[..1]) == afterLocal;
    if dotEnv.Some? {
      MergeKeepsDefined(afterLocal, ParseLines(SplitLines(dotEnv.value)), key);
    }
  }

  /** The settings `mysql.createPool` and `mysql.createConnection` receive; `None` leaves mysql2's default port. */
  datatype ConnectionConfig = ConnectionConfig(
    host: string, user: string, password: string, database: string, port: Option<string>)

  /** The pool adds fixed queueing settings to the connection settings. */
  datatype PoolConfig = PoolConfig(
    connection: ConnectionConfig, waitForConnections: bool, connectionLimit: nat, queueLimit: nat)

  /** The port mysql2 uses when it is given none. */
  const DefaultPort := "3306"

  /** The port a connection actually goes to. */
  function EffectivePort(c: ConnectionConfig): (p: string)
    ensures c.port.None? ==> p == DefaultPort
  {
    c.port.GetOr(DefaultPort)
  }

  /** `process.env[key] || fallback`. */
  function EnvOr(env: map<string, string>, key: string, fallback: string): (r: string)
    ensures Defined(env, key) ==> r == env[key]
    ensures !Defined(env, key) ==> r == fallback
  {
    if Defined(env, key) then env[key] else fallback
  }

  /** Each setting comes from its variable when that is set and non-empty, else from its default; no port is passed. */
  function ConnectionConfigOf(env: map<string, string>): (c: ConnectionConfig)
    ensures c.host != "" && c.user != "" && c.database != ""
    ensures Defined(env, "MYSQL_HOST") ==> c.host == env["MYSQL_HOST"]
    ensures !Defined(env, "MYSQL_HOST") ==> c.host == "localhost"
    ensures !Defined(env, "MYSQL_USER") ==> c.user == "root"
    ensures !Defined(env, PasswordKey) ==> c.password == ""
    ensures !Defined(env, "MYSQL_DATABASE") ==> c.database == "discovery"
    ensures Defined(env, "MYSQL_USER") ==> c.user == env["MYSQL_USER"]
    ensures Defined(env, PasswordKey) ==> c.password == env[PasswordKey]
    ensures Defined(env, "MYSQL_DATABASE") ==> c.database == env["MYSQL_DATABASE"]
    ensures EffectivePort(c) == DefaultPort
  {
    ConnectionConfig(EnvOr(env, "MYSQL_HOST", "localhost"), EnvOr(env, "MYSQL_USER", "root"),
                     EnvOr(env, PasswordKey, ""), EnvOr(env, "MYSQL_DATABASE", "discovery"), None)
  }

  /** The pool of lib/db.ts: at most 10 connections, callers wait, unbounded queue. */
  function PoolConfigOf(env: map<string, string>): (p: PoolConfig)
    ensures p.connection == ConnectionConfigOf(env)
    ensures p.waitForConnections && p.connectionLimit == 10 && p.queueLimit == 0
  {
    PoolConfig(ConnectionConfigOf(env), true, 10, 0)
  }

  /** What lib/db.ts logs about its configuration; the password itself is never logged. */
  datatype LoggedConfig = LoggedConfig(host: string, user: string, database: string, port: string, passwordSet: bool)

  function LoggedConfigOf(env: map<string, string>): (l: LoggedConfig)
    ensures l.host == ConnectionConfigOf(env).host && l.user == ConnectionConfigOf(env).user
    ensures l.database == ConnectionConfigOf(env).database
    ensures l.passwordSet <==> Defined(env, PasswordKey)
    ensures Defined(env, "MYSQL_PORT") ==> l.port == env["MYSQL_PORT"]
    ensures !Defined(env, "MYSQL_PORT") ==> l.port == DefaultPort
  {
    var c := ConnectionConfigOf(env);
    LoggedConfig(c.host, c.user, c.database, EnvOr(env, "MYSQL_PORT", DefaultPort), Defined(env, PasswordKey))
  }

  /** As written, the logged port can differ from the port the pool connects to. */
  lemma LoggedPortNotUsed()
    ensures var env := map["MYSQL_PORT" := "3307"];
      LoggedConfigOf(env).port == "3307" && EffectivePort(PoolConfigOf(env).connection) == "3306"
  {
  }

  /** The pool settings with `MYSQL_PORT` passed on, as the logged configuration suggests was meant. */
  function PoolConfigWithPort(env: map<string, string>): (p: PoolConfig)
    ensures EffectivePort(p.connection) == LoggedConfigOf(env).port
    ensures p.connection.host == ConnectionConfigOf(env).host && p.connection.user == ConnectionConfigOf(env).user
    ensures p.connection.password == ConnectionConfigOf(env).password
    ensures p.connection.database == ConnectionConfigOf(env).database
    ensures p.waitForConnections && p.connectionLimit == 10 && p.queueLimit == 0
  {
    var c := ConnectionConfigOf(env);
    PoolConfig(c.(port := Some(EnvOr(env, "MYSQL_PORT", DefaultPort))), true, 10, 0)
  }

  /** The process environment, which the loaders update in place. */
  class ProcessEnv {
    var vars: map<string, string>

    constructor (vars: map<string, string>)
      ensures this.vars == vars
    {
      this.vars := vars;
    }

    /** The body of the `forEach`: a matched key is set unless it is already defined. */
    method SetIfUndefined(parsed: Entry)
      modifies this
      ensures vars == MergeEntry(old(vars), parsed)
    {
      if parsed.Some? {
        var (key, val) := parsed.value;
        if !(key in vars && vars[key] != "") {
          vars := vars[key := val];
        }
      }
    }

    /** `content.split('\n').forEach(...)`: merge every line of one file. */
    method LoadContent(content: string)
      modifies this
      ensures vars == MergeLines(old(vars), SplitLines(content))
    {
      var lines := SplitLines(content);
      ghost var es := ParseLines(lines);
      var i := 0;
      while i < |lines|
        invariant 0 <= i <= |lines|
        invariant vars == MergeEntries(old(vars), es[..i])
      {
        MergeEntriesStep(old(vars), es, i);
        SetIfUndefined(ParseLine(lines[i]));
        i := i + 1;
      }
      assert es[..i] == es;
    }

    /** `loadEnvManually()`: stop if the password is set, else read `.env.local` then `.env`. */
    method LoadEnvManually(envLocal: Option<string>, dotEnv: Option<string>)
      modifies this
      ensures vars == EnvAfterManualLoad(old(vars), envLocal, dotEnv)
    {
      if PasswordKey in vars && vars[PasswordKey] != "" {
        return;
      }
      var files := [envLocal, dotEnv];
      var i := 0;
      while i < |files|
        invariant 0 <= i <= |files|
        invariant vars == LoadFiles(old(vars), files[..i])
      {
        assert files[..i + 1][..i] == files[..i];
        if files[i].Some? {
          LoadContent(files[i].value);
        }
        i := i + 1;
      }
      assert files[..i] == files;
    }
  }
}
