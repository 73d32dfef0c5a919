/** scripts/snowflake_password_connection.py: connect with the configured
    credentials, run the nine setup statements through `execute_sql_script`
    counting the ones whose result is truthy, then run the four
    verification queries. The driver is an oracle: `outcome(k)` is what the
    k-th call of `execute_sql_script` (counting from 0) runs into. */
module PasswordConnection {
  import opened Wrappers
  import opened Config
  import TastyBytesSql

  /** A fetched row; its columns are whatever the driver returns. */
  type Row = seq<string>

  /** What one statement runs into: `conn.cursor()` raises, `execute`
      raises, `fetchall` raises, or `fetchall` returns rows (maybe none). */
  datatype Execution = CursorFails | ExecuteFails | FetchFails | Fetched(rows: seq<Row>)

  /** The Python value `execute_sql_script` returns: a list of rows or a bool. */
  datatype PyValue = PyList(rows: seq<Row>) | PyBool(b: bool)

  /** Python truthiness: a non-empty list, or True. */
  predicate PyTruthy(v: PyValue) {
    match v
    case PyList(rows) => rows != []
    case PyBool(b) => b
  }

  /** `execute_sql_script`: the rows when there are some, [] when the
      statement ran but gave none or `fetchall` raised, False when the
      cursor or `execute` raised. The `return True` after the inner try
      is never reached, so True never comes back. */
  function ExecuteSqlScript(e: Execution): (r: PyValue)
    ensures e.Fetched? && e.rows != [] ==> r == PyList(e.rows)
    ensures (e.Fetched? && e.rows == []) || e == FetchFails ==> r == PyList([])
    ensures e == CursorFails || e == ExecuteFails ==> r == PyBool(false)
    ensures r != PyBool(true)
  {
    match e
    case CursorFails => PyBool(false)
    case ExecuteFails => PyBool(false)
    case FetchFails => PyList([])
    case Fetched(rows) => if rows != [] then PyList(rows) else PyList([])
  }

  /** The result is truthy exactly when the statement fetched at least one
      row: a statement that ran without rows is not told apart from one
      that failed. */
  lemma ExecuteSqlScriptTruthy(e: Execution)
    ensures PyTruthy(ExecuteSqlScript(e)) <==> e.Fetched? && e.rows != []
    ensures !PyTruthy(ExecuteSqlScript(e)) ==> ExecuteSqlScript(e) in {PyList([]), PyBool(false)}
  {
  }

  /** How many of the calls 0..n-1 return a truthy value. */
  function CountSuccesses(outcome: nat -> Execution, n: nat): (count: nat) {
    if n == 0 then 0
    else CountSuccesses(outcome, n - 1) + (if PyTruthy(ExecuteSqlScript(outcome(n - 1))) then 1 else 0)
  }

  /** The count never exceeds the number of calls, and reaches it exactly
      when every call fetched rows. */
  lemma {:induction false} CountSuccessesBound(outcome: nat -> Execution, n: nat)
    ensures CountSuccesses(outcome, n) <= n
    ensures CountSuccesses(outcome, n) == n <==>
      forall k :: 0 <= k < n ==> outcome(k).Fetched? && outcome(k).rows != []
  {
    if n > 0 {
      CountSuccessesBound(outcome, n - 1);
      ExecuteSqlScriptTruthy(outcome(n - 1));
    }
  }

  /** Each call adds one to the count exactly when it fetched rows. */
  lemma CountSuccessesStep(outcome: nat -> Execution, n: nat)
    ensures CountSuccesses(outcome, n + 1) ==
      CountSuccesses(outcome, n) + (if outcome(n).Fetched? && outcome(n).rows != [] then 1 else 0)
  {
    ExecuteSqlScriptTruthy(outcome(n));
  }

  /** A statement that runs but returns no rows, or whose fetch raises,
      leaves the count as it was, whatever the calls around it did. */
  lemma CountIgnoresEmptyResults(outcome: nat -> Execution, n: nat)
    requires outcome(n) == FetchFails || outcome(n) == Fetched([])
    ensures CountSuccesses(outcome, n + 1) == CountSuccesses(outcome, n)
  {
    CountSuccessesStep(outcome, n);
  }

  /** Calls that all run without rows, or whose fetches all raise, count
      nothing. */
  lemma {:induction false} NoRowsCountNothing(outcome: nat -> Execution, n: nat)
    requires forall k :: 0 <= k < n ==> outcome(k) == FetchFails || outcome(k) == Fetched([])
    ensures CountSuccesses(outcome, n) == 0
  {
    if n > 0 {
      NoRowsCountNothing(outcome, n - 1);
      CountIgnoresEmptyResults(outcome, n - 1);
    }
  }

  /** The count over the first n calls depends on those calls only: the
      verification queries, which come after the nine setup statements,
      cannot change it. */
  lemma {:induction false} CountOnlyFirst(outcome: nat -> Execution, outcome': nat -> Execution, n: nat)
    requires forall k :: 0 <= k < n ==> outcome(k) == outcome'(k)
    ensures CountSuccesses(outcome, n) == CountSuccesses(outcome', n)
  {
    if n > 0 {
      CountOnlyFirst(outcome, outcome', n - 1);
    }
  }

  /** The parameters `connect_to_snowflake` passes to `connect`, or None
      when it returns None: a credential unset or empty (the ValueError),
      or `connect` raising. */
  function ConnectToSnowflake(env: Env, connectOk: bool): (conn: Option<SnowflakeConfig>)
    ensures conn.Some? <==> connectOk && RequiredPresent(env)
    ensures conn.Some? ==> conn.value == ConfigOf(env)
  {
    if !RequiredPresent(env) then None
    else if !connectOk then None
    else Some(ConfigOf(env))
  }

  /** A connection is only opened with the three credentials set and
      non-empty, and with the configuration's defaults for the rest. */
  lemma ConnectionCredentials(env: Env, connectOk: bool)
    requires ConnectToSnowflake(env, connectOk).Some?
    ensures var c := ConnectToSnowflake(env, connectOk).value;
      && c.user.Some? && c.user.value != ""
      && c.password.Some? && c.password.value != ""
      && c.account.Some? && c.account.value != ""
  {
    RequiredPresentIff(env);
  }

  /** One `for` loop of `setup_tasty_bytes_data`: each script goes to
      `execute_sql_script` once, in order, as call number `first + k`;
      `count` goes on from `count0` by one per truthy result. */
  method ExecuteScripts(scripts: seq<string>, outcome: nat -> Execution, first: nat, count0: nat)
    returns (executed: seq<string>, results: seq<PyValue>, count: nat)
    requires count0 == CountSuccesses(outcome, first)
    ensures executed == scripts
    ensures |results| == |scripts|
    ensures forall k {:trigger results[k]} :: 0 <= k < |scripts| ==> results[k] == ExecuteSqlScript(outcome(first + k))
    ensures count == CountSuccesses(outcome, first + |scripts|)
  {
    executed := [];
    results := [];
    count := count0;
    for k := 0 to |scripts|
      invariant executed == scripts[..k]
      invariant |results| == k
      invariant forall j {:trigger results[j]} :: 0 <= j < k ==> results[j] == ExecuteSqlScript(outcome(first + j))
      invariant count == CountSuccesses(outcome, first + k)
    {
      var r := ExecuteSqlScript(outcome(first + k));
      executed := executed + [scripts[k]];
      results := results + [r];
      if PyTruthy(r) {
        count := count + 1;
      }
    }
    assert scripts[..|scripts|] == scripts;
  }

  /** The two loops of `setup_tasty_bytes_data` one after the other: the
      setup scripts are calls 0.. and the verification queries follow;
      `count` counts the truthy results of the setup scripts only. */
  method ExecuteSetupAndQueries(sqlScripts: seq<string>, verificationQueries: seq<string>, outcome: nat -> Execution)
    returns (executed: seq<string>, results: seq<PyValue>, count: nat)
    ensures executed == sqlScripts + verificationQueries
    ensures |results| == |executed|
    ensures forall k :: 0 <= k < |results| ==> results[k] == ExecuteSqlScript(outcome(k))
    ensures count == CountSuccesses(outcome, |sqlScripts|)
  {
    var setupRun, setupResults, setupCount := ExecuteScripts(sqlScripts, outcome, 0, 0);
    var queryRun, queryResults, _ := ExecuteScripts(verificationQueries, outcome, |sqlScripts|, setupCount);
    executed := setupRun + queryRun;
    results := setupResults + queryResults;
    count := setupCount;
    forall k | 0 <= k < |results|
      ensures results[k] == ExecuteSqlScript(outcome(k))
    {
      var n := |setupResults|;
      if k < n {
        assert results[k] == setupResults[k];
      } else {
        var j := k - n;
        assert results[k] == queryResults[j];
        assert queryResults[j] == ExecuteSqlScript(outcome(|sqlScripts| + j));
      }
    }
  }

  /** `setup_tasty_bytes_data`: `executed` lists the statements passed to
      `execute_sql_script`, in order, `results` what each call returned. */
  method SetupTastyBytesData(env: Env, connectOk: bool, outcome: nat -> Execution)
    returns (ok: bool, successCount: nat, executed: seq<string>, results: seq<PyValue>)
    ensures ok <==> ConnectToSnowflake(env, connectOk).Some?
    ensures !ok ==> successCount == 0 && executed == [] && results == []
    ensures ok ==> executed == TastyBytesSql.SetupStatements + TastyBytesSql.VerificationQueries
    ensures |results| == |executed|
    ensures forall k :: 0 <= k < |results| ==> results[k] == ExecuteSqlScript(outcome(k))
    ensures ok ==> successCount == CountSuccesses(outcome, 9)
    ensures successCount <= 9
  {
    var conn := ConnectToSnowflake(env, connectOk);
    if conn.None? {
      return false, 0, [], [];
    }
    var sqlScripts := TastyBytesSql.SetupStatements;
    var verificationQueries := TastyBytesSql.VerificationQueries;
    executed, results, successCount := ExecuteSetupAndQueries(sqlScripts, verificationQueries, outcome);
    assert |sqlScripts| == 9;
    CountSuccessesBound(outcome, 9);
    ok := true;
  }
}
