/** snowflake_direct_connection.py: three ways of spelling the account are
    tried in order until one connects, then the thirteen Tasty Bytes
    statements run one after another, a failing statement not stopping the
    rest. The driver is an oracle: `connect(k)` says whether the k-th
    connection attempt succeeds, `execute(k)` whether the k-th statement
    runs without raising. */
module DirectConnection {
  import opened Wrappers
  import opened Text
  import opened Config
  import TastyBytesSql

  datatype ConnectionMethod = ConnectionMethod(
    name: string,
    account: Option<string>,
    user: Option<string>,
    password: Option<string>,
    role: string,
    warehouse: string)

  const RegionSuffix := ".us-west-2"

  /** `connection_methods`. */
  function ConnectionMethods(env: Env): (methods: seq<ConnectionMethod>)
    ensures |methods| == 3
    ensures methods[0].account == Getenv(env, AccountVar)
    ensures !Truthy(Getenv(env, AccountVar)) ==> methods[1].account == Some("") && methods[2].account == Some("")
    ensures forall k :: 0 <= k < 3 ==>
      && methods[k].user == Getenv(env, UserVar)
      && methods[k].password == Getenv(env, PasswordVar)
      && methods[k].role == (if RoleVar in env then env[RoleVar] else "ACCOUNTADMIN")
      && methods[k].warehouse == (if WarehouseVar in env then env[WarehouseVar] else "COMPUTE_WH")
  {
    var account := Getenv(env, AccountVar);
    var user := Getenv(env, UserVar);
    var password := Getenv(env, PasswordVar);
    var role := GetenvOr(env, RoleVar, DefaultRole);
    var warehouse := GetenvOr(env, WarehouseVar, DefaultWarehouse);
    [ ConnectionMethod("Method 1: Full account identifier", account, user, password, role, warehouse),
      ConnectionMethod("Method 2: Organization only",
        if Truthy(account) then Some(Split(GetenvOr(env, AccountVar, ""), '-')[0]) else Some(""),
        user, password, role, warehouse),
      ConnectionMethod("Method 3: With region",
        if Truthy(account) then Some(account.value + RegionSuffix) else Some(""),
        user, password, role, warehouse) ]
  }

  /** With SNOWFLAKE_ACCOUNT set and non-empty: method 2 uses the text
      before its first '-' (all of it when there is none), and method 3
      the account followed by ".us-west-2", from which the account can be
      read back. */
  lemma MethodAccounts(env: Env)
    requires AccountVar in env && env[AccountVar] != ""
    ensures var a := env[AccountVar];
      var m := ConnectionMethods(env);
      && m[1].account.Some? && m[1].account.value <= a && '-' !in m[1].account.value
      && (|m[1].account.value| == |a| || a[|m[1].account.value|] == '-')
      && ('-' !in a ==> m[1].account.value == a)
      && m[2].account == Some(a + ".us-west-2")
      && m[2].account.value[..|a|] == a
  {
    var a := env[AccountVar];
    SplitFirst(a, '-');
    assert (a + RegionSuffix)[..|a|] == a;
  }

  /** The thirteen statements, in the listed order. */
  const SqlCommands: seq<string> := TastyBytesSql.SetupStatements + TastyBytesSql.VerificationQueries

  /** How the session behaves once connected: `conn.cursor()` raises, or
      closing the cursor or the connection raises after the loop, or
      nothing goes wrong. Either fault lands in the outer `except`. */
  datatype SessionFault = CursorFails | CloseFails | NoFault

  /** How `connect_and_run_sql` ends: it returns a bool, or an exception
      escapes it (the handler's own `conn.close()` raised). */
  datatype Exit = Returned(value: bool) | Raised

  /** One pass of the statement loop: the statement's number, counting from
      1, its text, and whether `execute` succeeded. */
  datatype StepReport = StepReport(number: nat, sql: string, succeeded: bool)

  /** The first of the connection attempts 0..n-1 that succeeds, if any. */
  function FirstConnected(connect: nat -> bool, n: nat): (r: Option<nat>)
    ensures r.Some? ==> r.value < n && connect(r.value)
    ensures r.Some? ==> forall j :: 0 <= j < r.value ==> !connect(j)
    ensures r.None? ==> forall j :: 0 <= j < n ==> !connect(j)
  {
    if n == 0 then None
    else match FirstConnected(connect, n - 1)
      case Some(k) => Some(k)
      case None => if connect(n - 1) then Some(n - 1) else None
  }

  /** The statement loop: every statement is attempted once, in order,
      whatever happened to the ones before it. */
  method RunCommands(commands: seq<string>, execute: nat -> bool) returns (steps: seq<StepReport>)
    ensures |steps| == |commands|
    ensures forall i :: 0 <= i < |commands| ==> steps[i] == StepReport(i + 1, commands[i], execute(i))
  {
    steps := [];
    for i := 0 to |commands|
      invariant |steps| == i
      invariant forall j :: 0 <= j < i ==> steps[j] == StepReport(j + 1, commands[j], execute(j))
    {
      var sql := commands[i];
      var succeeded := execute(i);
      steps := steps + [StepReport(i + 1, sql, succeeded)];
    }
  }

  /** `connect_and_run_sql`: `used` is the connection method that
      succeeded, `steps` the statements attempted. `handlerCloseOk` says
      whether the `conn.close()` in the outer `except` returns normally. */
  method ConnectAndRunSql(env: Env, connect: nat -> bool, fault: SessionFault, handlerCloseOk: bool, execute: nat -> bool)
    returns (exit: Exit, used: Option<ConnectionMethod>, steps: seq<StepReport>)
    ensures var methods := ConnectionMethods(env);
      used == (match FirstConnected(connect, 3) case Some(k) => Some(methods[k]) case None => None)
    ensures used.None? ==> exit == Returned(false) && steps == []
    ensures used.Some? && fault == CursorFails ==> steps == []
    ensures used.Some? && fault != CursorFails ==>
      && |steps| == 13
      && forall i :: 0 <= i < 13 ==> steps[i] == StepReport(i + 1, SqlCommands[i], execute(i))
    ensures exit == Returned(true) <==> used.Some? && fault == NoFault
    ensures exit == Raised <==> used.Some? && fault != NoFault && !handlerCloseOk
  {
    var connectionMethods := ConnectionMethods(env);
    used := None;
    steps := [];
    for k := 0 to |connectionMethods|
      invariant used.None? && FirstConnected(connect, k) == None
    {
      if connect(k) {
        var first := FirstConnected(connect, |connectionMethods|);
        assert first.Some? && first.value == k;
        used := Some(connectionMethods[k]);
        break;
      }
    }
    if used.None? {
      return Returned(false), None, [];
    }
    if fault != CursorFails {
      steps := RunCommands(SqlCommands, execute);
    }
    if fault == NoFault {
      return Returned(true), used, steps;
    }
    if !handlerCloseOk {
      return Raised, used, steps;
    }
    return Returned(false), used, steps;
  }
}
