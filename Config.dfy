/** snowflake_config.py: connection parameters read from the process
    environment, with defaults, plus the `all([user, password, account])`
    check the connection scripts share. */
module Config {
  import opened Wrappers

  /** The process environment: a variable is absent or set to a string,
      which may be empty. */
  type Env = map<string, string>

  const AccountVar := "SNOWFLAKE_ACCOUNT"
  const UserVar := "SNOWFLAKE_USER"
  const PasswordVar := "SNOWFLAKE_PASSWORD"
  const RoleVar := "SNOWFLAKE_ROLE"
  const WarehouseVar := "SNOWFLAKE_WAREHOUSE"
  const DatabaseVar := "SNOWFLAKE_DATABASE"
  const SchemaVar := "SNOWFLAKE_SCHEMA"

  const DefaultRole := "ACCOUNTADMIN"
  const DefaultWarehouse := "COMPUTE_WH"
  const DefaultDatabase := "SNOWFLAKE"
  const DefaultSchema := "INFORMATION_SCHEMA"

  /** `os.getenv(name)`: None when the variable is unset. */
  function Getenv(env: Env, name: string): (v: Option<string>) {
    if name in env then Some(env[name]) else None
  }

  /** `os.getenv(name, default)`: the default only when the variable is
      unset; a variable set to "" gives "". */
  function GetenvOr(env: Env, name: string, default: string): (v: string) {
    if name in env then env[name] else default
  }

  /** Python truthiness of an optional string: set and non-empty. */
  predicate Truthy(v: Option<string>) {
    v.Some? && v.value != ""
  }

  /** `all([user, password, account])` over the three required variables. */
  predicate RequiredPresent(env: Env) {
    forall v :: v in [Getenv(env, UserVar), Getenv(env, PasswordVar), Getenv(env, AccountVar)] ==> Truthy(v)
  }

  /** `all(...)` holds exactly when each of the three variables is set and non-empty. */
  lemma RequiredPresentIff(env: Env)
    ensures RequiredPresent(env) <==>
      && UserVar in env && env[UserVar] != ""
      && PasswordVar in env && env[PasswordVar] != ""
      && AccountVar in env && env[AccountVar] != ""
  {
    var vs := [Getenv(env, UserVar), Getenv(env, PasswordVar), Getenv(env, AccountVar)];
    assert vs[0] in vs && vs[1] in vs && vs[2] in vs;
  }

  datatype SnowflakeConfig = SnowflakeConfig(
    account: Option<string>,
    user: Option<string>,
    password: Option<string>,
    role: string,
    warehouse: string,
    database: string,
    schema: string)

  /** `SNOWFLAKE_CONFIG`. */
  function ConfigOf(env: Env): (c: SnowflakeConfig)
    ensures c.account.Some? <==> AccountVar in env
    ensures c.user.Some? <==> UserVar in env
    ensures c.password.Some? <==> PasswordVar in env
    ensures AccountVar in env ==> c.account.value == env[AccountVar]
    ensures UserVar in env ==> c.user.value == env[UserVar]
    ensures PasswordVar in env ==> c.password.value == env[PasswordVar]
    ensures c.role == if RoleVar in env then env[RoleVar] else "ACCOUNTADMIN"
    ensures c.warehouse == if WarehouseVar in env then env[WarehouseVar] else "COMPUTE_WH"
    ensures c.database == if DatabaseVar in env then env[DatabaseVar] else "SNOWFLAKE"
    ensures c.schema == if SchemaVar in env then env[SchemaVar] else "INFORMATION_SCHEMA"
  {
    SnowflakeConfig(
      Getenv(env, AccountVar),
      Getenv(env, UserVar),
      Getenv(env, PasswordVar),
      GetenvOr(env, RoleVar, DefaultRole),
      GetenvOr(env, WarehouseVar, DefaultWarehouse),
      GetenvOr(env, DatabaseVar, DefaultDatabase),
      GetenvOr(env, SchemaVar, DefaultSchema))
  }

  /** The variables the configuration reads. */
  const ConfigVars: set<string> :=
    {AccountVar, UserVar, PasswordVar, RoleVar, WarehouseVar, DatabaseVar, SchemaVar}

  /** With none of its variables set, the configuration is all defaults
      and has no credentials. */
  lemma ConfigDefaults(env: Env)
    requires forall name :: name in ConfigVars ==> name !in env
    ensures ConfigOf(env) == SnowflakeConfig(None, None, None,
      "ACCOUNTADMIN", "COMPUTE_WH", "SNOWFLAKE", "INFORMATION_SCHEMA")
  {
    assert AccountVar in ConfigVars && UserVar in ConfigVars && PasswordVar in ConfigVars;
    assert RoleVar in ConfigVars && WarehouseVar in ConfigVars;
    assert DatabaseVar in ConfigVars && SchemaVar in ConfigVars;
  }

  /** A role or warehouse set to the empty string is used as it is, not
      replaced by the default. */
  lemma ConfigKeepsEmptyValues(env: Env)
    requires RoleVar in env && env[RoleVar] == ""
    requires WarehouseVar in env && env[WarehouseVar] == ""
    ensures ConfigOf(env).role == "" && ConfigOf(env).warehouse == ""
  {
  }

  /** Variables other than the seven it names do not affect the configuration. */
  lemma ConfigIgnoresOtherVars(env: Env, name: string, value: string)
    requires name !in ConfigVars
    ensures ConfigOf(env[name := value]) == ConfigOf(env)
  {
    assert name != AccountVar && name != UserVar && name != PasswordVar;
    assert name != RoleVar && name != WarehouseVar && name != DatabaseVar && name != SchemaVar;
  }

  const AccountHost := ".snowflakecomputing.com"

  /** `ACCOUNT_URL`: the account's host name when SNOWFLAKE_ACCOUNT is set
      and non-empty, None otherwise. */
  function AccountUrl(env: Env): (url: Option<string>)
    ensures url.Some? <==> AccountVar in env && env[AccountVar] != ""
    ensures url.Some? ==> url.value == env[AccountVar] + ".snowflakecomputing.com"
  {
    if Truthy(Getenv(env, AccountVar)) then Some(env[AccountVar] + AccountHost) else None
  }

  /** The account can be read back from the URL by dropping the host suffix. */
  lemma AccountUrlRecoversAccount(env: Env)
    requires AccountUrl(env).Some?
    ensures var u := AccountUrl(env).value;
      |u| > |AccountHost| && u[|u| - |AccountHost|..] == AccountHost
      && u[..|u| - |AccountHost|] == ConfigOf(env).account.value
  {
    var a := env[AccountVar];
    assert AccountUrl(env).value == a + AccountHost;
    assert (a + AccountHost)[..|a|] == a;
    assert (a + AccountHost)[|a|..] == AccountHost;
  }

  datatype AccountInfo = AccountInfo(cloudPlatform: string, edition: string)

  /** `ACCOUNT_INFO`: fixed, whatever the environment. */
  const AccountInfoConst := AccountInfo("AWS", "Standard")
}
