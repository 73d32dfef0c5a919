# Tasty Bytes scripts: a Dafny model

The repository is a set of Python scripts around a Snowflake account. They
load the "Tasty Bytes" sample data and generate SQL and markdown for the
assignment. They also build the training table of a food truck's
neighbourhood visiting schedule. This project models the logic the scripts
compute themselves, and proves what that logic promises:

- **The visiting schedule** (`create_neighborhood_pattern`, in two copies).
  A dict maps every (month, day) of a non-leap year to a neighbourhood:
  - January: 1 on days 1, 8, 15, 22 and 29, 2 on the other days;
  - February to November: `((day - 1) % 7) + 1`;
  - December: 8.

  `create_training_data_table` renders each entry as a `(month, day,
  neighborhood)` tuple and sends them in INSERT statements of at most 100
  tuples each. The two copies are proved to build the same dict.
- **The assignment generator** (`automated_sql_generator.py`). A fixed table
  of eleven steps is rendered three ways:
  - one SQL script;
  - a markdown guide;
  - one file per step, of which the name and the content are modelled.

  A step number is also looked up, with a default, in a table of expected
  results.
- **The connection scripts.** These cover:
  - the configuration read from the environment (`snowflake_config.py`);
  - the account spellings tried by `test_connection.py` and
    `snowflake_direct_connection.py`, each trying candidates in order until
    one connects;
  - the statement runner of `scripts/snowflake_password_connection.py`,
    which classifies each result and counts successes.

The environment is a map from variable names to strings: an unset variable
is an absent key. `ACCOUNT_INFO` in `snowflake_config.py` is a constant
record (`Config.AccountInfoConst`) that reads nothing from the environment.
The Snowflake driver is not modelled. Its behaviour comes in as parameters,
shaped as each script uses it:

- `test_connection.py`: `probe(k)` says how the k-th attempt ends.
  `connect` raises, or the version query raises, or the version comes back.
- `snowflake_direct_connection.py`:
  - `connect(k)` says whether the k-th connection method connects;
  - `execute(k)` says whether the k-th statement runs;
  - one `fault` covers the session: `conn.cursor()` raises, a closing
    `close()` raises, or neither;
  - `handlerCloseOk` says whether the `conn.close()` in the outer `except`
    returns.
- `scripts/snowflake_password_connection.py`:
  - one `connectOk` says whether its single `connect` call succeeds;
  - `outcome(k)` says what the k-th call of `execute_sql_script` runs into.

A Python dict is a `Dict`: its keys in
insertion order plus a map. The loops that fill a dict, grow a string or
count successes are `method`s with loop invariants. Each is proved against
a specification function: `PatternThrough`, `Render`, `Batches` or
`CountSuccesses`. The properties are lemmas about those functions.

Modules, one per file: `Wrappers` (Option), `Text` (decimal rendering,
`str.lower`, `str.replace`, `str.split`, `str.join`, substring facts),
`Sequences`, `OrderedDict`, `Calendar`, `TrainingData`, `SnowparkMl`,
`TastyBytesSql` (the setup statements the scripts share), `SqlGenerator`,
`Config`, `TestConnection`, `DirectConnection` and `PasswordConnection`.

## Model

| member | source | states |
|---|---|---|
| TrainingData.CreateNeighborhoodPattern | scripts/create_ml_training_data.py:40-58 | the nested month/day loops build `PatternThrough(12)`, and the result is a valid dict whose keys are the year's dates in month-then-day order, each holding `Rule` of its date |
| TrainingData.MonthPatternFilled | scripts/create_ml_training_data.py:47-56 | the inner loop over a month's days appends that month's dates, in day order, to the keys and keeps every entry following the rule |
| TrainingData.PatternThroughFilled | scripts/create_ml_training_data.py:45-56 | after m months the keys are exactly the dates of months 1..m, in order, and every entry follows the rule |
| TrainingData.PatternCoversYear | scripts/create_ml_training_data.py:42-47 | the pattern has exactly 365 entries, and its keys are exactly the calendar dates of a non-leap year (February has 28 days) |
| TrainingData.PatternJanuary | scripts/create_ml_training_data.py:48-52 | every January day 1..31 is a key; it maps to 1 on days 1, 8, 15, 22 and 29 and to 2 otherwise |
| TrainingData.PatternFebruaryToNovember | scripts/create_ml_training_data.py:53-54 | months 2..11 map to `((day - 1) % 7) + 1`, in 1..7; days 1..7 map to themselves; a day and the day a week later map alike |
| TrainingData.PatternDecember | scripts/create_ml_training_data.py:55-56 | an entry is 8 exactly when its month is December |
| TrainingData.PatternRange | scripts/create_ml_training_data.py:48-56 | every neighbourhood lies in 1..8 |
| TrainingData.PatternOrder | scripts/create_ml_training_data.py:91 | `pre.items()` lists the dates in strict calendar order: month ascending, then day ascending |
| TrainingData.PatternJanuaryItems | scripts/create_ml_training_data.py:91 | the first 31 items are January's days 1..31 in order, each with its neighbourhood |
| TrainingData.PatternFirstItems | scripts/create_ml_training_data.py:91 | the first five items are (1, 1) -> 1 and (1, 2)..(1, 5) -> 2 |
| TrainingData.TupleTextInjective | scripts/create_ml_training_data.py:92 | two entries with non-negative numbers render to the same `"(month, day, neighborhood)"` text only when they are equal |
| TrainingData.RenderValues | scripts/create_ml_training_data.py:90-92 | `values` has one tuple text per item, in item order |
| TrainingData.BatchesFlatten | scripts/create_ml_training_data.py:95-97 | concatenating the batches gives `values` back, in order |
| TrainingData.BatchesShape | scripts/create_ml_training_data.py:95-97 | there are ceil(len(values) / 100) batches, each holding 1 to 100 values |
| TrainingData.BatchesAt | scripts/create_ml_training_data.py:96-97 | batch k is the slice `values[100k : 100k + 100]`, cut at the end of `values` |
| TrainingData.BatchInserts | scripts/create_ml_training_data.py:95-102 | the loop stepping `i` by 100 produces exactly `Batches(values)`, one INSERT per batch whose VALUES list is the batch joined with ", " |
| TrainingData.InsertStatements | scripts/create_ml_training_data.py:90-102 | one tuple text per item, in order, then ceil(n / 100) INSERTs, the k-th over batch k |
| TrainingData.PatternBatchCount | scripts/create_ml_training_data.py:95-97 | the 365 items fill exactly four batches |
| TrainingData.CreateTrainingDataInserts | scripts/create_ml_training_data.py:84-102 | steps [3] and [4]: the pattern, its 365 tuple texts in insertion order, and four INSERTs that load them |
| SnowparkMl.CreateNeighborhoodPattern | scripts/snowpark_ml_assignment.py:15-47 | the second copy's loops build its `PatternThrough(12)`: the year's dates in order, each holding `Branches` of its date |
| SnowparkMl.CycleIsFormula | scripts/snowpark_ml_assignment.py:37-41 | the seven-day cycle the comment describes (1st -> 1 .. 7th -> 7, 8th -> 1 again) is the formula `((day - 1) % 7) + 1` |
| SnowparkMl.BranchesAsDescribed | scripts/snowpark_ml_assignment.py:16-45 | on every calendar date the branch chain gives what the doc comment describes, a value in 1..8 |
| SnowparkMl.PatternAsDescribed | scripts/snowpark_ml_assignment.py:23-45 | 365 entries keyed by the calendar dates, each as the doc comment describes and in 1..8 |
| SnowparkMl.PatternCycle | scripts/snowpark_ml_assignment.py:37-41 | in every month from February to November the 1st maps to 1, the 7th to 7 and the 8th back to 1 |
| SnowparkMl.SampleEntries | scripts/snowpark_ml_assignment.py:67 | the printed sample `list(pre.items())[:5]` is (1, 1) -> 1 and (1, 2)..(1, 5) -> 2 |
| SnowparkMl.CopiesAgree | scripts/snowpark_ml_assignment.py:15-47 | the two copies of `create_neighborhood_pattern` build the same dict: same keys in the same order, same values |
| Calendar.DatesThroughOrdered | scripts/create_ml_training_data.py:45-47 | the dates the loops visit come in strict calendar order, so none repeats |
| Calendar.YearDates | scripts/create_ml_training_data.py:42-47 | the loops visit 365 dates, from (1, 1) to (12, 31), and exactly the calendar dates |
| Sequences.AppendEach | scripts/create_ml_training_data.py:90-92 | the `for x in xs: out.append(f(x))` loop keeps what was there and adds `f(x)` for each x in order (also the step-file loop of `automated_sql_generator.py`) |
| Text.ParseNatToString | scripts/create_ml_training_data.py:92 | decimal rendering of a number (`str(n)`) parses back to the number |
| Text.JoinSplit | test_connection.py:28-29 | joining the pieces of `account.split('-')` with '-' gives the account back, so the split loses nothing |
| Text.SplitFirst | test_connection.py:28 | `s.split('-')[0]` is the longest prefix of s without '-' |
| Text.SplitSecond | test_connection.py:29 | `s.split('-')[1]` is the text after the first '-' up to the next '-' or the end |
| SqlGenerator.StepsInOrder | scripts/automated_sql_generator.py:12-125 | setup holds 7 commands and verification 4; in order their steps are 1, 2, ..., 11, so each step appears once and they ascend |
| SqlGenerator.CommandsCarryStatements | scripts/automated_sql_generator.py:12-125 | each step's SQL carries the statements the connection scripts run, in the same order: steps 1 and 2 hold their first statement and end with their second after it; steps 3..11 end with their one statement |
| SqlGenerator.ExpectedResult | scripts/automated_sql_generator.py:238-255 | steps 1..11 get their own text from the table; exactly those steps get a text other than "Command executed successfully" |
| SqlGenerator.EveryStepHasExpectedResult | scripts/automated_sql_generator.py:242-255 | every step of the table has a text of its own, never the default |
| SqlGenerator.AppendRendered | scripts/automated_sql_generator.py:142-149 | a `for cmd in ...: text += ...` loop yields the text followed by the commands' renderings in list order |
| SqlGenerator.GenerateCompleteSqlFile | scripts/automated_sql_generator.py:129-151 | the file is the fixed header, then the setup blocks, then the verification blocks |
| SqlGenerator.CompleteSqlFileOrder | scripts/automated_sql_generator.py:135-149 | the file starts with the header, and the k-th command's block `-- Step n: title\n` + sql + `\n\n` starts right after the header and the k blocks before it |
| SqlGenerator.RenderedInOrder | scripts/automated_sql_generator.py:142-149 | for any header and any two command lists, the k-th rendering starts right after the header and the k renderings before it |
| SqlGenerator.SectionContents | scripts/automated_sql_generator.py:180-192 | a guide section opens with its step heading and contains the description, the SQL inside a ```sql fence, and `get_expected_result(step)` |
| SqlGenerator.GenerateStepByStepGuide | scripts/automated_sql_generator.py:153-236 | the guide is the fixed header, the setup sections, the verification sections, then the fixed footer |
| SqlGenerator.GuideFrame | scripts/automated_sql_generator.py:159-234 | any guide begins with the fixed prerequisites and instructions and ends with the fixed troubleshooting and next-steps text |
| SqlGenerator.StepFileNameParts | scripts/automated_sql_generator.py:280 | the file name is "step_", the step in at least two digits, "_", the title lower-cased with spaces turned into "_", then ".sql" |
| SqlGenerator.StepFileNameShape | scripts/automated_sql_generator.py:280 | a file name holds no space and no upper-case letter, and ends in ".sql" |
| SqlGenerator.StepFileNameInjective | scripts/automated_sql_generator.py:280 | the step number can be read back from the file name, so different steps give different names |
| SqlGenerator.StepFileNamesDistinct | scripts/automated_sql_generator.py:278-285 | commands with pairwise different steps are written to pairwise different files |
| SqlGenerator.StepFileContentShape | scripts/automated_sql_generator.py:282-284 | a step file starts with the same step line as the step's block in the complete file and ends with the step's SQL, with no newline added |
| SqlGenerator.GenerateStepFiles | scripts/automated_sql_generator.py:278-285 | one (name, content) pair per command, setup first, then verification, in list order |
| Config.ConfigOf | snowflake_config.py:11-19 | account, user and password are the variables as set, absent when unset; role, warehouse, database and schema fall back to their defaults only when unset |
| Config.ConfigDefaults | snowflake_config.py:11-19 | with none of its variables set, the configuration has no credentials and all four defaults |
| Config.ConfigKeepsEmptyValues | snowflake_config.py:15-16 | a role or warehouse set to "" is used as it is, not replaced by the default |
| Config.ConfigIgnoresOtherVars | snowflake_config.py:11-19 | variables other than the seven named ones do not affect the configuration |
| Config.AccountUrl | snowflake_config.py:22 | the URL exists exactly when SNOWFLAKE_ACCOUNT is set and non-empty, and is then the account + ".snowflakecomputing.com" |
| Config.AccountUrlRecoversAccount | snowflake_config.py:22 | the configured account is read back from the URL by dropping the host suffix |
| Config.RequiredPresentIff | test_connection.py:21 | `all([user, password, account])` holds exactly when the three variables are set and non-empty |
| TestConnection.AccountFormats | test_connection.py:26-31 | four candidates; the first is the account; the fourth has every '-' turned into '.' and nothing else changed |
| TestConnection.AccountFormatsWithDash | test_connection.py:28-29 | with a '-', the second candidate is the text before the first '-', the third the text after it up to the next '-' or the end |
| TestConnection.AccountFormatsWithoutDash | test_connection.py:28-30 | without a '-', all four candidates are the account itself |
| TestConnection.AttemptsFirstSuccess | test_connection.py:33-58 | candidates are tried in list order; every tried one except the last failed; the result is the last tried when it answered; None only after all four failed |
| TestConnection.RetriesSameAccount | test_connection.py:26-58 | an account without '-' whose attempts all fail is tried four times, as the same string |
| TestConnection.TestConnection | test_connection.py:9-58 | None with no attempt when a credential is missing or empty; otherwise the attempts and result of `Attempts` |
| DirectConnection.ConnectionMethods | snowflake_direct_connection.py:15-40 | three methods; method 1 uses SNOWFLAKE_ACCOUNT as it is; methods 2 and 3 use "" when it is unset or empty; all share user, password and the role/warehouse defaults |
| DirectConnection.MethodAccounts | snowflake_direct_connection.py:26-34 | method 2 uses the text before the first '-' (all of it when there is none), method 3 the account followed by ".us-west-2" |
| DirectConnection.FirstConnected | snowflake_direct_connection.py:45-60 | the first successful connection attempt, when any: every earlier attempt failed |
| DirectConnection.RunCommands | snowflake_direct_connection.py:114-132 | every statement is attempted once, in order, numbered from 1, whether or not earlier ones failed |
| DirectConnection.ConnectAndRunSql | snowflake_direct_connection.py:9-143 | the first method that connects is used. With none, it returns False and runs no SQL. Once connected, all 13 statements run unless `cursor()` raises. It returns True exactly when neither the cursor nor a close raises. An exception escapes exactly when one of them raised and then the handler's own `conn.close()` raised; otherwise it returns False |
| PasswordConnection.ExecuteSqlScript | scripts/snowflake_password_connection.py:42-71 | the rows when some were fetched; [] when none came back or `fetchall` raised; False when the cursor or `execute` raised; never True |
| PasswordConnection.ExecuteSqlScriptTruthy | scripts/snowflake_password_connection.py:53-71 | the result is truthy exactly when rows were fetched |
| PasswordConnection.CountSuccessesBound | scripts/snowflake_password_connection.py:138-141 | 0 <= success_count <= the number of scripts, with equality exactly when every script fetched rows |
| PasswordConnection.CountSuccessesStep | scripts/snowflake_password_connection.py:138-141 | each call adds one to `success_count` exactly when it fetched at least one row, and nothing otherwise |
| PasswordConnection.CountIgnoresEmptyResults | scripts/snowflake_password_connection.py:138-141 | a script that runs without rows, or whose fetch raises, leaves the count as it was, whatever the other scripts did |
| PasswordConnection.NoRowsCountNothing | scripts/snowflake_password_connection.py:138-141 | when no script fetches rows, `success_count` stays 0 |
| PasswordConnection.CountOnlyFirst | scripts/snowflake_password_connection.py:176-177 | the count depends only on the setup scripts' calls, so the verification queries after them cannot change it |
| PasswordConnection.ConnectToSnowflake | scripts/snowflake_password_connection.py:10-40 | a connection exactly when the three credentials are set and non-empty and `connect` succeeds, made with the configuration's parameters |
| PasswordConnection.ConnectionCredentials | scripts/snowflake_password_connection.py:24-25 | a connection is only opened with user, password and account set and non-empty |
| PasswordConnection.ExecuteScripts | scripts/snowflake_password_connection.py:138-141 | each script goes to `execute_sql_script` once, in order, and the count grows by one per truthy result |
| PasswordConnection.ExecuteSetupAndQueries | scripts/snowflake_password_connection.py:137-177 | the setup scripts run first, then the verification queries; only the setup results are counted |
| PasswordConnection.SetupTastyBytesData | scripts/snowflake_password_connection.py:73-182 | False exactly when no connection was made, with nothing run; otherwise the 9 scripts then the 4 queries run in order, and the count is that of the 9 scripts, at most 9 |

## Left out

- Printing, `load_dotenv`, the `.env` file and every `open(...).write` call are I/O. The model keeps the strings that would be written and the values returned.
- The Snowflake driver is not modelled. Its calls become the parameters listed above: some are indexed by call number (`probe`, `connect`, `execute`, `outcome`), others are one value for a whole session (`fault`, `handlerCloseOk`, `connectOk`). What is fetched is kept only as far as the scripts look at it: its emptiness and the rows returned.
- TrainingData.CreateTrainingDataInserts models only steps [3] and [4] of `create_training_data_table` (scripts/create_ml_training_data.py:84-102). These parts of the function are not modelled, because they only pass fixed text to the driver or print what it returns:
  - its `connect_to_snowflake()` call and the `return False` when that gives no connection (:62-64);
  - steps [1] and [2] (:66-82), which send fixed DDL;
  - steps [5] to [7] (:106-128), which run the count, sample and distribution queries and print what `fetchone`/`fetchall` return;
  - the `return True` (:131), the `except` path (:133-137) and the `finally` closes (:138-140).
- The ML training in scripts/snowpark_ml_assignment.py (Snowpark session, label encoding, random split, XGBoost, float accuracy) is a foreign library working on floating point, so it is not modelled. Only `create_neighborhood_pattern` and its printed sample are.
- The other `connect_to_snowflake` copies in the repository and the quiz, debug and exploration scripts are driver pass-through. They are not part of this model.
- Text.Lower: `str.lower` is modelled on ASCII letters only. Other characters are left unchanged.
- Command.step is a `nat`: every step in the table is positive, so the rendering of negative step numbers is not modelled.
- SqlGenerator.GenerateCompleteSqlFile, SqlGenerator.GenerateStepByStepGuide and SqlGenerator.GenerateStepFiles take the command table as a parameter. The script calls `generate_sql_commands()` inside each function; the model applies them to any table, `GenerateSqlCommands()` being the script's own. The texts of the script's own table are stated by StepsInOrder, CommandsCarryStatements and EveryStepHasExpectedResult.
- The `description` field of the password script's statements is only printed, so only the SQL text of each statement is kept.
- DirectConnection.ConnectAndRunSql: the printing of fetched results is not modelled. A close that raises after the loop is one fault (CloseFails), whether it is the cursor's close or the connection's. A `fetchall` that raises is not told apart from one that returns, since both lead to the next statement.
- PasswordConnection.SetupTastyBytesData: `conn.close()` at the end is assumed not to raise. The cursors `execute_sql_script` opens are never closed on the success path, and the model does not track cursors.
- TestConnection.TestConnection: the connection and cursor closes after a successful query are assumed not to raise (a raise there would count the candidate as failed).
