/** scripts/automated_sql_generator.py: a fixed table of eleven assignment
    steps, rendered three ways: one SQL script, a markdown guide, and one
    small SQL file per step (its name and its content). */
module SqlGenerator {
  import opened Text
  import opened TastyBytesSql
  import Sequences

  datatype Command = Command(step: nat, title: string, sql: string, description: string)

  /** The table `generate_sql_commands` returns: its "setup" and
      "verification" lists. */
  datatype Commands = Commands(setup: seq<Command>, verification: seq<Command>)

  /** A statement preceded by a one-line SQL comment. */
  function Commented(comment: string, statement: string): (s: string) {
    "-- " + (comment + ("\n" + statement))
  }

  const Step1: Command := Command(1, "Set Role and Warehouse",
    Commented("Set the Role", UseRole) + ("\n\n" + Commented("Set the Warehouse  ", UseWarehouse)),
    "This sets your session to use the ACCOUNTADMIN role and COMPUTE_WH warehouse")

  const Step2: Command := Command(2, "Create Database and Schema",
    Commented("Create the Tasty Bytes Database", CreateDatabase)
      + ("\n\n" + Commented("Create the Raw POS (Point-of-Sale) Schema", CreateSchema)),
    "Creates the main database and schema for our sample data")

  const Step3: Command := Command(3, "Create Menu Table",
    Commented("Create the Raw Menu Table", CreateMenuTable),
    "Creates the menu table with all required columns and data types")

  const Step4: Command := Command(4, "Verify Empty Table",
    Commented("Confirm the empty Menu table exists", SelectMenu),
    "Verifies the table was created (should return 0 rows initially)")

  const Step5: Command := Command(5, "Create S3 Stage",
    Commented("Create the Stage referencing the Blob location and CSV File Format", CreateStage),
    "Creates a stage that points to the S3 bucket containing our sample data")

  const Step6: Command := Command(6, "List Stage Files",
    Commented("Query the Stage to find the Menu CSV file", ListStage),
    "Lists the files available in the stage to verify data is accessible")

  const Step7: Command := Command(7, "Load Data into Table",
    Commented("Copy the Menu file into the Menu table", CopyMenu),
    "Loads the CSV data from S3 into our menu table")

  const Step8: Command := Command(8, "Count Total Rows",
    Commented("How many rows are in the table?", CountRows),
    "Shows the total number of menu items loaded")

  const Step9: Command := Command(9, "Show Sample Data",
    Commented("What do the top 10 rows look like?", TopTen),
    "Displays the first 10 rows to verify data structure")

  const Step10: Command := Command(10, "Group by Truck Brand",
    Commented("Group by truck brand name", GroupByBrand),
    "Shows which truck brands have the most menu items")

  const Step11: Command := Command(11, "Group by Truck Brand and Menu Type",
    Commented("Group by truck brand name and menu type", GroupByBrandAndType),
    "Shows menu item counts by truck brand and menu type")

  /** `generate_sql_commands`. */
  function GenerateSqlCommands(): (commands: Commands) {
    Commands([Step1, Step2, Step3, Step4, Step5, Step6, Step7], [Step8, Step9, Step10, Step11])
  }

  /** The setup list followed by the verification list. */
  function AllCommands(): (all: seq<Command>) {
    GenerateSqlCommands().setup + GenerateSqlCommands().verification
  }

  /** Setup holds steps 1 to 7 and verification steps 8 to 11: together the
      steps run 1, 2, ..., 11, so each appears once and in ascending order. */
  lemma StepsInOrder()
    ensures |GenerateSqlCommands().setup| == 7 && |GenerateSqlCommands().verification| == 4
    ensures |AllCommands()| == 11
    ensures forall k :: 0 <= k < 11 ==> AllCommands()[k].step == k + 1
    ensures forall j, k :: 0 <= j < k < 11 ==> AllCommands()[j].step < AllCommands()[k].step
  {
    assert AllCommands() == [Step1, Step2, Step3, Step4, Step5, Step6, Step7, Step8, Step9, Step10, Step11];
  }

  /** A commented statement holds the statement and ends with it. */
  lemma CommentedStatement(comment: string, statement: string)
    ensures EndsWith(Commented(comment, statement), statement)
    ensures Contains(Commented(comment, statement), statement)
  {
    var s := Commented(comment, statement);
    assert s == ("-- " + (comment + "\n")) + statement;
    assert s[|s| - |statement|..] == statement;
    assert OccursAt(statement, s, |s| - |statement|);
  }

  /** Each step's SQL holds the statements the connection scripts run, in
      the same order, each after its comment line: step 1 holds the first
      two setup statements and ends with the second, step 2 the next two,
      steps 3 to 7 end with one setup statement each, steps 8 to 11 with
      one verification query each. */
  lemma CommandsCarryStatements()
    ensures ThenEndsWith(Step1.sql, UseRole, UseWarehouse)
    ensures ThenEndsWith(Step2.sql, CreateDatabase, CreateSchema)
    ensures EndsWith(Step3.sql, CreateMenuTable) && EndsWith(Step4.sql, SelectMenu)
    ensures EndsWith(Step5.sql, CreateStage) && EndsWith(Step6.sql, ListStage)
    ensures EndsWith(Step7.sql, CopyMenu)
    ensures EndsWith(Step8.sql, CountRows) && EndsWith(Step9.sql, TopTen)
    ensures EndsWith(Step10.sql, GroupByBrand) && EndsWith(Step11.sql, GroupByBrandAndType)
  {
    PairCarriesStatements("Set the Role", UseRole, "Set the Warehouse  ", UseWarehouse);
    PairCarriesStatements("Create the Tasty Bytes Database", CreateDatabase,
      "Create the Raw POS (Point-of-Sale) Schema", CreateSchema);
    CommentedStatement("Create the Raw Menu Table", CreateMenuTable);
    CommentedStatement("Confirm the empty Menu table exists", SelectMenu);
    CommentedStatement("Create the Stage referencing the Blob location and CSV File Format", CreateStage);
    CommentedStatement("Query the Stage to find the Menu CSV file", ListStage);
    CommentedStatement("Copy the Menu file into the Menu table", CopyMenu);
    CommentedStatement("How many rows are in the table?", CountRows);
    CommentedStatement("What do the top 10 rows look like?", TopTen);
    CommentedStatement("Group by truck brand name", GroupByBrand);
    CommentedStatement("Group by truck brand name and menu type", GroupByBrandAndType);
  }

  /** Two commented statements separated by a blank line hold the first,
      and end with the second after the first has ended. */
  lemma PairCarriesStatements(comment1: string, statement1: string, comment2: string, statement2: string)
    ensures ThenEndsWith(Commented(comment1, statement1) + ("\n\n" + Commented(comment2, statement2)), statement1, statement2)
  {
    var first := Commented(comment1, statement1);
    var second := "\n\n" + Commented(comment2, statement2);
    CommentedStatement(comment1, statement1);
    CommentedStatement(comment2, statement2);
    var i := |first| - |statement1|;
    assert OccursAt(statement1, first, i);
    OccursAtExtend(statement1, first, second, i);
    EndsWithExtend("\n\n", Commented(comment2, statement2), statement2);
    EndsWithExtend(first, second, statement2);
    assert i + |statement1| <= |first + second| - |statement2|;
  }

  const DefaultResult := "Command executed successfully"

  /** The `expected_results` table. */
  const ExpectedResults: map<int, string> := map[
    1 := "Role and warehouse set successfully",
    2 := "Database and schema created successfully",
    3 := "Table created with proper structure",
    4 := "Empty table (0 rows) - this is expected",
    5 := "Stage created successfully",
    6 := "List of CSV files in the stage",
    7 := "Data loaded successfully (100+ rows)",
    8 := "Total row count (should be 100+)",
    9 := "Sample menu data with truck brands and prices",
    10 := "Truck brands ranked by menu item count",
    11 := "Truck brands and menu types with counts"]

  /** `get_expected_result`: the table's text for steps 1 to 11, the
      default for every other step; no step's own text is the default. */
  function ExpectedResult(step: int): (r: string)
    ensures 1 <= step <= 11 ==> step in ExpectedResults && r == ExpectedResults[step]
    ensures 1 <= step <= 11 <==> r != "Command executed successfully"
  {
    if step in ExpectedResults then ExpectedResults[step] else DefaultResult
  }

  /** Every step of the table has a text of its own. */
  lemma EveryStepHasExpectedResult()
    ensures |AllCommands()| == 11
    ensures forall k :: 0 <= k < 11 ==> ExpectedResult(AllCommands()[k].step) != DefaultResult
  {
    StepsInOrder();
  }

  /** The concatenation of `render(c)` over the commands, in list order. */
  function Render(render: Command -> string, cmds: seq<Command>): (text: string) {
    if cmds == [] then "" else Render(render, cmds[..|cmds| - 1]) + render(cmds[|cmds| - 1])
  }

  /** Rendering a concatenation renders each part in turn. */
  lemma {:induction false} RenderAppend(render: Command -> string, a: seq<Command>, b: seq<Command>)
    ensures Render(render, a + b) == Render(render, a) + Render(render, b)
    decreases |b|
  {
    if b != [] {
      var b' := b[..|b| - 1];
      var last := render(b[|b| - 1]);
      assert (a + b)[..|a + b| - 1] == a + b';
      assert (a + b)[|a + b| - 1] == b[|b| - 1];
      RenderAppend(render, a, b');
      calc {
        Render(render, a + b);
        Render(render, a + b') + last;
        (Render(render, a) + Render(render, b')) + last;
        Render(render, a) + (Render(render, b') + last);
        Render(render, a) + Render(render, b);
      }
    } else {
      assert a + b == a;
    }
  }

  /** Rendering one more command appends its text. */
  lemma RenderSnoc(render: Command -> string, cmds: seq<Command>, i: nat)
    requires i < |cmds|
    ensures Render(render, cmds[..i + 1]) == Render(render, cmds[..i]) + render(cmds[i])
  {
    assert cmds[..i + 1][..i] == cmds[..i];
  }

  /** Rendering a list renders the part before a cut, then the rest. */
  lemma RenderSplit(render: Command -> string, cmds: seq<Command>, j: nat)
    requires j <= |cmds|
    ensures Render(render, cmds) == Render(render, cmds[..j]) + Render(render, cmds[j..])
  {
    assert cmds == cmds[..j] + cmds[j..];
    RenderAppend(render, cmds[..j], cmds[j..]);
  }

  /** The i-th command's text sits between the texts of the commands
      before it and those after it. */
  lemma RenderAt(render: Command -> string, cmds: seq<Command>, i: nat)
    requires i < |cmds|
    ensures Render(render, cmds) == Render(render, cmds[..i]) + (render(cmds[i]) + Render(render, cmds[i + 1..]))
  {
    RenderSplit(render, cmds, i + 1);
    RenderSnoc(render, cmds, i);
    ConcatAssoc(Render(render, cmds[..i]), render(cmds[i]), Render(render, cmds[i + 1..]));
  }

  /** Two lists rendered one after the other behind a header: the k-th
      command's text starts right after the header and the texts of the k
      commands before it. */
  lemma RenderedInOrder(render: Command -> string, header: string, a: seq<Command>, b: seq<Command>, k: nat)
    requires k < |a + b|
    ensures OccursAt(header, header + Render(render, a) + Render(render, b), 0)
    ensures OccursAt(render((a + b)[k]), header + Render(render, a) + Render(render, b),
      |header + Render(render, (a + b)[..k])|)
  {
    var file := header + Render(render, a) + Render(render, b);
    var p := Render(render, (a + b)[..k]);
    var text := render((a + b)[k]);
    var post := Render(render, (a + b)[k + 1..]);
    Framed(header, Render(render, a), Render(render, b));
    assert file == header + (p + (text + post)) by {
      ConcatAssoc(header, Render(render, a), Render(render, b));
      RenderAppend(render, a, b);
      RenderAt(render, a + b, k);
    }
    assert file == (header + p) + (text + post) by {
      ConcatAssoc(header, p, text + post);
    }
    OccursAtMiddle(header + p, text, post);
  }

  const SqlHeader :=
    "-- Tasty Bytes Sample Data Setup - Complete Assignment\n"
    + "-- Copy and paste this entire block into Snowflake Worksheets\n"
    + "-- Make sure to click \"Run All\" (down arrow next to run button)\n"
    + "\n"

  /** The comment line that opens a step, in the complete file and in the
      step's own file. */
  function StepLine(c: Command): (line: string) {
    "-- Step " + (NatToString(c.step) + (": " + (c.title + "\n")))
  }

  /** One step of the complete SQL file: its comment line, then its SQL and
      a blank line. */
  function Block(c: Command): (block: string) {
    StepLine(c) + (c.sql + "\n\n")
  }

  /** One loop `for cmd in ...: text += render(cmd)` of the generators:
      the text grows by each command's rendering, in list order. */
  method AppendRendered(text: string, render: Command -> string, cmds: seq<Command>) returns (r: string)
    ensures r == text + Render(render, cmds)
  {
    r := text;
    for i := 0 to |cmds|
      invariant r == text + Render(render, cmds[..i])
    {
      assert r + render(cmds[i]) == text + Render(render, cmds[..i + 1]) by {
        RenderSnoc(render, cmds, i);
        ConcatAssoc(text, Render(render, cmds[..i]), render(cmds[i]));
      }
      r := r + render(cmds[i]);
    }
    assert cmds[..|cmds|] == cmds;
  }

  /** `generate_complete_sql_file`, given the table. */
  method GenerateCompleteSqlFile(commands: Commands) returns (completeSql: string)
    ensures completeSql == SqlHeader + Render(Block, commands.setup) + Render(Block, commands.verification)
  {
    completeSql := AppendRendered(SqlHeader, Block, commands.setup);
    completeSql := AppendRendered(completeSql, Block, commands.verification);
  }

  /** The complete file is the header and then one block per command,
      setup before verification and each list in order: the k-th block
      starts right after the header and the k blocks before it. */
  lemma CompleteSqlFileOrder(commands: Commands, k: nat)
    requires k < |commands.setup + commands.verification|
    ensures var all := commands.setup + commands.verification;
      var file := SqlHeader + Render(Block, commands.setup) + Render(Block, commands.verification);
      && OccursAt(SqlHeader, file, 0)
      && OccursAt(Block(all[k]), file, |SqlHeader + Render(Block, all[..k])|)
  {
    RenderedInOrder(Block, SqlHeader, commands.setup, commands.verification, k);
  }

  const GuideHeader :=
    "# Tasty Bytes Assignment - Step-by-Step Guide\n"
    + "\n"
    + "## Prerequisites\n"
    + "- Access to Snowflake web interface\n"
    + "- Logged in with ACCOUNTADMIN role\n"
    + "- COMPUTE_WH warehouse available\n"
    + "\n"
    + "## Instructions\n"
    + "\n"
    + "### Method 1: Quick Setup (Recommended)\n"
    + "1. Open Snowflake Worksheets\n"
    + "2. Copy the entire contents of `complete_assignment.sql`\n"
    + "3. Paste into a new worksheet\n"
    + "4. Click \"Run All\" (down arrow next to run button)\n"
    + "\n"
    + "### Method 2: Step-by-Step Execution\n"
    + "\n"

  const GuideFooter :=
    "\n"
    + "## Troubleshooting\n"
    + "\n"
    + "- **Permission Error**: Ensure you're using ACCOUNTADMIN role\n"
    + "- **Warehouse Error**: Check that COMPUTE_WH warehouse exists and is running\n"
    + "- **Stage Error**: Verify S3 URL is accessible from your Snowflake account\n"
    + "- **Copy Error**: Check that the file path in the stage is correct\n"
    + "\n"
    + "## Success Criteria\n"
    + "\n"
    + "After completing all steps, you should have:\n"
    + "- \U{2705} Database: tasty_bytes_sample_data\n"
    + "- \U{2705} Schema: raw_pos  \n"
    + "- \U{2705} Table: menu (with 100+ rows of data)\n"
    + "- \U{2705} Stage: blob_stage (pointing to S3)\n"
    + "- \U{2705} Verification queries showing sample data\n"
    + "\n"
    + "## Next Steps\n"
    + "\n"
    + "Once this assignment is complete, you'll be ready for:\n"
    + "- Data analysis and transformations\n"
    + "- Creating additional tables and schemas\n"
    + "- Working with Snowflake's advanced features\n"
    + "- Subsequent course assignments\n"

  function SectionHeading(c: Command): (heading: string) {
    "#### Step " + (NatToString(c.step) + (": " + c.title))
  }

  function SqlFence(c: Command): (fence: string) {
    "```sql\n" + (c.sql + "\n```")
  }

  /** One step of the guide. */
  function Section(c: Command): (section: string) {
    SectionHeading(c) + ("\n**Description:** " + (c.description + ("\n\n**SQL Command:**\n"
      + (SqlFence(c) + ("\n\n**Expected Result:** " + (ExpectedResult(c.step) + "\n\n---\n\n"))))))
  }

  /** A section opens with the step heading and holds the description, the
      SQL in a ```sql fence, and the step's expected result. */
  lemma SectionContents(c: Command)
    ensures OccursAt(SectionHeading(c), Section(c), 0)
    ensures Contains(Section(c), c.description)
    ensures Contains(Section(c), SqlFence(c))
    ensures Contains(Section(c), ExpectedResult(c.step))
  {
    var h := SectionHeading(c);
    var d1 := "\n**Description:** ";
    var d2 := "\n\n**SQL Command:**\n";
    var d3 := "\n\n**Expected Result:** ";
    var d4 := "\n\n---\n\n";
    var e := ExpectedResult(c.step);
    var f := SqlFence(c);
    var tail3 := d3 + (e + d4);
    var tail2 := d2 + (f + tail3);
    var tail1 := d1 + (c.description + tail2);
    OccursAtMiddle([], h, tail1);
    ContainsMiddle(d1, c.description, tail2);
    ContainsExtend(h, tail1, c.description);
    ContainsMiddle(d2, f, tail3);
    ContainsExtend(c.description, tail2, f);
    ContainsExtend(d1, c.description + tail2, f);
    ContainsExtend(h, tail1, f);
    ContainsMiddle(d3, e, d4);
    ContainsExtend(f, tail3, e);
    ContainsExtend(d2, f + tail3, e);
    ContainsExtend(c.description, tail2, e);
    ContainsExtend(d1, c.description + tail2, e);
    ContainsExtend(h, tail1, e);
  }

  /** `generate_step_by_step_guide`, given the table. */
  method GenerateStepByStepGuide(commands: Commands) returns (guide: string)
    ensures guide == GuideHeader + Render(Section, commands.setup)
      + Render(Section, commands.verification) + GuideFooter
  {
    guide := AppendRendered(GuideHeader, Section, commands.setup);
    guide := AppendRendered(guide, Section, commands.verification);
    guide := guide + GuideFooter;
  }

  /** Any guide opens with the fixed prerequisites and instructions and
      closes with the fixed troubleshooting and next-steps text. */
  lemma GuideFrame(body: string)
    ensures OccursAt(GuideHeader, GuideHeader + body + GuideFooter, 0)
    ensures EndsWith(GuideHeader + body + GuideFooter, GuideFooter)
  {
    Framed(GuideHeader, body, GuideFooter);
  }

  /** The per-step file name: "step_", the step in at least two digits,
      "_", the title lower-cased with spaces turned into '_', ".sql". */
  function StepFileName(c: Command): (name: string) {
    "step_" + (Pad2(c.step) + ("_" + (ReplaceChar(Lower(c.title), ' ', '_') + ".sql")))
  }

  /** The per-step file content: the step line, the description as a
      comment, a blank line, then the SQL with no newline after it. */
  function StepFileContent(c: Command): (content: string) {
    StepLine(c) + ("-- " + (c.description + ("\n\n" + c.sql)))
  }

  /** The step number can be read back from the file name, so commands
      with different steps get different files whatever their titles. */
  lemma StepFileNameInjective(c: Command, c': Command)
    requires StepFileName(c) == StepFileName(c')
    ensures c.step == c'.step
  {
    var rest := "_" + (ReplaceChar(Lower(c.title), ' ', '_') + ".sql");
    var rest' := "_" + (ReplaceChar(Lower(c'.title), ' ', '_') + ".sql");
    var n := StepFileName(c);
    assert n[5..] == Pad2(c.step) + rest;
    assert n[5..] == Pad2(c'.step) + rest';
    DigitsPrefixUnique(Pad2(c.step), rest, Pad2(c'.step), rest');
  }

  /** The name is "step_", the two-digit step number, '_', the title with
      each letter lower-cased and each space turned into '_', and ".sql". */
  lemma StepFileNameParts(c: Command)
    ensures var n := StepFileName(c);
      && |n| == 10 + |Pad2(c.step)| + |c.title|
      && n[..5] == "step_" && n[5..5 + |Pad2(c.step)|] == Pad2(c.step) && n[5 + |Pad2(c.step)|] == '_'
      && (forall i :: 0 <= i < |c.title| ==>
           n[6 + |Pad2(c.step)| + i] == (if c.title[i] == ' ' then '_' else LowerChar(c.title[i])))
      && n[|n| - 4..] == ".sql"
  {
    var t := ReplaceChar(Lower(c.title), ' ', '_');
    var p := Pad2(c.step);
    PiecesAt("step_", p, "_", t, ".sql");
    forall i | 0 <= i < |c.title|
      ensures t[i] == (if c.title[i] == ' ' then '_' else LowerChar(c.title[i]))
    {
    }
  }

  /** Where each piece of a + (p + (u + (t + x))) sits, u being one character. */
  lemma PiecesAt(a: string, p: string, u: string, t: string, x: string)
    requires |u| == 1
    ensures var n := a + (p + (u + (t + x)));
      && |n| == |a| + |p| + 1 + |t| + |x|
      && n[..|a|] == a && n[|a|..|a| + |p|] == p && n[|a| + |p|] == u[0]
      && (forall i :: 0 <= i < |t| ==> n[|a| + |p| + 1 + i] == t[i])
      && n[|n| - |x|..] == x
  {
    var n := a + (p + (u + (t + x)));
    assert n[..|a|] == a;
    assert n[|a|..|a| + |p|] == p;
    assert n[|n| - |x|..] == x;
  }

  /** Text with no space and no upper-case letter. */
  predicate NameSafe(s: string) {
    forall i :: 0 <= i < |s| ==> s[i] != ' ' && !('A' <= s[i] <= 'Z')
  }

  lemma NameSafeConcat(a: string, b: string)
    requires NameSafe(a) && NameSafe(b)
    ensures NameSafe(a + b)
  {
    forall i | 0 <= i < |a + b|
      ensures (a + b)[i] != ' ' && !('A' <= (a + b)[i] <= 'Z')
    {
      if i < |a| {
        assert (a + b)[i] == a[i];
      } else {
        assert (a + b)[i] == b[i - |a|];
      }
    }
  }

  /** The fixed pieces of a step file name. */
  lemma NameSafePieces()
    ensures NameSafe("step_") && NameSafe("_") && NameSafe(".sql")
  {
    assert "step_" == ['s', 't', 'e', 'p', '_'];
  }

  /** The name holds no space and no upper-case letter, and ends in ".sql". */
  lemma StepFileNameShape(c: Command)
    ensures ' ' !in StepFileName(c)
    ensures forall i :: 0 <= i < |StepFileName(c)| ==> !('A' <= StepFileName(c)[i] <= 'Z')
    ensures EndsWith(StepFileName(c), ".sql")
  {
    var p := Pad2(c.step);
    var t := ReplaceChar(Lower(c.title), ' ', '_');
    assert NameSafe(t) by {
      forall i | 0 <= i < |t|
        ensures t[i] != ' ' && !('A' <= t[i] <= 'Z')
      {
        assert t[i] == if Lower(c.title)[i] == ' ' then '_' else Lower(c.title)[i];
      }
    }
    assert NameSafe(p) by {
      forall i | 0 <= i < |p|
        ensures p[i] != ' ' && !('A' <= p[i] <= 'Z')
      {
        assert IsDigit(p[i]);
      }
    }
    NameSafePieces();
    NameSafeConcat(t, ".sql");
    NameSafeConcat("_", t + ".sql");
    NameSafeConcat(p, "_" + (t + ".sql"));
    NameSafeConcat("step_", p + ("_" + (t + ".sql")));
    var n := StepFileName(c);
    assert n == "step_" + (p + ("_" + (t + ".sql")));
    assert forall i :: 0 <= i < |n| ==> n[i] != ' ';
    assert EndsWith(t + ".sql", ".sql");
    EndsWithExtend("_", t + ".sql", ".sql");
    EndsWithExtend(p, "_" + (t + ".sql"), ".sql");
    EndsWithExtend("step_", p + ("_" + (t + ".sql")), ".sql");
  }

  /** A step's file starts with the same step line as its block in the
      complete SQL file, and ends with its SQL. */
  lemma StepFileContentShape(c: Command)
    ensures OccursAt(StepLine(c), StepFileContent(c), 0)
    ensures OccursAt(StepLine(c), Block(c), 0)
    ensures EndsWith(StepFileContent(c), c.sql)
  {
    OccursAtMiddle([], StepLine(c), "-- " + (c.description + ("\n\n" + c.sql)));
    OccursAtMiddle([], StepLine(c), c.sql + "\n\n");
    assert EndsWith(c.sql, c.sql);
    EndsWithExtend("\n\n", c.sql, c.sql);
    EndsWithExtend(c.description, "\n\n" + c.sql, c.sql);
    EndsWithExtend("-- ", c.description + ("\n\n" + c.sql), c.sql);
    EndsWithExtend(StepLine(c), "-- " + (c.description + ("\n\n" + c.sql)), c.sql);
  }

  /** The file `main` writes for a step: its name and its content. */
  function StepFile(c: Command): (file: (string, string)) {
    (StepFileName(c), StepFileContent(c))
  }

  /** Commands with pairwise different steps get pairwise different file
      names. */
  lemma StepFileNamesDistinct(all: seq<Command>)
    requires forall j, k :: 0 <= j < k < |all| ==> all[j].step != all[k].step
    ensures forall j, k :: 0 <= j < k < |all| ==> StepFile(all[j]).0 != StepFile(all[k]).0
  {
    forall j, k | 0 <= j < k < |all| && StepFile(all[j]).0 == StepFile(all[k]).0
      ensures false
    {
      StepFileNameInjective(all[j], all[k]);
    }
  }

  /** The file-writing loops of `main`, given the table: the (name,
      content) pairs it writes, setup steps first, then verification
      steps. */
  method GenerateStepFiles(commands: Commands) returns (files: seq<(string, string)>)
    ensures var all := commands.setup + commands.verification;
      && |files| == |all|
      && forall k :: 0 <= k < |all| ==> files[k] == StepFile(all[k])
  {
    files := Sequences.AppendEach([], commands.setup, StepFile);
    var n := |files|;
    files := Sequences.AppendEach(files, commands.verification, StepFile);
    var all := commands.setup + commands.verification;
    forall k | 0 <= k < |all|
      ensures files[k] == StepFile(all[k])
    {
      if k < n {
        assert files[k] == files[..n][k];
      } else {
        assert files[n + (k - n)] == StepFile(commands.verification[k - n]);
      }
    }
  }
}
