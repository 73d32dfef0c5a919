/** scripts/create_ml_training_data.py: the truck's neighbourhood visiting
    schedule, rendered as VALUES tuples and loaded in INSERT batches of 100.
    The cursor is abstracted away: the model returns the statements the
    script executes, in order. */
module TrainingData {
  import opened Wrappers
  import opened Text
  import opened Calendar
  import opened OrderedDict
  import Sequences

  /** The branch chain that assigns a neighbourhood to (month, day), or None
      where no branch applies (a month above 12, which the loops never reach).
      Python's `%` by 7 and Dafny's agree on every integer. */
  function Rule(month: int, day: int): (r: Option<int>) {
    if month == 1 then (if day % 7 == 1 then Some(1) else Some(2))
    else if month <= 11 then Some((day - 1) % 7 + 1)
    else if month == 12 then Some(8)
    else None
  }

  /** Every entry holds the neighbourhood the branch chain gives its date. */
  ghost predicate FollowsRule(entries: map<Date, int>) {
    forall d :: d in entries ==> Rule(d.0, d.1) == Some(entries[d])
  }

  lemma FollowsRuleUpdate(entries: map<Date, int>, k: Date, v: int)
    requires FollowsRule(entries) && Rule(k.0, k.1) == Some(v)
    ensures FollowsRule(entries[k := v])
  {
  }

  /** One pass of the inner loop: the branch chain's neighbourhood for
      (month, day) is stored, and nothing when no branch applies. */
  function Assign(pre: Dict<Date, int>, month: int, day: int): (post: Dict<Date, int>) {
    match Rule(month, day)
    case Some(v) => pre.Put((month, day), v)
    case None => pre
  }

  /** The inner loop's first n passes over `month`, starting from `base`. */
  function MonthPattern(base: Dict<Date, int>, month: int, n: nat): (pre: Dict<Date, int>) {
    if n == 0 then base else Assign(MonthPattern(base, month, n - 1), month, n)
  }

  /** The outer loop's first m passes, starting from `{}`. */
  function PatternThrough(m: nat): (pre: Dict<Date, int>)
    requires m <= 12
  {
    if m == 0 then Empty() else MonthPattern(PatternThrough(m - 1), m, MonthDays[m - 1])
  }

  /** After n passes over month i + 1 the dict lists the earlier months and
      then days 1..n of this one, each as the branch chain says. */
  lemma {:induction false} MonthPatternFilled(base: Dict<Date, int>, i: nat, n: nat)
    requires i < 12
    requires base.Valid() && base.keys == DatesThrough(i) && FollowsRule(base.entries)
    ensures var pre := MonthPattern(base, i + 1, n);
      pre.Valid() && pre.keys == DatesThrough(i) + MonthDates(i + 1, n) && FollowsRule(pre.entries)
  {
    if n == 0 {
      assert DatesThrough(i) + MonthDates(i + 1, 0) == DatesThrough(i);
    } else {
      MonthPatternFilled(base, i, n - 1);
      AssignFilled(MonthPattern(base, i + 1, n - 1), i, n);
    }
  }

  /** One pass of the inner loop appends day n of month i + 1 with the
      neighbourhood the branch chain gives it. */
  lemma AssignFilled(before: Dict<Date, int>, i: nat, n: nat)
    requires i < 12 && 1 <= n
    requires before.Valid() && before.keys == DatesThrough(i) + MonthDates(i + 1, n - 1) && FollowsRule(before.entries)
    ensures var after := Assign(before, i + 1, n);
      after.Valid() && after.keys == DatesThrough(i) + MonthDates(i + 1, n) && FollowsRule(after.entries)
  {
    DatesStep(i, n);
    var v := Rule(i + 1, n).value;
    FollowsRuleUpdate(before.entries, (i + 1, n), v);
    assert Assign(before, i + 1, n) == before.Put((i + 1, n), v);
  }

  /** After m passes of the outer loop the dict lists months 1..m, each
      date as the branch chain says. */
  lemma {:induction false} PatternThroughFilled(m: nat)
    requires m <= 12
    ensures var pre := PatternThrough(m);
      pre.Valid() && pre.keys == DatesThrough(m) && FollowsRule(pre.entries)
  {
    if m > 0 {
      PatternThroughFilled(m - 1);
      MonthPatternFilled(PatternThrough(m - 1), m - 1, MonthDays[m - 1]);
    }
  }

  /** What `create_neighborhood_pattern` returns: every date of the year in
      calendar order, each mapped as the branch chain says. */
  ghost predicate IsPattern(pre: Dict<Date, int>) {
    && pre.Valid()
    && pre.keys == DatesThrough(12)
    && FollowsRule(pre.entries)
  }

  /** `create_neighborhood_pattern`: fills the dict month by month, day by day. */
  method CreateNeighborhoodPattern() returns (pre: Dict<Date, int>)
    ensures pre == PatternThrough(|MonthDays|)
    ensures IsPattern(pre)
  {
    pre := Empty();
    for i := 0 to |MonthDays|
      invariant pre == PatternThrough(i)
    {
      var monthLength := MonthDays[i];
      var month := i + 1;
      for day := 1 to monthLength + 1
        invariant pre == MonthPattern(PatternThrough(i), month, day - 1)
      {
        if month == 1 {
          if day % 7 == 1 {
            pre := pre.Put((month, day), 1);
          } else {
            pre := pre.Put((month, day), 2);
          }
        } else if month <= 11 {
          pre := pre.Put((month, day), (day - 1) % 7 + 1);
        } else if month == 12 {
          pre := pre.Put((month, day), 8);
        }
      }
    }
    PatternThroughFilled(|MonthDays|);
  }

  /** A dict listing the year's dates has exactly those 365 dates as keys. */
  lemma YearKeys(pre: Dict<Date, int>)
    requires pre.Valid() && pre.keys == DatesThrough(12)
    ensures |pre.entries| == 365
    ensures forall d :: d in pre.entries <==> IsCalendarDate(d)
  {
    YearDates();
  }

  /** The entries of the schedule are exactly the 365 dates of the year. */
  lemma PatternCoversYear(pre: Dict<Date, int>)
    requires IsPattern(pre)
    ensures |pre.entries| == 365
    ensures forall d :: d in pre.entries <==> IsCalendarDate(d)
  {
    YearKeys(pre);
  }

  /** January: neighbourhood 1 on days 1, 8, 15, 22 and 29, neighbourhood 2 on the others. */
  lemma PatternJanuary(pre: Dict<Date, int>)
    requires IsPattern(pre)
    ensures forall day :: 1 <= day <= 31 ==> (1, day) in pre.entries
    ensures forall d :: d in pre.entries && d.0 == 1 ==>
      pre.entries[d] == if d.1 in {1, 8, 15, 22, 29} then 1 else 2
  {
    PatternCoversYear(pre);
    assert MonthDays[0] == 31;
    forall day | 1 <= day <= 31
      ensures (1, day) in pre.entries
    {
      assert IsCalendarDate((1, day));
    }
    RuleJanuary(pre.entries);
  }

  lemma RuleJanuary(entries: map<Date, int>)
    requires FollowsRule(entries)
    requires forall d :: d in entries ==> IsCalendarDate(d)
    ensures forall d :: d in entries && d.0 == 1 ==>
      entries[d] == if d.1 in {1, 8, 15, 22, 29} then 1 else 2
  {
    forall d | d in entries && d.0 == 1
      ensures entries[d] == if d.1 in {1, 8, 15, 22, 29} then 1 else 2
    {
      assert 1 <= d.1 <= 31;
    }
  }

  /** February to November: the day of the month cycles through 1..7,
      so the 1st to the 7th get neighbourhoods 1 to 7 and a day a week
      later gets the same neighbourhood again. */
  lemma PatternFebruaryToNovember(pre: Dict<Date, int>)
    requires IsPattern(pre)
    ensures forall d :: d in pre.entries && 2 <= d.0 <= 11 ==>
      1 <= pre.entries[d] <= 7 && pre.entries[d] == (d.1 - 1) % 7 + 1
    ensures forall d :: d in pre.entries && 2 <= d.0 <= 11 && 1 <= d.1 <= 7 ==> pre.entries[d] == d.1
    ensures forall d :: d in pre.entries && 2 <= d.0 <= 11 && (d.0, d.1 + 7) in pre.entries ==>
      pre.entries[(d.0, d.1 + 7)] == pre.entries[d]
  {
    RuleFebruaryToNovember(pre.entries);
  }

  lemma RuleFebruaryToNovember(entries: map<Date, int>)
    requires FollowsRule(entries)
    ensures forall d :: d in entries && 2 <= d.0 <= 11 ==>
      1 <= entries[d] <= 7 && entries[d] == (d.1 - 1) % 7 + 1
    ensures forall d :: d in entries && 2 <= d.0 <= 11 && 1 <= d.1 <= 7 ==> entries[d] == d.1
    ensures forall d :: d in entries && 2 <= d.0 <= 11 && (d.0, d.1 + 7) in entries ==>
      entries[(d.0, d.1 + 7)] == entries[d]
  {
    forall d | d in entries && 2 <= d.0 <= 11 && (d.0, d.1 + 7) in entries
      ensures entries[(d.0, d.1 + 7)] == entries[d]
    {
      assert Rule(d.0, d.1 + 7) == Some(entries[(d.0, d.1 + 7)]);
      assert (d.1 + 7 - 1) % 7 == (d.1 - 1) % 7;
    }
  }

  /** December maps to 8, and only December does. */
  lemma PatternDecember(pre: Dict<Date, int>)
    requires IsPattern(pre)
    ensures forall d :: d in pre.entries ==> (pre.entries[d] == 8 <==> d.0 == 12)
  {
    RuleDecember(pre.entries);
  }

  lemma RuleDecember(entries: map<Date, int>)
    requires FollowsRule(entries)
    ensures forall d :: d in entries ==> (entries[d] == 8 <==> d.0 == 12)
  {
  }

  /** Every neighbourhood lies in 1..8. */
  lemma PatternRange(pre: Dict<Date, int>)
    requires IsPattern(pre)
    ensures forall d :: d in pre.entries ==> 1 <= pre.entries[d] <= 8
  {
    RuleRange(pre.entries);
  }

  lemma RuleRange(entries: map<Date, int>)
    requires FollowsRule(entries)
    ensures forall d :: d in entries ==> 1 <= entries[d] <= 8
  {
  }

  /** Items come month by month, days ascending. */
  lemma PatternOrder(pre: Dict<Date, int>)
    requires IsPattern(pre)
    ensures forall i, j :: 0 <= i < j < |pre.Items()| ==> Before(pre.Items()[i].0, pre.Items()[j].0)
  {
    DatesThroughOrdered(12);
    ItemsInKeyOrder(pre);
  }

  /** The items list the keys in their order. */
  lemma ItemsInKeyOrder(pre: Dict<Date, int>)
    requires pre.Valid()
    requires forall i, j :: 0 <= i < j < |pre.keys| ==> Before(pre.keys[i], pre.keys[j])
    ensures forall i, j :: 0 <= i < j < |pre.Items()| ==> Before(pre.Items()[i].0, pre.Items()[j].0)
  {
    var items := pre.Items();
    var keys := pre.keys;
    forall i, j | 0 <= i < j < |items|
      ensures Before(items[i].0, items[j].0)
    {
      assert items[i].0 == keys[i] && items[j].0 == keys[j];
    }
  }

  /** January's 31 items come first, in day order, with their neighbourhoods. */
  lemma PatternJanuaryItems(pre: Dict<Date, int>)
    requires IsPattern(pre)
    ensures |pre.Items()| >= 31
    ensures forall k :: 0 <= k < 31 ==>
      pre.Items()[k] == ((1, k + 1), if (k + 1) % 7 == 1 then 1 else 2)
  {
    DatesThroughStart(12);
    JanuaryFirst(pre);
  }

  /** A dict that follows the rule and lists January's days first holds
      January's neighbourhoods in its first 31 items. */
  lemma JanuaryFirst(pre: Dict<Date, int>)
    requires pre.Valid() && FollowsRule(pre.entries)
    requires |pre.keys| >= 31 && forall k :: 0 <= k < 31 ==> pre.keys[k] == (1, k + 1)
    ensures |pre.Items()| >= 31
    ensures forall k :: 0 <= k < 31 ==>
      pre.Items()[k] == ((1, k + 1), if (k + 1) % 7 == 1 then 1 else 2)
  {
    var items := pre.Items();
    forall k | 0 <= k < 31
      ensures items[k] == ((1, k + 1), if (k + 1) % 7 == 1 then 1 else 2)
    {
      var d := pre.keys[k];
      assert d in pre.keys;
      assert Rule(1, k + 1) == Some(pre.entries[d]);
    }
  }

  /** The first five items are (1, 1) -> 1, then (1, 2) .. (1, 5) -> 2. */
  lemma PatternFirstItems(pre: Dict<Date, int>)
    requires IsPattern(pre)
    ensures |pre.Items()| >= 5
    ensures pre.Items()[..5] == [((1, 1), 1), ((1, 2), 2), ((1, 3), 2), ((1, 4), 2), ((1, 5), 2)]
  {
    PatternJanuaryItems(pre);
    FirstFive(pre.Items());
  }

  lemma FirstFive(items: seq<(Date, int)>)
    requires |items| >= 31
    requires forall k :: 0 <= k < 31 ==> items[k] == ((1, k + 1), if (k + 1) % 7 == 1 then 1 else 2)
    ensures items[..5] == [((1, 1), 1), ((1, 2), 2), ((1, 3), 2), ((1, 4), 2), ((1, 5), 2)]
  {
    assert items[0] == ((1, 1), 1);
    assert items[1] == ((1, 2), 2);
    assert items[2] == ((1, 3), 2);
    assert items[3] == ((1, 4), 2);
    assert items[4] == ((1, 5), 2);
  }

  /** `f"({month}, {day}, {neighborhood})"`. */
  function TupleText(item: (Date, int)): string {
    "(" + (IntToString(item.0.0) + (", " + (IntToString(item.0.1) + (", " + (IntToString(item.1) + ")")))))
  }

  lemma DropCommonPrefix(p: string, x: string, y: string)
    requires p + x == p + y
    ensures x == y
  {
    assert x == (p + x)[|p|..];
    assert y == (p + y)[|p|..];
  }

  /** Distinct entries of non-negative numbers render as distinct tuples. */
  lemma TupleTextInjective(a: (Date, int), b: (Date, int))
    requires a.0.0 >= 0 && a.0.1 >= 0 && a.1 >= 0
    requires b.0.0 >= 0 && b.0.1 >= 0 && b.1 >= 0
    requires TupleText(a) == TupleText(b)
    ensures a == b
  {
    var a1, a2 := NatToString(a.0.1), NatToString(a.1);
    var b1, b2 := NatToString(b.0.1), NatToString(b.1);
    PeelNumber("(", a.0.0, ", " + (a1 + (", " + (a2 + ")"))), b.0.0, ", " + (b1 + (", " + (b2 + ")"))));
    PeelNumber(", ", a.0.1, ", " + (a2 + ")"), b.0.1, ", " + (b2 + ")"));
    PeelNumber(", ", a.1, ")", b.1, ")");
  }

  /** After a common prefix, a number followed by a non-digit is read back
      unambiguously. */
  lemma PeelNumber(p: string, x: nat, rx: string, y: nat, ry: string)
    requires rx != [] && !IsDigit(rx[0]) && ry != [] && !IsDigit(ry[0])
    requires p + (NatToString(x) + rx) == p + (NatToString(y) + ry)
    ensures x == y && rx == ry
  {
    DropCommonPrefix(p, NatToString(x) + rx, NatToString(y) + ry);
    DigitsPrefixUnique(NatToString(x), rx, NatToString(y), ry);
    NatToStringInjective(x, y);
  }

  /** The `values` loop: one tuple text per item, in item order. */
  method RenderValues(items: seq<(Date, int)>) returns (values: seq<string>)
    ensures |values| == |items|
    ensures forall k :: 0 <= k < |items| ==> values[k] == TupleText(items[k])
  {
    values := Sequences.AppendEach([], items, TupleText);
  }

  const BatchSize: nat := 100

  /** The INSERT statement of lines 98-101 around a joined VALUES list. */
  function InsertSql(valuesList: string): (sql: string) {
    var indent := "\n                ";
    indent + ("INSERT INTO " + ("test_database.test_schema.df_clean " + ("(MONTH, DAY, NEIGHBORHOOD)"
    + (indent + ("VALUES " + (valuesList + "\n            "))))))
  }

  function Min(a: int, b: int): (m: int) {
    if a <= b then a else b
  }

  /** The batches, specified by peeling off at most BatchSize values at a time. */
  function Batches(values: seq<string>): (batches: seq<seq<string>>)
    decreases |values|
  {
    if values == [] then []
    else [values[..Min(BatchSize, |values|)]] + Batches(values[Min(BatchSize, |values|)..])
  }

  /** The concatenation of a sequence of batches. */
  function Flatten(batches: seq<seq<string>>): (values: seq<string>) {
    if batches == [] then [] else batches[0] + Flatten(batches[1..])
  }

  /** Concatenating the batches gives the values back, in order. */
  lemma {:induction false} BatchesFlatten(values: seq<string>)
    ensures Flatten(Batches(values)) == values
    decreases |values|
  {
    if values != [] {
      var n := Min(BatchSize, |values|);
      BatchesFlatten(values[n..]);
      assert ([values[..n]] + Batches(values[n..]))[1..] == Batches(values[n..]);
      assert values == values[..n] + values[n..];
    }
  }

  /** There are ceil(|values| / BatchSize) batches, none empty and none
      larger than BatchSize. */
  lemma {:induction false} BatchesShape(values: seq<string>)
    ensures |Batches(values)| == (|values| + BatchSize - 1) / BatchSize
    ensures forall k :: 0 <= k < |Batches(values)| ==> 1 <= |Batches(values)[k]| <= BatchSize
    decreases |values|
  {
    if values != [] {
      var n := Min(BatchSize, |values|);
      BatchesShape(values[n..]);
      var rest := Batches(values[n..]);
      assert Batches(values) == [values[..n]] + rest;
      forall k | 0 <= k < |Batches(values)|
        ensures 1 <= |Batches(values)[k]| <= BatchSize
      {
        if k > 0 {
          assert Batches(values)[k] == rest[k - 1];
        }
      }
    }
  }

  /** Batch k is the slice `values[100 * k : 100 * k + 100]`. */
  lemma {:induction false} BatchesAt(values: seq<string>, k: nat)
    requires k < |Batches(values)|
    ensures k * BatchSize < |values|
    ensures Batches(values)[k] == values[k * BatchSize..Min(k * BatchSize + BatchSize, |values|)]
    decreases k
  {
    var n := Min(BatchSize, |values|);
    if k > 0 {
      var tail := values[n..];
      assert Batches(values) == [values[..n]] + Batches(tail);
      BatchesAt(tail, k - 1);
      assert n == BatchSize;
      assert (k - 1) * BatchSize + BatchSize == k * BatchSize;
      assert tail[(k - 1) * BatchSize..Min((k - 1) * BatchSize + BatchSize, |tail|)]
        == values[k * BatchSize..Min(k * BatchSize + BatchSize, |values|)];
    }
  }

  /** The batches of a suffix: the next slice, then the batches after it. */
  lemma BatchesFrom(values: seq<string>, i: nat)
    requires i < |values|
    ensures Batches(values[i..]) ==
      [values[i..Min(i + BatchSize, |values|)]] + Batches(values[Min(i + BatchSize, |values|)..])
  {
    var rest := values[i..];
    assert values[i..Min(i + BatchSize, |values|)] == rest[..Min(BatchSize, |rest|)];
    assert values[Min(i + BatchSize, |values|)..] == rest[Min(BatchSize, |rest|)..];
  }

  /** The batch loop: `values[i:i+100]` for i = 0, 100, 200, ..., each joined
      with ", " into one INSERT. */
  method BatchInserts(values: seq<string>) returns (batches: seq<seq<string>>, statements: seq<string>)
    ensures batches == Batches(values)
    ensures |statements| == |batches|
    ensures forall k :: 0 <= k < |batches| ==> statements[k] == InsertSql(Join(batches[k], ", "))
  {
    batches, statements := [], [];
    var i := 0;
    while i < |values|
      invariant Batches(values) == batches + Batches(values[Min(i, |values|)..])
      invariant |statements| == |batches|
      invariant forall k :: 0 <= k < |batches| ==> statements[k] == InsertSql(Join(batches[k], ", "))
      decreases |values| - i
    {
      var batch := values[i..Min(i + BatchSize, |values|)];
      BatchesFrom(values, i);
      batches := batches + [batch];
      statements := statements + [InsertSql(Join(batch, ", "))];
      i := i + BatchSize;
    }
    assert values[Min(i, |values|)..] == [];
  }

  /** Step [4] of `create_training_data_table` on the dict's items: the
      tuple texts in item order, then one INSERT per batch. */
  method InsertStatements(items: seq<(Date, int)>) returns (values: seq<string>, statements: seq<string>)
    ensures |values| == |items|
    ensures forall k :: 0 <= k < |items| ==> values[k] == TupleText(items[k])
    ensures |statements| == |Batches(values)| == (|items| + BatchSize - 1) / BatchSize
    ensures forall k :: 0 <= k < |statements| ==> statements[k] == InsertSql(Join(Batches(values)[k], ", "))
  {
    values := RenderValues(items);
    var batches;
    batches, statements := BatchInserts(values);
    BatchesShape(values);
  }

  /** Steps [3] and [4] of `create_training_data_table`: the pattern, its
      365 tuple texts in insertion order, and the four INSERTs that load them. */
  method CreateTrainingDataInserts() returns (pre: Dict<Date, int>, values: seq<string>, statements: seq<string>)
    ensures IsPattern(pre)
    ensures |values| == |pre.keys| == 365
    ensures forall k :: 0 <= k < |values| ==> values[k] == TupleText(pre.Items()[k])
    ensures |statements| == |Batches(values)| == 4
    ensures forall k :: 0 <= k < |statements| ==> statements[k] == InsertSql(Join(Batches(values)[k], ", "))
  {
    pre := CreateNeighborhoodPattern();
    PatternBatchCount(pre);
    values, statements := InsertStatements(pre.Items());
  }

  /** The year's 365 items fill four batches: three of 100 and one of 65. */
  lemma PatternBatchCount(pre: Dict<Date, int>)
    requires IsPattern(pre)
    ensures |pre.Items()| == |pre.keys| == 365
    ensures (|pre.Items()| + BatchSize - 1) / BatchSize == 4
  {
    YearSize();
    assert (365 + BatchSize - 1) / BatchSize == 464 / 100 == 4;
  }
}
