/** scripts/snowpark_ml_assignment.py: the second copy of the truck's
    neighbourhood visiting schedule, checked against the schedule its doc
    comment describes and against the copy in scripts/create_ml_training_data.py. */
module SnowparkMl {
  import opened Wrappers
  import opened Calendar
  import opened OrderedDict
  import TrainingData

  /** This copy's branch chain (lines 31-45), or None where no branch applies. */
  function Branches(month: int, day: int): (r: Option<int>) {
    if month == 1 then (if day % 7 == 1 then Some(1) else Some(2))
    else if month <= 11 then Some((day - 1) % 7 + 1)
    else if month == 12 then Some(8)
    else None
  }

  /** The schedule as the doc comment states it: in January neighbourhood 1 on
      the Mondays 1, 8, 15, 22 and 29 and neighbourhood 2 otherwise; from
      February to November the 1st to the 7th visit neighbourhoods 1 to 7 and
      the cycle restarts every seven days; December only neighbourhood 8. */
  function Described(month: int, day: int): (neighborhood: int)
    decreases if day > 0 then day else 0
  {
    if month == 1 then (if day in {1, 8, 15, 22, 29} then 1 else 2)
    else if month == 12 then 8
    else if day <= 7 then day
    else Described(month, day - 7)
  }

  /** Every entry holds the neighbourhood this copy's branch chain gives its date. */
  ghost predicate FollowsBranches(entries: map<Date, int>) {
    forall d :: d in entries ==> Branches(d.0, d.1) == Some(entries[d])
  }

  lemma FollowsBranchesUpdate(entries: map<Date, int>, k: Date, v: int)
    requires FollowsBranches(entries) && Branches(k.0, k.1) == Some(v)
    ensures FollowsBranches(entries[k := v])
  {
  }

  /** One pass of the inner loop: the branch chain's neighbourhood for
      (month, day) is stored, and nothing when no branch applies. */
  function Assign(pre: Dict<Date, int>, month: int, day: int): (post: Dict<Date, int>) {
    match Branches(month, day)
    case Some(v) => pre.Put((month, day), v)
    case None => pre
  }

  /** The inner loop's first n passes over `month`, starting from `base`. */
  function MonthPattern(base: Dict<Date, int>, month: int, n: nat): (pre: Dict<Date, int>) {
    if n == 0 then base else Assign(MonthPattern(base, month, n - 1), month, n)
  }

  /** The outer loop's first m passes, starting from `{}`. */
  function PatternThrough(m: nat): (pre: Dict<Date, int>)
    requires m <= 12
  {
    if m == 0 then Empty() else MonthPattern(PatternThrough(m - 1), m, MonthDays[m - 1])
  }

  /** After n passes over month i + 1 the dict lists the earlier months and
      then days 1..n of this one, each as the branch chain says. */
  lemma {:induction false} MonthPatternFilled(base: Dict<Date, int>, i: nat, n: nat)
    requires i < 12
    requires base.Valid() && base.keys == DatesThrough(i) && FollowsBranches(base.entries)
    ensures var pre := MonthPattern(base, i + 1, n);
      pre.Valid() && pre.keys == DatesThrough(i) + MonthDates(i + 1, n) && FollowsBranches(pre.entries)
  {
    if n == 0 {
      assert DatesThrough(i) + MonthDates(i + 1, 0) == DatesThrough(i);
    } else {
      MonthPatternFilled(base, i, n - 1);
      AssignFilled(MonthPattern(base, i + 1, n - 1), i, n);
    }
  }

  /** One pass of the inner loop appends day n of month i + 1 with the
      neighbourhood the branch chain gives it. */
  lemma AssignFilled(before: Dict<Date, int>, i: nat, n: nat)
    requires i < 12 && 1 <= n
    requires before.Valid() && before.keys == DatesThrough(i) + MonthDates(i + 1, n - 1) && FollowsBranches(before.entries)
    ensures var after := Assign(before, i + 1, n);
      after.Valid() && after.keys == DatesThrough(i) + MonthDates(i + 1, n) && FollowsBranches(after.entries)
  {
    DatesStep(i, n);
    var v := Branches(i + 1, n).value;
    FollowsBranchesUpdate(before.entries, (i + 1, n), v);
    assert Assign(before, i + 1, n) == before.Put((i + 1, n), v);
  }

  /** After m passes of the outer loop the dict lists months 1..m, each
      date as the branch chain says. */
  lemma {:induction false} PatternThroughFilled(m: nat)
    requires m <= 12
    ensures var pre := PatternThrough(m);
      pre.Valid() && pre.keys == DatesThrough(m) && FollowsBranches(pre.entries)
  {
    if m > 0 {
      PatternThroughFilled(m - 1);
      MonthPatternFilled(PatternThrough(m - 1), m - 1, MonthDays[m - 1]);
    }
  }

  /** What this copy of `create_neighborhood_pattern` returns. */
  ghost predicate IsPattern(pre: Dict<Date, int>) {
    && pre.Valid()
    && pre.keys == DatesThrough(12)
    && FollowsBranches(pre.entries)
  }

  /** `create_neighborhood_pattern` of this script: the same nested loops. */
  method CreateNeighborhoodPattern() returns (pre: Dict<Date, int>)
    ensures pre == PatternThrough(|MonthDays|)
    ensures IsPattern(pre)
  {
    pre := Empty();
    for i := 0 to |MonthDays|
      invariant pre == PatternThrough(i)
    {
      var monthLength := MonthDays[i];
      var month := i + 1;
      for day := 1 to monthLength + 1
        invariant pre == MonthPattern(PatternThrough(i), month, day - 1)
      {
        if month == 1 {
          if day % 7 == 1 {
            pre := pre.Put((month, day), 1);
          } else {
            pre := pre.Put((month, day), 2);
          }
        } else if month <= 11 {
          pre := pre.Put((month, day), (day - 1) % 7 + 1);
        } else if month == 12 {
          pre := pre.Put((month, day), 8);
        }
      }
    }
    PatternThroughFilled(|MonthDays|);
  }

  /** From February to November the described seven-day cycle is the
      formula ((day - 1) % 7) + 1 of line 41. */
  lemma {:induction false} CycleIsFormula(month: int, day: int)
    requires 2 <= month <= 11 && 1 <= day
    ensures Described(month, day) == (day - 1) % 7 + 1
    decreases day
  {
    if day > 7 {
      CycleIsFormula(month, day - 7);
      assert (day - 7 - 1) % 7 == (day - 1) % 7;
    }
  }

  /** On every date of the year the code does what the doc comment says. */
  lemma BranchesAsDescribed(d: Date)
    requires IsCalendarDate(d)
    ensures Branches(d.0, d.1) == Some(Described(d.0, d.1))
    ensures 1 <= Described(d.0, d.1) <= 8
  {
    if 2 <= d.0 <= 11 {
      CycleIsFormula(d.0, d.1);
    }
  }

  /** Calendar entries that follow the branch chain follow the description. */
  lemma EntriesAsDescribed(entries: map<Date, int>)
    requires FollowsBranches(entries)
    requires forall d :: d in entries ==> IsCalendarDate(d)
    ensures forall d :: d in entries ==> entries[d] == Described(d.0, d.1)
    ensures forall d :: d in entries ==> 1 <= entries[d] <= 8
  {
    forall d | d in entries
      ensures entries[d] == Described(d.0, d.1) && 1 <= entries[d] <= 8
    {
      BranchesAsDescribed(d);
    }
  }

  /** The pattern has the 365 dates of the year as keys, and maps each as
      the doc comment describes, to a neighbourhood in 1..8. */
  lemma PatternAsDescribed(pre: Dict<Date, int>)
    requires IsPattern(pre)
    ensures |pre.entries| == 365
    ensures forall d :: d in pre.entries <==> IsCalendarDate(d)
    ensures forall d :: d in pre.entries ==> pre.entries[d] == Described(d.0, d.1)
    ensures forall d :: d in pre.entries ==> 1 <= pre.entries[d] <= 8
  {
    TrainingData.YearKeys(pre);
    EntriesAsDescribed(pre.entries);
  }

  /** The 1st of every month from February to November maps to 1, the 7th
      to 7 and the 8th back to 1. */
  lemma PatternCycle(pre: Dict<Date, int>)
    requires IsPattern(pre)
    ensures forall m :: 2 <= m <= 11 ==>
      && (m, 1) in pre.entries && pre.entries[(m, 1)] == 1
      && (m, 7) in pre.entries && pre.entries[(m, 7)] == 7
      && (m, 8) in pre.entries && pre.entries[(m, 8)] == 1
  {
    TrainingData.YearKeys(pre);
    EntriesCycle(pre.entries);
  }

  lemma EntriesCycle(entries: map<Date, int>)
    requires FollowsBranches(entries)
    requires forall d :: d in entries <==> IsCalendarDate(d)
    ensures forall m :: 2 <= m <= 11 ==>
      && (m, 1) in entries && entries[(m, 1)] == 1
      && (m, 7) in entries && entries[(m, 7)] == 7
      && (m, 8) in entries && entries[(m, 8)] == 1
  {
    MonthLengths();
    forall m | 2 <= m <= 11
      ensures (m, 1) in entries && (m, 7) in entries && (m, 8) in entries
    {
      assert 28 <= MonthDays[m - 1];
      assert IsCalendarDate((m, 1)) && IsCalendarDate((m, 7)) && IsCalendarDate((m, 8));
    }
  }

  /** `list(pre.items())[:5]`, the sample the script prints: (1, 1) -> 1,
      then (1, 2) .. (1, 5) -> 2. */
  lemma SampleEntries(q: Dict<Date, int>)
    requires IsPattern(q)
    ensures |q.Items()| >= 5
    ensures q.Items()[..5] == [((1, 1), 1), ((1, 2), 2), ((1, 3), 2), ((1, 4), 2), ((1, 5), 2)]
  {
    assert TrainingData.FollowsRule(q.entries) by {
      forall d | d in q.entries
        ensures TrainingData.Rule(d.0, d.1) == Some(q.entries[d])
      {
        assert Branches(d.0, d.1) == Some(q.entries[d]);
      }
    }
    TrainingData.PatternFirstItems(q);
  }

  /** The two copies compute the same dict: same keys in the same order and
      the same neighbourhood for every key. */
  lemma CopiesAgree(p: Dict<Date, int>, q: Dict<Date, int>)
    requires TrainingData.IsPattern(p)
    requires IsPattern(q)
    ensures p == q
  {
    forall d | d in p.entries
      ensures d in q.entries && p.entries[d] == q.entries[d]
    {
      assert TrainingData.Rule(d.0, d.1) == Some(p.entries[d]);
      assert Branches(d.0, d.1) == Some(q.entries[d]);
    }
    SameDict(p, q);
  }
}
