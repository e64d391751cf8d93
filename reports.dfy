/** The query behind the three "top" reports of the analyst home page
    (healthlog/core/views.py, `HomeView._get_top_*_context`), stated as an
    in-memory pipeline: join each counted record with its related rows,
    keep the joined rows every active filter accepts, group them by name and
    count, order by the count ascending and take the first `limit` groups. */
module Reports {
  import opened Wrappers
  import Dates
  import Seqs
  import opened HealthlogModels
  import opened HealthlogForms

  /** A user as the report queries see one: the chronic conditions and the
      birth date of the attached info (`None` without info). */
  datatype Person = Person(pk: int, conditions: set<int>, birthDate: Option<Dates.Date>)

  /** The tables the report queries read. */
  datatype Snapshot = Snapshot(
    conditions: seq<Condition>, ailments: seq<Ailment>, foods: seq<Food>,
    people: seq<Person>, logs: seq<Log>, meals: seq<Meal>)

  /** A date column only ever holds calendar dates. */
  predicate WellFormed(db: Snapshot) {
    forall p :: p in db.people && p.birthDate.Some? ==> Dates.Valid(p.birthDate.value)
  }

  /** The primary keys the report forms' model choice fields accept. */
  function ChoicesOf(db: Snapshot): (c: Choices)
    ensures forall k :: k in c.conditions <==> exists x :: x in db.conditions && x.pk == k
    ensures forall k :: k in c.ailments <==> exists x :: x in db.ailments && x.pk == k
    ensures forall k :: k in c.foods <==> exists x :: x in db.foods && x.pk == k
  {
    Choices(set x | x in db.conditions :: x.pk, set x | x in db.ailments :: x.pk, set x | x in db.foods :: x.pk)
  }

  /** What the filters of one report can look at through a joined row: the
      owner's birth date as a day number, the owner's conditions, the
      ailments and foods of the log(s) reached, and the log's date. */
  datatype Related = Related(
    birth: Option<int>, conditions: set<int>, ailments: set<int>, foods: set<int>,
    date: Option<Dates.Date>)

  /** One row of the outer join: the name of the counted record and the
      related row, or `None` where the join found nothing (such a row counts
      0 and no filter accepts it). */
  datatype Fact = Fact(name: string, related: Option<Related>)

  // ---------------------------------------------------------------------
  // Joins

  function PersonOf(people: seq<Person>, pk: int): (r: Option<Person>)
    ensures r.Some? ==> r.value in people && r.value.pk == pk
    ensures r.None? ==> forall p :: p in people ==> p.pk != pk
  {
    if people == [] then None
    else if people[0].pk == pk then Some(people[0])
    else PersonOf(people[1..], pk)
  }

  function LogOf(logs: seq<Log>, pk: int): (r: Option<Log>)
    ensures r.Some? ==> r.value in logs && r.value.pk == pk
    ensures r.None? ==> forall l :: l in logs ==> l.pk != pk
  {
    if logs == [] then None
    else if logs[0].pk == pk then Some(logs[0])
    else LogOf(logs[1..], pk)
  }

  /** `user__info__birth_date` as a day number. */
  function BirthOf(db: Snapshot, user: int): Option<int>
    requires WellFormed(db)
  {
    match PersonOf(db.people, user)
    case None => None
    case Some(p) => if p.birthDate.None? then None else Some(Dates.Ordinal(p.birthDate.value))
  }

  function ConditionsOf(db: Snapshot, user: int): set<int> {
    match PersonOf(db.people, user)
    case None => {}
    case Some(p) => p.conditions
  }

  /** `logs__meals__food` from one log. */
  function FoodsOfLog(db: Snapshot, log: int): set<int> {
    set m | m in db.meals && m.log == log :: m.food.pk
  }

  /** `users__logs__ailments` from one user. */
  function AilmentsOfUser(db: Snapshot, user: int): set<int> {
    set l, a | l in db.logs && l.user == user && a in l.ailments :: a
  }

  /** `users__logs__meals__food` from one user. */
  function FoodsOfUser(db: Snapshot, user: int): set<int> {
    set l, m | l in db.logs && l.user == user && m in db.meals && m.log == l.pk :: m.food.pk
  }

  /** Food report: one row per meal of the food (`meals__log__...`). */
  function MealFacts(db: Snapshot, name: string, meals: seq<Meal>): seq<Fact>
    requires WellFormed(db)
  {
    if meals == [] then []
    else
      var log := LogOf(db.logs, meals[0].log);
      var related :=
        if log.None? then Related(None, {}, {}, {}, None)
        else Related(BirthOf(db, log.value.user), ConditionsOf(db, log.value.user),
                     log.value.ailments, {}, Some(log.value.date));
      [Fact(name, Some(related))] + MealFacts(db, name, meals[1..])
  }

  function FoodFacts(db: Snapshot, foods: seq<Food>): seq<Fact>
    requires WellFormed(db)
  {
    if foods == [] then []
    else
      var f := foods[0];
      var meals := Seqs.Where(db.meals, (m: Meal) => m.food.pk == f.pk);
      (if meals == [] then [Fact(f.name, None)] else MealFacts(db, f.name, meals))
        + FoodFacts(db, foods[1..])
  }

  /** Ailment report: one row per log that records the ailment (`logs__...`). */
  function LogFacts(db: Snapshot, name: string, logs: seq<Log>): seq<Fact>
    requires WellFormed(db)
  {
    if logs == [] then []
    else
      var l := logs[0];
      [Fact(name, Some(Related(BirthOf(db, l.user), ConditionsOf(db, l.user), {},
                               FoodsOfLog(db, l.pk), Some(l.date))))]
        + LogFacts(db, name, logs[1..])
  }

  function AilmentFacts(db: Snapshot, ailments: seq<Ailment>): seq<Fact>
    requires WellFormed(db)
  {
    if ailments == [] then []
    else
      var a := ailments[0];
      var logs := Seqs.Where(db.logs, (l: Log) => a.pk in l.ailments);
      (if logs == [] then [Fact(a.name, None)] else LogFacts(db, a.name, logs))
        + AilmentFacts(db, ailments[1..])
  }

  /** Condition report: one row per user who has the condition (`users__...`). */
  function PersonFacts(db: Snapshot, name: string, people: seq<Person>): seq<Fact>
    requires WellFormed(db)
  {
    if people == [] then []
    else
      var p := people[0];
      [Fact(name, Some(Related(BirthOf(db, p.pk), {}, AilmentsOfUser(db, p.pk),
                               FoodsOfUser(db, p.pk), None)))]
        + PersonFacts(db, name, people[1..])
  }

  function ConditionFacts(db: Snapshot, conditions: seq<Condition>): seq<Fact>
    requires WellFormed(db)
  {
    if conditions == [] then []
    else
      var c := conditions[0];
      var people := Seqs.Where(db.people, (p: Person) => c.pk in p.conditions);
      (if people == [] then [Fact(c.name, None)] else PersonFacts(db, c.name, people))
        + ConditionFacts(db, conditions[1..])
  }

  /** The joined rows each report starts from (`<Model>.objects.all()`). */
  function FactsFor(f: ReportForm, db: Snapshot): seq<Fact>
    requires WellFormed(db)
  {
    match f
    case TopFoodChoice => FoodFacts(db, db.foods)
    case TopTemporaryAilment => AilmentFacts(db, db.ailments)
    case TopChronicCondition => ConditionFacts(db, db.conditions)
  }

  /** Every counted record contributes at least one row under its own name,
      so that, unfiltered, every record's name is reported. */
  lemma {:induction false} EveryFoodHasAFact(db: Snapshot, foods: seq<Food>, f: Food)
    requires WellFormed(db) && f in foods
    ensures exists x :: x in FoodFacts(db, foods) && x.name == f.name
    decreases |foods|
  {
    var meals := Seqs.Where(db.meals, (m: Meal) => m.food.pk == foods[0].pk);
    if foods[0] == f {
      if meals != [] {
        assert MealFacts(db, f.name, meals)[0].name == f.name;
        assert MealFacts(db, f.name, meals)[0] in FoodFacts(db, foods);
      } else {
        assert FoodFacts(db, foods)[0] == Fact(f.name, None);
      }
    } else {
      EveryFoodHasAFact(db, foods[1..], f);
      var x :| x in FoodFacts(db, foods[1..]) && x.name == f.name;
      assert x in FoodFacts(db, foods);
    }
  }

  // ---------------------------------------------------------------------
  // Filters

  /** The filters a report can apply, with the age bounds already turned
      into day-number thresholds. */
  datatype Filter =
    | BornBy(threshold: int)        // `...birth_date__lte=threshold`
    | BornSince(threshold: int)     // `...birth_date__gte=threshold`
    | WithCondition(condition: int) // `...user__conditions=condition`
    | WithAilment(ailment: int)     // `...ailments=ailment`
    | WithFood(food: int)           // `...meals__food=food`
    | OnOrAfter(from: Dates.Date)   // `...date__gte=min_date`
    | OnOrBefore(to: Dates.Date)    // `...date__lte=max_date`

  /** Whether one joined row passes one filter; a row with nothing joined
      (or a null along the join) passes none. */
  predicate Holds(f: Filter, x: Fact) {
    x.related.Some? &&
    var r := x.related.value;
    match f
    case BornBy(t) => r.birth.Some? && r.birth.value <= t
    case BornSince(t) => r.birth.Some? && r.birth.value >= t
    case WithCondition(c) => c in r.conditions
    case WithAilment(a) => a in r.ailments
    case WithFood(food) => food in r.foods
    case OnOrAfter(d) => r.date.Some? && Dates.NotAfter(d, r.date.value)
    case OnOrBefore(d) => r.date.Some? && Dates.NotAfter(r.date.value, d)
  }

  /** `queryset.filter(...)` with one filter. */
  function Narrow(facts: seq<Fact>, f: Filter): seq<Fact> {
    Seqs.Where(facts, (x: Fact) => Holds(f, x))
  }

  predicate HoldsAll(fs: seq<Filter>, x: Fact) {
    forall i :: 0 <= i < |fs| ==> Holds(fs[i], x)
  }

  /** The rows every filter of `fs` accepts, in their order. */
  function KeepAll(facts: seq<Fact>, fs: seq<Filter>): seq<Fact> {
    Seqs.Where(facts, (x: Fact) => HoldsAll(fs, x))
  }

  /** Narrowing step by step is keeping the rows all the filters accept. */
  lemma NarrowKeepAll(facts: seq<Fact>, fs: seq<Filter>, f: Filter)
    ensures Narrow(KeepAll(facts, fs), f) == KeepAll(facts, fs + [f])
  {
    var p := (x: Fact) => HoldsAll(fs, x);
    var q := (x: Fact) => Holds(f, x);
    var both := (x: Fact) => HoldsAll(fs + [f], x);
    forall x: Fact ensures both(x) == (p(x) && q(x)) {
      if p(x) && q(x) {
        forall i | 0 <= i < |fs + [f]| ensures Holds((fs + [f])[i], x) {
          if i < |fs| { assert (fs + [f])[i] == fs[i]; }
        }
      }
      if both(x) {
        forall i | 0 <= i < |fs| ensures Holds(fs[i], x) {
          assert (fs + [f])[i] == fs[i];
        }
        assert (fs + [f])[|fs|] == f;
      }
    }
    Seqs.WhereWhere(facts, p, q, both);
  }

  // ---------------------------------------------------------------------
  // Age thresholds

  /** `date.today() - timedelta(days=...)` fails outside 0001-01-01 ..
      9999-12-31. */
  datatype OverflowError = OverflowError

  /** The day number of 9999-12-31. */
  const MaxOrdinal := 3652059

  lemma LastDay()
    ensures Dates.Valid(Dates.Date(9999, 12, 31))
    ensures Dates.Ordinal(Dates.Date(9999, 12, 31)) == MaxOrdinal
  {
    Dates.DaysBeforeMonthYear(9999);
  }

  /** The birth-date threshold for an age in years: today minus 365 days per
      year, as a day number. */
  function Threshold(today: Dates.Date, age: int): (r: Result<int, OverflowError>)
    requires Dates.Valid(today)
    ensures r.Ok? <==> 1 <= Dates.Ordinal(today) - 365 * age <= MaxOrdinal
    ensures r.Ok? ==> Dates.Ordinal(today) - r.value == 365 * age
  {
    var t := Dates.Ordinal(today) - 365 * age;
    if 1 <= t <= MaxOrdinal then Ok(t) else Err(OverflowError)
  }

  /** The minimum-age filter keeps exactly the rows whose owner was born at
      least `365 * age` days before today; the maximum-age filter those born
      at most that many days before. */
  lemma AgeFilterMeaning(today: Dates.Date, age: int, x: Fact)
    requires Dates.Valid(today) && Threshold(today, age).Ok?
    requires x.related.Some? && x.related.value.birth.Some?
    ensures Holds(BornBy(Threshold(today, age).value), x)
      <==> Dates.Ordinal(today) - x.related.value.birth.value >= 365 * age
    ensures Holds(BornSince(Threshold(today, age).value), x)
      <==> Dates.Ordinal(today) - x.related.value.birth.value <= 365 * age
  {
  }

  /** Comparing day numbers is comparing the dates themselves: the
      threshold filter agrees with `birth_date <= threshold_date`. */
  lemma ThresholdAsDate(birth: Dates.Date, threshold: Dates.Date, x: Fact)
    requires Dates.Valid(birth) && Dates.Valid(threshold)
    requires x.related.Some? && x.related.value.birth == Some(Dates.Ordinal(birth))
    ensures Holds(BornBy(Dates.Ordinal(threshold)), x) <==> Dates.NotAfter(birth, threshold)
    ensures Holds(BornSince(Dates.Ordinal(threshold)), x) <==> Dates.NotAfter(threshold, birth)
  {
    Dates.OrdinalRespectsOrder(birth, threshold);
    Dates.OrdinalRespectsOrder(threshold, birth);
  }

  /** A larger minimum age keeps fewer rows. */
  lemma OlderKeepsFewer(today: Dates.Date, a: int, b: int, x: Fact)
    requires Dates.Valid(today) && a <= b
    requires Threshold(today, a).Ok? && Threshold(today, b).Ok?
    ensures Holds(BornBy(Threshold(today, b).value), x) ==> Holds(BornBy(Threshold(today, a).value), x)
  {
  }

  /** The number of filter fields that are not blank. */
  function FilledFields(d: ReportInput): nat {
    (if d.minAge.Some? then 1 else 0) + (if d.maxAge.Some? then 1 else 0)
    + (if d.condition.Some? then 1 else 0) + (if d.ailment.Some? then 1 else 0)
    + (if d.food.Some? then 1 else 0)
    + (if d.minDate.Some? then 1 else 0) + (if d.maxDate.Some? then 1 else 0)
  }

  /** Whether both age thresholds, where given, fall inside the calendar. */
  predicate AgesInRange(d: ReportInput, today: Dates.Date)
    requires Dates.Valid(today)
  {
    && (d.minAge.Some? ==> Threshold(today, d.minAge.value).Ok?)
    && (d.maxAge.Some? ==> Threshold(today, d.maxAge.value).Ok?)
  }

  function MinAgeFilter(d: ReportInput, today: Dates.Date): seq<Filter>
    requires Dates.Valid(today) && AgesInRange(d, today)
  {
    if d.minAge.Some? then [BornBy(Threshold(today, d.minAge.value).value)] else []
  }

  function MaxAgeFilter(d: ReportInput, today: Dates.Date): seq<Filter>
    requires Dates.Valid(today) && AgesInRange(d, today)
  {
    if d.maxAge.Some? then [BornSince(Threshold(today, d.maxAge.value).value)] else []
  }

  function ConditionFilter(d: ReportInput): seq<Filter> {
    if d.condition.Some? then [WithCondition(d.condition.value)] else []
  }

  function AilmentFilter(d: ReportInput): seq<Filter> {
    if d.ailment.Some? then [WithAilment(d.ailment.value)] else []
  }

  function FoodFilter(d: ReportInput): seq<Filter> {
    if d.food.Some? then [WithFood(d.food.value)] else []
  }

  function MinDateFilter(d: ReportInput): seq<Filter> {
    if d.minDate.Some? then [OnOrAfter(d.minDate.value)] else []
  }

  function MaxDateFilter(d: ReportInput): seq<Filter> {
    if d.maxDate.Some? then [OnOrBefore(d.maxDate.value)] else []
  }

  /** The filters a bound input turns on, in the order the source applies
      them: one per non-blank field, and an error when an age threshold
      falls outside the calendar. */
  function ActiveFilters(d: ReportInput, today: Dates.Date): (r: Result<seq<Filter>, OverflowError>)
    requires Dates.Valid(today)
    ensures r.Err? <==>
      (d.minAge.Some? && Threshold(today, d.minAge.value).Err?)
      || (d.maxAge.Some? && Threshold(today, d.maxAge.value).Err?)
    ensures r.Ok? ==> |r.value| == FilledFields(d)
  {
    if !AgesInRange(d, today) then Err(OverflowError)
    else
      Ok(MinAgeFilter(d, today) + MaxAgeFilter(d, today) + ConditionFilter(d) + AilmentFilter(d)
         + FoodFilter(d) + MinDateFilter(d) + MaxDateFilter(d))
  }

  /** No filter keeps every row. */
  lemma KeepAllNone(facts: seq<Fact>)
    ensures KeepAll(facts, []) == facts
  {
    Seqs.WhereSpec(facts, (x: Fact) => HoldsAll([], x));
  }

  /** Blank filter fields leave the report unfiltered. */
  lemma BlankFiltersKeepAll(d: ReportInput, today: Dates.Date, facts: seq<Fact>)
    requires Dates.Valid(today)
    requires d.minAge.None? && d.maxAge.None? && d.condition.None? && d.ailment.None?
    requires d.food.None? && d.minDate.None? && d.maxDate.None?
    ensures ActiveFilters(d, today) == Ok([])
    ensures KeepAll(facts, ActiveFilters(d, today).value) == facts
  {
    KeepAllNone(facts);
  }

  // ---------------------------------------------------------------------
  // Grouping and counting: `.values('name').annotate(total=Count(...))`

  datatype Row = Row(name: string, total: nat)

  /** A joined row adds 1 to its group's count when the join found a row. */
  function Weight(x: Fact): nat {
    if x.related.Some? then 1 else 0
  }

  /** `Count(...)` for one name: the rows of that name the join matched. */
  function Count(facts: seq<Fact>, name: string): nat {
    |Seqs.Where(facts, (x: Fact) => x.name == name && x.related.Some?)|
  }

  function NamesOf(facts: seq<Fact>): seq<string> {
    if facts == [] then [] else NamesOf(facts[..|facts| - 1]) + [facts[|facts| - 1].name]
  }

  function RowNames(rows: seq<Row>): seq<string> {
    if rows == [] then [] else [rows[0].name] + RowNames(rows[1..])
  }

  /** The total of the first row with that name, or 0. */
  function TotalOf(rows: seq<Row>, name: string): nat {
    if rows == [] then 0 else if rows[0].name == name then rows[0].total else TotalOf(rows[1..], name)
  }

  /** Adds one joined row to the groups built so far. */
  function Tally(rows: seq<Row>, x: Fact): seq<Row> {
    if rows == [] then [Row(x.name, Weight(x))]
    else if rows[0].name == x.name then [Row(x.name, rows[0].total + Weight(x))] + rows[1..]
    else [rows[0]] + Tally(rows[1..], x)
  }

  /** The groups, built row by row. */
  function Group(facts: seq<Fact>): seq<Row> {
    if facts == [] then [] else Tally(Group(facts[..|facts| - 1]), facts[|facts| - 1])
  }

  lemma {:induction false} TallyNames(rows: seq<Row>, x: Fact)
    ensures RowNames(Tally(rows, x)) ==
      if x.name in RowNames(rows) then RowNames(rows) else RowNames(rows) + [x.name]
    decreases |rows|
  {
    if rows != [] && rows[0].name != x.name {
      TallyNames(rows[1..], x);
      assert RowNames(rows) == [rows[0].name] + RowNames(rows[1..]);
    }
  }

  lemma {:induction false} TallyTotal(rows: seq<Row>, x: Fact, name: string)
    ensures TotalOf(Tally(rows, x), name) == TotalOf(rows, name) + (if name == x.name then Weight(x) else 0)
    decreases |rows|
  {
    if rows != [] && rows[0].name != x.name {
      TallyTotal(rows[1..], x, name);
    }
  }

  /** One group per distinct name, in the order the names first occur. */
  lemma {:induction false} GroupNames(facts: seq<Fact>)
    ensures RowNames(Group(facts)) == Seqs.FirstOccurrences(NamesOf(facts))
    decreases |facts|
  {
    if facts != [] {
      var init := facts[..|facts| - 1];
      var x := facts[|facts| - 1];
      GroupNames(init);
      TallyNames(Group(init), x);
      assert NamesOf(facts) == NamesOf(init) + [x.name];
      assert NamesOf(facts)[..|NamesOf(facts)| - 1] == NamesOf(init);
    }
  }

  /** Each group's total is the number of matched rows with its name. */
  lemma {:induction false} GroupCounts(facts: seq<Fact>, name: string)
    ensures TotalOf(Group(facts), name) == Count(facts, name)
    decreases |facts|
  {
    if facts != [] {
      var init := facts[..|facts| - 1];
      var x := facts[|facts| - 1];
      GroupCounts(init, name);
      TallyTotal(Group(init), x, name);
      assert facts == init + [x];
      Seqs.WhereAppend(init, [x], (y: Fact) => y.name == name && y.related.Some?);
    }
  }

  lemma {:induction false} TotalOfDistinct(rows: seq<Row>, i: nat)
    requires i < |rows| && Seqs.NoDuplicates(RowNames(rows))
    ensures TotalOf(rows, rows[i].name) == rows[i].total
    decreases |rows|
  {
    if i > 0 {
      assert RowNames(rows)[0] == rows[0].name;
      RowNamesAt(rows, i);
      assert rows[0].name != rows[i].name;
      assert RowNames(rows[1..]) == RowNames(rows)[1..];
      TotalOfDistinct(rows[1..], i - 1);
    }
  }

  lemma {:induction false} RowNamesAt(rows: seq<Row>, i: nat)
    requires i < |rows|
    ensures |RowNames(rows)| == |rows| && RowNames(rows)[i] == rows[i].name
    decreases |rows|
  {
    if i > 0 {
      RowNamesAt(rows[1..], i - 1);
    } else if |rows| > 1 {
      RowNamesAt(rows[1..], 0);
    }
  }

  /** The grouping as the source promises it: the names of the groups are
      exactly the names of the rows, each once, and each group's total is
      the number of matched rows with that name. */
  lemma GroupSpec(facts: seq<Fact>)
    ensures Seqs.NoDuplicates(RowNames(Group(facts)))
    ensures forall n :: n in RowNames(Group(facts)) <==> n in NamesOf(facts)
    ensures forall i :: 0 <= i < |Group(facts)| ==>
      Group(facts)[i].total == Count(facts, Group(facts)[i].name)
  {
    GroupNames(facts);
    forall i | 0 <= i < |Group(facts)|
      ensures Group(facts)[i].total == Count(facts, Group(facts)[i].name)
    {
      TotalOfDistinct(Group(facts), i);
      GroupCounts(facts, Group(facts)[i].name);
    }
  }

  // ---------------------------------------------------------------------
  // Ordering and truncation: `.order_by('total')[:limit]`

  predicate SortedByTotal(rows: seq<Row>) {
    forall i, j :: 0 <= i < j < |rows| ==> rows[i].total <= rows[j].total
  }

  /** Puts `r` before the first row whose total is not smaller. */
  function Insert(r: Row, rows: seq<Row>): (s: seq<Row>)
    requires SortedByTotal(rows)
    ensures SortedByTotal(s)
    ensures multiset(s) == multiset(rows) + multiset{r}
    ensures |s| == |rows| + 1
  {
    if rows == [] then [r]
    else if r.total <= rows[0].total then [r] + rows
    else
      var rest := Insert(r, rows[1..]);
      assert rows == [rows[0]] + rows[1..];
      BelowInserted(rows[0], r, rows[1..], rest);
      ConsSorted(rows[0], rest);
      [rows[0]] + rest
  }

  /** A row no larger than every row of a sorted sequence can go in front. */
  lemma ConsSorted(x: Row, rows: seq<Row>)
    requires SortedByTotal(rows)
    requires forall k :: 0 <= k < |rows| ==> x.total <= rows[k].total
    ensures SortedByTotal([x] + rows)
  {
  }

  /** The head of a sorted sequence is no larger than anything in its tail
      with a larger row added. */
  lemma BelowInserted(x: Row, r: Row, tail: seq<Row>, rest: seq<Row>)
    requires SortedByTotal([x] + tail) && x.total < r.total
    requires multiset(rest) == multiset(tail) + multiset{r}
    ensures forall k :: 0 <= k < |rest| ==> x.total <= rest[k].total
  {
    forall k | 0 <= k < |rest| ensures x.total <= rest[k].total {
      var y := rest[k];
      assert y in multiset(rest);
      if y != r {
        assert y in multiset(tail);
        assert y in tail;
        var m :| 0 <= m < |tail| && tail[m] == y;
        var s := [x] + tail;
        assert s[0] == x && s[m + 1] == y;
        assert s[0].total <= s[m + 1].total;
      }
    }
  }

  /** Orders the groups by total, ascending. */
  function SortByTotal(rows: seq<Row>): (s: seq<Row>)
    ensures SortedByTotal(s)
    ensures multiset(s) == multiset(rows)
    ensures |s| == |rows|
  {
    if rows == [] then []
    else
      assert rows == [rows[0]] + rows[1..];
      Insert(rows[0], SortByTotal(rows[1..]))
  }

  /** `[:limit]`. */
  function Take(rows: seq<Row>, limit: nat): (s: seq<Row>)
    ensures |s| == if |rows| < limit then |rows| else limit
    ensures s == rows[..|s|]
  {
    if |rows| <= limit then rows else rows[..limit]
  }

  /** `queryset[:limit]` where `limit` may be `None`, which keeps every row. */
  function Slice(rows: seq<Row>, limit: Option<nat>): seq<Row> {
    if limit.None? then rows else Take(rows, limit.value)
  }

  /** The whole pipeline of one report over already joined rows. */
  function TopRows(facts: seq<Fact>, fs: seq<Filter>, limit: Option<nat>): seq<Row> {
    Slice(SortByTotal(Group(KeepAll(facts, fs))), limit)
  }

  /** What a report shows: at most `limit` groups when there is a limit,
      ordered by total, each a group of the filtered rows with its count,
      and every group when there is no limit or they all fit. */
  lemma TopRowsSpec(facts: seq<Fact>, fs: seq<Filter>, limit: Option<nat>)
    ensures var r := TopRows(facts, fs, limit);
      var g := Group(KeepAll(facts, fs));
      && (limit.Some? ==> |r| <= limit.value)
      && SortedByTotal(r)
      && (forall i :: 0 <= i < |r| ==> r[i] in g)
      && (forall i :: 0 <= i < |r| ==> r[i].total == Count(KeepAll(facts, fs), r[i].name))
      && (limit.None? || |g| <= limit.value ==> multiset(r) == multiset(g))
  {
    var g := Group(KeepAll(facts, fs));
    var s := SortByTotal(g);
    var r := TopRows(facts, fs, limit);
    GroupSpec(KeepAll(facts, fs));
    forall i | 0 <= i < |r|
      ensures r[i] in g && r[i].total == Count(KeepAll(facts, fs), r[i].name)
    {
      assert r[i] == s[i];
      assert s[i] in multiset(g);
      var k :| 0 <= k < |g| && g[k] == s[i];
    }
  }

  // ---------------------------------------------------------------------
  // The row limit

  /** The default row limit meant for a blank `limit` field. */
  const DefaultLimit := 10

  /** The row limit as written, `form.cleaned_data.get('limit', 10)`: a
      bound form's cleaned data holds every declared field, `None` when
      blank, so the default is never taken and a blank limit reaches the
      slice as `None`. */
  function LimitAsWritten(d: ReportInput): (r: Option<nat>)
    requires d.limit.Some? ==> d.limit.value >= 0
    ensures r.None? <==> d.limit.None?
    ensures r.Some? ==> r.value == d.limit.value
  {
    if d.limit.None? then None else Some(d.limit.value)
  }

  /** As written, a blank limit shows every group of the filtered report,
      so more than ten whenever there are more than ten groups. */
  lemma BlankLimitShowsEveryRow(facts: seq<Fact>, fs: seq<Filter>, d: ReportInput)
    requires d.limit.None?
    ensures var r := TopRows(facts, fs, LimitAsWritten(d));
      var g := Group(KeepAll(facts, fs));
      && multiset(r) == multiset(g)
      && (|g| > DefaultLimit ==> |r| > DefaultLimit)
  {
    TopRowsSpec(facts, fs, None);
    var r := TopRows(facts, fs, None);
    var g := Group(KeepAll(facts, fs));
    assert |multiset(r)| == |r| && |multiset(g)| == |g|;
  }

  /** The intended row limit: the submitted one, or 10 when blank. */
  function Limit(d: ReportInput): (n: nat)
    requires d.limit.Some? ==> d.limit.value >= 0
    ensures d.limit.None? ==> n == DefaultLimit
    ensures d.limit.Some? ==> n == d.limit.value
  {
    if d.limit.None? then DefaultLimit else d.limit.value
  }

  /** With the intended limit a blank field shows at most ten rows, and
      every group when there are no more than ten. */
  lemma {:induction false} BlankLimitCapsAtTen(facts: seq<Fact>, fs: seq<Filter>, d: ReportInput)
    requires d.limit.None?
    ensures var r := TopRows(facts, fs, Some(Limit(d)));
      var g := Group(KeepAll(facts, fs));
      && |r| <= DefaultLimit
      && (|g| <= DefaultLimit ==> multiset(r) == multiset(g))
  {
    TopRowsSpec(facts, fs, Some(Limit(d)));
  }
}
