/** `ExpenseService`: create, list, update and delete the expenses of a user,
    the totals of the current week, month and year, and the totals per month
    and per week. */
module ExpenseService {
  import opened Wrappers
  import opened Text
  import opened Store
  import opened Calendar
  import opened Tally

  /** The fields of an expense a request sets. */
  datatype ExpenseFields = ExpenseFields(amount: real, description: string, category: string,
                                         payMethod: string, expenseDate: Day)

  /** A stored expense. */
  type Expense = Row<ExpenseFields>

  function Amount(e: Expense): real { e.data.amount }

  /** The monthly breakdown's key: the first three letters of the upper-case
      month name, whatever the year. */
  function MonthOf(e: Expense): string { MonthKey(e.data.expenseDate.month) }

  /** The weekly breakdown's key: the label of the expense's Monday-to-Sunday week. */
  function WeekOf(e: Expense): string { WeekLabel(e.data.expenseDate) }

  /** `expenseDate BETWEEN start AND end`, both ends included. */
  predicate Between(d: Day, start: Day, end: Day)
  {
    Ord(start) <= Ord(d) <= Ord(end)
  }

  function InRange(start: Day, end: Day): Expense -> bool
  {
    (e: Expense) => Between(e.data.expenseDate, start, end)
  }

  /** The bounds `getCurrentWeekExpenses` sums over: from this week's Monday
      to today. */
  function CurrentWeek(today: Day): (r: (Day, Day))
    ensures r.1 == today && Weekday(r.0) == 0
    ensures Ord(r.0) <= Ord(r.1) < Ord(r.0) + 7
  {
    (WeekStart(today), today)
  }

  /** The bounds `getCurrentMonthExpenses` sums over: from the first of this
      month to today. */
  function CurrentMonth(today: Day): (r: (Day, Day))
    ensures r.1 == today && r.0 == Date(today.year, today.month, 1)
    ensures Ord(r.0) <= Ord(r.1)
  {
    (MonthStart(today), today)
  }

  /** The bounds `getCurrentYearExpenses` sums over: from January 1 of this
      year to today. */
  function CurrentYear(today: Day): (r: (Day, Day))
    ensures r.1 == today && r.0 == Date(today.year, 1, 1)
    ensures Ord(r.0) <= Ord(r.1)
  {
    (YearStart(today), today)
  }

  /** The week's range holds exactly the days of today's week up to today. */
  lemma InCurrentWeek(today: Day, d: Day)
    ensures Between(d, CurrentWeek(today).0, today) <==> WeekStart(d) == WeekStart(today) && Ord(d) <= Ord(today)
  {
    var n := Ord(today);
    OrdBounds(today);
    SameWeekStart(d, today);
    assert Ord(WeekStart(today)) == 7 * (n / 7);
    if Between(d, CurrentWeek(today).0, today) {
      DivIsUnique(Ord(d), 7, n / 7, Ord(d) - 7 * (n / 7));
    }
  }

  /** The month's range holds exactly the days of today's month up to today. */
  lemma InCurrentMonth(today: Day, d: Day)
    ensures Between(d, CurrentMonth(today).0, today) <==>
      d.year == today.year && d.month == today.month && d.day <= today.day
  {
    OrdOrder(d, CurrentMonth(today).0);
    OrdOrder(today, d);
  }

  /** The year's range holds exactly the days of today's year up to today. */
  lemma InCurrentYear(today: Day, d: Day)
    ensures Between(d, CurrentYear(today).0, today) <==> d.year == today.year && Ord(d) <= Ord(today)
  {
    var start := CurrentYear(today).0;
    if Ord(start) <= Ord(d) <= Ord(today) {
      OrdOrder(d, start);
      OrdOrder(today, d);
    }
  }

  /** The same month of any two years shares one bucket, and different months
      never do. */
  lemma MonthOfMerges(a: Expense, b: Expense)
    ensures MonthOf(a) == MonthOf(b) <==> a.data.expenseDate.month == b.data.expenseDate.month
  {
    MonthKeyInjective(a.data.expenseDate.month, b.data.expenseDate.month);
  }

  class ExpenseService {
    const expenses: Repository<ExpenseFields>
    const users: UserRepository

    /** Both repositories are well formed and every expense belongs to a stored user. */
    ghost predicate Valid()
      reads this, expenses, users
    {
      expenses.Valid() && users.Valid() && Owned(expenses.rows, users.users)
    }

    constructor (expenses: Repository<ExpenseFields>, users: UserRepository)
      requires expenses.Valid() && users.Valid() && Owned(expenses.rows, users.users)
      ensures Valid() && this.expenses == expenses && this.users == users
    {
      this.expenses := expenses;
      this.users := users;
    }

    /** `createExpense`: an unknown user fails and nothing is saved; otherwise
        the expense is saved with its user set, under the id the store
        generates (`newId`, one no expense has yet). */
    method CreateExpense(userId: Uuid, expense: ExpenseFields, newId: Uuid) returns (r: Result<Expense, Missing>)
      requires Valid() && newId !in expenses.rows
      modifies expenses
      ensures Valid()
      ensures userId !in users.users ==> r == Failure(MissingUser(userId)) && expenses.rows == old(expenses.rows)
      ensures userId in users.users ==>
        && r == Success(Row(newId, userId, expense))
        && expenses.rows == old(expenses.rows)[newId := Row(newId, userId, expense)]
    {
      var user := users.FindById(userId);
      if user.None? {
        return Failure(MissingUser(userId));
      }
      var saved := Row(newId, user.value.id, expense);
      expenses.Save(saved);
      return Success(saved);
    }

    /** `updateExpense`: an unknown id fails and nothing changes; otherwise the
        five fields are copied from `details` one setter at a time, while the
        id and the user stay, whatever `details` carries for them. */
    method UpdateExpense(expenseId: Uuid, details: Expense) returns (r: Result<Expense, Missing>)
      requires Valid()
      modifies expenses
      ensures Valid()
      ensures expenseId !in old(expenses.rows) ==>
        r == Failure(MissingRecord(expenseId)) && expenses.rows == old(expenses.rows)
      ensures expenseId in old(expenses.rows) ==>
        && r == Success(Row(expenseId, old(expenses.rows)[expenseId].user, details.data))
        && expenses.rows == old(expenses.rows)[expenseId := r.value]
    {
      var found := expenses.FindById(expenseId);
      if found.None? {
        return Failure(MissingRecord(expenseId));
      }
      var existing := found.value;
      existing := existing.(data := existing.data.(amount := details.data.amount));
      existing := existing.(data := existing.data.(description := details.data.description));
      existing := existing.(data := existing.data.(expenseDate := details.data.expenseDate));
      existing := existing.(data := existing.data.(category := details.data.category));
      existing := existing.(data := existing.data.(payMethod := details.data.payMethod));
      expenses.Save(existing);
      return Success(existing);
    }

    /** `getUserExpenses`: exactly the stored expenses of that user, each once. */
    method GetUserExpenses(userId: Uuid) returns (r: seq<Expense>)
      requires Valid()
      ensures r == OfUser(expenses.rows, userId)
      ensures forall e :: e in r <==> e in expenses.rows.Values && e.user == userId
    {
      r := expenses.FindByUserId(userId);
    }

    /** `deleteExpense`: an unknown id fails and nothing is deleted; otherwise
        that expense, and only it, is removed. */
    method DeleteExpense(expenseId: Uuid) returns (error: Option<Missing>)
      requires Valid()
      modifies expenses
      ensures Valid()
      ensures expenseId !in old(expenses.rows) ==>
        error == Some(MissingRecord(expenseId)) && expenses.rows == old(expenses.rows)
      ensures expenseId in old(expenses.rows) ==>
        error == None && expenses.rows == old(expenses.rows) - {expenseId}
    {
      var present := expenses.ExistsById(expenseId);
      if !present {
        return Some(MissingRecord(expenseId));
      }
      expenses.DeleteById(expenseId);
      return None;
    }

    /** `sumByUserAndExpenseDateBetween`: the total of the user's expenses dated
        from `start` to `end`, both included. */
    method SumBetween(userId: Uuid, start: Day, end: Day) returns (total: real)
      requires Valid()
      ensures total == SumWhere(OfUser(expenses.rows, userId), InRange(start, end), Amount, true)
    {
      var list := expenses.FindByUserId(userId);
      total := 0.0;
      var i := 0;
      while i < |list|
        invariant 0 <= i <= |list|
        invariant total == SumWhere(list[..i], InRange(start, end), Amount, true)
      {
        if Between(list[i].data.expenseDate, start, end) {
          total := total + list[i].data.amount;
        }
        assert list[..i + 1][..i] == list[..i];
        i := i + 1;
      }
      assert list[..i] == list;
    }

    /** `getCurrentWeekExpenses`: this week's spending up to today. */
    method CurrentWeekExpenses(userId: Uuid, today: Day) returns (total: real)
      requires Valid()
      ensures total == SumWhere(OfUser(expenses.rows, userId), InRange(CurrentWeek(today).0, today), Amount, true)
    {
      var range := CurrentWeek(today);
      total := SumBetween(userId, range.0, range.1);
    }

    /** `getCurrentMonthExpenses`: this month's spending up to today. */
    method CurrentMonthExpenses(userId: Uuid, today: Day) returns (total: real)
      requires Valid()
      ensures total == SumWhere(OfUser(expenses.rows, userId), InRange(CurrentMonth(today).0, today), Amount, true)
    {
      var range := CurrentMonth(today);
      total := SumBetween(userId, range.0, range.1);
    }

    /** `getCurrentYearExpenses`: this year's spending up to today. */
    method CurrentYearExpenses(userId: Uuid, today: Day) returns (total: real)
      requires Valid()
      ensures total == SumWhere(OfUser(expenses.rows, userId), InRange(CurrentYear(today).0, today), Amount, true)
    {
      var range := CurrentYear(today);
      total := SumBetween(userId, range.0, range.1);
    }

    /** `getMonthlyBreakdown`: one bucket per month name among the user's
        expenses, holding the total of that month over all years; the buckets
        add up to all the user's spending. */
    method MonthlyBreakdown(userId: Uuid) returns (r: Totals<string>)
      requires Valid()
      ensures DistinctKeys(r)
      ensures forall k :: k in KeysOf(r) <==> exists e :: e in OfUser(expenses.rows, userId) && MonthOf(e) == k
      ensures forall k :: Get(r, k) == SumWhere(OfUser(expenses.rows, userId), MonthOf, Amount, k)
      ensures SumOf(ValuesOf(r)) == SumAmounts(OfUser(expenses.rows, userId), Amount)
    {
      var list := expenses.FindByUserId(userId);
      r := Group(list, MonthOf, Amount);
      GroupDistinct(list, MonthOf, Amount);
      forall k ensures k in KeysOf(r) <==> exists e :: e in list && MonthOf(e) == k {
        KeySeqHas(list, MonthOf, k);
      }
    }

    /** `getWeeklyBreakdown`: one bucket per week label among the user's
        expenses, holding the total of the expenses with that label, in the
        labels' string order as a `TreeMap` keeps them; the buckets add up to
        all the user's spending. */
    method WeeklyBreakdown(userId: Uuid) returns (r: Totals<string>)
      requires Valid()
      ensures StrictlyAscending(r)
      ensures forall k :: k in KeysOf(r) <==> exists e :: e in OfUser(expenses.rows, userId) && WeekOf(e) == k
      ensures forall k :: Get(r, k) == SumWhere(OfUser(expenses.rows, userId), WeekOf, Amount, k)
      ensures SumOf(ValuesOf(r)) == SumAmounts(OfUser(expenses.rows, userId), Amount)
    {
      var list := expenses.FindByUserId(userId);
      r := GroupSorted(list, WeekOf, Amount);
      forall k ensures k in KeysOf(r) <==> exists e :: e in list && WeekOf(e) == k {
        KeySeqHas(list, WeekOf, k);
      }
    }
  }

  function Spent(id: Uuid, user: Uuid, amount: real, date: Day): Expense
  {
    Row(id, user, ExpenseFields(amount, "", "", "", date))
  }

  /** Day numbers of the days of July and August 2025 and of July 2031. */
  lemma OrdJuly2025(d: Day)
    requires d.year == 2025 && d.month == 7
    ensures Ord(d) == 739431 + d.day
  {
  }

  lemma OrdAugust2025(d: Day)
    requires d.year == 2025 && d.month == 8
    ensures Ord(d) == 739462 + d.day
  {
  }

  lemma OrdJuly2031(d: Day)
    requires d.year == 2031 && d.month == 7
    ensures Ord(d) == 741622 + d.day
  {
  }

  /** An expense's week label, read off the Monday and the Sunday of its week. */
  lemma WeekOfExpense(e: Expense, monday: Day, sunday: Day, name: string)
    requires Ord(monday) % 7 == 0 && Ord(monday) <= Ord(e.data.expenseDate) < Ord(monday) + 7
    requires Ord(sunday) == Ord(monday) + 6
    requires FormatMonthDay(monday) + " \U{2013} " + FormatMonthDay(sunday) == name
    ensures WeekOf(e) == name
  {
    WeekLabelFrom(e.data.expenseDate, monday, sunday);
  }

  /** Grouping two items under one key. */
  lemma GroupSortedOneKey<T>(a: T, b: T, key: T -> string, amount: T -> real, k: string)
    requires key(a) == k && key(b) == k
    ensures GroupSorted([a, b], key, amount) == [(k, amount(a) + amount(b))]
  {
    var items := [a, b];
    assert items[..1] == [a] && [a][..0] == [];
    assert GroupSorted([a], key, amount) == [(k, amount(a))];
  }

  /** Grouping two items under a first key and a third under a later one. */
  lemma GroupSortedTwoKeys<T>(a: T, b: T, c: T, key: T -> string, amount: T -> real, k1: string, k2: string)
    requires key(a) == k1 && key(b) == k1 && key(c) == k2 && Lt(k1, k2)
    ensures GroupSorted([a, b, c], key, amount) == [(k1, amount(a) + amount(b)), (k2, amount(c))]
  {
    var items := [a, b, c];
    assert items[..2] == [a, b];
    GroupSortedOneKey(a, b, key, amount, k1);
    LtStrictTotal(k1, k2);
    var m := [(k1, amount(a) + amount(b))];
    assert m[1..] == [];
    assert AddSorted([], k2, amount(c)) == [(k2, amount(c))];
    assert AddSorted(m, k2, amount(c)) == [m[0]] + AddSorted(m[1..], k2, amount(c));
  }

  /** `MMM d` of a day whose short month name and digits are known. */
  lemma MonthDayText(d: Day, month: string, digits: string)
    requires MonthShort(d.month) == month && Digits(d.day) == digits
    ensures FormatMonthDay(d) == month + " " + digits
  {
  }

  /** The weeks the examples below fall in: each day of a week carries the
      label of its Monday and its Sunday. */
  lemma LabelOfJuly14Of2025(monday: Day, sunday: Day)
    requires monday == Date(2025, 7, 14) && sunday == Date(2025, 7, 20)
    ensures FormatMonthDay(monday) + " \U{2013} " + FormatMonthDay(sunday) == "Jul 14 \U{2013} Jul 20"
  {
    assert Digits(14) == "14";
    assert Digits(20) == "20";
    MonthDayText(monday, "Jul", "14");
    MonthDayText(sunday, "Jul", "20");
  }

  lemma WeekOfJuly14Of2025(e: Expense)
    requires e.data.expenseDate.year == 2025 && e.data.expenseDate.month == 7
    requires 14 <= e.data.expenseDate.day <= 20
    ensures WeekOf(e) == "Jul 14 \U{2013} Jul 20"
  {
    var monday: Day := Date(2025, 7, 14);
    var sunday: Day := Date(2025, 7, 20);
    OrdJuly2025(monday);
    OrdJuly2025(sunday);
    OrdJuly2025(e.data.expenseDate);
    LabelOfJuly14Of2025(monday, sunday);
    WeekOfExpense(e, monday, sunday, "Jul 14 \U{2013} Jul 20");
  }

  lemma LabelOfJuly21Of2025(monday: Day, sunday: Day)
    requires monday == Date(2025, 7, 21) && sunday == Date(2025, 7, 27)
    ensures FormatMonthDay(monday) + " \U{2013} " + FormatMonthDay(sunday) == "Jul 21 \U{2013} Jul 27"
  {
    assert Digits(21) == "21";
    assert Digits(27) == "27";
    MonthDayText(monday, "Jul", "21");
    MonthDayText(sunday, "Jul", "27");
  }

  lemma WeekOfJuly21Of2025(e: Expense)
    requires e.data.expenseDate.year == 2025 && e.data.expenseDate.month == 7
    requires 21 <= e.data.expenseDate.day <= 27
    ensures WeekOf(e) == "Jul 21 \U{2013} Jul 27"
  {
    var monday: Day := Date(2025, 7, 21);
    var sunday: Day := Date(2025, 7, 27);
    OrdJuly2025(monday);
    OrdJuly2025(sunday);
    OrdJuly2025(e.data.expenseDate);
    LabelOfJuly21Of2025(monday, sunday);
    WeekOfExpense(e, monday, sunday, "Jul 21 \U{2013} Jul 27");
  }

  lemma LabelOfJuly28Of2025(monday: Day, sunday: Day)
    requires monday == Date(2025, 7, 28) && sunday == Date(2025, 8, 3)
    ensures FormatMonthDay(monday) + " \U{2013} " + FormatMonthDay(sunday) == "Jul 28 \U{2013} Aug 3"
  {
    assert Digits(28) == "28";
    assert Digits(3) == "3";
    MonthDayText(monday, "Jul", "28");
    MonthDayText(sunday, "Aug", "3");
  }

  lemma WeekOfJuly28Of2025(e: Expense)
    requires e.data.expenseDate.year == 2025 && e.data.expenseDate.month == 7
    requires 28 <= e.data.expenseDate.day
    ensures WeekOf(e) == "Jul 28 \U{2013} Aug 3"
  {
    var monday: Day := Date(2025, 7, 28);
    var sunday: Day := Date(2025, 8, 3);
    OrdJuly2025(monday);
    OrdAugust2025(sunday);
    OrdJuly2025(e.data.expenseDate);
    LabelOfJuly28Of2025(monday, sunday);
    WeekOfExpense(e, monday, sunday, "Jul 28 \U{2013} Aug 3");
  }

  lemma LabelOfAugust4Of2025(monday: Day, sunday: Day)
    requires monday == Date(2025, 8, 4) && sunday == Date(2025, 8, 10)
    ensures FormatMonthDay(monday) + " \U{2013} " + FormatMonthDay(sunday) == "Aug 4 \U{2013} Aug 10"
  {
    assert Digits(4) == "4";
    assert Digits(10) == "10";
    MonthDayText(monday, "Aug", "4");
    MonthDayText(sunday, "Aug", "10");
  }

  lemma WeekOfAugust4Of2025(e: Expense)
    requires e.data.expenseDate.year == 2025 && e.data.expenseDate.month == 8
    requires 4 <= e.data.expenseDate.day <= 10
    ensures WeekOf(e) == "Aug 4 \U{2013} Aug 10"
  {
    var monday: Day := Date(2025, 8, 4);
    var sunday: Day := Date(2025, 8, 10);
    OrdAugust2025(monday);
    OrdAugust2025(sunday);
    OrdAugust2025(e.data.expenseDate);
    LabelOfAugust4Of2025(monday, sunday);
    WeekOfExpense(e, monday, sunday, "Aug 4 \U{2013} Aug 10");
  }

  lemma LabelOfJuly14Of2031(monday: Day, sunday: Day)
    requires monday == Date(2031, 7, 14) && sunday == Date(2031, 7, 20)
    ensures FormatMonthDay(monday) + " \U{2013} " + FormatMonthDay(sunday) == "Jul 14 \U{2013} Jul 20"
  {
    assert Digits(14) == "14";
    assert Digits(20) == "20";
    MonthDayText(monday, "Jul", "14");
    MonthDayText(sunday, "Jul", "20");
  }

  lemma WeekOfJuly14Of2031(e: Expense)
    requires e.data.expenseDate.year == 2031 && e.data.expenseDate.month == 7
    requires 14 <= e.data.expenseDate.day <= 20
    ensures WeekOf(e) == "Jul 14 \U{2013} Jul 20"
  {
    var monday: Day := Date(2031, 7, 14);
    var sunday: Day := Date(2031, 7, 20);
    OrdJuly2031(monday);
    OrdJuly2031(sunday);
    OrdJuly2031(e.data.expenseDate);
    LabelOfJuly14Of2031(monday, sunday);
    WeekOfExpense(e, monday, sunday, "Jul 14 \U{2013} Jul 20");
  }

  /** As strings, "Jul 14 \U{2013} Jul 20" sorts before "Jul 21 \U{2013} Jul 27": they
      first differ in the fifth character, '1' against '2'. */
  lemma JulyLabelsAscend()
    ensures Lt("Jul 14 \U{2013} Jul 20", "Jul 21 \U{2013} Jul 27")
  {
    LtAtFirstDifference("Jul 14 \U{2013} Jul 20", "Jul 21 \U{2013} Jul 27", 4);
  }

  /** As strings, "Aug 4 \U{2013} Aug 10" sorts before "Jul 28 \U{2013} Aug 3": 'A'
      comes before 'J'. */
  lemma AugustBeforeJuly()
    ensures Lt("Aug 4 \U{2013} Aug 10", "Jul 28 \U{2013} Aug 3")
  {
    LtAtFirstDifference("Aug 4 \U{2013} Aug 10", "Jul 28 \U{2013} Aug 3", 0);
  }

  /** The unit test's three expenses: 10 on Monday July 14 2025 and 20 on the
      Wednesday after share the bucket "Jul 14 \U{2013} Jul 20" with 30; 50 on the
      next Monday makes a bucket "Jul 21 \U{2013} Jul 27" of its own. */
  lemma WeeklyTestExample(u: Uuid, jul14: Day, jul16: Day, jul21: Day)
    requires jul14 == Date(2025, 7, 14) && jul16 == Date(2025, 7, 16) && jul21 == Date(2025, 7, 21)
    ensures GroupSorted([Spent(1, u, 10.0, jul14), Spent(2, u, 20.0, jul16), Spent(3, u, 50.0, jul21)], WeekOf, Amount)
         == [("Jul 14 \U{2013} Jul 20", 30.0), ("Jul 21 \U{2013} Jul 27", 50.0)]
  {
    var e1, e2, e3 := Spent(1, u, 10.0, jul14), Spent(2, u, 20.0, jul16), Spent(3, u, 50.0, jul21);
    WeekOfJuly14Of2025(e1);
    WeekOfJuly14Of2025(e2);
    WeekOfJuly21Of2025(e3);
    JulyLabelsAscend();
    GroupSortedTwoKeys(e1, e2, e3, WeekOf, Amount, "Jul 14 \U{2013} Jul 20", "Jul 21 \U{2013} Jul 27");
  }

  /** Grouping two items whose keys come in descending order. */
  lemma GroupSortedBackwards<T>(a: T, b: T, key: T -> string, amount: T -> real, ka: string, kb: string)
    requires key(a) == ka && key(b) == kb && Lt(kb, ka)
    ensures GroupSorted([a, b], key, amount) == [(kb, amount(b)), (ka, amount(a))]
  {
    var items := [a, b];
    assert items[..1] == [a] && [a][..0] == [];
    assert GroupSorted([a], key, amount) == [(ka, amount(a))];
    LtStrictTotal(kb, ka);
  }

  /** Week labels sort as strings, not as dates: the week of Monday August 4
      2025 comes before the week of Monday July 28 2025 in the weekly
      breakdown. */
  lemma WeeklyOrderIsNotChronological(u: Uuid, jul28: Day, aug4: Day)
    requires jul28 == Date(2025, 7, 28) && aug4 == Date(2025, 8, 4)
    ensures Ord(jul28) < Ord(aug4)
    ensures KeysOf(GroupSorted([Spent(1, u, 10.0, jul28), Spent(2, u, 20.0, aug4)], WeekOf, Amount))
         == ["Aug 4 \U{2013} Aug 10", "Jul 28 \U{2013} Aug 3"]
  {
    var e1, e2 := Spent(1, u, 10.0, jul28), Spent(2, u, 20.0, aug4);
    OrdJuly2025(jul28);
    OrdAugust2025(aug4);
    WeekOfJuly28Of2025(e1);
    WeekOfAugust4Of2025(e2);
    AugustBeforeJuly();
    GroupSortedBackwards(e1, e2, WeekOf, Amount, "Jul 28 \U{2013} Aug 3", "Aug 4 \U{2013} Aug 10");
  }

  /** A label names no year: July 14 2025 and July 14 2031 are six years apart
      and still share one bucket. */
  lemma WeeksOfDifferentYearsShareABucket(u: Uuid, d2025: Day, d2031: Day)
    requires d2025 == Date(2025, 7, 14) && d2031 == Date(2031, 7, 14)
    ensures Ord(d2025) + 7 < Ord(d2031)
    ensures GroupSorted([Spent(1, u, 10.0, d2025), Spent(2, u, 20.0, d2031)], WeekOf, Amount)
         == [("Jul 14 \U{2013} Jul 20", 30.0)]
  {
    var e1, e2 := Spent(1, u, 10.0, d2025), Spent(2, u, 20.0, d2031);
    OrdJuly2025(d2025);
    OrdJuly2031(d2031);
    WeekOfJuly14Of2025(e1);
    WeekOfJuly14Of2031(e2);
    GroupSortedOneKey(e1, e2, WeekOf, Amount, "Jul 14 \U{2013} Jul 20");
  }
}
