/** The dashboard: it fetches the user's expenses once and shows how many
    there are, what they add up to and how many categories they span, or a
    notice while there are none. */
module Dashboard {
  import opened Wrappers
  import opened Tally
  import opened Ledger

  /** An expense as the dashboard reads it: the amount and the category may
      be missing. */
  datatype Entry = Entry(id: string, amount: Option<real>, category: Option<string>, date: string)

  const EmptyStateText := "statistics will appear once you start recording expenses"

  /** `parseFloat(exp.amount || 0)`: a missing amount counts as 0. */
  function AmountOrZero(e: Entry): (r: real)
    ensures e.amount.None? ==> r == 0.0
    ensures e.amount.Some? ==> r == e.amount.value
  {
    if e.amount.Some? then e.amount.value else 0.0
  }

  /** `exp.category`, a missing one included as a value of its own. */
  function Category(e: Entry): Option<string> { e.category }

  /** `new Set(data.map(exp => exp.category)).size`: the number of distinct
      categories, a missing category counting as one more. */
  function CategoryCount(data: seq<Entry>): (r: nat)
    ensures r == |set i | 0 <= i < |data| :: data[i].category|
    ensures r <= |data|
    ensures r == 0 <==> data == []
  {
    var cats := KeySeq(data, Category);
    FirstSeenCount(cats);
    CategorySet(data);
    assert data != [] ==> data[0].category in (set i | 0 <= i < |data| :: data[i].category);
    |FirstSeen(cats)|
  }

  lemma CategorySet(data: seq<Entry>)
    ensures (set c | c in KeySeq(data, Category)) == (set i | 0 <= i < |data| :: data[i].category)
  {
    var cats := KeySeq(data, Category);
    forall c | c in cats ensures c in set i | 0 <= i < |data| :: data[i].category {
      var i :| 0 <= i < |cats| && cats[i] == c;
    }
    forall i | 0 <= i < |data| ensures data[i].category in cats {
      assert cats[i] == data[i].category;
    }
  }

  class DashboardPage {
    /** `localStorage.getItem("userId")`. */
    const userId: Option<string>
    var expenses: seq<Entry>
    var totalAmount: real
    var totalEntries: int
    var uniqueCategories: int

    /** The counters describe the fetched list. */
    ghost predicate Valid()
      reads this
    {
      && totalEntries == |expenses|
      && totalAmount == SumAmounts(expenses, AmountOrZero)
      && uniqueCategories == CategoryCount(expenses)
    }

    /** The initial state: nothing fetched, every counter 0. */
    constructor (userId: Option<string>)
      ensures Valid() && this.userId == userId
      ensures expenses == [] && totalAmount == 0.0 && totalEntries == 0 && uniqueCategories == 0
    {
      this.userId := userId;
      expenses := [];
      totalAmount := 0.0;
      totalEntries := 0;
      uniqueCategories := 0;
    }

    /** `fetchExpenses`: with a user id, the answer replaces the list and the
        three counters are computed from it; `response` is `None` when the
        request fails, which leaves the list and every counter as they were. */
    method Fetch(response: Option<seq<Entry>>)
      requires Valid()
      modifies this
      ensures Valid()
      ensures SignedIn(userId) && response.Some? ==>
        && expenses == response.value
        && totalEntries == |response.value|
        && totalAmount == SumAmounts(response.value, AmountOrZero)
        && uniqueCategories == CategoryCount(response.value)
      ensures !(SignedIn(userId) && response.Some?) ==>
        && expenses == old(expenses) && totalEntries == old(totalEntries)
        && totalAmount == old(totalAmount) && uniqueCategories == old(uniqueCategories)
    {
      if !SignedIn(userId) || response.None? {
        return;
      }
      var data := response.value;
      expenses := data;
      totalEntries := |data|;
      totalAmount := SumAmounts(data, AmountOrZero);
      uniqueCategories := CategoryCount(data);
    }

    /** `totalEntries === 0`: the notice shows exactly while no expense is
        loaded, and then the total and the category count read 0 too. */
    function ShowsEmptyState(): (r: bool)
      reads this
      requires Valid()
      ensures r <==> expenses == []
      ensures r ==> totalAmount == 0.0 && uniqueCategories == 0
    {
      totalEntries == 0
    }
  }

  /** The end-to-end test's four expenses: four entries, 476.25 in all, three
      categories. */
  lemma FourExpensesExample()
    ensures var data := [
        Entry("1", Some(150.75), Some("Food"), "2023-10-26"),
        Entry("2", Some(45.50), Some("Transport"), "2023-10-25"),
        Entry("3", Some(200.00), Some("Shopping"), "2023-10-24"),
        Entry("4", Some(80.00), Some("Food"), "2023-10-23")];
      && SumAmounts(data, AmountOrZero) == 476.25
      && CategoryCount(data) == 3
  {
    var data := [
        Entry("1", Some(150.75), Some("Food"), "2023-10-26"),
        Entry("2", Some(45.50), Some("Transport"), "2023-10-25"),
        Entry("3", Some(200.00), Some("Shopping"), "2023-10-24"),
        Entry("4", Some(80.00), Some("Food"), "2023-10-23")];
    assert data[..3] == [data[0], data[1], data[2]];
    assert data[..3][..2] == [data[0], data[1]];
    assert data[..3][..2][..1] == [data[0]];
    assert [data[0]][..0] == [];
    assert SumAmounts([data[0]], AmountOrZero) == 150.75;
    assert SumAmounts([data[0], data[1]], AmountOrZero) == 196.25;
    assert SumAmounts([data[0], data[1], data[2]], AmountOrZero) == 396.25;
    var cats := (set i | 0 <= i < |data| :: data[i].category);
    assert cats == {Some("Food"), Some("Transport"), Some("Shopping")} by {
      assert data[0].category == Some("Food") && data[1].category == Some("Transport");
      assert data[2].category == Some("Shopping");
    }
    assert Some("Food") != Some("Transport") && Some("Food") != Some("Shopping") && Some("Transport") != Some("Shopping");
  }
}
