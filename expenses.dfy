/** The expenses page: the state of the `Expenses` component and its
    handlers (fetch, create, the two pickers, page size, arrow-key paging),
    and the sorted page it derives from that state on every render. */
module ExpensesPage {
  import opened Wrappers
  import opened Text
  import opened Ledger

  /** An expense as the server sends it; its category may be missing. */
  datatype Expense = Expense(id: string, amount: real, description: string, expenseDate: string,
                             category: Option<string>, payMethod: string)

  /** The body of the create request: `{amount, description, expenseDate, category, payMethod}`. */
  datatype ExpensePayload = ExpensePayload(amount: AmountText, description: string, expenseDate: string,
                                           category: string, payMethod: string)

  /** The category picker's options, after its empty "..." choice. */
  const CategoryOptions := ["food", "utilities", "travel", "fees", "subscriptions",
    "investments", "entertainment", "gifts", "health", "items", "miscellaneous"]

  /** The payment-method picker's options, after its empty "..." choice. */
  const PaymentMethods := ["cash", "card", "upi", "cash+upi", "cash+card", "card+upi"]

  function ExpenseDate(e: Expense): string { e.expenseDate }

  /** `expense.category || "uncategorized"`: the category a row shows. */
  function CategoryLabel(e: Expense): (r: string)
    ensures r != ""
    ensures e.category.Some? && e.category.value != "" ==> r == e.category.value
    ensures e.category.None? || e.category.value == "" ==> r == "uncategorized"
  {
    if e.category.Some? && e.category.value != "" then e.category.value else "uncategorized"
  }

  class Expenses {
    /** `localStorage.getItem("userId")`. */
    const userId: Option<string>
    var expenses: seq<Expense>
    var amount: AmountText
    var desc: string
    var expenseDate: string
    var category: string
    var payMethod: string
    var error: string
    var currentPage: int
    var itemsPerPage: int

    /** The page is at least 1, the page size is one the selector offers, and
        each picker holds its empty choice or one of its options. */
    ghost predicate Valid()
      reads this
    {
      && currentPage >= 1 && itemsPerPage in PageSizes
      && (category == "" || category in CategoryOptions)
      && (payMethod == "" || payMethod in PaymentMethods)
    }

    /** The initial state: nothing fetched, an empty form, page 1 of 10 entries. */
    constructor (userId: Option<string>)
      ensures Valid() && this.userId == userId
      ensures expenses == [] && error == ""
      ensures amount == Blank && desc == "" && expenseDate == "" && category == "" && payMethod == ""
      ensures currentPage == 1 && itemsPerPage == 10
    {
      this.userId := userId;
      expenses := [];
      amount := Blank;
      desc := "";
      expenseDate := "";
      category := "";
      payMethod := "";
      error := "";
      currentPage := 1;
      itemsPerPage := 10;
    }

    /** `fetchExpenses`: with a user id, the list becomes the server's answer;
        `response` is `None` when the request fails, which leaves the list. */
    method Fetch(response: Option<seq<Expense>>)
      modifies this`expenses
      ensures expenses == if SignedIn(userId) && response.Some? then response.value else old(expenses)
    {
      if SignedIn(userId) && response.Some? {
        expenses := response.value;
      }
    }

    /** The category picker offers its empty choice and its options only. */
    method SelectCategory(c: string)
      requires Valid() && (c == "" || c in CategoryOptions)
      modifies this`category
      ensures Valid() && category == c
    {
      category := c;
    }

    /** The payment-method picker offers its empty choice and its options only. */
    method SelectPayMethod(m: string)
      requires Valid() && (m == "" || m in PaymentMethods)
      modifies this`payMethod
      ensures Valid() && payMethod == m
    {
      payMethod := m;
    }

    /** `createExpense`: the checks run first, now over five fields; a failing
        one sets its message and nothing is sent. Otherwise the form is posted
        (`sent`), and what is posted always names one of the offered
        categories and payment methods; when the post succeeds (`posted`) the
        form and error are cleared and the list is fetched again (`reloaded`,
        the answer to that fetch). */
    method Create(now: string, posted: bool, reloaded: Option<seq<Expense>>) returns (sent: Option<ExpensePayload>)
      requires Valid()
      modifies this`expenses, this`amount, this`desc, this`expenseDate, this`category, this`payMethod, this`error
      ensures Valid()
      ensures sent.Some? ==> sent.value.category in CategoryOptions && sent.value.payMethod in PaymentMethods
      ensures var check := CheckEntry(old(amount), old(expenseDate), [old(desc), old(category), old(payMethod)], DatePart(now));
        && sent == (if check.None? then Some(ExpensePayload(old(amount), old(desc), old(expenseDate), old(category), old(payMethod))) else None)
        && (check.Some? ==> error == check.value)
        && (check.None? && posted ==>
              amount == Blank && desc == "" && expenseDate == "" && category == "" && payMethod == "" && error == ""
              && expenses == if SignedIn(userId) && reloaded.Some? then reloaded.value else old(expenses))
        && (check.Some? || !posted ==>
              amount == old(amount) && desc == old(desc) && expenseDate == old(expenseDate)
              && category == old(category) && payMethod == old(payMethod) && expenses == old(expenses))
        && (check.None? && !posted ==> error == old(error))
    {
      var check := CheckEntry(amount, expenseDate, [desc, category, payMethod], DatePart(now));
      if check.Some? {
        error := check.value;
        return None;
      }
      var fields := [expenseDate] + [desc, category, payMethod];
      assert AllFilled(amount, fields);
      assert fields[2] == category && fields[3] == payMethod;
      sent := Some(ExpensePayload(amount, desc, expenseDate, category, payMethod));
      if posted {
        amount := Blank;
        desc := "";
        expenseDate := "";
        category := "";
        payMethod := "";
        error := "";
        Fetch(reloaded);
      }
    }

    /** Choosing a page size also goes back to page 1. */
    method SetItemsPerPage(n: int)
      requires Valid() && n in PageSizes
      modifies this`itemsPerPage, this`currentPage
      ensures Valid() && itemsPerPage == n && currentPage == 1
    {
      itemsPerPage := n;
      currentPage := 1;
    }

    /** The window's `keydown` listener. A page within range stays within
        range. */
    method KeyDown(key: Key)
      requires Valid()
      modifies this`currentPage
      ensures Valid()
      ensures currentPage == NextPage(key, old(currentPage), TotalPages())
      ensures 1 <= old(currentPage) <= TotalPages() ==> currentPage <= TotalPages()
    {
      currentPage := NextPage(key, currentPage, TotalPages());
    }

    /** `sortedExpenses`: every fetched expense, newest first. */
    function Sorted(): (r: seq<Expense>)
      reads this
      ensures NewestFirst(r, ExpenseDate)
      ensures multiset(r) == multiset(expenses)
    {
      SortNewestFirst(expenses, ExpenseDate)
    }

    /** `Math.ceil(expenses.length / itemsPerPage)`, counted on the fetched
        list; an empty list reads "page 1 of 0". */
    function TotalPages(): (r: int)
      reads this
      requires Valid()
      ensures r == 0 <==> expenses == []
    {
      PageCount(|expenses|, itemsPerPage)
    }

    /** `paginatedExpenses`: the current page of the sorted list. It is empty,
        and the page reads "no entries yet", exactly when the current page
        lies past the last page. */
    function Shown(): (r: seq<Expense>)
      reads this
      requires Valid()
      ensures |r| <= itemsPerPage
      ensures forall e :: e in r ==> e in expenses
      ensures r == [] <==> currentPage > TotalPages()
    {
      var sorted := Sorted();
      PermutationFacts(sorted, expenses);
      var r := PageOf(sorted, currentPage, itemsPerPage);
      PageEmptiness(sorted, currentPage, itemsPerPage);
      assert forall e :: e in r ==> e in sorted;
      r
    }
  }

  /** On page 1, a list that fits one page is shown whole, newest first: the
      end-to-end test's two expenses give two rows. */
  lemma FirstPageShowsAll(page: Expenses)
    requires page.Valid() && page.currentPage == 1 && |page.expenses| <= page.itemsPerPage
    ensures page.Shown() == page.Sorted()
    ensures |page.Shown()| == |page.expenses|
  {
    var sorted := page.Sorted();
    PermutationFacts(sorted, page.expenses);
    assert sorted[0..|sorted|] == sorted;
  }

  /** Twenty expenses fill two pages of ten, shown "page 1 of 2" with ten rows,
      and four pages of five, shown "page 1 of 4" with five rows. */
  lemma TwentyExpensesExample(page: Expenses)
    requires page.Valid() && page.currentPage == 1 && |page.expenses| == 20
    ensures page.itemsPerPage == 10 ==> page.TotalPages() == 2 && |page.Shown()| == 10
    ensures page.itemsPerPage == 5 ==> page.TotalPages() == 4 && |page.Shown()| == 5
  {
    PermutationFacts(page.Sorted(), page.expenses);
  }
}
