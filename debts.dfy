/** The debts page: the state of the `Debts` component and its handlers
    (fetch, create, search, page size, arrow-key paging), and the list, page
    and total it derives from that state on every render. */
module DebtsPage {
  import opened Wrappers
  import opened Text
  import opened Ledger
  import Tally

  /** A debt as the server sends it: money owed to `lender`, which the page
      treats as possibly missing. */
  datatype Debt = Debt(id: string, amount: real, description: string, debtDate: string, lender: Option<string>)

  /** The body of the create request: `{amount, description, debtDate, lender}`. */
  datatype DebtPayload = DebtPayload(amount: AmountText, description: string, debtDate: string, lender: string)

  function DebtDate(d: Debt): string { d.debtDate }
  function Amount(d: Debt): real { d.amount }

  /** `debt.lender || ""`: the lender searched on, empty when missing. */
  function Lender(d: Debt): (r: string)
    ensures d.lender.None? ==> r == ""
    ensures d.lender.Some? ==> r == d.lender.value
  {
    if d.lender.Some? then d.lender.value else ""
  }

  class Debts {
    /** `localStorage.getItem("userId")`. */
    const userId: Option<string>
    var debts: seq<Debt>
    var amount: AmountText
    var desc: string
    var debtDate: string
    var lender: string
    var error: string
    var currentPage: int
    var itemsPerPage: int
    var searchTerm: string

    /** The page is at least 1 and the page size is one the selector offers. */
    ghost predicate Valid()
      reads this
    {
      currentPage >= 1 && itemsPerPage in PageSizes
    }

    /** The initial state: nothing fetched, an empty form, page 1 of 10 entries. */
    constructor (userId: Option<string>)
      ensures Valid() && this.userId == userId
      ensures debts == [] && error == ""
      ensures amount == Blank && desc == "" && debtDate == "" && lender == ""
      ensures currentPage == 1 && itemsPerPage == 10 && searchTerm == ""
    {
      this.userId := userId;
      debts := [];
      amount := Blank;
      desc := "";
      debtDate := "";
      lender := "";
      error := "";
      currentPage := 1;
      itemsPerPage := 10;
      searchTerm := "";
    }

    /** `fetchDebts`: with a user id, the list becomes the server's answer;
        `response` is `None` when the request fails, which leaves the list. */
    method Fetch(response: Option<seq<Debt>>)
      modifies this`debts
      ensures debts == if SignedIn(userId) && response.Some? then response.value else old(debts)
    {
      if SignedIn(userId) && response.Some? {
        debts := response.value;
      }
    }

    /** `createDebt`: the checks run first; a failing one sets its message and
        nothing is sent. Otherwise the form is posted (`sent`); when the post
        succeeds (`posted`) the form and error are cleared and the list is
        fetched again (`reloaded`, the answer to that fetch). */
    method Create(now: string, posted: bool, reloaded: Option<seq<Debt>>) returns (sent: Option<DebtPayload>)
      modifies this`debts, this`amount, this`desc, this`debtDate, this`lender, this`error
      ensures var check := CheckEntry(old(amount), old(debtDate), [old(desc), old(lender)], DatePart(now));
        && sent == (if check.None? then Some(DebtPayload(old(amount), old(desc), old(debtDate), old(lender))) else None)
        && (check.Some? ==> error == check.value)
        && (check.None? && posted ==>
              amount == Blank && desc == "" && debtDate == "" && lender == "" && error == ""
              && debts == if SignedIn(userId) && reloaded.Some? then reloaded.value else old(debts))
        && (check.Some? || !posted ==>
              amount == old(amount) && desc == old(desc) && debtDate == old(debtDate)
              && lender == old(lender) && debts == old(debts))
        && (check.None? && !posted ==> error == old(error))
    {
      var check := CheckEntry(amount, debtDate, [desc, lender], DatePart(now));
      if check.Some? {
        error := check.value;
        return None;
      }
      sent := Some(DebtPayload(amount, desc, debtDate, lender));
      if posted {
        amount := Blank;
        desc := "";
        debtDate := "";
        lender := "";
        error := "";
        Fetch(reloaded);
      }
    }

    /** Typing in the search box also goes back to page 1. */
    method SetSearchTerm(term: string)
      requires Valid()
      modifies this`searchTerm, this`currentPage
      ensures Valid() && searchTerm == term && currentPage == 1
    {
      searchTerm := term;
      currentPage := 1;
    }

    /** Choosing a page size also goes back to page 1. */
    method SetItemsPerPage(n: int)
      requires Valid() && n in PageSizes
      modifies this`itemsPerPage, this`currentPage
      ensures Valid() && itemsPerPage == n && currentPage == 1
    {
      itemsPerPage := n;
      currentPage := 1;
    }

    /** The window's `keydown` listener. A page within range stays within
        range. */
    method KeyDown(key: Key)
      requires Valid()
      modifies this`currentPage
      ensures Valid()
      ensures currentPage == NextPage(key, old(currentPage), TotalPages())
      ensures 1 <= old(currentPage) <= TotalPages() ==> currentPage <= TotalPages()
    {
      currentPage := NextPage(key, currentPage, TotalPages());
    }

    /** `filteredDebts`: newest first, lenders matching the search. */
    function Listed(): (r: seq<Debt>)
      reads this
      ensures NewestFirst(r, DebtDate)
      ensures forall d :: d in r <==> d in debts && Matches(Lender(d), searchTerm)
    {
      Listing(debts, DebtDate, Lender, searchTerm)
    }

    /** `Math.ceil(filteredDebts.length / itemsPerPage)`, shown as is: an
        empty listing reads "page 1 of 0". */
    function TotalPages(): (r: int)
      reads this
      requires Valid()
      ensures r == 0 <==> Listed() == []
    {
      PageCount(|Listed()|, itemsPerPage)
    }

    /** `paginatedDebts`: the current page of the listing. It is empty, and the
        page reads "no entries yet", exactly when the current page lies past
        the last page. */
    function Shown(): (r: seq<Debt>)
      reads this
      requires Valid()
      ensures |r| <= itemsPerPage
      ensures forall d :: d in r ==> d in debts && Matches(Lender(d), searchTerm)
      ensures r == [] <==> currentPage > TotalPages()
    {
      var listed := Listed();
      var r := PageOf(listed, currentPage, itemsPerPage);
      PageEmptiness(listed, currentPage, itemsPerPage);
      assert forall d :: d in r ==> d in listed;
      r
    }

    /** `totalDebt`: the total of every listed debt, on all pages. It is the
        total of the matching debts in the order they were fetched. */
    function Total(): (r: real)
      reads this
      ensures r == Tally.SumAmounts(Search(debts, Lender, searchTerm), Amount)
    {
      ListingTotal(debts, DebtDate, Lender, searchTerm, Amount);
      Tally.SumAmounts(Listed(), Amount)
    }
  }

  /** With an empty search the total shown is the total of every fetched debt. */
  lemma TotalOfAllDebts(page: Debts)
    requires page.searchTerm == ""
    ensures page.Total() == Tally.SumAmounts(page.debts, Amount)
  {
    TotalWithoutSearch(page.debts, DebtDate, Lender, Amount);
  }

  /** A debt that came without a lender is found by the empty search only. */
  lemma MissingLenderMatchesOnlyEmpty(d: Debt, term: string)
    requires d.lender.None?
    ensures Matches(Lender(d), term) <==> term == ""
  {
    assert Lower("") == "";
    if term != "" {
      assert |Lower(term)| > 0;
    }
  }

  /** A list whose every element is `x`, that holds `x`, and that holds
      nothing more often than `s`, in which `x` occurs once, is `[x]`. */
  lemma OnlyElement<T>(r: seq<T>, s: seq<T>, x: T)
    requires x in r && forall i :: 0 <= i < |r| ==> r[i] == x
    requires multiset(r) <= multiset(s) && multiset(s)[x] == 1
    ensures r == [x]
  {
    CountOfConstant(r, x);
    assert multiset(r)[x] <= multiset(s)[x];
  }

  lemma {:induction false} CountOfConstant<T>(r: seq<T>, x: T)
    requires forall i :: 0 <= i < |r| ==> r[i] == x
    ensures multiset(r)[x] == |r|
  {
    if r != [] {
      CountOfConstant(r[1..], x);
      assert r == [r[0]] + r[1..];
    }
  }

  lemma JohnDoeMatches()
    ensures Matches("John Doe", "John")
  {
    assert Lower("John") == "john";
    assert Lower("John Doe")[..4] == "john";
  }

  lemma LandlordDoesNotMatch()
    ensures !Matches("Landlord", "John")
  {
    var hay := Lower("Landlord");
    assert Lower("John") == "john";
    assert forall k :: 0 <= k < |hay| ==> hay[k] != 'j';
    ContainsAt(hay, "john");
    forall i: nat ensures !OccursAt(hay, "john", i) {
      if i + 4 <= |hay| {
        assert hay[i..i + 4][0] == hay[i];
      }
    }
  }

  /** When exactly one fetched debt matches the search, and it was fetched
      once, the listing is that debt alone and the total is its amount. */
  lemma OnlyMatch(page: Debts, only: Debt)
    requires only in page.debts && multiset(page.debts)[only] == 1
    requires Matches(Lender(only), page.searchTerm)
    requires forall d :: d in page.debts && Matches(Lender(d), page.searchTerm) ==> d == only
    ensures page.Listed() == [only]
    ensures page.Total() == only.amount
  {
    var r := page.Listed();
    forall i | 0 <= i < |r| ensures r[i] == only {
      assert r[i] in r;
    }
    OnlyElement(r, page.debts, only);
    Tally.SumAmountsCons(only, [], Amount);
    assert r == [only] + [];
  }

  /** The two debts the end-to-end test serves: searching "John" lists the
      dinner owed to John Doe alone, and the total reads 300. */
  lemma SearchJohnExample(page: Debts)
    requires page.debts == [
      Debt("1", 5000.0, "Rent", "2023-10-01", Some("Landlord")),
      Debt("2", 300.0, "Dinner", "2023-10-15", Some("John Doe"))]
    requires page.searchTerm == "John"
    ensures page.Listed() == [page.debts[1]]
    ensures page.Total() == 300.0
  {
    var rent := page.debts[0];
    var dinner := page.debts[1];
    JohnDoeMatches();
    LandlordDoesNotMatch();
    assert page.debts == [rent] + [dinner];
    assert multiset(page.debts)[dinner] == 1;
    OnlyMatch(page, dinner);
  }
}
