/** The loans page: the state of the `Loans` component and its handlers
    (fetch, create, delete, the edit modal, search and page size), and the
    list, page and total it derives from that state on every render. */
module LoansPage {
  import opened Wrappers
  import opened Text
  import opened Ledger
  import Tally

  /** A loan as the server sends it: money lent to `borrower`. */
  datatype Loan = Loan(id: string, amount: real, description: string, loanDate: string, borrower: string)

  /** The edit modal's copy of a loan: the amount as its number input holds
      it, the date as its date input holds it. */
  datatype EditingLoan = EditingLoan(id: string, amount: AmountText, description: string, loanDate: string, borrower: string)

  /** The body of a create or update request: `{amount, description, loanDate, borrower}`. */
  datatype LoanPayload = LoanPayload(amount: AmountText, description: string, loanDate: string, borrower: string)

  /** A change event from one of the edit modal's four named inputs. */
  datatype EditChange =
    | AmountInput(amount: AmountText)
    | DescriptionInput(text: string)
    | LoanDateInput(text: string)
    | BorrowerInput(text: string)

  const DeleteFailed := "Failed to delete loan. Please try again."

  function LoanDate(l: Loan): string { l.loanDate }
  function Borrower(l: Loan): string { l.borrower }
  function Amount(l: Loan): real { l.amount }

  function IdIsNot(id: string): Loan -> bool
  {
    (l: Loan) => l.id != id
  }

  /** `loans.filter(l => l.id !== loanId)`: the list after a delete. Every
      loan of another id survives as often as it was listed, in its original
      order, and no loan of that id does. */
  function WithoutLoan(loans: seq<Loan>, loanId: string): (r: seq<Loan>)
    ensures forall l :: l in r <==> l in loans && l.id != loanId
    ensures forall l :: multiset(r)[l] == if l.id != loanId then multiset(loans)[l] else 0
    ensures PicksInOrder(r, loans, IdIsNot(loanId), KeptPositions(loans, IdIsNot(loanId)))
  {
    FilterMembers(loans, IdIsNot(loanId));
    FilterCounts(loans, IdIsNot(loanId));
    FilterInOrder(loans, IdIsNot(loanId));
    Filter(loans, IdIsNot(loanId))
  }

  /** Deleting an id that is not listed changes nothing. */
  lemma WithoutAbsentLoan(loans: seq<Loan>, loanId: string)
    requires forall i :: 0 <= i < |loans| ==> loans[i].id != loanId
    ensures WithoutLoan(loans, loanId) == loans
  {
    FilterKeepsAll(loans, IdIsNot(loanId));
  }

  /** `loans.map(l => l.id === id ? updated : l)`: the list after an update. */
  function ReplaceLoan(loans: seq<Loan>, id: string, updated: Loan): (r: seq<Loan>)
    ensures |r| == |loans|
    ensures forall i :: 0 <= i < |r| ==> r[i] == if loans[i].id == id then updated else loans[i]
  {
    if loans == [] then []
    else [if loans[0].id == id then updated else loans[0]] + ReplaceLoan(loans[1..], id, updated)
  }

  /** An update whose id is not listed changes nothing. */
  lemma {:induction false} ReplaceAbsentLoan(loans: seq<Loan>, id: string, updated: Loan)
    requires forall i :: 0 <= i < |loans| ==> loans[i].id != id
    ensures ReplaceLoan(loans, id, updated) == loans
  {
    if loans != [] {
      ReplaceAbsentLoan(loans[1..], id, updated);
      assert loans == [loans[0]] + loans[1..];
    }
  }

  /** `{ ...loan, loanDate: loan.loanDate.split('T')[0] }`: the modal opens
      on the loan with its date cut to the day. */
  function ForEditing(l: Loan): (r: EditingLoan)
    ensures r.id == l.id && r.amount == Number(l.amount)
    ensures r.description == l.description && r.borrower == l.borrower
    ensures r.loanDate <= l.loanDate && 'T' !in r.loanDate
    ensures 'T' !in l.loanDate ==> r.loanDate == l.loanDate
  {
    EditingLoan(l.id, Number(l.amount), l.description, DatePart(l.loanDate), l.borrower)
  }

  /** `{ ...editingLoan, [name]: value }`: the field the event names takes
      the event's value; the id and the other fields stay. */
  function Edited(e: EditingLoan, c: EditChange): (r: EditingLoan)
    ensures r.id == e.id
    ensures r.amount == (if c.AmountInput? then c.amount else e.amount)
    ensures r.description == (if c.DescriptionInput? then c.text else e.description)
    ensures r.loanDate == (if c.LoanDateInput? then c.text else e.loanDate)
    ensures r.borrower == (if c.BorrowerInput? then c.text else e.borrower)
  {
    match c
    case AmountInput(a) => e.(amount := a)
    case DescriptionInput(t) => e.(description := t)
    case LoanDateInput(t) => e.(loanDate := t)
    case BorrowerInput(t) => e.(borrower := t)
  }

  /** The update request body: every editable field, without the id. */
  function PayloadOf(e: EditingLoan): LoanPayload
  {
    LoanPayload(e.amount, e.description, e.loanDate, e.borrower)
  }

  class Loans {
    /** `localStorage.getItem("userId")`, read once per render. */
    const userId: Option<string>
    var loans: seq<Loan>
    var amount: AmountText
    var desc: string
    var loanDate: string
    var borrower: string
    var error: string
    var currentPage: int
    var itemsPerPage: int
    var searchTerm: string
    var isEditModalOpen: bool
    var editingLoan: Option<EditingLoan>

    /** The page is at least 1 and the page size is one the selector offers. */
    ghost predicate Valid()
      reads this
    {
      currentPage >= 1 && itemsPerPage in PageSizes
    }

    /** The initial state: nothing fetched, an empty form, page 1 of 10 entries. */
    constructor (userId: Option<string>)
      ensures Valid() && this.userId == userId
      ensures loans == [] && error == ""
      ensures amount == Blank && desc == "" && loanDate == "" && borrower == ""
      ensures currentPage == 1 && itemsPerPage == 10 && searchTerm == ""
      ensures !isEditModalOpen && editingLoan == None
    {
      this.userId := userId;
      loans := [];
      amount := Blank;
      desc := "";
      loanDate := "";
      borrower := "";
      error := "";
      currentPage := 1;
      itemsPerPage := 10;
      searchTerm := "";
      isEditModalOpen := false;
      editingLoan := None;
    }

    /** `fetchLoans`: with a user id, the list becomes the server's answer;
        `response` is `None` when the request fails, which leaves the list. */
    method Fetch(response: Option<seq<Loan>>)
      modifies this`loans
      ensures loans == if SignedIn(userId) && response.Some? then response.value else old(loans)
    {
      if SignedIn(userId) && response.Some? {
        loans := response.value;
      }
    }

    /** `createLoan`: the checks run first; a failing one sets its message and
        nothing is sent. Otherwise the form is posted (`sent`); when the post
        succeeds (`posted`) the form and error are cleared and the list is
        fetched again (`reloaded`, the answer to that fetch). */
    method Create(now: string, posted: bool, reloaded: Option<seq<Loan>>) returns (sent: Option<LoanPayload>)
      modifies this`loans, this`amount, this`desc, this`loanDate, this`borrower, this`error
      ensures var check := CheckEntry(old(amount), old(loanDate), [old(desc), old(borrower)], DatePart(now));
        && sent == (if check.None? then Some(LoanPayload(old(amount), old(desc), old(loanDate), old(borrower))) else None)
        && (check.Some? ==> error == check.value)
        && (check.None? && posted ==>
              amount == Blank && desc == "" && loanDate == "" && borrower == "" && error == ""
              && loans == if SignedIn(userId) && reloaded.Some? then reloaded.value else old(loans))
        && (check.Some? || !posted ==>
              amount == old(amount) && desc == old(desc) && loanDate == old(loanDate)
              && borrower == old(borrower) && loans == old(loans))
        && (check.None? && !posted ==> error == old(error))
    {
      var check := CheckEntry(amount, loanDate, [desc, borrower], DatePart(now));
      if check.Some? {
        error := check.value;
        return None;
      }
      sent := Some(LoanPayload(amount, desc, loanDate, borrower));
      if posted {
        amount := Blank;
        desc := "";
        loanDate := "";
        borrower := "";
        error := "";
        Fetch(reloaded);
      }
    }

    /** `handleDeleteLoan`: only after the user confirms, the loan is deleted
        on the server (`deleted` says whether that worked) and dropped from
        the list; a failure sets the error message and keeps the list. */
    method Delete(loanId: string, confirmed: bool, deleted: bool)
      modifies this`loans, this`error
      ensures confirmed && deleted ==> loans == WithoutLoan(old(loans), loanId) && error == old(error)
      ensures confirmed && !deleted ==> loans == old(loans) && error == DeleteFailed
      ensures !confirmed ==> loans == old(loans) && error == old(error)
    {
      if confirmed {
        if deleted {
          loans := WithoutLoan(loans, loanId);
        } else {
          error := DeleteFailed;
        }
      }
    }

    /** `handleOpenEditModal`. */
    method OpenEdit(loan: Loan)
      modifies this`editingLoan, this`isEditModalOpen
      ensures editingLoan == Some(ForEditing(loan)) && isEditModalOpen
    {
      editingLoan := Some(ForEditing(loan));
      isEditModalOpen := true;
    }

    /** `handleCloseEditModal`. */
    method CloseEdit()
      modifies this`editingLoan, this`isEditModalOpen
      ensures editingLoan == None && !isEditModalOpen
    {
      isEditModalOpen := false;
      editingLoan := None;
    }

    /** `handleEditFormChange`: the modal's inputs exist only while it shows a loan. */
    method EditField(change: EditChange)
      requires editingLoan.Some?
      modifies this`editingLoan
      ensures editingLoan == Some(Edited(old(editingLoan).value, change))
    {
      editingLoan := Some(Edited(editingLoan.value, change));
    }

    /** `handleUpdateLoan`: with a loan in the modal, its fields are sent to
        its id (`sent`); `saved` is the server's answer, `None` when the
        request fails. On success that answer replaces every listed loan with
        the id and the modal closes; on failure nothing changes. */
    method Update(saved: Option<Loan>) returns (sent: Option<(string, LoanPayload)>)
      modifies this`loans, this`editingLoan, this`isEditModalOpen
      ensures old(editingLoan).None? ==> sent == None
      ensures old(editingLoan).Some? ==> sent == Some((old(editingLoan).value.id, PayloadOf(old(editingLoan).value)))
      ensures old(editingLoan).Some? && saved.Some? ==>
        loans == ReplaceLoan(old(loans), old(editingLoan).value.id, saved.value) && editingLoan == None && !isEditModalOpen
      ensures old(editingLoan).None? || saved.None? ==>
        loans == old(loans) && editingLoan == old(editingLoan) && isEditModalOpen == old(isEditModalOpen)
    {
      if editingLoan.None? {
        return None;
      }
      var e := editingLoan.value;
      sent := Some((e.id, PayloadOf(e)));
      if saved.Some? {
        loans := ReplaceLoan(loans, e.id, saved.value);
        CloseEdit();
      }
    }

    /** Typing in the search box also goes back to page 1. */
    method SetSearchTerm(term: string)
      requires Valid()
      modifies this`searchTerm, this`currentPage
      ensures Valid() && searchTerm == term && currentPage == 1
    {
      searchTerm := term;
      currentPage := 1;
    }

    /** Choosing a page size also goes back to page 1. */
    method SetItemsPerPage(n: int)
      requires Valid() && n in PageSizes
      modifies this`itemsPerPage, this`currentPage
      ensures Valid() && itemsPerPage == n && currentPage == 1
    {
      itemsPerPage := n;
      currentPage := 1;
    }

    /** `filteredLoans`: newest first, borrowers matching the search. */
    function Listed(): (r: seq<Loan>)
      reads this
      ensures NewestFirst(r, LoanDate)
      ensures forall l :: l in r <==> l in loans && Matches(l.borrower, searchTerm)
    {
      Listing(loans, LoanDate, Borrower, searchTerm)
    }

    /** `Math.ceil(filteredLoans.length / itemsPerPage)`: 0 exactly when
        nothing matches. */
    function TotalPages(): (r: int)
      reads this
      requires Valid()
      ensures r == 0 <==> Listed() == []
    {
      PageCount(|Listed()|, itemsPerPage)
    }

    /** `paginatedLoans`: the current page of the listing. It is empty, and the
        page reads "no entries yet", exactly when the current page lies past
        the last page. */
    function Shown(): (r: seq<Loan>)
      reads this
      requires Valid()
      ensures |r| <= itemsPerPage
      ensures forall l :: l in r ==> l in loans && Matches(l.borrower, searchTerm)
      ensures r == [] <==> currentPage > TotalPages()
    {
      var listed := Listed();
      var r := PageOf(listed, currentPage, itemsPerPage);
      PageEmptiness(listed, currentPage, itemsPerPage);
      assert forall l :: l in r ==> l in listed;
      r
    }

    /** `totalDebt`: the total of every listed loan, on all pages. It is the
        total of the matching loans in the order they were fetched. */
    function Total(): (r: real)
      reads this
      ensures r == Tally.SumAmounts(Search(loans, Borrower, searchTerm), Amount)
    {
      ListingTotal(loans, LoanDate, Borrower, searchTerm, Amount);
      Tally.SumAmounts(Listed(), Amount)
    }

    /** `page {currentPage} of {totalPages || 1}`: the page count shown, which
        is 1 for an empty listing. */
    function PageLabel(): (r: (int, int))
      reads this
      requires Valid()
      ensures r.0 == currentPage && r.1 >= 1
      ensures r.1 == 1 <==> |Listed()| <= itemsPerPage
      ensures Listed() == [] ==> r.1 == 1
      ensures Listed() != [] ==> (r.1 - 1) * itemsPerPage < |Listed()| <= r.1 * itemsPerPage
    {
      (currentPage, if TotalPages() == 0 then 1 else TotalPages())
    }
  }

  /** With an empty search the total shown is the total of every fetched loan. */
  lemma TotalOfAllLoans(page: Loans)
    requires page.searchTerm == ""
    ensures page.Total() == Tally.SumAmounts(page.loans, Amount)
  {
    TotalWithoutSearch(page.loans, LoanDate, Borrower, Amount);
  }
}
