/** `LoanService`: create, list, update and delete the loans of a user, over
    the loan and user repositories. */
module LoanService {
  import opened Wrappers
  import opened Store
  import opened Calendar

  /** The fields of a loan a request sets: money lent to `borrower`. */
  datatype LoanFields = LoanFields(amount: real, description: string, borrower: string, loanDate: Day)

  /** A stored loan. */
  type Loan = Row<LoanFields>

  class LoanService {
    const loans: Repository<LoanFields>
    const users: UserRepository

    /** Both repositories are well formed and every loan belongs to a stored user. */
    ghost predicate Valid()
      reads this, loans, users
    {
      loans.Valid() && users.Valid() && Owned(loans.rows, users.users)
    }

    constructor (loans: Repository<LoanFields>, users: UserRepository)
      requires loans.Valid() && users.Valid() && Owned(loans.rows, users.users)
      ensures Valid() && this.loans == loans && this.users == users
    {
      this.loans := loans;
      this.users := users;
    }

    /** `createLoan`: an unknown user fails and nothing is saved; otherwise the
        loan is saved with its user set, under the id the store generates
        (`newId`, one no loan has yet). */
    method CreateLoan(userId: Uuid, loan: LoanFields, newId: Uuid) returns (r: Result<Loan, Missing>)
      requires Valid() && newId !in loans.rows
      modifies loans
      ensures Valid()
      ensures userId !in users.users ==> r == Failure(MissingUser(userId)) && loans.rows == old(loans.rows)
      ensures userId in users.users ==>
        && r == Success(Row(newId, userId, loan))
        && loans.rows == old(loans.rows)[newId := Row(newId, userId, loan)]
    {
      var user := users.FindById(userId);
      if user.None? {
        return Failure(MissingUser(userId));
      }
      var saved := Row(newId, user.value.id, loan);
      loans.Save(saved);
      return Success(saved);
    }

    /** `getUserLoans`: exactly the stored loans of that user, each once. */
    method GetUserLoans(userId: Uuid) returns (r: seq<Loan>)
      requires Valid()
      ensures r == OfUser(loans.rows, userId)
      ensures forall l :: l in r <==> l in loans.rows.Values && l.user == userId
    {
      r := loans.FindByUserId(userId);
    }

    /** `updateLoan`: an unknown id fails and nothing changes; otherwise the four
        fields are copied from `details` one setter at a time, while the id and
        the user stay, whatever `details` carries for them. */
    method UpdateLoan(loanId: Uuid, details: Loan) returns (r: Result<Loan, Missing>)
      requires Valid()
      modifies loans
      ensures Valid()
      ensures loanId !in old(loans.rows) ==> r == Failure(MissingRecord(loanId)) && loans.rows == old(loans.rows)
      ensures loanId in old(loans.rows) ==>
        && r == Success(Row(loanId, old(loans.rows)[loanId].user, details.data))
        && loans.rows == old(loans.rows)[loanId := r.value]
    {
      var found := loans.FindById(loanId);
      if found.None? {
        return Failure(MissingRecord(loanId));
      }
      var existing := found.value;
      existing := existing.(data := existing.data.(amount := details.data.amount));
      existing := existing.(data := existing.data.(description := details.data.description));
      existing := existing.(data := existing.data.(loanDate := details.data.loanDate));
      existing := existing.(data := existing.data.(borrower := details.data.borrower));
      loans.Save(existing);
      return Success(existing);
    }

    /** `deleteLoan`: an unknown id fails and nothing is deleted; otherwise that
        loan, and only it, is removed. */
    method DeleteLoan(loanId: Uuid) returns (error: Option<Missing>)
      requires Valid()
      modifies loans
      ensures Valid()
      ensures loanId !in old(loans.rows) ==> error == Some(MissingRecord(loanId)) && loans.rows == old(loans.rows)
      ensures loanId in old(loans.rows) ==> error == None && loans.rows == old(loans.rows) - {loanId}
    {
      var present := loans.ExistsById(loanId);
      if !present {
        return Some(MissingRecord(loanId));
      }
      loans.DeleteById(loanId);
      return None;
    }
  }
}
