/** `DebtService`: create, list, update and delete the debts of a user, over
    the debt and user repositories. */
module DebtService {
  import opened Wrappers
  import opened Store
  import opened Calendar

  /** The fields of a debt a request sets: money owed to `lender`. */
  datatype DebtFields = DebtFields(amount: real, description: string, lender: string, debtDate: Day)

  /** A stored debt. */
  type Debt = Row<DebtFields>

  class DebtService {
    const debts: Repository<DebtFields>
    const users: UserRepository

    /** Both repositories are well formed and every debt belongs to a stored user. */
    ghost predicate Valid()
      reads this, debts, users
    {
      debts.Valid() && users.Valid() && Owned(debts.rows, users.users)
    }

    constructor (debts: Repository<DebtFields>, users: UserRepository)
      requires debts.Valid() && users.Valid() && Owned(debts.rows, users.users)
      ensures Valid() && this.debts == debts && this.users == users
    {
      this.debts := debts;
      this.users := users;
    }

    /** `createDebt`: an unknown user fails and nothing is saved; otherwise the
        debt is saved with its user set, under the id the store generates
        (`newId`, one no debt has yet). */
    method CreateDebt(userId: Uuid, debt: DebtFields, newId: Uuid) returns (r: Result<Debt, Missing>)
      requires Valid() && newId !in debts.rows
      modifies debts
      ensures Valid()
      ensures userId !in users.users ==> r == Failure(MissingUser(userId)) && debts.rows == old(debts.rows)
      ensures userId in users.users ==>
        && r == Success(Row(newId, userId, debt))
        && debts.rows == old(debts.rows)[newId := Row(newId, userId, debt)]
    {
      var user := users.FindById(userId);
      if user.None? {
        return Failure(MissingUser(userId));
      }
      var saved := Row(newId, user.value.id, debt);
      debts.Save(saved);
      return Success(saved);
    }

    /** `getUserDebts`: exactly the stored debts of that user, each once. */
    method GetUserDebts(userId: Uuid) returns (r: seq<Debt>)
      requires Valid()
      ensures r == OfUser(debts.rows, userId)
      ensures forall d :: d in r <==> d in debts.rows.Values && d.user == userId
    {
      r := debts.FindByUserId(userId);
    }

    /** `updateDebt`: an unknown id fails and nothing changes; otherwise the four
        fields are copied from `details` one setter at a time, while the id and
        the user stay, whatever `details` carries for them. */
    method UpdateDebt(debtId: Uuid, details: Debt) returns (r: Result<Debt, Missing>)
      requires Valid()
      modifies debts
      ensures Valid()
      ensures debtId !in old(debts.rows) ==> r == Failure(MissingRecord(debtId)) && debts.rows == old(debts.rows)
      ensures debtId in old(debts.rows) ==>
        && r == Success(Row(debtId, old(debts.rows)[debtId].user, details.data))
        && debts.rows == old(debts.rows)[debtId := r.value]
    {
      var found := debts.FindById(debtId);
      if found.None? {
        return Failure(MissingRecord(debtId));
      }
      var existing := found.value;
      existing := existing.(data := existing.data.(amount := details.data.amount));
      existing := existing.(data := existing.data.(description := details.data.description));
      existing := existing.(data := existing.data.(debtDate := details.data.debtDate));
      existing := existing.(data := existing.data.(lender := details.data.lender));
      debts.Save(existing);
      return Success(existing);
    }

    /** `deleteDebt`: an unknown id fails and nothing is deleted; otherwise that
        debt, and only it, is removed. */
    method DeleteDebt(debtId: Uuid) returns (error: Option<Missing>)
      requires Valid()
      modifies debts
      ensures Valid()
      ensures debtId !in old(debts.rows) ==> error == Some(MissingRecord(debtId)) && debts.rows == old(debts.rows)
      ensures debtId in old(debts.rows) ==> error == None && debts.rows == old(debts.rows) - {debtId}
    {
      var present := debts.ExistsById(debtId);
      if !present {
        return Some(MissingRecord(debtId));
      }
      debts.DeleteById(debtId);
      return None;
    }
  }
}
