/**
 * The household snapshot the planner reads, and the three loan-list edits the
 * input form applies to it (add a blank loan, change one field of a loan,
 * remove a loan), each producing a new list.
 */
module Household {
  import opened Numeric

  /** One loan as entered by the user. `id` identifies it within the list. */
  datatype Loan = Loan(
    id: int,
    name: string,
    totalAmount: Money,
    monthlyPayment: Money,
    interestRate: Money,     // yearly, in percent
    remainingMonths: nat)

  /** The seven fixed investment categories. */
  datatype Investments = Investments(
    certificadosAforro: Money, ppr: Money, etfs: Money, acoes: Money,
    fundos: Money, crypto: Money, outros: Money)

  /** The finalized input snapshot. The yes/no fields of the form are booleans. */
  datatype Finances = Finances(
    // income
    monthlySalaryNet: Money,
    receivesSubsidios: bool,
    subsidioFerias: Money,
    subsidioNatal: Money,
    otherMonthlyIncome: Money,
    otherYearlyIncome: Money,
    // fixed expenses
    rent: Money, utilities: Money, insurance: Money,
    phoneInternet: Money, transportPass: Money, condominium: Money,
    // variable expenses
    groceries: Money, dining: Money, entertainment: Money, subscriptions: Money,
    clothing: Money, health: Money, education: Money, pets: Money, other: Money,
    // debts
    loans: seq<Loan>,
    creditCardDebt: Money,
    creditCardMonthlyPayment: Money,
    creditCardInterestRate: Money,
    // savings, goals and investments
    currentSavings: Money,
    emergencyFundGoal: Money,
    savingsGoal2026: Money,
    hasInvestments: bool,
    investments: Investments,
    // family
    dependents: nat,
    household: nat)

  /** The field a loan edit changes, with its new value. */
  datatype LoanChange =
    | SetName(name: string)
    | SetTotalAmount(amount: Money)
    | SetMonthlyPayment(payment: Money)
    | SetInterestRate(rate: Money)
    | SetRemainingMonths(months: nat)

  /** The blank loan the form appends; its id is passed in (the form uses the clock). */
  function BlankLoan(id: int): Loan
  {
    Loan(id, "", 0.0, 0.0, 0.0, 0)
  }

  /** `{ ...loan, [field]: value }`: one field replaced, the id kept. */
  function Changed(l: Loan, c: LoanChange): (r: Loan)
    ensures r.id == l.id
    ensures r.name == if c.SetName? then c.name else l.name
    ensures r.totalAmount == if c.SetTotalAmount? then c.amount else l.totalAmount
    ensures r.monthlyPayment == if c.SetMonthlyPayment? then c.payment else l.monthlyPayment
    ensures r.interestRate == if c.SetInterestRate? then c.rate else l.interestRate
    ensures r.remainingMonths == if c.SetRemainingMonths? then c.months else l.remainingMonths
  {
    match c
    case SetName(n) => l.(name := n)
    case SetTotalAmount(a) => l.(totalAmount := a)
    case SetMonthlyPayment(p) => l.(monthlyPayment := p)
    case SetInterestRate(q) => l.(interestRate := q)
    case SetRemainingMonths(m) => l.(remainingMonths := m)
  }

  /** Every id occurs at most once. */
  ghost predicate UniqueIds(loans: seq<Loan>)
  {
    forall i, j :: 0 <= i < j < |loans| ==> loans[i].id != loans[j].id
  }

  predicate HasId(loans: seq<Loan>, id: int)
  {
    exists i :: 0 <= i < |loans| && loans[i].id == id
  }

  /** addLoan: the old list, then a blank loan with the given id. */
  function AddLoan(loans: seq<Loan>, id: int): (r: seq<Loan>)
    ensures |r| == |loans| + 1 && r[..|loans|] == loans
    ensures r[|loans|] == Loan(id, "", 0.0, 0.0, 0.0, 0)
  {
    loans + [BlankLoan(id)]
  }

  /** updateLoan: every loan with the id gets the change, every other loan stays. */
  function UpdateLoan(loans: seq<Loan>, id: int, c: LoanChange): (r: seq<Loan>)
    ensures |r| == |loans|
    ensures forall i :: 0 <= i < |r| ==> r[i].id == loans[i].id
    ensures forall i :: 0 <= i < |r| && loans[i].id != id ==> r[i] == loans[i]
    ensures forall i :: 0 <= i < |r| && loans[i].id == id ==> r[i] == Changed(loans[i], c)
  {
    seq(|loans|, i requires 0 <= i < |loans| => if loans[i].id == id then Changed(loans[i], c) else loans[i])
  }

  /** removeLoan: the loans whose id differs, in their order. */
  function RemoveLoan(loans: seq<Loan>, id: int): (r: seq<Loan>)
    ensures |r| <= |loans|
    ensures forall l :: l in r <==> l in loans && l.id != id
  {
    if loans == [] then []
    else (if loans[0].id == id then [] else [loans[0]]) + RemoveLoan(loans[1..], id)
  }

  lemma {:induction false} RemoveLoanAppend(a: seq<Loan>, b: seq<Loan>, id: int)
    ensures RemoveLoan(a + b, id) == RemoveLoan(a, id) + RemoveLoan(b, id)
  {
    if a != [] {
      assert (a + b)[1..] == a[1..] + b;
      RemoveLoanAppend(a[1..], b, id);
    } else {
      assert a + b == b;
    }
  }

  /** Removing an id no loan has changes nothing. */
  lemma {:induction false} RemoveAbsentId(loans: seq<Loan>, id: int)
    requires !HasId(loans, id)
    ensures RemoveLoan(loans, id) == loans
  {
    if loans != [] {
      assert !HasId(loans[1..], id) by {
        forall i | 0 <= i < |loans[1..]| ensures loans[1..][i].id != id {
          assert loans[1..][i] == loans[i + 1];
        }
      }
      RemoveAbsentId(loans[1..], id);
      assert loans == [loans[0]] + loans[1..];
    }
  }

  /** Adding a loan under a fresh id and removing that id gives back the list. */
  lemma AddThenRemove(loans: seq<Loan>, id: int)
    requires !HasId(loans, id)
    ensures RemoveLoan(AddLoan(loans, id), id) == loans
  {
    RemoveLoanAppend(loans, [BlankLoan(id)], id);
    RemoveAbsentId(loans, id);
    assert [BlankLoan(id)][1..] == [];
  }

  /** A fresh id keeps ids unique. */
  lemma AddKeepsIdsUnique(loans: seq<Loan>, id: int)
    requires UniqueIds(loans) && !HasId(loans, id)
    ensures UniqueIds(AddLoan(loans, id))
  {
    var r := AddLoan(loans, id);
    forall i, j | 0 <= i < j < |r| ensures r[i].id != r[j].id {
      if j == |loans| {
        assert r[i] == loans[i];
      } else {
        assert r[i] == loans[i] && r[j] == loans[j];
      }
    }
  }

  /** Removing an id after editing the loans with that id is just removing it. */
  lemma {:induction false} RemoveAfterUpdate(loans: seq<Loan>, id: int, c: LoanChange)
    ensures RemoveLoan(UpdateLoan(loans, id, c), id) == RemoveLoan(loans, id)
  {
    if loans != [] {
      var u := UpdateLoan(loans, id, c);
      assert u[1..] == UpdateLoan(loans[1..], id, c);
      RemoveAfterUpdate(loans[1..], id, c);
    }
  }

  /** Removal is idempotent. */
  lemma {:induction false} RemoveIdempotent(loans: seq<Loan>, id: int)
    ensures RemoveLoan(RemoveLoan(loans, id), id) == RemoveLoan(loans, id)
  {
    var r := RemoveLoan(loans, id);
    assert !HasId(r, id) by {
      forall i | 0 <= i < |r| ensures r[i].id != id {
        assert r[i] in r;
      }
    }
    RemoveAbsentId(r, id);
  }
}
