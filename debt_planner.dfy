/**
 * The avalanche debt list of calculatePlan: loans whose name looks like a
 * mortgage are dropped, the credit card is added as one more debt, and the
 * list is ordered by interest rate, highest first.
 */
module DebtPlanner {
  import opened Numeric
  import opened Sorting
  import opened Household

  /** String.prototype.toLowerCase on the characters a Portuguese or English
      loan name uses: ASCII capitals and the Latin-1 capitals (U+00C0–U+00DE,
      except the multiplication sign). */
  function LowerChar(c: char): char
  {
    if 'A' <= c <= 'Z' || ('À' <= c <= 'Þ' && c != '×') then (c as int + 32) as char else c
  }

  function Lower(s: string): (r: string)
    ensures |r| == |s|
    ensures forall i :: 0 <= i < |s| ==> r[i] == LowerChar(s[i])
  {
    seq(|s|, i requires 0 <= i < |s| => LowerChar(s[i]))
  }

  /** String.prototype.includes. */
  predicate Contains(s: string, sub: string)
    decreases |s|
  {
    (|sub| <= |s| && s[..|sub|] == sub) || (|s| > 0 && Contains(s[1..], sub))
  }

  /** `sub` occurs in `s` at some position. */
  ghost predicate OccursAt(s: string, sub: string, i: int)
  {
    0 <= i && i + |sub| <= |s| && s[i..i + |sub|] == sub
  }

  /** Contains holds exactly when the substring occurs at some position. */
  lemma {:induction false} ContainsIffOccurs(s: string, sub: string)
    ensures Contains(s, sub) <==> exists i :: OccursAt(s, sub, i)
    decreases |s|
  {
    if |sub| <= |s| && s[..|sub|] == sub {
      assert s[0..|sub|] == s[..|sub|];
      assert OccursAt(s, sub, 0);
    }
    if |s| > 0 {
      ContainsIffOccurs(s[1..], sub);
      if Contains(s[1..], sub) {
        var i :| OccursAt(s[1..], sub, i);
        assert s[1..][i..i + |sub|] == s[i + 1..i + 1 + |sub|];
        assert OccursAt(s, sub, i + 1);
      }
      if i :| OccursAt(s, sub, i) {
        if i == 0 {
          assert s[..|sub|] == s[0..|sub|];
        } else {
          assert s[1..][i - 1..i - 1 + |sub|] == s[i..i + |sub|];
          assert OccursAt(s[1..], sub, i - 1);
        }
      }
    } else {
      if i :| OccursAt(s, sub, i) {
        assert s[..|sub|] == s[i..i + |sub|];
      }
    }
  }

  /** A loan is treated as a mortgage when its lower-cased name contains a housing keyword. */
  predicate IsMortgageName(name: string)
  {
    var n := Lower(name);
    Contains(n, "habitação") || Contains(n, "casa") || Contains(n, "mortgage")
  }

  /** The filter at lines 172-176. */
  function NonMortgageLoans(loans: seq<Loan>): (r: seq<Loan>)
    ensures |r| <= |loans|
    ensures forall l :: l in r <==> l in loans && !IsMortgageName(l.name)
  {
    if loans == [] then []
    else (if IsMortgageName(loans[0].name) then [] else [loans[0]]) + NonMortgageLoans(loans[1..])
  }

  /** The filter keeps order: it distributes over concatenation. */
  lemma {:induction false} NonMortgageLoansAppend(a: seq<Loan>, b: seq<Loan>)
    ensures NonMortgageLoans(a + b) == NonMortgageLoans(a) + NonMortgageLoans(b)
  {
    if a != [] {
      assert (a + b)[1..] == a[1..] + b;
      NonMortgageLoansAppend(a[1..], b);
    } else {
      assert a + b == b;
    }
  }

  /** A list without mortgage names passes the filter unchanged. */
  lemma {:induction false} NonMortgageLoansKeepsAll(loans: seq<Loan>)
    requires forall i :: 0 <= i < |loans| ==> !IsMortgageName(loans[i].name)
    ensures NonMortgageLoans(loans) == loans
  {
    if loans != [] {
      NonMortgageLoansKeepsAll(loans[1..]);
    }
  }

  /** One debt of the avalanche list; `months` is the payoff-time estimate. */
  datatype DebtEntry = DebtEntry(name: string, amount: Money, payment: Money, rate: Money, months: int)

  function LoanEntry(l: Loan): DebtEntry
  {
    DebtEntry(l.name, l.totalAmount, l.monthlyPayment, l.interestRate, l.remainingMonths)
  }

  function LoanEntries(loans: seq<Loan>): (r: seq<DebtEntry>)
    ensures |r| == |loans|
    ensures forall i :: 0 <= i < |loans| ==> r[i] == LoanEntry(loans[i])
  {
    seq(|loans|, i requires 0 <= i < |loans| => LoanEntry(loans[i]))
  }

  const CardName: string := "Cartão de Crédito"
  /** Payoff estimate shown for a card with no monthly payment. */
  const NoPaymentMonths: int := 999

  /** The synthetic credit-card debt; its estimate is whole months of the
      current payment, or 999 when nothing is being paid. */
  function CardEntry(f: Finances): (d: DebtEntry)
    ensures d.amount == f.creditCardDebt && d.payment == f.creditCardMonthlyPayment
    ensures d.rate == f.creditCardInterestRate
    ensures f.creditCardMonthlyPayment == 0.0 ==> d.months == NoPaymentMonths
    ensures f.creditCardMonthlyPayment > 0.0 ==>
              d.months >= 0
              && d.months as real * f.creditCardMonthlyPayment >= f.creditCardDebt
              && (d.months - 1) as real * f.creditCardMonthlyPayment < f.creditCardDebt
  {
    var months := if f.creditCardMonthlyPayment > 0.0
                  then Ceil(f.creditCardDebt / f.creditCardMonthlyPayment) else NoPaymentMonths;
    if f.creditCardMonthlyPayment > 0.0 then
      CeilCoversAmount(f.creditCardDebt, f.creditCardMonthlyPayment);
      DebtEntry(CardName, f.creditCardDebt, f.creditCardMonthlyPayment, f.creditCardInterestRate, months)
    else
      DebtEntry(CardName, f.creditCardDebt, f.creditCardMonthlyPayment, f.creditCardInterestRate, months)
  }

  /** The unsorted list: non-mortgage loans in input order, then the card when it has a balance. */
  function Candidates(f: Finances): seq<DebtEntry>
  {
    LoanEntries(NonMortgageLoans(f.loans)) + (if f.creditCardDebt > 0.0 then [CardEntry(f)] else [])
  }

  /** `(a, b) => b.rate - a.rate` sorts by ascending negated rate. */
  function RateKey(d: DebtEntry): real
  {
    0.0 - d.rate
  }

  /** allDebts: the candidates, highest rate first. */
  function AvalancheOrder(f: Finances): seq<DebtEntry>
  {
    SortBy(Candidates(f), RateKey)
  }

  function DebtAmount(d: DebtEntry): real { d.amount }
  function DebtPayment(d: DebtEntry): real { d.payment }

  /** totalNonMortgageDebt and totalDebtPayment. */
  function TotalAmount(debts: seq<DebtEntry>): real { SumOf(debts, DebtAmount) }
  function TotalPayment(debts: seq<DebtEntry>): real { SumOf(debts, DebtPayment) }

  lemma LowerCardName()
    ensures Lower(CardName) == "cartão de crédito"
  {
    var n := Lower(CardName);
    forall i | 0 <= i < |CardName| ensures n[i] == "cartão de crédito"[i] {
    }
  }

  /** The card's name is not mistaken for a mortgage. */
  lemma CardIsNotMortgage()
    ensures !IsMortgageName(CardName)
  {
    LowerCardName();
    CardNameLacks("habitação");
    CardNameLacks("casa");
    CardNameLacks("mortgage");
  }

  lemma CardNameLacks(keyword: string)
    requires keyword in ["habitação", "casa", "mortgage"]
    ensures !Contains("cartão de crédito", keyword)
  {
    if keyword == "habitação" {
      NoMatch("cartão de crédito", "habitação");
    } else if keyword == "casa" {
      NoMatch("cartão de crédito", "casa");
    } else {
      NoMatch("cartão de crédito", "mortgage");
    }
  }

  /** No window of s starts with the first three characters of sub. */
  lemma {:induction false} NoMatch(s: string, sub: string)
    requires |sub| >= 3
    requires forall i :: 0 <= i < |s| - 2 ==> s[i] != sub[0] || s[i + 1] != sub[1] || s[i + 2] != sub[2]
    ensures !Contains(s, sub)
    decreases |s|
  {
    if |s| > 0 {
      if |sub| <= |s| {
        assert s[..|sub|][0] == s[0] && s[..|sub|][1] == s[1] && s[..|sub|][2] == s[2];
      }
      NoMatch(s[1..], sub);
    }
  }

  /** The avalanche list holds the non-mortgage loans and, when it has a
      balance, the card, each as often as in the input. */
  lemma AvalancheIsPermutation(f: Finances)
    ensures multiset(AvalancheOrder(f))
            == multiset(LoanEntries(NonMortgageLoans(f.loans)))
               + (if f.creditCardDebt > 0.0 then multiset{CardEntry(f)} else multiset{})
  {
    SortByFacts(Candidates(f), RateKey);
  }

  /** The avalanche list runs from the highest rate down; debts of equal rate
      keep their input order. */
  lemma AvalancheIsDescendingAndStable(f: Finances)
    ensures forall i, j :: 0 <= i < j < |AvalancheOrder(f)| ==> AvalancheOrder(f)[i].rate >= AvalancheOrder(f)[j].rate
    ensures forall q :: FilterKey(AvalancheOrder(f), RateKey, q) == FilterKey(Candidates(f), RateKey, q)
  {
    var r := AvalancheOrder(f);
    SortByFacts(Candidates(f), RateKey);
    forall i, j | 0 <= i < j < |r| ensures r[i].rate >= r[j].rate {
      assert RateKey(r[i]) <= RateKey(r[j]);
    }
  }

  /** No debt of the avalanche list has a mortgage-like name. */
  lemma AvalancheExcludesMortgages(f: Finances)
    ensures forall d :: d in AvalancheOrder(f) ==> !IsMortgageName(d.name)
  {
    var c := Candidates(f);
    var r := AvalancheOrder(f);
    var nm := NonMortgageLoans(f.loans);
    SortByFacts(c, RateKey);
    CardIsNotMortgage();
    forall d | d in r ensures !IsMortgageName(d.name) {
      assert d in multiset(c);
      var k :| 0 <= k < |c| && c[k] == d;
      if k < |nm| {
        assert nm[k] in nm;
      }
    }
  }

  /** The head of the avalanche list carries the highest rate. */
  lemma HeadHasHighestRate(f: Finances)
    requires |AvalancheOrder(f)| > 0
    ensures forall d :: d in AvalancheOrder(f) ==> d.rate <= AvalancheOrder(f)[0].rate
  {
    AvalancheIsDescendingAndStable(f);
    var r := AvalancheOrder(f);
    forall d | d in r ensures d.rate <= r[0].rate {
      var k :| 0 <= k < |r| && r[k] == d;
    }
  }

  /** The totals split into the non-mortgage loans and the card (whose payment
      counts only when it has a balance). */
  lemma TotalsSplit(f: Finances)
    ensures TotalAmount(AvalancheOrder(f))
            == SumOf(NonMortgageLoans(f.loans), (l: Loan) => l.totalAmount)
               + (if f.creditCardDebt > 0.0 then f.creditCardDebt else 0.0)
    ensures TotalPayment(AvalancheOrder(f))
            == SumOf(NonMortgageLoans(f.loans), (l: Loan) => l.monthlyPayment)
               + (if f.creditCardDebt > 0.0 then f.creditCardMonthlyPayment else 0.0)
    ensures TotalAmount(AvalancheOrder(f)) >= 0.0 && TotalPayment(AvalancheOrder(f)) >= 0.0
  {
    var c := Candidates(f);
    var nm := NonMortgageLoans(f.loans);
    SortByPreservesSum(c, RateKey, DebtAmount);
    SortByPreservesSum(c, RateKey, DebtPayment);
    SumOfAppend(LoanEntries(nm), if f.creditCardDebt > 0.0 then [CardEntry(f)] else [], DebtAmount);
    SumOfAppend(LoanEntries(nm), if f.creditCardDebt > 0.0 then [CardEntry(f)] else [], DebtPayment);
    MappedSum(nm);
    if f.creditCardDebt > 0.0 {
      assert [CardEntry(f)][..0] == [];
    }
    SumOfNonNegative(AvalancheOrder(f), DebtAmount);
    SumOfNonNegative(AvalancheOrder(f), DebtPayment);
  }

  lemma {:induction false} MappedSum(loans: seq<Loan>)
    ensures SumOf(LoanEntries(loans), DebtAmount) == SumOf(loans, (l: Loan) => l.totalAmount)
    ensures SumOf(LoanEntries(loans), DebtPayment) == SumOf(loans, (l: Loan) => l.monthlyPayment)
  {
    if loans != [] {
      var n := |loans| - 1;
      assert LoanEntries(loans)[..n] == LoanEntries(loans[..n]);
      MappedSum(loans[..n]);
    }
  }

  /** A positive debt total means there is a debt to attack first. */
  lemma PositiveTotalHasTarget(debts: seq<DebtEntry>)
    requires TotalAmount(debts) > 0.0
    ensures |debts| > 0
  {
  }
}
