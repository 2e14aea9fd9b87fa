/**
 * The friendly-loans card of the dashboard (src/components/dashboard/FriendlyLoansSummary.tsx):
 * what the user owes, what is owed to the user and how many loans are still
 * open. Unlike the per-friend ledger, these totals include paid loans, count
 * only the exact types `taken` and `given`, and keep loans of unknown friends.
 */
module LoansSummary {
  import opened Wrappers
  import opened FriendlyLoans
  import LoanLedger

  /** `loans.filter(loan => loan.type === t)`. */
  function OfType(loans: seq<Loan>, t: string): (r: seq<Loan>)
    ensures |r| <= |loans|
  {
    if loans == [] then []
    else OfType(loans[..|loans| - 1], t) + (if loans[|loans| - 1].loanType == t then [loans[|loans| - 1]] else [])
  }

  /** The filter keeps exactly the loans of type `t`. */
  lemma {:induction false} OfTypeMembers(loans: seq<Loan>, t: string)
    ensures forall l :: l in OfType(loans, t) <==> l in loans && l.loanType == t
  {
    if loans != [] {
      OfTypeMembers(loans[..|loans| - 1], t);
      assert loans == loans[..|loans| - 1] + [loans[|loans| - 1]];
    }
  }

  /** `reduce((sum, loan) => sum + (Number(loan.amount) - repaid), 0)`. */
  function SumRemaining(loans: seq<Loan>): (r: real)
    ensures (forall l :: l in loans ==> RemainingOnLoan(l) >= 0.0) ==> r >= 0.0
  {
    if loans == [] then 0.0
    else
      assert forall l :: l in loans[..|loans| - 1] ==> l in loans;
      SumRemaining(loans[..|loans| - 1]) + RemainingOnLoan(loans[|loans| - 1])
  }

  /** `loans.filter(loan => loan.status === 'pending' || loan.status === 'partially_paid')`. */
  function Pending(loans: seq<Loan>): (r: seq<Loan>)
    ensures |r| <= |loans|
  {
    if loans == [] then []
    else Pending(loans[..|loans| - 1]) + (if IsActive(loans[|loans| - 1]) then [loans[|loans| - 1]] else [])
  }

  /** The filter keeps exactly the loans that are pending or partially paid. */
  lemma {:induction false} PendingMembers(loans: seq<Loan>)
    ensures forall l :: l in Pending(loans) <==> l in loans && IsActive(l)
  {
    if loans != [] {
      PendingMembers(loans[..|loans| - 1]);
      assert loans == loans[..|loans| - 1] + [loans[|loans| - 1]];
    }
  }

  /** `totalDebt`: what remains on the `taken` loans; nothing when there are none. */
  function TotalDebt(loans: seq<Loan>): (r: real)
    ensures (forall l :: l in loans ==> l.loanType != "taken") ==> r == 0.0
    ensures (forall l :: l in loans && l.loanType == "taken" ==> RemainingOnLoan(l) >= 0.0) ==> r >= 0.0
  {
    var taken := OfType(loans, "taken");
    OfTypeMembers(loans, "taken");
    assert taken != [] ==> taken[0] in taken;
    SumRemaining(taken)
  }

  /** `totalLent`: what remains on the `given` loans; nothing when there are none. */
  function TotalLent(loans: seq<Loan>): (r: real)
    ensures (forall l :: l in loans ==> l.loanType != "given") ==> r == 0.0
    ensures (forall l :: l in loans && l.loanType == "given" ==> RemainingOnLoan(l) >= 0.0) ==> r >= 0.0
  {
    var given := OfType(loans, "given");
    OfTypeMembers(loans, "given");
    assert given != [] ==> given[0] in given;
    SumRemaining(given)
  }

  /** `pendingLoans`: how many loans are pending or partially paid. */
  function PendingLoans(loans: seq<Loan>): (r: nat)
    ensures r <= |loans|
    ensures r == 0 <==> forall l :: l in loans ==> !IsActive(l)
  {
    var open := Pending(loans);
    PendingMembers(loans);
    assert open != [] ==> open[0] in open;
    |open|
  }

  lemma {:induction false} OfTypeAppend(a: seq<Loan>, b: seq<Loan>, t: string)
    ensures OfType(a + b, t) == OfType(a, t) + OfType(b, t)
    decreases |b|
  {
    if b == [] {
      assert a + b == a;
    } else {
      var init, y := b[..|b| - 1], b[|b| - 1];
      assert b == init + [y];
      assert a + b == (a + init) + [y];
      assert (a + b)[..|a + b| - 1] == a + init;
      OfTypeAppend(a, init, t);
    }
  }

  lemma {:induction false} SumRemainingAppend(a: seq<Loan>, b: seq<Loan>)
    ensures SumRemaining(a + b) == SumRemaining(a) + SumRemaining(b)
    decreases |b|
  {
    if b == [] {
      assert a + b == a;
    } else {
      var init, y := b[..|b| - 1], b[|b| - 1];
      assert b == init + [y];
      assert a + b == (a + init) + [y];
      assert (a + b)[..|a + b| - 1] == a + init;
      SumRemainingAppend(a, init);
    }
  }

  lemma {:induction false} PendingAppend(a: seq<Loan>, b: seq<Loan>)
    ensures Pending(a + b) == Pending(a) + Pending(b)
    decreases |b|
  {
    if b == [] {
      assert a + b == a;
    } else {
      var init, y := b[..|b| - 1], b[|b| - 1];
      assert b == init + [y];
      assert a + b == (a + init) + [y];
      assert (a + b)[..|a + b| - 1] == a + init;
      PendingAppend(a, init);
    }
  }

  /** With no loans, every figure on the card is zero. */
  lemma EmptySummary()
    ensures TotalDebt([]) == 0.0 && TotalLent([]) == 0.0 && PendingLoans([]) == 0
  {
  }

  /**
   * What one loan, wherever it sits in the list, adds to the card: what
   * remains of it to the debt if its type is `taken` and to the amount lent
   * if it is `given`, whatever its status (so a paid loan still counts), and
   * one to the open count if it is pending or partially paid. A loan of any
   * other type adds to neither total.
   */
  lemma {:induction false} SummaryContribution(pre: seq<Loan>, x: Loan, post: seq<Loan>)
    ensures TotalDebt(pre + [x] + post) == TotalDebt(pre + post) + (if x.loanType == "taken" then RemainingOnLoan(x) else 0.0)
    ensures TotalLent(pre + [x] + post) == TotalLent(pre + post) + (if x.loanType == "given" then RemainingOnLoan(x) else 0.0)
    ensures PendingLoans(pre + [x] + post) == PendingLoans(pre + post) + (if IsActive(x) then 1 else 0)
  {
    TypeTotalContribution(pre, x, post, "taken");
    TypeTotalContribution(pre, x, post, "given");
    PendingAppend(pre + [x], post);
    PendingAppend(pre, [x]);
    PendingAppend(pre, post);
    assert [x][..0] == [];
  }

  lemma TypeTotalContribution(pre: seq<Loan>, x: Loan, post: seq<Loan>, t: string)
    ensures SumRemaining(OfType(pre + [x] + post, t)) ==
      SumRemaining(OfType(pre + post, t)) + (if x.loanType == t then RemainingOnLoan(x) else 0.0)
  {
    OfTypeAppend(pre + [x], post, t);
    OfTypeAppend(pre, [x], t);
    OfTypeAppend(pre, post, t);
    assert [x][..0] == [];
    var a, c, b := OfType(pre, t), OfType([x], t), OfType(post, t);
    SumRemainingAppend(a + c, b);
    SumRemainingAppend(a, c);
    SumRemainingAppend(a, b);
  }

  /** A loan without a repayments field counts for its full amount. */
  lemma UnrepaidCountsInFull(pre: seq<Loan>, x: Loan, post: seq<Loan>)
    requires x.repayments.None? && x.loanType == "given"
    ensures TotalLent(pre + [x] + post) == TotalLent(pre + post) + x.amount
  {
    SummaryContribution(pre, x, post);
  }

  // ---------------------------------------------------------------------------
  // The card against the ledger

  /** The loans marked paid, of either type. */
  function PaidOnly(loans: seq<Loan>): seq<Loan> {
    if loans == [] then []
    else PaidOnly(loans[..|loans| - 1]) + (if loans[|loans| - 1].status == "paid" then [loans[|loans| - 1]] else [])
  }

  /**
   * The amount lent on the card is the ledger's outstanding sum over the
   * same loans plus whatever is left on the loans marked paid: the two agree
   * exactly when the paid loans leave nothing (for instance when each paid
   * loan's repayments add up to its amount).
   */
  lemma {:induction false} LentVersusOutstanding(loans: seq<Loan>)
    ensures SumRemaining(loans) == LoanLedger.SumOutstanding(loans) + SumRemaining(PaidOnly(loans))
    decreases |loans|
  {
    if loans != [] {
      var init, y := loans[..|loans| - 1], loans[|loans| - 1];
      LentVersusOutstanding(init);
      if y.status == "paid" {
        SumRemainingAppend(PaidOnly(init), [y]);
        assert [y][..0] == [];
      } else {
        assert PaidOnly(init) + [] == PaidOnly(init);
      }
    }
  }

  /** Hence the card's amount lent is the ledger's, plus what remains on paid loans. */
  lemma TotalLentDecomposes(loans: seq<Loan>)
    ensures TotalLent(loans) ==
      LoanLedger.SumOutstanding(OfType(loans, "given")) + SumRemaining(PaidOnly(OfType(loans, "given")))
  {
    LentVersusOutstanding(OfType(loans, "given"));
  }

  /**
   * The difference made concrete: a single unrepaid loan of 100 lent to a
   * known friend and marked paid counts 100 on the card and 0 in the
   * friend's ledger entry. A loan of a type other than `taken` or `given`
   * counts in the ledger as taken but not in the card's debt.
   */
  lemma SummaryDiffersFromLedger(loan: Loan, friends: seq<Friend>)
    requires LoanLedger.Kept(loan, friends) && loan.amount == 100.0
    ensures var paidLoan := loan.(loanType := "given", status := "paid", repayments := None);
      TotalLent([paidLoan]) == 100.0 &&
      LoanLedger.ExpectedGroup([paidLoan], friends, FriendKey(loan)).totalGiven == 0.0
    ensures var odd := loan.(loanType := "borrowed", status := "pending", repayments := None);
      TotalDebt([odd]) == 0.0 &&
      LoanLedger.ExpectedGroup([odd], friends, FriendKey(loan)).totalTaken == 100.0
  {
    var paidLoan := loan.(loanType := "given", status := "paid", repayments := None);
    var odd := loan.(loanType := "borrowed", status := "pending", repayments := None);
    LoanLedger.SingleLoanGroup(paidLoan, friends);
    LoanLedger.SingleLoanGroup(odd, friends);
    assert [paidLoan][..0] == [] && [odd][..0] == [];
    assert OfType([paidLoan], "given") == [paidLoan];
    assert Repaid(paidLoan) == 0.0;
    assert SumRemaining([paidLoan]) == SumRemaining([]) + RemainingOnLoan(paidLoan);
    assert OfType([odd], "taken") == [];
  }
}
