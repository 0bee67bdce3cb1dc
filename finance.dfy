/** Investments and loans (app/store/finance.ts). Every action settles its
    coins through the game ledger. Rates are fractions per hour. */
module Finance {
  import opened Common
  import opened Seqs
  import opened Game

  datatype InvestmentKind = Deposit | Stocks | Bonds

  datatype Investment = Investment(id: string, kind: InvestmentKind, amount: real, rate: real, createdAt: real)

  datatype Loan = Loan(id: string, amount: real, balance: real, rate: real, createdAt: real)

  const MS_PER_HOUR: real := 3600000.0

  /** `investments.find((i) => i.id === id)` */
  function FindInvestment(invs: seq<Investment>, id: string): (r: Option<Investment>)
    ensures r.Some? ==> r.value in invs && r.value.id == id
    ensures r.None? ==> forall i :: 0 <= i < |invs| ==> invs[i].id != id
  {
    if invs == [] then None
    else if invs[0].id == id then Some(invs[0])
    else FindInvestment(invs[1..], id)
  }

  /** `inv.amount * inv.rate * hours` at time `now`. */
  function Profit(inv: Investment, now: real): real {
    inv.amount * inv.rate * ((now - inv.createdAt) / MS_PER_HOUR)
  }

  /** `investments.filter((i) => i.id !== id)` */
  function InvestmentsWithout(invs: seq<Investment>, id: string): seq<Investment> {
    Filter(invs, (i: Investment) => i.id != id)
  }

  // ---------------------------------------------------------------------
  // Loan payment.

  /** What the source charges: principal plus simple interest on the
      original `amount`, whatever the balance. */
  function Owed(loan: Loan, now: real): real {
    loan.amount + loan.amount * loan.rate * ((now - loan.createdAt) / MS_PER_HOUR)
  }

  /** The paid loan after a payment: kept with its new balance while that is
      positive, dropped otherwise. */
  function AfterPayment(loan: Loan, payment: real, now: real): (r: Option<Loan>)
    ensures r.Some? <==> Owed(loan, now) - payment > 0.0
    ensures r.Some? ==> r.value == loan.(balance := Owed(loan, now) - payment)
  {
    var newBalance := MaxR(0.0, Owed(loan, now) - payment);
    if newBalance > 0.0 then Some(loan.(balance := newBalance)) else None
  }

  /** The list the `for` loop of `payLoan` builds. */
  function PaidLoans(ls: seq<Loan>, id: string, payment: real, now: real): seq<Loan> {
    if ls == [] then []
    else
      var init := PaidLoans(ls[..|ls| - 1], id, payment, now);
      var last := ls[|ls| - 1];
      if last.id != id then init + [last]
      else match AfterPayment(last, payment, now)
        case Some(l) => init + [l]
        case None => init
  }

  function OtherLoans(ls: seq<Loan>, id: string): seq<Loan> {
    Filter(ls, (l: Loan) => l.id != id)
  }

  lemma FilterSnoc<T>(s: seq<T>, x: T, p: T -> bool)
    ensures Filter(s + [x], p) == Filter(s, p) + (if p(x) then [x] else [])
  {
    FilterAppend(s, [x], p);
    assert Filter([x], p) == (if p(x) then [x] else []) + Filter([x][1..], p);
  }

  /** The loans with other ids come out unchanged and in their order. */
  lemma {:induction false} PaidLoansOthers(ls: seq<Loan>, id: string, payment: real, now: real)
    ensures OtherLoans(PaidLoans(ls, id, payment, now), id) == OtherLoans(ls, id)
  {
    if ls != [] {
      var init, last := ls[..|ls| - 1], ls[|ls| - 1];
      PaidLoansOthers(init, id, payment, now);
      var pInit := PaidLoans(init, id, payment, now);
      assert ls == init + [last];
      FilterSnoc(init, last, (l: Loan) => l.id != id);
      if last.id != id {
        FilterSnoc(pInit, last, (l: Loan) => l.id != id);
      } else {
        match AfterPayment(last, payment, now)
        case Some(l) =>
          FilterSnoc(pInit, l, (l: Loan) => l.id != id);
        case None =>
      }
    }
  }

  /** Every loan left with the paid id is an original loan with that id whose
      balance is now `Owed - payment`, a positive number. */
  lemma {:induction false} PaidLoansPaid(ls: seq<Loan>, id: string, payment: real, now: real, l: Loan)
    requires l in PaidLoans(ls, id, payment, now) && l.id == id
    ensures l.balance > 0.0
    ensures exists o :: o in ls && o.id == id && l == o.(balance := Owed(o, now) - payment)
  {
    var init, last := ls[..|ls| - 1], ls[|ls| - 1];
    assert ls == init + [last];
    if l in PaidLoans(init, id, payment, now) {
      PaidLoansPaid(init, id, payment, now, l);
      var o :| o in init && o.id == id && l == o.(balance := Owed(o, now) - payment);
      assert o in ls;
    } else {
      assert l == last.(balance := Owed(last, now) - payment);
    }
  }

  /** A second payment forgets the first: a loan of 100 at rate 0 paid 50
      twice still has balance 50. */
  lemma RepeatedPaymentIgnored(loan: Loan, now: real)
    requires loan.amount == 100.0 && loan.balance == 100.0 && loan.rate == 0.0
    ensures AfterPayment(loan, 50.0, now) == Some(loan.(balance := 50.0))
    ensures AfterPayment(loan.(balance := 50.0), 50.0, now) == Some(loan.(balance := 50.0))
  {
  }

  /** The amount owed does not depend on the balance: every payment is set
      against the original amount with its interest. */
  lemma OwedIgnoresBalance(loan: Loan, balance: real, payment: real, now: real)
    ensures Owed(loan.(balance := balance), now) == Owed(loan, now)
    ensures AfterPayment(loan.(balance := balance), payment, now).Some? <==> AfterPayment(loan, payment, now).Some?
  {
  }

  // ---------------------------------------------------------------------
  // The store.

  class FinanceStore {
    var investments: seq<Investment>
    var loans: seq<Loan>
    const game: GameStore

    constructor(game: GameStore)
      ensures investments == [] && loans == [] && this.game == game
    {
      investments := [];
      loans := [];
      this.game := game;
    }

    /** `invest(type, amount, rate)` with a fresh id at time `now`. A
        non-positive amount passes the spending guard without being debited. */
    method Invest(kind: InvestmentKind, amount: real, rate: real, freshId: string, now: real)
      modifies this, game
      ensures loans == old(loans) && game.buildings == old(game.buildings)
      ensures old(game.coins) < amount ==>
        investments == old(investments) && game.coins == old(game.coins) && game.saved == old(game.saved)
      ensures amount <= old(game.coins) ==>
        investments == old(investments) + [Investment(freshId, kind, amount, rate, now)]
      ensures amount <= old(game.coins) && amount > 0.0 ==> game.coins == old(game.coins) - amount
      ensures amount <= 0.0 ==> game.coins == old(game.coins)
    {
      if !game.CanSpend(amount) {
        return;
      }
      var ok := game.Spend(amount);
      if !ok {
        return;
      }
      investments := investments + [Investment(freshId, kind, amount, rate, now)];
    }

    /** `collectInvestment(id)` at time `now`. */
    method CollectInvestment(id: string, now: real)
      modifies this, game
      ensures loans == old(loans) && game.buildings == old(game.buildings)
      ensures FindInvestment(old(investments), id).None? ==>
        investments == old(investments) && game.coins == old(game.coins) && game.saved == old(game.saved)
      ensures FindInvestment(old(investments), id).Some? ==>
        game.coins == old(game.coins) + Profit(FindInvestment(old(investments), id).value, now).Floor as real
        && investments == InvestmentsWithout(old(investments), id)
    {
      var inv := FindInvestment(investments, id);
      if inv.None? {
        return;
      }
      var hours := (now - inv.value.createdAt) / 3600000.0;
      var profit := inv.value.amount * inv.value.rate * hours;
      assert profit == Profit(inv.value, now);
      game.AddCoins(profit.Floor as real);
      investments := Filter(investments, (i: Investment) => i.id != id);
    }

    /** `takeLoan(amount, rate)` with a fresh id at time `now`. */
    method TakeLoan(amount: real, rate: real, freshId: string, now: real)
      modifies this, game
      ensures game.coins == old(game.coins) + amount && game.buildings == old(game.buildings)
      ensures loans == old(loans) + [Loan(freshId, amount, amount, rate, now)]
      ensures investments == old(investments)
    {
      game.AddCoins(amount);
      loans := loans + [Loan(freshId, amount, amount, rate, now)];
    }

    /** `payLoan(id, payment)` at time `now`. The payment is taken even when no
        loan has that id. */
    method PayLoan(id: string, payment: real, now: real)
      modifies this, game
      ensures investments == old(investments) && game.buildings == old(game.buildings)
      ensures old(game.coins) < payment ==>
        loans == old(loans) && game.coins == old(game.coins) && game.saved == old(game.saved)
      ensures payment <= old(game.coins) ==> loans == PaidLoans(old(loans), id, payment, now)
      ensures payment <= old(game.coins) && payment > 0.0 ==> game.coins == old(game.coins) - payment
      ensures payment <= 0.0 ==> game.coins == old(game.coins)
    {
      if !game.CanSpend(payment) {
        return;
      }
      var ok := game.Spend(payment);
      if !ok {
        return;
      }
      var ls := loans;
      var updated: seq<Loan> := [];
      for i := 0 to |ls|
        invariant updated == PaidLoans(ls[..i], id, payment, now)
      {
        assert ls[..i + 1][..i] == ls[..i];
        var loan := ls[i];
        if loan.id != id {
          updated := updated + [loan];
          continue;
        }
        var hours := (now - loan.createdAt) / 3600000.0;
        var owed := loan.amount + loan.amount * loan.rate * hours;
        var newBalance := MaxR(0.0, owed - payment);
        assert owed == Owed(loan, now);
        if newBalance > 0.0 {
          updated := updated + [loan.(balance := newBalance)];
        }
      }
      assert ls[..|ls|] == ls;
      loans := updated;
    }

    /** `declareBankruptcy()` */
    method DeclareBankruptcy()
      modifies this, game
      ensures investments == [] && loans == []
      ensures game.coins == INITIAL_COINS && game.buildings == [] && game.saved == None
    {
      game.Reset();
      investments := [];
      loans := [];
    }
  }
}
