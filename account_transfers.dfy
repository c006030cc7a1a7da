/**
 * A `sendMoney` command between two accounts (`SendMoneyTransaction`).
 * The sender pays the amount and the plan's commission on it; the receiver
 * gets the amount converted into its own currency. Sender and receiver may
 * be the same account or belong to the same user, so the whole effect is
 * described on one snapshot of both sides, with the writes applied in the
 * order the transfer makes them.
 */
module AccountTransfers {
  import opened Wrappers
  import opened ServicePlans
  import opened Records
  import opened ExchangeRates
  import opened Ledger
  import opened Pricing
  import opened Payments
  import opened Transfers

  /** How a transfer between two existing accounts ends. */
  datatype TransferOutcome =
    | Unfunded  // the balance does not exceed the amount: only the failed record is written
    | Blocked   // an employee above the spending limit with the converted amount: nothing happens
    | Moved     // booked, debited, credited and recorded on both sides

  function TransferOutcomeOf(balance: real, amount: real, overLimit: bool): TransferOutcome {
    if balance - amount <= 0.0 then Unfunded else if overLimit then Blocked else Moved
  }

  /** The record a failed transfer writes: a description and nothing else. */
  function UnfundedRecord(timestamp: int): Record {
    Transfer(timestamp, "Insufficient funds", None, None, None, None)
  }

  /** The sender's record: the amount in the sender's currency. */
  function SentRecord(giver: Account, receiver: Account, amount: real, description: string, timestamp: int): Record {
    Transfer(timestamp, description, Some(giver.iban), Some(receiver.iban), Some(Money(amount, giver.currency)),
             Some("sent"))
  }

  /** The receiver's record: the converted amount in the receiver's currency. */
  function ReceivedRecord(giver: Account, receiver: Account, received: real, description: string, timestamp: int): Record {
    Transfer(timestamp, description, Some(giver.iban), Some(receiver.iban), Some(Money(received, receiver.currency)),
             Some("received"))
  }

  /**
   * Where the sender's record lands in its user's history: appended, or
   * nowhere for a business account whose owner is someone else; between the
   * same email it goes before the last entry.
   */
  function SentHistory(h: seq<Record>, kind: Kind, onUser: bool, sameEmail: bool, record: Record): seq<Record>
    requires kind != Business && sameEmail ==> |h| > 0
  {
    if kind == Business then (if onUser then h + [record] else h)
    else if sameEmail then InsertAt(h, |h| - 1, record)
    else h + [record]
  }

  /** Both sides of a transfer: balances and histories of the two accounts and the two users, and the booking. */
  datatype Sides = Sides(giverBalance: real, receiverBalance: real, giverHistory: seq<Record>,
                         receiverHistory: seq<Record>, userHistory: seq<Record>, receiverUserHistory: seq<Record>,
                         totalSpent: real, spent: real)

  function SidesOf(giver: Account, receiver: Account, giverUser: User, receiverUser: User, email: string): Sides
    requires giver.kind == Business && email in giver.employees ==> giverUser.email in giver.employees
    reads giver`balance, receiver`balance, giver`transactions, receiver`transactions, giverUser`transactions,
          receiverUser`transactions, giver`totalSpent, giver`employees, giver`managers,
          SpenderFrame(giver, email, giverUser.email)`spent
  {
    Sides(giver.balance, receiver.balance, giver.transactions, receiver.transactions, giverUser.transactions,
          receiverUser.transactions, giver.totalSpent, SpentBy(giver, email, giverUser.email))
  }

  /** What a transfer reads besides the two sides. */
  datatype Deal = Deal(sameAccount: bool, sameUser: bool, kind: Kind, onUser: bool, sameEmail: bool, rate: real,
                       amount: real, received: real, booked: bool, sent: Record, got: Record, timestamp: int)

  /** Whether the sender's record has a place to go before the last entry. */
  predicate Insertable(s: Sides, d: Deal, o: TransferOutcome) {
    d.kind != Business && d.sameEmail ==>
      (o == Unfunded ==> |s.userHistory| > 0) && (o == Moved ==> |s.userHistory| + (if d.sameUser then 1 else 0) > 0)
  }

  /** The booking: the acting associate's spending and the business total grow by the received amount. */
  function Booking(s: Sides, d: Deal): Sides {
    if d.booked then s.(totalSpent := s.totalSpent + d.received, spent := s.spent + d.received) else s
  }

  /**
   * The money and the received record: the sender is debited the amount
   * and the commission, then the receiver credited, then the received record
   * goes on the receiver's user and account. Where both sides are one
   * account or one user, the later write sees the earlier one.
   */
  function Paying(s: Sides, d: Deal): Sides {
    var debited := Debited(s.giverBalance, d.amount, d.rate);
    var receiverBalance := (if d.sameAccount then debited else s.receiverBalance) + d.received;
    var receiverHistory := s.receiverHistory + [d.got];
    var receiverUserHistory := s.receiverUserHistory + [d.got];
    s.(giverBalance := if d.sameAccount then receiverBalance else debited, receiverBalance := receiverBalance,
       giverHistory := if d.sameAccount then receiverHistory else s.giverHistory, receiverHistory := receiverHistory,
       userHistory := if d.sameUser then receiverUserHistory else s.userHistory,
       receiverUserHistory := receiverUserHistory)
  }

  /** The sender's record: on its user as `SentHistory` places it, and on a classic account. */
  function Sending(s: Sides, d: Deal, record: Record): Sides
    requires d.kind != Business && d.sameEmail ==> |s.userHistory| > 0
  {
    var userHistory := SentHistory(s.userHistory, d.kind, d.onUser, d.sameEmail, record);
    var giverHistory := s.giverHistory + (if d.kind == Classic then [record] else []);
    s.(giverHistory := giverHistory, receiverHistory := if d.sameAccount then giverHistory else s.receiverHistory,
       userHistory := userHistory, receiverUserHistory := if d.sameUser then userHistory else s.receiverUserHistory)
  }

  /** The effect of a transfer on both sides: the failed record alone, nothing, or the stages in order. */
  function TransferAfter(s: Sides, d: Deal, o: TransferOutcome): (r: Sides)
    requires Insertable(s, d, o)
    ensures o == Blocked ==> r == s
    ensures o != Moved ==> r.giverBalance == s.giverBalance && r.receiverBalance == s.receiverBalance
                           && r.totalSpent == s.totalSpent && r.spent == s.spent
    ensures o == Moved && !d.sameAccount ==>
              r.giverBalance == Debited(s.giverBalance, d.amount, d.rate) && r.receiverBalance == s.receiverBalance + d.received
  {
    match o
    case Blocked => s
    case Unfunded => Sending(s, d, UnfundedRecord(d.timestamp))
    case Moved => Sending(Paying(Booking(s, d), d), d, d.sent)
  }

  /** The deal a transfer of `amount` strikes, read in the state before it. */
  function DealOf(giver: Account, receiver: Account, giverUser: User, receiverUser: User, bank: Bnr, email: string,
                  amount: real, description: string, timestamp: int): Deal
    requires giver.kind == Business ==> giver.owner != null
    requires giver.kind == Business && email in giver.employees ==> giverUser.email in giver.employees
    reads giver`owner, giver`employees, giver`managers, giverUser`servicePlan, bank`exchangeRates
  {
    var received := Convert(bank.exchangeRates, amount, giver.currency, receiver.currency);
    Deal(giver == receiver, giverUser == receiverUser, giver.kind, OnUser(giver, giverUser),
         giverUser.email == receiverUser.email,
         giverUser.servicePlan.CommissionRate(Convert(bank.exchangeRates, amount, giver.currency, "RON")), amount,
         received, Spender(giver, email, giverUser.email).Some?, SentRecord(giver, receiver, amount, description, timestamp),
         ReceivedRecord(giver, receiver, received, description, timestamp), timestamp)
  }

  /**
   * Moving money: the sender loses the amount and the commission on it and
   * the receiver gains the converted amount; within one account both apply
   * to the one balance.
   */
  lemma MovedBalances(s: Sides, d: Deal)
    requires Insertable(s, d, Moved)
    ensures !d.sameAccount ==> TransferAfter(s, d, Moved).giverBalance == s.giverBalance - d.amount * (1.0 + d.rate)
                               && TransferAfter(s, d, Moved).receiverBalance == s.receiverBalance + d.received
    ensures d.sameAccount ==> TransferAfter(s, d, Moved).giverBalance == TransferAfter(s, d, Moved).receiverBalance
                              == s.giverBalance - d.amount * (1.0 + d.rate) + d.received
  {
  }

  /** Without a commission and a conversion, a transfer between two accounts keeps the sum of their balances. */
  lemma TransferConserves(s: Sides, d: Deal)
    requires Insertable(s, d, Moved) && !d.sameAccount && d.rate == 0.0 && d.received == d.amount
    ensures TransferAfter(s, d, Moved).giverBalance + TransferAfter(s, d, Moved).receiverBalance
            == s.giverBalance + s.receiverBalance
  {
    MovedBalances(s, d);
  }

  /**
   * A transfer between two non-business accounts of one user lists the
   * sent record right before the received one: the received record is
   * written first and the sent record goes in before the last entry.
   */
  lemma SelfTransferOrder(s: Sides, d: Deal)
    requires d.sameUser && d.sameEmail && d.kind != Business && s.userHistory == s.receiverUserHistory
    ensures TransferAfter(s, d, Moved).userHistory == s.userHistory + [d.sent, d.got]
    ensures TransferAfter(s, d, Moved).receiverUserHistory == s.userHistory + [d.sent, d.got]
  {
    var h := Paying(Booking(s, d), d).userHistory;
    assert h == s.userHistory + [d.got];
    assert InsertAt(h, |h| - 1, d.sent) == h[..|h| - 1] + [d.sent] + h[|h| - 1..];
    assert h[..|h| - 1] == s.userHistory;
  }

  /**
   * A failed transfer moves no money and books nothing; its record reaches
   * the sender's user unless the account is a business one owned by
   * someone else, in which case the user's history stays as it was.
   */
  lemma UnfundedMovesNothing(s: Sides, d: Deal)
    requires Insertable(s, d, Unfunded)
    ensures TransferAfter(s, d, Unfunded).giverBalance == s.giverBalance
            && TransferAfter(s, d, Unfunded).receiverBalance == s.receiverBalance
            && TransferAfter(s, d, Unfunded).totalSpent == s.totalSpent && TransferAfter(s, d, Unfunded).spent == s.spent
    ensures |TransferAfter(s, d, Unfunded).userHistory| == |s.userHistory| + (if d.kind != Business || d.onUser then 1 else 0)
    ensures d.kind != Business || d.onUser ==> UnfundedRecord(d.timestamp) in TransferAfter(s, d, Unfunded).userHistory
  {
    var h := TransferAfter(s, d, Unfunded).userHistory;
    if d.kind != Business && d.sameEmail {
      assert h[|s.userHistory| - 1] == UnfundedRecord(d.timestamp);
    } else if d.kind != Business || d.onUser {
      assert h[|s.userHistory|] == UnfundedRecord(d.timestamp);
    }
  }

  // ---------------------------------------------------------------------
  // The stages

  /** Writes the sender's record: see `Sending`. */
  method WriteSent(giver: Account, receiver: Account, giverUser: User, receiverUser: User, email: string,
                   ghost s0: Sides, ghost d: Deal, record: Record)
    requires giver.kind == Business ==> giver.owner != null
    requires giver.kind == Business && email in giver.employees ==> giverUser.email in giver.employees
    requires s0 == SidesOf(giver, receiver, giverUser, receiverUser, email)
    requires d.sameAccount == (giver == receiver) && d.sameUser == (giverUser == receiverUser) && d.kind == giver.kind
    requires d.onUser == OnUser(giver, giverUser) && d.sameEmail == (giverUser.email == receiverUser.email)
    requires d.kind != Business && d.sameEmail ==> |s0.userHistory| > 0
    modifies giverUser`transactions, giver`transactions
    ensures SidesOf(giver, receiver, giverUser, receiverUser, email) == Sending(s0, d, record)
  {
    if giver.kind == Business {
      if giver.owner.user == giverUser {
        giverUser.transactions := giverUser.transactions + [record];
      }
    } else if giverUser.email == receiverUser.email {
      giverUser.transactions := InsertAt(giverUser.transactions, |giverUser.transactions| - 1, record);
    } else {
      giverUser.transactions := giverUser.transactions + [record];
    }
    if giver.kind == Classic {
      giver.transactions := giver.transactions + [record];
    }
  }

  /** Debits the sender, credits the receiver and writes the received record on both: see `Paying`. */
  method MoveMoney(giver: Account, receiver: Account, giverUser: User, receiverUser: User, email: string,
                   ghost s0: Sides, ghost d: Deal, amount: real, rate: real, received: real, got: Record)
    requires giver.kind == Business && email in giver.employees ==> giverUser.email in giver.employees
    requires s0 == SidesOf(giver, receiver, giverUser, receiverUser, email)
    requires d.sameAccount == (giver == receiver) && d.sameUser == (giverUser == receiverUser)
    requires d.amount == amount && d.rate == rate && d.received == received && d.got == got
    modifies giver`balance, receiver`balance, receiver`transactions, receiverUser`transactions
    ensures SidesOf(giver, receiver, giverUser, receiverUser, email) == Paying(s0, d)
  {
    giver.balance := Debited(giver.balance, amount, rate);
    receiver.balance := receiver.balance + received;
    receiverUser.transactions := receiverUser.transactions + [got];
    receiver.transactions := receiver.transactions + [got];
  }

  /** Moves the money, then writes the sender's record: see `Paying` and `Sending`. */
  method MoveAndRecord(giver: Account, receiver: Account, giverUser: User, receiverUser: User, email: string,
                       ghost s0: Sides, ghost d: Deal, amount: real, rate: real, received: real, got: Record,
                       sent: Record)
    requires giver.kind == Business ==> giver.owner != null
    requires giver.kind == Business && email in giver.employees ==> giverUser.email in giver.employees
    requires s0 == SidesOf(giver, receiver, giverUser, receiverUser, email)
    requires d.sameAccount == (giver == receiver) && d.sameUser == (giverUser == receiverUser) && d.kind == giver.kind
    requires d.onUser == OnUser(giver, giverUser) && d.sameEmail == (giverUser.email == receiverUser.email)
    requires d.amount == amount && d.rate == rate && d.received == received && d.got == got && d.sent == sent
    requires d.kind != Business && d.sameEmail ==> |s0.userHistory| + (if d.sameUser then 1 else 0) > 0
    modifies giver`balance, receiver`balance, giver`transactions, receiver`transactions, giverUser`transactions,
             receiverUser`transactions
    ensures SidesOf(giver, receiver, giverUser, receiverUser, email) == Sending(Paying(s0, d), d, d.sent)
  {
    MoveMoney(giver, receiver, giverUser, receiverUser, email, s0, d, amount, rate, received, got);
    WriteSent(giver, receiver, giverUser, receiverUser, email, Paying(s0, d), d, sent);
  }

  /** Prices the commission on the amount's RON value, then moves the money and writes both records. */
  method PayAndRecord(giver: Account, receiver: Account, giverUser: User, receiverUser: User, bank: Bnr, email: string,
                      ghost s0: Sides, ghost d: Deal, amount: real, received: real, description: string,
                      timestamp: int)
    requires giver.kind == Business ==> giver.owner != null
    requires giver.kind == Business && email in giver.employees ==> giverUser.email in giver.employees
    requires s0 == SidesOf(giver, receiver, giverUser, receiverUser, email)
    requires d.sameAccount == (giver == receiver) && d.sameUser == (giverUser == receiverUser) && d.kind == giver.kind
    requires d.onUser == OnUser(giver, giverUser) && d.sameEmail == (giverUser.email == receiverUser.email)
    requires d.amount == amount && d.received == received
    requires d.rate == giverUser.servicePlan.CommissionRate(Convert(bank.exchangeRates, amount, giver.currency, "RON"))
    requires d.sent == SentRecord(giver, receiver, amount, description, timestamp)
    requires d.got == ReceivedRecord(giver, receiver, received, description, timestamp)
    requires d.kind != Business && d.sameEmail ==> |s0.userHistory| + (if d.sameUser then 1 else 0) > 0
    modifies giver`balance, receiver`balance, giver`transactions, receiver`transactions, giverUser`transactions,
             receiverUser`transactions
    ensures SidesOf(giver, receiver, giverUser, receiverUser, email) == Sending(Paying(s0, d), d, d.sent)
  {
    var ron := Exchange(bank, amount, giver.currency, "RON");
    MoveAndRecord(giver, receiver, giverUser, receiverUser, email, s0, d, amount, giverUser.servicePlan.CommissionRate(ron),
                  received, ReceivedRecord(giver, receiver, received, description, timestamp),
                  SentRecord(giver, receiver, amount, description, timestamp));
  }

  /** Books the received amount on the acting associate: see `Booking`. */
  method BookTransfer(giver: Account, receiver: Account, giverUser: User, receiverUser: User, email: string,
                      ghost s0: Sides, ghost d: Deal, received: real)
    requires giver.kind == Business && email in giver.employees ==> giverUser.email in giver.employees
    requires s0 == SidesOf(giver, receiver, giverUser, receiverUser, email)
    requires d.booked == Spender(giver, email, giverUser.email).Some? && d.received == received
    modifies giver`totalSpent, SpenderFrame(giver, email, giverUser.email)`spent
    ensures SidesOf(giver, receiver, giverUser, receiverUser, email) == Booking(s0, d)
  {
    BookSpending(giver, email, giverUser.email, None, received);
  }

  /** Books the received amount, then pays. */
  method BookThenPay(giver: Account, receiver: Account, giverUser: User, receiverUser: User, bank: Bnr, email: string,
                     ghost s0: Sides, ghost d: Deal, amount: real, received: real, description: string, timestamp: int)
    requires giver.kind == Business ==> giver.owner != null
    requires giver.kind == Business && email in giver.employees ==> giverUser.email in giver.employees
    requires s0 == SidesOf(giver, receiver, giverUser, receiverUser, email)
    requires d.sameAccount == (giver == receiver) && d.sameUser == (giverUser == receiverUser) && d.kind == giver.kind
    requires d.onUser == OnUser(giver, giverUser) && d.sameEmail == (giverUser.email == receiverUser.email)
    requires d.rate == giverUser.servicePlan.CommissionRate(Convert(bank.exchangeRates, amount, giver.currency, "RON"))
    requires d.sent == SentRecord(giver, receiver, amount, description, timestamp)
    requires d.booked == Spender(giver, email, giverUser.email).Some? && d.amount == amount
    requires d.received == received && d.got == ReceivedRecord(giver, receiver, received, description, timestamp)
    requires d.kind != Business && d.sameEmail ==> |s0.userHistory| + (if d.sameUser then 1 else 0) > 0
    modifies giver`balance, receiver`balance, giver`transactions, receiver`transactions, giverUser`transactions,
             receiverUser`transactions, giver`totalSpent, SpenderFrame(giver, email, giverUser.email)`spent
    ensures SidesOf(giver, receiver, giverUser, receiverUser, email) == Sending(Paying(Booking(s0, d), d), d, d.sent)
  {
    BookTransfer(giver, receiver, giverUser, receiverUser, email, s0, d, received);
    PayAndRecord(giver, receiver, giverUser, receiverUser, bank, email, Booking(s0, d), d, amount, received, description,
                 timestamp);
  }

  /** Converts the amount into the receiver's currency; an employee above the spending limit with it stops there. */
  method ConvertThenPay(giver: Account, receiver: Account, giverUser: User, receiverUser: User, bank: Bnr, email: string,
                        ghost s0: Sides, ghost d: Deal, amount: real, description: string, timestamp: int,
                        ghost o: TransferOutcome)
    requires giver.kind == Business ==> giver.owner != null
    requires giver.kind == Business && email in giver.employees ==> giverUser.email in giver.employees
    requires s0 == SidesOf(giver, receiver, giverUser, receiverUser, email)
    requires d.sameAccount == (giver == receiver) && d.sameUser == (giverUser == receiverUser) && d.kind == giver.kind
    requires d.onUser == OnUser(giver, giverUser) && d.sameEmail == (giverUser.email == receiverUser.email)
    requires d.rate == giverUser.servicePlan.CommissionRate(Convert(bank.exchangeRates, amount, giver.currency, "RON"))
    requires d.sent == SentRecord(giver, receiver, amount, description, timestamp)
    requires d.booked == Spender(giver, email, giverUser.email).Some? && d.amount == amount
    requires d.received == Convert(bank.exchangeRates, amount, giver.currency, receiver.currency)
    requires d.got == ReceivedRecord(giver, receiver, d.received, description, timestamp)
    requires o == if OverLimit(giver, email, d.received) then Blocked else Moved
    requires Insertable(s0, d, o)
    modifies giver`balance, receiver`balance, giver`transactions, receiver`transactions, giverUser`transactions,
             receiverUser`transactions, giver`totalSpent, SpenderFrame(giver, email, giverUser.email)`spent
    ensures SidesOf(giver, receiver, giverUser, receiverUser, email) == TransferAfter(s0, d, o)
  {
    var received := Exchange(bank, amount, giver.currency, receiver.currency);
    if OverLimit(giver, email, received) {
      return;
    }
    BookThenPay(giver, receiver, giverUser, receiverUser, bank, email, s0, d, amount, received, description, timestamp);
  }

  /** A transfer between two existing accounts: the guards of `TransferOutcomeOf` in order. */
  method TransferBetween(giver: Account, receiver: Account, giverUser: User, receiverUser: User, bank: Bnr,
                         email: string, ghost s0: Sides, ghost d: Deal, amount: real, description: string,
                         timestamp: int, ghost o: TransferOutcome)
    requires giver.kind == Business ==> giver.owner != null
    requires giver.kind == Business && email in giver.employees ==> giverUser.email in giver.employees
    requires s0 == SidesOf(giver, receiver, giverUser, receiverUser, email)
    requires d.sameAccount == (giver == receiver) && d.sameUser == (giverUser == receiverUser) && d.kind == giver.kind
    requires d.onUser == OnUser(giver, giverUser) && d.sameEmail == (giverUser.email == receiverUser.email)
    requires d.rate == giverUser.servicePlan.CommissionRate(Convert(bank.exchangeRates, amount, giver.currency, "RON"))
    requires d.sent == SentRecord(giver, receiver, amount, description, timestamp)
    requires d.booked == Spender(giver, email, giverUser.email).Some? && d.amount == amount
    requires d.received == Convert(bank.exchangeRates, amount, giver.currency, receiver.currency)
    requires d.got == ReceivedRecord(giver, receiver, d.received, description, timestamp) && d.timestamp == timestamp
    requires o == TransferOutcomeOf(s0.giverBalance, amount, OverLimit(giver, email, d.received))
    requires Insertable(s0, d, o)
    modifies giver`balance, receiver`balance, giver`transactions, receiver`transactions, giverUser`transactions,
             receiverUser`transactions, giver`totalSpent, SpenderFrame(giver, email, giverUser.email)`spent
    ensures SidesOf(giver, receiver, giverUser, receiverUser, email) == TransferAfter(s0, d, o)
  {
    if giver.balance - amount <= 0.0 {
      WriteSent(giver, receiver, giverUser, receiverUser, email, s0, d, UnfundedRecord(timestamp));
      return;
    }
    ConvertThenPay(giver, receiver, giverUser, receiverUser, bank, email, s0, d, amount, description, timestamp,
                   if OverLimit(giver, email, d.received) then Blocked else Moved);
  }

  /**
   * `SendMoneyTransaction.makeTransaction`: "User not found" when either
   * account is missing; otherwise `TransferAfter` with the deal and the
   * outcome read before the transfer. The sender's record goes before the
   * last entry of its user's history when both users share an email, which
   * needs an entry to be there.
   */
  method SendMoney(giver: Account?, giverUser: User?, receiver: Account?, receiverUser: User?, bank: Bnr, email: string,
                   amount: real, description: string, command: string, timestamp: int, output: Output)
    requires giver != null ==> giverUser != null
    requires receiver != null ==> receiverUser != null
    requires giver != null && giver.kind == Business ==> giver.owner != null
    requires giver != null && giverUser != null && giver.kind == Business && email in giver.employees ==>
               giverUser.email in giver.employees
    requires (giver != null && receiver != null && giver.kind != Business && giverUser.email == receiverUser.email
              && (giverUser != receiverUser || giver.balance - amount <= 0.0)) ==> |giverUser.transactions| > 0
    modifies output, AccountFrame(giver)`balance, AccountFrame(receiver)`balance, AccountFrame(giver)`transactions,
             AccountFrame(receiver)`transactions, UserFrame(giverUser)`transactions,
             UserFrame(receiverUser)`transactions, AccountFrame(giver)`totalSpent, SpendersOf(giver, giverUser, email)`spent
    ensures giver == null || receiver == null ==>
              output.entries == old(output.entries) + [Notice(command, timestamp, "description", "User not found")]
              && unchanged(AccountFrame(giver), AccountFrame(receiver), UserFrame(giverUser), UserFrame(receiverUser))
              && unchanged(SpendersOf(giver, giverUser, email))
    ensures giver != null && receiver != null ==>
              var d := old(DealOf(giver, receiver, giverUser, receiverUser, bank, email, amount, description, timestamp));
              output.entries == old(output.entries)
              && SidesOf(giver, receiver, giverUser, receiverUser, email) ==
                   TransferAfter(old(SidesOf(giver, receiver, giverUser, receiverUser, email)), d,
                                 old(TransferOutcomeOf(giver.balance, amount, OverLimit(giver, email, d.received))))
  {
    if giver == null || receiver == null {
      output.PrintError(command, "User not found", timestamp);
      return;
    }
    ghost var d := DealOf(giver, receiver, giverUser, receiverUser, bank, email, amount, description, timestamp);
    TransferBetween(giver, receiver, giverUser, receiverUser, bank, email,
                    SidesOf(giver, receiver, giverUser, receiverUser, email), d, amount, description, timestamp,
                    TransferOutcomeOf(giver.balance, amount, OverLimit(giver, email, d.received)));
  }
}
