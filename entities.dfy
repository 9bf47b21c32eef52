/**
  The in-memory entities: the customer profile, and the savings and
  checking accounts with their deposit, withdrawal and interest behaviour.

  The source's `account` base class and its two subclasses become one
  class `Account` whose constant `kind` says which subclass it is; the
  subclass-specific parameter (the interest rate of a savings account, the
  overdraft limit of a checking account) lives in `rateOrLimit`.
 */
module Entities {

  /**
    A customer profile as held in memory. The password is not part of it.
    Field order follows the source's full constructor.
   */
  datatype Customer = Customer(
    firstName: string,
    lastName: string,
    address: string,
    phoneNum: string,
    email: string,
    username: string)

  /** `customer()`: every field empty. */
  const NoCustomer := Customer("", "", "", "", "", "")

  datatype Kind = Saving | Checking

  /** The value of an account object: every field the source stores. */
  datatype AccountState = AccountState(
    customer: Customer,
    balance: real,
    rateOrLimit: real,
    id: int,
    depositCount: int,
    withdrawalCount: int)
  {
    /** The state after `deposit(amount)`: the amount is added and one deposit counted. */
    function Deposited(amount: real): (r: AccountState)
      ensures r.balance - balance == amount && r.depositCount == depositCount + 1
      ensures r.(balance := balance, depositCount := depositCount) == this
    {
      this.(balance := balance + amount, depositCount := depositCount + 1)
    }

    /** The state after `withdrawal(amount)`: the amount is taken and one withdrawal counted. */
    function Withdrawn(amount: real): (r: AccountState)
      ensures balance - r.balance == amount && r.withdrawalCount == withdrawalCount + 1
      ensures r.(balance := balance, withdrawalCount := withdrawalCount) == this
    {
      this.(balance := balance - amount, withdrawalCount := withdrawalCount + 1)
    }

    /**
      The state after `payInterest()` on a savings account: only the
      balance changes, and a non-negative rate never lowers a
      non-negative balance.
     */
    function WithInterest(): (r: AccountState)
      ensures r.(balance := balance) == this
      ensures balance >= 0.0 && rateOrLimit >= 0.0 ==> r.balance >= balance
      ensures rateOrLimit == 0.0 ==> r == this
    {
      this.(balance := balance * (1.0 + rateOrLimit))
    }
  }

  /** A default-constructed account: the id is the "no account" sentinel 0. */
  const Unloaded := AccountState(NoCustomer, 0.0, 0.0, 0, 0, 0)

  class Account {
    const kind: Kind
    var accountCustomer: Customer
    var balance: real
    /** interestRate when kind == Saving, overdraftLimit when kind == Checking. */
    var rateOrLimit: real
    var id: int
    var depositCount: int
    var withdrawalCount: int

    function State(): AccountState
      reads this
    {
      AccountState(accountCustomer, balance, rateOrLimit, id, depositCount, withdrawalCount)
    }

    /** `savingAccount()`: empty customer, balance 0, id 0, no deposits or withdrawals, rate 0. */
    constructor DefaultSaving()
      ensures kind == Saving && State() == Unloaded
    {
      kind := Saving;
      accountCustomer, balance, id, depositCount, withdrawalCount := NoCustomer, 0.0, 0, 0, 0;
      rateOrLimit := 0.0;
    }

    /** `checkingAccount()`: as `DefaultSaving`, with overdraft limit 0. */
    constructor DefaultChecking()
      ensures kind == Checking && State() == Unloaded
    {
      kind := Checking;
      accountCustomer, balance, id, depositCount, withdrawalCount := NoCustomer, 0.0, 0, 0, 0;
      rateOrLimit := 0.0;
    }

    /** `savingAccount(rate, customer, balance, id, deposits, withdrawals)`. */
    constructor OfSaving(interestRate: real, customer: Customer, balance: real, id: int,
                         depositCount: int, withdrawalCount: int)
      ensures kind == Saving
      ensures State() == AccountState(customer, balance, interestRate, id, depositCount, withdrawalCount)
    {
      kind := Saving;
      this.accountCustomer, this.balance, this.id := customer, balance, id;
      this.depositCount, this.withdrawalCount := depositCount, withdrawalCount;
      rateOrLimit := interestRate;
    }

    /** `checkingAccount(limit, customer, balance, id, deposits, withdrawals)`. */
    constructor OfChecking(overdraftLimit: real, customer: Customer, balance: real, id: int,
                           depositCount: int, withdrawalCount: int)
      ensures kind == Checking
      ensures State() == AccountState(customer, balance, overdraftLimit, id, depositCount, withdrawalCount)
    {
      kind := Checking;
      this.accountCustomer, this.balance, this.id := customer, balance, id;
      this.depositCount, this.withdrawalCount := depositCount, withdrawalCount;
      rateOrLimit := overdraftLimit;
    }

    method SetAccountCustomer(customer: Customer)
      modifies this
      ensures State() == old(State()).(customer := customer)
    {
      accountCustomer := customer;
    }

    method SetBalance(balance: real)
      modifies this
      ensures State() == old(State()).(balance := balance)
    {
      this.balance := balance;
    }

    method SetId(id: int)
      modifies this
      ensures State() == old(State()).(id := id)
    {
      this.id := id;
    }

    method SetDepositCount(depositCount: int)
      modifies this
      ensures State() == old(State()).(depositCount := depositCount)
    {
      this.depositCount := depositCount;
    }

    method SetWithdrawalCount(withdrawalCount: int)
      modifies this
      ensures State() == old(State()).(withdrawalCount := withdrawalCount)
    {
      this.withdrawalCount := withdrawalCount;
    }

    method SetInterestRate(interestRate: real)
      requires kind == Saving
      modifies this
      ensures State() == old(State()).(rateOrLimit := interestRate)
    {
      rateOrLimit := interestRate;
    }

    method SetOverdraftLimit(overdraftLimit: real)
      requires kind == Checking
      modifies this
      ensures State() == old(State()).(rateOrLimit := overdraftLimit)
    {
      rateOrLimit := overdraftLimit;
    }

    /** Adds `amount` to the balance and counts one deposit; a negative amount is not rejected. */
    method Deposit(amount: real)
      modifies this
      ensures State() == old(State()).Deposited(amount)
    {
      balance := balance + amount;
      depositCount := depositCount + 1;
    }

    /** Subtracts `amount` and counts one withdrawal, with no funds check. */
    method Withdrawal(amount: real)
      modifies this
      ensures State() == old(State()).Withdrawn(amount)
    {
      balance := balance - amount;
      withdrawalCount := withdrawalCount + 1;
    }

    /** Multiplies the balance by 1 + interest rate; no counter changes. */
    method PayInterest()
      requires kind == Saving
      modifies this
      ensures State() == old(State()).WithInterest()
    {
      var tempBalance := balance * (1.0 + rateOrLimit);
      SetBalance(tempBalance);
    }
  }

  /**
    Interest leaves everything but the balance alone: 100 at rate 0.05
    becomes 105 with the counters, id and rate as they were.
   */
  lemma InterestExample(s: AccountState)
    requires s.balance == 100.0 && s.rateOrLimit == 0.05
    ensures s.WithInterest() == s.(balance := 105.0)
  {
  }

  /** One call of `deposit` or `withdrawal` on an account. */
  datatype Transaction = DepositOf(amount: real) | WithdrawalOf(amount: real)

  function Apply(s: AccountState, t: Transaction): AccountState
  {
    match t
    case DepositOf(a) => s.Deposited(a)
    case WithdrawalOf(a) => s.Withdrawn(a)
  }

  /** The state after the transactions `ts`, applied in order. */
  function Replay(s: AccountState, ts: seq<Transaction>): AccountState
    decreases |ts|
  {
    if ts == [] then s else Replay(Apply(s, ts[0]), ts[1..])
  }

  function DepositsIn(ts: seq<Transaction>): nat
  {
    if ts == [] then 0 else (if ts[0].DepositOf? then 1 else 0) + DepositsIn(ts[1..])
  }

  function WithdrawalsIn(ts: seq<Transaction>): nat
  {
    if ts == [] then 0 else (if ts[0].WithdrawalOf? then 1 else 0) + WithdrawalsIn(ts[1..])
  }

  /** Sum of deposited amounts minus sum of withdrawn amounts. */
  function NetFlow(ts: seq<Transaction>): real
  {
    if ts == [] then 0.0
    else (match ts[0] case DepositOf(a) => a case WithdrawalOf(a) => -a) + NetFlow(ts[1..])
  }

  /**
    Counters count calls, whatever the amounts and in whatever order:
    the deposit count grows by the number of deposits, the withdrawal count
    by the number of withdrawals, the balance moves by the net flow, and
    the customer, rate or limit and id are untouched.
   */
  lemma {:induction false} ReplayCounts(s: AccountState, ts: seq<Transaction>)
    ensures Replay(s, ts).depositCount == s.depositCount + DepositsIn(ts)
    ensures Replay(s, ts).withdrawalCount == s.withdrawalCount + WithdrawalsIn(ts)
    ensures Replay(s, ts).balance == s.balance + NetFlow(ts)
    ensures Replay(s, ts).(balance := s.balance, depositCount := s.depositCount,
                           withdrawalCount := s.withdrawalCount) == s
    decreases |ts|
  {
    if ts != [] {
      ReplayCounts(Apply(s, ts[0]), ts[1..]);
    }
  }

  /** From zero counters, N deposits and M withdrawals leave the counters at N and M. */
  lemma CountsFromZero(s: AccountState, ts: seq<Transaction>)
    requires s.depositCount == 0 && s.withdrawalCount == 0
    ensures Replay(s, ts).depositCount == DepositsIn(ts)
    ensures Replay(s, ts).withdrawalCount == WithdrawalsIn(ts)
  {
    ReplayCounts(s, ts);
  }
}
