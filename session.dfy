/**
  The store-facing steps of a session, without prompts or menus: the
  acceptance rules of deposits and withdrawals followed by the rewrite that
  persists them, interest paid at login, opening an account after the
  existence check, and the reset at logout.
 */
module Session {
  import opened Wrappers
  import opened Codec
  import opened Entities
  import opened Customers
  import opened Accounts

  /** Flat charge for a checking withdrawal that dips below zero. */
  const OverdraftFee: real := 5.0

  /** What a deposit or withdrawal request comes to. */
  datatype Verdict =
    | NoAccount            // the account is not loaded (id is the sentinel 0)
    | Accepted(fee: real)  // carried out, with this fee on top
    | NotPositive          // the amount is not greater than 0
    | Insufficient         // the balance (and overdraft) does not cover it

  /** The branch chain of a checking withdrawal: no fee, overdraft with fee, or refused. */
  function CheckingWithdrawal(balance: real, overdraftLimit: real, amount: real): (v: Verdict)
    ensures !v.NoAccount?
    ensures v.Accepted? ==> amount > 0.0 && (v.fee == 0.0 || v.fee == OverdraftFee)
    ensures v == Accepted(OverdraftFee) ==> balance - amount < 0.0 && balance - amount >= -overdraftLimit
  {
    if balance - amount >= 0.0 && amount > 0.0 then Accepted(0.0)
    else if balance - amount >= 0.0 - overdraftLimit && amount > 0.0 then Accepted(OverdraftFee)
    else if amount <= 0.0 then NotPositive
    else Insufficient
  }

  /** The branch chain of a savings withdrawal: no overdraft path. */
  function SavingWithdrawal(balance: real, amount: real): (v: Verdict)
    ensures !v.NoAccount?
    ensures v.Accepted? ==> v.fee == 0.0 && amount > 0.0 && balance - amount >= 0.0
  {
    if balance - amount >= 0.0 && amount > 0.0 then Accepted(0.0)
    else if amount <= 0.0 then NotPositive
    else Insufficient
  }

  function WithdrawalVerdict(kind: Kind, balance: real, rateOrLimit: real, amount: real): Verdict
  {
    match kind
    case Checking => CheckingWithdrawal(balance, rateOrLimit, amount)
    case Saving => SavingWithdrawal(balance, amount)
  }

  /** The account after an accepted withdrawal: one withdrawal counted, amount and fee taken. */
  function Charged(s: AccountState, amount: real, fee: real): (r: AccountState)
    ensures s.balance - r.balance == amount + fee && r.withdrawalCount == s.withdrawalCount + 1
    ensures r.(balance := s.balance, withdrawalCount := s.withdrawalCount) == s
  {
    s.Withdrawn(amount).(balance := s.balance - amount - fee)
  }

  /**
    The checking rule: accepted without fee exactly when the amount is
    positive and covered by the balance; accepted with the $5 fee exactly
    when it is positive, not covered, but within the overdraft limit;
    otherwise refused, as not positive or as insufficient.
   */
  lemma CheckingWithdrawalRule(balance: real, overdraftLimit: real, amount: real)
    ensures CheckingWithdrawal(balance, overdraftLimit, amount) == Accepted(0.0)
            <==> amount > 0.0 && balance - amount >= 0.0
    ensures CheckingWithdrawal(balance, overdraftLimit, amount) == Accepted(5.0)
            <==> amount > 0.0 && balance - amount < 0.0 && balance - amount >= -overdraftLimit
    ensures CheckingWithdrawal(balance, overdraftLimit, amount) == NotPositive <==> amount <= 0.0
    ensures CheckingWithdrawal(balance, overdraftLimit, amount) == Insufficient
            <==> amount > 0.0 && balance - amount < 0.0 && balance - amount < -overdraftLimit
  {
  }

  /** The savings rule: accepted (never with a fee) exactly when positive and covered. */
  lemma SavingWithdrawalRule(balance: real, amount: real)
    ensures SavingWithdrawal(balance, amount) == Accepted(0.0) <==> amount > 0.0 && balance - amount >= 0.0
    ensures SavingWithdrawal(balance, amount) == NotPositive <==> amount <= 0.0
    ensures SavingWithdrawal(balance, amount) == Insufficient <==> amount > 0.0 && balance - amount < 0.0
  {
  }

  /**
    How low an accepted withdrawal can take the balance: never below 0 for
    savings; for checking never below the overdraft limit before the fee,
    so an overdrawn balance is never below limit + 5 after the fee.
   */
  lemma WithdrawalFloor(kind: Kind, s: AccountState, amount: real)
    requires WithdrawalVerdict(kind, s.balance, s.rateOrLimit, amount).Accepted?
    ensures var v := WithdrawalVerdict(kind, s.balance, s.rateOrLimit, amount);
            var after := Charged(s, amount, v.fee).balance;
            amount > 0.0 && after < s.balance
            && (kind == Saving ==> after >= 0.0)
            && (kind == Checking && v.fee > 0.0 ==> after >= -s.rateOrLimit - OverdraftFee)
            && (after < 0.0 <==> v.fee > 0.0)
  {
  }

  /**
    The two overdraft cases of a checking account holding 10 with limit
    25: withdrawing 20 leaves -15 with the fee and one withdrawal counted;
    withdrawing 40 is refused.
   */
  lemma OverdraftExample(c: Customer)
    ensures var s := AccountState(c, 10.0, 25.0, 123456, 0, 0);
            CheckingWithdrawal(10.0, 25.0, 20.0) == Accepted(5.0)
            && Charged(s, 20.0, 5.0) == s.(balance := -15.0, withdrawalCount := 1)
            && CheckingWithdrawal(10.0, 25.0, 40.0) == Insufficient
  {
  }

  /**
    The store side of `withdrawAccount` for one account: with no account
    loaded nothing happens; otherwise the rule decides, and an accepted
    withdrawal (and any fee) is applied and persisted by the rewrite.
   */
  method WithdrawAccount(user: Customer, acct: Account, amount: real, accounts: seq<string>, n: Numerals,
                         renameSucceeds: bool)
    returns (verdict: Verdict, accounts': seq<string>, fileError: bool)
    modifies acct
    ensures verdict == if old(acct.id) == 0 then NoAccount
                       else WithdrawalVerdict(acct.kind, old(acct.balance), old(acct.rateOrLimit), amount)
    ensures verdict.Accepted? ==>
              acct.State() == Charged(old(acct.State()), amount, verdict.fee)
              && fileError == !renameSucceeds
              && accounts' == if renameSucceeds then Rewrite(accounts, acct.kind, user.username, acct.State(), n) else []
    ensures !verdict.Accepted? ==> acct.State() == old(acct.State()) && accounts' == accounts && !fileError
  {
    accounts', fileError := accounts, false;
    if acct.id == 0 {
      verdict := NoAccount;
      return;
    }
    verdict := WithdrawalVerdict(acct.kind, acct.balance, acct.rateOrLimit, amount);
    if verdict.Accepted? {
      acct.Withdrawal(amount);
      if verdict.fee > 0.0 {
        acct.SetBalance(acct.balance - OverdraftFee);
      }
      accounts', fileError := UpdateAccount(user.username, acct.kind, acct.State(), accounts, n, renameSucceeds);
    }
  }

  /**
    The store side of `depositAccount` for one account: with an account
    loaded, a positive amount is deposited and persisted; anything else
    changes nothing.
   */
  method DepositAccount(user: Customer, acct: Account, amount: real, accounts: seq<string>, n: Numerals,
                        renameSucceeds: bool)
    returns (verdict: Verdict, accounts': seq<string>, fileError: bool)
    modifies acct
    ensures verdict == if old(acct.id) == 0 then NoAccount else if amount > 0.0 then Accepted(0.0) else NotPositive
    ensures verdict.Accepted? ==>
              acct.State() == old(acct.State()).Deposited(amount)
              && fileError == !renameSucceeds
              && accounts' == if renameSucceeds then Rewrite(accounts, acct.kind, user.username, acct.State(), n) else []
    ensures !verdict.Accepted? ==> acct.State() == old(acct.State()) && accounts' == accounts && !fileError
  {
    accounts', fileError := accounts, false;
    if acct.id == 0 {
      verdict := NoAccount;
    } else if amount > 0.0 {
      acct.Deposit(amount);
      verdict := Accepted(0.0);
      accounts', fileError := UpdateAccount(user.username, acct.kind, acct.State(), accounts, n, renameSucceeds);
    } else {
      verdict := NotPositive;
    }
  }

  /**
    The store side of `login`: look the credentials up; on success load
    both accounts and, when a savings account was loaded, pay its interest
    and persist it at once.
   */
  method Login(users: seq<string>, accounts: seq<string>, usernameInput: string, passwordInput: string,
               user: Customer, checking: Account, saving: Account, n: Numerals, renameSucceeds: bool)
    returns (loginSuccess: bool, user': Customer, accounts': seq<string>)
    requires checking != saving && checking.kind == Checking && saving.kind == Saving
    modifies checking, saving
    ensures loginSuccess == FirstLogin(users, usernameInput, passwordInput).Some?
    ensures !loginSuccess ==>
              (user' == user && accounts' == accounts
               && checking.State() == old(checking.State()) && saving.State() == old(saving.State()))
    ensures loginSuccess ==>
              user' == CustomerOf(users[FirstLogin(users, usernameInput, passwordInput).value])
              && checking.State() == Loaded(accounts, user', Checking, old(checking.State()), n)
    ensures loginSuccess ==>
              var loaded := Loaded(accounts, user', Saving, old(saving.State()), n);
              if loaded.id != 0 then
                saving.State() == loaded.WithInterest()
                && accounts' == if renameSucceeds then Rewrite(accounts, Saving, user'.username, saving.State(), n) else []
              else
                saving.State() == loaded && accounts' == accounts
  {
    accounts' := accounts;
    loginSuccess, user' := LoadUser(users, passwordInput, usernameInput, user);
    if loginSuccess {
      LoadAccounts(user', checking, saving, accounts, n);
      if saving.id != 0 {
        saving.PayInterest();
        var fileError;
        accounts', fileError := UpdateAccount(user'.username, Saving, saving.State(), accounts, n, renameSucceeds);
      }
    }
  }

  /**
    The store side of `createAccount`: an account of the kind is created
    only when the file holds none for the user yet.
   */
  method OpenAccount(accounts: seq<string>, user: Customer, acct: Account, id: int)
    returns (accounts': seq<string>, created: bool)
    requires 100000 <= id <= 999999
    modifies acct
    ensures created <==> forall i :: 0 <= i < |accounts| ==> !Owns(accounts[i], user.username, acct.kind)
    ensures created ==> acct.State() == Opened(acct.kind, user, id)
                        && accounts' == accounts + [NewAccountLine(acct.kind, user.username, id)]
    ensures !created ==> acct.State() == old(acct.State()) && accounts' == accounts
  {
    var exists_ := AccountExists(accounts, user, acct.kind);
    created := !exists_;
    if created {
      accounts' := CreateAccount(accounts, user, acct, id);
    } else {
      accounts' := accounts;
    }
  }

  /** Opening the same kind twice for one user: the second request creates nothing. */
  lemma SecondOpenRefused(accounts: seq<string>, user: Customer, kind: Kind, id: int)
    requires Delim !in user.username && 100000 <= id <= 999999
    ensures exists i :: 0 <= i < |accounts + [NewAccountLine(kind, user.username, id)]|
                        && Owns((accounts + [NewAccountLine(kind, user.username, id)])[i], user.username, kind)
  {
    CreatedAccountIsFound(accounts, user, kind, id);
  }

  /**
    `logout`: the customer is cleared and both accounts return to the
    default state, so their id is the "no account" sentinel 0 again.
   */
  method Logout(checking: Account, saving: Account) returns (user: Customer, loggedIn: bool)
    requires checking.kind == Checking && saving.kind == Saving
    modifies checking, saving
    ensures user == NoCustomer && !loggedIn
    ensures checking.State() == Unloaded && saving.State() == Unloaded
  {
    user := NoCustomer;
    checking.SetAccountCustomer(NoCustomer);
    checking.SetBalance(0.0);
    checking.SetOverdraftLimit(0.0);
    checking.SetId(0);
    checking.SetDepositCount(0);
    checking.SetWithdrawalCount(0);
    saving.SetAccountCustomer(NoCustomer);
    saving.SetBalance(0.0);
    saving.SetInterestRate(0.0);
    saving.SetId(0);
    saving.SetDepositCount(0);
    saving.SetWithdrawalCount(0);
    loggedIn := false;
  }
}
