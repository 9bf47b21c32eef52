/**
  The account file: one line per account,
    `Saving:owner:balance:interestRate:id:depositCount:withdrawalCount:`
    `Checking:owner:balance:overdraftLimit:id:depositCount:withdrawalCount:`
  with existence checks, the last-match-wins load, append-only creation and
  the copy-rewrite update that replaces the lines of one (owner, kind).
 */
module Accounts {
  import opened Wrappers
  import opened Codec
  import opened Entities

  /** The type tag that opens an account line. */
  function Tag(kind: Kind): (t: string)
    ensures Clean([t])
  {
    match kind
    case Saving => "Saving"
    case Checking => "Checking"
  }

  /**
    The stream conversions the store relies on and the model does not look
    inside: `floatText` is `operator<<` on a float, `floatValue` and
    `intValue` are `operator>>` from a stringstream into a float or an int.
   */
  datatype Numerals = Numerals(floatText: real -> string, floatValue: string -> real, intValue: string -> int)

  /** The test every account scan applies: the owner field and the tag field both match. */
  predicate Owns(line: string, username: string, kind: Kind)
  {
    username == Field(line, 1) && Field(line, 0) == Tag(kind)
  }

  /**
    The line written for an in-memory account of `username`. Whatever the
    owner and the numbers hold, it is read back under the kind's tag.
   */
  function AccountLine(kind: Kind, username: string, e: AccountState, n: Numerals): (line: string)
    ensures |line| > 0 && line[|line| - 1] == Delim
    ensures Field(line, 0) == Tag(kind)
  {
    FirstFieldOfJoin([Tag(kind), username, n.floatText(e.balance), n.floatText(e.rateOrLimit),
                      IntText(e.id), IntText(e.depositCount), IntText(e.withdrawalCount)]);
    Join([Tag(kind), username, n.floatText(e.balance), n.floatText(e.rateOrLimit),
          IntText(e.id), IntText(e.depositCount), IntText(e.withdrawalCount)])
  }

  /**
    The account `loadAccounts` builds from a matching line: it belongs to
    the logged-in user, whatever owner field the line holds, and reads its
    numbers from fields 2 to 6 only.
   */
  function Decode(line: string, user: Customer, n: Numerals): (r: AccountState)
    ensures r.customer == user
  {
    AccountState(user, n.floatValue(Field(line, 2)), n.floatValue(Field(line, 3)),
                 n.intValue(Field(line, 4)), n.intValue(Field(line, 5)), n.intValue(Field(line, 6)))
  }

  /** The numbers of `e` are written without a separator and read back as themselves. */
  predicate Faithful(e: AccountState, n: Numerals)
  {
    Delim !in n.floatText(e.balance) && Delim !in n.floatText(e.rateOrLimit)
    && n.floatValue(n.floatText(e.balance)) == e.balance
    && n.floatValue(n.floatText(e.rateOrLimit)) == e.rateOrLimit
    && n.intValue(IntText(e.id)) == e.id
    && n.intValue(IntText(e.depositCount)) == e.depositCount
    && n.intValue(IntText(e.withdrawalCount)) == e.withdrawalCount
  }

  /** A written account line is found again under its owner and kind and decodes to the account. */
  lemma AccountLineRoundTrip(kind: Kind, user: Customer, e: AccountState, n: Numerals)
    requires Delim !in user.username && Faithful(e, n)
    ensures Owns(AccountLine(kind, user.username, e, n), user.username, kind)
    ensures forall k: Kind :: k != kind ==> !Owns(AccountLine(kind, user.username, e, n), user.username, k)
    ensures Decode(AccountLine(kind, user.username, e, n), user, n) == e.(customer := user)
  {
    SplitJoin([Tag(kind), user.username, n.floatText(e.balance), n.floatText(e.rateOrLimit),
               IntText(e.id), IntText(e.depositCount), IntText(e.withdrawalCount)]);
  }

  // ---------------------------------------------------------------------
  // Existence checks

  /**
    `savingExistance` / `checkingExistance`: scans the whole file and
    reports whether some line has the user as owner and the kind's tag.
   */
  method AccountExists(accounts: seq<string>, user: Customer, kind: Kind) returns (exists_: bool)
    ensures exists_ <==> exists i :: 0 <= i < |accounts| && Owns(accounts[i], user.username, kind)
  {
    exists_ := false;
    var i := 0;
    while i < |accounts|
      invariant 0 <= i <= |accounts|
      invariant exists_ <==> exists j :: 0 <= j < i && Owns(accounts[j], user.username, kind)
    {
      var accountType, usernameAccount := Field(accounts[i], 0), Field(accounts[i], 1);
      if user.username == usernameAccount && accountType == Tag(kind) {
        exists_ := true;
      }
      i := i + 1;
    }
  }

  // ---------------------------------------------------------------------
  // Loading: the last matching line of each kind wins

  /** Index of the last line owned by `username` with the kind's tag, if any. */
  function LastMatch(lines: seq<string>, username: string, kind: Kind): (r: Option<nat>)
    ensures r.Some? ==> r.value < |lines| && Owns(lines[r.value], username, kind)
    ensures r.Some? ==> forall j :: r.value < j < |lines| ==> !Owns(lines[j], username, kind)
    ensures r.None? <==> forall j :: 0 <= j < |lines| ==> !Owns(lines[j], username, kind)
  {
    if lines == [] then None
    else if Owns(lines[|lines| - 1], username, kind) then Some(|lines| - 1)
    else LastMatch(lines[..|lines| - 1], username, kind)
  }

  /** What one line of the scan does to the account of `kind`. */
  function LoadStep(acc: AccountState, line: string, user: Customer, kind: Kind, n: Numerals): AccountState
  {
    if Owns(line, user.username, kind) then Decode(line, user, n) else acc
  }

  /**
    The account of `kind` after scanning `lines` in order from `init`: the
    initial account, or one decoded from a line of the user with the
    kind's tag, and the initial one whenever there is no such line.
   */
  function Loaded(lines: seq<string>, user: Customer, kind: Kind, init: AccountState, n: Numerals): (r: AccountState)
    ensures r == init || exists i :: 0 <= i < |lines| && Owns(lines[i], user.username, kind) && r == Decode(lines[i], user, n)
    ensures (forall i :: 0 <= i < |lines| ==> !Owns(lines[i], user.username, kind)) ==> r == init
  {
    if lines == [] then init
    else LoadStep(Loaded(lines[..|lines| - 1], user, kind, init, n), lines[|lines| - 1], user, kind, n)
  }

  /**
    Last match wins: the loaded account is decoded from the last line of
    the user with the kind's tag; with no such line it is left exactly as
    it was.
   */
  lemma {:induction false} LastLineWins(lines: seq<string>, user: Customer, kind: Kind, init: AccountState, n: Numerals)
    ensures Loaded(lines, user, kind, init, n)
         == match LastMatch(lines, user.username, kind)
            case None => init
            case Some(i) => Decode(lines[i], user, n)
  {
    if lines != [] {
      var prefix := lines[..|lines| - 1];
      LastLineWins(prefix, user, kind, init, n);
      if !Owns(lines[|lines| - 1], user.username, kind) {
        match LastMatch(prefix, user.username, kind)
        case None =>
        case Some(i) => assert lines[i] == prefix[i];
      }
    }
  }

  /**
    `loadAccounts`: one scan of the whole file; every line of the user
    tagged Saving overwrites the savings account, every line tagged
    Checking overwrites the checking account.
   */
  method LoadAccounts(user: Customer, checking: Account, saving: Account, accounts: seq<string>, n: Numerals)
    requires checking != saving && checking.kind == Checking && saving.kind == Saving
    modifies checking, saving
    ensures saving.State() == Loaded(accounts, user, Saving, old(saving.State()), n)
    ensures checking.State() == Loaded(accounts, user, Checking, old(checking.State()), n)
  {
    var i := 0;
    while i < |accounts|
      invariant 0 <= i <= |accounts|
      invariant saving.State() == Loaded(accounts[..i], user, Saving, old(saving.State()), n)
      invariant checking.State() == Loaded(accounts[..i], user, Checking, old(checking.State()), n)
    {
      var line := accounts[i];
      assert accounts[..i + 1][..i] == accounts[..i];
      var accountType, usernameAccount := Field(line, 0), Field(line, 1);
      if user.username == usernameAccount && accountType == "Saving" {
        saving.SetAccountCustomer(user);
        saving.SetBalance(n.floatValue(Field(line, 2)));
        saving.SetInterestRate(n.floatValue(Field(line, 3)));
        saving.SetId(n.intValue(Field(line, 4)));
        saving.SetDepositCount(n.intValue(Field(line, 5)));
        saving.SetWithdrawalCount(n.intValue(Field(line, 6)));
      } else if user.username == usernameAccount && accountType == "Checking" {
        checking.SetAccountCustomer(user);
        checking.SetBalance(n.floatValue(Field(line, 2)));
        checking.SetOverdraftLimit(n.floatValue(Field(line, 3)));
        checking.SetId(n.intValue(Field(line, 4)));
        checking.SetDepositCount(n.intValue(Field(line, 5)));
        checking.SetWithdrawalCount(n.intValue(Field(line, 6)));
      }
      i := i + 1;
    }
    assert accounts[..|accounts|] == accounts;
  }

  // ---------------------------------------------------------------------
  // Creation

  /** The line `createSaving` / `createChecking` appends: "0" balance, "0.05" or "25", the id, "0" counts. */
  function NewAccountLine(kind: Kind, username: string, id: int): (line: string)
    ensures |line| > 0 && line[|line| - 1] == Delim
    ensures Field(line, 0) == Tag(kind)
  {
    FirstFieldOfJoin([Tag(kind), username, "0", if kind == Saving then "0.05" else "25", IntText(id), "0", "0"]);
    Join([Tag(kind), username, "0", if kind == Saving then "0.05" else "25", IntText(id), "0", "0"])
  }

  /** The in-memory account right after creation. */
  function Opened(kind: Kind, user: Customer, id: int): AccountState
  {
    AccountState(user, 0.0, if kind == Saving then 0.05 else 25.0, id, 0, 0)
  }

  /**
    `createSaving` / `createChecking`: sets the account to its defaults
    with the drawn id and appends its line. `id` is the value of the
    uniform draw from [100000, 999999].
   */
  method CreateAccount(accounts: seq<string>, user: Customer, acct: Account, id: int) returns (accounts': seq<string>)
    requires 100000 <= id <= 999999
    modifies acct
    ensures acct.State() == Opened(acct.kind, user, id)
    ensures acct.id != 0
    ensures accounts' == accounts + [NewAccountLine(acct.kind, user.username, id)]
  {
    acct.SetAccountCustomer(user);
    acct.SetBalance(0.0);
    if acct.kind == Saving {
      acct.SetInterestRate(0.05);
    } else {
      acct.SetOverdraftLimit(25.0);
    }
    acct.SetId(id);
    acct.SetDepositCount(0);
    acct.SetWithdrawalCount(0);
    accounts' := accounts + [NewAccountLine(acct.kind, user.username, id)];
  }

  /**
    A created account is the last line of its owner and kind, so it is
    found by the existence checks and is the one the next load picks; its
    id is written with six digits and is never the sentinel 0.
   */
  lemma CreatedAccountIsFound(accounts: seq<string>, user: Customer, kind: Kind, id: int)
    requires Delim !in user.username
    requires 100000 <= id <= 999999
    ensures LastMatch(accounts + [NewAccountLine(kind, user.username, id)], user.username, kind) == Some(|accounts|)
    ensures Split(NewAccountLine(kind, user.username, id))
         == [Tag(kind), user.username, "0", if kind == Saving then "0.05" else "25", IntText(id), "0", "0"]
    ensures |IntText(id)| == 6 && id != 0
  {
    var line := NewAccountLine(kind, user.username, id);
    NewAccountLineFields(kind, user.username, id);
    var lines := accounts + [line];
    assert lines[|lines| - 1] == line;
    SixDigits(id);
  }

  /** The appended line splits into the fields written, so it is owned by the user under the kind. */
  lemma NewAccountLineFields(kind: Kind, username: string, id: int)
    requires Delim !in username
    ensures Split(NewAccountLine(kind, username, id))
         == [Tag(kind), username, "0", if kind == Saving then "0.05" else "25", IntText(id), "0", "0"]
    ensures Owns(NewAccountLine(kind, username, id), username, kind)
  {
    var fields := [Tag(kind), username, "0", if kind == Saving then "0.05" else "25", IntText(id), "0", "0"];
    assert Clean(fields);
    SplitJoin(fields);
    FieldOfJoin(fields, 0);
    FieldOfJoin(fields, 1);
  }

  lemma SixDigits(id: int)
    requires 100000 <= id <= 999999
    ensures |IntText(id)| == 6
  {
    assert Pow10(5) == 100000 && Pow10(6) == 1000000;
    NatTextLength(id, 5);
  }

  // ---------------------------------------------------------------------
  // The copy-rewrite update

  /** A line the rewrite keeps: its tag is Saving or Checking. */
  predicate IsAccountLine(line: string)
  {
    Field(line, 0) == "Saving" || Field(line, 0) == "Checking"
  }

  /**
    What the rewrite writes for one input line: the in-memory account for
    the target (owner, kind); the line's first seven fields again for any
    other Saving or Checking line; nothing for a line with another tag.
   */
  /**
    What the rewrite writes for one line of the old file: the in-memory
    account for a line of the user under the kind's tag, one line for any
    other Saving or Checking line, and nothing for a line of another tag.
   */
  function RewriteLine(line: string, kind: Kind, username: string, e: AccountState, n: Numerals): (r: seq<string>)
    ensures |r| == 1 <==> IsAccountLine(line)
    ensures |r| <= 1
    ensures Owns(line, username, kind) ==> r == [AccountLine(kind, username, e, n)]
    ensures forall i :: 0 <= i < |r| ==> IsAccountLine(r[i])
  {
    var accountType, usernameAccount := Field(line, 0), Field(line, 1);
    if username == usernameAccount && Tag(kind) == accountType then
      [AccountLine(kind, username, e, n)]
    else if accountType == "Saving" then
      var fields := ["Saving", usernameAccount, Field(line, 2), Field(line, 3), Field(line, 4), Field(line, 5), Field(line, 6)];
      FirstFieldOfJoin(fields);
      [Join(fields)]
    else if accountType == "Checking" then
      var fields := ["Checking", usernameAccount, Field(line, 2), Field(line, 3), Field(line, 4), Field(line, 5), Field(line, 6)];
      FirstFieldOfJoin(fields);
      [Join(fields)]
    else
      []
  }

  /**
    The new account file the rewrite produces from `lines`: it holds only
    Saving and Checking lines, and it is as long as the old file exactly
    when the old file held no line of another tag.
   */
  function Rewrite(lines: seq<string>, kind: Kind, username: string, e: AccountState, n: Numerals): (r: seq<string>)
    ensures |r| <= |lines|
    ensures |r| == |lines| <==> forall i :: 0 <= i < |lines| ==> IsAccountLine(lines[i])
    ensures forall i :: 0 <= i < |r| ==> IsAccountLine(r[i])
  {
    if lines == [] then []
    else
      var prefix := lines[..|lines| - 1];
      assert forall i :: 0 <= i < |prefix| ==> prefix[i] == lines[i];
      Rewrite(prefix, kind, username, e, n) + RewriteLine(lines[|lines| - 1], kind, username, e, n)
  }

  /** The input lines the rewrite keeps, in file order. */
  function Kept(lines: seq<string>): seq<string>
  {
    if lines == [] then []
    else Kept(lines[..|lines| - 1]) + (if IsAccountLine(lines[|lines| - 1]) then [lines[|lines| - 1]] else [])
  }

  /** The output line for a kept input line. */
  function Emit(line: string, kind: Kind, username: string, e: AccountState, n: Numerals): string
  {
    if Owns(line, username, kind) then AccountLine(kind, username, e, n) else Join(FirstSeven(line))
  }

  lemma RewriteLineShape(line: string, kind: Kind, username: string, e: AccountState, n: Numerals)
    ensures RewriteLine(line, kind, username, e, n) == if IsAccountLine(line) then [Emit(line, kind, username, e, n)] else []
  {
  }

  /**
    The rewrite emits exactly one line per kept input line, in the same
    order, and nothing for the lines it drops.
   */
  lemma {:induction false} RewriteShape(lines: seq<string>, kind: Kind, username: string, e: AccountState, n: Numerals)
    ensures |Rewrite(lines, kind, username, e, n)| == |Kept(lines)|
    ensures forall k :: 0 <= k < |Kept(lines)| ==>
              Rewrite(lines, kind, username, e, n)[k] == Emit(Kept(lines)[k], kind, username, e, n)
  {
    if lines != [] {
      RewriteShape(lines[..|lines| - 1], kind, username, e, n);
      RewriteLineShape(lines[|lines| - 1], kind, username, e, n);
    }
  }

  /**
    Every line of the rewritten file comes from a kept input line: the
    target's lines become the in-memory account, and every other kept line
    reads back with its first seven fields unchanged.
   */
  lemma RewriteContents(lines: seq<string>, kind: Kind, username: string, e: AccountState, n: Numerals, k: nat)
    requires k < |Kept(lines)|
    ensures IsAccountLine(Kept(lines)[k])
    ensures k < |Rewrite(lines, kind, username, e, n)|
    ensures Owns(Kept(lines)[k], username, kind) ==>
              Rewrite(lines, kind, username, e, n)[k] == AccountLine(kind, username, e, n)
    ensures !Owns(Kept(lines)[k], username, kind) ==>
              Split(Rewrite(lines, kind, username, e, n)[k]) == FirstSeven(Kept(lines)[k])
  {
    RewriteShape(lines, kind, username, e, n);
    KeptAreAccountLines(lines);
    SplitJoin(FirstSeven(Kept(lines)[k]));
  }

  /** `Kept` is the subsequence of account lines. */
  lemma {:induction false} KeptAreAccountLines(lines: seq<string>)
    ensures forall k :: 0 <= k < |Kept(lines)| ==> IsAccountLine(Kept(lines)[k]) && Kept(lines)[k] in lines
    ensures forall i :: 0 <= i < |lines| && IsAccountLine(lines[i]) ==> lines[i] in Kept(lines)
  {
    if lines != [] {
      var prefix := lines[..|lines| - 1];
      KeptAreAccountLines(prefix);
      assert forall i :: 0 <= i < |prefix| ==> lines[i] == prefix[i];
      assert lines == prefix + [lines[|lines| - 1]];
    }
  }

  /**
    `Kept` drops nothing else and duplicates nothing: each account line
    occurs in it as often as in the input, and any other line not at all.
   */
  lemma {:induction false} KeptCounts(lines: seq<string>, line: string)
    ensures multiset(Kept(lines))[line] == if IsAccountLine(line) then multiset(lines)[line] else 0
  {
    if lines != [] {
      var prefix := lines[..|lines| - 1];
      KeptCounts(prefix, line);
      assert lines == prefix + [lines[|lines| - 1]];
    }
  }

  /** A line that is not the target reads the same once passed through the rewrite. */
  lemma PassThroughKeepsFields(line: string, k: nat)
    ensures Field(Join(FirstSeven(line)), k) == if k < 7 then Field(line, k) else ""
  {
    FieldOfJoin(FirstSeven(line), k);
  }

  /** The rewrite of a file prefix grows by the output for the next line. */
  lemma RewriteStep(lines: seq<string>, i: nat, kind: Kind, username: string, e: AccountState, n: Numerals)
    requires i < |lines|
    ensures Rewrite(lines[..i + 1], kind, username, e, n)
         == Rewrite(lines[..i], kind, username, e, n) + RewriteLine(lines[i], kind, username, e, n)
  {
    assert lines[..i + 1][..i] == lines[..i];
  }

  /**
    `updateSavingAccount` / `updateCheckingAccount`, the scan: writes the
    new file line by line from the old one.
   */
  method RewriteAccounts(accounts: seq<string>, kind: Kind, username: string, e: AccountState, n: Numerals)
    returns (newAccounts: seq<string>)
    ensures newAccounts == Rewrite(accounts, kind, username, e, n)
  {
    newAccounts := [];
    var i := 0;
    while i < |accounts|
      invariant 0 <= i <= |accounts|
      invariant newAccounts == Rewrite(accounts[..i], kind, username, e, n)
    {
      var line := accounts[i];
      RewriteStep(accounts, i, kind, username, e, n);
      var accountType, usernameAccount := Field(line, 0), Field(line, 1);
      if username == usernameAccount && Tag(kind) == accountType {
        assert RewriteLine(line, kind, username, e, n) == [AccountLine(kind, username, e, n)];
        newAccounts := newAccounts + [AccountLine(kind, username, e, n)];
      } else {
        if accountType == "Saving" {
          var balance, interestRate, id, depositCount, withdrawalCount :=
            Field(line, 2), Field(line, 3), Field(line, 4), Field(line, 5), Field(line, 6);
          var fields := ["Saving", usernameAccount, balance, interestRate, id, depositCount, withdrawalCount];
          assert RewriteLine(line, kind, username, e, n) == [Join(fields)];
          newAccounts := newAccounts + [Join(fields)];
        } else if accountType == "Checking" {
          var balance, overdraftLimit, id, depositCount, withdrawalCount :=
            Field(line, 2), Field(line, 3), Field(line, 4), Field(line, 5), Field(line, 6);
          var fields := ["Checking", usernameAccount, balance, overdraftLimit, id, depositCount, withdrawalCount];
          assert RewriteLine(line, kind, username, e, n) == [Join(fields)];
          newAccounts := newAccounts + [Join(fields)];
        }
      }
      i := i + 1;
    }
    assert accounts[..|accounts|] == accounts;
  }

  /**
    The whole update: the rewrite, then the old file is removed and the
    new one renamed into its place. `renameSucceeds` is the outcome of the
    rename; when it fails the error is reported and, the original being
    already removed, no account file is left (read as no lines).
   */
  method UpdateAccount(username: string, kind: Kind, e: AccountState, accounts: seq<string>, n: Numerals,
                       renameSucceeds: bool)
    returns (accounts': seq<string>, fileError: bool)
    ensures fileError == !renameSucceeds
    ensures accounts' == if renameSucceeds then Rewrite(accounts, kind, username, e, n) else []
  {
    var newAccounts := RewriteAccounts(accounts, kind, username, e, n);
    if renameSucceeds {
      accounts', fileError := newAccounts, false;
    } else {
      accounts', fileError := [], true;
    }
  }

  /**
    Persist, then load: after the rewrite, loading the user's account of
    the updated kind yields the in-memory account (when the file held one),
    and loading the other kind yields what it yielded before.
   */
  lemma {:induction false} RewriteThenLoad(lines: seq<string>, kind: Kind, user: Customer, e: AccountState,
                                           n: Numerals, k: Kind, init: AccountState)
    requires Delim !in user.username && Faithful(e, n)
    ensures Loaded(Rewrite(lines, kind, user.username, e, n), user, k, init, n)
         == if k != kind then Loaded(lines, user, k, init, n)
            else if LastMatch(lines, user.username, kind).Some? then e.(customer := user)
            else init
  {
    if lines != [] {
      var prefix, last := lines[..|lines| - 1], lines[|lines| - 1];
      var out := Rewrite(prefix, kind, user.username, e, n);
      RewriteThenLoad(prefix, kind, user, e, n, k, init);
      RewriteLineShape(last, kind, user.username, e, n);
      if IsAccountLine(last) {
        var emitted := Emit(last, kind, user.username, e, n);
        assert Rewrite(lines, kind, user.username, e, n) == out + [emitted];
        assert (out + [emitted])[..|out|] == out;
        LoadEmitted(Loaded(out, user, k, init, n), last, kind, user, e, n, k);
      } else {
        assert Rewrite(lines, kind, user.username, e, n) == out;
      }
    }
  }

  /**
    One line of the rewrite, then loaded: the target's line loads as the
    in-memory account; any other kept line loads as the original did.
   */
  lemma LoadEmitted(acc: AccountState, line: string, kind: Kind, user: Customer, e: AccountState,
                    n: Numerals, k: Kind)
    requires Delim !in user.username && Faithful(e, n)
    ensures LoadStep(acc, Emit(line, kind, user.username, e, n), user, k, n)
         == if k == kind && Owns(line, user.username, kind) then e.(customer := user)
            else LoadStep(acc, line, user, k, n)
  {
    var emitted := Emit(line, kind, user.username, e, n);
    if Owns(line, user.username, kind) {
      AccountLineRoundTrip(kind, user, e, n);
    } else {
      forall j: nat | j < 7 ensures Field(emitted, j) == Field(line, j) {
        PassThroughKeepsFields(line, j);
      }
    }
  }

  /** An emitted line is kept, and rewritten to itself. */
  lemma EmitIsFixed(line: string, kind: Kind, username: string, e: AccountState, n: Numerals)
    requires IsAccountLine(line)
    requires Delim !in username && Delim !in n.floatText(e.balance) && Delim !in n.floatText(e.rateOrLimit)
    ensures RewriteLine(Emit(line, kind, username, e, n), kind, username, e, n) == [Emit(line, kind, username, e, n)]
  {
    var emitted := Emit(line, kind, username, e, n);
    if Owns(line, username, kind) {
      SplitJoin([Tag(kind), username, n.floatText(e.balance), n.floatText(e.rateOrLimit),
                 IntText(e.id), IntText(e.depositCount), IntText(e.withdrawalCount)]);
      assert Owns(emitted, username, kind);
    } else {
      SplitJoin(FirstSeven(line));
      assert FirstSeven(emitted) == FirstSeven(line);
      assert !Owns(emitted, username, kind);
    }
  }

  /** Rewriting twice with the same account gives the same file as rewriting once. */
  lemma {:induction false} RewriteIdempotent(lines: seq<string>, kind: Kind, username: string, e: AccountState, n: Numerals)
    requires Delim !in username && Delim !in n.floatText(e.balance) && Delim !in n.floatText(e.rateOrLimit)
    ensures Rewrite(Rewrite(lines, kind, username, e, n), kind, username, e, n) == Rewrite(lines, kind, username, e, n)
  {
    if lines != [] {
      var prefix, last := lines[..|lines| - 1], lines[|lines| - 1];
      var out := Rewrite(prefix, kind, username, e, n);
      RewriteIdempotent(prefix, kind, username, e, n);
      RewriteLineShape(last, kind, username, e, n);
      if IsAccountLine(last) {
        var emitted := Emit(last, kind, username, e, n);
        assert Rewrite(lines, kind, username, e, n) == out + [emitted];
        assert (out + [emitted])[..|out|] == out;
        EmitIsFixed(last, kind, username, e, n);
      } else {
        assert Rewrite(lines, kind, username, e, n) == out;
      }
    }
  }
}
