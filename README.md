# Client banking record store, in Dafny

This project models the record store of a single-user console banking
application. Customers and their accounts are kept in two flat text files
of colon-delimited records:

    userData.txt         username:firstName:lastName:address:phoneNum:email:password:
    userAccountData.txt  Saving:owner:balance:interestRate:id:depositCount:withdrawalCount:
                         Checking:owner:balance:overdraftLimit:id:depositCount:withdrawalCount:

Each file is modelled as the sequence of its lines (`seq<string>`); nothing
is read from or written to disk. The model covers:

- the record codec (`Codec`): `Split` yields exactly the fields that repeated
  `getline(ss, field, ':')` calls extract, `Field` reads a missing field as
  `""`, `Join` writes every field followed by `:`. `IntText` is how an `int`
  is written, and the digits it writes stand for that `int`.
- the entities (`Entities`): a customer profile as a value, and one `Account`
  class for the source's `account`/`savingAccount`/`checkingAccount`
  hierarchy, with the interest rate or the overdraft limit in `rateOrLimit`.
  Its constructors, setters, `Deposit`, `Withdrawal` and `PayInterest` are
  methods that update the object in place.
- the customer file (`Customers`): `loadUser`, `userExistance` and the
  append done by `signUp`.
- the password rule of `inputPasswd` (`Passwords`).
- the account file (`Accounts`): the existence checks, `loadAccounts` (the last
  matching line of each kind wins), `createSaving`/`createChecking`, and the
  copy-rewrite of `updateSavingAccount`/`updateCheckingAccount`. The two
  source functions of each pair differ only in the type tag and in the
  rate-or-limit field: its default (`.05` or `25`), and the setter or
  getter that reaches it. So each pair is one member with a `Kind`
  parameter.
- the store-facing steps of a session (`Session`): the deposit and withdrawal
  acceptance rules, including the checking overdraft path with its $5 fee,
  interest paid at login, account opening after the existence check, and the
  reset done by `logout`.

Conversions the model does not look inside are parameters:
`Accounts.Numerals` holds `operator<<` on a float (`floatText`) and
`operator>>` from a stringstream into a float or an int (`floatValue`,
`intValue`). Lemmas that read back what was written assume, in
`Accounts.Faithful`, that these conversions round-trip on the values
involved. With the default six-significant-digit `operator<<`, the
program itself often does not round-trip a float. For example,
100 × (1 + 0.05f) is held as the float 104.999992 but written as "105". So
`Accounts.AccountLineRoundTrip` and `Accounts.RewriteThenLoad` hold only
where the program itself preserves the value. The random account id is a parameter in [100000, 999999]. The
outcome of `rename` is a boolean parameter.

Behaviour of the code worth noting:

- `userExistance` does not exclude an empty username. An empty input matches
  any line whose first field is empty, such as a blank line. `signUp` never
  passes an empty username.
- The rewrite does not pass every other line through unchanged. A line whose
  tag is neither `Saving` nor `Checking` is dropped. A kept line is written
  again from its first seven fields only.
- When `rename` fails, the original file has already been removed, so the
  model's account file is then empty.

## Model

| member | source | states |
|---|---|---|
| `Codec.Split` | Source.cpp:868-874 | The fields read from a line never contain `:`. There are none exactly when the line is empty. |
| `Codec.Field` | Source.cpp:915-928 | Field k is the k-th field read, or `""` when the line has fewer fields. It never contains `:`. |
| `Codec.Join` | Source.cpp:273-279 | A written record ends with the trailing `:`. |
| `Codec.SplitJoin` | Source.cpp:868-874 | Splitting a written record gives back exactly the fields written, when no field holds `:`. |
| `Codec.FieldOfJoin` | Source.cpp:1293-1307 | Field k of a written record is the k-th field written, or `""` past the end. |
| `Codec.FirstFieldOfJoin` | Source.cpp:867-868 | The first field read from a written record is the first field written, when it holds no `:`, whatever the later fields hold. |
| `Codec.FirstSeven` | Source.cpp:1379-1393 | The seven fields a kept line is re-written from are its own first seven fields, none holding `:`. |
| `Codec.IntText` | Source.cpp:1283-1287 | An int is written with no `:`. It starts with `-` exactly when it is negative, and is all digits exactly when it is non-negative. |
| `Codec.NatTextLength` | Source.cpp:1196-1198 | A number between 10^d and 10^(d+1) - 1 is written with d + 1 digits. |
| `Codec.NatText` | Source.cpp:1283-1287 | A non-negative int is written as at least one decimal digit, with no leading zero from 10 upwards. |
| `Codec.NatTextValue` | Source.cpp:1283-1287 | The digits written for a non-negative int stand for that int. |
| `Codec.IntTextValue` | Source.cpp:1283-1287 | The text written for any int, sign included, stands for that int. |
| `Entities.Account.DefaultSaving` | userClasses.cpp:202-205 | A default savings account has an empty customer, balance 0, id 0, both counts 0 and interest rate 0. |
| `Entities.Account.DefaultChecking` | userClasses.cpp:240-243 | A default checking account has the same defaults, with overdraft limit 0. |
| `Entities.Account.OfSaving` | userClasses.cpp:207-210 | The full savings constructor stores every argument in its field. |
| `Entities.Account.OfChecking` | userClasses.cpp:245-248 | The full checking constructor stores every argument in its field. |
| `Entities.Account.SetAccountCustomer` | userClasses.cpp:122-125 | Only the customer changes. |
| `Entities.Account.SetBalance` | userClasses.cpp:127-130 | Only the balance changes. |
| `Entities.Account.SetId` | userClasses.cpp:132-135 | Only the id changes. |
| `Entities.Account.SetDepositCount` | userClasses.cpp:137-140 | Only the deposit count changes. |
| `Entities.Account.SetWithdrawalCount` | userClasses.cpp:142-145 | Only the withdrawal count changes. |
| `Entities.Account.SetInterestRate` | userClasses.cpp:213-216 | Only the interest rate of a savings account changes. |
| `Entities.Account.SetOverdraftLimit` | userClasses.cpp:251-254 | Only the overdraft limit of a checking account changes. |
| `Entities.Account.Deposit` | userClasses.cpp:186-190 | The balance grows by the amount and the deposit count by one. Nothing else changes. A negative amount is not rejected. |
| `Entities.Account.Withdrawal` | userClasses.cpp:193-197 | The balance drops by the amount and the withdrawal count grows by one, with no funds check. Nothing else changes. |
| `Entities.Account.PayInterest` | userClasses.cpp:231-235 | The balance is multiplied by 1 + rate. The id, counts and rate are unchanged. |
| `Entities.AccountState.Deposited` | userClasses.cpp:186-190 | A deposit adds the amount to the balance and counts one deposit. Every other field is unchanged. |
| `Entities.AccountState.Withdrawn` | userClasses.cpp:193-197 | A withdrawal takes the amount from the balance and counts one withdrawal. Every other field is unchanged. |
| `Entities.AccountState.WithInterest` | userClasses.cpp:231-235 | Interest changes only the balance. A non-negative rate never lowers a non-negative balance, and a zero rate changes nothing. |
| `Entities.InterestExample` | userClasses.cpp:231-235 | A balance of 100 at rate 0.05 becomes 105, and the other fields are unchanged. |
| `Entities.ReplayCounts` | userClasses.cpp:186-197 | Any sequence of deposits and withdrawals raises each count by the number of calls of its kind. The balance moves by the net amount. The customer, id and rate are untouched. |
| `Entities.CountsFromZero` | userClasses.cpp:186-197 | From zero counts, N deposits and M withdrawals in any order leave the counts at N and M. |
| `Customers.CustomerRoundTrip` | Source.cpp:273-279 | A customer line written at sign-up reads back as the same seven fields and the same profile. |
| `Customers.CustomerLine` | Source.cpp:273-279 | The sign-up line ends with `:`, and its first field reads back as the username when the username holds no `:`. |
| `Customers.CustomerOf` | Source.cpp:876-883 | The loaded profile's username is the line's first field, and no field of the profile holds `:`. |
| `Customers.Credentials` | Source.cpp:876 | A line passes the login test only for inputs that hold no `:`. |
| `Customers.FirstLogin` | Source.cpp:863-889 | Finds the first line whose username and password equal the inputs. There is none when an input is empty or no line matches. |
| `Customers.LoadUser` | Source.cpp:848-893 | Succeeds exactly when some line matches both non-empty inputs. The profile is filled from the first such line, and left as it was on failure. |
| `Customers.UserExists` | Source.cpp:1084-1114 | True exactly when some line's first field equals the input. |
| `Customers.SignUp` | Source.cpp:267-283 | Appends the customer line exactly when no line holds the username. Otherwise the file is unchanged. |
| `Customers.SignUpThenLogin` | Source.cpp:267-283 | A freshly registered customer logs in with the registered username and password, matching the appended line and recovering the registered profile. |
| `Passwords.CheckPassword` | Source.cpp:1016-1080 | Valid exactly when both entries agree, there are at least 8 characters, and there is a lowercase letter, an uppercase letter, a digit and another character. |
| `Accounts.Tag` | Source.cpp:1208-1214 | The type tags contain no `:`. |
| `Accounts.AccountLineRoundTrip` | Source.cpp:1365-1373 | The line written for an account is found again under its owner and kind only, and decodes to the account. |
| `Accounts.AccountLine` | Source.cpp:1365-1373 | The line written for an account ends with `:` and is read back under the kind's tag, whatever the owner and the numbers hold. |
| `Accounts.Decode` | Source.cpp:920-947 | An account read from a matching line belongs to the logged-in user. `Accounts.AccountLineRoundTrip` proves that it reads back the numbers `Accounts.AccountLine` wrote. |
| `Accounts.Loaded` | Source.cpp:907-982 | The scan ends with the initial account or one decoded from a line of the user with the kind's tag. It ends with the initial account when there is no such line. |
| `Accounts.AccountExists` | Source.cpp:1116-1182 | True exactly when some line has the user as owner and the kind's tag. |
| `Accounts.LastMatch` | Source.cpp:909-982 | Finds the last line of the user with the kind's tag. There is none when no line matches. |
| `Accounts.LastLineWins` | Source.cpp:909-982 | The loaded account is decoded from the last matching line, or left exactly as it was when no line matches. |
| `Accounts.LoadAccounts` | Source.cpp:895-984 | One scan fills the savings and the checking account, each by the last-match rule for its own tag. |
| `Accounts.CreateAccount` | Source.cpp:1184-1250 | The account gets balance 0, counts 0, rate 0.05 or limit 25, and the drawn id, which is not 0. Exactly one line is appended. |
| `Accounts.CreatedAccountIsFound` | Source.cpp:1207-1214 | The appended line has fields `tag, owner, 0, 0.05 or 25, id, 0, 0`. It is the last match for its owner and kind, so it is found and loaded. |
| `Accounts.NewAccountLine` | Source.cpp:1208-1214 | The appended line ends with `:` and is read back under the kind's tag. |
| `Accounts.NewAccountLineFields` | Source.cpp:1207-1214 | The appended line reads back as the fields written, so it is owned by the user under the kind. |
| `Accounts.SixDigits` | Source.cpp:1196-1198 | Every id drawn from [100000, 999999] is written with exactly six digits. |
| `Accounts.RewriteLineShape` | Source.cpp:1357-1414 | A Saving or Checking line gives exactly one output line. Any other line gives none. |
| `Accounts.RewriteLine` | Source.cpp:1363-1412 | One old line gives at most one new line, and one exactly when it is a Saving or Checking line. A line of the user under the kind's tag becomes the in-memory account. Every line written is a Saving or Checking line. |
| `Accounts.Rewrite` | Source.cpp:1357-1414 | The new file is never longer than the old one. It is as long exactly when every old line is a Saving or Checking line, and it holds only such lines. |
| `Accounts.RewriteShape` | Source.cpp:1357-1414 | The output has one line per kept input line, in the same order. |
| `Accounts.KeptAreAccountLines` | Source.cpp:1375-1413 | The kept lines are exactly the input's Saving and Checking lines. |
| `Accounts.KeptCounts` | Source.cpp:1375-1413 | Each Saving or Checking line is kept as many times as it occurs in the old file, and any other line not at all. |
| `Accounts.RewriteContents` | Source.cpp:1357-1414 | Each output line for a target line is the in-memory account. Every other kept line reads back with its first seven fields unchanged. |
| `Accounts.PassThroughKeepsFields` | Source.cpp:1377-1412 | A re-written line has the same fields 0 to 6 as the original, and none after. |
| `Accounts.RewriteAccounts` | Source.cpp:1339-1414 | The loop builds exactly the rewritten file. |
| `Accounts.UpdateAccount` | Source.cpp:1252-1337 | After a successful rename the file is the rewritten file. After a failed rename an error is reported and no account file is left. |
| `Accounts.RewriteThenLoad` | Source.cpp:1357-1414 | After an update, loading the same kind yields the in-memory account if the file held one. Loading the other kind yields what it yielded before. |
| `Accounts.LoadEmitted` | Source.cpp:1365-1412 | Loading a rewritten line gives the in-memory account for the target's line. Any other kept line loads exactly as the original did. |
| `Accounts.EmitIsFixed` | Source.cpp:1365-1412 | A line the rewrite produced is kept and rewritten to itself. |
| `Accounts.RewriteIdempotent` | Source.cpp:1357-1414 | Rewriting twice with the same account gives the same file as rewriting once. |
| `Session.CheckingWithdrawalRule` | Source.cpp:604-633 | There is no fee exactly when the amount is positive and the balance covers it. The $5 fee applies exactly when the amount is positive, not covered, and within the overdraft limit. Otherwise the withdrawal is refused as not positive or as insufficient. |
| `Session.CheckingWithdrawal` | Source.cpp:604-633 | A checking withdrawal is accepted only for a positive amount, with no fee or the $5 fee. The fee applies only when the balance goes negative but stays within the overdraft limit. |
| `Session.SavingWithdrawal` | Source.cpp:646-664 | A savings withdrawal is accepted only for a positive amount the balance covers, and never with a fee. |
| `Session.Charged` | Source.cpp:613-618 | A charged withdrawal takes the amount plus the fee and counts one withdrawal. Every other field is unchanged. |
| `Session.SavingWithdrawalRule` | Source.cpp:646-664 | Accepted exactly when the amount is positive and the balance covers it. Otherwise it is refused. |
| `Session.WithdrawalFloor` | Source.cpp:604-664 | An accepted withdrawal lowers the balance. Savings never go below 0. An overdrawn checking balance is never below -(limit + 5), and it goes negative exactly when the fee is charged. |
| `Session.OverdraftExample` | Source.cpp:613-618 | Balance 10 with limit 25: withdrawing 20 leaves -15 with one withdrawal counted, and withdrawing 40 is refused. |
| `Session.WithdrawAccount` | Source.cpp:596-667 | With no account loaded, nothing happens. Otherwise the rule decides. An accepted withdrawal takes the amount and any fee and is persisted by the rewrite. A refusal changes nothing. |
| `Session.DepositAccount` | Source.cpp:753-803 | A positive deposit into a loaded account is applied and persisted. Anything else changes nothing. |
| `Session.Login` | Source.cpp:194-203 | On a successful login both accounts are loaded. A loaded savings account (id not 0) earns interest and is persisted at once. A failed login changes nothing. |
| `Session.OpenAccount` | Source.cpp:362-409 | An account is created only when the file holds none of that kind for the user. |
| `Session.SecondOpenRefused` | Source.cpp:387-399 | After one account of a kind is created, the file holds one for the user, so a second request is refused. |
| `Session.Logout` | Source.cpp:812-844 | The customer is cleared. Both accounts return to defaults, so each id is the sentinel 0. |

## Left out

- Menus, prompts, screen clearing, pauses and `printInfo` output are console interaction, so they are not modelled. This includes `welcome`, `options`, the menu loops, `displayAccount` and the dispatch loop of `main`.
- Converting the numeric fields of an account line, and formatting floats as text, are stream library behaviour. They are parameters in `Accounts.Numerals`. Amounts the user types in arrive already converted, as the `real` parameters of `Session.WithdrawAccount` and `Session.DepositAccount`.
- Float arithmetic is modelled over `real`. Rounding of `float` is not modelled, and no exact IEEE result is claimed, for example for `payInterest`.
- `int` overflow of ids and counters is not modelled, because integers are unbounded here.
- The Mersenne Twister id draw is replaced by an `id` parameter restricted to [100000, 999999]. No uniqueness check on ids exists in the source either.
- File opening, closing, `std::remove` and `rename` are not modelled as operations. A file is its sequence of lines. A failed `remove`, the temporary file left behind by a failed `rename`, and crash windows are not modelled.
- A field holding a newline would split a record across lines in the real file. The model appends one line per record. In the source every field comes from `getline` on the console or on a file line, so none holds a newline.
- Customer setters and getters (userClasses.cpp:26-85) and the account getters are not separate members. `Customer` is a value, and a field update stands for a setter. Account fields are read directly.
- `islower`, `isupper` and `isdigit` are taken in the "C" locale. Any other character, including a non-ASCII one, counts as special.
- Passwords.CheckPassword: it returns the verdict instead of setting a by-reference flag. The flag starts false in `signUp` and is only ever set to true, so every attempt begins with it false.
- Passwords.CheckPassword: the length test counts characters, while `password.length()` counts the bytes of the `std::string`. With a multi-byte encoding they disagree. `Aa1!ééé` is 7 characters but 10 UTF-8 bytes, so the program accepts it and the model rejects it.
- A username holding `:` is accepted by `signUp`, which rejects only empty fields. Its line then reads back with a different first field, so later lookups never find that customer. This is a limit of the record format. The round-trip lemmas exclude such fields through `Codec.Clean` and `Delim !in`.
