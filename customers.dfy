/**
  The customer file: one line per registered customer,
  `username:firstName:lastName:address:phoneNum:email:password:`.
  Lookups scan the lines in file order; registration appends one line.
 */
module Customers {
  import opened Wrappers
  import opened Codec
  import opened Entities

  /**
    The line `signUp` appends for a new customer. The username is the
    first field read back, which is what the lookups compare.
   */
  function CustomerLine(c: Customer, password: string): (line: string)
    ensures |line| > 0 && line[|line| - 1] == Delim
    ensures Delim !in c.username ==> Field(line, 0) == c.username
  {
    FirstFieldOfJoin([c.username, c.firstName, c.lastName, c.address, c.phoneNum, c.email, password]);
    Join([c.username, c.firstName, c.lastName, c.address, c.phoneNum, c.email, password])
  }

  /**
    The profile `loadUser` fills from a matching line (the password is not
    kept): its username is the line's first field, and no field read holds
    a separator.
   */
  function CustomerOf(line: string): (c: Customer)
    ensures c.username == Field(line, 0)
    ensures CleanCustomer(c)
  {
    Customer(Field(line, 1), Field(line, 2), Field(line, 3), Field(line, 4), Field(line, 5), Field(line, 0))
  }

  predicate CleanCustomer(c: Customer)
  {
    Clean([c.username, c.firstName, c.lastName, c.address, c.phoneNum, c.email])
  }

  /** A written customer line reads back as the same seven fields, hence the same profile. */
  lemma CustomerRoundTrip(c: Customer, password: string)
    requires CleanCustomer(c) && Delim !in password
    ensures Split(CustomerLine(c, password))
         == [c.username, c.firstName, c.lastName, c.address, c.phoneNum, c.email, password]
    ensures CustomerOf(CustomerLine(c, password)) == c
    ensures Field(CustomerLine(c, password), 6) == password
  {
    SplitJoin([c.username, c.firstName, c.lastName, c.address, c.phoneNum, c.email, password]);
  }

  /**
    The login test of `loadUser`: both inputs equal the line's and neither
    is empty. An input holding a separator never passes it.
   */
  predicate Credentials(line: string, usernameInput: string, passwordInput: string)
    ensures Credentials(line, usernameInput, passwordInput) ==> Delim !in usernameInput && Delim !in passwordInput
  {
    usernameInput == Field(line, 0) && passwordInput == Field(line, 6)
    && usernameInput != "" && passwordInput != ""
  }

  /** Index of the first line that passes the login test, if any. */
  function FirstLogin(users: seq<string>, usernameInput: string, passwordInput: string): (r: Option<nat>)
    ensures r.Some? ==> r.value < |users| && Credentials(users[r.value], usernameInput, passwordInput)
    ensures r.Some? ==> forall j :: 0 <= j < r.value ==> !Credentials(users[j], usernameInput, passwordInput)
    ensures r.None? <==> forall j :: 0 <= j < |users| ==> !Credentials(users[j], usernameInput, passwordInput)
    ensures usernameInput == "" || passwordInput == "" ==> r.None?
  {
    if users == [] then None
    else if Credentials(users[0], usernameInput, passwordInput) then Some(0)
    else
      match FirstLogin(users[1..], usernameInput, passwordInput)
      case None => None
      case Some(i) => Some(i + 1)
  }

  /**
    `loadUser`: scans the customer file and stops at the first line whose
    username and password equal the (non-empty) inputs; the customer is
    then filled from that line. Otherwise the customer is left as it was.
   */
  method LoadUser(users: seq<string>, passwordInput: string, usernameInput: string, user: Customer)
    returns (loginSuccess: bool, user': Customer)
    ensures loginSuccess == FirstLogin(users, usernameInput, passwordInput).Some?
    ensures loginSuccess ==> user' == CustomerOf(users[FirstLogin(users, usernameInput, passwordInput).value])
    ensures !loginSuccess ==> user' == user
  {
    loginSuccess, user' := false, user;
    var i := 0;
    while i < |users|
      invariant 0 <= i <= |users|
      invariant forall j :: 0 <= j < i ==> !Credentials(users[j], usernameInput, passwordInput)
      invariant !loginSuccess && user' == user
    {
      var line := users[i];
      var username, password := Field(line, 0), Field(line, 6);
      if usernameInput == username && passwordInput == password && usernameInput != "" && passwordInput != "" {
        user' := CustomerOf(line);
        loginSuccess := true;
        break;
      }
      i := i + 1;
    }
  }

  /** `userExistance`: some line's username field equals the input (stops at the first). */
  method UserExists(users: seq<string>, usernameInput: string) returns (userExists: bool)
    ensures userExists <==> exists i :: 0 <= i < |users| && Field(users[i], 0) == usernameInput
  {
    userExists := false;
    var i := 0;
    while i < |users|
      invariant 0 <= i <= |users|
      invariant forall j :: 0 <= j < i ==> Field(users[j], 0) != usernameInput
      invariant !userExists
    {
      if usernameInput == Field(users[i], 0) {
        userExists := true;
        break;
      }
      i := i + 1;
    }
  }

  /**
    The store part of `signUp`: if no line already holds the username, the
    customer line is appended; otherwise the file is unchanged.
   */
  method SignUp(users: seq<string>, c: Customer, password: string) returns (users': seq<string>, created: bool)
    ensures created <==> forall i :: 0 <= i < |users| ==> Field(users[i], 0) != c.username
    ensures users' == if created then users + [CustomerLine(c, password)] else users
  {
    var userExists := UserExists(users, c.username);
    created := !userExists;
    users' := if created then users + [CustomerLine(c, password)] else users;
  }

  /**
    A customer just registered can log in with the username and password
    given at sign-up, and the login yields the profile that was registered.
   */
  lemma SignUpThenLogin(users: seq<string>, c: Customer, password: string)
    requires forall i :: 0 <= i < |users| ==> Field(users[i], 0) != c.username
    requires c.username != "" && password != ""
    requires CleanCustomer(c) && Delim !in password
    ensures FirstLogin(users + [CustomerLine(c, password)], c.username, password) == Some(|users|)
    ensures CustomerOf((users + [CustomerLine(c, password)])[|users|]) == c
  {
    var users' := users + [CustomerLine(c, password)];
    CustomerRoundTrip(c, password);
    assert Credentials(users'[|users|], c.username, password);
    forall j | 0 <= j < |users|
      ensures !Credentials(users'[j], c.username, password)
    {
      assert users'[j] == users[j];
    }
  }
}
