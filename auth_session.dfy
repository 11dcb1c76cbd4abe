/** The authentication session (src/hooks/useAuth.tsx): the signed-in
    account, a loading flag and one stored record under the key 'user',
    checked against a fixed list of known accounts. */
module AuthSession {
  import opened Wrappers
  import opened Seqs
  import opened Types

  const ADMIN_EMAIL: string := "admin@theinvoicelink.com"

  /** The accounts `login` and `register` check against. */
  const MockAccounts: seq<User> := [
    User("1", ADMIN_EMAIL, "Admin User", "The Invoice Link", "123 Admin Street", "London",
         "SW1A 1AA", "07700900000", true, None, 0.0, Active, 1672531200000)
  ]

  /** The monthly amount a new account starts with. */
  const DEFAULT_AMOUNT: real := 9.99

  /** The persisted slot under the key 'user': nothing, a record that
      parses, or text that does not. */
  datatype Slot = Empty | Holds(user: User) | Corrupt

  datatype AuthError = InvalidCredentials | PendingApproval | DuplicateBusiness

  /** The `Partial<User>` fields registration reads. */
  datatype UserData = UserData(
    email: Option<string>,
    fullName: Option<string>,
    businessName: Option<string>,
    address: Option<string>,
    city: Option<string>,
    postcode: Option<string>,
    phone: Option<string>)

  /** `user?.email === MOCK_ADMIN_EMAIL`. */
  predicate IsAdminUser(user: Option<User>) {
    user.Some? && user.value.email == ADMIN_EMAIL
  }

  function EmailIs(email: string): User -> bool {
    (u: User) => u.email == email
  }

  function SameBusiness(businessName: string, address: string, postcode: string): User -> bool {
    (u: User) => u.businessName == businessName && u.address == address && u.postcode == postcode
  }

  /** What `login` decides for an email: the first account with exactly
      that email, refused while unapproved unless it is the admin email.
      The password plays no part. */
  function LoginDecision(accounts: seq<User>, email: string): (r: Result<User, AuthError>)
    ensures r == Failure(InvalidCredentials) <==>
              forall i :: 0 <= i < |accounts| ==> accounts[i].email != email
    ensures r.Success? ==>
              r.value in accounts && r.value.email == email &&
              (r.value.isApproved || email == ADMIN_EMAIL)
    ensures r == Failure(PendingApproval) ==>
              email != ADMIN_EMAIL &&
              exists i :: 0 <= i < |accounts| && accounts[i].email == email && !accounts[i].isApproved
    ensures r.Failure? ==> r.error != DuplicateBusiness
    ensures forall k :: FirstWhere(EmailIs(email), accounts, k) ==>
              r == if !accounts[k].isApproved && email != ADMIN_EMAIL then Failure(PendingApproval)
                   else Success(accounts[k])
  {
    match Find(EmailIs(email), accounts)
    case None => Failure(InvalidCredentials)
    case Some(u) =>
      if !u.isApproved && email != ADMIN_EMAIL then Failure(PendingApproval) else Success(u)
  }

  /** The record `register` builds: absent fields become empty strings. */
  function NewAccount(data: UserData, id: string, now: int): (u: User)
    ensures WellFormed(u) && !u.isApproved && u.subscriptionStatus == Pending
  {
    User(id, data.email.GetOr(""), data.fullName.GetOr(""), data.businessName.GetOr(""),
         data.address.GetOr(""), data.city.GetOr(""), data.postcode.GetOr(""),
         data.phone.GetOr(""), false, None, DEFAULT_AMOUNT, Pending, now)
  }

  /** A new account awaits approval with no trial, the default amount and
      status `pending`; it keeps the lifecycle invariant. */
  lemma NewAccountIsPending(data: UserData, id: string, now: int)
    ensures var u := NewAccount(data, id, now);
            !u.isApproved && u.trialEndsAt == None && u.subscriptionAmount == 9.99 &&
            u.subscriptionStatus == Pending && u.id == id && u.createdAt == now &&
            WellFormed(u)
    ensures var u := NewAccount(data, id, now);
            (data.email.None? ==> u.email == "") && (data.email.Some? ==> u.email == data.email.value) &&
            (data.fullName.None? ==> u.fullName == "") && (data.fullName.Some? ==> u.fullName == data.fullName.value) &&
            (data.businessName.None? ==> u.businessName == "") &&
            (data.businessName.Some? ==> u.businessName == data.businessName.value) &&
            (data.address.None? ==> u.address == "") && (data.address.Some? ==> u.address == data.address.value) &&
            (data.city.None? ==> u.city == "") && (data.city.Some? ==> u.city == data.city.value) &&
            (data.postcode.None? ==> u.postcode == "") && (data.postcode.Some? ==> u.postcode == data.postcode.value) &&
            (data.phone.None? ==> u.phone == "") && (data.phone.Some? ==> u.phone == data.phone.value)
  {
  }

  /** What `register` decides: refused exactly when a known account has
      the same business name, address and postcode (case-sensitive);
      otherwise the new pending record. */
  function RegisterDecision(accounts: seq<User>, data: UserData, id: string, now: int): (r: Result<User, AuthError>)
    ensures r.Failure? <==>
              exists i :: 0 <= i < |accounts| &&
                accounts[i].businessName == data.businessName.GetOr("") &&
                accounts[i].address == data.address.GetOr("") &&
                accounts[i].postcode == data.postcode.GetOr("")
    ensures r.Failure? ==> r.error == DuplicateBusiness
    ensures r.Success? ==> r.value == NewAccount(data, id, now) && !r.value.isApproved
  {
    var u := NewAccount(data, id, now);
    match Find(SameBusiness(u.businessName, u.address, u.postcode), accounts)
    case Some(_) => Failure(DuplicateBusiness)
    case None => Success(u)
  }

  /** Against the built-in list: the admin email signs in as the admin
      record and every other email is unknown; registering the admin's
      business again is refused, and one differing postcode is enough. */
  lemma MockAccountDecisions(email: string, data: UserData, id: string, now: int)
    ensures LoginDecision(MockAccounts, ADMIN_EMAIL) == Success(MockAccounts[0])
    ensures email != ADMIN_EMAIL ==> LoginDecision(MockAccounts, email) == Failure(InvalidCredentials)
    ensures data.businessName == Some("The Invoice Link") && data.address == Some("123 Admin Street") &&
            data.postcode == Some("SW1A 1AA") ==>
              RegisterDecision(MockAccounts, data, id, now) == Failure(DuplicateBusiness)
    ensures data.postcode != Some("SW1A 1AA") ==>
              RegisterDecision(MockAccounts, data, id, now) == Success(NewAccount(data, id, now))
  {
    assert MockAccounts[0].email == ADMIN_EMAIL;
    if data.postcode != Some("SW1A 1AA") {
      assert data.postcode.GetOr("") != "SW1A 1AA" by {
        if data.postcode.None? {
          assert |data.postcode.GetOr("")| == 0;
        }
      }
    }
  }

  class Session {
    var user: Option<User>
    var isLoading: bool
    var storage: Slot
    const accounts: seq<User>

    /** The provider as first rendered, over whatever the slot holds. */
    constructor (stored: Slot)
      ensures user == None && isLoading && storage == stored && accounts == MockAccounts
    {
      user := None;
      isLoading := true;
      storage := stored;
      accounts := MockAccounts;
    }

    /** `isAdmin`: someone is signed in, and it is the admin email. */
    function IsAdmin(): (r: bool)
      reads this
      ensures r ==> user.Some?
      ensures r <==> user.Some? && user.value.email == ADMIN_EMAIL
    {
      IsAdminUser(user)
    }

    /** The mount effect: a stored record that parses becomes the user; one
        that does not is removed and leaves the user as it was. Loading
        ends either way. */
    method Restore()
      modifies this`user, this`storage, this`isLoading
      ensures old(storage).Holds? ==> user == Some(old(storage).user) && storage == old(storage)
      ensures old(storage).Corrupt? ==> user == old(user) && storage == Empty
      ensures old(storage).Empty? ==> user == old(user) && storage == Empty
      ensures !isLoading
    {
      match storage {
        case Holds(u) =>
          user := Some(u);
        case Corrupt =>
          storage := Empty;
        case Empty =>
      }
      isLoading := false;
    }

    /** Signs in the account `LoginDecision` picks, writing it to the slot
        too; a refusal changes neither. Loading ends either way. */
    method Login(email: string, password: string) returns (r: Outcome<AuthError>)
      modifies this`user, this`storage, this`isLoading
      ensures LoginDecision(accounts, email).Failure? ==>
                r == Fail(LoginDecision(accounts, email).error) &&
                user == old(user) && storage == old(storage)
      ensures LoginDecision(accounts, email).Success? ==>
                r == Pass && user == Some(LoginDecision(accounts, email).value) &&
                storage == Holds(LoginDecision(accounts, email).value)
      ensures r == Pass ==> user.Some? && user.value.email == email && (IsAdmin() <==> email == ADMIN_EMAIL)
      ensures !isLoading
    {
      isLoading := true;
      var decision := LoginDecision(accounts, email);
      match decision {
        case Failure(e) =>
          r := Fail(e);
        case Success(u) =>
          user := Some(u);
          storage := Holds(u);
          r := Pass;
      }
      isLoading := false;
    }

    /** Builds the new pending account or refuses a duplicate business; the
        session and the account list are not touched. */
    method Register(data: UserData, password: string, freshId: string, now: int)
      returns (r: Result<User, AuthError>)
      modifies this`isLoading
      ensures r == RegisterDecision(accounts, data, freshId, now)
      ensures user == old(user) && storage == old(storage)
      ensures !isLoading
    {
      isLoading := true;
      r := RegisterDecision(accounts, data, freshId, now);
      isLoading := false;
    }

    method Logout()
      modifies this`user, this`storage, this`isLoading
      ensures user == None && storage == Empty && !isLoading && !IsAdmin()
    {
      isLoading := true;
      user := None;
      storage := Empty;
      isLoading := false;
    }
  }

  /** A signed-in account survives a reload: a second session mounted over
      the slot the first one wrote restores the same account. */
  method ReloadAfterLogin(email: string, password: string) returns (before: Option<User>, after: Option<User>)
    ensures before == after
    ensures before.Some? <==> LoginDecision(MockAccounts, email).Success?
  {
    var first := new Session(Empty);
    first.Restore();
    var _ := first.Login(email, password);
    before := first.user;
    var second := new Session(first.storage);
    second.Restore();
    after := second.user;
  }
}
