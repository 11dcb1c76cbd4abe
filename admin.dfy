/** The admin panel (src/pages/Admin.tsx): a directory of accounts that
    an administrator searches, filters, approves, rejects and re-prices. */
module Admin {
  import opened Wrappers
  import opened Seqs
  import opened Text
  import opened Types

  /** Length of the trial granted on approval: five days. */
  const TRIAL_MS: int := 5 * DAY_MS

  /** The directory the panel loads after its simulated request. */
  const MockUsers: seq<User> := [
    User("1", "john@example.com", "John Doe", "Doe Enterprises", "123 Main St", "London",
         "SW1A 1AA", "07700900000", false, None, 9.99, Pending, 1682899200000),
    User("2", "jane@example.com", "Jane Smith", "Smith Design", "456 High St", "Manchester",
         "M1 1AA", "07700900001", true, Some(1684540800000), 9.99, Trial, 1683244800000),
    User("3", "bob@example.com", "Bob Johnson", "Johnson Consulting", "789 Park Lane", "Birmingham",
         "B1 1AA", "07700900002", true, None, 7.99, Active, 1681516800000),
    User("4", "sarah@example.com", "Sarah Williams", "Williams & Co", "101 Queen St", "Glasgow",
         "G1 1AA", "07700900003", false, None, 9.99, Pending, 1683676800000),
    User("5", "mike@example.com", "Mike Brown", "Brown Motors", "202 King St", "Leeds",
         "LS1 1AA", "07700900004", true, None, 9.99, Canceled, 1679270400000)
  ]

  // ---------------------------------------------------------------------
  // The filtered view
  // ---------------------------------------------------------------------

  /** The search hit test; `term` is the already lower-cased search term. */
  predicate MatchesSearch(u: User, term: string) {
    Contains(LowerStr(u.fullName), term) ||
    Contains(LowerStr(u.businessName), term) ||
    Contains(LowerStr(u.email), term)
  }

  function SearchMatcher(term: string): User -> bool {
    (u: User) => MatchesSearch(u, term)
  }

  /** The filter values that restrict by status; any other value
      (`all` included) leaves the list as it is. */
  predicate IsStatusFilter(filter: string) {
    filter == "pending" || filter == "approved" || filter == "trial" ||
    filter == "active" || filter == "canceled"
  }

  /** The status test of one filter value at time `now`. */
  predicate PassesStatus(u: User, filter: string, now: int) {
    if filter == "pending" then !u.isApproved
    else if filter == "approved" then u.isApproved
    else if filter == "trial" then u.isApproved && u.trialEndsAt.Some? && u.trialEndsAt.value > now
    else if filter == "active" then u.isApproved && u.subscriptionStatus == Active
    else if filter == "canceled" then u.subscriptionStatus == Canceled
    else true
  }

  function StatusMatcher(filter: string, now: int): User -> bool {
    (u: User) => PassesStatus(u, filter, now)
  }

  function SearchStage(us: seq<User>, searchTerm: string): seq<User> {
    if searchTerm == "" then us else Filter(SearchMatcher(LowerStr(searchTerm)), us)
  }

  function StatusStage(us: seq<User>, filter: string, now: int): seq<User> {
    if IsStatusFilter(filter) then Filter(StatusMatcher(filter, now), us) else us
  }

  /** The list the table shows: the search stage, then the status stage. */
  function FilteredUsers(us: seq<User>, searchTerm: string, filter: string, now: int): (r: seq<User>)
    ensures |r| <= |us|
    ensures forall i :: 0 <= i < |r| ==> r[i] in us && PassesStatus(r[i], filter, now)
  {
    StatusStage(SearchStage(us, searchTerm), filter, now)
  }

  /** Whether one account belongs in the view, stated without stages. */
  predicate Visible(u: User, searchTerm: string, filter: string, now: int) {
    MatchesSearch(u, LowerStr(searchTerm)) && PassesStatus(u, filter, now)
  }

  function VisibleMatcher(searchTerm: string, filter: string, now: int): User -> bool {
    (u: User) => Visible(u, searchTerm, filter, now)
  }

  /** The view is the directory filtered in one pass by `Visible`: an
      order-preserving subsequence holding exactly the visible accounts,
      each as often as in the directory. */
  lemma FilteredViewExact(us: seq<User>, searchTerm: string, filter: string, now: int)
    ensures FilteredUsers(us, searchTerm, filter, now) == Filter(VisibleMatcher(searchTerm, filter, now), us)
    ensures IsSubsequence(FilteredUsers(us, searchTerm, filter, now), us)
    ensures forall u :: u in FilteredUsers(us, searchTerm, filter, now) <==>
                        u in us && Visible(u, searchTerm, filter, now)
  {
    var mid := SearchStage(us, searchTerm);
    var r := FilteredUsers(us, searchTerm, filter, now);
    var term := LowerStr(searchTerm);
    if searchTerm == "" {
      assert term == [];
      forall u | u in us ensures MatchesSearch(u, term) {
        ContainsEmpty(LowerStr(u.fullName));
      }
      SubsequenceReflexive(us);
    } else {
      FilterIsSubsequence(SearchMatcher(term), us);
      FilterMembership(SearchMatcher(term), us);
    }
    if IsStatusFilter(filter) {
      FilterIsSubsequence(StatusMatcher(filter, now), mid);
      FilterMembership(StatusMatcher(filter, now), mid);
      SubsequenceTransitive(r, mid, us);
    }
    OneFilterPass(us, searchTerm, filter, now);
  }

  lemma OneFilterPass(us: seq<User>, searchTerm: string, filter: string, now: int)
    ensures FilteredUsers(us, searchTerm, filter, now) == Filter(VisibleMatcher(searchTerm, filter, now), us)
  {
    var term := LowerStr(searchTerm);
    var v := VisibleMatcher(searchTerm, filter, now);
    if searchTerm == "" {
      assert term == [];
      forall i | 0 <= i < |us| ensures MatchesSearch(us[i], term) {
        ContainsEmpty(LowerStr(us[i].fullName));
      }
      if IsStatusFilter(filter) {
        FilterAgreeing(StatusMatcher(filter, now), v, us);
      } else {
        FilterKeepsAll(v, us);
      }
    } else if IsStatusFilter(filter) {
      FilterCompose(SearchMatcher(term), StatusMatcher(filter, now), us);
      FilterAgreeing(Both(SearchMatcher(term), StatusMatcher(filter, now)), v, us);
    } else {
      FilterAgreeing(SearchMatcher(term), v, us);
    }
  }

  /** With no search term and the `all` filter the view is the directory. */
  lemma UnfilteredViewIsDirectory(us: seq<User>, now: int)
    ensures FilteredUsers(us, "", "all", now) == us
  {
  }

  /** Each status filter keeps exactly the accounts of its status rule. */
  lemma StatusFiltersExact(us: seq<User>, now: int)
    ensures forall u :: u in FilteredUsers(us, "", "pending", now) <==> u in us && !u.isApproved
    ensures forall u :: u in FilteredUsers(us, "", "approved", now) <==> u in us && u.isApproved
    ensures forall u :: u in FilteredUsers(us, "", "trial", now) <==>
              u in us && u.isApproved && u.trialEndsAt.Some? && u.trialEndsAt.value > now
    ensures forall u :: u in FilteredUsers(us, "", "active", now) <==>
              u in us && u.isApproved && u.subscriptionStatus == Active
    ensures forall u :: u in FilteredUsers(us, "", "canceled", now) <==>
              u in us && u.subscriptionStatus == Canceled
    ensures forall filter :: !IsStatusFilter(filter) ==> FilteredUsers(us, "", filter, now) == us
  {
    FilteredViewExact(us, "", "pending", now);
    FilteredViewExact(us, "", "approved", now);
    FilteredViewExact(us, "", "trial", now);
    FilteredViewExact(us, "", "active", now);
    FilteredViewExact(us, "", "canceled", now);
    forall u | u in us ensures MatchesSearch(u, LowerStr("")) {
      ContainsEmpty(LowerStr(u.fullName));
    }
  }

  /** Re-applying the same search and filter to the view changes nothing. */
  lemma FilteredViewIdempotent(us: seq<User>, searchTerm: string, filter: string, now: int)
    ensures FilteredUsers(FilteredUsers(us, searchTerm, filter, now), searchTerm, filter, now) ==
            FilteredUsers(us, searchTerm, filter, now)
  {
    var s := SearchMatcher(LowerStr(searchTerm));
    var p := StatusMatcher(filter, now);
    if searchTerm != "" && IsStatusFilter(filter) {
      var x := Filter(s, us);
      FilterCommute(p, s, Filter(p, x));
      FilterCommute(p, s, x);
      FilterIdempotent(s, us);
      FilterIdempotent(p, Filter(s, x));
    } else if searchTerm != "" {
      FilterIdempotent(s, us);
    } else if IsStatusFilter(filter) {
      FilterIdempotent(p, us);
    }
  }

  /** Search ignores case: terms with the same lower-case form give the
      same view. */
  lemma SearchIgnoresCase(us: seq<User>, t1: string, t2: string, filter: string, now: int)
    requires LowerStr(t1) == LowerStr(t2)
    ensures FilteredUsers(us, t1, filter, now) == FilteredUsers(us, t2, filter, now)
  {
    assert |t1| == |LowerStr(t1)| == |t2|;
  }

  // ---------------------------------------------------------------------
  // List updates
  // ---------------------------------------------------------------------

  /** One account after approval at time `now`. */
  function Approve(u: User, now: int): User {
    u.(isApproved := true, trialEndsAt := Some(now + TRIAL_MS), subscriptionStatus := Trial)
  }

  function Approver(now: int): User -> User {
    (u: User) => Approve(u, now)
  }

  function HasId(id: string): User -> bool {
    (u: User) => u.id == id
  }

  function LacksId(id: string): User -> bool {
    (u: User) => u.id != id
  }

  function AmountSetter(amount: real): User -> User {
    (u: User) => u.(subscriptionAmount := amount)
  }

  /** `users.map(u => u.id === id ? approved(u) : u)`. */
  function ApproveById(us: seq<User>, id: string, now: int): (r: seq<User>)
    ensures |r| == |us|
    ensures forall i :: 0 <= i < |r| && r[i].id == id ==> r[i].isApproved && r[i].subscriptionStatus == Trial
  {
    MapWherePointwise(HasId(id), Approver(now), us);
    MapWhere(HasId(id), Approver(now), us)
  }

  /** `users.filter(u => u.id !== id)`. */
  function RejectById(us: seq<User>, id: string): (r: seq<User>)
    ensures |r| <= |us|
    ensures forall i :: 0 <= i < |r| ==> r[i].id != id && r[i] in us
  {
    Filter(LacksId(id), us)
  }

  /** `users.map(u => u.id === id ? {...u, subscriptionAmount} : u)`. */
  function SetAmountById(us: seq<User>, id: string, amount: real): (r: seq<User>)
    ensures |r| == |us|
    ensures forall i :: 0 <= i < |r| && r[i].id == id ==> r[i].subscriptionAmount == amount
  {
    MapWherePointwise(HasId(id), AmountSetter(amount), us);
    MapWhere(HasId(id), AmountSetter(amount), us)
  }

  /** Approval starts a five-day trial and touches nothing else of the
      record; the approved record satisfies the lifecycle invariant, reads
      as "Trial" and is listed by the `trial` filter at `now`. */
  lemma ApproveStartsTrial(u: User, now: int)
    ensures Approve(u, now).isApproved
    ensures Approve(u, now).trialEndsAt == Some(now + 5 * DAY_MS)
    ensures Approve(u, now).subscriptionStatus == Trial
    ensures Approve(u, now).(isApproved := u.isApproved, trialEndsAt := u.trialEndsAt,
                             subscriptionStatus := u.subscriptionStatus) == u
    ensures WellFormed(Approve(u, now))
    ensures StatusText(Approve(u, now)) == "Trial"
    ensures PassesStatus(Approve(u, now), "trial", now)
    ensures forall t :: PassesStatus(Approve(u, now), "trial", t) <==> t < now + TRIAL_MS
  {
  }

  /** approveUser keeps length and order, approves exactly the records with
      the id and leaves every other record as it was. */
  lemma ApproveByIdPointwise(us: seq<User>, id: string, now: int)
    ensures |ApproveById(us, id, now)| == |us|
    ensures forall i :: 0 <= i < |us| ==>
              ApproveById(us, id, now)[i] == if us[i].id == id then Approve(us[i], now) else us[i]
    ensures AllWellFormed(us) ==> AllWellFormed(ApproveById(us, id, now))
  {
    MapWherePointwise(HasId(id), Approver(now), us);
  }

  /** rejectUser removes exactly the records with the id and keeps the
      others in order. */
  lemma RejectByIdExact(us: seq<User>, id: string)
    ensures IsSubsequence(RejectById(us, id), us)
    ensures forall u :: u in RejectById(us, id) <==> u in us && u.id != id
    ensures multiset(RejectById(us, id)) + multiset(Filter(HasId(id), us)) == multiset(us)
    ensures AllWellFormed(us) ==> AllWellFormed(RejectById(us, id))
  {
    FilterIsSubsequence(LacksId(id), us);
    FilterMembership(LacksId(id), us);
    FilterPartition(LacksId(id), HasId(id), us);
  }

  /** updateSubscriptionAmount changes the amount of the records with the id
      and nothing else. */
  lemma SetAmountByIdPointwise(us: seq<User>, id: string, amount: real)
    ensures |SetAmountById(us, id, amount)| == |us|
    ensures forall i :: 0 <= i < |us| ==>
              SetAmountById(us, id, amount)[i] ==
                if us[i].id == id then us[i].(subscriptionAmount := amount) else us[i]
    ensures AllWellFormed(us) ==> AllWellFormed(SetAmountById(us, id, amount))
  {
    MapWherePointwise(HasId(id), AmountSetter(amount), us);
  }

  /** Approving and rejecting an id lower the pending count alike: both
      take every account with that id out of it. */
  lemma {:induction false} ApproveAndRejectClearPending(us: seq<User>, id: string, now: int)
    ensures PendingCount(ApproveById(us, id, now)) == PendingCount(RejectById(us, id))
    decreases |us|
  {
    if us != [] {
      ApproveAndRejectClearPending(us[1..], id, now);
      var a := ApproveById(us, id, now);
      assert a[0] == (if us[0].id == id then Approve(us[0], now) else us[0]);
      assert a[1..] == ApproveById(us[1..], id, now);
      if us[0].id != id && !us[0].isApproved {
        assert RejectById(us, id) == [us[0]] + RejectById(us[1..], id);
        assert ([us[0]] + RejectById(us[1..], id))[1..] == RejectById(us[1..], id);
      }
    }
  }

  // ---------------------------------------------------------------------
  // Status text, badge and counts
  // ---------------------------------------------------------------------

  /** The status column's text. */
  function StatusText(u: User): (r: string)
    ensures r == "Pending Approval" <==> !u.isApproved
    ensures r in ["Pending Approval", "Trial", "Active", "Canceled", "Unknown"]
  {
    if !u.isApproved then "Pending Approval"
    else match u.subscriptionStatus
      case Trial => "Trial"
      case Active => "Active"
      case Canceled => "Canceled"
      case Pending => "Unknown"
  }

  /** The status badge's colour classes. */
  function StatusBadgeClass(u: User): (r: string)
    ensures r == "bg-yellow-500/10 text-yellow-500" <==> !u.isApproved
    ensures r == "bg-gray-500/10 text-gray-500" <==> u.isApproved && u.subscriptionStatus == Pending
  {
    if !u.isApproved then "bg-yellow-500/10 text-yellow-500"
    else match u.subscriptionStatus
      case Trial => "bg-blue-500/10 text-blue-500"
      case Active => "bg-green-500/10 text-green-500"
      case Canceled => "bg-red-500/10 text-red-500"
      case Pending => "bg-gray-500/10 text-gray-500"
  }

  /** 'Pending Approval' wins over any status; an approved account left in
      status `pending` reads 'Unknown', which a well-formed account never
      does; text and badge colour always agree. */
  lemma StatusTextCases(u: User)
    ensures !u.isApproved ==> StatusText(u) == "Pending Approval"
    ensures u.isApproved && u.subscriptionStatus == Pending ==> StatusText(u) == "Unknown"
    ensures WellFormed(u) ==> StatusText(u) != "Unknown"
    ensures StatusText(u) == "Pending Approval" <==> StatusBadgeClass(u) == "bg-yellow-500/10 text-yellow-500"
    ensures StatusText(u) == "Unknown" <==> StatusBadgeClass(u) == "bg-gray-500/10 text-gray-500"
    ensures StatusText(u) == "Trial" <==> StatusBadgeClass(u) == "bg-blue-500/10 text-blue-500"
    ensures StatusText(u) == "Active" <==> StatusBadgeClass(u) == "bg-green-500/10 text-green-500"
    ensures StatusText(u) == "Canceled" <==> StatusBadgeClass(u) == "bg-red-500/10 text-red-500"
  {
  }

  const IsUnapproved: User -> bool := (u: User) => !u.isApproved

  const IsActiveSubscriber: User -> bool := (u: User) => u.isApproved && u.subscriptionStatus == Active

  function ShowsText(text: string): User -> bool {
    (u: User) => StatusText(u) == text
  }

  /** The "Pending Approval" card: zero exactly when every account is approved. */
  function PendingCount(us: seq<User>): (r: nat)
    ensures r <= |us|
    ensures r == 0 <==> forall i :: 0 <= i < |us| ==> us[i].isApproved
  {
    |Filter(IsUnapproved, us)|
  }

  /** The "Active Subscriptions" card: zero exactly when no approved
      account is active. */
  function ActiveCount(us: seq<User>): (r: nat)
    ensures r <= |us|
    ensures r == 0 <==> forall i :: 0 <= i < |us| ==> !(us[i].isApproved && us[i].subscriptionStatus == Active)
  {
    |Filter(IsActiveSubscriber, us)|
  }

  /** The cards agree with the table: the pending count is the number of
      rows reading 'Pending Approval' and the size of the `pending` view;
      the active count is the size of the `active` view. */
  lemma CountsMatchViews(us: seq<User>, now: int)
    ensures PendingCount(us) == |Filter(ShowsText("Pending Approval"), us)|
    ensures PendingCount(us) == |FilteredUsers(us, "", "pending", now)|
    ensures ActiveCount(us) == |FilteredUsers(us, "", "active", now)|
  {
    FilterAgreeing(IsUnapproved, ShowsText("Pending Approval"), us);
    FilterAgreeing(IsUnapproved, StatusMatcher("pending", now), us);
    FilterAgreeing(IsActiveSubscriber, StatusMatcher("active", now), us);
  }

  /** Every record of the loaded directory keeps the lifecycle invariant. */
  lemma MockDirectoryWellFormed()
    ensures AllWellFormed(MockUsers)
  {
    var m := MockUsers;
    assert |m| == 5;
    assert WellFormed(m[0]);
    assert WellFormed(m[1]);
    assert WellFormed(m[2]);
    assert WellFormed(m[3]);
    assert WellFormed(m[4]);
  }

  /** The loaded directory: two accounts await approval. */
  lemma MockPendingCount()
    ensures PendingCount(MockUsers) == 2
  {
    var m := MockUsers;
    assert m[1..][1..] == m[2..] && m[2..][1..] == m[3..] && m[3..][1..] == m[4..] && m[4..][1..] == [];
    FilterLengthCons(IsUnapproved, m[4..]);
    FilterLengthCons(IsUnapproved, m[3..]);
    FilterLengthCons(IsUnapproved, m[2..]);
    FilterLengthCons(IsUnapproved, m[1..]);
    FilterLengthCons(IsUnapproved, m);
  }

  /** The loaded directory: one subscription is active. */
  lemma MockActiveCount()
    ensures ActiveCount(MockUsers) == 1
  {
    var m := MockUsers;
    assert m[1..][1..] == m[2..] && m[2..][1..] == m[3..] && m[3..][1..] == m[4..] && m[4..][1..] == [];
    FilterLengthCons(IsActiveSubscriber, m[4..]);
    FilterLengthCons(IsActiveSubscriber, m[3..]);
    FilterLengthCons(IsActiveSubscriber, m[2..]);
    FilterLengthCons(IsActiveSubscriber, m[1..]);
    FilterLengthCons(IsActiveSubscriber, m);
  }

  /** Where a non-admin visitor is sent. */
  function AdminPageRedirect(isAdmin: bool): (r: Option<string>)
    ensures r.Some? <==> !isAdmin
    ensures r.Some? ==> r.value == "/dashboard"
  {
    if !isAdmin then Some("/dashboard") else None
  }

  // ---------------------------------------------------------------------
  // The panel's state
  // ---------------------------------------------------------------------

  /** `parseFloat` of the edited amount text. */
  datatype ParsedAmount = NaN | Num(value: real)

  class AdminPanel {
    var isLoading: bool
    var users: seq<User>
    var filteredUsers: seq<User>
    var searchTerm: string
    var filter: string
    var selectedUser: Option<User>
    var isUserDialogOpen: bool
    var isEditDialogOpen: bool
    var editedAmount: ParsedAmount

    constructor ()
      ensures isLoading && users == [] && filteredUsers == []
      ensures searchTerm == "" && filter == "all" && selectedUser == None
      ensures !isUserDialogOpen && !isEditDialogOpen && editedAmount == NaN
    {
      isLoading := true;
      users := [];
      filteredUsers := [];
      searchTerm := "";
      filter := "all";
      selectedUser := None;
      isUserDialogOpen := false;
      isEditDialogOpen := false;
      editedAmount := NaN;
    }

    /** The simulated request's completion. */
    method LoadUsers()
      modifies this`users, this`filteredUsers, this`isLoading
      ensures users == MockUsers && filteredUsers == MockUsers && !isLoading
    {
      users := MockUsers;
      filteredUsers := MockUsers;
      isLoading := false;
    }

    method SetSearchTerm(term: string)
      modifies this`searchTerm
      ensures searchTerm == term
    {
      searchTerm := term;
    }

    method SetFilter(value: string)
      modifies this`filter
      ensures filter == value
    {
      filter := value;
    }

    /** The effect that recomputes the view whenever the directory, the
        search term or the filter changes. */
    method ApplyFilters(now: int)
      modifies this`filteredUsers
      ensures filteredUsers == FilteredUsers(users, searchTerm, filter, now)
      ensures IsSubsequence(filteredUsers, users)
      ensures forall u :: u in filteredUsers <==> u in users && Visible(u, searchTerm, filter, now)
    {
      var result := users;
      if searchTerm != "" {
        var term := LowerStr(searchTerm);
        result := Filter(SearchMatcher(term), result);
      }
      if filter != "all" {
        if filter == "pending" {
          result := Filter(StatusMatcher("pending", now), result);
        } else if filter == "approved" {
          result := Filter(StatusMatcher("approved", now), result);
        } else if filter == "trial" {
          result := Filter(StatusMatcher("trial", now), result);
        } else if filter == "active" {
          result := Filter(StatusMatcher("active", now), result);
        } else if filter == "canceled" {
          result := Filter(StatusMatcher("canceled", now), result);
        }
      }
      filteredUsers := result;
      FilteredViewExact(users, searchTerm, filter, now);
    }

    method ApproveUser(userId: string, now: int)
      modifies this`users
      ensures users == ApproveById(old(users), userId, now)
      ensures |users| == |old(users)|
      ensures forall i :: 0 <= i < |users| ==>
                users[i] == if old(users)[i].id == userId then Approve(old(users)[i], now) else old(users)[i]
      ensures AllWellFormed(old(users)) ==> AllWellFormed(users)
    {
      ApproveByIdPointwise(users, userId, now);
      users := ApproveById(users, userId, now);
    }

    method RejectUser(userId: string)
      modifies this`users
      ensures users == RejectById(old(users), userId)
      ensures IsSubsequence(users, old(users))
      ensures forall u :: u in users <==> u in old(users) && u.id != userId
      ensures AllWellFormed(old(users)) ==> AllWellFormed(users)
    {
      RejectByIdExact(users, userId);
      users := RejectById(users, userId);
    }

    /** "View Details" in a row's menu. */
    method OpenUserDialog(u: User)
      modifies this`selectedUser, this`isUserDialogOpen
      ensures selectedUser == Some(u) && isUserDialogOpen
    {
      selectedUser := Some(u);
      isUserDialogOpen := true;
    }

    /** "Edit Subscription" in a row's menu: the amount field starts at the
        current amount. */
    method OpenEditDialog(u: User)
      modifies this`selectedUser, this`editedAmount, this`isEditDialogOpen
      ensures selectedUser == Some(u) && editedAmount == Num(u.subscriptionAmount) && isEditDialogOpen
    {
      selectedUser := Some(u);
      editedAmount := Num(u.subscriptionAmount);
      isEditDialogOpen := true;
    }

    method SetEditedAmount(amount: ParsedAmount)
      modifies this`editedAmount
      ensures editedAmount == amount
    {
      editedAmount := amount;
    }

    /** Applies a positive, non-NaN amount to the selected account and
        closes the dialog; otherwise changes nothing and leaves the dialog
        as it is. */
    method UpdateSubscriptionAmount()
      modifies this`users, this`isEditDialogOpen
      ensures selectedUser.None? || editedAmount.NaN? || editedAmount.value <= 0.0 ==>
                users == old(users) && isEditDialogOpen == old(isEditDialogOpen)
      ensures selectedUser.Some? && editedAmount.Num? && editedAmount.value > 0.0 ==>
                users == SetAmountById(old(users), selectedUser.value.id, editedAmount.value) &&
                !isEditDialogOpen
      ensures AllWellFormed(old(users)) ==> AllWellFormed(users)
    {
      if selectedUser.None? {
        return;
      }
      if editedAmount.NaN? || editedAmount.value <= 0.0 {
        return;
      }
      SetAmountByIdPointwise(users, selectedUser.value.id, editedAmount.value);
      users := SetAmountById(users, selectedUser.value.id, editedAmount.value);
      isEditDialogOpen := false;
    }
  }
}
