/** The dashboard (src/pages/Dashboard.tsx): invoice statistics over the
    built-in invoice list, the status colour, the trial countdown and the
    greeting. */
module Dashboard {
  import opened Wrappers
  import opened Seqs
  import opened Text
  import opened Types

  /** One row of the dashboard's invoice list. */
  datatype InvoiceSummary = InvoiceSummary(
    id: string,
    number: string,
    customer: string,
    amount: real,
    status: string,
    dueDate: string)

  const MockInvoices: seq<InvoiceSummary> := [
    InvoiceSummary("1", "INV-001", "Acme Inc.", 1250.00, "paid", "2023-05-15"),
    InvoiceSummary("2", "INV-002", "Globex Corp", 850.50, "pending", "2023-05-20"),
    InvoiceSummary("3", "INV-003", "Stark Industries", 3200.75, "overdue", "2023-05-10"),
    InvoiceSummary("4", "INV-004", "Wayne Enterprises", 1750.25, "draft", "2023-05-25")
  ]

  /** The fixed customer count the dashboard shows. */
  const MOCK_CUSTOMERS: nat := 12

  datatype Stats = Stats(totalInvoiced: real, paid: real, pending: real, overdue: real, customers: nat)

  /** `reduce((sum, inv) => sum + inv.amount, 0)`. */
  function SumAmounts(invs: seq<InvoiceSummary>): real
    decreases |invs|
  {
    if invs == [] then 0.0 else invs[0].amount + SumAmounts(invs[1..])
  }

  function StatusIs(status: string): InvoiceSummary -> bool {
    (inv: InvoiceSummary) => inv.status == status
  }

  /** The sum over the invoices whose status is exactly `status`. */
  function AmountWithStatus(invs: seq<InvoiceSummary>, status: string): real {
    SumAmounts(Filter(StatusIs(status), invs))
  }

  /** The dashboard's figures. With no negative amounts, each status sum
      is non-negative and paid, pending and overdue together stay within
      the total invoiced. */
  function ComputeStats(invs: seq<InvoiceSummary>): (r: Stats)
    ensures r.customers == MOCK_CUSTOMERS
    ensures (forall i :: 0 <= i < |invs| ==> invs[i].amount >= 0.0) ==>
              r.paid >= 0.0 && r.pending >= 0.0 && r.overdue >= 0.0 &&
              r.paid + r.pending + r.overdue <= r.totalInvoiced
  {
    StatusSumsWithinTotal(invs);
    Stats(SumAmounts(invs), AmountWithStatus(invs, "paid"), AmountWithStatus(invs, "pending"),
          AmountWithStatus(invs, "overdue"), MOCK_CUSTOMERS)
  }

  /** One step of a per-status sum: the first invoice counts exactly when
      its status matches. */
  lemma {:induction false} AmountWithStatusCons(invs: seq<InvoiceSummary>, status: string)
    requires invs != []
    ensures AmountWithStatus(invs, status) ==
            (if invs[0].status == status then invs[0].amount else 0.0) + AmountWithStatus(invs[1..], status)
  {
    var f := Filter(StatusIs(status), invs[1..]);
    if invs[0].status == status {
      assert Filter(StatusIs(status), invs) == [invs[0]] + f;
      assert ([invs[0]] + f)[1..] == f;
    }
  }

  /** With no negative amounts, each status sum is non-negative and the
      paid, pending and overdue sums together stay within the total: an
      invoice has one status, and drafts count only towards the total. */
  lemma {:induction false} StatusSumsWithinTotal(invs: seq<InvoiceSummary>)
    ensures (forall i :: 0 <= i < |invs| ==> invs[i].amount >= 0.0) ==>
              var paid, pending, overdue :=
                AmountWithStatus(invs, "paid"), AmountWithStatus(invs, "pending"), AmountWithStatus(invs, "overdue");
              paid >= 0.0 && pending >= 0.0 && overdue >= 0.0 && paid + pending + overdue <= SumAmounts(invs)
    decreases |invs|
  {
    if invs != [] {
      StatusSumsWithinTotal(invs[1..]);
      AmountWithStatusCons(invs, "paid");
      AmountWithStatusCons(invs, "pending");
      AmountWithStatusCons(invs, "overdue");
      if forall i :: 0 <= i < |invs| ==> invs[i].amount >= 0.0 {
        assert forall i :: 0 <= i < |invs[1..]| ==> invs[1..][i].amount >= 0.0 by {
          forall i | 0 <= i < |invs[1..]| ensures invs[1..][i].amount >= 0.0 {
            assert invs[1..][i] == invs[i + 1];
          }
        }
      }
    }
  }

  /** The figures for the built-in invoices. */
  lemma MockStats()
    ensures ComputeStats(MockInvoices) == Stats(7051.50, 1250.00, 850.50, 3200.75, 12)
  {
    var m := MockInvoices;
    assert m[1..][1..][1..][1..] == [];
    AmountWithStatusCons(m, "paid");
    AmountWithStatusCons(m[1..], "paid");
    AmountWithStatusCons(m[1..][1..], "paid");
    AmountWithStatusCons(m[1..][1..][1..], "paid");
    AmountWithStatusCons(m, "pending");
    AmountWithStatusCons(m[1..], "pending");
    AmountWithStatusCons(m[1..][1..], "pending");
    AmountWithStatusCons(m[1..][1..][1..], "pending");
    AmountWithStatusCons(m, "overdue");
    AmountWithStatusCons(m[1..], "overdue");
    AmountWithStatusCons(m[1..][1..], "overdue");
    AmountWithStatusCons(m[1..][1..][1..], "overdue");
  }

  const GREEN_CLASS: string := "bg-green-500/10 text-green-500"
  const YELLOW_CLASS: string := "bg-yellow-500/10 text-yellow-500"
  const RED_CLASS: string := "bg-red-500/10 text-red-500"
  const BLUE_CLASS: string := "bg-blue-500/10 text-blue-500"
  const GRAY_CLASS: string := "bg-gray-500/10 text-gray-500"

  /** `getStatusColor`: the four known statuses have their own colour;
      every other status, however close in spelling, is gray. */
  function StatusColor(status: string): (r: string)
    ensures r in [GREEN_CLASS, YELLOW_CLASS, RED_CLASS, BLUE_CLASS, GRAY_CLASS]
    ensures r == GRAY_CLASS <==> status !in ["paid", "pending", "overdue", "draft"]
  {
    assert GREEN_CLASS[5] != GRAY_CLASS[5] && YELLOW_CLASS[3] != GRAY_CLASS[3];
    assert RED_CLASS[3] != GRAY_CLASS[3] && BLUE_CLASS[3] != GRAY_CLASS[3];
    if status == "paid" then GREEN_CLASS
    else if status == "pending" then YELLOW_CLASS
    else if status == "overdue" then RED_CLASS
    else if status == "draft" then BLUE_CLASS
    else GRAY_CLASS
  }

  /** The four known statuses get four different colours. */
  lemma StatusColorCases()
    ensures StatusColor("paid") != StatusColor("pending") && StatusColor("paid") != StatusColor("overdue") &&
            StatusColor("paid") != StatusColor("draft") && StatusColor("pending") != StatusColor("overdue") &&
            StatusColor("pending") != StatusColor("draft") && StatusColor("overdue") != StatusColor("draft")
  {
    assert GREEN_CLASS[3] != YELLOW_CLASS[3] && RED_CLASS[3] != BLUE_CLASS[3];
    assert GREEN_CLASS[3] != RED_CLASS[3] && YELLOW_CLASS[3] != BLUE_CLASS[3];
  }

  /** `Math.ceil(a / b)` for a positive divisor, on exact integers. */
  function CeilDiv(a: int, b: int): (r: int)
    requires b > 0
    ensures (r - 1) * b < a <= r * b
  {
    -((-a) / b)
  }

  /** `isInTrial`: a trial end date is set and lies strictly after now. */
  predicate IsInTrial(user: Option<User>, now: int): (r: bool)
    ensures r ==> user.Some? && user.value.trialEndsAt.Some? && DaysLeft(user, now) >= 1
  {
    user.Some? && user.value.trialEndsAt.Some? && user.value.trialEndsAt.value > now
  }

  /** `getDaysLeft`: whole days to the trial end, rounded up; 0 without one. */
  function DaysLeft(user: Option<User>, now: int): (r: int)
    ensures user.None? || user.value.trialEndsAt.None? ==> r == 0
    ensures user.Some? && user.value.trialEndsAt.Some? ==>
              (r - 1) * DAY_MS < user.value.trialEndsAt.value - now <= r * DAY_MS
  {
    if user.None? || user.value.trialEndsAt.None? then 0
    else CeilDiv(user.value.trialEndsAt.value - now, DAY_MS)
  }

  /** A running trial always shows at least one day left, an expired one
      never shows a positive count, and no trial shows zero. */
  lemma TrialDaysLeft(user: Option<User>, now: int)
    ensures IsInTrial(user, now) <==> user.Some? && user.value.trialEndsAt.Some? && DaysLeft(user, now) >= 1
    ensures user.Some? && user.value.trialEndsAt.Some? && !IsInTrial(user, now) ==> DaysLeft(user, now) <= 0
    ensures (user.None? || user.value.trialEndsAt.None?) ==> DaysLeft(user, now) == 0 && !IsInTrial(user, now)
  {
  }

  /** The trial that approval starts shows five days on the day it starts. */
  lemma FreshTrialShowsFiveDays(u: User, now: int)
    requires u.trialEndsAt == Some(now + 5 * DAY_MS)
    ensures IsInTrial(Some(u), now) && DaysLeft(Some(u), now) == 5
  {
  }

  /** The greeting's name: `user?.fullName?.split(' ')[0] || 'User'`. */
  function Greeting(fullName: Option<string>): (r: string)
    ensures r != [] && ' ' !in r
  {
    if fullName.None? then "User"
    else
      var first := Split(fullName.value, ' ')[0];
      if first == [] then "User" else first
  }

  /** The greeting shows the longest space-free prefix of the full name,
      and 'User' when there is no name or it starts with a space. */
  lemma {:induction false} GreetingFirstWord(fullName: Option<string>)
    ensures fullName.None? ==> Greeting(fullName) == "User"
    ensures fullName.Some? && (fullName.value == [] || fullName.value[0] == ' ') ==> Greeting(fullName) == "User"
    ensures fullName.Some? && fullName.value != [] && fullName.value[0] != ' ' ==>
              var s, r := fullName.value, Greeting(fullName);
              0 < |r| <= |s| && s[..|r|] == r && ' ' !in r && (|r| < |s| ==> s[|r|] == ' ')
  {
    if fullName.Some? {
      var s := fullName.value;
      SplitHead(s, ' ');
    }
  }

  /** A name written as words separated by single spaces greets by its
      first word. */
  lemma GreetingOfWords(words: seq<string>)
    requires |words| >= 1 && words[0] != []
    requires forall i :: 0 <= i < |words| ==> ' ' !in words[i]
    ensures Greeting(Some(Join(words, " "))) == words[0]
  {
    SplitJoin(words, ' ');
  }
}
