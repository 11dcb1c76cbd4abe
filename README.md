# The Invoice Link: domain logic in Dafny

The Invoice Link is a small React invoicing application for UK small
businesses. A business registers an account, and an administrator approves
it, which starts a five-day trial. The business then signs in, sees a
dashboard and drafts invoices. Most of the code is markup. This project
models the layer of domain logic inside the components and proves what it
promises. That layer covers:

- the administrator's account directory, with search, status filters,
  approve, reject and re-price, status text and counts
  (`src/pages/Admin.tsx`, module `Admin`, class `AdminPanel`);
- the invoice draft editor, with line items, subtotal, 20% VAT, total and
  the submit checks (`src/pages/InvoiceCreate.tsx`, module `InvoiceCreate`,
  class `InvoiceDraft`);
- the authentication session: sign-in against the built-in account list,
  registration with its duplicate-business check, sign-out, and restoring
  a stored account on start (`src/hooks/useAuth.tsx`, module `AuthSession`,
  class `Session`);
- the sign-in and registration forms, with their validation rules, the
  active tab and the submitting flag (`src/pages/Auth.tsx`, module
  `AuthPage`, class `AuthScreen`);
- the dashboard figures: per-status invoice sums, status colours, the
  trial countdown and the greeting (`src/pages/Dashboard.tsx`, module
  `Dashboard`);
- the route guards and the route table (`src/App.tsx`, module `Routes`);
- the navigation bar's initials, `cn` class joiner and link visibility
  (`src/components/layout/Navbar.tsx`, module `Navbar`).

The account record is shared, from `src/types/index.ts` (module `Types`).
Shared helpers live in `common.dfy`:

- `Wrappers`: `Option`, `Result` and `Outcome`;
- `Seqs`: `Filter`, `Find` and `MapWhere`, the counterparts of
  `Array.prototype.filter`, `find` and a conditional `map`, with their laws;
- `Text`: ASCII case mapping, `includes`, `split` and `join`, with the
  split/join round trip.

State that the components keep in React state slots is modelled as the
fields of a class. Its handlers are methods whose `ensures` give the new
state in terms of the old one. Derived values are functions, and the
properties the source promises are proved as lemmas.

Time is an integer number of milliseconds since the epoch, and "now" is a
parameter. Money is an exact `real`. Fresh identifiers, such as the ones
the source takes from `Date.now()`, are parameters. The syntax check for
email addresses is a function parameter `isEmail`.

## Model

| member | source | states |
|---|---|---|
| `Admin.FilteredUsers` | src/pages/Admin.tsx:154-191 | The view is never longer than the directory, and each of its entries comes from the directory and passes the status rule of the filter value |
| `Admin.FilteredViewExact` | src/pages/Admin.tsx:154-191 | The two-stage view equals one `filter` of the directory by `Visible`: a record is kept iff its lower-cased name, business or email contains the lower-cased term and it passes the status rule of the filter value. So the view keeps the directory's order and each kept record as often as the directory holds it |
| `Admin.UnfilteredViewIsDirectory` | src/pages/Admin.tsx:154-191 | With an empty search term and the filter `all`, the view is the directory itself |
| `Admin.StatusFiltersExact` | src/pages/Admin.tsx:168-189 | Status filters: `pending` keeps exactly the unapproved accounts and `approved` exactly the approved ones. `trial` needs approval and a trial end strictly after now. `active` needs approval and status active. `canceled` looks only at the status. Any other value restricts nothing |
| `Admin.FilteredViewIdempotent` | src/pages/Admin.tsx:154-191 | Applying the same search and filter to the view leaves it unchanged |
| `Admin.SearchIgnoresCase` | src/pages/Admin.tsx:158-164 | Two search terms with the same lower-case form give the same view |
| `Admin.AdminPanel.ApplyFilters` | src/pages/Admin.tsx:154-192 | The step-by-step filter effect stores exactly the filtered view: order-preserving, and holding exactly the visible accounts |
| `Admin.ApproveStartsTrial` | src/pages/Admin.tsx:195-213 | Approval sets approved, a trial end five days after now and status trial, and changes nothing else in the record. The result keeps the lifecycle invariant and reads "Trial". At any time t it is in the `trial` view iff t is before the trial end |
| `Admin.ApproveById` | src/pages/Admin.tsx:195-213 | Approving an id keeps the list's length, and every record with that id comes out approved and in trial |
| `Admin.ApproveByIdPointwise` | src/pages/Admin.tsx:195-213 | Approving an id keeps the list's length and order, approves exactly the records with that id and leaves every other record as it was |
| `Admin.AdminPanel.ApproveUser` | src/pages/Admin.tsx:195-213 | The directory becomes the pointwise approval of the old one and keeps the lifecycle invariant |
| `Admin.RejectById` | src/pages/Admin.tsx:216-220 | Rejecting an id never lengthens the list, and every record left is from the old list and has a different id |
| `Admin.RejectByIdExact` | src/pages/Admin.tsx:216-220 | Rejecting an id keeps the rest in order and removes exactly the records with that id. As multisets, the records left plus the records with the id are the old list, so no other record is lost, even a duplicate |
| `Admin.AdminPanel.RejectUser` | src/pages/Admin.tsx:216-220 | The directory loses exactly the records with the id, keeps its order and keeps the lifecycle invariant |
| `Admin.SetAmountById` | src/pages/Admin.tsx:229-239 | Re-pricing an id keeps the list's length, and every record with that id carries the new amount |
| `Admin.SetAmountByIdPointwise` | src/pages/Admin.tsx:229-239 | Re-pricing an id changes only `subscriptionAmount` of the records with that id. Length, order and every other record stay the same |
| `Admin.AdminPanel.UpdateSubscriptionAmount` | src/pages/Admin.tsx:223-242 | With no selected account, or an amount that is NaN or not positive, nothing changes and the dialog stays open. Otherwise only the selected id's amount changes and the dialog closes |
| `Admin.ApproveAndRejectClearPending` | src/pages/Admin.tsx:195-220 | Approving an id and rejecting it leave the same pending count: both take every record with that id out of the pending set |
| `Admin.StatusBadgeClass` | src/pages/Admin.tsx:259-274 | The badge is yellow iff the account is unapproved, and gray iff it is approved but still in status pending |
| `Admin.StatusText` | src/pages/Admin.tsx:277-292 | The text is "Pending Approval" iff the account is unapproved. Otherwise it is one of "Trial", "Active", "Canceled" or "Unknown" |
| `Admin.StatusTextCases` | src/pages/Admin.tsx:259-292 | An unapproved account reads "Pending Approval" whatever its status. An approved one in status pending reads "Unknown", which a well-formed account never does. The text and the badge colour agree in all five cases: Pending Approval and yellow, Trial and blue, Active and green, Canceled and red, Unknown and gray |
| `Admin.PendingCount` | src/pages/Admin.tsx:341 | The pending card shows at most the number of accounts, and 0 iff every account is approved |
| `Admin.ActiveCount` | src/pages/Admin.tsx:359 | The active card shows at most the number of accounts, and 0 iff no approved account is in status active |
| `Admin.CountsMatchViews` | src/pages/Admin.tsx:341-359 | The pending card counts the rows reading "Pending Approval", which is the size of the `pending` view. The active card is the size of the `active` view |
| `Admin.MockDirectoryWellFormed` | src/pages/Admin.tsx:43-119 | Every record of the loaded directory keeps the lifecycle invariant |
| `Admin.MockPendingCount` | src/pages/Admin.tsx:43-119 | The loaded directory has two accounts awaiting approval |
| `Admin.MockActiveCount` | src/pages/Admin.tsx:43-119 | The loaded directory has one active subscription |
| `Admin.AdminPageRedirect` | src/pages/Admin.tsx:135-139 | The panel sends a visitor to /dashboard iff they are not the admin |
| `Admin.AdminPanel.constructor` | src/pages/Admin.tsx:124-132 | The panel starts loading, with empty lists, no search term, the filter `all`, no selection, both dialogs closed, and an edited amount of NaN (the parse of the empty field) |
| `Admin.AdminPanel.LoadUsers` | src/pages/Admin.tsx:142-151 | Loading installs the built-in directory as both the list and the view, and ends loading |
| `Admin.AdminPanel.SetSearchTerm` | src/pages/Admin.tsx:378 | The search box sets the term |
| `Admin.AdminPanel.SetFilter` | src/pages/Admin.tsx:395-412 | The filter menu sets the filter value |
| `Admin.AdminPanel.OpenUserDialog` | src/pages/Admin.tsx:508-511 | "View Details" selects the account and opens the details dialog |
| `Admin.AdminPanel.OpenEditDialog` | src/pages/Admin.tsx:514-518 | "Edit Subscription" selects the account, starts the amount field at its current amount and opens the edit dialog |
| `Admin.AdminPanel.SetEditedAmount` | src/pages/Admin.tsx:631 | The amount field holds the parsed amount |
| `InvoiceCreate.InvoiceDraft.constructor` | src/pages/InvoiceCreate.tsx:41-50 | A new draft has no customer and one blank row with id "1". It is dated now, due thirty days later, and has subtotal 0 |
| `InvoiceCreate.InvoiceDraft.SetCustomer` | src/pages/InvoiceCreate.tsx:162 | The customer selector sets the customer |
| `InvoiceCreate.InvoiceDraft.AddItem` | src/pages/InvoiceCreate.tsx:53-58 | A blank row (quantity 1, price 0) is appended after the unchanged earlier rows. The subtotal does not change |
| `InvoiceCreate.WithoutItem` | src/pages/InvoiceCreate.tsx:63 | Removing an id never lengthens the list, and every row left is from the old list and has a different id |
| `InvoiceCreate.InvoiceDraft.RemoveItem` | src/pages/InvoiceCreate.tsx:61-71 | With more than one row, the rows with the id are removed in order and exactly their amounts leave the subtotal. With one row nothing changes. With distinct ids the list never becomes empty |
| `InvoiceCreate.RemoveDropsAtMostOne` | src/pages/InvoiceCreate.tsx:61-71 | With distinct ids, removing an id drops at most one row |
| `InvoiceCreate.SubtotalSplitsById` | src/pages/InvoiceCreate.tsx:61-81 | The subtotal after removing an id plus the amounts of that id's rows is the old subtotal |
| `InvoiceCreate.UpdateById` | src/pages/InvoiceCreate.tsx:74-78 | The rows with the id get the new field value. Length, order and every other row stay the same |
| `InvoiceCreate.InvoiceDraft.UpdateItem` | src/pages/InvoiceCreate.tsx:74-78 | Only the given field of the rows with the id changes. Length, order and every other row stay the same |
| `InvoiceCreate.Subtotal` | src/pages/InvoiceCreate.tsx:81 | When no row amount is negative, the subtotal is not negative |
| `InvoiceCreate.SubtotalAppend` | src/pages/InvoiceCreate.tsx:81 | Appending a row adds its quantity times price to the subtotal |
| `InvoiceCreate.SubtotalOfZeroPrices` | src/pages/InvoiceCreate.tsx:81 | Rows priced at zero give a zero subtotal |
| `InvoiceCreate.SubtotalNonNegative` | src/pages/InvoiceCreate.tsx:81 | Non-negative quantities and prices give a non-negative subtotal |
| `InvoiceCreate.Tax` | src/pages/InvoiceCreate.tsx:83-84 | The VAT is a fifth of the subtotal |
| `InvoiceCreate.Total` | src/pages/InvoiceCreate.tsx:80-87 | The total is 1.2 times the subtotal, and total minus VAT is the subtotal |
| `InvoiceCreate.TwoLineExample` | src/pages/InvoiceCreate.tsx:81-87 | Two units at 100 and one at 50 give subtotal 250, VAT 50 and total 300 |
| `InvoiceCreate.InvalidItem` | src/pages/InvoiceCreate.tsx:105 | A row that passes the check has a description and a positive amount |
| `InvoiceCreate.HasInvalidItem` | src/pages/InvoiceCreate.tsx:105 | The scan reports true iff some row has an empty description, a quantity of at most 0 or a price of at most 0 |
| `InvoiceCreate.AcceptedItemsHavePositiveTotal` | src/pages/InvoiceCreate.tsx:105 | A non-empty list that passes the row check has a positive subtotal and total |
| `InvoiceCreate.InvoiceDraft.HandleSubmit` | src/pages/InvoiceCreate.tsx:90-116 | The draft is refused for a missing customer iff the customer is empty, before the rows are looked at. With a customer, it is refused iff some row is invalid. It is accepted iff there is a customer and every row is valid. Both refusals leave `isSubmitting` false. An accepted draft stays submitting and has a positive total |
| `InvoiceCreate.InvoiceDraft.FinishSubmit` | src/pages/InvoiceCreate.tsx:116-123 | When the request ends, submitting stops and the page goes to /dashboard |
| `AuthSession.LoginDecision` | src/hooks/useAuth.tsx:46-58 | Sign-in fails with "Invalid credentials" iff no account has exactly that email. Otherwise the first account with that email decides: unapproved with a non-admin email gives "pending approval", and anything else signs in as that account. The password plays no part |
| `AuthSession.Session.Login` | src/hooks/useAuth.tsx:46-76 | A refusal returns its error and changes neither the user nor the stored slot. Success sets the user to the matched account and stores that same record. After success, `isAdmin` holds iff the email is the admin email. Loading ends either way |
| `AuthSession.NewAccount` | src/hooks/useAuth.tsx:82-96 | A new record is unapproved, in status pending, and keeps the lifecycle invariant |
| `AuthSession.NewAccountIsPending` | src/hooks/useAuth.tsx:82-96 | A registered account is unapproved, with no trial, amount 9.99 and status pending, and it keeps the lifecycle invariant. Each of the seven form fields is copied when given and becomes the empty string when missing |
| `AuthSession.RegisterDecision` | src/hooks/useAuth.tsx:82-107 | Registration is refused with the duplicate-business error iff a known account has the same business name, address and postcode, compared case-sensitively. Otherwise it yields the new pending account |
| `AuthSession.Session.Register` | src/hooks/useAuth.tsx:78-124 | Registering returns the registration decision, leaves the signed-in user and the stored slot unchanged, and ends loading |
| `AuthSession.MockAccountDecisions` | src/hooks/useAuth.tsx:7-107 | With the built-in list, the admin email signs in as the admin record and every other email is unknown. Registering the admin's business again is refused. A different postcode is enough to register |
| `AuthSession.Session.constructor` | src/hooks/useAuth.tsx:29-30 | The provider starts with no user, loading, over whatever the slot holds |
| `AuthSession.Session.Restore` | src/hooks/useAuth.tsx:33-44 | On mount, a stored record that parses becomes the user. One that does not parse is removed and leaves the user as it was. Loading ends |
| `AuthSession.Session.IsAdmin` | src/hooks/useAuth.tsx:147 | `isAdmin` holds iff someone is signed in with the admin email |
| `AuthSession.Session.Logout` | src/hooks/useAuth.tsx:126-145 | Sign-out clears the user and the stored slot, ends loading, and leaves `isAdmin` false |
| `AuthSession.ReloadAfterLogin` | src/hooks/useAuth.tsx:33-61 | A second session mounted over the slot the first one wrote after sign-in restores the same user. Someone is signed in iff the sign-in was accepted |
| `AuthPage.MinLength` | src/pages/Auth.tsx:20-34 | A `min(n)` rule reports its message on its field iff the value is shorter than n |
| `AuthPage.EmailRule` | src/pages/Auth.tsx:19-27 | The email rule reports its message iff the value is not an email |
| `AuthPage.LoginIssues` | src/pages/Auth.tsx:18-21 | The login form passes iff the email is valid and the password has at least 6 characters. Each message appears iff its rule fails |
| `AuthPage.PersonIssues` | src/pages/Auth.tsx:27-29 | The name, email and password messages each appear iff their rule fails, and no other field is reported |
| `AuthPage.BusinessIssues` | src/pages/Auth.tsx:31-35 | The business name, address, city, postcode and phone messages each appear iff their minimum length is not met, and no other field is reported |
| `AuthPage.RegisterIssues` | src/pages/Auth.tsx:26-39 | Each field's message appears iff its rule fails. "Passwords don't match" is reported on `confirmPassword` iff the passwords differ |
| `AuthPage.MismatchRule` | src/pages/Auth.tsx:36-39 | The refinement reports "Passwords don't match" on `confirmPassword` iff the two passwords differ, and nothing otherwise |
| `AuthPage.RegisterIssuesLabelled` | src/pages/Auth.tsx:26-39 | Every reported issue carries the message of the rule on its field, so no other issue can appear |
| `AuthPage.RegisterIssuesEmptyIff` | src/pages/Auth.tsx:26-39 | The registration form passes iff every minimum length holds, the email is valid and the passwords agree |
| `AuthPage.RegisteredAccountCarriesForm` | src/pages/Auth.tsx:89-90 | The data passed to `register` carries every account field of the form, and the confirmation field has no influence. A successful registration yields a pending account with those fields |
| `AuthPage.AuthScreen.constructor` | src/pages/Auth.tsx:44-45 | The page opens on the sign-in tab, not submitting |
| `AuthPage.AuthScreen.SelectTab` | src/pages/Auth.tsx:125 | The tab strip switches the active tab |
| `AuthPage.AuthScreen.SubmitLogin` | src/pages/Auth.tsx:74-84 | An invalid form reports its issues, calls nothing, and leaves the page and the session as they were. A valid one calls sign-in. On acceptance, the session user and the stored slot become the account the sign-in decision picked, and the page goes to /dashboard. On refusal, the user, the slot and the page stay as they were. The tab is unchanged, and after a call both the page's submitting flag and the session's loading flag are off |
| `AuthPage.AuthScreen.SubmitRegister` | src/pages/Auth.tsx:86-97 | An invalid form calls nothing and leaves the session's loading flag as it was. A valid one is registered without its confirmation field. Success switches to the sign-in tab and a refusal leaves the tab alone. The signed-in user and the stored slot are unchanged either way. After a call, both the page's submitting flag and the session's loading flag are off |
| `Dashboard.ComputeStats` | src/pages/Dashboard.tsx:44-57 | The customer count is 12. With no negative amounts, each status sum is non-negative and paid + pending + overdue is at most the total |
| `Dashboard.StatusSumsWithinTotal` | src/pages/Dashboard.tsx:46-49 | With no negative amounts, each status sum is non-negative, and paid + pending + overdue is at most the total, since drafts count only towards the total |
| `Dashboard.AmountWithStatusCons` | src/pages/Dashboard.tsx:47-49 | A per-status sum counts an invoice's amount iff its status is exactly that status |
| `Dashboard.MockStats` | src/pages/Dashboard.tsx:24-56 | The built-in invoices give total 7051.50, paid 1250.00, pending 850.50, overdue 3200.75, and 12 customers |
| `Dashboard.StatusColor` | src/pages/Dashboard.tsx:74-87 | The colour is one of five badge classes, and it is gray iff the status is not paid, pending, overdue or draft |
| `Dashboard.StatusColorCases` | src/pages/Dashboard.tsx:74-87 | Paid, pending, overdue and draft get four different colours |
| `Dashboard.CeilDiv` | src/pages/Dashboard.tsx:98 | `Math.ceil(a / b)` is the integer r with (r - 1)·b < a ≤ r·b |
| `Dashboard.IsInTrial` | src/pages/Dashboard.tsx:90 | Someone in trial has a trial end and at least one day left |
| `Dashboard.DaysLeft` | src/pages/Dashboard.tsx:93-99 | Without a trial end the count is 0. Otherwise it is the integer n with (n - 1) days < time left ≤ n days |
| `Dashboard.TrialDaysLeft` | src/pages/Dashboard.tsx:90-99 | The user is in trial iff a trial end is set and at least one day is left. An expired trial never shows a positive count. Without a trial end, the count is 0 and the user is not in trial |
| `Dashboard.FreshTrialShowsFiveDays` | src/pages/Dashboard.tsx:90-99 | A trial ending five days from now is running and shows five days |
| `Dashboard.Greeting` | src/pages/Dashboard.tsx:110 | The greeting is never empty and never contains a space |
| `Dashboard.GreetingFirstWord` | src/pages/Dashboard.tsx:110 | The greeting shows the longest space-free prefix of the full name. It shows "User" when the name is missing, empty or starts with a space |
| `Dashboard.GreetingOfWords` | src/pages/Dashboard.tsx:110 | A name made of words joined by single spaces is greeted by its first word |
| `Routes.ProtectedRoute` | src/App.tsx:19-35 | The page renders only after loading with a signed-in user, and the only redirect is to /login, for a visitor |
| `Routes.ProtectedRouteCases` | src/App.tsx:19-35 | The spinner shows iff loading, whoever is signed in. After loading, a missing user is redirected to /login and a present one sees the page |
| `Routes.AdminRoute` | src/App.tsx:38-54 | The page renders only after loading for the admin, and the only redirect is to /dashboard, for anyone else |
| `Routes.AdminRouteCases` | src/App.tsx:38-54 | The spinner shows iff loading. After loading, only the admin email sees the page, and anyone else is redirected to /dashboard |
| `Routes.RouteElement` | src/App.tsx:61-76 | Every redirect of the table goes to /login or /dashboard, and the admin page renders only at /admin |
| `Routes.RouteTable` | src/App.tsx:61-76 | /login and /register redirect a signed-in user to /dashboard and otherwise show the sign-in page. /dashboard and /invoices/new are always behind the protected guard, and /admin behind the admin guard. Every other path is not-found |
| `Routes.GuardedPagesNeedUser` | src/App.tsx:19-76 | The dashboard, invoice and admin pages render only after loading with a signed-in user. The admin page renders iff the path is /admin and the admin is signed in |
| `Routes.RedirectsSettle` | src/App.tsx:19-76 | Following the table's redirects from any path reaches a spinner or a page within two hops |
| `Navbar.FirstCharsSplit` | src/components/layout/Navbar.tsx:38-44 | The first characters of the space-split segments are exactly the name's non-space characters that start the string or follow a space. Empty segments add nothing |
| `Navbar.Initials` | src/components/layout/Navbar.tsx:38-44 | The initials are the upper-cased word-starting characters of the name, in order |
| `Navbar.InitialsOfWords` | src/components/layout/Navbar.tsx:38-44 | For non-empty words joined by single spaces, there is one initial per word: the upper-cased first letter |
| `Navbar.FirstCharsOfWords` | src/components/layout/Navbar.tsx:41-42 | Non-empty segments give one character each: their first |
| `Navbar.AvatarText` | src/components/layout/Navbar.tsx:102 | The avatar shows "U" for an empty name. For a name that does not start with a space, it shows initials beginning with the name's first character upper-cased |
| `Navbar.Truthy` | src/components/layout/Navbar.tsx:264-266 | The result is no longer than the argument list. It holds only non-empty strings that were arguments, and every present, non-empty argument |
| `Navbar.TruthyAppend` | src/components/layout/Navbar.tsx:264-266 | The arguments contribute in turn: the result for a concatenation is the result for its first part followed by the result for its second, so nothing is reordered or merged |
| `Navbar.TruthyOne` | src/components/layout/Navbar.tsx:264-266 | One argument contributes itself when present and non-empty, and nothing otherwise |
| `Navbar.Cn` | src/components/layout/Navbar.tsx:264-266 | The class string is empty iff no argument is truthy |
| `Navbar.CnRoundTrip` | src/components/layout/Navbar.tsx:264-266 | With no truthy argument the result is "". When the arguments have no spaces, splitting the result on spaces gives back the truthy arguments in order |
| `Navbar.MenuLinks` | src/components/layout/Navbar.tsx:66-93 | The Login link shows iff the Dashboard link does not, and the Admin link only to someone signed in |
| `Navbar.MenuLinksCases` | src/components/layout/Navbar.tsx:66-93 | In both the desktop bar and the mobile menu (lines 178-205), the Dashboard, Invoices and Customers links appear iff someone is signed in. The Admin link appears iff the admin is signed in. Login and Register appear iff nobody is |

## Left out

- Rendering, styling, animation, toasts and the simulated request delays are not modelled. Each handler's resulting state change is modelled instead, and toasts become an error or outcome value.
- Browser storage and JSON are not modelled. The stored slot is `Empty`, `Holds(user)` or `Corrupt`. The model does not capture that `JSON.parse` turns dates back into strings.
- Calendar arithmetic is not modelled. `setDate(+5)` and `setDate(+30)` are taken as exactly 5 and 30 days of 86 400 000 ms, so daylight-saving shifts are ignored. Date display formatting is left out.
- Money uses exact reals, so IEEE double rounding in sums and in `Math.ceil(diff / day)` is not modelled.
- `Intl.NumberFormat` currency display is left out.
- The email check is a parameter `isEmail`, because zod's regular expression is not reproduced.
- String lengths count characters, where the source counts UTF-16 units.
- `toLowerCase` and `toUpperCase` are modelled on ASCII letters only.
- `parseFloat` of the edited amount is modelled as its result, NaN or a number. Infinity and the text itself are not modelled.
- The `parseInt(...) || 0` and `parseFloat(...) || 0` conversions of the invoice inputs are not modelled. `UpdateItem` takes the converted value.
- Route paths are matched exactly. The router's case-insensitive and trailing-slash matching is not modelled.
- Navbar: the scroll observer and the mobile-menu toggle are left out. Desktop and mobile show the same entries, which `MenuLinks` lists once.
- The dashboard's `isLoading` flag and the `setStats` call after its timer are not modelled. Only the computed figures are.
