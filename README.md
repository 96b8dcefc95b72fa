# NU mobile app core: a verified Dafny model

This project models the logic inside the React Native mobile app of the
Nahdlatul Ulama member portal (`mobile/`). That app is mostly presentation, and
six pieces of it hold real logic:

- **Loan calculator** of the cooperative screen (`calculateLoan`). From a
  hard-coded 12% annual rate it computes:
  - a fixed monthly installment, by the annuity formula;
  - the total payment and the total interest;
  - a month-by-month amortization schedule.

  It is modelled as a method whose schedule loop is a `while` loop. The loop invariants tie the
  method to the specification functions `Balance` and `Schedule`, and the
  lemmas prove what the formula is for:
  - the running balance reaches exactly zero after the last month;
  - the balance drops strictly every month;
  - the clamp at zero never changes a reported value;
  - the principal parts add up to the principal;
  - the interest parts add up to the reported total interest.

  JavaScript numbers are modelled by exact `real` arithmetic.
- **Authentication provider** (`AuthProvider`). Two fields, `isAuthenticated`
  and `currentUser`, sit over a fixed user table and a fixed password table.
  - `login` signs in exactly on a known e-mail with its password. Otherwise it
    raises "Invalid credentials" and changes nothing.
  - `logout` clears both fields.

  It is modelled as a class, and each of its methods is tied to a value-level
  transition function. Any run of logins and logouts keeps the invariant
  "authenticated exactly when a user is present, and that user is a table
  record".
- **Form validators** of the registration and payment screens. Each is an
  ordered chain of guards in which the first failing check picks the one
  message shown. The registration screen's `error` field is a small class.
- **List filters**:
  - blog posts, by category and a case-insensitive search over title and excerpt;
  - store products, by category and a case-insensitive search over name and seller;
  - donation programs, by type;
  - the home and profile menus, by the signed-in role, where a missing role
    counts as `member`.

  Every filter is an instance of one generic, order-preserving `Filter`.
- **Small helpers**:
  - the donation progress percentage;
  - the capitalised donation-type label;
  - the role label under the user's name.

Files: `option.dfy` (Option), `seqs.dfy` (`Array.prototype.filter` and
subsequences), `text.dfy` (ASCII case mapping and `String.prototype.includes`),
and one file per source file modelled.

## Model

| member | source | states |
|---|---|---|
| Seqs.Filter | mobile/src/screens/main/BlogScreen.tsx:70 | `Array.prototype.filter`: the result is an order-preserving subsequence of the input, no longer than it, holding exactly the elements that pass the test, each passing element as many times as it occurs in the input and every other element never |
| Seqs.FilterKeepsAll | mobile/src/screens/main/BlogScreen.tsx:70 | when every element passes the test, the filter returns the input unchanged |
| Seqs.FilterKeepsNone | mobile/src/screens/main/BlogScreen.tsx:70 | when no element passes the test, the filter returns the empty list |
| Seqs.FilterAppend | mobile/src/screens/main/HomeScreen.tsx:87-89 | filtering a concatenation gives the concatenation of the filtered parts (order is kept) |
| Seqs.FilterSameTest | mobile/src/screens/main/UMKMStoreScreen.tsx:66-71 | two tests that agree on every element of the list select the same list |
| Text.ToLowerChar | mobile/src/screens/main/BlogScreen.tsx:73 | an upper-case ASCII letter maps to its lower-case letter, and every other character is unchanged |
| Text.ToUpperChar | mobile/src/screens/main/DonationScreen.tsx:94 | a lower-case ASCII letter maps to its upper-case letter, and every other character is unchanged |
| Text.ToLower | mobile/src/screens/main/BlogScreen.tsx:73-74 | `toLowerCase`: same length, lower-cased character by character, and the result has no upper-case letter |
| Text.ToUpper | mobile/src/screens/main/DonationScreen.tsx:94 | `toUpperCase`: same length, upper-cased character by character |
| Text.ToLowerOfToUpper | mobile/src/screens/main/BlogScreen.tsx:73-74 | lower-casing an upper-cased string equals lower-casing the original, which is why the searches ignore case |
| Text.Includes | mobile/src/screens/main/BlogScreen.tsx:73-74 | `includes`: true exactly when the query occurs at some position of the string |
| Text.IncludesEmpty | mobile/src/screens/main/BlogScreen.tsx:72-74 | the empty query occurs in every string |
| Cooperative.Pow | mobile/src/screens/main/CooperativeScreen.tsx:41-42 | `Math.pow` for a natural exponent: the base multiplied by itself `n` times. `GrowthPowAboveOne` and `YearGrowth` state its values at the fixed growth factor |
| Cooperative.Balance | mobile/src/screens/main/CooperativeScreen.tsx:49-54 | the running, unclamped `remainingBalance` after `k` months. Each month it grows by the interest and drops by the payment. `BalanceClosedForm` gives it in closed form, and every loan lemma is stated against it |
| Cooperative.GrowthPowAboveOne | mobile/src/screens/main/CooperativeScreen.tsx:37-42 | with the fixed monthly rate 0.12 / 12, the compounding factor exceeds one for months >= 1, so the annuity denominator is never zero |
| Cooperative.AnnuityPayment | mobile/src/screens/main/CooperativeScreen.tsx:40-42 | the payment satisfies the annuity equation a·((1+r)^n − 1) = P·r·(1+r)^n exactly; for a positive principal it exceeds the first month's interest |
| Cooperative.Max | mobile/src/screens/main/CooperativeScreen.tsx:61 | `Math.max`: at least both arguments, and equal to one of them |
| Cooperative.EntryFor | mobile/src/screens/main/CooperativeScreen.tsx:52-62 | row `month`: it carries the month number and the payment. Principal plus interest equals the payment. The interest is the running balance before the month times the rate. The reported balance is the running balance after the month, clamped at zero, and so never negative |
| Cooperative.Schedule | mobile/src/screens/main/CooperativeScreen.tsx:48-63 | the schedule has `months` rows (none when months <= 0), and row i is the entry for month i + 1 |
| Cooperative.CalculateLoan | mobile/src/screens/main/CooperativeScreen.tsx:34-71 | the monthly payment is the annuity payment. The total is the payment times months, and the interest is the total minus the principal. The loop builds exactly `Schedule`: `months` rows numbered 1..months, each splitting the payment exactly, with non-negative reported balances |
| Cooperative.AmortizationSchedule | mobile/src/screens/main/CooperativeScreen.tsx:48-63 | the month-by-month loop, which updates the running balance and appends rows, produces exactly `Schedule` for any payment and term |
| Cooperative.BalanceClosedForm | mobile/src/screens/main/CooperativeScreen.tsx:49-55 | the running balance after k months is the principal compounded k times minus the compounded payments |
| Cooperative.FullyAmortized | mobile/src/screens/main/CooperativeScreen.tsx:39-55 | with the annuity payment, the running balance after the last month is exactly zero |
| Cooperative.BalanceStrictlyDecreases | mobile/src/screens/main/CooperativeScreen.tsx:49-55 | for a positive principal, the running balance never exceeds the principal and drops strictly every month |
| Cooperative.BalanceAntitone | mobile/src/screens/main/CooperativeScreen.tsx:49-55 | a later month never has a larger running balance |
| Cooperative.LastRowClearsLoan | mobile/src/screens/main/CooperativeScreen.tsx:51-62 | the last row of the schedule reports a remaining balance of exactly zero |
| Cooperative.ClampIsExactWithinTerm | mobile/src/screens/main/CooperativeScreen.tsx:54-61 | within the term the clamp `Math.max(0, …)` never changes a value: each reported balance is the running balance itself |
| Cooperative.ReportedBalanceNonIncreasing | mobile/src/screens/main/CooperativeScreen.tsx:51-62 | the reported remaining balances never increase along the schedule |
| Cooperative.PrincipalPartsTelescope | mobile/src/screens/main/CooperativeScreen.tsx:51-62 | the principal parts of the rows add up to the principal minus the running balance at the end |
| Cooperative.InterestIsPaymentsMinusPrincipal | mobile/src/screens/main/CooperativeScreen.tsx:52-60 | when every row splits the same payment, the interest parts add up to the payments minus the principal parts |
| Cooperative.ScheduleTotalsWhenRepaid | mobile/src/screens/main/CooperativeScreen.tsx:44-62 | a payment that clears the loan in `months` months repays exactly the principal, and its interest parts sum to payment × months − principal |
| Cooperative.ScheduleMatchesTotals | mobile/src/screens/main/CooperativeScreen.tsx:44-62 | with the annuity payment, the schedule's principal parts sum to the principal and its interest parts sum to the reported `totalInterest` |
| Cooperative.YearGrowth | mobile/src/screens/main/CooperativeScreen.tsx:37-42 | the compounding factor over twelve months at the fixed rate is exactly 1.01^12 = 1.126825030131969720661201 |
| Cooperative.ExampleFirstMonth | mobile/src/screens/main/CooperativeScreen.tsx:40-62 | a 12,000,000 loan over 12 months has an installment between 1,066,185.46 and 1,066,185.47. Its first month is charged 120,000 interest, so between 946,185.46 and 946,185.47 of that installment repays principal |
| Auth.DummyUsers | mobile/src/context/AuthContext.tsx:23-55 | every user record's e-mail equals its key, and the user and password tables have the same keys |
| Auth.DummyPasswords | mobile/src/context/AuthContext.tsx:51-55 | the password table: three e-mails, none with an empty password |
| Auth.ValidCredentials | mobile/src/context/AuthContext.tsx:76 | the login condition: it can only hold for a non-empty password and for an e-mail that is a user key, whose record carries that same e-mail |
| Auth.LoginStep | mobile/src/context/AuthContext.tsx:71-82 | login succeeds exactly on a known e-mail with the stored password. Success signs in that user. Failure raises "Invalid credentials" and leaves the state unchanged |
| Auth.LogoutStep | mobile/src/context/AuthContext.tsx:84-87 | logout leaves the state signed out with no user |
| Auth.RoleOf | mobile/src/context/AuthContext.tsx:93 | `userRole` is present exactly when a user is, and is that user's role |
| Auth.InitialStateConsistent | mobile/src/context/AuthContext.tsx:68-69 | the initial state (false, null) satisfies the invariant |
| Auth.ApplyKeepsConsistent | mobile/src/context/AuthContext.tsx:76-87 | each login attempt and each logout keeps "authenticated iff a user is present, and the user is a table record" |
| Auth.RunKeepsConsistent | mobile/src/context/AuthContext.tsx:68-93 | after any sequence of logins and logouts, the invariant holds, and the role is present exactly when authenticated |
| Auth.LogoutIdempotent | mobile/src/context/AuthContext.tsx:84-87 | logging out twice equals logging out once |
| Auth.LoginResult | mobile/src/context/AuthContext.tsx:76-81 | a successful login yields (true, `dummyUsers[email]`) from any state; a failed one leaves the state as it was |
| Auth.DummyAccountsSignIn | mobile/src/context/AuthContext.tsx:23-55 | the three table accounts sign in with their own passwords and get their roles; a wrong password is refused |
| Auth.AuthProvider.constructor | mobile/src/context/AuthContext.tsx:68-69 | both fields start signed out |
| Auth.AuthProvider.Login | mobile/src/context/AuthContext.tsx:71-82 | returns no error exactly on valid credentials. The new fields and the error are those of `LoginStep`, and on an error the fields are unchanged |
| Auth.AuthProvider.Logout | mobile/src/context/AuthContext.tsx:84-87 | the fields become those of `LogoutStep`: signed out, no user |
| Auth.AuthProvider.UserRole | mobile/src/context/AuthContext.tsx:93 | the role is present exactly when a user is, and it is that user's `role` |
| Register.InitialForm | mobile/src/screens/auth/RegisterScreen.tsx:17-24 | the form starts with every field empty and the role `member` |
| Register.MissingRequired | mobile/src/screens/auth/RegisterScreen.tsx:30 | the first guard: one of name, e-mail, phone, NIK, password or confirmation is empty (the branch is not among them) |
| Register.BranchMissing | mobile/src/screens/auth/RegisterScreen.tsx:45 | the fourth guard: the role is `admin_cabang` and the branch is empty |
| Register.ValidateRegistration | mobile/src/screens/auth/RegisterScreen.tsx:30-60 | each of the four messages is reported exactly when its check fails and every earlier check passed; the form is accepted exactly when all four checks pass |
| Register.RejectionMessages | mobile/src/screens/auth/RegisterScreen.tsx:30-48 | a rejection carries one of the four messages |
| Register.BranchIgnoredForMember | mobile/src/screens/auth/RegisterScreen.tsx:45 | for a `member` registration the branch never affects the outcome |
| Register.NikContentNotChecked | mobile/src/screens/auth/RegisterScreen.tsx:40 | only the NIK's length is checked: any 16 characters pass that check |
| Register.ExampleForms | mobile/src/screens/auth/RegisterScreen.tsx:17-48 | the untouched form is rejected as incomplete. A complete member form is accepted. A complete admin_cabang form without a branch is rejected with the branch message |
| Register.ErrorAfter | mobile/src/screens/auth/RegisterScreen.tsx:30-60 | a rejection sets the error to its message; an accepted form leaves the previous error in place |
| Register.RegisterScreen.constructor | mobile/src/screens/auth/RegisterScreen.tsx:25 | the error field starts empty |
| Register.RegisterScreen.HandleRegister | mobile/src/screens/auth/RegisterScreen.tsx:27-64 | returns the validation outcome, and the error field becomes `ErrorAfter` of the old error |
| Payment.BankOptions | mobile/src/screens/main/PaymentScreen.tsx:22-27 | four banks with pairwise distinct ids |
| Payment.ValidatePayment | mobile/src/screens/main/PaymentScreen.tsx:35-47 | "Please fill in all fields" exactly for a bank transfer with an empty bank, account or amount. "Please enter the amount" exactly for QRIS with an empty amount. The amount goes to confirmation exactly when neither guard fires, a confirmed amount is never empty, and no other error message is ever produced |
| Payment.QrisIgnoresBankFields | mobile/src/screens/main/PaymentScreen.tsx:41 | with QRIS the bank and account-number fields never affect the outcome |
| Payment.BankConfirmationIsComplete | mobile/src/screens/main/PaymentScreen.tsx:36-47 | a confirmed bank transfer had bank, account number and amount all filled in |
| Payment.InitialPaymentAsksForAmount | mobile/src/screens/main/PaymentScreen.tsx:30-44 | the screen as first shown (QRIS, nothing entered) asks for the amount |
| Blog.MockPosts | mobile/src/screens/main/BlogScreen.tsx:27-61 | the three posts of lines 27-61, in order; each is filed under one of the offered categories other than 'Semua' |
| Blog.MatchesCategory | mobile/src/screens/main/BlogScreen.tsx:71 | 'Semua' matches every post; any other category matches exactly the posts whose category equals it |
| Blog.MatchesSearch | mobile/src/screens/main/BlogScreen.tsx:72-74 | the lower-cased query occurs in the lower-cased title or in the lower-cased excerpt |
| Blog.FilteredPosts | mobile/src/screens/main/BlogScreen.tsx:70-76 | the result is an order-preserving subsequence, no longer than the input; a post is kept exactly when it passes both the category and the search test, and it is kept as many times as it occurs |
| Blog.EmptySearchMatches | mobile/src/screens/main/BlogScreen.tsx:72-74 | the empty query matches every post |
| Blog.InitialFilterListsAll | mobile/src/screens/main/BlogScreen.tsx:66-76 | the initial filter ('Semua', empty query) lists every post in order |
| Blog.SearchIgnoresCase | mobile/src/screens/main/BlogScreen.tsx:72-74 | an upper-cased query matches exactly the posts the query matches |
| Blog.SearchIgnoresContentAndAuthor | mobile/src/screens/main/BlogScreen.tsx:72-74 | content and author never affect the search |
| Blog.PendidikanIsEmpty | mobile/src/screens/main/BlogScreen.tsx:27-76 | 'Pendidikan' is among the offered categories, yet it lists no mock post, whatever the query |
| UmkmStore.MockProducts | mobile/src/screens/main/UMKMStoreScreen.tsx:26-57 | the three products of lines 26-57, in order; each is filed under one of the offered categories other than 'All' |
| UmkmStore.MatchesCategory | mobile/src/screens/main/UMKMStoreScreen.tsx:67 | 'All' matches every product; any other category matches exactly the products whose category equals it |
| UmkmStore.MatchesSearch | mobile/src/screens/main/UMKMStoreScreen.tsx:68-69 | the lower-cased query occurs in the lower-cased name or in the lower-cased seller |
| UmkmStore.FilteredProducts | mobile/src/screens/main/UMKMStoreScreen.tsx:66-71 | the result is an order-preserving subsequence; a product is kept exactly when it passes both the category and the search test, and it is kept as many times as it occurs |
| UmkmStore.EmptySearchKeepsCategory | mobile/src/screens/main/UMKMStoreScreen.tsx:63-71 | with an empty query the result is exactly the products that pass the category test |
| UmkmStore.SearchIgnoresCase | mobile/src/screens/main/UMKMStoreScreen.tsx:68-69 | an upper-cased query matches exactly the products the query matches |
| UmkmStore.UnusedCategoryIsEmpty | mobile/src/screens/main/UMKMStoreScreen.tsx:66-71 | a category that no mock product is filed under lists nothing, whatever the query |
| UmkmStore.CraftAndHomeDecorAreEmpty | mobile/src/screens/main/UMKMStoreScreen.tsx:26-71 | 'Craft' and 'Home Decor' are among the offered categories, yet they list no mock product, whatever the query |
| Donation.TypeName | mobile/src/screens/main/DonationScreen.tsx:79 | the type names 'zakat', 'infaq', 'wakaf', 'sedekah': non-empty and lower case |
| Donation.TypeNamesDistinct | mobile/src/screens/main/DonationScreen.tsx:79 | different types have different names |
| Donation.MockPrograms | mobile/src/screens/main/DonationScreen.tsx:29-63 | the three programs of lines 29-63, in order; each has a positive target and one of the offered types |
| Donation.ProgramsOfType | mobile/src/screens/main/DonationScreen.tsx:165-167 | the listed programs are an order-preserving subsequence holding exactly the programs of the selected type, each as many times as it occurs |
| Donation.MockSelections | mobile/src/screens/main/DonationScreen.tsx:29-66 | the default 'zakat' lists only program '1', and 'sedekah', which the screen offers, lists nothing |
| Donation.Progress | mobile/src/screens/main/DonationScreen.tsx:73-75 | progress × target = collected × 100. For a positive target it is at most 100 exactly when collected <= target, it is exactly 100 exactly when the target is met, and it is non-negative for a non-negative amount |
| Donation.MockProgramsBelowTarget | mobile/src/screens/main/DonationScreen.tsx:29-75 | every mock program's progress is below 100% |
| Donation.Capitalize | mobile/src/screens/main/DonationScreen.tsx:94 | same length, first character upper-cased, the rest unchanged |
| Donation.TypeLabel | mobile/src/screens/main/DonationScreen.tsx:94 | a button label is as long as the type name, starts with a capital, and matches the name after its first character |
| Donation.TypeLabels | mobile/src/screens/main/DonationScreen.tsx:79-94 | the four buttons read 'Zakat', 'Infaq', 'Wakaf' and 'Sedekah' |
| Donation.CapitalizeRoundTrip | mobile/src/screens/main/DonationScreen.tsx:94 | lower-casing the capitalised form of a string without capitals gives the string back |
| Donation.LabelRoundTrip | mobile/src/screens/main/DonationScreen.tsx:94 | lower-casing a label gives back the type's name, so distinct types get distinct labels |
| RoleMenu.EffectiveRole | mobile/src/screens/main/HomeScreen.tsx:88 | `userRole \|\| 'member'`: the user's role when present, `member` otherwise |
| RoleMenu.VisibleItems | mobile/src/screens/main/HomeScreen.tsx:87-89 | the visible menu is an order-preserving subsequence of the menu. An item is shown exactly when it is on the menu and its roles include the effective role, and it is shown as many times as it occurs |
| RoleMenu.VisibleSplit | mobile/src/screens/main/ProfileScreen.tsx:70-72 | the visible menu of a list split at any index is the visible menu of the front followed by that of the back |
| RoleMenu.VisibleAppend | mobile/src/screens/main/HomeScreen.tsx:87-89 | the visible part of a concatenated menu is the concatenation of the visible parts |
| RoleMenu.VisibleAll | mobile/src/screens/main/HomeScreen.tsx:87-89 | items that all admit the role are all shown |
| RoleMenu.VisibleNone | mobile/src/screens/main/HomeScreen.tsx:87-89 | items that all exclude the role are all hidden |
| RoleMenu.NoRoleSeesMemberMenu | mobile/src/screens/main/HomeScreen.tsx:88 | nobody signed in sees exactly a member's menu |
| RoleMenu.BranchText | mobile/src/screens/main/HomeScreen.tsx:123 | `${currentUser?.branch}`: the branch when present, and the text 'undefined' when it is missing |
| RoleMenu.RoleLabel | mobile/src/screens/main/HomeScreen.tsx:122-124 | 'Admin Pusat' for admin_pusat, 'Admin Cabang ' plus the branch for admin_cabang, 'Member' for a member and for nobody signed in |
| RoleMenu.RoleLabelsDistinct | mobile/src/screens/main/ProfileScreen.tsx:104-106 | users of different roles get different labels, whatever the branch |
| RoleMenu.DummyUserLabels | mobile/src/screens/main/ProfileScreen.tsx:104-106 | the table accounts read 'Member', 'Admin Pusat' and 'Admin Cabang Surabaya'; nobody signed in reads 'Member' |
| HomeScreen.MenuItems | mobile/src/screens/main/HomeScreen.tsx:21-64 | the six entries of lines 21-64, in order, with their ids, titles, icons, screens and roles |
| HomeScreen.Ids | mobile/src/screens/main/HomeScreen.tsx:21-64 | the ids of a menu, one per item, in order |
| HomeScreen.MenuRoles | mobile/src/screens/main/HomeScreen.tsx:21-64 | the six entries: the first four admit every role, and the last two admit only the admin roles |
| HomeScreen.MemberIds | mobile/src/screens/main/HomeScreen.tsx:21-50 | the first four entries are donation, umkm, cooperative and blog |
| HomeScreen.MemberSeesFirstFour | mobile/src/screens/main/HomeScreen.tsx:87-89 | a six-entry menu whose last two entries exclude members shows a member exactly the first four |
| HomeScreen.HomeMenuForMember | mobile/src/screens/main/HomeScreen.tsx:21-89 | a member, and nobody signed in, sees exactly donation, umkm, cooperative and blog |
| HomeScreen.HomeMenuForAdmins | mobile/src/screens/main/HomeScreen.tsx:21-89 | admin_pusat and admin_cabang each see all six entries |
| ProfileScreen.MenuItems | mobile/src/screens/main/ProfileScreen.tsx:22-65 | the six entries of lines 22-65, in order, with their ids, titles, icons, screens and roles |
| ProfileScreen.MenuRoles | mobile/src/screens/main/ProfileScreen.tsx:22-65 | every entry admits members; an admin role is admitted by personal, settings and help and by none of donations, transactions and loans |
| ProfileScreen.ProfileMenuByRole | mobile/src/screens/main/ProfileScreen.tsx:22-72 | a member, and nobody signed in, sees all six entries; either admin role sees only personal, settings and help, in that order |
| ProfileScreen.MemberSeesAll | mobile/src/screens/main/ProfileScreen.tsx:70-72 | a menu whose every entry admits members is shown whole to a member |
| ProfileScreen.AdminSeesOuterItems | mobile/src/screens/main/ProfileScreen.tsx:70-72 | a six-entry menu whose middle three entries exclude a role shows that role exactly the other three, in order |
| ProfileScreen.OuterTail | mobile/src/screens/main/ProfileScreen.tsx:70-72 | a five-entry menu whose first three entries exclude a role and whose last two admit it shows that role exactly the last two |

## Left out

- Text-to-number parsing. The `parseFloat`/`parseInt` of the loan inputs become numeric parameters, and their NaN results are not modelled. The payment amount stays the string as entered. Its `parseInt` only formats the confirmation alert's text (PaymentScreen.tsx:49), so it is left out with the alert. A non-numeric amount such as "abc" passes both guards and goes to confirmation, as in the source.
- Cooperative.CalculateLoan: requires months >= 1. A term of 0 makes the source divide by zero: the installment is `NaN` or infinite. A negative term gives a finite, negative installment, because `Math.pow(1.01, months) - 1` is then negative. For example, 12,000,000 over −12 months gives about −946,186. In that case the total payment is positive, the total interest negative, and the schedule empty. The model excludes both cases. The schedule function alone still covers months <= 0 and returns no rows.
- Cooperative.CalculateLoan: exact `real` arithmetic replaces IEEE-754 doubles. Rounding drift is not modelled, so in the running app the last balance need only be near zero. The clamp `Math.max(0, …)` is there for that drift.
- The interest rate is the constant 12% that the code hard-codes. A rate given as input, and a zero-rate case, do not exist in the code.
- Donation.Progress: requires a non-zero target. JavaScript would give `Infinity` or `NaN` there, and every program's target is positive.
- Case mapping is ASCII only. Unicode `toLowerCase`/`toUpperCase` and UTF-16 code units are not modelled, and every string in the mock data is ASCII apart from the menu icons.
- `login`'s one-second `setTimeout` delay and its promise are left out: login is a synchronous transition that returns an error or none.
- React plumbing is not modelled: `createContext`, `useAuth`'s provider check and `useState` hooks become plain fields. `setCalculation` becomes the method's result.
- `Alert.alert` dialogs, their callbacks and all navigation are left out: only the decision (which message, or go on) is modelled.
- Register.ValidateRegistration: the `catch` branch that sets "Registrasi gagal. Silakan coba lagi." cannot be reached, because nothing in the `try` block throws apart from the alert, which is not modelled.
- Locale formatting (`formatCurrency`, `formatPrice`, `toLocaleString`) is a foreign library and is not modelled.
- Rendering, styles, images, `LoginScreen.tsx` (a thin form over `login`) and `AppNavigator.tsx` (navigation set-up) are not part of this model.
- The home screen's admin-only "Quick Stats" block, the rendering at HomeScreen.tsx:150, is presentation and is not modelled.

## Notes on the source

- A registration that passes every check does not clear an earlier error message. `ErrorAfter` states this as the code does it.
- For an `admin_cabang` user without a branch, the template literal prints "Admin Cabang undefined". `RoleLabel` shows this through `BranchText`. Every such user in the table has a branch.
