# Expense tracker client — a verified model

This project models the client-side rules of a small React expense tracker:
- **The expense dashboard** (`src/pages/Dashboard.jsx`):
  - the expense list and the handlers that replace, prepend, filter and clear it;
  - the values derived from the list on every render: total spent, remaining, percentage used, per-category totals and the filtered list;
  - the `/` and Escape shortcut, the persisted category filter and logout;
  - the budget-update modal, the AI analyzer's request guard, and the file name of the PDF export.
- **The toast list** (`src/hooks/useToast.jsx`).
- **The route guards and the stored session** (`src/App.jsx`).
- **The validation schemas** (`src/hooks/useFormValidation.jsx`).
- **The budget progress ring** (`src/components/ProgressRing.jsx`).
- **The receipt download helpers** (`src/components/ReceiptModal.tsx`).
- **The sign-in and sign-up submissions** (`src/pages/Signin.jsx`).
- **The landing page's accordion and mobile menu** (`src/pages/Landing.jsx`).

How the model stands in for the parts it cannot run:
- **Server replies.** Every reply is a parameter of type `Outcome`:
  - `Ok(payload)`: the server answered with success.
  - `Refused(message)`: a non-ok reply, carrying the body's `message`, or `""` when it has none.
  - `Failed(message)`: something threw, such as the network or JSON parsing.
- **Confirmation.** `window.confirm` is a `confirmed` flag.
- **Library calls.** Each is a function parameter: `Number(...)`, `isNaN`, zod's email check, the "not in the future" date comparison, and `decodeURIComponent`.
- **Toast calls.** The pages' calls to the toast function are recorded in a `notices` list, in order. What the toast list then does with a call is the `Toast` module.
- **Local storage.** It is a class whose `entries` map keys to a string or a parsed profile.
- **Dates and ids.** The current date and the random toast id are parameters.

Modules, one per source file or concern:

| module | file | models |
|---|---|---|
| `Wrappers` | `wrappers.dfy` | `Option`, `Outcome`, and JavaScript's `s \|\| fallback` on strings |
| `Seqs` | `seqs.dfy` | `Array.prototype.filter` and its order, count and concatenation laws |
| `ProgressRing` | `progress_ring.dfy` | the percentage and the three colour bands |
| `Aggregates` | `aggregates.dfy` | the dashboard's derived values |
| `Toast` | `toast.dfy` | the `ToastProvider` item list and its pending removals |
| `Session` | `session.dfy` | local storage, the paired session keys, the route table |
| `Validation` | `validation.dfy` | the three zod schemas as issue lists, and `formatValidationError` |
| `Signin` | `signin.dfy` | the field-error map and the two submission flows |
| `Receipt` | `receipt.dfy` | `forceAttachment` and the download name |
| `ExportFilename` | `export_filename.dfy` | the `Content-Disposition` file-name resolution and the export outcome |
| `Expenses` | `dashboard.dfy` | the `Dashboard` and `Analyzer` state and handlers |
| `Landing` | `landing.dfy` | the accordion and the mobile menu |

The export resolves the file name by position. Section 4.3 of RFC 6266 recommends preferring the `filename*=UTF-8''…` form. The code instead takes whichever filename parameter comes first in the header (src/pages/Dashboard.jsx:989-993), and the model follows the code. `ExportFilename.PlainParameterFirst` and `ExportFilename.ExtendedParameterFirst` state this positional behaviour.

## Model

| member | source | states |
|---|---|---|
| Wrappers.Or | src/pages/Signin.jsx:40 | `s \|\| fallback` on strings is `s` when non-empty and the fallback otherwise |
| Seqs.Keep | src/hooks/useToast.jsx:9 | a filter is never longer than its input and keeps only elements that satisfy the predicate |
| Seqs.KeepIsSubseq | src/pages/Dashboard.jsx:162 | a filter keeps what it keeps in the original order |
| Seqs.KeepCount | src/pages/Dashboard.jsx:125 | a filter keeps each element that satisfies the predicate as often as it occurs, and no other |
| Seqs.KeepAll | src/hooks/useToast.jsx:9 | filtering with a predicate every element meets changes nothing |
| Seqs.KeepAppend | src/hooks/useToast.jsx:9 | filtering a concatenation filters each part |
| Seqs.KeepNone | src/pages/Dashboard.jsx:162 | filtering with a predicate no element meets leaves nothing |
| ProgressRing.Percentage | src/components/ProgressRing.jsx:2 | the percentage is 0 for a missing or zero limit; otherwise percentage × limit = spent × 100 |
| ProgressRing.RingColor | src/components/ProgressRing.jsx:7 | red iff over 100, yellow iff over 80 and at most 100, green iff at most 80 |
| ProgressRing.NoLimitOrNoSpendingIsGreen | src/components/ProgressRing.jsx:2-7 | no limit, a zero limit or zero spending always gives green |
| ProgressRing.BandsByInteger | src/components/ProgressRing.jsx:2-7 | with a positive limit: red iff spent > limit, and not green iff 5·spent > 4·limit |
| ProgressRing.SeverityMonotone | src/components/ProgressRing.jsx:2-7 | with a fixed positive limit, spending more never gives a less severe band |
| Aggregates.TotalSpentAppend | src/pages/Dashboard.jsx:153 | the total of a concatenation is the sum of the two totals |
| Aggregates.TotalSpentCons | src/pages/Dashboard.jsx:153 | the total of a list with an expense in front is its amount plus the rest's total |
| Aggregates.Categories | src/pages/Dashboard.jsx:157-160 | the categories in list order, one per expense |
| Aggregates.FirstIndex | src/pages/Dashboard.jsx:157-160 | the first position of a category, below the length exactly when it occurs |
| Aggregates.AddToFacts | src/pages/Dashboard.jsx:158 | one reduce step adds a new key at the end or updates an existing key in place, keeps keys distinct, adds the amount to that key only and to the values' sum |
| Aggregates.CategoryTotalsDistinct | src/pages/Dashboard.jsx:157-160 | each category occurs once among the keys of `categoryTotals` |
| Aggregates.CategoryTotalsLookup | src/pages/Dashboard.jsx:157-160 | `categoryTotals[c]` is the sum of the amounts in category `c`, and is absent exactly for categories no expense has |
| Aggregates.CategoryTotalsOrder | src/pages/Dashboard.jsx:157-160 | the keys are exactly the categories in the list, in first-encounter order |
| Aggregates.CategoryTotalsSum | src/pages/Dashboard.jsx:153-160 | the per-category totals add up to `totalSpent` |
| Aggregates.Remaining | src/pages/Dashboard.jsx:154 | remaining + totalSpent = the limit, or 0 without one |
| Aggregates.DisplayedRemaining | src/pages/Dashboard.jsx:240 | the shown value is never negative, at least `remaining`, and is `remaining` or 0 |
| Aggregates.RemainingColor | src/pages/Dashboard.jsx:242 | the card is rose iff `remaining < 0`, lime otherwise |
| Aggregates.RoseIffClamped | src/pages/Dashboard.jsx:240-242 | the card is rose exactly when the clamped display differs from `remaining` |
| Aggregates.PercentageUsedIsRing | src/pages/Dashboard.jsx:155 | the dashboard's percentage is the ring's for the same total and limit, and 0 with no or a zero limit |
| Aggregates.StatusAgreesWithRing | src/pages/Dashboard.jsx:254-258 | the status text and the ring's colour always name the same band |
| Aggregates.FilteredSpec | src/pages/Dashboard.jsx:162 | "all" gives the whole list; any other filter gives the order-preserving subsequence of exactly that category's expenses, each as often as it occurs |
| Aggregates.FilterLeavesTotalsAlone | src/pages/Dashboard.jsx:153-162 | the filtered rows add up to that category's total, while the headline total covers all expenses |
| Aggregates.WorkedExample | src/pages/Dashboard.jsx:153-160 | 8450 on Food and 5100 on Travel against 25000: total 13550, remaining 11450, 54.2 %, totals Food 8450 then Travel 5100 |
| Toast.WithoutSpec | src/hooks/useToast.jsx:9 | `remove(id)` drops every item with that id and keeps all others, as often as they occur and in order |
| Toast.WithoutAbsent | src/hooks/useToast.jsx:9 | removing an id that no item carries leaves the list unchanged |
| Toast.WithoutAppend | src/hooks/useToast.jsx:9 | removing one id commutes with appending an item of another id |
| Toast.ToastProvider.constructor | src/hooks/useToast.jsx:6 | the list starts empty, with no pending removal |
| Toast.ToastProvider.Add | src/hooks/useToast.jsx:12-23 | `add` appends exactly one `{id, type, text}` at the end, returns its id, and schedules one removal of it unless the duration is 0 (3000 by default) |
| Toast.ToastProvider.Remove | src/hooks/useToast.jsx:8-10 | the list becomes the old list without that id |
| Toast.ToastProvider.Fire | src/hooks/useToast.jsx:17-19 | a due timer stops pending and removes its id |
| Toast.ToastProvider.Click | src/hooks/useToast.jsx:32 | clicking a rendered toast removes it |
| Toast.AddThenExpire | src/hooks/useToast.jsx:12-23 | adding a toast with a fresh id and letting its timer fire restores the list and the timers |
| Session.LocalStorage.constructor | src/App.jsx:10 | storage starts empty |
| Session.LocalStorage.SetItem | src/pages/Signin.jsx:41-42 | `setItem` sets one key and leaves the others |
| Session.LocalStorage.RemoveItem | src/pages/Dashboard.jsx:105-106 | `removeItem` removes one key and leaves the others |
| Session.LimitOf | src/pages/Dashboard.jsx:154 | `user?.budgetLimit` is a number exactly when the profile holds one under that key |
| Session.StoreSession | src/pages/Signin.jsx:41-42 | both `et_token` and `et_user` are stored with the reply's values, signed-in iff the token is non-empty, other keys kept |
| Session.ClearSession | src/pages/Dashboard.jsx:105-106 | both keys are removed, nothing else changes, and no session remains |
| Session.GuestRoute | src/App.jsx:13-15 | redirects to `/dashboard` when signed in, renders the page otherwise |
| Session.ProtectedRoute | src/App.jsx:17-19 | renders the page when signed in, redirects to `/auth/signin` otherwise |
| Session.ExactlyOneSide | src/App.jsx:9-19 | for any stored state, the two visitor pages render exactly when the dashboard does not, and the dashboard renders iff a session is stored |
| Session.UnknownPathsGoHome | src/App.jsx:26-54 | `/` always renders the landing page; every path whose normalised form matches no pattern redirects there and settles on the landing page |
| Session.RouteIgnoresCaseAndTrailingSlash | src/App.jsx:26-54 | matching ignores ASCII case and a trailing slash: `path`, `path + "/"` and `path` in lower case show the same view |
| Session.TablePathsAreCanonical | src/App.jsx:26-46 | the four patterns of the table normalise to themselves |
| Session.NavigationSettles | src/App.jsx:13-54 | from any path at most one redirect is followed before a page renders, and that page agrees with the session |
| Session.EmptyTokenIsNoSession | src/App.jsx:10 | an empty stored token is no session |
| Validation.AllDigits | src/hooks/useFormValidation.jsx:14 | true iff every character is an ASCII digit |
| Validation.PhoneMatches | src/hooks/useFormValidation.jsx:14 | an accepted phone number has 2 to 16 characters, all digits except a leading `+`; after the optional `+` it starts with a nonzero digit followed by 1 to 14 digits |
| Validation.PhoneShape | src/hooks/useFormValidation.jsx:14 | conversely, an optional `+`, a nonzero digit and 1 to 14 further digits always match |
| Validation.PhoneAccepts | src/hooks/useFormValidation.jsx:14 | the pattern accepts `+919876543210` and `12` |
| Validation.PhoneRejects | src/hooks/useFormValidation.jsx:14 | the pattern rejects `1`, `+0123`, `++12` and 17 digits |
| Validation.SignupAccepts | src/hooks/useFormValidation.jsx:3-15 | sign-up passes iff name ≥ 2, valid email, password ≥ 6, budget absent, empty or `Number > 0`, phone absent, empty or matching the pattern |
| Validation.SignupIssuesFields | src/hooks/useFormValidation.jsx:3-15 | sign-up reports at most five issues, each about one of its five fields |
| Validation.SigninAccepts | src/hooks/useFormValidation.jsx:17-20 | sign-in passes iff the email is valid and the password is non-empty |
| Validation.ExpenseAccepts | src/hooks/useFormValidation.jsx:22-33 | an expense passes iff title ≥ 3, amount non-empty and `Number > 0`, category non-empty, date not in the future, frequency absent or weekly/monthly/yearly |
| Validation.EmptyTitleTwoIssues | src/hooks/useFormValidation.jsx:23 | an empty title fails both title checks, "required" first |
| Validation.FormatValidationError | src/hooks/useFormValidation.jsx:35-37 | the issue's message when present and non-empty, `"<field> is invalid"` otherwise |
| Signin.LastMessageFound | src/pages/Signin.jsx:25-28 | a field gets a message iff some issue is about it, and the message is that of its last issue |
| Signin.CollectFieldErrors | src/pages/Signin.jsx:25-28 | the loop leaves one key per field with an issue, holding the message of that field's last issue |
| Signin.TitleMessageFromTitleChecks | src/hooks/useFormValidation.jsx:22-33 | the expense form's title message depends only on the two title checks; every later check is about another field |
| Signin.EmptyTitleShowsLastIssue | src/hooks/useFormValidation.jsx:23 | for an empty title, the later issue overwrites the earlier one: the field shows "Title must be at least 3 characters" |
| Signin.SaveSession | src/pages/Signin.jsx:41-42 | writes `et_token` then `et_user`, giving the paired session write |
| Signin.SigninForm.constructor | src/pages/Signin.jsx:10-15 | empty fields, no errors, not loading |
| Signin.SigninForm.Edit | src/pages/Signin.jsx:60-78 | editing one field sets it and clears that field's error only |
| Signin.SigninForm.Submit | src/pages/Signin.jsx:17-49 | failed validation sets the field errors and returns before any request or storage write; success stores both keys and navigates to `/dashboard`; a non-ok reply shows its message or "Login failed" and stores nothing; loading ends false |
| Signin.PayloadOf | src/pages/Signin.jsx:144-150 | the budget is `Number(budgetLimit)` only when the field is non-empty; an empty phone becomes undefined |
| Signin.ValidPayload | src/pages/Signin.jsx:126-150 | after validation passes, the budget is absent iff the field was empty and is otherwise positive, and the phone is absent or matches the pattern |
| Signin.SignupForm.constructor | src/pages/Signin.jsx:110-118 | empty fields, no errors, not loading |
| Signin.SignupForm.Edit | src/pages/Signin.jsx:177-242 | editing one field sets it and clears that field's error only |
| Signin.SignupForm.Submit | src/pages/Signin.jsx:120-167 | as for sign-in, with the shaped payload sent and "Signup failed" as the default message |
| Receipt.IndexOf | src/components/ReceiptModal.tsx:6 | the first position at or after `from` where the pattern occurs, or none |
| Receipt.IncludesIff | src/components/ReceiptModal.tsx:6 | `includes` holds iff the pattern occurs somewhere |
| Receipt.ForceAttachment | src/components/ReceiptModal.tsx:4-9 | a URL without `/upload/` is unchanged; otherwise only the first `/upload/` becomes `/upload/fl_attachment/`, the text around it is kept, and the length grows by 14 |
| Receipt.ForcedIncludesAttachment | src/components/ReceiptModal.tsx:8 | the output contains `/upload/fl_attachment/` whenever the input contains `/upload/` |
| Receipt.ForceAttachmentTwice | src/components/ReceiptModal.tsx:8 | applying it twice inserts the segment twice, so it is not idempotent |
| Receipt.LastSegment | src/components/ReceiptModal.tsx:16 | `split('/').pop()` is the slash-free tail of the string after its last `/` |
| Receipt.LastSegmentAppend | src/components/ReceiptModal.tsx:16 | the last segment of a concatenation, by whether the second part holds a `/` |
| Receipt.LastSegmentAfterSlash | src/components/ReceiptModal.tsx:16 | whatever precedes a `/` does not affect the last segment |
| Receipt.ForceKeepsLastSegment | src/components/ReceiptModal.tsx:13-16 | `forceAttachment` never changes the last segment |
| Receipt.DownloadName | src/components/ReceiptModal.tsx:15-16 | the last segment when non-empty, `receipt_<date>.jpg` otherwise |
| Receipt.DownloadNameFallback | src/components/ReceiptModal.tsx:16 | the fallback is used exactly for an empty URL or one ending in `/` |
| Receipt.DownloadNameOfReceipt | src/components/ReceiptModal.tsx:13-16 | the downloaded file keeps the receipt URL's own name |
| ExportFilename.RunLength | src/pages/Dashboard.jsx:989 | a greedy `[^…]+` run: no stop character inside, and one (or the end) right after |
| ExportFilename.UtfAt | src/pages/Dashboard.jsx:989 | the first alternative's `utf` group is non-empty and holds no `;` |
| ExportFilename.PlainAt | src/pages/Dashboard.jsx:989 | the second alternative's `plain` group, taken after an optional quote, is non-empty and holds no `;` or `"` |
| ExportFilename.MatchAt | src/pages/Dashboard.jsx:989 | a match's `utf` group is non-empty without `;`; its `plain` group is non-empty without `;` or `"` |
| ExportFilename.Exec | src/pages/Dashboard.jsx:989 | `exec` returns the leftmost matching position: no earlier position matches |
| ExportFilename.Trim | src/pages/Dashboard.jsx:990 | `trim` cuts only white space from both ends, leaving a slice that neither starts nor ends with it |
| ExportFilename.TrimIdempotent | src/pages/Dashboard.jsx:990 | trimming twice is trimming once |
| ExportFilename.NameOfMatch | src/pages/Dashboard.jsx:990 | no match gives ""; a plain match gives its trimmed text; a `filename*` match gives its decoded, trimmed text, or fails when decoding throws |
| ExportFilename.PlainFirstIsUsed | src/pages/Dashboard.jsx:989-990 | when the first match is the plain form it names the file, with no `;` in the name, and decoding is not attempted |
| ExportFilename.RunLengthIs | src/pages/Dashboard.jsx:989 | a run bounded by a stop character has the length the greedy match takes |
| ExportFilename.PlainParameterFirst | src/pages/Dashboard.jsx:989-990 | a header starting with `filename=<name>` is named `<name>` trimmed, even when a `filename*` follows |
| ExportFilename.ExtendedParameterFirst | src/pages/Dashboard.jsx:989-990 | a header starting with `filename*=UTF-8''<v>` is named by `<v>` decoded and trimmed, even when a plain parameter follows |
| ExportFilename.ExportName | src/pages/Dashboard.jsx:992-993 | the header's name when non-empty, `expenses_<date>.pdf` otherwise, nothing when decoding threw |
| ExportFilename.ExportNameShape | src/pages/Dashboard.jsx:988-993 | the chosen name is never empty nor starts with white space; no filename parameter gives `expenses_<date>.pdf` |
| ExportFilename.ExportPdf | src/pages/Dashboard.jsx:980-1018 | a download happens iff the reply is ok and decoding succeeded, toasting `Exported: <name>`; otherwise an error toast, "Export failed" for a non-ok reply |
| Expenses.DeleteSpec | src/pages/Dashboard.jsx:125 | deleting removes every expense with the id, duplicates included, keeps the rest with their multiplicity and order, and is a no-op for an absent id |
| Expenses.DeleteLowersTotal | src/pages/Dashboard.jsx:125 | deleting lowers the total by exactly the amounts that carried the id |
| Expenses.SessionStaysPaired | src/pages/Dashboard.jsx:105-106 | sign-in, logout, the budget write while signed in and the filter write all keep `et_token` and `et_user` present together or absent together |
| Expenses.OnlyBudgetLimitChanges | src/pages/Dashboard.jsx:491-494 | a budget update changes `budgetLimit` only, in state and in the stored profile |
| Expenses.Dashboard.constructor | src/pages/Dashboard.jsx:28-42 | empty list, loading, form closed, no user, filter "all" |
| Expenses.Dashboard.Mount | src/pages/Dashboard.jsx:46-54 | without a session it leaves for `/auth/signin`; otherwise it reads the stored profile when there is one |
| Expenses.Dashboard.LoadFilter | src/pages/Dashboard.jsx:70-75 | a non-empty saved filter is restored; otherwise the filter is kept |
| Expenses.Dashboard.ChooseFilter | src/pages/Dashboard.jsx:77-79 | the chosen filter is set and saved under `et_categoryFilter` |
| Expenses.Dashboard.FetchExpenses | src/pages/Dashboard.jsx:87-102 | success replaces the list with the reply exactly; failure keeps the list, records the error and toasts; loading ends false |
| Expenses.Dashboard.OnExpenseAdded | src/pages/Dashboard.jsx:111-115 | the new expense becomes element 0, the old list follows unchanged, the total grows by its amount, and the form closes |
| Expenses.Dashboard.DeleteExpense | src/pages/Dashboard.jsx:117-131 | nothing changes unless confirmed; success filters the list by id; failure keeps the list and records "Delete failed" or the thrown message |
| Expenses.Dashboard.DeleteAllExpenses | src/pages/Dashboard.jsx:134-151 | nothing changes unless confirmed; success empties the list and toasts the server's message or the default; failure keeps the list; loading ends false |
| Expenses.Dashboard.KeyDown | src/pages/Dashboard.jsx:56-64 | `/` opens the form, and suppresses the default, only when it is closed; Escape closes it; other keys change nothing |
| Expenses.Dashboard.Logout | src/pages/Dashboard.jsx:104-109 | removes both session keys, toasts, and navigates to `/` |
| Expenses.Dashboard.OpenBudgetModal | src/pages/Dashboard.jsx:541 | the modal opens with the current limit (or 0) as its text and no error |
| Expenses.Dashboard.EditBudget | src/pages/Dashboard.jsx:596-599 | typing sets the text and clears the error |
| Expenses.Dashboard.CloseBudgetModal | src/pages/Dashboard.jsx:486 | cancel closes the modal |
| Expenses.Dashboard.SubmitBudget | src/pages/Dashboard.jsx:544-582 | an empty, non-numeric or non-positive input sets the inline error and sends nothing; success sets only `budgetLimit` in state and in stored `et_user` and closes the modal; failure keeps user, storage and modal and shows the message |
| Expenses.Dashboard.Export | src/pages/Dashboard.jsx:980-1018 | downloads under the resolved name and records the export's toast |
| Expenses.Analyzer.constructor | src/pages/Dashboard.jsx:884-887 | empty query and analysis, no error, not loading |
| Expenses.Analyzer.Analyze | src/pages/Dashboard.jsx:889-918 | an empty query sets "Please enter a question" and sends nothing; success shows the message or "No analysis available"; failure shows the message or "Analysis failed"; loading ends false |
| Landing.OpenFlags | src/pages/Landing.jsx:407 | an item is open iff its index equals `active` |
| Landing.OneOpenAtMost | src/pages/Landing.jsx:407 | exactly one item is open when `active` is an index, none otherwise |
| Landing.Accordion.constructor | src/pages/Landing.jsx:403 | the first item starts open |
| Landing.Accordion.Click | src/pages/Landing.jsx:412 | clicking the open item closes all; clicking a closed item opens exactly that one |
| Landing.ClickTwice | src/pages/Landing.jsx:412 | clicking the same item twice restores the state when it was open or all were closed |
| Landing.MobileMenu.constructor | src/pages/Landing.jsx:19 | the menu starts closed |
| Landing.MobileMenu.Toggle | src/pages/Landing.jsx:123 | the menu button flips `open` |
| Landing.MobileMenu.FollowLink | src/pages/Landing.jsx:144 | any drawer link closes the menu |

## Left out

- HTTP: `fetch`, `res.json()` and `res.blob()`. Their results are the `Outcome` parameters.
- The multipart body of a new expense, and the backend.
- `AddExpenseForm` (`src/pages/Dashboard.jsx:629-`): its submission, its receipt upload and its `FileReader` preview.
  - Its schema is modelled in `Validation`.
  - Its field-error map is the same loop as `Signin.CollectFieldErrors`.
  - The dashboard side of a successful add is `Expenses.Dashboard.OnExpenseAdded`.
- Expense editing (`editingId`) and the receipt modal's Escape handler.
- The analyzer's retry button, which clears the error and calls `Analyze` again.
- Floating-point display: ring geometry, `Math.round`, `toFixed`, `toLocaleString`, and the heatmap's percentage, intensity and sort.
- JavaScript numbers: amounts, limits and parsed inputs are integers.
  - `toNumber` returns an integer or NaN (None).
  - Fractional amounts and budgets are not modelled.
  - Integer overflow does not arise.
- String lengths count characters. JavaScript counts UTF-16 code units, so `min(2)`, `min(6)` and `min(3)` differ for text outside the Basic Multilingual Plane.
- zod's email check, the date comparison, `Number`, `isNaN` and `decodeURIComponent` are parameters. So are the current date and `Math.random`, whose ids are not guaranteed unique.
- Timers: a scheduled removal is a pending `Timer` that fires by an explicit `Fire`; real time is not modelled.
- JSON serialisation of `et_user`: the stored profile is a parsed value.
- React effects, re-renders, unmounting and the interleaving of in-flight requests: each handler runs to completion.
- DOM plumbing is not modelled:
  - the download anchors and object URLs;
  - the image `onError` fallback and the `/placeholder.svg` source;
  - the static marketing content of the landing page.
- Expenses.Dashboard.Mount: an `et_user` that is not valid JSON makes `JSON.parse` throw in the source; the model leaves the user unchanged instead.
- Expenses.Dashboard.SubmitBudget: a stored `et_user` that is not valid JSON would make `JSON.parse` throw after the toast in the source; the model spreads it as the empty object.
- Expenses.Dashboard.Export: a failure of `res.blob()` after a successful reply is not modelled.
- Aggregates.CategoryTotalsOrder: the first-encounter order holds for category names that are not array indices. JavaScript objects list names such as `"42"` first, in numeric order. A category named `__proto__` never becomes a key at all. The add-expense form offers only named categories.
- Aggregates.CategoryTotalsLookup: holds for category names that are not members of `Object.prototype`. For `constructor`, `toString`, `valueOf` and the like, the running total starts from the inherited function rather than 0, and `+` concatenates strings. For `__proto__`, the assignment does not create a key. The add-expense form offers only named categories.
- Aggregates.CategoryTotalsSum: holds under the same restriction as CategoryTotalsLookup, for the same reason.
- Session.Route: the router's percent-decoding of the path before matching is not modelled; paths are taken as already decoded. Folding only ASCII letters loses nothing, because the table's patterns are plain ASCII and no other character folds onto an ASCII letter.
- Expenses.Dashboard.DeleteAllExpenses: the button is disabled while loading or when the list is empty; the model lets the handler run anyway, as the handler itself does not check.
