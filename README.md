# minimal-erp, modelled in Dafny

A model of the logic in minimal-erp, a small ERP for Indian businesses. The back end is Django with the REST framework and the front end is React; the model covers the deterministic core of both.

**Back end**
- **GST engine.** Computes the CGST/SGST or IGST breakup of an amount, tax-exclusive or tax-inclusive, rounded half-up to paise. It also normalises GST state codes and decides intra- or inter-State supply.
- **Sales invoices.** Folds invoice lines into totals. Derives the payment status (unpaid, partial, paid, overdue) and mirrors it into the invoice status in memory; the model also tracks the status column of the invoice row, which a recalculation leaves stale. Handles payments and the invoice endpoints (filters, totals, mark paid, record payment, PDF flag).
- **Access control.** Role precedence, the permission classes, the attribute-path resolver, the record-level check of the role-scoped permission, role-scoped querysets and the dispatch gates.
- **Customer master record.** Its validators, `clean()` and `save`.
- **Sales, inventory and core endpoints.** Bulk activation and order transitions, customer balance, bulk price update and stock adjustment, the stock ledger, low stock, valuation, the dashboard date range and global search.

**Front end**
- **Tables.** Pagination, virtual scrolling, row selection and CSV export in the data table, and the bulk-operations provider.
- **Keyboard and search.** The keyboard-chord matcher and the command palette.
- **Editors.** The child-table and drag-and-drop list editors, the dynamic form's visibility and completion rules, the product variant generator, the stock indicator and the stock entry screen. Also the reports hub, and the address and contact editors.
- **Utilities.** The API path builders and the response normaliser, the HTTP client's base URL, token store and refresh queue, the query builder, the validators, and the grouping helpers.
- **Session and navigation.** The session (sign-in, refresh timer, stored tokens, permission check), the sidebar and the notification list.
- **Workflows.** The order approval and invoice submission workflows.

**How the model is built**
- Money is exact `real` rounded explicitly into whole paise (`int`). Python's `ROUND_HALF_UP` and the default half-even context are both modelled, each where the source uses it.
- Querysets are sequences. An ordered queryset keeps its order; where the source leaves the order open, the model fixes one and says so under Left out.
- State that the source updates in place becomes a `class` whose methods say the whole new state. This covers React state, module variables, Django model instances and tables.
- Pure logic is functions and lemmas.
- Clocks, random ids, JSON text, percent-encoding, number parsing, JWT decoding and code that is not in view are parameters. So are the guards and transitions of `SalesOrder`, the capability methods of `User` and `calculate_gst_breakdown`.

## Model

| member | source | states |
|---|---|---|
| Money.RoundHalfUp | backend/utils/gst_calculator.py:31-33 | rounding to paise lands within half a paisa of the value, and an exact tie goes away from zero |
| Money.RoundHalfUpExact | backend/utils/gst_calculator.py:31-33 | an amount already in whole paise is left as it is |
| Money.RoundHalfUpOdd | backend/utils/gst_calculator.py:31-33 | half-up rounding is symmetric about zero |
| Money.RoundHalfUpMonotone | backend/utils/gst_calculator.py:31-33 | a larger amount never rounds to fewer paise |
| GstCalculator.CalculateGst | backend/utils/gst_calculator.py:36-114 | a rate outside 0..100 is rejected, and otherwise any mode other than exclusive or inclusive is; the total tax is the sum of the three rounded amounts; inter-state puts everything in IGST, intra-state splits it equally into CGST and SGST at half the rate; each component is its exact tax rounded to paise on its own; the taxable value is the rounded pre-tax amount; exclusive totals are taxable plus tax, inclusive totals are the rounded input |
| GstCalculator.TaxWithinOnePaisa | backend/utils/gst_calculator.py:75-97 | the rounded total tax is within one paisa of the exact tax on the taxable value |
| GstCalculator.RoundedWithinHalfPaisa | backend/utils/gst_calculator.py:93-102 | the rounded taxable value, and in inclusive mode the total, are within half a paisa of their exact values |
| GstCalculator.InclusiveSplitsExactly | backend/utils/gst_calculator.py:69-75 | in inclusive mode, the exact taxable value plus the exact tax equals the amount given |
| GstCalculator.ExclusiveIntraStateExample | backend/utils/gst_calculator.py:56-57 | 18% exclusive on 1000 within one state gives taxable 1000.00, CGST 90.00, SGST 90.00 and total 1180.00 |
| GstCalculator.InclusiveInterStateExample | backend/utils/gst_calculator.py:58-59 | 18% inclusive on 1180 across states gives taxable 1000.00, IGST 180.00 and total 1180.00 |
| GstStateCodes.StateNamesKeys | backend/utils/gst_utils.py:12-53 | the table names exactly the codes 01 to 38, 97 and 99 |
| GstStateCodes.StateName | backend/utils/gst_utils.py:12-53 | a name is found exactly for a two-digit known code |
| GstStateCodes.ZFill | backend/utils/gst_utils.py:78 | zero-padding reaches the width and keeps the digits as its suffix |
| GstStateCodes.NormalizeStateCode | backend/utils/gst_utils.py:69-81 | a success is always a known two-digit code, the stripped text zero-padded to two; the non-numeric error is raised exactly when the stripped text is not all digits |
| GstStateCodes.NormalizeIdempotent | backend/utils/gst_utils.py:69-81 | normalising a normalised code returns it unchanged |
| GstStateCodes.NormalizeDigitString | backend/utils/gst_utils.py:72-81 | a one- or two-digit string naming a known code normalises to its two-digit form |
| GstStateCodes.NormalizeSevenStrings | backend/utils/gst_utils.py:72 | "7" and "07" both normalise to "07" |
| GstStateCodes.NormalizeSevenInt | backend/utils/gst_utils.py:72 | the integer 7 normalises to "07" |
| GstStateCodes.NormalizeSevenPadded | backend/utils/gst_utils.py:75 | blanks around the code are stripped before the digit test |
| GstStateCodes.IntCodeAsString | backend/utils/gst_utils.py:75 | a non-negative integer code is read through its decimal rendering |
| GstStateCodes.SameStrippedSameResult | backend/utils/gst_utils.py:75-81 | two inputs with the same stripped text normalise alike |
| GstStateCodes.LongDigitsUnknown | backend/utils/gst_utils.py:78-80 | more than two digits are never cut, so they are rejected as unknown ("007") |
| GstStateCodes.NegativeIntNotNumeric | backend/utils/gst_utils.py:75-77 | a negative integer is rejected as non-numeric because of its minus sign |
| GstStateCodes.NonDigitNotNumeric | backend/utils/gst_utils.py:76-77 | a code with a non-digit inside is rejected as non-numeric |
| GstStateCodes.NormalizeRejectExamples | backend/utils/gst_utils.py:76-80 | "007" is unknown; "7a" and -7 are not numeric |
| GstStateCodes.NormalizeTwoDigitExample | backend/utils/gst_utils.py:72 | "29", "26" and "25" normalise to themselves |
| GstStateCodes.NormalizeTwentyNineInt | backend/utils/gst_utils.py:72 | the integer 29 normalises to "29" |
| GstStateCodes.DetermineGstType | backend/utils/gst_utils.py:84-111 | the company code is normalised first and its error wins, then the customer's; on success the supply is intra-state exactly when both normalised codes are equal |
| GstStateCodes.DetermineGstTypeSymmetric | backend/utils/gst_utils.py:109-111 | swapping supplier and customer does not change the decision |
| GstStateCodes.DetermineGstTypeIntraExamples | backend/utils/gst_utils.py:100-105 | ('29','29') and ('07','07') are intra-state |
| GstStateCodes.DetermineGstTypeInterExamples | backend/utils/gst_utils.py:102-107 | (29, 7) and ('26','25') are inter-state |
| GstStateCodes.UtCodesAreStateCodes | backend/utils/gst_utils.py:56-66 | every Union Territory code is in the state code table |
| Money.RoundHalfEven | backend/accounting/models.py:160-167 | `quantize(Decimal('0.01'))` under the default context lands within half a paisa, and a tie goes to the even paisa |
| Money.RoundHalfEvenExact | backend/accounting/models.py:160-167 | an amount already in whole paise is left as it is |
| Money.RoundingRulesAgreeOffTies | backend/accounting/models.py:160-167 | away from an exact half paisa, half-even and half-up rounding agree |
| AccountingModels.ComputeTotals | backend/accounting/models.py:143-165 | each stored figure rounds its own exact sum: subtotal, the three components, total tax, and grand total as subtotal plus tax |
| AccountingModels.AccumulateLines | backend/accounting/models.py:148-154 | the loop's running sums equal the subtotal and the per-component tax over all lines |
| AccountingModels.SubtotalNonNegative | backend/accounting/models.py:148-150 | non-negative quantities and prices give a non-negative subtotal |
| AccountingModels.GrandTotalWithinOnePaisa | backend/accounting/models.py:156-165 | the stored grand total differs from stored subtotal plus stored total tax by at most one paisa |
| AccountingModels.DerivePaymentStatus | backend/accounting/models.py:177-191 | PAID exactly when the total is positive and fully paid; OVERDUE exactly when positive, not fully paid and past due; PARTIAL exactly when partly paid and not overdue; UNPAID otherwise |
| AccountingModels.MirrorStatus | backend/accounting/models.py:193-200 | a cancelled invoice stays cancelled; PAID and OVERDUE are copied into the status; PARTIAL moves only a draft; UNPAID changes nothing |
| AccountingModels.MirrorIdempotent | backend/accounting/models.py:193-200 | mirroring the same payment status twice is mirroring it once |
| AccountingModels.SettlingPaymentMakesPaid | backend/accounting/models.py:204-212 | a payment that covers the balance of a positive invoice, capped at the total, makes it PAID |
| AccountingModels.DeriveLine | backend/accounting/models.py:241-245 | the line total is quantity times price; a blank HSN code takes the product's; a given code is kept |
| AccountingModels.DeriveLineIdempotent | backend/accounting/models.py:241-245 | saving a line twice derives the same values as once |
| AccountingModels.Invoice.constructor | backend/accounting/models.py:99-123 | a new invoice is DRAFT, in memory and in its row, and UNPAID, with no lines and every amount zero |
| AccountingModels.Invoice.UpdatePaymentStatus | backend/accounting/models.py:174-200 | the payment status is derived from the amounts, due date and today, then mirrored into the in-memory status; no amount changes and, with `save=False` as every caller passes, nothing is written to the row |
| AccountingModels.Invoice.CalculateTotals | backend/accounting/models.py:136-172 | stores the rounded totals of the lines and the balance as grand total minus paid, then re-derives the payment status and mirrors it into the in-memory status; the row's status column keeps its old value, since lines 169-172 save every field but `status` |
| AccountingModels.Invoice.ApplyPayment | backend/accounting/models.py:204-214 | a quantized amount of 0 or less changes nothing; otherwise the paid amount grows, capped at the grand total, the balance is what remains, the status is re-derived and saved to the row; a consistent balance stays consistent |
| AccountingModels.Invoice.SaveLine | backend/accounting/models.py:241-249 | the derived line is added and the invoice totals are recalculated and saved; the row's status column keeps its old value |
| AccountingModels.Invoice.CalculateTotalsSavingStatus | backend/accounting/models.py:136-172 | corrected: the same totals, payment status and in-memory status as `CalculateTotals`, and the row's status column equals the in-memory status |
| AccountingModels.Invoice.SaveLineSavingStatus | backend/accounting/models.py:241-249 | corrected: the derived line is added, the totals recalculated, and the row's status column equals the mirrored status |
| AccountingModels.OverdueLineLeavesRowDraft | backend/accounting/models.py:169-172 | as written: a DRAFT invoice past its due date that gains a one-rupee line is OVERDUE in memory and its row's payment status is OVERDUE, but the row's status stays DRAFT |
| AccountingModels.OverdueLineMarksRowOverdue | backend/accounting/models.py:169-172 | corrected: the same line leaves the row's status OVERDUE, as the in-memory status |
| AccountingViews.FilterInvoices | backend/accounting/views.py:30-45 | a present, non-empty customer or date parameter that does not convert is an error; otherwise a row is kept exactly when it passes every filter whose parameter is present and non-empty: status, customer, from-date and to-date |
| AccountingViews.NoQueryKeepsAll | backend/accounting/views.py:37-45 | with no parameters the scoped rows come back unchanged |
| AccountingViews.MoreFiltersNarrow | backend/accounting/views.py:37-38 | turning on the status filter fails exactly when the wider query fails, and otherwise can only remove rows |
| AccountingViews.SameIdSameRows | backend/accounting/views.py:39-40 | two customer parameters that convert to the same id select the same rows |
| AccountingViews.TotalsAction | backend/accounting/views.py:56-67 | the six reported totals are those computed from the invoice's lines; the row's status column is not written |
| AccountingViews.MarkPaid | backend/accounting/views.py:90-94 | paying the outstanding amount makes an invoice with a positive total PAID, its payment status the derived one and its status the mirror of it, saved to the row; a fully paid invoice is left alone; the totals, lines, GST type, due date and PDF flag do not change |
| AccountingViews.DecidePayment | backend/accounting/views.py:96-106 | an unparsable amount is a 400 "Invalid amount"; a non-positive one a 400 "Amount must be positive"; a positive finite one is applied; NaN and +Infinity raise |
| AccountingViews.ResponseOf | backend/accounting/views.py:103-107 | the response is 200 exactly when the amount was applied |
| AccountingViews.TinyPaymentIsNoOp | backend/accounting/views.py:104-106 | an amount below half a paisa passes the positivity check yet quantizes to zero |
| AccountingViews.RecordPayment | backend/accounting/views.py:96-107 | a rejected amount leaves the invoice untouched; an accepted one raises the paid amount, capped at the grand total; the balance is the remainder, the payment status is derived again and the status mirrors it and is saved to the row; lines, GST type, due date and PDF flag are unchanged |
| AccountingViews.GeneratePdf | backend/accounting/views.py:75-81 | only the PDF flag changes, to true, and the response is 200 |
| Roles.Rank | backend/authentication/models.py:89-90 | admin ranks 3, manager 2, staff 1, and any other role 0 |
| Roles.IsAdmin | backend/authentication/models.py:68-70 | exactly the role ranked highest |
| Roles.IsManager | backend/authentication/models.py:72-74 | exactly the roles ranked manager or higher |
| Roles.IsStaffRole | backend/authentication/models.py:76-78 | exactly the three defined roles |
| Roles.HasRole | backend/authentication/models.py:80-82 | equal roles rank equally, and two defined roles of equal rank are the same |
| Roles.HasRoleAtLeast | backend/authentication/models.py:84-90 | admin is at least any role, manager at least all but admin, staff at least staff and unknown roles, and any role at least an unknown one |
| Roles.RolePredicatesAreThresholds | backend/authentication/models.py:68-90 | `is_admin`, `is_manager` and `is_staff_role` hold exactly when the role is at least admin, manager and staff |
| Roles.HasRoleAtLeastReflexive | backend/authentication/models.py:84-90 | every role is at least itself |
| Roles.HasRoleAtLeastTransitive | backend/authentication/models.py:84-90 | the precedence order is transitive |
| Roles.HasRoleAtLeastTotal | backend/authentication/models.py:84-90 | any two roles are comparable |
| Roles.PrecedenceExamples | backend/authentication/tests/test_roles.py:25-27 | admin is at least manager, manager at least staff, and staff not at least manager |
| Roles.UnknownRoleRanksLowest | backend/authentication/models.py:90 | a role outside the three is at least exactly the other unknown roles |
| Roles.HasModulePerms | backend/authentication/models.py:94-101 | an admin may see every app; anyone else gets the base answer |
| Permissions.CallCapability | backend/authentication/permissions.py:51 | a capability method answering true allows and one answering false denies; a missing or non-callable capability raises |
| Permissions.IsAdminPermission | backend/authentication/permissions.py:35-38 | allowed exactly for an authenticated user whose role is admin |
| Permissions.IsManagerOrAdminPermission | backend/authentication/permissions.py:41-45 | allowed exactly for an authenticated manager or admin |
| Permissions.CapabilityPermission | backend/authentication/permissions.py:48-73 | the anonymous user is denied; an authenticated one is allowed exactly when the capability method answers true |
| Permissions.ReadOnlyOrViewer | backend/authentication/permissions.py:76-84 | GET, HEAD and OPTIONS are allowed exactly for authenticated users; other verbs only for authenticated users whose `is_viewer()` is false |
| Permissions.PermissionClassExamples | backend/authentication/tests/test_roles.py:41-45 | an admin passes `IsAdmin` and may GET; a viewer fails `IsAdmin` and may not POST |
| Permissions.FindDunder | backend/authentication/permissions.py:104 | finds the first "__" at or after a position, or none |
| Permissions.SplitDunderJoin | backend/authentication/permissions.py:104 | joining the parts of `split("__")` with "__" gives the path back |
| Permissions.SplitDunderPartsClean | backend/authentication/permissions.py:104 | no part of the split contains "__" |
| Permissions.ResolveFromNull | backend/authentication/permissions.py:105-107 | once the walk reaches `None` it stays there |
| Permissions.ResolvePathAppend | backend/authentication/permissions.py:104-108 | walking a longer path continues from where the shorter walk ended |
| Permissions.ResolveAttr | backend/authentication/permissions.py:99-108 | a falsy object or path gives `None`; otherwise the attribute walk along the "__" parts |
| Permissions.ResolveAttrLoop | backend/authentication/permissions.py:103-108 | the loop that stops at the first `None` computes the attribute walk |
| Permissions.ObjectDecision | backend/authentication/permissions.py:145-176 | anonymous is denied; admin granted; a manager is denied only when both departments are set and differ; anyone else is granted only as the record's owner; every denial carries one of the three messages |
| Permissions.ManagerWithoutDepartmentAllowed | backend/authentication/permissions.py:159-166 | a manager without a department, or a record without one, is never denied |
| Permissions.RoleScopedPermission.constructor | backend/authentication/permissions.py:122 | the message starts as the default one |
| Permissions.RoleScopedPermission.HasPermission | backend/authentication/permissions.py:139-143 | every authenticated user passes; a denial sets the authentication message |
| Permissions.RoleScopedPermission.HasObjectPermission | backend/authentication/permissions.py:145-176 | allowed exactly when the decision grants, and a denial sets the decision's message |
| RoleScope.DepartmentLookup | backend/authentication/mixins.py:21-23 | the department field when given, else `<owner_field>__department`, else none |
| RoleScope.ScopeQueryset | backend/authentication/mixins.py:13-36 | only given records come back; anonymous sees none and admin all; a manager sees exactly the records owned or in the department, whichever lookups exist; anyone else sees exactly the records they own |
| RoleScope.ManagerWithoutLookupsSeesNothing | backend/authentication/mixins.py:25-31 | a manager with no owner field and no department of their own sees nothing |
| RoleScope.SplitTwo | backend/authentication/permissions.py:104 | "a__b" splits into its two halves when neither holds "__" |
| RoleScope.DepartmentPathSplit | backend/authentication/mixins.py:23 | the derived department lookup splits into the owner field and "department" |
| RoleScope.SeededLookups | backend/authentication/mixins.py:28-30 | on a seeded record, the owner path reaches the creator and the department path the creator's department |
| RoleScope.SeededOwnRecordOnly | backend/authentication/tests/test_api_permissions.py:39-55 | each seeded non-manager user sees exactly the one record they created |
| RoleScope.SeededManagerSees | backend/authentication/mixins.py:25-31 | for a manager with a department, a seeded record is visible when they created it or it belongs to their department |
| RoleScope.SeededManagerSeesDepartment | backend/authentication/tests/test_api_permissions.py:39-55 | the seeded Sales manager sees exactly the three Sales records, in order |
| RoleScope.SeededAdminSeesAll | backend/authentication/tests/test_api_permissions.py:39-55 | the seeded admin sees all five records |
| RoleScope.CapabilityGate | backend/authentication/mixins.py:46-60 | anonymous is forbidden with "Authentication required"; with no capability set the request proceeds; otherwise it proceeds exactly when the capability is a method answering true |
| RoleScope.CapabilityGateAgreesWithPermission | backend/authentication/mixins.py:46-60 | wherever the permission class does not raise, the dispatch gate proceeds exactly when the permission allows |
| RoleScope.ManagerOrAdminGate | backend/authentication/mixins.py:63-73 | proceeds exactly when `IsManagerOrAdmin` would allow |
| RoleScope.AdminGate | backend/authentication/mixins.py:76-86 | proceeds exactly when `IsAdmin` would allow |
| RoleScope.OwnerLookup | backend/authentication/mixins.py:102-104 | the owner field when set and non-empty, else none |
| RoleScope.GetQueryset | backend/authentication/mixins.py:115-148 | anonymous requests fail; the rest get the scoped records under the view's lookups, all taken from the base queryset |
| RoleScope.DepartmentLookupIdempotent | backend/authentication/mixins.py:106-136 | passing the computed department lookup back in as the department field gives it unchanged |
| SalesModels.GstinMessageExampleValid | backend/sales/models.py:8-12 | the example GSTIN quoted in the validator's message matches the pattern |
| SalesModels.ValidGstin | backend/sales/models.py:8-12 | a match is fifteen characters, or sixteen ending in a newline; on fifteen characters exactly the GSTIN pattern |
| SalesModels.ValidStateCode | backend/sales/models.py:15-19 | a match is two characters, or three ending in a newline; two characters match exactly when both are digits |
| SalesModels.ValidPhone | backend/sales/models.py:22-25 | a match is 6 to 20 characters, or 21 ending in a newline |
| SalesModels.FieldErrors | backend/sales/models.py:46-118 | a field is reported exactly when its raw value fails its bound or validator; the credit limit is checked as an exact number, not as a decimal with its written digits |
| SalesModels.TextFieldErrors | backend/sales/models.py:46-74 | the code and the name fail when empty or too long; the contact when too long; phone and e-mail only when non-empty and too long or malformed |
| SalesModels.CodedFieldErrors | backend/sales/models.py:86-113 | a non-empty GSTIN or state code fails when too long or not matching its pattern; the credit limit fails when negative, when its exact value needs more than two decimal places or when it reaches 10^12; payment terms outside 0..3650 fail |
| SalesModels.StateCodeFieldExact | backend/sales/models.py:15-19 | a state code passes exactly when empty or two digits, the length bound ruling out the trailing newline `$` allows |
| SalesModels.GstinFieldExact | backend/sales/models.py:8-12 | a GSTIN passes exactly when empty or the fifteen-character pattern |
| SalesModels.PhoneFieldExact | backend/sales/models.py:22-25 | a phone passes exactly when empty or 6 to 20 allowed characters |
| SalesModels.CleanNormalises | backend/sales/models.py:136-148 | `clean()` reaches the normal form, touches only the code, the name and the GSTIN, and leaves empty values and a missing GSTIN alone |
| SalesModels.CleanFixesCleaned | backend/sales/models.py:136-148 | a record already in normal form is unchanged |
| SalesModels.CleanIdempotent | backend/sales/models.py:136-148 | cleaning twice is cleaning once |
| SalesModels.WhitespaceNameCleanedToEmpty | backend/sales/models.py:52-55 | a blank-looking name passes the field check and `clean()` then empties it |
| SalesModels.Customer.constructor | backend/sales/models.py:46-118 | a new customer has the model's defaults: no GSTIN, zero credit limit and terms, active, not yet saved |
| SalesModels.Customer.Clean | backend/sales/models.py:136-148 | the record is rewritten to its cleaned form |
| SalesModels.Customer.Save | backend/sales/models.py:150-153 | the raw values are validated, including that the cleaned code belongs to no other customer; the record is cleaned either way and saved exactly when there was no error |
| SalesModels.Customer.SaveCleanFirst | backend/sales/models.py:136-153 | the cleaned values are validated, including code uniqueness, and saved when they have no error; a saved code belongs to no other customer |
| SalesModels.SaveErrors | backend/sales/models.py:46-50 | each field fails exactly when its own check fails; the customer code also fails when its cleaned form belongs to another customer; no error exactly when both hold |
| SalesModels.DuplicateCodeRefused | backend/sales/models.py:46-50 | a customer otherwise valid whose code is taken fails on the customer code alone |
| SalesModels.LowercaseGstinRejected | backend/sales/models.py:147-153 | a lower-case GSTIN fails validation although its cleaned form would pass |
| SalesModels.CleanFirstAcceptsLowercase | backend/sales/models.py:147-148 | cleaning turns the lower-case GSTIN into a valid upper-case one |
| SalesViews.SalesPermission | backend/sales/views.py:47-57 | anonymous is refused; safe methods pass for any authenticated user; writes pass for a superuser, an admin or a manager |
| SalesViews.SalesWriteIsManagerOrAdmin | backend/sales/views.py:54-57 | for a non-superuser's write it agrees with the role permission class `IsManagerOrAdmin` |
| SalesViews.FilterCustomers | backend/sales/views.py:81-92 | a customer is kept exactly when its name contains the name parameter and either address contains the city parameter, ignoring case, each filter only when its parameter is non-empty |
| SalesViews.NoCustomerFilterKeepsAll | backend/sales/views.py:87-92 | without parameters every customer is listed in order |
| SalesViews.OpenInvoices | backend/sales/views.py:109-112 | exactly the customer's ISSUED and PARTIAL invoices |
| SalesViews.AllocationsTo | backend/sales/views.py:114 | exactly the allocations applied to those invoices |
| SalesViews.Balance | backend/sales/views.py:102-123 | the balance is invoiced minus allocated, rounded to the nearest paisa, and a tie goes to the even paisa |
| SalesViews.BalanceWithoutOpenInvoices | backend/sales/views.py:113-116 | with no open invoices the balance is zero, whatever the allocations |
| SalesViews.BalanceIgnoresOtherInvoices | backend/sales/views.py:109-113 | a draft, paid or cancelled invoice, or another customer's, does not move the balance |
| SalesViews.BalanceIgnoresOtherAllocations | backend/sales/views.py:114-115 | an allocation to an invoice that is not open does not move the balance |
| SalesViews.BulkSetActive | backend/sales/views.py:126-136 | the listed customers get the flag, the rest are unchanged, and the count is the number of listed rows |
| SalesViews.BulkSetActiveEffect | backend/sales/views.py:126-136 | every listed customer ends with the requested flag, the rest keep theirs, and an empty list updates nothing |
| SalesViews.Pass | backend/sales/views.py:194-231 | a pass handles rows in order; it stops early only when exceptions end the request, and then at the first row whose transition raises |
| SalesViews.PassReports | backend/sales/views.py:197-201 | the reported ids are those of the changed orders among the handled ones, in table order |
| SalesViews.PassReportsOnlyChangedRequested | backend/sales/views.py:198-201 | every reported id was requested and names an order the pass changed |
| SalesViews.PassChangesOnlyChangedRows | backend/sales/views.py:198-229 | orders not requested, or not changed by their step, are left as they were |
| SalesViews.UnknownStatusChangesNothing | backend/sales/views.py:219-229 | a status other than confirmed, cancelled or delivered changes and reports nothing |
| SalesViews.PassStopsForGood | backend/sales/views.py:198-201 | once a pass has stopped, later rows do not restart it |
| SalesViews.OrderTable.constructor | backend/sales/views.py:139 | the table holds the given orders |
| SalesViews.OrderTable.RunPass | backend/sales/views.py:198-231 | the loop computes the pass, and the table becomes the handled rows followed by the untouched rest |
| SalesViews.OrderTable.BulkConfirm | backend/sales/views.py:194-202 | succeeds exactly when no confirmation raised, and then reports the confirmed ids |
| SalesViews.OrderTable.BulkCancel | backend/sales/views.py:204-212 | succeeds exactly when no cancellation raised, and then reports the cancelled ids |
| SalesViews.OrderTable.BulkStatus | backend/sales/views.py:214-232 | always succeeds; a raising order is skipped; reports the changed ids |
| SalesViews.SingleTransition | backend/sales/views.py:170-192 | a failing guard is a 400 with the action's detail; otherwise the transition is applied and the order returned |
| InventoryViews.SetPrice | backend/inventory/views.py:46-50 | only the product with that id gets the new selling price; ids and every other row are unchanged |
| InventoryViews.PriceUpdates | backend/inventory/views.py:38-54 | rows keep their ids; every reported id names a product that was visible and permitted and that a well-formed entry with a number names; a 500 needs an entry that is not an object, an id that does not convert or a price that is not a decimal |
| InventoryViews.StoredPrice | backend/inventory/views.py:48-50 | the saved selling price is rounded to paise: within half a paisa of the given price, with no third decimal |
| InventoryViews.LastEntryWins | backend/inventory/views.py:41-51 | after a pass that runs to the end, a reported product carries the rounded price of the last well-formed entry naming it |
| InventoryViews.UnconvertibleIdKeepsEarlierSave | backend/inventory/views.py:41-54 | an id the lookup cannot convert ends the request with a 500 while the earlier save, 10.005 stored as 10.01, stays |
| InventoryViews.UnnamedProductKeepsPrice | backend/inventory/views.py:41-51 | a product that no well-formed entry names is left as it was |
| InventoryViews.SinglePriceUpdate | backend/authentication/tests/test_api_permissions.py:321-322 | one entry for a visible, permitted product sets its price, rounded to paise, and reports exactly its id |
| InventoryViews.PriceUpdatesStopped | backend/inventory/views.py:47 | once the pass has ended, by a refused object check (403) or an escaping exception (500), later entries change nothing |
| InventoryViews.ProductTable.constructor | backend/inventory/views.py:21-22 | the table holds the given products |
| InventoryViews.ProductTable.BulkPriceUpdate | backend/inventory/views.py:37-54 | the loop computes the price-update pass and keeps every earlier save: a pass run to the end answers with the changed ids, a refused object check with the 403, and an escaping exception with a 500 |
| InventoryViews.AdjustLines | backend/inventory/views.py:108-115 | malformed entries and zero quantities are skipped; at most one line per adjustment |
| InventoryViews.NewEntries | backend/inventory/views.py:116-123 | one ADJUST entry per line with remarks "Bulk adjustment" and that single line, numbered consecutively |
| InventoryViews.EntryIdsConsecutive | backend/inventory/views.py:125 | the ids handed out are consecutive from the first free one |
| InventoryViews.StockEntryBook.constructor | backend/inventory/views.py:74-75 | no stock entries yet |
| InventoryViews.StockEntryBook.BulkAdjust | backend/inventory/views.py:104-126 | entries are created up to the first adjustment that raises; that one leaves an entry with no lines when its product is bad; a failure returns an error, otherwise the ids of the created entries, and nothing is rolled back |
| InventoryViews.FirstFailure | backend/inventory/views.py:106-124 | the index of the first adjustment that raises outside the guarded block, or the length when none does |
| InventoryViews.StockEntryBook.AdjustUntilFailure | backend/inventory/views.py:106-124 | the loop appends one entry per applicable adjustment before the first failure, with consecutive ids, and stops there |
| InventoryViews.StockEntryBook.AddEntry | backend/inventory/views.py:116-121 | one ADJUST entry with the given lines is appended under the next id |
| InventoryViews.OneAdjustmentOneEntry | backend/authentication/tests/test_api_permissions.py:331-333 | one adjustment of quantity 2 yields exactly one stock line |
| InventoryViews.NothingToApply | backend/inventory/views.py:109-115 | when nothing is applicable no entry is created |
| InventoryViews.LedgerProducts | backend/inventory/views.py:141 | exactly the products with a ledger movement, each listed once (the grouping key of `values('product')`) |
| InventoryViews.CurrentStock | backend/inventory/views.py:139-142 | one row per product with a movement, each with its summed movements, ordered by product name as `order_by('product')` follows the Product ordering of backend/inventory/models.py:38-39 |
| InventoryViews.BalanceAppend | backend/inventory/views.py:141 | the balance is additive over appended movements |
| InventoryViews.LowRows | backend/inventory/views.py:152-156 | at most one report row per inventory row |
| InventoryViews.LowRowsExact | backend/inventory/views.py:153-156 | a row is reported exactly when its product is on the ledger, its reorder level is non-zero and its balance is at or below both the reorder level and the threshold |
| InventoryViews.LowStock | backend/inventory/views.py:144-157 | an unparsable threshold is an error, NaN fails exactly when a comparison is reached, an absent one means 0, a number gives the low rows |
| InventoryViews.DefaultThresholdReportsEmptyStock | backend/inventory/views.py:146 | with no threshold only products at or below zero are reported |
| InventoryViews.LowStockMonotone | backend/inventory/views.py:155 | raising the threshold never removes a product from the report |
| InventoryViews.Valuation | backend/inventory/views.py:159-169 | one row per ledger product, quantity its summed movements and value quantity times cost price |
| InventoryViews.ValuationMatchesCurrentStock | backend/inventory/views.py:139-169 | the valuation and the current stock list the same products with the same quantities, possibly in different orders |
| CoreViews.ParseIsoDate | backend/core/views.py:22 | a parsed date is a real calendar date and the text has the `YYYY-MM-DD` shape |
| CoreViews.FormatIsoDate | backend/core/views.py:52 | the ISO text of a date has the `YYYY-MM-DD` shape |
| CoreViews.ParseFormat | backend/core/views.py:22-26 | every valid date reads back from its ISO text |
| CoreViews.FormatParse | backend/core/views.py:22-26 | the only text that parses to a date is that date's own ISO text |
| CoreViews.ValidDate | backend/core/views.py:22-28 | a valid day is at most 31, 29 February only in a leap year, and any day up to 28 of a month is valid |
| CoreViews.ParamDate | backend/core/views.py:22-26 | a missing or empty parameter gives no date; a parsed date is valid and its ISO text is the parameter |
| CoreViews.DashboardRange | backend/core/views.py:18-28 | each end is the parsed parameter when present, non-empty and valid; otherwise the start is the first of this month and the end today |
| CoreViews.DefaultRangeIsMonthToDate | backend/core/views.py:22-26 | with no parameters the range runs from the first of the month to today, both valid dates |
| CoreViews.GivenDatesAreUsed | backend/core/views.py:22-26 | well-formed parameters are taken as given |
| CoreViews.ImpossibleDayFallsBack | backend/core/views.py:23-24 | a day that does not exist falls back to the default instead of failing |
| CoreViews.AllHits | backend/core/views.py:85-105 | the first matches of each category up to the limit, customers then products, orders and invoices, each shaped for its type |
| CoreViews.FirstMatches | backend/core/views.py:85-105 | the first n matching records in order, each shaped by the category's hit |
| CoreViews.HitsOfKind | backend/core/views.py:100-105 | the concatenated lists keep every hit's own type |
| CoreViews.GlobalSearch | backend/core/views.py:77-106 | a blank query returns no results; a non-integer limit, or a negative one with a query, is a server error; otherwise the count is the number of all hits and the results are the first limit of them |
| CoreViews.SearchHitsMatch | backend/core/views.py:85 | every customer in the results matches the stripped query by name or code, ignoring case |
| CoreViews.CountCanExceedResults | backend/core/views.py:106 | with enough matches in two categories the reported count exceeds the number of results returned |
| TablePagination.CeilDiv | frontend/src/components/tables/TablePagination.tsx:21 | `Math.ceil(a / b)`: the least c with a <= c * b |
| TablePagination.TotalPages | frontend/src/components/tables/TablePagination.tsx:21 | at least one page; for a non-empty table the fewest pages that hold every row |
| TablePagination.CanNextIffMoreRows | frontend/src/components/tables/TablePagination.tsx:23 | "next" is enabled exactly when rows remain past the current page |
| TablePagination.CanPrev | frontend/src/components/tables/TablePagination.tsx:22 | previous is enabled exactly when the page before is a page number |
| TablePagination.CanNext | frontend/src/components/tables/TablePagination.tsx:23 | next is enabled exactly when the page after is one of the pages |
| TablePagination.Span | frontend/src/components/tables/TablePagination.tsx:28-30 | the consecutive pages from lo up to, not including, hi |
| TablePagination.AscendingDistinct | frontend/src/components/tables/TablePagination.tsx:33 | an ascending list has no duplicate, so the `Set` changes nothing |
| TablePagination.WindowPages | frontend/src/components/tables/TablePagination.tsx:28-30 | the loop collects exactly the consecutive pages lo through hi |
| TablePagination.FramePages | frontend/src/components/tables/TablePagination.tsx:31-32 | page 1 goes in front when missing and the last page goes at the end when missing |
| TablePagination.FirstPageAscending | frontend/src/components/tables/TablePagination.tsx:31 | putting page 1 in front keeps the pages ascending and adds nothing but page 1 |
| TablePagination.LastPageAscending | frontend/src/components/tables/TablePagination.tsx:32 | putting the last page at the end keeps the pages ascending and adds nothing but the last page |
| TablePagination.FramedWindow | frontend/src/components/tables/TablePagination.tsx:31-32 | framing the window gives ascending pages from 1 to the last page holding exactly the window and both ends |
| TablePagination.PagesToRender | frontend/src/components/tables/TablePagination.tsx:25-34 | the loop yields ascending pages starting at 1 and ending at the last page: exactly the first, the last and those within two of the current page |
| TablePagination.RangeLabelBounds | frontend/src/components/tables/TablePagination.tsx:47 | on an existing page of a non-empty table the label names between one and a page of real rows |
| TablePagination.RangeLabel | frontend/src/components/tables/TablePagination.tsx:47 | the label never passes the total or spans more than a page, and spans a full page when rows remain past it |
| TablePagination.EmptyTableLabel | frontend/src/components/tables/TablePagination.tsx:21-47 | an empty table has one page labelled "1-0" |
| VirtualizedTable.Ceil | frontend/src/components/advanced/VirtualizedTable.tsx:11 | `Math.ceil`: the least integer at or above x |
| VirtualizedTable.RowWindow | frontend/src/components/advanced/VirtualizedTable.tsx:10-11 | the window never runs past the data |
| VirtualizedTable.Visible | frontend/src/components/advanced/VirtualizedTable.tsx:12 | `slice(start, end)`: exactly the rows of the window, in order |
| VirtualizedTable.FloorBounds | frontend/src/components/advanced/VirtualizedTable.tsx:10 | `Math.floor` is the greatest integer at or below x |
| VirtualizedTable.WindowCoversViewport | frontend/src/components/advanced/VirtualizedTable.tsx:10-12 | every row that intersects the viewport is drawn, and at most the viewport's rows plus five are |
| VirtualizedTable.DrawnRowsInsideScrollArea | frontend/src/components/advanced/VirtualizedTable.tsx:9-28 | each drawn row lies inside the scroll area's total height |
| VirtualizedTable.ScrolledPastEnd | frontend/src/components/advanced/VirtualizedTable.tsx:10-12 | scrolled past the last row, nothing is drawn |
| DataTable.InitRows | frontend/src/components/tables/DataTable.tsx:61-63 | one unselected row per datum, carrying its id |
| DataTable.FilteredRows | frontend/src/components/tables/DataTable.tsx:67-70 | an empty search keeps every row; otherwise exactly the rows whose JSON contains the search, ignoring case |
| DataTable.ToggleRowIn | frontend/src/components/tables/DataTable.tsx:72-74 | rows keep their ids and data |
| DataTable.ToggleRowFlipsOnlyThatId | frontend/src/components/tables/DataTable.tsx:73 | exactly the rows with that id flip their selection |
| DataTable.ToggleRowTwice | frontend/src/components/tables/DataTable.tsx:72-74 | toggling twice restores the rows |
| DataTable.SetAll | frontend/src/components/tables/DataTable.tsx:78 | every row gets the same selection and nothing else changes |
| DataTable.SelectedOriginals | frontend/src/components/tables/DataTable.tsx:81-83 | exactly the originals of the selected rows: each reported item comes from a selected row, and every selected row is reported |
| DataTable.SelectedOriginalsSnoc | frontend/src/components/tables/DataTable.tsx:81-83 | nothing is reported for no rows, and appending a row reports its original exactly when it is selected, at the end |
| DataTable.SelectAllReportsAll | frontend/src/components/tables/DataTable.tsx:76-83 | selecting all reports every datum in order; clearing all reports none |
| DataTable.NoneSelected | frontend/src/components/tables/DataTable.tsx:82 | with no row selected the selection is empty |
| DataTable.Table.constructor | frontend/src/components/tables/DataTable.tsx:56-58 | no rows, nothing selected, empty search |
| DataTable.Table.SetData | frontend/src/components/tables/DataTable.tsx:61-63 | the rows are rebuilt from the data; the rest is unchanged |
| DataTable.Table.SetSearch | frontend/src/components/tables/DataTable.tsx:108 | only the search changes |
| DataTable.Table.ToggleRow | frontend/src/components/tables/DataTable.tsx:72-74 | the rows become the toggled rows |
| DataTable.Table.ToggleAll | frontend/src/components/tables/DataTable.tsx:76-79 | the flag flips and every row takes the flag's old negation |
| DataTable.DoubleQuotes | frontend/src/components/tables/DataTable.tsx:89 | escaping never shortens the text |
| DataTable.UndoubleDouble | frontend/src/components/tables/DataTable.tsx:89 | reading back doubled quotes restores the text |
| DataTable.EscapeRoundTrip | frontend/src/components/tables/DataTable.tsx:89 | a string cell is quoted and unescaping it gives the string back |
| DataTable.QuotesComeInPairs | frontend/src/components/tables/DataTable.tsx:89 | inside an escaped cell every quote belongs to a doubled pair |
| DataTable.ExportLines | frontend/src/components/tables/DataTable.tsx:87-90 | one line per filtered row, one escaped cell per visible column, in order |
| DataTable.Csv | frontend/src/components/tables/DataTable.tsx:91 | with no rows the CSV is the header line alone |
| KeyboardShortcuts.DropWs | frontend/src/components/global/KeyboardShortcuts.tsx:29 | a suffix of the text that starts at a non-whitespace character or is empty |
| KeyboardShortcuts.Collapse | frontend/src/components/global/KeyboardShortcuts.tsx:29 | a text that starts with a non-whitespace character keeps that first character |
| KeyboardShortcuts.CollapseNoUpper | frontend/src/components/global/KeyboardShortcuts.tsx:29 | collapsing whitespace brings back no upper-case letter |
| KeyboardShortcuts.CollapseSingleSpaced | frontend/src/components/global/KeyboardShortcuts.tsx:29 | after collapsing, a text that does not end in whitespace has only single spaces between words |
| KeyboardShortcuts.CollapseFixed | frontend/src/components/global/KeyboardShortcuts.tsx:29 | a single-spaced text is left alone |
| KeyboardShortcuts.NormalizeIsNormal | frontend/src/components/global/KeyboardShortcuts.tsx:28-30 | a normalised sequence is lower case, single-spaced and trimmed |
| KeyboardShortcuts.NormalFixed | frontend/src/components/global/KeyboardShortcuts.tsx:28-30 | a sequence already in normal form is unchanged |
| KeyboardShortcuts.NormalizeIdempotent | frontend/src/components/global/KeyboardShortcuts.tsx:28-30 | normalising twice is normalising once |
| KeyboardShortcuts.RegisterIn | frontend/src/components/global/KeyboardShortcuts.tsx:40-42 | a sequence already present after normalising is ignored; otherwise the shortcut is appended with its normalised sequence |
| KeyboardShortcuts.UnregisterIn | frontend/src/components/global/KeyboardShortcuts.tsx:43-45 | afterwards no entry has the normalised sequence, every other entry is kept, and nothing new appears |
| KeyboardShortcuts.RegisterKeepsDistinct | frontend/src/components/global/KeyboardShortcuts.tsx:41 | registration keeps the registered sequences distinct |
| KeyboardShortcuts.RegisterTwiceOnce | frontend/src/components/global/KeyboardShortcuts.tsx:41 | registering the same sequence twice, in any spelling, stores it once |
| KeyboardShortcuts.DefaultSequencesNormal | frontend/src/components/global/KeyboardShortcuts.tsx:49-53 | each default sequence is already normalised |
| KeyboardShortcuts.RegisterAllFresh | frontend/src/components/global/KeyboardShortcuts.tsx:41 | normalised shortcuts with new, pairwise distinct sequences are appended as they are |
| KeyboardShortcuts.DefaultsDistinct | frontend/src/components/global/KeyboardShortcuts.tsx:49-53 | the five default sequences differ pairwise |
| KeyboardShortcuts.DefaultsAllRegistered | frontend/src/components/global/KeyboardShortcuts.tsx:48-55 | on mount all five defaults are registered as written, in order, with distinct sequences |
| KeyboardShortcuts.TokenParts | frontend/src/components/global/KeyboardShortcuts.tsx:62-68 | the held modifiers, each once, in the order ctrl, meta, alt, shift, followed by the lower-cased key unless it is itself a modifier |
| KeyboardShortcuts.ModifierParts | frontend/src/components/global/KeyboardShortcuts.tsx:62-66 | exactly the held modifiers, one part each, in the order ctrl, meta, alt, shift |
| KeyboardShortcuts.HeldCount | frontend/src/components/global/KeyboardShortcuts.tsx:62-66 | at most four modifiers are held |
| KeyboardShortcuts.CtrlKToken | frontend/src/components/global/KeyboardShortcuts.tsx:63-69 | Ctrl with K gives the token `ctrl+k`, whatever the key's case |
| KeyboardShortcuts.ModifierAloneToken | frontend/src/components/global/KeyboardShortcuts.tsx:68 | a modifier key alone gives only the modifier name |
| KeyboardShortcuts.Provider.constructor | frontend/src/components/global/KeyboardShortcuts.tsx:34-36 | no shortcuts, empty buffer, last key time 0 |
| KeyboardShortcuts.Provider.Register | frontend/src/components/global/KeyboardShortcuts.tsx:40-42 | the list becomes the registered list; buffer and clock are unchanged |
| KeyboardShortcuts.Provider.RegisterDefaults | frontend/src/components/global/KeyboardShortcuts.tsx:48-55 | the loop registers the defaults in order |
| KeyboardShortcuts.Provider.Unregister | frontend/src/components/global/KeyboardShortcuts.tsx:43-45 | the list becomes the unregistered list; buffer and clock are unchanged |
| KeyboardShortcuts.Provider.KeyDown | frontend/src/components/global/KeyboardShortcuts.tsx:57-85 | the buffer is reset after 900 ms of silence and grows by the token; the last registered sequence ending the normalised buffer fires and empties it; otherwise the buffer survives only while some sequence starts with it |
| KeyboardShortcuts.MatchingSequenceFires | frontend/src/components/global/KeyboardShortcuts.tsx:74-75 | a sequence that ends the typed text always makes something fire |
| GlobalSearch.Results | frontend/src/components/global/GlobalSearch.tsx:20 | at most ten results: with a query, suggestions whose label contains it ignoring case; without, a prefix of the recent items, or of the suggestions when there are none |
| GlobalSearch.FewSuggestionsAllMatchesShown | frontend/src/components/global/GlobalSearch.tsx:20 | with at most ten suggestions every matching one is shown |
| GlobalSearch.FreshPaletteListsSuggestions | frontend/src/components/global/GlobalSearch.tsx:6-20 | a fresh palette lists the four suggestions |
| GlobalSearch.ArrowsStayInResults | frontend/src/components/global/GlobalSearch.tsx:34-35 | on a non-empty list the arrows keep the highlight on a result and move it at most one place |
| GlobalSearch.ArrowDownOnNoResults | frontend/src/components/global/GlobalSearch.tsx:34-35 | ArrowDown with no results sets the highlight to -1; ArrowUp brings it back to 0 |
| GlobalSearch.Palette.constructor | frontend/src/components/global/GlobalSearch.tsx:14-17 | closed, empty query, no recent items, first result highlighted |
| GlobalSearch.Palette.Choose | frontend/src/components/global/GlobalSearch.tsx:22-27 | the item moves to the front of the recent items, which stay distinct and at most eight; its route is returned; the palette closes and the query clears |
| GlobalSearch.Palette.EditQuery | frontend/src/components/global/GlobalSearch.tsx:54 | the query is replaced and the first result highlighted |
| GlobalSearch.Palette.OpenPalette | frontend/src/components/global/GlobalSearch.tsx:46 | the palette opens; nothing else changes |
| GlobalSearch.Palette.KeyDown | frontend/src/components/global/GlobalSearch.tsx:30-39 | Ctrl/Cmd-K toggles; while open the arrows move the highlight and keep the query, Enter chooses the highlighted result when there is one, Escape closes, and any other key changes nothing |
| GlobalSearch.ChooseTwiceOnce | frontend/src/components/global/GlobalSearch.tsx:23 | choosing an item twice in a row leaves the recent list as choosing it once |
| JsValues.Get | frontend/src/components/forms/ChildTable.tsx:65-110 | a missing key reads as `undefined` |
| JsValues.ToNumber | frontend/src/components/forms/ChildTable.tsx:65 | `Number` of null and false is 0; of undefined, NaN and objects it is NaN |
| JsValues.NumberOrZero | frontend/src/components/forms/ChildTable.tsx:65 | `Number(v) \|\| 0`: the number when there is one, otherwise 0 |
| ChildTable.Add | frontend/src/components/forms/ChildTable.tsx:43-46 | refused exactly at a truthy maximum; otherwise the new row is appended and the others are kept |
| ChildTable.Delete | frontend/src/components/forms/ChildTable.tsx:48-54 | refused exactly when deletion is off or the rows are at the minimum; otherwise only that row is removed, the rest keep their order |
| ChildTable.Patch | frontend/src/components/forms/ChildTable.tsx:56-59 | only the row at that index changes: patched keys take the patch's values, the others keep theirs |
| ChildTable.Move | frontend/src/components/forms/ChildTable.tsx:99-101 | the moved row lands at the target index and the length is unchanged |
| ChildTable.MovePermutes | frontend/src/components/forms/ChildTable.tsx:99-101 | moving a row loses and duplicates nothing |
| ChildTable.MoveKeepsOthersInOrder | frontend/src/components/forms/ChildTable.tsx:99-101 | the other rows keep their relative order |
| ChildTable.MoveInPlace | frontend/src/components/forms/ChildTable.tsx:98 | moving a row onto its own place changes nothing |
| ChildTable.DragState.constructor | frontend/src/components/forms/ChildTable.tsx:41 | no row is being dragged |
| ChildTable.DragState.DragStart | frontend/src/components/forms/ChildTable.tsx:91 | the dragged index is recorded |
| ChildTable.DragState.DragEnd | frontend/src/components/forms/ChildTable.tsx:105 | the drag is reset |
| ChildTable.DragState.Drop | frontend/src/components/forms/ChildTable.tsx:96-104 | with no drag or a drop on itself nothing happens; otherwise the dragged row moves to the drop index and the drag is reset |
| ChildTable.CellValue | frontend/src/components/forms/ChildTable.tsx:109-110 | the computed value unless it is `undefined`, else the row's own value; without a formula the row's own value |
| ChildTable.Totals | frontend/src/components/forms/ChildTable.tsx:61-68 | with footer totals on, exactly the numeric columns get a total, each the sum of its rows' numbers with non-numbers as 0 |
| ChildTable.AddedRowTotal | frontend/src/components/forms/ChildTable.tsx:65 | adding a row raises a column total by that row's number |
| ChildTable.MoveKeepsTotals | frontend/src/components/forms/ChildTable.tsx:65-101 | reordering rows leaves every total unchanged |
| DynamicForm.FixedSettingIgnoresValues | frontend/src/components/forms/DynamicForm.tsx:97-100 | a setting that is not a function evaluates to itself whatever the form holds |
| DynamicForm.HiddenOnlyByFalse | frontend/src/components/forms/DynamicForm.tsx:134-157 | a field is hidden exactly when `visible` evaluates to `false`; an omitted setting, 0, '' and null all show it |
| DynamicForm.VisibleFields | frontend/src/components/forms/DynamicForm.tsx:157 | exactly the section's fields that are visible |
| DynamicForm.RenderedIffSomeFieldVisible | frontend/src/components/forms/DynamicForm.tsx:158 | a section is rendered exactly when one of its fields is visible |
| DynamicForm.Completion | frontend/src/components/forms/DynamicForm.tsx:133-144 | the ratio lies in [0, 1] and is 1 when no visible field is required |
| DynamicForm.AllFilledComplete | frontend/src/components/forms/DynamicForm.tsx:136-143 | when every visible required field is filled the ratio is 1 |
| DynamicForm.UnfilledIncomplete | frontend/src/components/forms/DynamicForm.tsx:136-143 | one unfilled visible required field keeps the ratio below 1 |
| DynamicForm.CompleteIffAllFilled | frontend/src/components/forms/DynamicForm.tsx:133-144 | a section is complete exactly when every visible required field is neither undefined, null nor blank |
| DynamicForm.ErrorCount | frontend/src/components/forms/DynamicForm.tsx:147-149 | at most the number of fields, and zero exactly when no field has an error |
| BulkOperations.ItemIds | frontend/src/components/advanced/BulkOperations.tsx:68 | exactly the ids of the items |
| BulkOperations.ItemIdsCount | frontend/src/components/advanced/BulkOperations.tsx:68 | with distinct ids there are as many ids as items |
| BulkOperations.Toggle | frontend/src/components/advanced/BulkOperations.tsx:60-66 | the id's membership flips and no other id changes |
| BulkOperations.ToggleTwice | frontend/src/components/advanced/BulkOperations.tsx:60-66 | toggling twice restores the selection |
| BulkOperations.ToggleAll | frontend/src/components/advanced/BulkOperations.tsx:67-69 | as many ids as items clears the selection; otherwise every item is selected, and only item ids are |
| BulkOperations.AllSelectedMeansEveryItem | frontend/src/components/advanced/BulkOperations.tsx:78-79 | with distinct item ids, "all selected" holds exactly when the list is non-empty and every item is selected |
| BulkOperations.SubsetCard | frontend/src/components/advanced/BulkOperations.tsx:79 | a subset is no larger than its superset |
| BulkOperations.ToggleAllTwice | frontend/src/components/advanced/BulkOperations.tsx:67-79 | from a partial selection, "toggle all" selects everything and a second one clears it |
| BulkOperations.FindAction | frontend/src/components/advanced/BulkOperations.tsx:82 | the first action with the key, or none exactly when no action has it |
| BulkOperations.RegisterKeepsKeysDistinct | frontend/src/components/advanced/BulkOperations.tsx:73-75 | registering keeps the keys distinct, is idempotent and leaves an action with that key |
| BulkOperations.Unregister | frontend/src/components/advanced/BulkOperations.tsx:76 | no action with the key remains, and an absent key changes nothing |
| BulkOperations.UnregisterKeepsOthers | frontend/src/components/advanced/BulkOperations.tsx:76 | every action with another key is kept |
| BulkOperations.SelectedItems | frontend/src/components/advanced/BulkOperations.tsx:84 | the items of the list whose id is selected, in list order |
| BulkOperations.SelectedItemsComplete | frontend/src/components/advanced/BulkOperations.tsx:84 | every selected item of the list is handed to the action |
| BulkOperations.SelectedItemsEmpty | frontend/src/components/advanced/BulkOperations.tsx:84-85 | nothing is handed over exactly when no listed item is selected |
| BulkOperations.FailureMessage | frontend/src/components/advanced/BulkOperations.tsx:93 | the failure toast text is never empty |
| BulkOperations.Provider.constructor | frontend/src/components/advanced/BulkOperations.tsx:54-57 | the given items, initial selection and actions, nothing executing |
| BulkOperations.Provider.ToggleId | frontend/src/components/advanced/BulkOperations.tsx:60-66 | the selection becomes the toggled set; nothing else changes |
| BulkOperations.Provider.ToggleEvery | frontend/src/components/advanced/BulkOperations.tsx:67-69 | the selection becomes the toggle-all set; nothing else changes |
| BulkOperations.Provider.Clear | frontend/src/components/advanced/BulkOperations.tsx:70 | the selection is emptied; nothing else changes |
| BulkOperations.Provider.RegisterAction | frontend/src/components/advanced/BulkOperations.tsx:73-75 | the actions become the registered list; nothing else changes |
| BulkOperations.Provider.UnregisterAction | frontend/src/components/advanced/BulkOperations.tsx:76 | the actions become the unregistered list; nothing else changes |
| BulkOperations.Provider.Execute | frontend/src/components/advanced/BulkOperations.tsx:81-97 | nothing for an unknown key, an empty selection or a declined confirmation; otherwise the action runs on the selected items and a success or failure toast follows, with `executingKey` cleared |
| DragDrop.IndexOf | frontend/src/components/advanced/DragDropManager.tsx:17 | `indexOf`: the first position of the id, or -1 exactly when it is absent |
| DragDrop.InsertAt | frontend/src/components/advanced/DragDropManager.tsx:18 | `splice` inserts one element |
| DragDrop.DragOverPermutes | frontend/src/components/advanced/DragDropManager.tsx:15-20 | dragging over another listed item loses and duplicates no id |
| DragDrop.DragOverPlacesBefore | frontend/src/components/advanced/DragDropManager.tsx:16-18 | the dragged id lands immediately before the item dragged over |
| DragDrop.DragOverKeepsOthersInOrder | frontend/src/components/advanced/DragDropManager.tsx:16-18 | the other ids keep their relative order |
| DragDrop.DraggedNeverLast | frontend/src/components/advanced/DragDropManager.tsx:17-18 | since it always lands before the item dragged over, a dragged item never becomes the last one |
| DragDrop.Manager.constructor | frontend/src/components/advanced/DragDropManager.tsx:7-8 | the order is the items' ids and nothing is dragged |
| DragDrop.Manager.DragStart | frontend/src/components/advanced/DragDropManager.tsx:10 | the dragged id is recorded; the order is unchanged |
| DragDrop.Manager.DragOver | frontend/src/components/advanced/DragDropManager.tsx:11-21 | with no active drag, or over the dragged item, nothing changes; otherwise the order becomes the drag-over order |
| DragDrop.Manager.Drop | frontend/src/components/advanced/DragDropManager.tsx:22-25 | the current order is reported only after an active drag; the drag is reset either way |
| VariantManager.AddAttribute | frontend/src/modules/products/components/VariantManager.tsx:24 | one attribute appended, named "Attribute n" after the new count, with no values; the others kept |
| VariantManager.UpdateAttribute | frontend/src/modules/products/components/VariantManager.tsx:25 | only the attribute at that index is patched; the length is unchanged |
| VariantManager.RemoveAttribute | frontend/src/modules/products/components/VariantManager.tsx:26 | the attribute at a valid index is removed and the rest keep their order; any other index changes nothing |
| VariantManager.AddValue | frontend/src/modules/products/components/VariantManager.tsx:65-73 | a blank input changes nothing; otherwise the trimmed value is appended to that attribute only |
| VariantManager.RemoveValue | frontend/src/modules/products/components/VariantManager.tsx:59 | only that value of that attribute is removed; an index out of range changes nothing; every other attribute is kept |
| VariantManager.Put | frontend/src/modules/products/components/VariantManager.tsx:35 | merging one key grows a record by at most one entry |
| VariantManager.PutNewKey | frontend/src/modules/products/components/VariantManager.tsx:35 | a new key goes last |
| VariantManager.Pairs | frontend/src/modules/products/components/VariantManager.tsx:31 | one single-key record per value |
| VariantManager.ProductCount | frontend/src/modules/products/components/VariantManager.tsx:34-36 | every base merged with every item: as many records as their product |
| VariantManager.ProductAt | frontend/src/modules/products/components/VariantManager.tsx:35 | the record at base i and item j is base i merged with item j |
| VariantManager.CombosCount | frontend/src/modules/products/components/VariantManager.tsx:32-37 | when every attribute has values there is one combination per choice of one value each |
| VariantManager.CombineLists | frontend/src/modules/products/components/VariantManager.tsx:32-37 | the loop computes the `reduce` as written |
| VariantManager.Combos | frontend/src/modules/products/components/VariantManager.tsx:32-37 | one attribute gives one combination per value; as written an attribute without values last leaves no combination |
| VariantManager.CombosSkippingEmpty | frontend/src/modules/products/components/VariantManager.tsx:32-37 | the number of combinations is the product of the value counts of the attributes that have values, none when no attribute has any |
| VariantManager.ToVariants | frontend/src/modules/products/components/VariantManager.tsx:38 | variant i gets id i + 1, the values joined by '-' as SKU, its combination, price and quantity 0 |
| VariantManager.GenerateVariants | frontend/src/modules/products/components/VariantManager.tsx:29-40 | nothing without attributes; otherwise one variant per combination |
| VariantManager.SetPrice | frontend/src/modules/products/components/VariantManager.tsx:101 | only variants with that id take the new price |
| VariantManager.SetQuantity | frontend/src/modules/products/components/VariantManager.tsx:104 | only variants with that id take the new quantity |
| VariantManager.CombosDistinctKeys | frontend/src/modules/products/components/VariantManager.tsx:31-37 | with distinct names and no value list repeating a pair, the combinations are pairwise distinct and each is keyed only by the names |
| VariantManager.CombosDistinct | frontend/src/modules/products/components/VariantManager.tsx:29-37 | attributes with distinct names, none repeating a value, never yield the same combination twice |
| VariantManager.EmptyAttributeDropsEarlierOnes | frontend/src/modules/products/components/VariantManager.tsx:32-37 | as written, Color (Red, Blue), an empty Size and Material (Cotton) give the single variant Material=Cotton |
| VariantManager.SkippingEmptyCount | frontend/src/modules/products/components/VariantManager.tsx:32-37 | skipping attributes without values, there is one combination per choice of value for each remaining attribute |
| VariantManager.SkippingEmptyAgrees | frontend/src/modules/products/components/VariantManager.tsx:32-37 | when every attribute has values, skipping empty ones changes nothing |
| VariantManager.KeptAttributes | frontend/src/modules/products/components/VariantManager.tsx:31 | of the three example attributes only Color and Material have values |
| VariantManager.SkippingEmptyKeepsColours | frontend/src/modules/products/components/VariantManager.tsx:32-37 | on the same example the intended reading gives Red-Cotton and Blue-Cotton |
| StockIndicator.LevelOf | frontend/src/modules/products/components/StockIndicator.tsx:11-12 | low exactly at or below the reorder level, medium strictly between it and twice it, high otherwise |
| StockIndicator.Label | frontend/src/modules/products/components/StockIndicator.tsx:19 | "Low Stock" exactly when the level is low |
| StockIndicator.Percent | frontend/src/modules/products/components/StockIndicator.tsx:15 | at most 100; 100 without a reorder level; not negative for a non-negative quantity |
| StockIndicator.BarMatchesLevel | frontend/src/modules/products/components/StockIndicator.tsx:12-15 | a low item fills at most a third of the bar, a medium one less than two thirds, a high one at least two thirds |
| StockIndicator.ScaleCompare | frontend/src/modules/products/components/StockIndicator.tsx:15 | the bar width compares with 100 and 200 as the quantity compares with the reorder level and its double |
| StockIndicator.SignOfProduct | frontend/src/modules/products/components/StockIndicator.tsx:15 | multiplying by a positive level keeps the sign |
| StockIndicator.NoReorderLevel | frontend/src/modules/products/components/StockIndicator.tsx:10-15 | with the default level 0 an item is low exactly when its quantity is not positive, and the bar is full |
| StockEntry.ScannedItem | frontend/src/modules/products/StockEntry.tsx:29 | a scanned line has the code, quantity 1, the clock as its id and no batch or serial |
| StockEntry.ApplyPatch | frontend/src/modules/products/StockEntry.tsx:32 | id, code and name are kept; patched fields take the patch's values |
| StockEntry.UpdatedItems | frontend/src/modules/products/StockEntry.tsx:32 | lines with that id are patched; every other line is kept |
| StockEntry.RemovedItems | frontend/src/modules/products/StockEntry.tsx:33 | exactly the lines with another id remain |
| StockEntry.ScanAddsOne | frontend/src/modules/products/StockEntry.tsx:29-115 | a scan raises the total quantity by one |
| StockEntry.TotalQuantity | frontend/src/modules/products/StockEntry.tsx:115 | no lines total 0, one line its own quantity, and non-negative quantities a non-negative total |
| StockEntry.SameQuantitiesSameTotal | frontend/src/modules/products/StockEntry.tsx:115 | the total depends only on the quantities |
| StockEntry.EditWithoutQuantityKeepsTotal | frontend/src/modules/products/StockEntry.tsx:32-115 | editing a batch or serial leaves the total unchanged |
| StockEntry.RemoveMissingIdKeepsLines | frontend/src/modules/products/StockEntry.tsx:33 | removing an id no line has changes nothing |
| StockEntry.SameMillisecondLinesRemovedTogether | frontend/src/modules/products/StockEntry.tsx:29-33 | two codes scanned in the same millisecond share an id, and removing it removes both |
| StockEntry.Screen.constructor | frontend/src/modules/products/StockEntry.tsx:22-26 | the empty draft and an empty scan box |
| StockEntry.Screen.AddItem | frontend/src/modules/products/StockEntry.tsx:28-30 | one scanned line appended; nothing else changes |
| StockEntry.Screen.UpdateItem | frontend/src/modules/products/StockEntry.tsx:32 | the lines become the updated lines |
| StockEntry.Screen.RemoveItem | frontend/src/modules/products/StockEntry.tsx:33 | the lines become the remaining lines |
| StockEntry.Screen.SetScan | frontend/src/modules/products/StockEntry.tsx:72 | only the scan text changes |
| StockEntry.Screen.SetType | frontend/src/modules/products/StockEntry.tsx:55 | only the entry type changes |
| StockEntry.Screen.SetReason | frontend/src/modules/products/StockEntry.tsx:62 | only the reason changes |
| StockEntry.Screen.SetRemarks | frontend/src/modules/products/StockEntry.tsx:66 | only the remarks change |
| StockEntry.Screen.PressEnter | frontend/src/modules/products/StockEntry.tsx:72 | Enter adds a line for the scan text, even an empty one, and clears the box |
| StockEntry.Screen.ClickAdd | frontend/src/modules/products/StockEntry.tsx:73 | the disabled button does nothing on an empty box; otherwise it adds a line and clears the box |
| StockEntry.Screen.Save | frontend/src/modules/products/StockEntry.tsx:35-46 | the draft goes back to the empty one |
| StockEntry.Screen.Reset | frontend/src/modules/products/StockEntry.tsx:45 | the draft goes back to the empty one |
| StockEntry.Screen.Summary | frontend/src/modules/products/StockEntry.tsx:114-115 | the line count, and zero lines and zero quantity for the empty draft |
| ReportsHub.EntriesOf | frontend/src/modules/reports/ReportsHub.tsx:38 | one entry per report of the category, tagged with the category's name |
| ReportsHub.AllReportsMembers | frontend/src/modules/reports/ReportsHub.tsx:38 | an entry is listed exactly when it belongs to some category |
| ReportsHub.AllReportsAppend | frontend/src/modules/reports/ReportsHub.tsx:38 | `flatMap` over joined category lists is the join of their listings |
| ReportsHub.CatalogueOrder | frontend/src/modules/reports/ReportsHub.tsx:13-38 | the six reports are listed in the order of their categories |
| ReportsHub.Filtered | frontend/src/modules/reports/ReportsHub.tsx:39 | exactly the entries whose name contains the search, ignoring case, and whose category matches, each only when set |
| ReportsHub.NoFilterListsAll | frontend/src/modules/reports/ReportsHub.tsx:39 | with no filters every report is listed in order |
| ReportsHub.Render | frontend/src/modules/reports/ReportsHub.tsx:41-51 | the placeholder shows exactly for a name that is none of the six reports |
| ReportsHub.EveryListedReportRenders | frontend/src/modules/reports/ReportsHub.tsx:13-50 | every listed report has its own view |
| ReportsHub.ToggleFavourite | frontend/src/modules/reports/ReportsHub.tsx:32 | the report's membership flips and no other report changes |
| ReportsHub.ToggleFavouriteDistinct | frontend/src/modules/reports/ReportsHub.tsx:32 | favourites stay free of duplicates |
| ReportsHub.ToggleFavouriteTwice | frontend/src/modules/reports/ReportsHub.tsx:32 | starring and unstarring a report restores the favourites |
| ReportsHub.Hub.constructor | frontend/src/modules/reports/ReportsHub.tsx:26-29 | Sales Report active, no favourites, no recent reports, no filters |
| ReportsHub.Hub.ToggleFav | frontend/src/modules/reports/ReportsHub.tsx:32 | the favourites become the toggled list; nothing else changes |
| ReportsHub.Hub.OpenReport | frontend/src/modules/reports/ReportsHub.tsx:33-36 | the report becomes active and moves to the front of at most eight distinct recent reports |
| ReportsHub.Hub.SetFilters | frontend/src/modules/reports/ReportsHub.tsx:29 | only the filters change |
| ReportsHub.Hub.Listed | frontend/src/modules/reports/ReportsHub.tsx:38-39 | exactly the catalogue entries that match the filters |
| ReportsHub.OpenReportTwice | frontend/src/modules/reports/ReportsHub.tsx:35 | opening a report twice in a row leaves the recent list as opening it once |
| PrimaryLists.UpdateWhere | frontend/src/modules/customers/components/AddressManager.tsx:15-17 | entries with the id are rewritten; every other entry is kept in place |
| PrimaryLists.RemoveWhere | frontend/src/modules/customers/components/AddressManager.tsx:18 | exactly the entries with another id remain |
| PrimaryLists.MarkPrimary | frontend/src/modules/customers/components/AddressManager.tsx:19 | every entry is marked primary exactly when it has the id |
| PrimaryLists.ExactlyOnePrimary | frontend/src/modules/customers/components/AddressManager.tsx:19 | with distinct ids, setting a listed id primary leaves exactly one primary entry: that one |
| PrimaryLists.SameKeyAtMostOne | frontend/src/modules/customers/components/AddressManager.tsx:19 | with distinct ids at most one entry has a given id |
| PrimaryLists.MarkPrimaryExact | frontend/src/modules/customers/components/AddressManager.tsx:19 | after marking, an entry is primary exactly when it has the id |
| PrimaryLists.RemoveLeavesPrimaries | frontend/src/modules/customers/components/AddressManager.tsx:18 | removing keeps exactly the primaries with another id |
| AddressManager.Merge | frontend/src/modules/customers/components/AddressManager.tsx:16 | the id is kept; each of kind, line1, line2, city, state, country, postalCode, gstStateCode and isPrimary is the patch's value when the patch carries it and the old value otherwise; an empty patch changes nothing |
| AddressManager.Add | frontend/src/modules/customers/components/AddressManager.tsx:11-14 | one blank Billing address in India appended, primary exactly when the list was empty |
| AddressManager.Update | frontend/src/modules/customers/components/AddressManager.tsx:15-17 | addresses with the id are merged with the patch; the others are kept |
| AddressManager.Remove | frontend/src/modules/customers/components/AddressManager.tsx:18 | exactly the addresses with another id remain |
| AddressManager.SetPrimary | frontend/src/modules/customers/components/AddressManager.tsx:19 | every address is primary exactly when it has the id |
| AddressManager.AddPrimaryOnlyFirst | frontend/src/modules/customers/components/AddressManager.tsx:13 | a new address is primary exactly when it is the first |
| AddressManager.SetPrimaryLeavesOne | frontend/src/modules/customers/components/AddressManager.tsx:19 | with distinct ids exactly one primary remains: the chosen one |
| AddressManager.RemovePrimaryLeavesNone | frontend/src/modules/customers/components/AddressManager.tsx:18 | removing the only primary leaves no primary |
| AddressManager.UpdateKeepsPrimary | frontend/src/modules/customers/components/AddressManager.tsx:15-17 | a patch without the flag leaves every address's primary status as it was |
| ContactManager.Merge | frontend/src/modules/customers/components/ContactManager.tsx:15 | the id is kept; each of name, email, phone, mobile, designation and isPrimary is the patch's value when the patch carries it and the old value otherwise; an empty patch changes nothing |
| ContactManager.Add | frontend/src/modules/customers/components/ContactManager.tsx:11-14 | one unnamed contact appended, primary exactly when the list was empty |
| ContactManager.Update | frontend/src/modules/customers/components/ContactManager.tsx:15 | contacts with the id are merged with the patch; the others are kept |
| ContactManager.Remove | frontend/src/modules/customers/components/ContactManager.tsx:16 | exactly the contacts with another id remain |
| ContactManager.SetPrimary | frontend/src/modules/customers/components/ContactManager.tsx:17 | every contact is primary exactly when it has the id |
| ContactManager.AddPrimaryOnlyFirst | frontend/src/modules/customers/components/ContactManager.tsx:13 | a new contact is primary exactly when it is the first |
| ContactManager.SetPrimaryLeavesOne | frontend/src/modules/customers/components/ContactManager.tsx:17 | with distinct ids exactly one primary remains: the chosen one |
| ContactManager.SetPrimaryTwice | frontend/src/modules/customers/components/ContactManager.tsx:17 | setting the same primary twice is setting it once |
| ApiPaths.WithSlash | frontend/src/constants/apiPaths.ts:15-17 | the result ends in a slash; a path already ending in one is returned unchanged, any other gets exactly one appended |
| ApiPaths.WithSlashIdempotent | frontend/src/constants/apiPaths.ts:15-17 | adding the trailing slash twice is adding it once |
| ApiPaths.RawPath | frontend/src/constants/apiPaths.ts:20-46 | every endpoint template starts with a slash |
| ApiPaths.PathOf | frontend/src/constants/apiPaths.ts:20-46 | every endpoint path starts and ends with a slash |
| ApiPaths.DetailExtendsList | frontend/src/constants/apiPaths.ts:29-30 | the customer detail path is the customer list path followed by the id and a slash |
| ApiPaths.EmptyIdDetailIsList | frontend/src/constants/apiPaths.ts:29-30 | an empty id makes the detail path equal to the list path, for customers and products |
| ApiPaths.OrDefault | frontend/src/constants/apiPaths.ts:72-73 | a missing or zero number falls back to the default, any other is kept |
| ApiPaths.Normalize | frontend/src/constants/apiPaths.ts:70-80 | a response that already has items is returned as given, and only such a response; otherwise items are the results or empty, page defaults to 1, page size to 25, and total is the count unless missing or zero, then the number of results |
| ApiPaths.NormalizeTwice | frontend/src/constants/apiPaths.ts:70-80 | normalizing an already normalized response returns it unchanged |
| ApiPaths.ZeroCountFallsBack | frontend/src/constants/apiPaths.ts:76 | a count of zero reports the number of results instead |
| ApiClient.StripTrailingSlashes | frontend/src/services/api/apiClient.ts:27 | the result is a prefix of the input that does not end in a slash, and everything removed was a slash |
| ApiClient.EnsureApiBase | frontend/src/services/api/apiClient.ts:24-31 | an empty base gives /api/; otherwise the base without trailing slashes gets a slash when it already ends in /api (any case) and /api/ appended when it does not |
| ApiClient.EnsureApiBaseEndsInApi | frontend/src/services/api/apiClient.ts:24-31 | the derived base always ends in /api/ |
| ApiClient.ApiAppended | frontend/src/services/api/apiClient.ts:29-30 | a text with /api appended ends in /api |
| ApiClient.ApiEndNotSlash | frontend/src/services/api/apiClient.ts:29 | a text ending in /api does not end in a slash |
| ApiClient.StripOneSlash | frontend/src/services/api/apiClient.ts:27 | stripping trailing slashes undoes one appended slash |
| ApiClient.EnsureApiBaseIdempotent | frontend/src/services/api/apiClient.ts:24-31 | deriving the base from an already derived base changes nothing |
| ApiClient.TokenStore.constructor | frontend/src/services/api/apiClient.ts:7-8 | the store starts with no access and no refresh token |
| ApiClient.TokenStore.SetAuthTokens | frontend/src/services/api/apiClient.ts:10-13 | the access token is replaced; the refresh token is replaced only when one (possibly null) is given, otherwise kept |
| ApiClient.TokenStore.ClearAuthTokens | frontend/src/services/api/apiClient.ts:15-18 | both tokens are cleared |
| ApiClient.TokenStore.RefreshAccessToken | frontend/src/services/api/apiClient.ts:60-70 | with no usable refresh token nothing changes and no token is returned; a failed refresh clears both tokens and returns none; a successful one returns and stores the new access token and replaces the refresh token only when the response carries one |
| ApiClient.RefreshQueue.constructor | frontend/src/services/api/apiClient.ts:50 | the queue starts empty |
| ApiClient.RefreshQueue.Enqueue | frontend/src/services/api/apiClient.ts:52-54 | the callback is appended at the end of the queue |
| ApiClient.RefreshQueue.Resolve | frontend/src/services/api/apiClient.ts:55-58 | every queued callback is called once, in queue order, with the same token, and the queue is emptied |
| ApiClient.OrElse | frontend/src/services/api/apiClient.ts:118-120 | a missing or empty text falls back to the default, any other is kept |
| ApiClient.ExtractErrorMessage | frontend/src/services/api/apiClient.ts:116-121 | the message is never empty; an HTTP error prefers the server's message, then the error's own, then "Request failed"; any other error gives its message or "Unknown error" |
| ApiHelpers.Safe | frontend/src/utils/apiHelpers.ts:3-7 | exactly one of the value and the error message is set (resolved or rejected); a success gives the value, a failure the extracted, non-empty error message |
| ApiHelpers.PairText | frontend/src/utils/apiHelpers.ts:13 | every encoded key=value pair is non-empty |
| ApiHelpers.PairsOfSentEntries | frontend/src/utils/apiHelpers.ts:11-14 | the pairs are exactly the encoded entries that are not undefined, null or the empty string, in order |
| ApiHelpers.JoinEmpty | frontend/src/utils/apiHelpers.ts:15 | joining non-empty parts is empty exactly when there are no parts |
| ApiHelpers.QueryEmptyIffNothingSent | frontend/src/utils/apiHelpers.ts:9-17 | the query is empty exactly when every parameter is undefined, null or empty; otherwise it starts with a question mark |
| ApiHelpers.BuildQuery | frontend/src/utils/apiHelpers.ts:9-17 | the loop builds the query string of the sent parameters |
| Validators.RequiredFlagsOnlyMissing | frontend/src/utils/validators.ts:5 | required complains exactly about undefined, null and the empty string |
| Validators.Check | frontend/src/utils/validators.ts:5-9 | a custom validator gives its own answer; falsy values pass the length and email checks; a length complaint names a string outside the bound; null and undefined pass isPositiveNumber |
| Validators.LengthChecksFlagOnlyStrings | frontend/src/utils/validators.ts:6-7 | minLength complains exactly about non-empty strings shorter than n, maxLength exactly about strings longer than n |
| Validators.EmailExamples | frontend/src/utils/validators.ts:8 | a@b.c passes, a@b is invalid, the empty string is skipped, and a truthy non-string is invalid |
| Validators.PositiveNumberFlags | frontend/src/utils/validators.ts:9 | isPositiveNumber complains exactly about present values whose number is at most zero, including the empty string, and passes 0.5 |
| Validators.BuiltinMessagesNonEmpty | frontend/src/utils/validators.ts:5-9 | every built-in validator's message is non-empty |
| Validators.Validate | frontend/src/utils/validators.ts:11-17 | none is returned exactly when no validator reports a non-empty message; otherwise the result is the message of the first validator, in list order, that reports one |
| DataTransformers.ToSelectOptions | frontend/src/utils/dataTransformers.ts:3-5 | one option per item, in order, with the item's value and label |
| DataTransformers.HasKeyStep | frontend/src/utils/dataTransformers.ts:7-9 | one more item adds exactly its own key to the keys seen |
| DataTransformers.IndexBy | frontend/src/utils/dataTransformers.ts:7-9 | the index has exactly the keys of the items, and each key maps to the last item carrying it |
| DataTransformers.GroupStep | frontend/src/utils/dataTransformers.ts:11-18 | one more item extends only its own key's group, at the end |
| DataTransformers.GroupsOfStep | frontend/src/utils/dataTransformers.ts:11-18 | pushing the next item onto its key's group keeps the grouping of the prefix correct |
| DataTransformers.GroupBy | frontend/src/utils/dataTransformers.ts:11-18 | raises a TypeError exactly when some item's key names a property a plain object inherits (constructor, toString, __proto__ and the rest); otherwise the groups have exactly the keys of the items, and each group is the items with that key in their original order |
| DataTransformers.ItemInItsGroup | frontend/src/utils/dataTransformers.ts:11-18 | every item lies in the group of its own key |
| DataTransformers.SizeSumEmpty | frontend/src/utils/dataTransformers.ts:11-18 | no items means every group is empty |
| DataTransformers.SizeSumSnoc | frontend/src/utils/dataTransformers.ts:11-18 | one more item grows the total size of distinct groups by one exactly when its key is among them |
| DataTransformers.SizeSumAll | frontend/src/utils/dataTransformers.ts:11-18 | the groups of a distinct key list covering all keys together hold as many items as the input |
| DataTransformers.GroupsPartition | frontend/src/utils/dataTransformers.ts:11-18 | the groups partition the items: their sizes add up to the number of items |
| LowStock.DeriveLowStock | frontend/src/hooks/useInventory.ts:76-78 | exactly the records whose on-hand quantity is at most the reorder level (missing counts as zero) times the factor (default 1) are kept, and nothing else |
| LowStock.MissingLevelMeansEmpty | frontend/src/hooks/useInventory.ts:77 | without a reorder level a record is low exactly when nothing is on hand |
| LowStock.LargerFactorFlagsMore | frontend/src/hooks/useInventory.ts:76-78 | with non-negative reorder levels a larger factor flags every record a smaller one does |
| LowStock.LowStockOfAppend | frontend/src/hooks/useInventory.ts:76-78 | the low-stock list of two lists joined is the two low-stock lists joined |
| AuthContext.GetExpiry | frontend/src/auth/AuthContext.tsx:30-34 | a non-zero exp claim gives exp seconds in milliseconds; a missing or zero claim gives five minutes from now |
| AuthContext.RefreshDelay | frontend/src/auth/AuthContext.tsx:19-42 | the refresh fires at the later of 30 seconds before expiry and 5 seconds from now; without an expiry at once |
| AuthContext.DelayMonotone | frontend/src/auth/AuthContext.tsx:42 | a later expiry never gives an earlier refresh |
| AuthContext.HasPermissionCases | frontend/src/auth/AuthContext.tsx:109-114 | signed out nothing is allowed; the wildcard allows everything; an empty list is allowed to any user; a single permission is allowed exactly when held or under the wildcard |
| AuthContext.HasPermission | frontend/src/auth/AuthContext.tsx:109-114 | allowed exactly when signed in and holding the wildcard or every permission asked |
| AuthContext.FiredRefresh | frontend/src/auth/AuthContext.tsx:94-107 | a refresh that sees no tokens leaves the session's tokens; otherwise the expiry is read again |
| AuthContext.TimerRefreshAsWritten | frontend/src/auth/AuthContext.tsx:40-46 | as written the timer's refresh leaves the tokens as they are |
| AuthContext.TimerRefresh | frontend/src/auth/AuthContext.tsx:40-46 | as intended the timer renews the session's tokens, keeping both token strings |
| AuthContext.StaleTimerNeverRenews | frontend/src/auth/AuthContext.tsx:40-46 | after sign-in the timer fires 30 seconds before expiry; as written the expiry stays 30 seconds away, as intended it moves five minutes on |
| AuthContext.Provider.TimerFires | frontend/src/auth/AuthContext.tsx:43-45 | as written the fired timer renews nothing and leaves no timer pending |
| AuthContext.AllMeansEach | frontend/src/auth/AuthContext.tsx:109-114 | a list of permissions is allowed exactly when a user is signed in and each one is allowed |
| AuthContext.MorePermissionsAllowMore | frontend/src/auth/AuthContext.tsx:109-114 | a user holding every permission of another is allowed everything the other is |
| AuthContext.DemoUser | frontend/src/auth/AuthContext.tsx:77-120 | the demonstration user holds the wildcard permission |
| AuthContext.LoadPersisted | frontend/src/auth/AuthContext.tsx:56-66 | tokens are restored only from stored, non-empty text that parses; they are never already expired; tokens without an expiry are restored as parsed |
| AuthContext.PersistedTokensReload | frontend/src/auth/AuthContext.tsx:48-66 | tokens written by persist are read back by loadPersisted until they expire, and not after |
| AuthContext.Provider.constructor | frontend/src/auth/AuthContext.tsx:37-38 | signed out, not loading, not initialized, no timer |
| AuthContext.Provider.Persist | frontend/src/auth/AuthContext.tsx:48-54 | remembered tokens are stored as their serialization, anything else removes them |
| AuthContext.Provider.ScheduleRefresh | frontend/src/auth/AuthContext.tsx:40-46 | the single timer is replaced by one with the refresh delay |
| AuthContext.Provider.Login | frontend/src/auth/AuthContext.tsx:68-86 | when storage accepts the write, the demonstration user is signed in with the fixed tokens expiring in 15 minutes, stored only when remembered, and a refresh is scheduled 30 seconds before expiry; when storage raises, the login fails, the message is recorded, loading ends and the tokens, storage and timer are untouched |
| AuthContext.LoginFailure | frontend/src/auth/AuthContext.tsx:83 | the recorded error is never empty: the exception's message, or 'Login failed' when it has none |
| AuthContext.Provider.Logout | frontend/src/auth/AuthContext.tsx:88-92 | signed out, initialized, storage cleared and no timer |
| AuthContext.Provider.Refresh | frontend/src/auth/AuthContext.tsx:94-107 | without tokens nothing changes; otherwise the expiry is recomputed from the access token, the tokens are stored and a refresh is rescheduled |
| AuthContext.Provider.Init | frontend/src/auth/AuthContext.tsx:117-126 | a stored unexpired session is restored with the demonstration user and a refresh scheduled; otherwise only initialized is set |
| Sidebar.GroupOf | frontend/src/components/layout/Sidebar.tsx:40 | an item's group name is never empty: a missing or empty group is Other |
| Seqs.SortBy | frontend/src/components/layout/Sidebar.tsx:44 | sorting by a text key returns a permutation of the entries, ordered by their keys' character codes; distinct entries stay distinct |
| Sidebar.Groups | frontend/src/components/layout/Sidebar.tsx:36-45 | the group entries of the shown items, ordered by their text |
| Sidebar.MembersOfShownName | frontend/src/components/layout/Sidebar.tsx:36-43 | every group name that was used has at least one member |
| Sidebar.GroupsHoldMembers | frontend/src/components/layout/Sidebar.tsx:36-45 | each listed group holds exactly the shown items of its name, in their order, and is never empty |
| Sidebar.GroupListedIffUsed | frontend/src/components/layout/Sidebar.tsx:36-45 | a group is listed exactly when some shown item belongs to it |
| Sidebar.SearchNarrows | frontend/src/components/layout/Sidebar.tsx:39 | with a search text, every listed item comes from the navigation list, contains the text ignoring case and sits in its own group |
| Sidebar.BuildGroups | frontend/src/components/layout/Sidebar.tsx:36-45 | the loop builds the sorted group list |
| Sidebar.PushVisible | frontend/src/components/layout/Sidebar.tsx:37-43 | the group names come out in order of first use, each group holding exactly its visible items in order |
| Sidebar.ToggleGroup | frontend/src/components/layout/Sidebar.tsx:47-49 | the clicked group's flag becomes the negation of its stored flag, a missing flag reading as false; other groups keep their flags |
| Sidebar.IsOpen | frontend/src/components/layout/Sidebar.tsx:75 | a group is closed exactly when its stored flag is false |
| Sidebar.ToggleFlipsOnceSet | frontend/src/components/layout/Sidebar.tsx:47-75 | once a group has a flag, a click flips whether it is open |
| Sidebar.FirstClickKeepsGroupOpen | frontend/src/components/layout/Sidebar.tsx:47-75 | the first click on a never-toggled group leaves it open |
| Sidebar.ToggleShown | frontend/src/components/layout/Sidebar.tsx:47-75 | the corrected toggle leaves every other group's openness unchanged |
| Sidebar.ToggleShownFlips | frontend/src/components/layout/Sidebar.tsx:47-75 | with the corrected toggle every click, the first included, flips the group, and two clicks restore it |
| Sidebar.SidebarState.constructor | frontend/src/components/layout/Sidebar.tsx:33-34 | empty search, no group flags |
| Sidebar.SidebarState.SetSearch | frontend/src/components/layout/Sidebar.tsx:33-66 | the search text is replaced, flags kept |
| Sidebar.SidebarState.Toggle | frontend/src/components/layout/Sidebar.tsx:47-49 | the flags become the toggled flags, search kept |
| NotificationContext.UnreadCount | frontend/src/contexts/NotificationContext.tsx:18 | the unread count never exceeds the number of notifications |
| NotificationContext.NoneUnreadIffAllRead | frontend/src/contexts/NotificationContext.tsx:18 | nothing is unread exactly when every notification is read |
| NotificationContext.MarkedRead | frontend/src/contexts/NotificationContext.tsx:17 | same length; notifications with the id become read, the others are unchanged |
| NotificationContext.MarkReadIdempotent | frontend/src/contexts/NotificationContext.tsx:17 | marking the same id read twice is marking it once |
| NotificationContext.MarkedIdsRead | frontend/src/contexts/NotificationContext.tsx:17 | after marking, every notification with the id is read |
| NotificationContext.PushCount | frontend/src/contexts/NotificationContext.tsx:16-18 | appending a notification raises the unread count by one exactly when it is not read |
| NotificationContext.MarkReadCount | frontend/src/contexts/NotificationContext.tsx:17-18 | marking lowers the unread count by exactly the number of unread notifications with the id |
| NotificationContext.Provider.constructor | frontend/src/contexts/NotificationContext.tsx:15 | no notifications |
| NotificationContext.Provider.Unread | frontend/src/contexts/NotificationContext.tsx:18 | the unread count never exceeds the list and is zero exactly when every notification is read |
| NotificationContext.Provider.Push | frontend/src/contexts/NotificationContext.tsx:16 | the notification is appended with the given id and time, and the unread count grows by one unless it arrives read |
| NotificationContext.Provider.MarkRead | frontend/src/contexts/NotificationContext.tsx:17 | the list becomes the marked list, and the unread count does not grow |
| NotificationContext.Provider.WentOffline | frontend/src/contexts/NotificationContext.tsx:22-24 | an unread warning "You are offline" is appended |
| NotificationContext.Provider.CameOnline | frontend/src/contexts/NotificationContext.tsx:23-25 | an unread success "Back online" is appended |
| SalesOrderForm.Empty | frontend/src/modules/sales/SalesOrderForm.tsx:19-24 | a new order is a draft with id new, no items and no customer, dates, terms or discount |
| SalesOrderForm.Merge | frontend/src/modules/sales/SalesOrderForm.tsx:32 | the empty patch changes nothing, and a carried status replaces the order's |
| SalesOrderForm.MergeFields | frontend/src/modules/sales/SalesOrderForm.tsx:32 | a patch replaces exactly the fields it carries and leaves the others |
| SalesOrderForm.MergeIdentityAndIdempotent | frontend/src/modules/sales/SalesOrderForm.tsx:32 | the empty patch changes nothing, and applying a patch twice is applying it once |
| SalesOrderForm.Offered | frontend/src/modules/sales/SalesOrderForm.tsx:48-54 | Submit for Approval is offered exactly for a draft, Approve and Reject exactly for an order pending approval |
| SalesOrderForm.Target | frontend/src/modules/sales/SalesOrderForm.tsx:48-54 | no button sets Draft; only Submit for Approval leads to a status that offers further buttons |
| SalesOrderForm.WorkflowOrder | frontend/src/modules/sales/SalesOrderForm.tsx:39-54 | an offered action moves a draft to pending approval and a pending order to approved or rejected, never back to draft or to the same status, and only the final statuses offer nothing |
| SalesOrderForm.OrderForm.constructor | frontend/src/modules/sales/SalesOrderForm.tsx:19-30 | the form starts with the empty order |
| SalesOrderForm.OrderForm.Update | frontend/src/modules/sales/SalesOrderForm.tsx:32 | the order becomes the old order merged with the patch |
| SalesOrderForm.OrderForm.Press | frontend/src/modules/sales/SalesOrderForm.tsx:39-54 | an offered button changes only the status, to its target |
| InvoiceForm.Empty | frontend/src/modules/sales/InvoiceForm.tsx:20-25 | a new invoice is a draft with id new, no number and no items |
| InvoiceForm.NumberOnSubmit | frontend/src/modules/sales/InvoiceForm.tsx:41 | a non-empty invoice number is kept; a missing or empty one becomes INV- followed by the time |
| InvoiceForm.Merge | frontend/src/modules/sales/InvoiceForm.tsx:34 | a patch replaces the fields it carries and every field it leaves out keeps its value; id and date are kept; the empty patch changes nothing |
| InvoiceForm.SubmittedNumberShape | frontend/src/modules/sales/InvoiceForm.tsx:41 | the number after submission is never empty, and a fresh one is INV- and digits |
| InvoiceForm.Submit | frontend/src/modules/sales/InvoiceForm.tsx:41 | the status becomes submitted; a non-empty number is kept, a missing or empty one becomes INV- followed by the digits of the time; nothing else changes |
| InvoiceForm.SubmitEffect | frontend/src/modules/sales/InvoiceForm.tsx:41 | submission sets the status to submitted and a non-empty number, changes nothing else, and a second submission would change nothing |
| InvoiceForm.Form.constructor | frontend/src/modules/sales/InvoiceForm.tsx:31-32 | the form starts with the empty invoice and the preview closed |
| InvoiceForm.Form.Update | frontend/src/modules/sales/InvoiceForm.tsx:34 | the invoice becomes the old invoice merged with the patch, preview kept |
| InvoiceForm.Form.PressSubmit | frontend/src/modules/sales/InvoiceForm.tsx:41-49 | the offered Submit button submits the invoice, after which it is no longer offered |
| InvoiceForm.Form.SetPreview | frontend/src/modules/sales/InvoiceForm.tsx:32-50 | the preview flag is set, the invoice kept |

## Left out

**Back end: framework and infrastructure**
- The Django ORM, the REST framework's serializers, routers and pagination classes, the settings, admin and URL configuration. Querysets are sequences and responses are values. The pagination class constants (25 per page, at most 200) are configuration and are not modelled.
- Logging and the audit fields written by `perform_create` and `perform_update`. They only record who changed a row.
- The JWT login, logout and refresh views, and the exception-reshaping handler. Both belong to the framework.
- The aggregates of `dashboard_metrics` (backend/core/views.py:30-72). They are ORM sums and counts; only its date-range defaults are modelled.
- `SalesOrderViewSet.get_queryset` (backend/sales/views.py:147-162). It applies the same optional, conjunctive filter chain as the invoice list, which `AccountingViews.FilterInvoices` models.
- `StockEntryViewSet.perform_create`, `perform_update`, `submit_entry` and `cancel_entry`. They only call `StockEntry.apply_to_inventory`, which is not part of this model, or return a constant.
- `amount_in_words` and `send_email`. `convert_amount_to_words` is not part of this model, and the e-mail action is a placeholder returning a constant.
- `calculate_gst_breakdown` is imported by the accounting models but not defined in the GST calculator module. It is a parameter returning the three tax amounts.
- `SalesOrder`, with its guards (`can_confirm`, `can_cancel`) and transitions, is not part of this model. They are parameters.
- The user capability methods (`is_viewer`, `can_edit_finances`, …) are not defined on the user model in view. They are an uninterpreted lookup.

**Text, numbers and encodings**
- Text.IsWs: whitespace is the six ASCII whitespace characters `\t`, `\n`, `\v`, `\f`, `\r` and space. Python's `str.strip` also removes the ASCII separators `\x1c`-`\x1f` and the Unicode spaces, and JavaScript's `trim` and `\s` the Unicode spaces; neither is modelled. Digits and letter case are the ASCII ones; the Unicode tables of `upper` and `toLowerCase` are not modelled.
- These are parameters: `JSON.stringify`, `JSON.parse`, `String(v)`, the percent-encoding of `URLSearchParams`, reading the text of a numeric string in `Number(...)`, and JWT decoding with `atob`.
- `Infinity`, `BigInt` and the `valueOf` of objects are not modelled.
- The object key order of integer-like keys in `Object.entries`/`Object.values` is not modelled. Records keep insertion order.
- DataTransformers.IndexBy: a `__proto__` key is not modelled; assigning it replaces the accumulator's prototype instead of adding an entry. (`groupBy` raises on that key, as `DataTransformers.GroupBy` states.)
- The UI's floating-point money arithmetic is not modelled.
- String lengths are counted in characters. JavaScript's `.length` counts UTF-16 code units, so a character outside the Basic Multilingual Plane counts twice in `minLength` and `maxLength` (frontend/src/utils/validators.ts:6-7) and once here.
- `date.fromisoformat` is read as before Python 3.11, which accepts only `YYYY-MM-DD`. From 3.11 on it also accepts forms such as `20240105` and week dates, which `CoreViews.ParseIsoDate` rejects.
- AccountingViews.FilterInvoices: the conversion of the customer parameter to an id and of the date parameters to dates are parameters. Comparison is on the converted values, as the database does it.

**Front end: asynchrony, timers and the browser**
- The axios request and response interceptors, including the 401 retry and its shared `isRefreshing` flag. They are about overlapping in-flight requests.
- These are parameters: `Date.now()` (a number of milliseconds), ids from `Math.random()`, the outcome of an awaited bulk action, and `window.confirm`.
- `setTimeout` and focus handling, and the autosave debounce of the dynamic form.
- AuthContext.RefreshDelay: the delay is handed to `setTimeout` unbounded. Browsers fire a delay above 2^31 - 1 ms (about 24.8 days) at once, so tokens expiring that far ahead would be refreshed immediately. The model keeps the computed delay.
- Navigation with `navigate(...)`, and the Save, Print and Email placeholders of the editors.
- The rendering of the keyboard help overlay.
- KeyboardShortcuts.Provider.KeyDown: the help overlay sorts the registry array in place while it renders (frontend/src/components/global/KeyboardShortcuts.tsx:105). Later key presses then scan the sorted order. The model keeps registration order.

**Component details**
- The dynamic form's controlled reset, submit and save modes, and its `disabled`, `readOnly` and `options` settings. They pass settings through to the inputs.
- The child table's drag-over handler only prevents the browser default and is left out. `ChildTable.DragState.Drop` requires the drop index to be a row index, as the rendered rows guarantee.
- A patch type without an `id` field in the editors is not modelled. A non-string error message in `extractErrorMessage` is read as absent.
- A `NaN` quantity in the stock entry screen is not modelled. Quantities are exact numbers.
- `SalesOrderForm.OrderForm.Press` and `InvoiceForm.Form.PressSubmit` require the button to be offered. The source renders a button only in the status that offers it.

**Contracts deliberately weaker than the source**
- StockEntry.Screen.Summary: its own contract states the line count. The quantity sum is stated through the total-quantity lemmas (`StockEntry.ScanAddsOne`, `StockEntry.EditWithoutQuantityKeepsTotal`), not in the summary's contract.
- DataTable.Csv: only the no-rows case is stated. The cells themselves are stated by `DataTable.ExportLines` and `DataTable.EscapeRoundTrip`.
- Seqs.SortBy: it is an insertion sort on a text key. The sidebar sorts by the entries' default string form, and `InventoryViews.CurrentStock` sorts by product name. Among entries with equal keys, the model's order may differ from the browser's sort and from the database's.
- InventoryViews.Valuation: reports the products in the order of their first ledger movement. The source leaves the queryset order unspecified.
- InventoryViews.CurrentStock: names are compared by character code, as a byte-order collation does; the database's collation for `name` may order them otherwise. Among products with equal names the database's order is unspecified; the model places them in a fixed order of its own.
- Validators.LengthChecksFlagOnlyStrings: speaks of string values. A truthy non-string value with a `length` property (an array) is not modelled.
- AccountingModels.DeriveLine: quantity and price are always present numbers. The `or Decimal('0')` fallback for a missing one and a missing product HSN code are not modelled.
- InventoryViews.StoredPrice: an exact half paisa is rounded away from zero, as PostgreSQL's `numeric` does. Under the SQLite engine, used when no database is configured, the tie rule may differ. A price too large for `max_digits=14` is not modelled.
- InventoryViews.PriceUpdates: an `updates` value that is not a list, and a request body that is not an object, are not modelled. A price that is NaN or infinite counts as a value the decimal field refuses.
- SalesViews.BulkSetActive, SalesViews.OrderTable.BulkConfirm, SalesViews.OrderTable.BulkCancel and SalesViews.OrderTable.BulkStatus take integer ids. An id the `id__in` lookup cannot convert, such as "abc", raises a ValueError (a 500) before any row changes.
- InventoryViews.StockEntryBook.BulkAdjust: a `NaN` or infinite quantity that passes `qty == 0` is modelled only as far as the entry it creates. `StockEntry.apply_to_inventory` is not part of this model. A bad product is assumed to fail when its line is created, after its entry exists.
- SalesModels.FieldErrors / CodedFieldErrors: the credit limit is an exact number, not a Python `Decimal` that keeps the digits it was written with. Django's decimal check counts the written digits and places, so it rejects `Decimal("1.500")` and a float such as `0.1` once converted, while the model accepts them as 1.5 and 0.1. The model checks the value with trailing zeros dropped: at most two places, at least 0 and below 10^12.
- AccountingModels.Invoice: `savedStatus` is the only column of the invoice row modelled apart from the in-memory fields. The other saved columns take their in-memory values at each save. A full `save()`, such as the serializers' create and update, writes `status` too; it is not modelled.
- SalesModels.SaveErrors: the uniqueness check compares customer codes exactly. The database collation is not modelled.
- ApiHelpers.Safe: "present" means resolved or rejected. A promise that resolves to `null` or `undefined` gives `[null, null]` in the source, and the model's value is then that `null`.
- AuthContext.DemoUser: states only that the demonstration user holds the wildcard permission. Its other fields are constants.

## Findings

| source | as written | input that shows it | evidently intended | confidence | as-written member | corrected member |
|---|---|---|---|---|---|---|
| backend/sales/models.py:147-153 | `full_clean` validates the GSTIN field before `clean()` upper-cases it, so `save` rejects a lower-case GSTIN | GSTIN `22aaaaa0000a1z5` | normalise first, then validate, so the upper-cased GSTIN is accepted | medium, not executed | SalesModels.LowercaseGstinRejected | SalesModels.CleanFirstAcceptsLowercase |
| frontend/src/modules/products/components/VariantManager.tsx:32-37 | an attribute without values empties the accumulator, and the next attribute restarts the product, dropping every earlier attribute | Color (Red, Blue), Size (no values), Material (Cotton) gives one variant, Cotton | attributes without values are skipped, giving Red-Cotton and Blue-Cotton | medium, not executed | VariantManager.EmptyAttributeDropsEarlierOnes | VariantManager.SkippingEmptyKeepsColours |
| frontend/src/auth/AuthContext.tsx:40-46 | `scheduleRefresh` is memoised with no dependencies, so its timer calls the first render's `refresh`, which sees no tokens and returns | sign in; the timer fires 30 seconds before the fifteen minutes are up | the timer renews the tokens the session holds | high, not executed | AuthContext.TimerRefreshAsWritten | AuthContext.TimerRefresh |
| frontend/src/components/layout/Sidebar.tsx:47-75 | `toggleGroup` stores `!g[name]`, but an untouched group is shown open through `?? true`, so the first click stores true and the group stays open | the first click on any group | every click flips whether the group is shown | high, not executed | Sidebar.FirstClickKeepsGroupOpen | Sidebar.ToggleShownFlips |
| backend/accounting/models.py:169-172 | `calculate_totals(save=True)` mirrors the payment status into `status` but saves every field except `status`, so the row keeps the old status; `InvoiceLine.save` and the invoice create and update endpoints go through it | a DRAFT invoice due on day 1 gains a one-rupee zero-rated line on day 2: the row says payment OVERDUE, status DRAFT | `status` is saved with the payment status, as `apply_payment` does at line 214 | high, not executed | AccountingModels.OverdueLineLeavesRowDraft | AccountingModels.OverdueLineMarksRowOverdue |

The classes use the code as written. `SalesModels.Customer.Save` validates before cleaning and `Sidebar.SidebarState.Toggle` uses `Sidebar.ToggleGroup`, and `AuthContext.Provider.TimerFires` renews nothing. The corrected definitions stand beside them: `SalesModels.Customer.SaveCleanFirst`, `VariantManager.CombosSkippingEmpty`, `Sidebar.ToggleShown` and `AuthContext.TimerRefresh`; `AuthContext.StaleTimerNeverRenews` sets the two side by side. `AccountingModels.Invoice.CalculateTotals` and `AccountingModels.Invoice.SaveLine` keep the row's status as written; `AccountingModels.Invoice.CalculateTotalsSavingStatus` and `AccountingModels.Invoice.SaveLineSavingStatus` are the corrected saves.
