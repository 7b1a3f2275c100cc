# hesab-xpay back office — client-side rules

hesab-xpay is the back office of a currency exchange. Operators keep a register of customers and record invoices ("sanad") in toman, tether and Perfect Money. Most of the web client renders screens and calls a REST backend. This project models the client-side rules that decide what it shows and what it sends, and proves properties of them:

- **Dates.** A table's date filter counts days in the Persian (Solar Hijri) calendar. `addDaysDV` moves a date one day per loop step, carrying and borrowing across months and years. A preset (today, yesterday, last 7 / 30 / 365 days, custom) gives the `{from, to}` range. A date goes to the backend as `yyyy-mm-dd`. The same code appears in both customer tables; it is modelled once (`jalali.dfy`, `date_filter.dfy`).
- **Customers.** The customer-management panel has a create/edit form, a selected customer and an info modal with the customer's balances. A balance is labelled creditor, debtor or no debt by its sign, and coloured the same way (`customers.dfy`).
- **Customer tables.** The two tables build request arguments, and the summary table colours its balance cells and resets its page on search (`customer_tables.dfy`).
- **Invoices.** The invoice page builds the type and symbol option lists. The form has a required-field guard and builds create and update requests. The list request maps filters, and long text is truncated in table cells (`sanad.dfy`). The create modal filters digit-and-comma input in its amount and rate fields, parses it and formats it on blur, and shows the rate, hash and tracking-code fields by symbol and type. The edit modal does the same for its amount field only; its rate field is the finding below, and it shows every field (`invoice_modals.dfy`).
- **Login.** Login takes two steps. The six-slot verification-code buffer is an array filled by typing or pasting, and rules decide when the form can be submitted (`login.dfy`).
- **String helpers.** camelCase/snake_case conversion and the guard cases of the digit separator (`string_case.dfy`).

`text.dfy` holds the JavaScript string behaviour the rules rely on: `String(n)`, `padStart`, `trim`, a global literal `replace`, and `Number` of a digit string. `wrappers.dfy` holds `Option`, which stands for JavaScript's `null` and `undefined`.

External inputs are parameters:

- the month length of the Persian calendar, given as `MonthLength`: any function that gives 29 to 31 days for months 1 to 12;
- "today";
- the backend's success or failure;
- the locale formatting of numbers and `parseFloat`.

Component state that handlers change in place is a `class`. The React effects are methods the caller runs after the state change that triggers them.

## Model

| member | source | states |
|---|---|---|
| `Jalali.Next` | src/components/CustomerManagementTable.tsx:63-74 | one forward step takes a valid date to a valid date strictly after it |
| `Jalali.Prev` | src/components/CustomerManagementTable.tsx:51-60 | one backward step takes a valid date to a valid date strictly before it |
| `Jalali.AddDays` | src/components/CustomerManagementTable.tsx:46-77 | a missing date gives today. Otherwise the result is the date moved by `delta` days: `-delta` backward steps for negative `delta`, `delta` forward steps otherwise. The same function appears at src/components/CustomerSummaryTable.tsx:41-72. |
| `Jalali.ShiftByZero` | src/components/CustomerManagementTable.tsx:49 | moving by 0 days returns the date unchanged |
| `Jalali.NextIsSuccessor` | src/components/CustomerManagementTable.tsx:63-74 | no valid date lies strictly between a valid date and its forward step |
| `Jalali.PrevIsPredecessor` | src/components/CustomerManagementTable.tsx:51-60 | no valid date lies strictly between a valid date's backward step and the date |
| `Jalali.PrevOfNext` | src/components/CustomerManagementTable.tsx:51-74 | a backward step undoes a forward step on a valid date, across month and year ends |
| `Jalali.NextOfPrev` | src/components/CustomerManagementTable.tsx:51-74 | a forward step undoes a backward step on a valid date, across month and year starts |
| `Jalali.ForwardValid` | src/components/CustomerManagementTable.tsx:63-74 | any number of forward steps keeps a date valid |
| `Jalali.BackwardValid` | src/components/CustomerManagementTable.tsx:51-61 | any number of backward steps keeps a date valid |
| `Jalali.ShiftValid` | src/components/CustomerManagementTable.tsx:46-77 | moving a valid date by any delta gives a valid date |
| `Jalali.BackwardOfForward` | src/components/CustomerManagementTable.tsx:51-74 | `n` backward steps undo `n` forward steps on a valid date |
| `Jalali.ForwardOfBackward` | src/components/CustomerManagementTable.tsx:51-74 | `n` forward steps undo `n` backward steps on a valid date |
| `Jalali.ShiftRoundTrip` | src/components/CustomerManagementTable.tsx:46-77 | moving a valid date by `n`, then by `-n`, gives it back |
| `Jalali.ForwardAdvances` | src/components/CustomerManagementTable.tsx:63-74 | `n > 0` forward steps move a valid date strictly later; 0 steps leave it as it is |
| `Jalali.LastDayRollsOver` | src/components/CustomerManagementTable.tsx:66-72 | after a month's last day comes day 1 of the next month, and after month 12 comes month 1 of the next year |
| `DateFilter.PresetRangeSpan` | src/components/CustomerSummaryTable.tsx:96-116 | every non-custom preset gives two valid ends. `to` is today (yesterday for `yesterday`). `from` sits exactly 0, 0, 6, 29 or 364 days before `to`, never after it. The same effect appears at src/components/CustomerManagementTable.tsx:84-104. |
| `DateFilter.ToIsoDate` | src/components/CustomerManagementTable.tsx:14-20 | a date string exists exactly when a date does |
| `DateFilter.TwoDigitsOfSmall` | src/components/CustomerManagementTable.tsx:17-18 | zero-padding a number below 100 gives two digits worth that number |
| `DateFilter.IsoDateRoundTrip` | src/components/CustomerSummaryTable.tsx:18-24 | a date with month and day below 100 reads back from its `yyyy-mm-dd` string |
| `DateFilter.IsoDateExample` | src/components/CustomerManagementTable.tsx:14-20 | 1402/1/5 is written "1402-01-05" |
| `DateFilter.PresetFilter.constructor` | src/components/CustomerManagementTable.tsx:33-43 | starts with preset `today` and range (today, today) |
| `DateFilter.ComputePresetRange` | src/components/CustomerManagementTable.tsx:84-104 | the switch computes, with `addDays`, exactly the range the preset denotes: today, yesterday twice, or 6, 29 or 364 days back to today |
| `DateFilter.PresetFilter.SelectPreset` | src/components/CustomerManagementTable.tsx:84-111 | choosing the current preset again changes nothing. A new non-custom preset stores its range, and `custom` clears both ends. Outside custom mode the range keeps two valid ends in order. |
| `DateFilter.PresetFilter.PickRange` | src/components/CustomerManagementTable.tsx:80-83 | a range picked in custom mode is stored as given; a missing value is ignored |
| `DateFilter.PresetFilter.PickToday` | src/components/CustomerManagementTable.tsx:451-453 | the "today" button stores (today, today) |
| `Text.PadStart` | src/components/CustomerManagementTable.tsx:17 | the result has the target width, or the input's length if that is longer; it ends with the input and starts with fill characters |
| `Text.Trim` | src/auth/pages/jwt/Login.tsx:81 | the result is no longer than the input, and neither end of it is white space |
| `Text.TrimKeepsMiddle` | src/auth/pages/jwt/Login.tsx:81 | the result is a contiguous piece of the input; everything before and after that piece is white space |
| `Text.ReplaceAllRemovesPattern` | src/pages/dashboards/sanad/Sanad.tsx:48 | a left-to-right global replace leaves no occurrence of the pattern when pattern and replacement share no leading character |
| `Text.ReplaceCharByNothing` | src/pages/dashboards/sanad/Sanad.tsx:120 | replacing every comma by nothing deletes exactly the commas |
| `Customers.StandingOf` | src/components/CustomerManagementTableContent.tsx:381 | creditor iff the balance is positive, debtor iff negative, no debt iff zero |
| `Customers.BalanceLabel` | src/components/CustomerManagementTableContent.tsx:380-381 | the label is the label of the balance's standing |
| `Customers.BalanceLabelDeterminesSign` | src/components/CustomerManagementTableContent.tsx:381 | two balances get the same label iff they have the same sign, so each balance gets exactly one of the three labels |
| `Customers.ColoursFollowStanding` | src/components/CustomerManagementTableContent.tsx:377-380 | figure and label colours each name one standing. They agree except at zero, where the figure is dark gray and the label light gray. |
| `Customers.InfoOf` | src/components/CustomerManagementTableContent.tsx:149-154 | the form gets the selected customer's first name, last name, phone number and description |
| `Customers.ApplyEdit` | src/components/CustomerManagementTableContent.tsx:113-118 | an edit keeps the customer's id and customer code |
| `Customers.EditFormLaws` | src/components/CustomerManagementTableContent.tsx:113-118 | saving the form as loaded changes nothing, and reloading after an edit shows what was saved |
| `Customers.UpdateField` | src/components/CustomerManagementTableContent.tsx:221 | a field's change handler replaces that field only |
| `Customers.EditRequestFor` | src/components/CustomerManagementTableContent.tsx:109-118 | there is a request iff a customer is selected; it carries the selected id and the four form fields |
| `Customers.CustomerPanel.constructor` | src/components/CustomerManagementTableContent.tsx:54-61 | empty form, no summary, nothing loading, no modal open |
| `Customers.CustomerPanel.ResetCustomerInfo` | src/components/CustomerManagementTableContent.tsx:64-71 | all four form fields become empty |
| `Customers.CustomerPanel.EditField` | src/components/CustomerManagementTableContent.tsx:279 | the form changes in the edited field only |
| `Customers.CustomerPanel.OpenEdit` | src/components/CustomerManagementTable.tsx:160-163 | selects the customer and opens the edit modal |
| `Customers.CustomerPanel.LoadEditForm` | src/components/CustomerManagementTableContent.tsx:147-156 | with the edit modal open and a customer selected, the form is that customer's four fields; the form is left alone otherwise |
| `Customers.CustomerPanel.HandleEditCustomer` | src/components/CustomerManagementTableContent.tsx:109-132 | no request and no change without a selection. On success the modal closes, selection and form are cleared and the table reloads. On failure nothing changes. |
| `Customers.CustomerPanel.HandleCreateCustomer` | src/components/CustomerManagementTableContent.tsx:93-107 | the form is sent as it is. On success the modal closes, the form is cleared and the table reloads. On failure nothing changes. |
| `Customers.CustomerPanel.CancelEdit` | src/components/CustomerManagementTableContent.tsx:311-315 | closes the edit modal, clears the selection and the form |
| `Customers.CustomerPanel.CancelCreate` | src/components/CustomerManagementTableContent.tsx:253-256 | closes the create modal and clears the form |
| `Customers.CustomerPanel.OpenInfo` | src/components/CustomerManagementTable.tsx:165-168 | selects the customer and opens the info modal |
| `Customers.CustomerPanel.LoadSummary` | src/components/CustomerManagementTableContent.tsx:136-144 | with the info modal open and a customer selected, the service's answer is stored, so a failed request (answered with null, src/services/customerService.ts:86-102) clears the summary, and loading ends; otherwise nothing changes |
| `Customers.CustomerPanel.CloseInfo` | src/components/CustomerManagementTableContent.tsx:428-432 | closes the info modal and clears the selection and the summary |
| `CustomerTables.CustomersQuery` | src/components/CustomerManagementTable.tsx:193-202 | sends the grid parameters and the search text; each date is present iff that end of the range is |
| `CustomerTables.CustomersQueryCarriesRange` | src/components/CustomerManagementTable.tsx:195-201 | the backend can read back exactly the valid dates of the range |
| `CustomerTables.SummaryQueryFor` | src/components/CustomerSummaryTable.tsx:265-274 | sends the grid parameters and the search text only |
| `CustomerTables.SummaryQueryIgnoresRange` | src/components/CustomerSummaryTable.tsx:268-274 | the summary request is the same whatever dates are selected |
| `CustomerTables.SummaryColourMatchesPanel` | src/components/CustomerSummaryTable.tsx:211 | the summary table colours a balance as the info modal colours its figure: gray at zero, green above, red below |
| `CustomerTables.CustomerColumn` | src/components/CustomerSummaryTable.tsx:144 | first name, then one space, then last name |
| `CustomerTables.SummaryTable.constructor` | src/components/CustomerSummaryTable.tsx:26 | empty search text, first page, ten rows a page |
| `CustomerTables.SummaryTable.SetSearchQuery` | src/components/CustomerSummaryTable.tsx:305 | stores the typed search text |
| `CustomerTables.SummaryTable.Search` | src/components/CustomerSummaryTable.tsx:287-291 | requests one reload and goes back to the first page |
| `CustomerTables.SummaryTable.NextQuery` | src/components/CustomerSummaryTable.tsx:270-273 | the next request asks for the current page with the current search text |
| `Sanad.TransformTypeTitle` | src/pages/dashboards/sanad/Sanad.tsx:47-49 | the length is kept, no "کاربر" is left in a title, and a title without it is unchanged |
| `Sanad.TransformTypeTitleReplaces` | src/pages/dashboards/sanad/Sanad.tsx:47-49 | the first "کاربر" becomes "مشتری", the text before it is kept, and the rest of the title is rewritten the same way |
| `Sanad.TransformTypeTitleExample` | src/pages/dashboards/sanad/Sanad.tsx:47-49 | "نوع کاربر" becomes "نوع مشتری" |
| `Sanad.TransformTypes` | src/pages/dashboards/sanad/Sanad.tsx:62-65 | same length and order; each id is kept and each title rewritten |
| `Sanad.TransformedTitlesClean` | src/pages/dashboards/sanad/Sanad.tsx:61-65 | no loaded type title contains "کاربر" |
| `Sanad.WithoutIds` | src/pages/dashboards/sanad/Sanad.tsx:88 | an entry is kept iff its id is not excluded |
| `Sanad.WithoutIdsAppend` | src/pages/dashboards/sanad/Sanad.tsx:94 | the filter keeps the order: filtering a concatenation filters each part |
| `Sanad.DropPerfectMoney` | src/pages/dashboards/sanad/Sanad.tsx:67-68 | a loaded symbol is kept iff its id is not 2 |
| `Sanad.SymbolOptions` | src/pages/dashboards/sanad/Sanad.tsx:87-91 | with type 1 or 2 selected, a symbol is offered iff it is not toman (id 3); otherwise all symbols are offered |
| `Sanad.TypeOptions` | src/pages/dashboards/sanad/Sanad.tsx:93-97 | with toman selected, a type is offered iff its id is neither 1 nor 2; otherwise all types are offered |
| `Sanad.OptionsNeverOfferPerfectMoney` | src/pages/dashboards/sanad/Sanad.tsx:68-91 | Perfect Money is never among the symbol options |
| `Sanad.CreateRequestFor` | src/pages/dashboards/sanad/Sanad.tsx:133-148 | there is a request iff customer, type and symbol are all set, with 0 counting as unset. The rate is left out for toman and is the form's rate otherwise. The other fields come from the form and the selections. |
| `Sanad.UpdateRequestFor` | src/pages/dashboards/sanad/Sanad.tsx:163-176 | there is a request iff an invoice is selected and customer, type and symbol are set. It carries the invoice's id and always the form's rate. |
| `Sanad.InfoOfInvoice` | src/pages/dashboards/sanad/Sanad.tsx:213-221 | the form gets every field of the selected invoice |
| `Sanad.SaveUnchangedEdit` | src/pages/dashboards/sanad/Sanad.tsx:211-224 | opening an invoice for editing and saving it untouched sends exactly that invoice back |
| `Sanad.FilterArg` | src/pages/dashboards/sanad/Sanad.tsx:233-234 | -1 sends no filter; any other id is sent unchanged |
| `Sanad.InvoiceQueryFor` | src/pages/dashboards/sanad/Sanad.tsx:228-235 | grid parameters and search text, and each filter present iff it is not -1 |
| `Sanad.Truncated` | src/pages/dashboards/sanad/Sanad.tsx:354 | "-" for empty text; longer text becomes its first `width` characters and "..."; other text is unchanged; a cell is never empty and at most `width + 3` long |
| `Sanad.TxIdCell` | src/pages/dashboards/sanad/Sanad.tsx:354 | the hash cell follows the truncation rule with width 20 |
| `Sanad.DescriptionCell` | src/pages/dashboards/sanad/Sanad.tsx:371 | the description cell, written differently, follows the same rule with width 30 |
| `Sanad.RemoveCommaFromNumber` | src/pages/dashboards/sanad/Sanad.tsx:119-121 | the number of the text with every comma deleted |
| `Sanad.SanadPage.constructor` | src/pages/dashboards/sanad/Sanad.tsx:17-44 | filters at -1, empty lists, an empty form, nothing selected, no modal open |
| `Sanad.SanadPage.LoadData` | src/pages/dashboards/sanad/Sanad.tsx:51-83 | types get rewritten titles and Perfect Money is dropped; each option list starts as its full list |
| `Sanad.SanadPage.ApplySelectionFilters` | src/pages/dashboards/sanad/Sanad.tsx:86-98 | the option lists become the symbol and type options for the current selections |
| `Sanad.SanadPage.SelectCustomer` | src/pages/dashboards/sanad/CreateInvoiceModal.tsx:70 | stores the chosen customer |
| `Sanad.SanadPage.SelectType` | src/pages/dashboards/sanad/CreateInvoiceModal.tsx:95 | stores the chosen type |
| `Sanad.SanadPage.SelectSymbol` | src/pages/dashboards/sanad/currentSelct.tsx:32 | stores the chosen symbol |
| `Sanad.SanadPage.ResetInvoiceInfo` | src/pages/dashboards/sanad/Sanad.tsx:104-117 | amount, rate and customer become 0, strings empty and enum references `{0, ""}`; all three selections are cleared |
| `Sanad.SanadPage.TriggerRefresh` | src/pages/dashboards/sanad/Sanad.tsx:100-102 | the reload counter goes up by one |
| `Sanad.SanadPage.OpenEdit` | src/pages/dashboards/sanad/Sanad.tsx:123-126 | selects the invoice and opens the edit modal |
| `Sanad.SanadPage.LoadEditForm` | src/pages/dashboards/sanad/Sanad.tsx:211-226 | with the modal open and an invoice selected, the form and the three selections take its values; they are left alone otherwise |
| `Sanad.SanadPage.HandleCreateInvoice` | src/pages/dashboards/sanad/Sanad.tsx:133-161 | sends the create request of the guard above. On success the modal closes, the form resets and the table reloads. Otherwise nothing changes. |
| `Sanad.SanadPage.HandleEditInvoiceSubmit` | src/pages/dashboards/sanad/Sanad.tsx:163-190 | sends the update request of the guard above. On success the modal closes, the selected invoice is cleared, the form resets and the table reloads. Otherwise nothing changes. |
| `Sanad.SanadPage.NextQuery` | src/pages/dashboards/sanad/Sanad.tsx:230-235 | the next list request uses the current search text and filters |
| `InvoiceModals.AcceptedValue` | src/pages/dashboards/sanad/CreateInvoiceModal.tsx:131-136 | accepted digit-and-comma text always parses to a finite number: the decimal value of its digits, 0 for none |
| `InvoiceModals.CommaDoesNotChangeValue` | src/pages/dashboards/sanad/CreateInvoiceModal.tsx:55-57 | a comma typed anywhere keeps the text accepted and leaves its value unchanged |
| `InvoiceModals.AcceptedValueOfPlainDigits` | src/pages/dashboards/sanad/CreateInvoiceModal.tsx:133 | digits without commas are accepted and worth their decimal value |
| `InvoiceModals.PersianDigitMakesNaN` | src/pages/dashboards/sanad/EditInvoiceMdal.tsx:149 | text that holds a Persian digit parses to NaN |
| `InvoiceModals.AsWrittenRateChanged` | src/pages/dashboards/sanad/EditInvoiceMdal.tsx:149 | as written, see Findings: the unfiltered text goes to `removeCommaFromNumber`; digit-and-comma text gives its finite value, other text whatever `Number` makes of it |
| `InvoiceModals.TypingIntoFormattedRate` | src/pages/dashboards/sanad/EditInvoiceMdal.tsx:148-149 | as written, see Findings: with a formatter that writes zero as "۰", the zero rate's `digitSeparator` display followed by any typed text is stored as NaN, and NaN is then displayed as "0" |
| `InvoiceModals.FieldVisibility` | src/pages/dashboards/sanad/CreateInvoiceModal.tsx:150-189 | hash and tracking code are never shown together. The tracking code shows iff the rate does not. With everything selected, the rate shows iff the create request carries a rate. |
| `InvoiceModals.SelectValue` | src/pages/dashboards/sanad/CreateInvoiceModal.tsx:69 | the select shows nothing iff nothing, or 0, is selected |
| `InvoiceModals.SelectedId` | src/pages/dashboards/sanad/CreateInvoiceModal.tsx:70 | an empty choice is null; any other is its number |
| `InvoiceModals.SelectRoundTrip` | src/pages/dashboards/sanad/CreateInvoiceModal.tsx:69-70 | a selected id is read back from the value the select shows; no selection reads back as none |
| `InvoiceModals.CreateInvoiceModal.constructor` | src/pages/dashboards/sanad/CreateInvoiceModal.tsx:25-28 | the display strings are the parent's props, given as parameters, and the modal edits the given page's form |
| `InvoiceModals.CreateInvoiceModal.AmountChanged` | src/pages/dashboards/sanad/CreateInvoiceModal.tsx:128-138 | rejected text changes nothing. Accepted text is displayed as typed and its value becomes the amount; every other form field is kept. |
| `InvoiceModals.CreateInvoiceModal.AmountBlurred` | src/pages/dashboards/sanad/CreateInvoiceModal.tsx:139-144 | a positive amount is displayed formatted; otherwise the display stays |
| `InvoiceModals.CreateInvoiceModal.RateChanged` | src/pages/dashboards/sanad/CreateInvoiceModal.tsx:155-165 | the amount's rule, applied to the rate |
| `InvoiceModals.CreateInvoiceModal.RateBlurred` | src/pages/dashboards/sanad/CreateInvoiceModal.tsx:166-171 | a positive rate is displayed formatted; otherwise the display stays |
| `InvoiceModals.CreateInvoiceModal.Cancel` | src/pages/dashboards/sanad/CreateInvoiceModal.tsx:212-215 | closes the modal and resets the form and the selections |
| `InvoiceModals.EditInvoiceModal.constructor` | src/pages/dashboards/sanad/EditInvoiceMdal.tsx:15-18 | the amount display is the parent's prop, given as a parameter; the rate display serves only the corrected rate input; the modal edits the given page's form |
| `InvoiceModals.EditInvoiceModal.AmountChanged` | src/pages/dashboards/sanad/EditInvoiceMdal.tsx:123-133 | rejected text changes nothing. Accepted text is displayed as typed and its value becomes the amount; every other form field is kept. |
| `InvoiceModals.EditInvoiceModal.AmountBlurred` | src/pages/dashboards/sanad/EditInvoiceMdal.tsx:134-139 | a positive amount is displayed formatted; otherwise the display stays |
| `InvoiceModals.EditInvoiceModal.RateChanged` | src/pages/dashboards/sanad/EditInvoiceMdal.tsx:147-151 | corrected, see Findings. Only digit-and-comma text reaches the rate, which is then always finite; other fields are kept. |
| `InvoiceModals.EditInvoiceModal.RateBlurred` | src/pages/dashboards/sanad/EditInvoiceMdal.tsx:148 | corrected, see Findings: a positive rate is displayed formatted |
| `InvoiceModals.EditInvoiceModal.Cancel` | src/pages/dashboards/sanad/EditInvoiceMdal.tsx:177-181 | closes the modal, clears the selected invoice and resets the form and selections |
| `Login.ValidationRules` | src/auth/pages/jwt/Login.tsx:12-19 | values are valid iff the phone number has at least 10 characters and the password 3 to 50 |
| `Login.JoinOfFullSlots` | src/auth/pages/jwt/Login.tsx:63 | joining one-digit slots gives a digit string with one digit per slot, in order |
| `Login.Filled` | src/auth/pages/jwt/Login.tsx:87-89 | slot `i` gets digit `i` while digits last; later slots are kept |
| `Login.FilledBeyond` | src/auth/pages/jwt/Login.tsx:84 | digits beyond the last slot are dropped |
| `Login.PasteResult` | src/auth/pages/jwt/Login.tsx:79-91 | a paste never changes the number of slots |
| `Login.PastePreservesSlots` | src/auth/pages/jwt/Login.tsx:81-89 | after a paste every slot is still empty or one digit |
| `Login.PasteFillsCode` | src/auth/pages/jwt/Login.tsx:84-89 | pasting six or more digits makes the joined code the first six of them |
| `Login.EnabledMeansCompleteCode` | src/auth/pages/jwt/Login.tsx:203-205 | an enabled button in the code step means the joined code is six digits |
| `Login.CompleteCodeEnables` | src/auth/pages/jwt/Login.tsx:203-205 | six typed digits enable the button unless a request is under way |
| `Login.LoginForm.constructor` | src/auth/pages/jwt/Login.tsx:39-44 | login step, six empty slots, no stored credentials |
| `Login.LoginForm.InputChange` | src/auth/pages/jwt/Login.tsx:98-102 | a value that is neither empty nor one digit changes nothing; otherwise only slot `index` changes; the buffer stays valid |
| `Login.LoginForm.Paste` | src/auth/pages/jwt/Login.tsx:79-91 | the slots become `PasteResult` of the old slots: ignored unless the trimmed text is a non-empty digit string, else its first digits fill the first slots |
| `Login.LoginForm.Submit` | src/auth/pages/jwt/Login.tsx:49-77 | invalid values change nothing and call nothing. The first step stores phone and password and moves to the code step without calling login. The code step calls login with the stored credentials and the joined code. A missing login function or a failed login sets the error status. |
| `StringCase.InsertUnderscores` | src/utils/String.ts:13 | the result is longer by one character per lower-upper pair, scanned left to right without overlap, and starts with the input's first character |
| `StringCase.InsertUnderscoresKeepsText` | src/utils/String.ts:13 | the replace only inserts `_`: with every `_` dropped, output and input agree |
| `StringCase.InsertUnderscoresPlaces` | src/utils/String.ts:13 | for text without `_`, each `_` of the output stands between a lower-case and an upper-case letter, and no lower-upper pair is left without one |
| `StringCase.CamelToSnake` | src/utils/String.ts:13 | no upper-case letter is left, and the result is longer by one per lower-upper boundary |
| `StringCase.CamelToSnakeWithoutUpper` | src/utils/String.ts:13 | text without upper-case letters is unchanged |
| `StringCase.CamelToSnakeExamples` | src/utils/String.ts:13 | "fooBar" becomes "foo_bar" |
| `StringCase.CamelToSnakeNoOverlapExample` | src/utils/String.ts:13 | "aBC" becomes "a_bc": only the first capital of a run follows a lower-case letter |
| `StringCase.SnakeToCamel` | src/utils/String.ts:17 | the result is shorter by exactly one character per `_`-and-word-character match, so never longer |
| `StringCase.SnakeToCamelWithoutUnderscore` | src/utils/String.ts:17 | text without `_` is unchanged |
| `StringCase.SnakeToCamelKeepsTrailingUnderscore` | src/utils/String.ts:17 | a trailing `_` is still there afterwards |
| `StringCase.SnakeToCamelExamples` | src/utils/String.ts:17 | "a_b" becomes "aB" and "a_" stays "a_" |
| `StringCase.CamelSnakeRoundTrip` | src/utils/String.ts:13-17 | camelCase without `_`, where every capital follows a lower-case letter, survives conversion to snake_case and back |
| `StringCase.DigitSeparator` | src/utils/String.ts:3-10 | "0" for undefined, null, NaN or an unparsable string; otherwise the formatted number |
| `StringCase.DigitSeparatorZeroMeansGuard` | src/utils/String.ts:4-7 | when the formatter never writes "0", the result is "0" exactly in the guard cases |

## Left out

- REST calls, toasts and `try/catch` plumbing are left out. The backend's answer is a parameter (`succeeded`, `result`), and the services are not part of this model.
- The delete handlers are left out: they open the delete modal and call the backend's delete, and DeleteInvoiceModal.tsx is commented out. The same goes for clipboard copying and the table column filters.
- The Persian leap-year rule of the month-length library call is left out. Month length is any function giving 29 to 31 days. "Today" from the library is a parameter.
- Jalali.AddDays: only `null`/`undefined` is treated as a missing date; other falsy values the JavaScript `!dv` would catch are not.
- `computeDateRange`, `toISODate` and `formatPersianDate` are left out: they use JavaScript `Date`/`Intl`.
- `digitSeparator`'s `toLocaleString('fa-IR')` and `parseFloat` are left out. Both are parameters, so locale output and floating point are not modelled.
- Numbers are mathematical: amounts and rates are unbounded integers and balances are reals. Double precision, `Infinity` and fractional input are not modelled.
- Text.JsNumber gives a value only for ASCII digit strings and NaN only for text with a character no numeral holds. Signs, decimal points, exponents and hexadecimal forms are `Unmodelled`.
- String lengths count Dafny characters, not UTF-16 code units. This matters for Yup's length rules and for cell truncation only outside the Basic Multilingual Plane.
- StringCase.CamelToSnake lower-cases ASCII letters only. JavaScript `toLowerCase` also lower-cases non-ASCII letters. `\w` and `[a-z]`/`[A-Z]` are ASCII-only in the source, so the scan itself is exact.
- Timing, the DOM and the router are left out: the 300 ms search debounce, focus moves, `document.querySelector`, `navigate`, the redirect target and the password visibility toggle.
- Render order is left out. Effects are methods that the caller runs after the change that triggers them. The reload requests in the preset select and the "apply" button are not modelled. Neither is the order of `reload()` and `resetPageIndex()` in the summary search.
- The login form's `localStorage` write for `remember` and Formik's `setSubmitting` are left out. Formik's `isSubmitting` is a parameter of `Login.SubmitDisabled`. Yup's messages are left out; only which values pass is modelled.
- Sanad.tsx's own inline create modal (its lines 515-635) and inline edit modal (its lines 637-754) are not modelled: their selects and number inputs call `Number` directly, and the edit modal shows rate and hash unconditionally. Their amount and rate inputs (lines 580-581, 591-592, 702-703 and 712-713) show `digitSeparator` output and feed the edited text to `removeCommaFromNumber`. They behave like the finding below, which `Sanad.RemoveCommaFromNumber` and `InvoiceModals.PersianDigitMakesNaN` state.
- The customer list that Sanad.tsx loads for its customer select is left out, since it only feeds the options. So is the modals' plain text setters for hash, tracking code and description.
- The invoice form's `rate` is an integer, so the NaN that the edit modal's as-written rate handler stores cannot sit in the page's form. That value is the result of `InvoiceModals.AsWrittenRateChanged`. The `EditInvoiceModal` class carries the corrected handler.
- CreateInvoiceModal.tsx and EditInvoiceMdal.tsx are not rendered by Sanad.tsx. They are modelled as components over the page's state, matching their props.

## Findings

| source | as written | input that shows it | evidently intended | confidence | as-written member | corrected member |
|---|---|---|---|---|---|---|
| src/pages/dashboards/sanad/EditInvoiceMdal.tsx:148-149 | The rate input displays `digitSeparator(rate)`, written in Persian digits. Its change handler passes the edited text to `removeCommaFromNumber` unfiltered. | The zero rate is displayed as "۰". Typing 5 gives "۰5", and `Number` makes that NaN, which becomes the rate. | The rate input should behave like the amount input and the create modal's rate input: accept ASCII digits and commas only, keep its own display text and format on blur. | not executed; `Number` rejects Persian digits by the language definition | `InvoiceModals.TypingIntoFormattedRate` | `InvoiceModals.EditInvoiceModal.RateChanged` |
