# Jewellers' invoicing system — a verified model of its core

The system issues GST invoices for jewellers. It is a set of Node services and a React frontend:

- The **invoice service** numbers invoices, snapshots line items from its product cache, asks the customer service to create the invoice's customer, and keeps a cache of companies fed by company events. It also prices and totals the rows it prints on PDF invoices (with SGST and CGST of 1.5 % each) and spells amounts in Indian-system words ("Rs One Lakh Twenty Three Thousand … Only").
- The **customer service** stores customers and replies with `customer.created`.
- The **company service** stores companies (each with an address and a bank record) and attaches products to their tenant's company. Its product schema fills in the Harmonized System tariff heading.
- The **tenant service** records a tenant's owner when the user is created.
- The **frontend** validates the company, customer and invoice forms. It runs a sign-in/onboarding wizard and a three-step company wizard, filters and counts companies on the dashboard, and keeps sign-in and company state in two Redux slices.

Each core source file is one Dafny module here:

- Pure code is functions with contracts and lemmas.
- Code that changes state is a class whose methods state the new state in terms of the old one. This covers the stores, the event consumers, React component state and the Redux slices.
- Loops are methods with invariants, proved against the functions that specify them. These are the per-state count and the chart data built from it (`DashboardStats.CountByState`, `DashboardStats.StateChartData`), the company lookup (`CompanyController.CompanyStore.GetCompany`) and the product listing (`ProductService.ProductStore.GetAllProducts`).

Shared modules: `Wrappers` (Option and Result), `Text` (digits, padding, split, trim, join, lower-casing), `Money` (rounding to paise).

Modelling conventions:

- Money is an exact `real`. `toFixed(2)` is `Money.Round2`, which rounds half away from zero.
- Documents with free-form fields (the company cache, company records, request bodies) are maps from field names to values. So a Mongo `$set` or a JavaScript object spread is map union, with the right-hand side winning. Schemas are strict: an insert or update keeps only the schema's declared paths. Whether a query filter on an undeclared path is dropped (Mongoose's `strictQuery`) depends on the Mongoose version, so it is a boolean parameter.
- Times, fresh ids and the outcome of network requests are parameters.

Behaviours of the code worth recording:

- The draft invoice's constant `total: 106702` is not a field of the invoice schema (services/invoice-service/src/model/invoice.model.js:19-47), so strict mode drops it. Only `tax: 2` is stored, and the model keeps exactly that.
- The company schema (services/company-service/src/model/companyModel.js:4-48) declares no `tenantId`, so no stored company holds one. `findOne({ tenantId })` in `getCompany` and `createProductInDB` therefore never finds the tenant's own company: with `strictQuery` off it finds nothing, and with it on the filter is dropped and the first company is returned, whichever tenant owns it.
- `convertNumberToWords(0)` returns the bare "Zero" (frontend/invoice-system/src/components/InvoiceForm.tsx:117), without " Only".
- A company form's empty email is reported as "Invalid email address", never as "Email is required", because the format check runs first.
- `addCompany` answers a clash on the bank's account number with "Error adding company", and a company the schema refuses with 200 and no record. The store services swallow their own errors (address.service.js, bank.service.js and company.service.js each catch and return `undefined`), so the handler's code-11000 branch cannot be reached.

## Model

| member | source | states |
|---|---|---|
| IndianWords.ConvertToIndianWords | services/invoice-service/src/utils/converision.js:56-86 | The group loop (crore, lakh, thousand, remainder, each non-zero group followed by its scale word), then trim and whitespace collapse, produces `Spell(number)`: "Zero" for 0, the group words joined by single spaces otherwise, and empty text for NaN or a negative number |
| IndianWords.AddGroup | services/invoice-service/src/utils/converision.js:61-76 | One group step leaves `num % weight` and appends the group's words and scale word followed by one space, or nothing when the group is zero |
| IndianWords.ChunkWordsAreTokens | services/invoice-service/src/utils/converision.js:39-54 | `convertLessThanThousand` spells only non-empty, space-free words, and spells nothing exactly when its input is 0 |
| IndianWords.LessThanThousandJoin | services/invoice-service/src/utils/converision.js:39-54 | `convertLessThanThousand(n)` is its words (units, teens, tens plus unit, "Hundred" plus the rest) joined by single spaces |
| IndianWords.WordsAreTokens | services/invoice-service/src/utils/converision.js:56-81 | Every amount is spelled by a non-empty list of space-free words |
| IndianWords.SpellWellSpaced | services/invoice-service/src/utils/converision.js:83 | The spelling of every non-negative number is non-empty, has no leading or trailing space, and never has two spaces in a row |
| IndianWords.FinishSpelling | services/invoice-service/src/utils/converision.js:79-83 | After the group loop, trimming and collapsing whitespace leave exactly the words joined by single spaces |
| IndianWords.CollapseWellSpaced | services/invoice-service/src/utils/converision.js:83 | `replace(/\s+/g, " ")` changes nothing in text made of single plain spaces |
| IndianWords.JoinTokensWellSpaced | services/invoice-service/src/utils/converision.js:83 | Words joined by single spaces give well-spaced text that starts with a word |
| IndianWords.TrimTrailingSpace | services/invoice-service/src/utils/converision.js:83 | `trim` removes exactly the one trailing space the loop leaves after a scale word |
| IndianWords.GroupStep | services/invoice-service/src/utils/converision.js:61-76 | Appending "words + ' Crore '" (or Lakh or Thousand) to the pending text is the pending text of the longer word list |
| IndianWords.Decompose | services/invoice-service/src/utils/converision.js:60-81 | The crore, lakh, thousand and remainder groups recombine to the amount; the lakh and thousand groups are below 100 |
| IndianWords.ChunkRead | services/invoice-service/src/utils/converision.js:39-54 | Reading back the words of a group below 1000 yields the group's value |
| IndianWords.WordsRoundTrip | services/invoice-service/src/utils/converision.js:56-81 | When the crore part is below 1000, reading the words back yields the amount |
| IndianWords.WordsInjective | services/invoice-service/src/utils/converision.js:56-83 | Two amounts below 10^10 with the same spelling are equal |
| IndianWords.JoinTokensSplit | services/invoice-service/src/utils/converision.js:83 | Splitting the spelling on spaces gives back its words |
| IndianWords.LeadingDigits | services/invoice-service/src/utils/converision.js:100 | `parseInt` reads the longest digit prefix of the rupees text |
| IndianWords.PaiseDigits | services/invoice-service/src/utils/converision.js:94-97 | With a fraction of at least one digit, the paise text has exactly two characters |
| IndianWords.AmountToWords | services/invoice-service/src/utils/converision.js:89-112 | A missing amount (the caught exception) gives "Rs Zero Only". Otherwise the result is "Rs " + the rupees' spelling + " and … Paise" (only when the paise text is not "00") + " Only" |
| IndianWords.AmountFraming | services/invoice-service/src/utils/converision.js:100-107 | Whatever the input, the words start with "Rs " and end with " Only" |
| IndianWords.PaiseDigitsAreDigits | services/invoice-service/src/utils/converision.js:92-97 | For decimal text, the paise are two digits: the first two after the point, right-padded with '0', or "00" without a fraction |
| IndianWords.AmountWordsOfDecimal | services/invoice-service/src/utils/converision.js:92-105 | For decimal text the rupees are spelled by value. The paise clause appears exactly when there is a fraction whose two-digit value is non-zero, and spells that value |
| IndianWords.TwoDigitsZero | services/invoice-service/src/utils/converision.js:103 | The paise text "00" is exactly the two-digit text whose value is 0 |
| IndianWords.OneDigitFraction | services/invoice-service/src/utils/converision.js:97 | A one-digit fraction is right-padded: "12.5" has paise "50" |
| InvoiceForm.ConvertChunk | frontend/invoice-system/src/components/InvoiceForm.tsx:119-135 | `convertChunk(n)` is the group's words, each followed by one space |
| InvoiceForm.ConvertNumberToWords | frontend/invoice-system/src/components/InvoiceForm.tsx:79-160 | The converter as written, on an amount in whole paise, returns `AsWrittenWords` (the findings below show where that differs from the evident intent) |
| InvoiceForm.SplitAmount | frontend/invoice-system/src/components/InvoiceForm.tsx:137-144 | The `Math.floor` and `%=` steps yield the crore, lakh, thousand and hundreds groups of the rupees and the paise, also for negative totals |
| InvoiceForm.NegativeGroups | frontend/invoice-system/src/components/InvoiceForm.tsx:137-144 | JavaScript's truncating `%=` on a negative total leaves non-positive groups and Euclidean paise |
| InvoiceForm.JsRem | frontend/invoice-system/src/components/InvoiceForm.tsx:138-142 | JavaScript's `%` has the sign of the dividend and a magnitude below the divisor, and agrees with `%` on non-negative numbers |
| InvoiceForm.GroupWords | frontend/invoice-system/src/components/InvoiceForm.tsx:146-150 | The four `if (… > 0) words += …` steps build each non-zero group's words and scale word, each followed by a space |
| InvoiceForm.AddChunk | frontend/invoice-system/src/components/InvoiceForm.tsx:146-149 | One group step appends the group's words and scale word when the group is positive, and nothing otherwise |
| InvoiceForm.ZeroIfBlank | frontend/invoice-system/src/components/InvoiceForm.tsx:152-154 | Blank words become "Zero"; after trimming, the words are the rupees' spelling joined by single spaces |
| InvoiceForm.AddPaise | frontend/invoice-system/src/components/InvoiceForm.tsx:155-157 | The paise clause is appended exactly when the paise are positive |
| InvoiceForm.SpelledNothing | frontend/invoice-system/src/components/InvoiceForm.tsx:152 | Group words trim to blank only for zero rupees, and then "Zero" is their spelling |
| InvoiceForm.SpelledSomething | frontend/invoice-system/src/components/InvoiceForm.tsx:152-154 | Group words that are not blank trim to the rupees' words joined by single spaces |
| InvoiceForm.SettlePositive | frontend/invoice-system/src/components/InvoiceForm.tsx:152-154 | A positive amount never spells blank: its trimmed group words are its words joined by single spaces |
| InvoiceForm.NumberWordsJoin | frontend/invoice-system/src/components/InvoiceForm.tsx:117-159 | The corrected converter's text is its words joined by single spaces, so it is well spaced |
| InvoiceForm.NumberWordsFraming | frontend/invoice-system/src/components/InvoiceForm.tsx:152-159 | The corrected text starts with the rupees' spelling and ends with " Only"; a whole number of rupees has no paise clause |
| InvoiceForm.AsWrittenDoubleSpace | frontend/invoice-system/src/components/InvoiceForm.tsx:155-159 | As written, every amount with paise prints two spaces before "Paise" |
| InvoiceForm.AsWrittenZero | frontend/invoice-system/src/components/InvoiceForm.tsx:117 | As written, 0 is "Zero" without " Only"; the corrected converter gives "Zero Only" |
| InvoiceForm.WholeRupeesAgree | frontend/invoice-system/src/components/InvoiceForm.tsx:117-159 | For positive whole-rupee amounts the as-written and corrected converters agree |
| InvoiceForm.ServerMatchesClient | services/invoice-service/src/utils/converision.js:89-107 | On decimal text, the backend's words are "Rs " followed by the corrected frontend spelling of the same rupees and two-digit paise |
| InvoiceForm.NumberWordsOf | frontend/invoice-system/src/components/InvoiceForm.tsx:137-144 | An amount of `100·r + p` paise is spelled with rupees `r` and paise `p` |
| InvoiceForm.SubtotalConcat | frontend/invoice-system/src/components/InvoiceForm.tsx:233-240 | The subtotal `reduce` is additive over the item list |
| InvoiceForm.LiveTotals | frontend/invoice-system/src/components/InvoiceForm.tsx:224-265 | Missing items give zero totals and empty words. Otherwise the subtotal is the rounded sum of the rows, SGST and CGST are each the rounded 1.5 % of it, and the total is the rounded sum of the three, each within rounding of the exact figure. The words are those of `convertNumberToWords` as written (`AsWrittenWords`) for the total in paise |
| InvoiceForm.NoItemsShowZero | frontend/invoice-system/src/components/InvoiceForm.tsx:224-265 | An empty items table shows zero figures and the bare "Zero", without " Only" |
| InvoiceForm.ValidItemValue | frontend/invoice-system/src/components/InvoiceForm.tsx:37-47 | An item the schema accepts has a positive value |
| InvoiceForm.ValidItemsSubtotal | frontend/invoice-system/src/components/InvoiceForm.tsx:37-47 | Items the schema accepts have a positive subtotal, growing with their number |
| InvoiceForm.ValidInvoiceTotals | frontend/invoice-system/src/components/InvoiceForm.tsx:53-65 | An invoice the schema accepts (at least one valid item, a customer phone of 10+ digits) has a positive subtotal and non-negative taxes and total |
| Money.Cents | services/invoice-service/src/controller/pdfController.js:23-26 | `toFixed(2)` prints a whole number of paise within half a paisa of the amount, non-negative for non-negative amounts |
| Money.Round2 | frontend/invoice-system/src/components/InvoiceForm.tsx:243-253 | `parseFloat(x.toFixed(2))` is within half a paisa of `x` |
| Money.CentsOfCents | services/invoice-service/src/controller/pdfController.js:23-26 | A whole number of paise prints as itself |
| Money.Round2Idempotent | frontend/invoice-system/src/components/InvoiceForm.tsx:243-253 | Rounding a rounded amount changes nothing |
| Money.Round2Symmetric | frontend/invoice-system/src/components/InvoiceForm.tsx:243-253 | A negative amount rounds like its magnitude |
| Money.Round2InPaise | frontend/invoice-system/src/components/InvoiceForm.tsx:243-253 | Every rounded amount is a whole number of paise |
| Money.PaiseAdd | services/invoice-service/src/controller/pdfController.js:30-34 | Sums of whole paise are whole paise, and rounding leaves them alone |
| Money.Mills | services/invoice-service/src/controller/pdfController.js:247 | `toFixed(3)` prints a whole number of thousandths within half a thousandth |
| Money.Round3 | services/invoice-service/src/controller/pdfController.js:247 | The printed weight is within half a thousandth of the weight |
| PdfController.PricedRow | services/invoice-service/src/controller/pdfController.js:238-252 | A printed row keeps type, description, HSN and purity. Its weight, value, making, other charges (0 when absent) and amount are within rounding of the exact figures. Every money cell is a whole number of paise |
| PdfController.RowOf | services/invoice-service/src/controller/pdfController.js:237-253 | The row's value is within rounding of rate × gross weight, and its amount within rounding of value + making % of value + other charges |
| PdfController.Rows | services/invoice-service/src/controller/pdfController.js:237 | One row per item, in order |
| PdfController.CalculateTotal | services/invoice-service/src/controller/pdfController.js:30-34 | The column total is 0 for no rows, within rounding of the column's sum, and a whole number of paise |
| PdfController.ColumnSumInPaise | services/invoice-service/src/controller/pdfController.js:30-34 | A sum of whole-paise cells is whole paise |
| PdfController.AmountTotalExact | services/invoice-service/src/controller/pdfController.js:257-294 | Totalling the amount and making columns loses nothing: the printed totals equal the column sums |
| PdfController.AmountTotalDrift | services/invoice-service/src/controller/pdfController.js:237-257 | The amount column's sum differs from the exact total by at most half a paisa per row |
| PdfController.Summarize | services/invoice-service/src/controller/pdfController.js:257-309 | SGST equals CGST; the total with GST is the amount total plus both, i.e. 103 % of it; no rows give all zeros |
| PdfController.GrandTotal | services/invoice-service/src/controller/pdfController.js:237-258 | The total with GST is within 0.515 paise per row of 103 % of the exact total |
| PdfController.FileName | services/invoice-service/src/controller/pdfController.js:60 | The file name is "invoice_" + invoice number + ".pdf" |
| PdfController.FileNameInjective | services/invoice-service/src/controller/pdfController.js:60 | Different invoice numbers get different file names |
| PdfController.DailyNumber | services/invoice-service/src/controller/pdfController.js:523-525 | The number is the date, "-", then at least four digits whose value is the sequence |
| PdfController.FirstOfDay | services/invoice-service/src/controller/pdfController.js:515-525 | The first number of a day ends in "-0001" |
| PdfController.NoTruncation | services/invoice-service/src/controller/pdfController.js:523 | From 1000 on, padding adds nothing and never truncates |
| PdfController.DailyNumberInjective | services/invoice-service/src/controller/pdfController.js:513-525 | Different dates or sequences give different numbers |
| PdfController.DailySequence.GenerateInvoiceNumber | services/invoice-service/src/controller/pdfController.js:510-532 | The date's counter (0 when absent) grows by exactly one, other dates' counters are unchanged, and the number carries the new count |
| PdfController.SuccessiveNumbersDiffer | services/invoice-service/src/controller/pdfController.js:515-525 | Two calls on one day never give the same number |
| PdfService.FromStored | services/invoice-service/src/services/pdf.service.js:160-163 | A stored line item printed by the PDF service keeps weight and rate and has no making or other charges |
| PdfService.ServiceRowAsWritten | services/invoice-service/src/services/pdf.service.js:160-176 | As written, a row without making charges prints making and amount 0.00 (the NaN path of `formatMoney`). Otherwise its amount is value + making % + other charges, with value = rate / 10 × weight |
| PdfService.ServiceRow | services/invoice-service/src/services/pdf.service.js:160-176 | Corrected row: absent making charges count as 0. The amount is within rounding of the exact cost, and the row agrees with the as-written one whenever making charges are present |
| PdfService.ServiceRows | services/invoice-service/src/services/pdf.service.js:160 | One row per item, in order |
| PdfService.ServiceRowsAsWritten | services/invoice-service/src/services/pdf.service.js:160 | One as-written row per item, in order |
| PdfService.StoredItems | services/invoice-service/src/services/pdf.service.js:462 | The invoice's stored items, each printed from its snapshot |
| PdfService.ZeroAmounts | services/invoice-service/src/services/pdf.service.js:180 | Rows of amount 0 total 0 |
| PdfService.SavedInvoicePrintsZero | services/invoice-service/src/services/pdf.service.js:160-181 | Every saved invoice prints amount 0.00 on each row, and total and total with GST 0 |
| PdfService.StoredRowAmount | services/invoice-service/src/services/pdf.service.js:161-163 | Corrected, a saved item's amount is within rounding of rate / 10 × weight |
| PdfService.ServiceTotals | services/invoice-service/src/services/pdf.service.js:426-432 | The total is the amount column's sum, SGST equals CGST, and the total with GST is 103 % of the total |
| PdfService.ServiceFileName | services/invoice-service/src/services/pdf.service.js:446 | The file name is the invoice number + ".pdf" |
| PdfService.CreatePdfAsWritten | services/invoice-service/src/services/pdf.service.js:435-470 | As written: fails with "Company not found" exactly when the company cache has no entry for the invoice's company. Otherwise it prints that company, one row per item and the rows' summary under the invoice's file name, and every amount cell reads 0.00 with total and total with GST 0 |
| PdfService.CreatePdf | services/invoice-service/src/services/pdf.service.js:435-470 | Corrected (absent charges count as none): the same company lookup, file and summary, and each row's amount is within half a paisa of its item's rate / 10 × weight |
| PdfService.StoredRowsAmounts | services/invoice-service/src/services/pdf.service.js:160-176 | Corrected, every stored line prints an amount within half a paisa of rate / 10 × weight |
| PdfService.ServiceFileNameInjective | services/invoice-service/src/services/pdf.service.js:446 | Different invoice numbers get different file names |
| InvoiceService.InvoiceNumberDigits | services/invoice-service/src/services/invoice.service.js:423-427 | The number is "INV_" followed by decimal digits that read back as the index |
| InvoiceService.InvoiceNumberInjective | services/invoice-service/src/services/invoice.service.js:423-427 | Different counts give different numbers |
| InvoiceService.TenantProducts | services/invoice-service/src/services/invoice.service.js:381 | The product cache lookup returns exactly the tenant's products |
| InvoiceService.FindProduct | services/invoice-service/src/services/invoice.service.js:396 | `find` returns a product with the item's id, or nothing exactly when none has it |
| InvoiceService.Snapshot | services/invoice-service/src/services/invoice.service.js:395-408 | A line item copies id, name, category, karat and HSN from the product, and weight, quantity and rate from the request |
| InvoiceService.SnapshotTotal | services/invoice-service/src/services/invoice.service.js:406 | The line total is weight × quantity × rate, non-negative for non-negative inputs |
| InvoiceService.SnapshotItemsOk | services/invoice-service/src/services/invoice.service.js:395-408 | Issuance's snapshot of the request lines succeeds exactly when every line's product is in the tenant's product cache |
| InvoiceService.SnapshotItemsValues | services/invoice-service/src/services/invoice.service.js:395-408 | A successful snapshot has one invoice line per request line, in request order, whose product fields come from that line's cached product and whose weight, quantity and rate come from the request line |
| InvoiceService.SnapshotItemsMissing | services/invoice-service/src/services/invoice.service.js:395-408 | A failed snapshot names the product id of a request line whose product is not cached |
| InvoiceService.CustomerDoc | services/invoice-service/src/model/invoice.model.js:23-29 | The stored customer keeps only the schema's customer fields, unchanged |
| InvoiceService.CustomerCommand | services/invoice-service/src/services/invoice.service.js:386-393 | The `customer.create.command` carries the request's customer fields plus tenantId, the company id and the invoice number, which win over same-named fields |
| InvoiceService.Draft | services/invoice-service/src/services/invoice.service.js:410-419 | The saved invoice has the number, company, tenant, schema-filtered customer, snapshotted items and tax 2. The client's `filePath`, `subtotal` and `totalAmount` are kept as sent. `createdAt` is the client's or else the save time, and `updatedAt` is the save time |
| InvoiceService.FirstWithNumber | services/invoice-service/src/services/invoice.service.js:432-436 | `findOneAndUpdate` picks the first invoice with that number, or none exactly when no invoice has it |
| InvoiceService.LinkCustomer | services/invoice-service/src/services/invoice.service.js:434 | `$set` of `customer._id` at a given time sets that field, and the schema's timestamps set `updatedAt` to the time; the rest of the invoice is unchanged |
| InvoiceService.Patched | services/invoice-service/src/services/invoice.service.js:432-436 | The patch keeps the number of invoices and their numbers, changes nothing when no invoice has the number, and changes no invoice but the first with the number |
| InvoiceService.PatchedIdempotent | services/invoice-service/src/services/invoice.service.js:432-436 | Applying the same customer-id patch twice at the same time equals applying it once |
| InvoiceService.PatchedRestamp | services/invoice-service/src/services/invoice.service.js:432-436 | A later redelivery of the same patch changes only the matched invoice's `updatedAt` |
| InvoiceService.InvoiceStore.CreateInvoiceNumber | services/invoice-service/src/services/invoice.service.js:423-427 | The number is "INV_" + (stored invoices + 1), across all tenants. While numbers follow the count it is not yet taken |
| InvoiceService.InvoiceStore.SaveInvoice | services/invoice-service/src/services/invoice.service.js:379-421 | No cached company: fails with nothing sent or saved. Otherwise the customer command is sent first. Then an uncached product fails with the command already sent; a taken number is refused by the unique index; else the draft is appended |
| InvoiceService.InvoiceStore.SaveItems | services/invoice-service/src/services/invoice.service.js:395-420 | An uncached product fails with nothing saved; a taken number is refused; otherwise the draft with the snapshotted items is appended. Appending the next number keeps numbering intact |
| InvoiceService.InvoiceStore.Store | services/invoice-service/src/services/invoice.service.js:419 | A taken number is refused and nothing changes; otherwise the invoice is appended. Appending the next number keeps numbering intact |
| InvoiceService.InvoiceStore.UpdateCustomerData | services/invoice-service/src/services/invoice.service.js:429-438 | Only `customer._id` and `updatedAt` (set to the time) of the first invoice with the number change, and that updated invoice is returned. It returns null exactly when no invoice has the number, and keeps numbering intact |
| InvoiceService.NumbersDistinct | services/invoice-service/src/model/invoice.model.js:21 | Invoices numbered by their count have distinct numbers |
| CompanyCache.Stamped | services/invoice-service/src/services/message-consumer.js:26 | The update is the event data with `updatedAt` set to the processing time |
| CompanyCache.SetFields | services/invoice-service/src/services/message-consumer.js:24-28 | The update's fields win; stored fields it does not name are kept |
| CompanyCache.Applied | services/invoice-service/src/services/message-consumer.js:21-36 | Created or updated inserts or keeps the id; deleted removes it; no other id appears or disappears |
| CompanyCache.CacheUpdate | services/invoice-service/src/services/message-consumer.js:24-28 | The update applied is the event data stamped with `updatedAt`, cut to the paths the cache schema declares |
| CompanyCache.Declared | services/invoice-service/src/model/company.cache.model.js:3-23 | Strict mode keeps exactly the fields the cache schema declares |
| CompanyCache.Consumer.EachMessageAsWritten | services/invoice-service/src/services/message-consumer.js:18-37 | As written, a delete throws "CompanyCache is not defined" and changes nothing; other events are applied |
| CompanyCache.Consumer.EachMessage | services/invoice-service/src/services/message-consumer.js:18-37 | Corrected: every event is applied to the cache |
| CompanyCache.UpsertContents | services/invoice-service/src/services/message-consumer.js:24-28 | After a created or updated event, the entry holds each of the event's schema-declared fields and the processing time as `updatedAt`. A new entry holds exactly those fields, `updatedAt` and a `createdAt` of the same time |
| CompanyCache.CreatedIsUpdated | services/invoice-service/src/services/message-consumer.js:22-23 | Created and updated events have the same effect |
| CompanyCache.OtherEntriesUnchanged | services/invoice-service/src/services/message-consumer.js:24-33 | Entries with other ids are never changed |
| CompanyCache.UnknownEventIgnored | services/invoice-service/src/services/message-consumer.js:21-36 | Any other event type leaves the cache unchanged |
| CompanyCache.RedeliveryIdempotent | services/invoice-service/src/services/message-consumer.js:24-28 | Redelivering a created or updated event changes only the entry's `updatedAt`; the first delivery's `createdAt` stays |
| CompanyCache.LastWriterWins | services/invoice-service/src/services/message-consumer.js:24-28 | No timestamp comparison: for every schema-declared field, the last event processed wins, whatever state it describes |
| CompanyCache.DeleteThenCreate | services/invoice-service/src/services/message-consumer.js:22-35 | After a delete, a create leaves exactly the new data's declared fields, its `updatedAt` and a fresh `createdAt`, with no stale fields |
| CustomerService.PhoneValue | services/customer-service/src/model/customer.model.js:13-16 | A missing or empty phone is null. Any other phone is accepted exactly when it is all digits, and then stored as its decimal value |
| CustomerService.Checked | services/customer-service/src/model/customer.model.js:4-47 | The insert passes the schema exactly when name, address, companyId and tenantId are present and the phone casts. The stored customer has those fields, the email if any, and the creation time |
| CustomerService.CreatedEvent | services/customer-service/src/services/customer.service.js:8-15 | `customer.created` carries exactly the new `_id` and the command's invoice number |
| CustomerService.CustomerStore.CreateCustomer | services/customer-service/src/services/customer.service.js:5-17 | Every call inserts a new customer with no lookup by phone. A refused insert (schema, or the unique phone index) emits nothing; a stored one emits `customer.created` and is returned |
| CustomerService.CustomerStore.TwoCommandsTwoCustomers | services/customer-service/src/services/customer.service.js:5-17 | Two commands whose phones differ from each other and from every stored customer append both customers and emit both `customer.created` events, whatever their names; there is no de-duplication |
| CustomerService.LeadingZeroPhonesClash | services/customer-service/src/model/customer.model.js:13-16 | "0987" and "987" are the same Number, so the unique index treats them as one phone |
| ProductModel.HsnFor | services/customer-service/src/model/product.model.js:3-8 | GOLD, SILVER and PLATINUM map to "7113", DIAMOND to "7102", and nothing else has a heading |
| ProductModel.Validate | services/customer-service/src/model/product.model.js:11-50 | No error exactly when name, type, companyId and tenantId are set, the category is one of the four, and karat is set for GOLD and one of 14K/18K/22K/24K whenever present |
| ProductModel.WithHsn | services/customer-service/src/model/product.model.js:53-57 | Only the HSN may change: a present HSN is kept, a missing one is filled from the category's heading |
| ProductModel.SavedHasHsn | services/customer-service/src/model/product.model.js:53-57 | Every valid product is saved with a non-empty HSN, its own or its category's |
| ProductModel.WithHsnIdempotent | services/customer-service/src/model/product.model.js:53-57 | Running the hook twice changes nothing more |
| ProductModel.Save | services/customer-service/src/model/product.model.js:11-58 | Saving succeeds exactly for valid products, storing them with the HSN filled in; otherwise the validation error |
| ProductModel.ProductDocument.PreSave | services/customer-service/src/model/product.model.js:53-57 | The hook assigns the document's HSN in place, as `WithHsn` |
| ProductService.FirstOfTenant | services/company-service/src/services/product.service.js:7 | Without `strictQuery`, `findOne({ tenantId })` finds the first company holding the tenant id, which no company stored through the schema holds, so it finds none. With `strictQuery` the filter is dropped and it finds the first company of any tenant |
| ProductService.OfTenant | services/company-service/src/services/product.service.js:13-16 | Exactly the products of the tenant |
| ProductService.ProductStore.CreateProduct | services/company-service/src/services/product.service.js:5-10 | When `findOne` finds no company, creation fails on the null company and stores nothing. Otherwise the product gets the found company's id (overriding any given) and is saved through the schema |
| ProductService.ProductStore.GetAllProducts | services/company-service/src/services/product.service.js:13-16 | Returns exactly the tenant's products, in store order |
| ProductService.CreatedKeepsFields | services/company-service/src/services/product.service.js:8 | All other fields are kept unchanged; only companyId, and a missing HSN, are set |
| ProductService.ListAfterCreate | services/company-service/src/services/product.service.js:5-16 | A new product appears at the end of its tenant's list and in no other tenant's |
| CompanyController.Project | services/company-service/src/controllers/company.controller.js:67-71 | Picking fields keeps exactly the named fields present, unchanged |
| CompanyController.IndexOfId | services/company-service/src/controllers/company.controller.js:102 | `findById` finds the record with the id, or none exactly when there is none |
| CompanyController.Authorized | services/company-service/src/controllers/company.controller.js:12-18 | Corrected check: the company exists and its email is the user's |
| CompanyController.AuthorizationNeverRefuses | services/company-service/src/controllers/company.controller.js:12-18 | As written the check passes even for a company of another user, which the corrected check refuses |
| CompanyController.CompanyStore.AddCompany | services/company-service/src/controllers/company.controller.js:35-88 | The user's email replaces the request's. One existing company sharing gstin, name or hallmark number gives 400. Otherwise the address, bank and company are stored in turn, each refusal answered as the swallowed service errors make it. Every company keeps the schema's shape |
| CompanyController.CompanyStore.HandlerAsWritten | services/company-service/src/controllers/company.controller.js:35-140 | As written, each of the three handlers fails on `db.connect()` before reading the request. Its `catch` answers 400 with "Error adding company", "Error getting company" or "Error updating company", and then its `finally` throws "db is not defined" again, so the promise rejects. Nothing is stored |
| CompanyController.CompanyStore.GetCompany | services/company-service/src/controllers/company.controller.js:20-32 | 200 "No Company found" when `findOne({ tenantId })` finds nothing, otherwise 200 with the company it finds. Over schema-shaped companies that is always "No Company found" without `strictQuery`, and the first company of any tenant with it |
| CompanyController.CompanyStore.GetCompanyById | services/company-service/src/controllers/company.controller.js:91-111 | An id that is not 24 hex characters gives 400 before any lookup; an unauthorized one 403; otherwise 200 with the company |
| CompanyController.CompanyStore.GetCompanyByIdUnchecked | services/company-service/src/controllers/company.controller.js:91-111 | With the always-truthy check: never 403; a missing company 404; otherwise 200 with the company |
| CompanyController.CompanyStore.UpdateCompany | services/company-service/src/controllers/company.controller.js:114-140 | A bad id gives 400 and an unauthorized one 403, both storing nothing. Otherwise the body's schema-declared fields, except `_id`, overwrite the company's, and the updated company is returned. Every company keeps the schema's shape |
| CompanyController.AddressOf | services/company-service/src/controllers/company.controller.js:67-68 | The address record holds the request's address fields and its new id |
| CompanyController.BankOf | services/company-service/src/controllers/company.controller.js:71-72 | The bank record holds the request's bank fields and its new id |
| CompanyController.CompanyOf | services/company-service/src/controllers/company.controller.js:75-76 | The stored company holds only schema-declared paths: the request's declared fields, the address id and its new id. Neither `bank` nor `tenantId` is stored, and `createdAt` defaults to the insert time |
| CompanyController.StoredEmailIsUsers | services/company-service/src/controllers/company.controller.js:38 | The stored company's email is the authenticated user's |
| CompanyController.OneMatchSuffices | services/company-service/src/controllers/company.controller.js:41-51 | A match on the hallmark number alone is a clash |
| CompanyController.ObjectIdExamples | services/company-service/src/controllers/company.controller.js:95 | 24 hex digits of either case pass; 23 characters or a non-hex character fail |
| CompanyController.QueryFilter | services/company-service/src/services/company.service.js:13-15 | With `strictQuery` the filter keeps only the schema's paths; without it the filter is sent as written |
| CompanyController.FindOne | services/company-service/src/services/company.service.js:13-15 | `findOne` finds the first record holding every filtered field with its value, or none exactly when no record does |
| CompanyController.TenantQuery | services/company-service/src/services/company.service.js:13-15 | Over companies of the schema's shape, `findOne({ tenantId })` finds nothing without `strictQuery` and the first company with it |
| CompanyController.TenantUndeclared | services/company-service/src/model/companyModel.js:4-48 | The company schema has no `tenantId` and no `bank` path |
| TenantConsumer.Announcement | services/tenant-service/src/services/message-producer.js:18-23 | `tenant-created` is keyed by the tenant id and carries id, name, owner and creation time |
| TenantConsumer.Owned | services/tenant-service/src/services/message-consumer.js:20-22 | Only the tenant's ownerId changes, to the user's id; no other tenant changes |
| TenantConsumer.TenantStore.HandleUserCreated | services/tenant-service/src/services/message-consumer.js:17-24 | An unknown tenant throws before anything is stored or sent. Otherwise `tenant-created` is sent for the tenant with its new owner whether or not the unawaited save succeeds, and the stored tenant changes only when it does |
| TenantConsumer.AnnouncesNewOwner | services/tenant-service/src/services/message-consumer.js:20-23 | The announcement carries the new owner with the tenant's own name and creation time |
| TenantConsumer.RedeliveryKeepsTenants | services/tenant-service/src/services/message-consumer.js:17-24 | A redelivered message leaves the tenants as one delivery did, and its announcement repeats the first one: there is no de-duplication |
| DashboardForm.RequiredError | frontend/invoice-system/src/components/Dashboard.tsx:45-46 | `min(1)` reports its message exactly for the empty string |
| DashboardForm.GstinError | frontend/invoice-system/src/components/Dashboard.tsx:47-54 | No error exactly for the GSTIN pattern: 2 digits, 5 capitals, 4 digits, a capital, [1-9A-Z], 'Z', [0-9A-Z]. Empty, wrong-length and wrong-format inputs get their own messages |
| DashboardForm.DigitsError | frontend/invoice-system/src/components/Dashboard.tsx:57-60 | No error exactly for non-empty all-digit text; "required" for empty text, "only digits" otherwise |
| DashboardForm.IfscError | frontend/invoice-system/src/components/Dashboard.tsx:70-73 | No error exactly for 4 capitals, '0', then 6 capitals or digits |
| DashboardForm.EmailError | frontend/invoice-system/src/components/Dashboard.tsx:56 | No error exactly for a non-empty well-formed email; every failure reads "Invalid email address" |
| DashboardForm.Errors | frontend/invoice-system/src/components/Dashboard.tsx:44-76 | A field has an error exactly when its rule fails, with that rule's message |
| DashboardForm.ErrorsEmptyIffValid | frontend/invoice-system/src/components/Dashboard.tsx:44-76 | The form passes exactly when every rule holds; GSTIN, phone, account number and IFSC are flagged exactly when their formats fail |
| DashboardForm.FailingField | frontend/invoice-system/src/components/Dashboard.tsx:44-76 | An invalid form has a field with an error |
| DashboardForm.GstinLengthImplied | frontend/invoice-system/src/components/Dashboard.tsx:47-54 | The pattern alone implies the length and non-emptiness checks |
| DashboardForm.EmailRequiredNeverShown | frontend/invoice-system/src/components/Dashboard.tsx:56 | "Email is required" is never shown; an empty email reads "Invalid email address" |
| DashboardForm.FormatExamples | frontend/invoice-system/src/components/Dashboard.tsx:47-73 | A well-formed GSTIN and IFSC pass; lower case, or a non-'0' fifth IFSC character, fail |
| DashboardForm.PhoneList | frontend/invoice-system/src/components/Dashboard.tsx:166-169 | Phone parts have no empty, padded or comma-holding entries |
| DashboardForm.TermsOnInput | frontend/invoice-system/src/components/Dashboard.tsx:591-596 | Text terms are split on newline or comma, trimmed and blanks dropped; anything else becomes [] |
| DashboardForm.TermsOnSubmit | frontend/invoice-system/src/components/Dashboard.tsx:170-176 | Text terms are split as on input; other values pass through unchanged |
| DashboardForm.ToSend | frontend/invoice-system/src/components/Dashboard.tsx:163-177 | The sent data is the form with phones split and terms converted |
| DashboardForm.Submit | frontend/invoice-system/src/components/Dashboard.tsx:179-186 | An update of the selected company's id exactly when one is selected; otherwise an add |
| DashboardForm.EditForm | frontend/invoice-system/src/components/Dashboard.tsx:125-131 | Editing joins the phones with ", " and turns absent terms into [] |
| DashboardForm.NewForm | frontend/invoice-system/src/components/Dashboard.tsx:132-148 | The blank form is never valid |
| DashboardForm.PhonesRoundTrip | frontend/invoice-system/src/components/Dashboard.tsx:128-169 | Splitting the ", "-joined phones returns them when each is non-empty, trimmed and comma-free |
| DashboardForm.EditThenSubmit | frontend/invoice-system/src/components/Dashboard.tsx:125-186 | Submitting an opened company unchanged updates it under its id with its own phones |
| DashboardForm.JoinedPhonesNotDigits | frontend/invoice-system/src/components/Dashboard.tsx:60-128 | Two or more joined phones are not all digits |
| DashboardForm.MultiPhoneEditInvalid | frontend/invoice-system/src/components/Dashboard.tsx:60-128 | A company with two or more phones cannot pass validation when edited |
| DashboardForm.TermsPaths | frontend/invoice-system/src/components/Dashboard.tsx:170-176 | A text value is converted on both paths; a list is passed through on submit but becomes [] on input |
| CustomerForm.FieldError | frontend/invoice-system/src/components/Customer.tsx:76-81 | A short phone reads "Phone number must be at least 10 digits"; a long non-digit one "Phone must contain only digits" |
| CustomerForm.Errors | frontend/invoice-system/src/components/Customer.tsx:76-81 | A field has an error exactly when its rule fails |
| CustomerForm.ErrorsEmptyIffValid | frontend/invoice-system/src/components/Customer.tsx:76-81 | No errors exactly when name ≥ 3, address ≥ 5, phone ≥ 10 all-digit and state ≥ 2 characters |
| CustomerForm.InputFields | frontend/invoice-system/src/components/Customer.tsx:76-82 | The form's data has exactly the four fields |
| CustomerForm.DefaultValues | frontend/invoice-system/src/components/Customer.tsx:88 | The given customer, or the four fields empty |
| CustomerForm.Merged | frontend/invoice-system/src/components/Customer.tsx:91-93 | Form fields win; the customer's other fields, such as `_id`, are kept |
| CustomerForm.SavedEditKeepsId | frontend/invoice-system/src/components/Customer.tsx:91-165 | An edited customer keeps its `_id`; a new one has none |
| CustomerForm.CustomerPage.HandleAddNew | frontend/invoice-system/src/components/Customer.tsx:140-143 | No customer being edited, form open |
| CustomerForm.CustomerPage.HandleEdit | frontend/invoice-system/src/components/Customer.tsx:145-148 | The customer is being edited, form open |
| CustomerForm.CustomerPage.Cancel | frontend/invoice-system/src/components/Customer.tsx:234 | The form closes |
| CustomerForm.CustomerPage.HandleSave | frontend/invoice-system/src/components/Customer.tsx:156-165 | The update path exactly when `_id` is present; the form closes either way |
| CustomerForm.CustomerPage.Submit | frontend/invoice-system/src/components/Customer.tsx:91-165 | Invalid input saves nothing; valid input saves the merged record on the path its `_id` selects and closes the form |
| Authentication.Required | frontend/invoice-system/src/components/Authentication.tsx:56-68 | Login needs email and password; onboarding step 1 name, username, email and password; step 2 tenant and company names |
| Authentication.StepErrors | frontend/invoice-system/src/components/Authentication.tsx:53-70 | An error exactly for each required field that is empty, with its message |
| Authentication.StepPassesIffFilled | frontend/invoice-system/src/components/Authentication.tsx:71-72 | The step passes exactly when every required field is filled |
| Authentication.EmptyForm | frontend/invoice-system/src/components/Authentication.tsx:35-42 | The six fields, all empty |
| Authentication.Onboarding.HandleInputChange | frontend/invoice-system/src/components/Authentication.tsx:46-51 | Only that field changes and only its error is cleared |
| Authentication.Onboarding.ValidateStep | frontend/invoice-system/src/components/Authentication.tsx:53-73 | The errors become the step's errors; true exactly when there are none |
| Authentication.Onboarding.HandleSubmit | frontend/invoice-system/src/components/Authentication.tsx:75-98 | Invalid: nothing else changes. Onboarding step 1: step 2, no request. Otherwise the whole form is sent as a login; loading stays on and no navigation unless the login succeeds |
| Authentication.Onboarding.FailedLoginLocksOut | frontend/invoice-system/src/components/Authentication.tsx:84-90 | After a refused login the request was sent, loading stays on, and a tab switch and Back leave both `disabled={isLoading}` submit buttons disabled |
| Authentication.Onboarding.HandleSubmitSettled | frontend/invoice-system/src/components/Authentication.tsx:75-98 | As HandleSubmit, except that once a login has been sent loading ends whatever the answer, so submitting is enabled again |
| Authentication.Onboarding.SwitchTab | frontend/invoice-system/src/components/Authentication.tsx:268-272 | The tab changes, step resets to 1 and errors are cleared |
| Authentication.Onboarding.Back | frontend/invoice-system/src/components/Authentication.tsx:458 | Back returns to step 1 |
| Authentication.OnboardingCoversLogin | frontend/invoice-system/src/components/Authentication.tsx:56-64 | Data that passes onboarding step 1 passes the login check |
| CompanyForm.InitialData | frontend/invoice-system/src/components/Dashboard/CompanyForm.tsx:22-33 | The blank form: empty fields and empty bank details |
| CompanyForm.JoinedOrEmpty | frontend/invoice-system/src/components/Dashboard/CompanyForm.tsx:38-39 | An absent list is "", a list is joined, anything else throws |
| CompanyForm.Opened | frontend/invoice-system/src/components/Dashboard/CompanyForm.tsx:21-46 | No company gives the blank form. A company gives a form exactly when its phones and terms are each absent or a list; any other value makes `join` throw |
| CompanyForm.OpenedContents | frontend/invoice-system/src/components/Dashboard/CompanyForm.tsx:21-46 | Defaults merged with the company, phones joined with ", " and terms with newlines. Company fields win over defaults, and defaults fill the gaps |
| CompanyForm.Required | frontend/invoice-system/src/components/Dashboard/CompanyForm.tsx:62-77 | Step 1: name, GSTIN, address; step 2: email, phone, state; step 3: bank name, account number, IFSC |
| CompanyForm.StepErrors | frontend/invoice-system/src/components/Dashboard/CompanyForm.tsx:60-80 | An error exactly for each required field that is not truthy, with its message |
| CompanyForm.AllMissing | frontend/invoice-system/src/components/Dashboard/CompanyForm.tsx:60-80 | When every required field of a step is missing, every one of them is reported |
| CompanyForm.StepPassesIffFilled | frontend/invoice-system/src/components/Dashboard/CompanyForm.tsx:78-79 | The step passes exactly when its required fields are filled |
| CompanyForm.UpdateField | frontend/invoice-system/src/components/Dashboard/CompanyForm.tsx:48-56 | "parent.child" sets only that nested key and keeps its siblings; a plain field sets only that top-level key |
| CompanyForm.CompanyWizard.Open | frontend/invoice-system/src/components/Dashboard/CompanyForm.tsx:21-46 | Opens on step 1 with no errors and the opened data, or throws, changing nothing, on non-list phones or terms |
| CompanyForm.CompanyWizard.HandleInputChange | frontend/invoice-system/src/components/Dashboard/CompanyForm.tsx:48-58 | The field is updated and its error cleared |
| CompanyForm.CompanyWizard.ValidateStep | frontend/invoice-system/src/components/Dashboard/CompanyForm.tsx:60-80 | The errors become the step's errors; true exactly when none |
| CompanyForm.CompanyWizard.HandleSubmit | frontend/invoice-system/src/components/Dashboard/CompanyForm.tsx:82-95 | Invalid: step unchanged. Valid below step 3: advance by one. Step 3: loading with the form pending. The step never exceeds 3 |
| CompanyForm.CompanyWizard.FinishSubmit | frontend/invoice-system/src/components/Dashboard/CompanyForm.tsx:90-94 | The timer submits the pending form, stops loading and closes |
| CompanyForm.CompanyWizard.Back | frontend/invoice-system/src/components/Dashboard/CompanyForm.tsx:316-318 | Offered only after step 1; goes back exactly one step |
| CompanyForm.DottedPartsOf | frontend/invoice-system/src/components/Dashboard/CompanyForm.tsx:50-51 | "parent.child" splits into exactly its parent and child |
| CompanyForm.EditBankDetail | frontend/invoice-system/src/components/Dashboard/CompanyForm.tsx:50-53 | Editing "bankDetails.ifsc" changes only the IFSC, keeping the other bank details and top-level fields |
| CompanyForm.AllStepsPass | frontend/invoice-system/src/components/Dashboard/CompanyForm.tsx:60-80 | Passing all three steps means all nine required fields are filled |
| CompanyForm.BlankFailsFirstStep | frontend/invoice-system/src/components/Dashboard/CompanyForm.tsx:22-65 | A new form fails step 1 on exactly name, GSTIN and address |
| CompanyDashboard.FilteredMembers | frontend/invoice-system/src/components/Dashboard/UpdatedDashboard.tsx:69-74 | Exactly the companies whose lower-cased name, GSTIN or email contains the lower-cased term |
| CompanyDashboard.FilteredIsSubsequence | frontend/invoice-system/src/components/Dashboard/UpdatedDashboard.tsx:70 | The result is a subsequence of the list: original order, no repeats |
| CompanyDashboard.EmptySearchShowsAll | frontend/invoice-system/src/components/Dashboard/UpdatedDashboard.tsx:69-74 | An empty term shows every company, in order |
| CompanyDashboard.Dashboard.Shown | frontend/invoice-system/src/components/Dashboard/UpdatedDashboard.tsx:69-74 | The shown companies are those matching the current term |
| CompanyDashboard.Dashboard.SetSearchTerm | frontend/invoice-system/src/components/Dashboard/UpdatedDashboard.tsx:63 | The term becomes the input |
| CompanyDashboard.Dashboard.HandleAddNew | frontend/invoice-system/src/components/Dashboard/UpdatedDashboard.tsx:76-79 | No selection, form open |
| CompanyDashboard.Dashboard.HandleEdit | frontend/invoice-system/src/components/Dashboard/UpdatedDashboard.tsx:81-84 | The company selected, form open |
| CompanyDashboard.Dashboard.HandleDelete | frontend/invoice-system/src/components/Dashboard/UpdatedDashboard.tsx:86-89 | The company held, dialog open |
| CompanyDashboard.Dashboard.ConfirmDelete | frontend/invoice-system/src/components/Dashboard/UpdatedDashboard.tsx:91-98 | The held company, if any, is logged; the dialog always closes and nothing stays held |
| CompanyDashboard.Dashboard.CloseForm | frontend/invoice-system/src/components/Dashboard/UpdatedDashboard.tsx:100-103 | Form closed, no selection |
| DashboardStats.States | frontend/invoice-system/src/components/Dashboard/DashboardStats.tsx:46-47 | The companies' states, in list order |
| DashboardStats.Count | frontend/invoice-system/src/components/Dashboard/DashboardStats.tsx:47 | A state's count is at most the number of companies, and 0 exactly when absent |
| DashboardStats.Keys | frontend/invoice-system/src/components/Dashboard/DashboardStats.tsx:46-50 | The object's keys are the distinct states, each once |
| DashboardStats.StateChartData | frontend/invoice-system/src/components/Dashboard/DashboardStats.tsx:45-54 | One entry per distinct state, in first-met order, carrying that state's count |
| DashboardStats.CountByState | frontend/invoice-system/src/components/Dashboard/DashboardStats.tsx:46-49 | The `reduce` ends with one key per distinct state, in insertion order, mapped to its count |
| DashboardStats.OneMore | frontend/invoice-system/src/components/Dashboard/DashboardStats.tsx:47 | Counting one more company adds its state if new and raises only that state's count |
| DashboardStats.SumOverAppend | frontend/invoice-system/src/components/Dashboard/DashboardStats.tsx:46-49 | One more company raises the total of the distinct states' counts by one if its state is among them |
| DashboardStats.CountsAddUp | frontend/invoice-system/src/components/Dashboard/DashboardStats.tsx:46-49 | The counts add up to the number of companies |
| DashboardStats.ChartTotals | frontend/invoice-system/src/components/Dashboard/DashboardStats.tsx:45-54 | Every value is positive, the values add up to the number of companies, and no companies give no entries |
| AuthSlice.OrElse | frontend/invoice-system/src/redux/slices/authSlice.ts:73-87 | `message || fallback`: a missing or empty message falls back |
| AuthSlice.LoginResult | frontend/invoice-system/src/redux/slices/authSlice.ts:63-91 | Fulfilled exactly when the server answers with success true. Every other answer is rejected with the server's message or its fallback |
| AuthSlice.RegisterResult | frontend/invoice-system/src/redux/slices/authSlice.ts:94-118 | Fulfilled exactly when the server answers with success true; otherwise rejected with the registration fallbacks |
| AuthSlice.NonEmpty | frontend/invoice-system/src/redux/slices/authSlice.ts:152 | `token || null`: an empty token is stored as none |
| AuthSlice.AuthState.constructor | frontend/invoice-system/src/redux/slices/authSlice.ts:48-55 | Not loading, not signed in, everything else null |
| AuthSlice.AuthState.ClearAuthMessages | frontend/invoice-system/src/redux/slices/authSlice.ts:126-129 | Only error and success message are cleared |
| AuthSlice.AuthState.Logout | frontend/invoice-system/src/redux/slices/authSlice.ts:131-138 | Signed out with user, token and messages cleared; loading untouched |
| AuthSlice.AuthState.Pending | frontend/invoice-system/src/redux/slices/authSlice.ts:143-169 | Loading, messages cleared, nothing else changed |
| AuthSlice.AuthState.LoginFulfilled | frontend/invoice-system/src/redux/slices/authSlice.ts:148-155 | Signed in with the payload's user and token (or none) and its message |
| AuthSlice.AuthState.LoginRejected | frontend/invoice-system/src/redux/slices/authSlice.ts:156-163 | Signed out, user and token cleared, error = the rejection's message |
| AuthSlice.AuthState.RegisterFulfilled | frontend/invoice-system/src/redux/slices/authSlice.ts:170-174 | Only loading and messages change; sign-in state untouched |
| AuthSlice.AuthState.RegisterRejected | frontend/invoice-system/src/redux/slices/authSlice.ts:175-179 | Only loading and messages change |
| AuthSlice.AuthState.Login | frontend/invoice-system/src/redux/slices/authSlice.ts:63-163 | After a login dispatch the user is signed in exactly when the server answered with success true, and then holds the answer's user, token and message with no error; otherwise user, token and success message are cleared and the error is set |
| AuthSlice.AuthState.Register | frontend/invoice-system/src/redux/slices/authSlice.ts:94-179 | A registration never changes the sign-in state and ends with loading off. A rejection records its message (the server's, or the thunk's fallback) as the error and clears the success message; a success clears the error and records the answer's message |
| AuthSlice.RejectionHasMessage | frontend/invoice-system/src/redux/slices/authSlice.ts:73-87 | A rejected login always carries a non-empty message |
| CompanySlice.Settle | frontend/invoice-system/src/redux/slices/companySlice.ts:71-111 | An answer yields its data; an HTTP error its message or the "Failed to …" fallback; no answer the "Network error …" fallback |
| CompanySlice.FetchCompany | frontend/invoice-system/src/redux/slices/companySlice.ts:61-87 | Without a token: rejected with "Authentication token not found." and no request. Otherwise one GET with the token, settled as above |
| CompanySlice.UpdateCompany | frontend/invoice-system/src/redux/slices/companySlice.ts:89-112 | Without a token: rejected with no request. Otherwise one PUT to the company's id, with the other fields as the body |
| CompanySlice.CompanyState.constructor | frontend/invoice-system/src/redux/slices/companySlice.ts:48-53 | No company, not loading, no messages |
| CompanySlice.CompanyState.ClearCompanyMessages | frontend/invoice-system/src/redux/slices/companySlice.ts:119-122 | Only error and success message are cleared |
| CompanySlice.CompanyState.Fetch | frontend/invoice-system/src/redux/slices/companySlice.ts:61-138 | The success message is untouched. A result replaces the company with no error; a rejection keeps the company and sets the error (default "Failed to fetch company."); loading ends off |
| CompanySlice.CompanyState.Update | frontend/invoice-system/src/redux/slices/companySlice.ts:89-153 | Success stores the answer and "Company updated successfully!". A rejection keeps the company, clears the success message and sets the error; loading ends off |
| CompanySlice.SignedOutSendsNothing | frontend/invoice-system/src/redux/slices/companySlice.ts:66-95 | A missing or empty token sends nothing and reports the missing token |
| Text.NatToString | services/invoice-service/src/controller/pdfController.js:523 | `String(n)` is digits whose value is `n`, with no leading zero |
| Text.NatToStringRoundTrip | services/invoice-service/src/controller/pdfController.js:523 | Reading the printed digits gives the number back |
| Text.PadStart | services/invoice-service/src/controller/pdfController.js:523 | `padStart(4, "0")` keeps the text and adds zeros up to width 4, never truncating |
| Text.PadStartValue | services/invoice-service/src/controller/pdfController.js:523 | Padding with zeros keeps the value |
| Text.Split | frontend/invoice-system/src/components/Dashboard.tsx:167 | `split` gives at least one piece, none containing a separator |
| Text.SepCount | frontend/invoice-system/src/components/Dashboard.tsx:167 | The separators in a text number at most its length, and none exactly when no character is one |
| Text.SplitCount | frontend/invoice-system/src/components/Dashboard.tsx:167 | `split` gives exactly one more piece than there are separators |
| Text.SplitClean | frontend/invoice-system/src/components/Dashboard.tsx:166-176 | Split, trim and drop blanks: no piece is empty, starts or ends with JavaScript whitespace, or holds a separator |
| Text.SplitCleanJoinSep | frontend/invoice-system/src/components/Dashboard.tsx:128-169 | Splitting entries joined by a separator plus padding gives them back when each is clean |
| Text.Lower | frontend/invoice-system/src/components/Dashboard/UpdatedDashboard.tsx:71-73 | `toLowerCase` keeps the length, lower-cases each Latin-1 capital (A-Z and À-Þ except ×) and keeps every other character |

## Left out

- PDF layout and drawing (pdfkit, fonts, images, `doc.y`, file streams), Express routing, JWT middleware, database connection and Kafka plumbing are not part of this model. Event payloads and requests are datatypes; consumers take one message at a time.
- Floating point: amounts are exact reals, and `toFixed` rounds half away from zero on the exact value. `Math.round` of fractional paise in the frontend converter is replaced by an amount already in whole paise.
- Clocks and fresh ids (`Date.now()`, `new Date()`, `format(new Date(), "yyyyMMdd")`, Mongo ids) are parameters.
- IndianWords.AmountToWords: the amount's `toString` is given as decimal text, and exponent notation is not modelled.
- DashboardForm.EmailError: zod's email pattern is a boolean parameter, not a regular expression.
- DashboardStats.Count: the source counts into a plain `{}`, so a state named like an inherited property ("constructor", "__proto__", "toString") reads or sets that property instead of a fresh count; the model treats every state as an ordinary key.
- DashboardStats.Keys: JavaScript lists integer-like keys first in `Object.entries`; the model keeps first-met order for every key.
- CompanyForm.UpdateField: spreading a parent that is a string or list into the nested object is modelled as starting from an empty object.
- CompanyForm.CompanyWizard.ValidateStep: on step 3, a form without `bankDetails` throws in the source; the model reports the three bank fields as missing.
- CompanyForm.CompanyWizard.FinishSubmit: the 1.5-second `setTimeout` is a separate step the caller takes.
- Authentication.Onboarding.HandleSubmit: the login's answer is a boolean parameter; the navigation is a flag.
- CompanyController.CompanyStore.AddCompany: the company schema's nested `bankDetails.accountNumber` requirement is not modelled (records are flat), nor is the `{ data }` wrapping in address.service.js and bank.service.js. Under that wrapping every address insert is refused, which ends in "Error adding company".
- Dashboard.tsx dispatches `fetchCompanies`, `addCompany`, `deleteCompany` and `setSelectedCompany`, which companySlice.ts does not export. The model covers its validation and the request it chooses (`DashboardForm.Submit`), not those dispatches.
- The tenant service's message producer calls `emitTenantCreated` before defining it; module loading is not part of this model.
- CustomerService.PhoneValue: Number casting accepts more than digits (surrounding whitespace, a sign, a fraction, an exponent, hex/octal/binary prefixes, `Infinity`); the model casts only all-digit text and refuses the rest.
- CustomerService.Checked: inherits the PhoneValue restriction above.
- Text.Lower: case mappings outside Latin-1 (Greek, Cyrillic, the dotted capital I and others) are not modelled; such characters are kept unchanged.
- CompanyController.CompanyStore.UpdateCompany: a body `_id` is not applied (Mongoose refuses to change an immutable `_id`); the model leaves the id unchanged rather than modelling the refusal.
- CompanyController.CompanyOf: a request `_id` is replaced by the fresh id the model is given.
- InvoiceService.Draft: a client-sent `_id` or `updatedAt` is not modelled; only the declared fields listed in its row are carried.
- Console logging, animations and the mock data of Invoice.tsx are not modelled.

## Findings

| source | as written | input that shows it | evidently intended | confidence | as-written member | corrected member |
|---|---|---|---|---|---|---|
| frontend/invoice-system/src/components/InvoiceForm.tsx:155-157 | `convertChunk` leaves a trailing space, so the paise clause reads "… Five  Paise" with two spaces | 10.05 → "Ten and Five  Paise Only" | one space before "Paise" | high; not executed | InvoiceForm.AsWrittenDoubleSpace | InvoiceForm.NumberWordsJoin |
| frontend/invoice-system/src/components/InvoiceForm.tsx:117 | 0 returns "Zero" before the " Only" framing | 0 → "Zero" | "Zero Only", like every other amount | medium; not executed | InvoiceForm.AsWrittenZero | InvoiceForm.NumberWordsFraming |
| services/invoice-service/src/services/message-consumer.js:33 | `CompanyCache` is never imported, so a delete throws and the entry stays | a "company.deleted" event for a cached id | the entry is removed | high; not executed | CompanyCache.Consumer.EachMessageAsWritten | CompanyCache.Consumer.EachMessage |
| services/company-service/src/controllers/company.controller.js:37 | `db` is never imported, so `addCompany`, `getCompanyById` and `updateCompany` answer 400 from their `catch` on every request, and then reject from their `finally` | any request | connect, then run the handler | high; not executed | CompanyController.CompanyStore.HandlerAsWritten | CompanyController.CompanyStore.AddCompany |
| services/company-service/src/controllers/company.controller.js:12-18 | `userAuthorized` returns an unawaited query, always truthy, so 403 is never sent | another user's company id | refuse unless the company's email is the user's | high; not executed | CompanyController.AuthorizationNeverRefuses | CompanyController.CompanyStore.GetCompanyById |
| frontend/invoice-system/src/components/Authentication.tsx:84-90 | a refused login never calls `setIsLoading(false)`, and both submit buttons are `disabled={isLoading}`, so the user cannot submit again; switching tab or going Back does not clear it | a login answered with `success: false` | loading ends once the login settles, whatever the answer | high; not executed | Authentication.Onboarding.FailedLoginLocksOut | Authentication.Onboarding.HandleSubmitSettled |
| services/invoice-service/src/services/pdf.service.js:161-163 | saved line items have no `makingCharges`, so making and amount are NaN and print "0.00" | any saved invoice | absent making charges count as 0 | high; not executed | PdfService.CreatePdfAsWritten | PdfService.CreatePdf |
