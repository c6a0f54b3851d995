# Aam-Wala mango trading: a Dafny model of the pages and their stores

Aam-Wala is a single-page React application for a mango trading business. Its pages
register farms and agents, write sale bills and payment vouchers, schedule cuttings, show
per-farm and per-agent ledgers and reports, back up and reset the database, and manage the
admin and writer accounts. This project models what each page does with its form state and
with the rows it sends to the store or reads from it. It then proves what those operations
promise: the bill arithmetic, the id formats and how they read back, the voucher counters,
the backup and restore round trip, and the account rules.

Layout, one module per source file, plus shared modules:

- `wrappers.dfy` (`Option`), `text.dfy` (decimal numerals, JavaScript's `parseInt` and
  `parseFloat` prefix parsers, `split`, `padStart`, ISO dates), `lists.dfy` (sums, filters,
  counts, remove and replace by key), `records.dfy` (the row types of `src/lib/supabase.ts`),
  `ids.dfy` (the `<prefix>-<year>-<n>` ids).
- `auth.dfy`: the user registry of the auth context (`src/contexts/AuthContext.tsx`),
  written as a class over its localStorage keys.
- `companysettings.dfy`: the company settings hook, written as a class.
- One page class per page: `newbill.dfy`, `editbill.dfy` (sharing `billcalc.dfy`),
  `newvoucher.dfy`, `newfarm.dfy`, `newagent.dfy`, `cutting.dfy`, `farmlist.dfy`,
  `agentlist.dfy`, `voucherlist.dfy`, `salebilllist.dfy`, `backup.dfy` and `settings.dfy`.
- Pure modules for the pages that only compute: `ledger.dfy`, `reports.dfy` and `index.dfy`.

The store (Supabase) is not modelled as a database; these stand in for it:

- A page that writes takes a `storeOk` flag for whether the call succeeds.
- A page keeps the inserts and updates it sent as a sequence field.
- A page that reads takes the fetched rows as an `Option` parameter.
- The backup page works on a `Store` class holding the six tables and a log of calls.

## Model

| member | source | states |
|---|---|---|
| Text.NatToString | src/pages/NewVoucher.tsx:108 | `String(n)` is a non-empty run of digits denoting `n`, with no leading zero unless it is `0` |
| Text.PadStart | src/pages/NewVoucher.tsx:108 | `padStart(width, c)` keeps the text as its suffix and fills the front with `c` up to `width` characters, or not at all when the text is already that long |
| Text.TrimStart | src/pages/NewVoucher.tsx:64 | The leading whitespace `parseInt` skips: a suffix of the text, everything before it whitespace, and not itself starting with whitespace |
| Text.ParseIntDefined | src/pages/NewVoucher.tsx:64 | `parseInt` gives a number if and only if, after the leading whitespace, a digit comes first or after one sign. Text with no digit gives `NaN`, and a non-empty digit string gives its value |
| Text.ParseIntOfDigits | src/pages/NewVoucher.tsx:64 | A digit run followed by a non-digit parses as the run's value: the rest is ignored |
| Text.ParseIntPadded | src/pages/NewVoucher.tsx:64 | A zero-padded numeral parses back to its number |
| Text.ParseFloat | src/pages/NewFarm.tsx:39-40 | `parseFloat` of text with no digit is `NaN`, and of a non-empty digit string is that whole number |
| Text.ParseFloatOfNat | src/pages/NewFarm.tsx:39-40 | A number's numeral parses back to that number |
| Text.ParseFloatNonNegative | src/pages/NewFarm.tsx:39-40 | Text without `-` never parses to a negative number |
| Text.SplitPieces | src/pages/NewVoucher.tsx:64 | `split(sep)` gives pieces that join back to the text, none of them holding the separator |
| Text.SplitJoin | src/pages/NewVoucher.tsx:64 | Joining separator-free pieces and splitting again gives back exactly those pieces |
| Text.IsoDateFields | src/pages/NewFarm.tsx:32-33 | A `YYYY-MM-DD` date splits on `-` into its three fields, which parse back to the year, month and day |
| Ids.RandomId | src/pages/NewBill.tsx:16 | A bill, farm or agent id splits on `-` into the prefix, the year numeral and a last piece that parses back to the random number; that piece has three digits, or four for 1000 |
| Ids.RandomIdPieces | src/pages/NewFarm.tsx:17 | The same three pieces for any dash-free prefix and random suffix 1..1000 |
| Ids.RandomIdSplit | src/pages/NewFarm.tsx:17 | A dash-free prefix, the year and the padded number are exactly the three pieces of the id |
| Ids.RandomSuffixDigits | src/pages/NewFarm.tsx:17 | A random suffix parses back from its padded text, which has three characters, or four for 1000 |
| Ids.Seq3Digits | src/pages/NewVoucher.tsx:108 | `String(n).padStart(3, '0')` is all digits, denotes `n`, parses back to `n`, and is three characters exactly when `n < 1000` |
| Ids.Seq3Of1000 | src/pages/NewBill.tsx:16 | The largest random suffix, 1000, breaks the three-digit pattern |
| Ids.YearIdSplit | src/pages/NewVoucher.tsx:108 | Splitting `<prefix>-<year>-<nnn>` on `-` gives the prefix's pieces, then the year, then the padded number |
| Ids.NatToStringLength | src/pages/NewVoucher.tsx:108 | A numeral has at most `k` digits exactly when the number is below `10^k`, which is when the padding to three digits applies |
| Auth.UserRegistry.constructor | src/contexts/AuthContext.tsx:43-44 | The provider starts over the stored users, passwords and saved login, with no current user |
| Auth.UserRegistry.AllUsers | src/contexts/AuthContext.tsx:101-104 | `getAllUsers` is the stored list, or empty when none is stored |
| Auth.UserRegistry.InitializeUsers | src/contexts/AuthContext.tsx:28-41 | Only when no users list exists, seeds the administrator `admin` with password `admin123`; otherwise nothing changes. Either way, when the list was absent or already led its `admin` lookups to the administrator, they do so afterwards |
| Auth.UserRegistry.Mount | src/contexts/AuthContext.tsx:46-54 | Seeds as above, then restores a persisted login as the current user; the administrator invariant is kept as for seeding |
| Auth.UserRegistry.Login | src/contexts/AuthContext.tsx:56-74 | Succeeds if and only if both stores exist, a user has the id and the stored password for that id matches. On success the first such user becomes current and is persisted; on failure nothing changes. The administrator invariant is unchanged |
| Auth.UserRegistry.Logout | src/contexts/AuthContext.tsx:76-79 | Clears the current user and its persisted copy; users and passwords are untouched |
| Auth.UserRegistry.CreateWriter | src/contexts/AuthContext.tsx:106-130 | Appends exactly one writer whose id comes from the writer count, records its creator, and stores its password under that id. An absent list counts as empty and an absent password map as `{}`. A lookup of `admin` that found the administrator still does |
| Auth.UserRegistry.DeleteWriter | src/contexts/AuthContext.tsx:137-158 | Succeeds if and only if the first user with that id is a writer. Then every user with that id is removed, and so is its password if a map exists; otherwise nothing changes. While `admin` finds the administrator, deleting `admin` fails and the administrator stays |
| Auth.UserRegistry.ChangePassword | src/contexts/AuthContext.tsx:160-169 | Fails exactly when no password map exists; otherwise sets that id's entry, user or not |
| Auth.UserRegistry.RolesPartition | src/contexts/AuthContext.tsx:85-87 | A logged-in user is admin or writer and never both |
| Auth.UserRegistry.IsAdmin | src/contexts/AuthContext.tsx:85-86 | Being admin implies being logged in |
| Auth.UserRegistry.IsWriter | src/contexts/AuthContext.tsx:85-87 | Being writer implies being logged in and not admin |
| Auth.AdminSurvivesCreate | src/contexts/AuthContext.tsx:120-122 | Appending a writer keeps the administrator as the first user with id `admin` |
| Auth.AdminSurvivesDelete | src/contexts/AuthContext.tsx:137-158 | A deletion the writer guard lets through never targets `admin` while `admin` finds the administrator, and afterwards `admin` still finds it |
| Auth.Apply | src/contexts/AuthContext.tsx:56-169 | Every registry operation (login, logout, create writer, delete writer, change password) preserves the invariant that `admin` finds the seeded administrator |
| Auth.AdminNeverDeleted | src/contexts/AuthContext.tsx:28-158 | From any stored state whose list is absent or already holds the administrator first under `admin`, mounting and then any sequence of registry calls leaves a state where deleting `admin` fails |
| Auth.NextWriterId | src/contexts/AuthContext.tsx:109-110 | The derived id carries the `Aam-Wrt-` prefix and is never `admin` |
| Auth.NextWriterIdShape | src/contexts/AuthContext.tsx:109-110 | The derived id's suffix after `Aam-Wrt-` reads back as the writer count plus one |
| Auth.DeleteFirstWriter | src/contexts/AuthContext.tsx:146 | Deleting writer 1 from admin and writers 1 and 2 leaves admin and writer 2, in order |
| Auth.WriterIdCollision | src/contexts/AuthContext.tsx:109-110 | After that deletion, the next derived id is `Aam-Wrt-2`, which writer 2 already holds (see Findings) |
| Auth.MaxWriterSuffix | src/contexts/AuthContext.tsx:109-110 | Bounds from above every writer suffix in the list |
| Auth.WriterSuffixOfId | src/contexts/AuthContext.tsx:110 | A writer id built from `n` reads back as `n` |
| Auth.AboveMaxSuffixIsFresh | src/contexts/AuthContext.tsx:109-110 | Any writer number above the largest suffix in the list gives an id no user in the list has |
| Auth.FreshWriterId | src/contexts/AuthContext.tsx:109-110 | The corrected derivation, the largest suffix plus one, has the writer prefix and differs from every id in the list |
| Auth.WrtIds | src/contexts/AuthContext.tsx:110 | The first two writer ids are `Aam-Wrt-1` and `Aam-Wrt-2` |
| CompanySettings.Merge | src/hooks/useCompanySettings.ts:32 | `{ ...base, ...patch }`: each field the patch gives replaces the base's, and every other field keeps the base's |
| CompanySettings.Single | src/pages/Settings.tsx:64-66 | `{ [field]: value }` gives that one field and no other |
| CompanySettings.Full | src/hooks/useCompanySettings.ts:42 | The persisted object gives every field with the settings' value |
| CompanySettings.MergeEmpty | src/hooks/useCompanySettings.ts:39-43 | An empty patch changes nothing |
| CompanySettings.MergeIdempotent | src/hooks/useCompanySettings.ts:39-43 | Applying a patch twice is applying it once |
| CompanySettings.PersistedReadsBack | src/hooks/useCompanySettings.ts:28-42 | Loading what an update persisted, over any defaults, gives back exactly the persisted settings |
| CompanySettings.SingleChangesOneField | src/pages/Settings.tsx:64-66 | A one-field change sets that field and leaves the other six alone |
| CompanySettings.SettingsExtensional | src/hooks/useCompanySettings.ts:13-21 | Settings agreeing on all seven fields are equal |
| CompanySettings.CompanySettingsStore.constructor | src/hooks/useCompanySettings.ts:13-24 | The state starts at the defaults: currency `INR`, fiscal year from `april`, the rest empty |
| CompanySettings.CompanySettingsStore.Load | src/hooks/useCompanySettings.ts:26-37 | A stored object overrides the defaults field by field; an absent or unparsable value leaves the settings alone |
| CompanySettings.CompanySettingsStore.Update | src/hooks/useCompanySettings.ts:39-43 | The given fields change, and localStorage then holds the whole new settings |
| CompanySettings.UpdateThenReload | src/hooks/useCompanySettings.ts:26-43 | Mount, update, then mount again over what was persisted: the second mount sees exactly the updated settings |
| BillCalc.Recomputed | src/pages/NewBill.tsx:63-66 | Each row's total becomes its quantity times its rate, `parseFloat(...) \|\| 0` each, and every other field and the row count stay |
| BillCalc.RecomputedFixpoint | src/pages/NewBill.tsx:63-71 | Recomputing the line totals changes the rows if and only if some total is wrong, and a second recomputation is a no-op, so the effect's re-render stops |
| BillCalc.SumRecomputed | src/pages/NewBill.tsx:63-74 | The sum of the recomputed row totals is the sum of the line products |
| BillCalc.GrandTotal | src/pages/NewBill.tsx:74 | The grand total is the sum over the lines of `(parseFloat(qty) \|\| 0) * (parseFloat(rate) \|\| 0)` |
| BillCalc.NetPayment | src/pages/NewBill.tsx:75-77 | Net payment plus the unloading amount plus the advance (a blank counting 0) is the line sum; with non-negative deductions it is at most the line sum |
| BillCalc.GrandTotalAppend | src/pages/NewBill.tsx:74 | Adding a line adds exactly its quantity times its rate |
| BillCalc.Shown | src/pages/NewBill.tsx:81-82 | A total is shown if and only if it is positive, and then as that number; otherwise blank |
| BillCalc.WithTotals | src/pages/NewBill.tsx:79-83 | The form shows the line sum as total if and only if it is positive, and the net payment if and only if it is positive; every other field is unchanged |
| BillCalc.WithTotalsShows | src/pages/NewBill.tsx:61-84 | Running the effect again over the recomputed rows is a no-op |
| BillCalc.CompleteLines | src/pages/NewBill.tsx:90 | Exactly the rows with variety, quantity and rate filled: each result is complete and one of the rows, every complete row is kept, and the result is empty if and only if no row is complete |
| BillCalc.TotalQuantity | src/pages/NewBill.tsx:101 | The summed quantity is stored if and only if every complete line's quantity parses, and it is then their sum. One unparsable quantity makes it `NaN`, stored as `null` |
| BillCalc.AverageRate | src/pages/NewBill.tsx:102 | The average rate exists if and only if the total and quantity exist and the quantity is non-zero; rate times quantity is then the total |
| BillCalc.Payload | src/pages/NewBill.tsx:89-118 | A write exists if and only if some line is complete. It then holds the complete lines in order, at least one; its quantity is their summed quantities when stored, its rate the shown total averaged over that quantity, and total and net payment are the shown ones |
| BillCalc.CompleteLinesStable | src/pages/EditBill.tsx:134 | Stored lines pass the filter again unchanged, so re-saving an edited bill keeps its lines |
| BillCalc.MaxRowId | src/pages/NewBill.tsx:167 | `Math.max` of the row ids is one of them and at least every one |
| BillCalc.AddRow | src/pages/NewBill.tsx:166-169 | The rows gain one blank row at the end, the others unchanged, whose id exceeds every old id |
| BillCalc.AddRowFresh | src/pages/NewBill.tsx:166-169 | Adding a row appends one blank row whose id exceeds every existing id, so the ids stay distinct |
| BillCalc.RemoveRow | src/pages/NewBill.tsx:171-175 | One row or none is left as it is. Otherwise the result holds exactly the rows whose id differs |
| BillCalc.RemoveRowKeepsOne | src/pages/NewBill.tsx:171-175 | Removing never empties the rows and keeps ids distinct. It drops exactly the row with that id when more than one row is left, and changes nothing when no row has it |
| BillCalc.SetRowField | src/pages/NewBill.tsx:158-164 | Every row with that id gets the new text in that field only; every other row is unchanged |
| BillCalc.SetFormField | src/pages/NewBill.tsx:151-156 | A typed field never touches the bill id or the computed totals |
| BillCalc.ApplyWrite | src/pages/EditBill.tsx:148-164 | An update rewrites every column the page sends and keeps the row's `id` and `bill_id` |
| BillCalc.LossBillDoesNotLoad | src/pages/EditBill.tsx:58 | A bill the new page saves with net payment 0 or less is stored with a `null` net payment, and the edit page's load then fails (see Findings) |
| BillCalc.LossLine | src/pages/NewBill.tsx:74-82 | The one-line loss bill (10 at 5) totals 50 |
| BillCalc.LossNet | src/pages/NewBill.tsx:74-82 | With 60 advance and no unloading, that bill's net payment is −10 |
| BillCalc.LoadedForm | src/pages/EditBill.tsx:49-59 | The load fills the form if and only if the bill's total and net payment are both present, and then with the bill's own fields |
| BillCalc.LoadedFormFixedRoundTrip | src/pages/EditBill.tsx:49-69 | With the blank-tolerant load, every bill the new page saves opens with its own id, agent, farm, deductions and totals. Saving it again keeps exactly its lines |
| NewBill.NewBillId | src/pages/NewBill.tsx:16 | A bill id splits into `BILL`, the year numeral and a piece that parses back to the random suffix |
| NewBill.NewBillPage.constructor | src/pages/NewBill.tsx:15-30 | A blank form under `BILL-<year>-<n>` with the single blank row 1 |
| NewBill.NewBillPage.Recalculate | src/pages/NewBill.tsx:61-84 | The totals effect recomputes the row totals and the form's totals, and keeps the invariant that there is a row and row ids are distinct |
| NewBill.NewBillPage.InputChange | src/pages/NewBill.tsx:151-156 | One form field takes the typed text; rows and inserts are unchanged |
| NewBill.NewBillPage.VarietyChange | src/pages/NewBill.tsx:158-164 | The rows with that id take the text in that field; the invariant holds |
| NewBill.NewBillPage.AddVariety | src/pages/NewBill.tsx:166-169 | One blank row with a new id at the end; the invariant holds |
| NewBill.NewBillPage.RemoveVariety | src/pages/NewBill.tsx:171-175 | Drops the row unless it is the last; the invariant holds |
| NewBill.NewBillPage.Submit | src/pages/NewBill.tsx:86-149 | Rejected with no insert if and only if no line is complete. A store error changes nothing. A save appends one insert of the payload under the form's bill id, then resets to a blank form under a fresh id with one blank row |
| NewBill.NewBillPage.Save | src/pages/NewBill.tsx:129-140 | After a save the insert is appended, the form is blank under a fresh `BILL-<year>-<n>` id and there is the single blank row 1, which keeps the invariant |
| EditBill.EditBillPage.constructor | src/pages/EditBill.tsx:14-31 | Starts loading over a blank form with one blank row and no updates |
| EditBill.EditBillPage.Load | src/pages/EditBill.tsx:38-80 | Loading ends either way. A fetched bill whose total and net payment are present fills the form, and its varieties replace the rows when the column parses to an array. Otherwise form and rows are unchanged |
| EditBill.EditBillPage.Recalculate | src/pages/EditBill.tsx:108-129 | The same totals effect as the new page |
| EditBill.EditBillPage.InputChange | src/pages/EditBill.tsx:184-189 | One form field takes the typed text |
| EditBill.EditBillPage.VarietyChange | src/pages/EditBill.tsx:191-197 | The rows with that id take the text in that field |
| EditBill.EditBillPage.AddVariety | src/pages/EditBill.tsx:199-202 | One blank row with an id past the largest |
| EditBill.EditBillPage.RemoveVariety | src/pages/EditBill.tsx:204-208 | Drops that id's rows unless only one row is left; with distinct ids, at least one row remains |
| EditBill.EditBillPage.Submit | src/pages/EditBill.tsx:131-182 | Rejected with no store call if and only if no line is complete. Otherwise one update of this row with the payload, which carries no `bill_id`, is recorded when the store accepts |
| NewVoucher.LastWithPrefix | src/pages/NewVoucher.tsx:56-61 | The most recently created id matching the pattern: absent if and only if none matches, otherwise a matching id with no later match |
| NewVoucher.NextNumber | src/pages/NewVoucher.tsx:56-79 | With no id of this year's pattern the counter stays; otherwise it is one past the number of a matching id that no later id matches |
| NewVoucher.SequencePart | src/pages/NewVoucher.tsx:64 | `parseInt(id.split('-')[3]) \|\| 0` is never negative |
| NewVoucher.SplitKindPrefix | src/pages/NewVoucher.tsx:107 | `VC-F` and `VC-A` split into `VC` and one letter |
| NewVoucher.GeneratedIdReadsBack | src/pages/NewVoucher.tsx:105-109 | A generated id matches its own kind's `VC-X-<year>-%` pattern, and its number reads back from the fourth piece |
| NewVoucher.GenerateVoucherId | src/pages/NewVoucher.tsx:105-109 | A generated id splits into `VC`, the kind letter, the year numeral and the padded number |
| NewVoucher.GeneratedIdMatches | src/pages/NewVoucher.tsx:105-109 | A generated id starts with its own kind's `VC-X-<year>-` pattern |
| NewVoucher.GeneratedIdNumber | src/pages/NewVoucher.tsx:64 | The number read back from a generated id is the number it was generated with |
| NewVoucher.NextNumberAfterCreate | src/pages/NewVoucher.tsx:56-79 | After a voucher numbered `n` is created, the next mount reads `n + 1` for its kind |
| NewVoucher.NextNumberOtherKind | src/pages/NewVoucher.tsx:56-79 | A voucher of the other kind leaves a kind's next number unchanged |
| NewVoucher.KindLetter | src/pages/NewVoucher.tsx:107 | The fourth character of a kind's pattern and of its ids is the kind letter |
| NewVoucher.LastWithPrefixSkips | src/pages/NewVoucher.tsx:56-61 | A latest id that does not match the pattern is passed over |
| NewVoucher.EditForm | src/pages/NewVoucher.tsx:89-103 | The edit form exists if and only if the voucher's amount is present (a `null` amount throws at `toString`). It keeps the voucher id, and its columns are exactly the voucher's own |
| NewVoucher.Columns | src/pages/NewVoucher.tsx:130-138 | The columns sent carry the form's description, type and payment mode, and the amount the form holds, which is the loaded amount when one was loaded |
| NewVoucher.NewVoucherPage.constructor | src/pages/NewVoucher.tsx:17-32 | Both counters start at 1, with a blank form dated today |
| NewVoucher.NewVoucherPage.FetchNumbers | src/pages/NewVoucher.tsx:39-86 | Each counter becomes one past the latest number of its kind this year, and stays put when there is none. On a crashed page nothing changes |
| NewVoucher.NewVoucherPage.LoadEdit | src/pages/NewVoucher.tsx:89-103 | In edit mode the form takes the edited voucher's fields. A `null` amount throws during render: the page is then crashed, and stays so |
| NewVoucher.NewVoucherPage.HandleLinkedToChange | src/pages/NewVoucher.tsx:111-120 | Sets the link kind and clears the linked id. The type becomes expense for a farm and income otherwise, and the id is generated from that kind's counter. A crashed page does not change |
| NewVoucher.NewVoucherPage.Submit | src/pages/NewVoucher.tsx:122-201 | A crashed page sends nothing. Edit mode sends one update of the edited row without `voucher_id`. Otherwise one insert of the form's id and columns, after which exactly the counter of the voucher's kind goes up by one and the form resets. A store error changes nothing |
| NewVoucher.NewVoucherPage.SaveNew | src/pages/NewVoucher.tsx:174-191 | A created voucher is appended, only the counter of its kind goes up by one, and the form is blank with today's date; no update is sent |
| NewFarm.NewFarmId | src/pages/NewFarm.tsx:17 | `FARM-<year>-<n>` splits into `FARM`, the year numeral and a piece parsing back to `n` |
| NewFarm.LeaseEnd | src/pages/NewFarm.tsx:33 | The lease end exists if and only if the lease years parse (and the year stays non-negative). It is then today with the year moved on by that many years |
| NewFarm.FarmPayload | src/pages/NewFarm.tsx:32-48 | The insert exists if and only if the lease end does. It copies the text fields, is active, parses area and price, and stores today and the lease end as `YYYY-MM-DD` |
| NewFarm.LeaseDatesReadBack | src/pages/NewFarm.tsx:32-33 | The stored start and end dates split into three pieces each: the years differ by the lease years, and month and day agree |
| NewFarm.WholeNumbersStored | src/pages/NewFarm.tsx:39-40 | An area and price typed as whole numbers are stored as those numbers |
| NewFarm.NewFarmPage.constructor | src/pages/NewFarm.tsx:16-25 | A blank form under `FARM-<year>-<n>`, crop `Mango` |
| NewFarm.NewFarmPage.InputChange | src/pages/NewFarm.tsx:78-83 | One field takes the typed text; inserts are unchanged |
| NewFarm.NewFarmPage.Submit | src/pages/NewFarm.tsx:28-76 | Rejected with no insert if and only if the lease end cannot be computed. A store error changes nothing. A save appends the payload and resets the form under a fresh id |
| NewFarm.NewFarmPage.Save | src/pages/NewFarm.tsx:58-67 | After a save the insert is appended and the form is blank again under a fresh `FARM-<year>-<n>` id |
| NewAgent.NewAgentId | src/pages/NewAgent.tsx:16 | `AGNT-<year>-<n>` splits into `AGNT`, the year numeral and a piece parsing back to `n` |
| NewAgent.AgentPayload | src/pages/NewAgent.tsx:27-36 | The insert carries every form field unchanged and is active |
| NewAgent.NewAgentPage.constructor | src/pages/NewAgent.tsx:15-21 | A blank form under `AGNT-<year>-<n>` |
| NewAgent.NewAgentPage.InputChange | src/pages/NewAgent.tsx:63-68 | One field takes the typed text |
| NewAgent.NewAgentPage.Submit | src/pages/NewAgent.tsx:24-61 | No checks of its own: saved exactly when the store accepts. It then appends the payload and resets under a fresh id; a store error changes nothing |
| Cutting.CuttingPayload | src/pages/Cutting.tsx:90-99 | Every new schedule is `scheduled` for the chosen farm, type and `yyyy-MM-dd` date. The quantity is `null` if and only if it is empty or does not parse, and the notes are `null` if and only if they are empty |
| Cutting.StatusColor | src/pages/Cutting.tsx:138-145 | The badge colour switch gives the default colour if and only if the status is none of `Scheduled`, `In Progress` and `Completed` |
| Cutting.StoredStatusesGetDefault | src/pages/Cutting.tsx:138-145 | No stored status (`scheduled`, `in_progress`, `completed`) matches a case of the badge colour switch, so every badge is the muted default (see Findings) |
| Cutting.BadgeColor | src/pages/Cutting.tsx:138-145 | The corrected switch, keyed on the stored status, never gives the default and gives the colour the written case meant for that status |
| Cutting.BadgeColorsDistinct | src/pages/Cutting.tsx:138-145 | Under the corrected switch, two statuses share a colour if and only if they are the same |
| Cutting.CuttingPage.constructor | src/pages/Cutting.tsx:19-25 | No date, a blank form, no inserts |
| Cutting.CuttingPage.SelectDate | src/pages/Cutting.tsx:19 | The date changes, nothing else |
| Cutting.CuttingPage.InputChange | src/pages/Cutting.tsx:131-136 | One field takes the typed text |
| Cutting.CuttingPage.Submit | src/pages/Cutting.tsx:76-129 | Rejected with no insert if and only if the date, farm or cutting type is missing. A store error changes nothing. A save appends the payload and clears the form and the date |
| FarmList.FromColumn | src/pages/FarmList.tsx:38 | A stored column becomes a number or `null`, never `NaN` |
| FarmList.ToColumn | src/pages/FarmList.tsx:60-65 | Sending a number keeps it; `NaN` and `null` are both sent as `null` |
| FarmList.JsAdd | src/pages/FarmList.tsx:114-115 | JavaScript `+` on these values: `NaN` if and only if either side is, `null` counting as 0 otherwise |
| FarmList.FromStore | src/pages/FarmList.tsx:38 | A fetched row holds no `NaN`, and sending it back gives the stored row |
| FarmList.ToStore | src/pages/FarmList.tsx:60-65 | Keeps the id, owner name and status; an area or price is stored as `null` if and only if the list's value is not a number |
| FarmList.StoreRoundTrip | src/pages/FarmList.tsx:60-71 | Storing a list row and reading it back gives the same row if and only if neither area nor price is `NaN` |
| FarmList.ParseNumber | src/pages/FarmList.tsx:415-424 | `parseFloat` of the typed text is `NaN` if and only if it does not parse, and otherwise the parsed number |
| FarmList.ApplyEdit | src/pages/FarmList.tsx:397-432 | An input changes only its own column: area and price take the parsed text, the owner name its text, and the fixed columns never change |
| FarmList.ApplyEdits | src/pages/FarmList.tsx:397-432 | Any sequence of inputs keeps the id, farm id, lease dates, guarantor and crop type |
| FarmList.ColumnsOf | src/pages/FarmList.tsx:60-65 | The update sends the owner name, location and status, and an area or price as `null` exactly when it is not a number |
| FarmList.StoreMatchesList | src/pages/FarmList.tsx:54-73 | After any edits, the row the store keeps is the list's row with `NaN` stored as `null`, and it reads back as the list's row if and only if no edit left area or price `NaN` |
| FarmList.JsSum | src/pages/FarmList.tsx:114-115 | The `reduce` over farms is `NaN` if and only if some term is, and otherwise the sum with `null` as 0 |
| FarmList.ActiveFarms | src/pages/FarmList.tsx:113 | Counts the active farms: at most all, all if and only if every farm is active, and none if and only if none is |
| FarmList.TotalArea | src/pages/FarmList.tsx:114 | The area card is `NaN` if and only if some farm's area is, and otherwise the areas' sum with `null` as 0 |
| FarmList.TotalValue | src/pages/FarmList.tsx:115 | The value card is `NaN` if and only if some farm's price is, and otherwise the prices' sum with `null` as 0 |
| FarmList.UpdateShiftsTotals | src/pages/FarmList.tsx:113-115 | Replacing one farm shifts a number total by exactly the difference when the new value is not `NaN`; a `NaN` value makes that total `NaN` |
| FarmList.FarmListPage.constructor | src/pages/FarmList.tsx:21-26 | Empty list, sheet and dialog closed, no updates, not crashed |
| FarmList.FarmListPage.Load | src/pages/FarmList.tsx:29-47 | A successful fetch replaces the list by the fetched rows, read as numbers or `null`; a failed one, or a crashed page, leaves it |
| FarmList.FarmListPage.View | src/pages/FarmList.tsx:108-111 | The dialog opens on the farm; its price rendered with `toLocaleString` (line 334) throws exactly when the price is `null`, and the page is then crashed for good. A `NaN` price renders |
| FarmList.FarmListPage.Edit | src/pages/FarmList.tsx:49-52 | The sheet opens on that farm, unless the page has crashed |
| FarmList.FarmListPage.EditField | src/pages/FarmList.tsx:397-432 | An input of the open sheet changes that column of the edited farm, `parseFloat`'s `NaN` included; a crashed page does not change |
| FarmList.FarmListPage.UpdateFarm | src/pages/FarmList.tsx:54-86 | On a crashed page, with no farm edited, or on a refusal, nothing changes. Otherwise one update of the five columns, then the farm replaces exactly the entry with its id and the sheet closes |
| FarmList.FarmListPage.Delete | src/pages/FarmList.tsx:88-106 | On a crashed page, without confirmation or on a refusal nothing changes; otherwise exactly that farm leaves the list, the rest keeping their order |
| AgentList.ActiveAgents | src/pages/AgentList.tsx:60 | The active count is the number of active agents: at most all, all if and only if every agent is active, none if and only if none is |
| AgentList.ActivePlusInactive | src/pages/AgentList.tsx:60 | Active and inactive agents together are the whole list |
| AgentList.ActiveAgentsAppend | src/pages/AgentList.tsx:60 | One more agent raises the count by one exactly when it is active |
| AgentList.DeleteLowersActive | src/pages/AgentList.tsx:44-60 | With distinct ids, deleting an agent lowers the active count by one exactly when that agent was active |
| AgentList.AgentListPage.constructor | src/pages/AgentList.tsx:15 | An empty list |
| AgentList.AgentListPage.Load | src/pages/AgentList.tsx:19-37 | A successful fetch replaces the list; a failed one leaves it |
| AgentList.AgentListPage.HandleEdit | src/pages/AgentList.tsx:39-42 | Only logs: the list is unchanged |
| AgentList.AgentListPage.Delete | src/pages/AgentList.tsx:44-58 | With no confirmation asked, a store success removes exactly that agent and keeps the order; a failure changes nothing |
| VoucherList.LinkedEntityName | src/pages/VoucherList.tsx:60-68 | The name of the first farm or agent, by the voucher's link kind, whose id is the linked id, or the linked id when no such record exists |
| VoucherList.TotalCredits | src/pages/VoucherList.tsx:270 | The credits card sums the amounts of the income vouchers only. A `null` amount never reaches it: the table's render throws first (see Load) |
| VoucherList.TotalDebits | src/pages/VoucherList.tsx:278 | The debits card sums the amounts of the expense vouchers only. A `null` amount never reaches it: the table's render throws first (see Load) |
| VoucherList.CreditsAndDebitsCoverAll | src/pages/VoucherList.tsx:270-278 | Credits plus debits count every voucher amount exactly once |
| VoucherList.DeleteLowersItsCard | src/pages/VoucherList.tsx:270-278 | With distinct ids, deleting one voucher removes one from the list and takes its amount off its own kind's card, leaving the other card unchanged |
| VoucherList.VoucherListPage.constructor | src/pages/VoucherList.tsx:17-21 | Empty lists, no dialog, not crashed |
| VoucherList.VoucherListPage.Load | src/pages/VoucherList.tsx:26-58 | The three lists are set only when all three queries succeed. The table then renders each amount with `toLocaleString` (line 219), so the page crashes exactly when a fetched amount is `null`. A crashed page does not change, and a page that has not crashed holds only vouchers with amounts |
| VoucherList.VoucherListPage.View | src/pages/VoucherList.tsx:99-102 | The dialog opens on the voucher; its amount rendered with `toLocaleString` (line 375) throws exactly when it is `null`. The lists are unchanged |
| VoucherList.VoucherListPage.Delete | src/pages/VoucherList.tsx:70-97 | On a crashed page, without confirmation or on a refusal nothing changes; otherwise the vouchers with that id leave the list, exactly one with distinct ids |
| SaleBillList.ItemsOf | src/pages/SaleBillList.tsx:35-44 | A bill's items are exactly the rows of the items table with its `bill_id` |
| SaleBillList.ItemsOfAppend | src/pages/SaleBillList.tsx:35-44 | The items keep the table's creation order: an empty table gives none, and a row added to the table is appended to its own bill's items and to no other bill's |
| SaleBillList.AttachItems | src/pages/SaleBillList.tsx:35-50 | Every bill keeps its place and gets exactly its own items, or none when its items query failed |
| SaleBillList.AgentName | src/pages/SaleBillList.tsx:75-78 | The name of the first agent with the id, or the id when no agent has it |
| SaleBillList.FarmName | src/pages/SaleBillList.tsx:80-84 | `N/A` for a missing or empty farm id, else the name of the first farm with it, or the id when no farm has it |
| SaleBillList.NetPayments | src/pages/SaleBillList.tsx:239 | The net payments card is never negative when no bill's net payment is. A `null` net payment never reaches it: the table's render throws first (see Load) |
| SaleBillList.TotalQuantity | src/pages/SaleBillList.tsx:247 | The quantity card is never negative when no bill's quantity is |
| SaleBillList.DeleteLowersTotals | src/pages/SaleBillList.tsx:239-247 | With distinct ids, deleting a bill takes exactly its net payment and quantity off the cards, and one bill off the count |
| SaleBillList.LossBillCrashesList | src/pages/NewBill.tsx:75-118 | A bill with a complete line whose net payment is zero or less is saved with a `null` net payment, and a list holding it does not render (see Findings) |
| SaleBillList.LossBillListExample | src/pages/SaleBillList.tsx:196 | The one-line loss bill (10 at 5, 60 advance) is saved and then takes the bill list down |
| SaleBillList.SaleBillListPage.constructor | src/pages/SaleBillList.tsx:17-19 | Empty lists, no dialog, not crashed |
| SaleBillList.SaleBillListPage.Load | src/pages/SaleBillList.tsx:24-73 | The lists are set only when bills, farms and agents all load; then each bill carries its items. The table renders each net payment with `toLocaleString` (line 196), so the page crashes exactly when a fetched net payment is `null`. A crashed page does not change |
| SaleBillList.SaleBillListPage.LoadBlankNetAsZero | src/pages/SaleBillList.tsx:24-73 | With the net payment rendered as `?? 0`, the page never crashes and lists every fetched bill, loss bills included, in order |
| SaleBillList.SaleBillListPage.ViewBill | src/pages/SaleBillList.tsx:124-127 | The dialog opens on the bill and throws exactly when its net payment or total is `null`, or its rate is when it has no items (lines 341-384) |
| SaleBillList.SaleBillListPage.DeleteBill | src/pages/SaleBillList.tsx:86-99 | On a crashed page, without confirmation or on a refusal nothing changes; otherwise the list loses that bill |
| Ledger.TotalDebit | src/pages/FarmerLedger.tsx:64 | The summed debits are non-negative when every debit is |
| Ledger.TotalCredit | src/pages/FarmerLedger.tsx:65 | The summed credits are non-negative when every credit is |
| Ledger.FarmBalance | src/pages/FarmerLedger.tsx:64-66 | Credit minus debit totals is the sum of each entry's own net, credit minus debit |
| Ledger.AgentBalance | src/pages/AgentLedger.tsx:64-66 | Debit minus credit totals is the sum of each entry's debit minus credit, which is the farm balance negated |
| Ledger.TotalVouchers | src/pages/FarmerLedger.tsx:67 | Counts the voucher entries: at most all, and none if and only if no entry is a voucher |
| Ledger.TotalBills | src/pages/FarmerLedger.tsx:68 | Counts the bill entries: at most all, and none if and only if no entry is a bill |
| Ledger.BalanceAppend | src/pages/FarmerLedger.tsx:64-66 | Both balances add over a split of the entries |
| Ledger.CountsCoverEntries | src/pages/FarmerLedger.tsx:67-68 | The voucher and bill counts add up to the number of entries |
| Ledger.Abs | src/pages/FarmerLedger.tsx:228 | `Math.abs` is non-negative and is the value or its negation |
| Ledger.FarmBalanceDisplay | src/pages/FarmerLedger.tsx:226-229 | The magnitude, labelled Profit if and only if the balance is positive, otherwise Loss (zero reads as a loss) |
| Ledger.AgentBalanceDisplay | src/pages/AgentLedger.tsx:218-221 | The magnitude, labelled Agent Owes Us if and only if the balance is positive, otherwise We Owe |
| Ledger.DisplaysAgree | src/pages/AgentLedger.tsx:64-66 | The two pages show the same magnitude for the same entries; for a non-zero balance, a farm profit is an agent "We Owe" and the other way round |
| Ledger.ShowCell | src/pages/FarmerLedger.tsx:268-271 | A cell shows the amount if and only if it is present and positive, otherwise a dash |
| Reports.TotalSales | src/pages/Reports.improved.tsx:68 | With net payments stored only when positive, total sales are never negative |
| Reports.TotalExpenses | src/pages/Reports.improved.tsx:69 | Expenses sum the amounts of expense vouchers only, and are never negative when no amount is |
| Reports.ComputeStats | src/pages/Reports.improved.tsx:68-80 | Sales are the summed net payments and expenses the summed expense vouchers. Profit is their difference, the margin is 0 unless sales are positive and otherwise satisfies margin · sales = profit · 100, the counts are the list lengths, and active counts are at most the totals |
| Reports.ExpensesOnlyFromExpenseVouchers | src/pages/Reports.improved.tsx:69 | An income voucher leaves expenses unchanged; an expense voucher adds exactly its amount |
| Reports.MarginAtMostHundred | src/pages/Reports.improved.tsx:68-75 | With net payments stored only when positive and non-negative amounts, sales are never negative and the margin is at most 100 |
| Reports.MarginBound | src/pages/Reports.improved.tsx:75 | A margin defined by margin · sales = (sales − expenses) · 100 with positive sales and non-negative expenses is at most 100 |
| Reports.SelectReport | src/pages/Reports.improved.tsx:91-93 | One of the six titles opens that report; any other title leaves the open report as it was |
| Reports.SummaryRows | src/pages/Reports.improved.tsx:447-451 | At most one line per entity, each an entity's line with a positive count, and every entity with items gets its line |
| Reports.SummaryRowsConcat | src/pages/Reports.improved.tsx:447-451 | The lines for two runs of entities are the first run's lines then the second's, so lines keep the entities' order |
| Reports.SummaryRowsSingle | src/pages/Reports.improved.tsx:447-451 | One entity gives its own line if it has items and nothing otherwise |
| Reports.FarmVoucherSummary | src/pages/Reports.improved.tsx:447-451 | Each line is a farm's, by farm id and owner name, with a positive voucher count |
| Reports.AgentVoucherSummary | src/pages/Reports.improved.tsx:483-487 | Each line is an agent's, by agent id and name, with a positive voucher count |
| Reports.FarmBillSummary | src/pages/Reports.improved.tsx:547-551 | Each line is a farm's, by farm id and owner name, with a positive bill count |
| Reports.AgentBillSummary | src/pages/Reports.improved.tsx:583-587 | Each line is an agent's, by agent id and name, with a positive bill count |
| Reports.SummaryIgnoresUnrelated | src/pages/Reports.improved.tsx:483-487 | An item that belongs to no entity changes no summary |
| Reports.FarmSummaryIgnoresAgentVouchers | src/pages/Reports.improved.tsx:447-451 | A voucher linked to an agent never enters the farm voucher summary |
| Reports.FarmBillSummaryIgnoresFarmless | src/pages/Reports.improved.tsx:547-551 | A bill with no farm never enters the farm bill summary |
| Backup.TablesOf | src/pages/BackupReset.tsx:49-56 | The document's `tables` object holds all six tables, each the array given for it |
| Backup.NilRows | src/pages/BackupReset.tsx:106-111 | A whole-table delete leaves exactly the rows whose id is the nil UUID |
| Backup.NilRowsNone | src/pages/BackupReset.tsx:168-173 | A table with no nil-UUID row is emptied completely |
| Backup.RestoreOfBackup | src/pages/BackupReset.tsx:92-151 | Restoring a document whose tables are a snapshot, onto tables with no nil-UUID row and with no insert refused, makes each table equal its snapshot |
| Backup.Store.constructor | src/lib/supabase.ts:8-103 | The six tables start as given, with an empty call log |
| Backup.Store.Select | src/pages/BackupReset.tsx:40-45 | A select returns the table's rows, or no data on failure |
| Backup.Store.DeleteNonNil | src/pages/BackupReset.tsx:168 | Deletes every row of one table but the nil-UUID ones, logs the call and touches no other table |
| Backup.Store.Insert | src/pages/BackupReset.tsx:116 | Appends the rows to that table unless refused, and logs the call |
| Backup.BackupPage.constructor | src/pages/BackupReset.tsx:27 | The confirmation text starts empty |
| Backup.BackupPage.SetConfirmation | src/pages/BackupReset.tsx:27 | The confirmation takes the typed text |
| Backup.BackupPage.MakeBackup | src/pages/BackupReset.tsx:38-57 | The document holds exactly the six tables, each the table's rows or empty when its select failed, and the given timestamp. The store is unchanged |
| Backup.BackupPage.ClearTable | src/pages/BackupReset.tsx:106 | One delete keeps only that table's nil-UUID rows, logs the call and leaves every other table as it was |
| Backup.BackupPage.ClearTables | src/pages/BackupReset.tsx:105-112 | Every table keeps only its nil-UUID rows, the deletes logged dependents first |
| Backup.BackupPage.RestoreTable | src/pages/BackupReset.tsx:115-117 | A table's array is inserted only when it is non-empty |
| Backup.BackupPage.InsertTables | src/pages/BackupReset.tsx:115-132 | Each table gains its document array unless refused, the inserts logged in the page's order |
| Backup.BackupPage.Restore | src/pages/BackupReset.tsx:92-151 | Refused with no store call if and only if the file does not parse or lacks `tables`. Otherwise the six deletes then the inserts, leaving each table its nil-UUID rows plus the document's array |
| Backup.BackupPage.Reset | src/pages/BackupReset.tsx:153-194 | Does nothing unless the confirmation is exactly `RESET DATABASE`. Otherwise it empties the six tables dependents first and clears the confirmation |
| Index.FilteredCards | src/pages/Index.tsx:134-136 | Only cards whose roles include the role, each of them, drawn from the card list |
| Index.CardRoles | src/pages/Index.tsx:24-129 | Thirteen cards; Settings and Backup & Reset are admin-only, the first eleven are for admin and clerk |
| Index.CardsHaveTwoRoleLists | src/pages/Index.tsx:24-129 | Every card's roles are admin and clerk, or admin alone |
| Index.AdminSeesEveryCard | src/pages/Index.tsx:134-136 | An admin sees all thirteen cards in order |
| Index.ClerkSeesElevenCards | src/pages/Index.tsx:134-136 | A clerk sees the first eleven cards in order, and neither admin-only card |
| Index.OtherRolesSeeNothing | src/pages/Index.tsx:134-136 | Any other role, writer among them, sees no card |
| Index.ShownCardsAreAll | src/pages/Index.tsx:132-136 | With the role fixed to admin, the page shows every card |
| SettingsPage.WriterList | src/pages/Settings.tsx:530-533 | The writer panel lists every writer and only writers, in order |
| SettingsPage.AdminNeverListed | src/pages/Settings.tsx:530-533 | The administrator is never offered for deletion |
| SettingsPage.CreatedWriterListed | src/pages/Settings.tsx:104-124 | A newly created writer appears at the end of the panel |
| SettingsPage.SettingsPage.constructor | src/pages/Settings.tsx:33-39 | Empty users list and blank forms |
| SettingsPage.SettingsPage.LoadUsers | src/pages/Settings.tsx:58-62 | Only an administrator gets the users list |
| SettingsPage.SettingsPage.SetNewWriter | src/pages/Settings.tsx:34-38 | The writer form takes the typed fields |
| SettingsPage.SettingsPage.SetNewAdminPassword | src/pages/Settings.tsx:39 | The password field takes the typed text |
| SettingsPage.SettingsPage.HandleCreateWriter | src/pages/Settings.tsx:104-124 | A form with an empty field, or no current user, changes nothing. Otherwise exactly one writer, created by the current user, is added with its password, the list is re-read and the form cleared |
| SettingsPage.SettingsPage.HandleDeleteWriter | src/pages/Settings.tsx:126-141 | Succeeds if and only if the id's first user is a writer, then re-reads the list; a failure changes nothing |
| SettingsPage.SettingsPage.HandleChangeAdminPassword | src/pages/Settings.tsx:143-169 | Under six characters is refused. Changed if and only if there is a current user and a password map; then that user's password is set and the field cleared. Every other outcome changes nothing |
| SettingsPage.SettingsPage.HandleCompanySettingsChange | src/pages/Settings.tsx:64-66 | That one field changes, the other six keep their values, and the whole settings are persisted |

## Left out

- Supabase, localStorage and the browser. Store calls are modelled by a `storeOk` flag or a `refused` set. Fetched rows are `Option` parameters. localStorage keys are class fields. `JSON.parse` and `JSON.stringify` are modelled by their outcomes: absent, unreadable, not an array, or the value.
- The clock and randomness. `new Date()`, `getFullYear()` and `Math.random()` are parameters: today's date, the year, and a suffix 1..1000. The voucher page takes today's date as the `YYYY-MM-DD` text of `toISOString().split('T')[0]`, since it uses nothing else of it. Timestamps written as `created_at` or `updated_at` are not modelled.
- Loading flags, toasts, navigation, scrolling and `window.print` are not modelled. `confirm()` is modelled as a `confirmed` parameter.
- Asynchrony. The restore's six deletes run under `Promise.all` and are modelled one after the other, in the page's order. Errors from those deletes, and from the reset's six awaited deletes, are not modelled; the page checks neither.
- Floating point. Numbers are exact reals. On the farm list, a JavaScript number is `NaN`, `null` or a real; elsewhere `NaN` and infinities are `None`, JSON's `null`. `parseFloat` is modelled on decimal text (sign, digits, fraction) without exponents or `Infinity`. `toLocaleString` and `Intl.NumberFormat` formatting are not modelled.
- Browser constraint validation (`required`, `type="number"`, `min`) is not modelled: each submit handler is modelled on whatever the form holds.
- NewFarm.LeaseEnd: JavaScript dates are modelled by year, month and day only. A lease ending before year 0 is treated as a failed submit. Expanded ISO years (five digits or negative) and the 29 February roll-over of `setFullYear` are not modelled.
- EditBill.EditBillPage.AddVariety: requires a row. With no rows, `Math.max()` of nothing is `-Infinity` and the new id would be `NaN`. The page can reach this only by loading a bill whose stored varieties are an empty array.
- FarmList.FarmListPage.EditField: an area or price that does not parse is `NaN` in the page's list, so the total area and value cards read `NaN`; the update sends it as `null`. `toFixed(1)` and the division by 100000 on the value card are not modelled.
- NewVoucher.NewVoucherPage.LoadEdit: after the throw the page is modelled as crashed and inert; React's error handling and the blank screen it leaves are not modelled. The same holds for the `crashed` flag of the voucher, sale-bill and farm lists.
- SaleBillList.SaleBillListPage.ViewBill: the bill items' quantity, rate and total are non-null numbers in this model, so their `toLocaleString` calls in the dialog never throw here.
- Text.ParseIntDefined: `parseInt` is modelled in base 10 only; the `0x` prefix that makes it read hexadecimal is not modelled.
- Text.TrimStart: whitespace is space, tab, carriage return and line feed only; the other Unicode spaces `parseInt` and `parseFloat` skip are not modelled.
- The cutting page's schedule refresh after a save, and its farm list fetch, are not modelled: they only feed the display.
- Reports.ComputeStats: the ledger entries fetched alongside are stored but feed no statistic, so they are not modelled. The report bodies beyond the four summary tables, and PDF download, are not modelled.
- The ledger pages' fetches of the farm or agent and of its entries are not modelled; their figures are functions of the fetched entries.
- The settings page's application and security panels, `handleSaveSettings` and `handleLogoUpload` only hold local state or show a toast, and are not modelled.
- CompanySettings.CompanySettingsStore.Load: a stored object with keys beyond the seven fields, or with non-string values, is not modelled.
- `src/pages/Reports.tsx`, `src/pages/Login.tsx`, `src/pages/EditVoucher.tsx`, `src/App.tsx`, the navigation bar and the not-found page are not part of this model.

## Findings

The page methods follow the code as written. Each corrected definition stands beside the one it fixes, with its intended property proved.

| source | as written | input that shows it | evidently intended | confidence | as-written member | corrected member |
|---|---|---|---|---|---|---|
| src/contexts/AuthContext.tsx:109-110 | A new writer id is `Aam-Wrt-` plus the number of writer ids plus one | Writers 1 and 2 exist and writer 1 is deleted: the next writer gets `Aam-Wrt-2`, writer 2's id, and shares its password entry | A writer id not already in use | not executed | Auth.WriterIdCollision | Auth.FreshWriterId |
| src/pages/EditBill.tsx:58 | The load calls `net_payment.toString()`, but the new page stores a blank net payment as `null` (src/pages/NewBill.tsx:82, 118) | A bill with one line of 10 at 5 and an advance of 60: net payment is −10, stored as `null`, and the edit page cannot load it | Every saved bill opens on the edit page, a `null` shown blank | not executed | BillCalc.LossBillDoesNotLoad | BillCalc.LoadedFormFixedRoundTrip |
| src/pages/Cutting.tsx:138-145 | The badge colour switches on `Scheduled`, `In Progress` and `Completed`, while rows are inserted as `scheduled` (line 98) | Any stored schedule, such as the status `scheduled`, gets the muted default badge | Each stored status gets its own colour | not executed | Cutting.StoredStatusesGetDefault | Cutting.BadgeColorsDistinct |
| src/pages/SaleBillList.tsx:196 | The table renders `bill.net_payment.toLocaleString(...)`, but the new page stores a blank net payment as `null` (src/pages/NewBill.tsx:82, 118) | A bill with one line of 10 at 5 and an advance of 60: once saved, the bill list throws while rendering and shows nothing | Every saved bill is listed, a `null` net payment shown as 0 | not executed | SaleBillList.LossBillCrashesList | SaleBillList.SaleBillListPage.LoadBlankNetAsZero |
