# Estimates, role gate and insurance registry of the AutoNova shop backend

This project models, in Dafny, the core of the AutoNova body-shop backend
(a Flask service):

- **Estimate workflow** (`backend/routes/estimates.py`). An estimate is
  created `pending` with a number of the form `EST-YYYYMMDD-NNNN`. Only a
  pending estimate may be edited, deleted, approved, rejected or have part
  and labour lines added, changed or removed. After every line change the
  four totals are recomputed: parts, labour, 10% tax, grand total.
  `Estimates.Estimate` is a class with the row's fields. Its methods are the
  handlers from the point where the estimate has been found.
  `Estimates.EstimateBook` is the estimates table: create, find, delete.
- **Estimate numbers** (`EstimateNumbers`). The generator as the source
  writes it, and a corrected one (see Findings).
- **Line items** (`LineItems`). Part and labour validation, line totals, sums,
  cent rounding and `calculate_totals`.
- **Role gate** (`backend/utils.py`, module `Access`). `role_required` as a
  pure function. The user found from the login token is an input.
- **Insurance-company registry** (`backend/routes/insurance_companies.py`,
  module `InsuranceCompanies`). A class over a map from id to company that
  keeps company names unique. The email validator is a parameter of type
  `string -> bool`.

Every handler is atomic in the model: it either succeeds or leaves the state
exactly as it was (`unchanged(this)`). In the source a 400 answer returns
before the commit, so the changes made so far are discarded with the session.
The acting user, the date and the timestamp are parameters. The ids the
database assigns to new rows are parameters too. Amounts are exact decimals
(Dafny `real`), since the source converts every JSON number to `Decimal`.

## Model

| member | source | states |
|---|---|---|
| EstimateNumbers.Pad4 | backend/routes/estimates.py:34 | `{n:04d}`: at least four ASCII digits, exactly four when `n` has fewer, and parsing the text gives back `n` |
| EstimateNumbers.DigitsRoundTrip | backend/routes/estimates.py:27-34 | parsing the decimal text of `n` gives `n` |
| EstimateNumbers.LeadingZerosValue | backend/routes/estimates.py:27-34 | leading zeros do not change the value `int()` reads |
| EstimateNumbers.ParseInt | backend/routes/estimates.py:27-30 | `int()` succeeds exactly on a non-empty string of digits |
| EstimateNumbers.LastFieldIsLastDashFree | backend/routes/estimates.py:27 | `split('-')[-1]` (`LastField`): a suffix of the text with no '-' in it, preceded by a '-' unless it is the whole text |
| EstimateNumbers.LastFieldAfterDash | backend/routes/estimates.py:17-27 | the last field of `prefix + digits` is the digits, for a prefix ending in '-' |
| EstimateNumbers.LexTotal | backend/routes/estimates.py:20-22 | the descending string order of the query compares any two numbers |
| EstimateNumbers.LexTransitive | backend/routes/estimates.py:20-22 | that order is transitive |
| EstimateNumbers.LexCommonPrefix | backend/routes/estimates.py:17-22 | numbers with the same day prefix compare as their suffixes do |
| EstimateNumbers.Latest | backend/routes/estimates.py:20-22 | the query's first row: absent exactly when no number has the day's prefix, otherwise one of them |
| EstimateNumbers.LatestIsGreatest | backend/routes/estimates.py:20-22 | that row is the greatest of the day's numbers in string order |
| EstimateNumbers.GenerateNumberAsWritten | backend/routes/estimates.py:13-34 | the generator as written: exactly the day's prefix `EST-YYYYMMDD-` followed by `{n:04d}` of the sequence `SequenceAsWritten` takes from the latest number (its last field plus one, or 1 when there is none or it does not parse); that last field parses back to the sequence |
| EstimateNumbers.MaxSequenceBounds | backend/routes/estimates.py:19-28 | the numeric maximum `MaxSequence` bounds every sequence issued that day |
| EstimateNumbers.MaxSequenceAttained | backend/routes/estimates.py:19-28 | the numeric maximum is one of the issued sequences, or 0 |
| EstimateNumbers.NextNumber | backend/routes/estimates.py:13-34 | the corrected generator: exactly the day's prefix followed by `{n:04d}` of one past the greatest sequence issued that day (`MaxSequence`), and never a number already issued |
| EstimateNumbers.NotYetIssued | backend/routes/estimates.py:13-34 | a number one past the day's maximum is not in the table |
| EstimateNumbers.IssuedSequenceOf | backend/routes/estimates.py:17-27 | a number made of the day's prefix and digits carries the digits' value as its sequence |
| EstimateNumbers.FirstTwoOfTheDay | backend/routes/estimates.py:24-34 | the corrected generator gives `EST-d-0001` on an empty day and `EST-d-0002` after it |
| EstimateNumbers.FirstTwoOfTheDayAsWritten | backend/routes/estimates.py:24-34 | the generator as written gives the same two numbers |
| EstimateNumbers.LatestPast9999 | backend/routes/estimates.py:20-22 | of `EST-d-9999` and `EST-d-10000` the query returns `EST-d-9999` first |
| EstimateNumbers.AsWrittenRepeatsAfter9999 | backend/routes/estimates.py:20-28 | on any day d with `EST-d-9999` and `EST-d-10000` issued, the generator as written returns `EST-d-10000` again |
| EstimateNumbers.MaxSequencePast9999 | backend/routes/estimates.py:19-28 | on that table the numeric maximum is 10000 |
| EstimateNumbers.NextNumberPast9999 | backend/routes/estimates.py:13-34 | on that table the corrected generator returns the fresh `EST-d-10001` |
| LineItems.NewPart | backend/routes/estimates.py:355-384 | add part: part_name, quantity, unit_price required in that order; quantity ≤ 0 then unit price < 0 rejected; zero price accepted; total = quantity × unit price |
| LineItems.PatchPart | backend/routes/estimates.py:431-448 | update part: supplied fields replace stored ones, others stay; bad quantity or price rejects the update; total recomputed from the resulting quantity and price |
| LineItems.NewLabour | backend/routes/estimates.py:528-557 | add labour: description, hours, hourly_rate required; hours ≤ 0 then rate ≤ 0 rejected; total = hours × rate |
| LineItems.PatchLabour | backend/routes/estimates.py:603-618 | update labour: supplied fields replace stored ones; bad hours or rate rejects; total recomputed |
| LineItems.SumAppend | backend/routes/estimates.py:390 | adding a line adds its amount to the total |
| LineItems.SumConcat | backend/routes/estimates.py:390 | the total of two runs of lines is the sum of their totals |
| LineItems.SumRemove | backend/routes/estimates.py:494 | removing a line subtracts exactly its amount |
| LineItems.SumReplace | backend/routes/estimates.py:452 | replacing a line changes the total by the difference |
| LineItems.SumNonNegative | backend/routes/estimates.py:368-369 | non-negative line totals give a non-negative sum |
| LineItems.SumPositive | backend/routes/estimates.py:541-542 | a non-empty run of positive amounts has a positive sum |
| LineItems.RoundHalfEven | backend/test_estimates.py:234-235 | the nearest integer, at most one half away, strictly nearer unless it is a tie, a tie going to the even integer, an integer unchanged |
| LineItems.RoundCents | backend/test_estimates.py:234-235 | a whole number of cents at most half a cent away, a tie going to the even cent, whole-cent amounts unchanged |
| LineItems.CalculateTotals | backend/test_estimates.py:234-248 | parts and labour are the sums of their line totals, tax is 10% of both rounded to the cent, grand = parts + labour + tax |
| LineItems.TotalsOfValidLines | backend/routes/estimates.py:364-369 | valid lines never make a total negative; any labour makes the labour total positive |
| LineItems.AddPartTotals | backend/routes/estimates.py:387-390 | adding a part raises the parts total by its line total and leaves labour alone |
| LineItems.RemovePartTotals | backend/routes/estimates.py:491-494 | removing a part lowers the parts total by its line total |
| LineItems.ReplacePartTotals | backend/routes/estimates.py:447-452 | updating a part changes the parts total by the difference |
| LineItems.AddLabourTotals | backend/routes/estimates.py:560-563 | adding labour raises the labour total by its cost and leaves parts alone |
| LineItems.RemoveLabourTotals | backend/routes/estimates.py:662-665 | removing labour lowers the labour total by its cost |
| LineItems.ReplaceLabourTotals | backend/routes/estimates.py:617-623 | updating labour changes the labour total by the difference |
| LineItems.WholeCentsAdd | backend/test_estimates.py:234-248 | whole-cent amounts add to whole cents |
| LineItems.GrandTotalWholeCents | backend/test_estimates.py:234-248 | whole-cent subtotals give a whole-cent grand total |
| LineItems.TestFigureTotals | backend/test_estimates.py:234-248 | lines of 450, 325, 325 and 212.50, 127.50, 285.00 total 1100.00, 625.00, tax 172.50, grand 1897.50 |
| Estimates.CheckNewEstimate | backend/routes/estimates.py:96-130 | create estimate: customer_id then vehicle_id required (400), customer then vehicle must exist (404), a truthy insurance company id must exist (404 "Insurance company not found"), the date must parse (400); success exactly when all hold |
| Estimates.CheckEstimatePatch | backend/routes/estimates.py:175-211 | update estimate: a supplied customer, then vehicle, then truthy insurance company id must exist (404 for each), and a supplied date must parse (400); success exactly when all hold |
| Estimates.Estimate.constructor | backend/routes/estimates.py:133-144 | a new estimate is pending, created by the acting user, with no lines and zero totals |
| Estimates.Estimate.RecalculateTotals | backend/routes/estimates.py:390 | the stored totals become those of the current lines; nothing else changes |
| Estimates.RemovePartKeepsLinesValid | backend/routes/estimates.py:491 | removing a part keeps every line valid and the ids distinct |
| Estimates.RemoveLabourKeepsLinesValid | backend/routes/estimates.py:662 | removing a labour line keeps every line valid and the ids distinct |
| Estimates.Estimate.Update | backend/routes/estimates.py:162-227 | not pending: refused and unchanged; failed check: unchanged; otherwise exactly the supplied fields replaced |
| Estimates.Estimate.ApplyPatch | backend/routes/estimates.py:177-218 | the supplied fields replace the stored ones, everything else stays (the record becomes `ApplyEstimatePatch` of the old one) |
| Estimates.Estimate.Approve | backend/routes/estimates.py:258-292 | pending becomes approved by the actor with no rejection reason; any other status: refused and unchanged |
| Estimates.Estimate.Reject | backend/routes/estimates.py:295-334 | pending becomes rejected by the actor with the given reason; any other status: refused and unchanged |
| Estimates.Estimate.AddPart | backend/routes/estimates.py:339-404 | not pending: refused; otherwise the part `NewPart` builds is appended and the totals recomputed, or nothing changes |
| Estimates.Estimate.UpdatePart | backend/routes/estimates.py:407-466 | not pending, missing part, part of another estimate, or bad values: refused and unchanged; otherwise the line replaced and totals recomputed |
| Estimates.Estimate.DeletePart | backend/routes/estimates.py:469-507 | not pending, missing or foreign part: refused and unchanged; otherwise exactly that line removed and totals recomputed |
| Estimates.Estimate.AddLabour | backend/routes/estimates.py:512-577 | as AddPart, for a labour line |
| Estimates.Estimate.UpdateLabour | backend/routes/estimates.py:580-637 | as UpdatePart, for a labour line |
| Estimates.Estimate.DeleteLabour | backend/routes/estimates.py:640-678 | as DeletePart, for a labour line |
| Common.IndexOf | backend/routes/estimates.py:80-82 | the position of the row with that id (the estimate, part or labour line a `WHERE id = ?` query selects), or none exactly when no row has that id |
| Estimates.PageSize | backend/routes/estimates.py:43-46 | the requested page size (10 by default), never above 100 |
| Estimates.EstimateBook.Lookup | backend/routes/estimates.py:80-82 | the estimate with that id, or "Estimate not found" exactly when there is none |
| Estimates.EstimateBook.Create | backend/routes/estimates.py:89-159 | after the checks, a fresh pending estimate created by the actor, numbered by the corrected generator `NextNumber` (the source calls the generator as written; see Findings), appended to the table; ids and numbers stay unique |
| Estimates.EstimateBook.Delete | backend/routes/estimates.py:230-255 | a missing estimate answers 404; a non-pending one is refused (400) and the table is unchanged; a pending one is deleted with success, exactly that estimate removed |
| Estimates.GrandTotalScenario | backend/test_estimates.py:234-248 | the three parts and three labour lines of the end-to-end test, added through the handlers (`AddTestParts`, `AddTestLabour`), give 1100.00, 625.00, 172.50 and 1897.50 |
| Estimates.ApprovedIsFinal | backend/routes/estimates.py:268-269 | after approval a second approval, a rejection, an edit and a new part all fail |
| Estimates.ApprovedIsKept | backend/routes/estimates.py:240-241 | an approved estimate cannot be deleted and stays in the table |
| Common.Code | backend/routes/estimates.py:100-130 | "not found" errors are 404, every other handler error is 400 |
| Access.DenialStatus | backend/utils.py:27-38 | a missing user is 404, an inactive or under-privileged one 403 |
| Access.RoleRequired | backend/utils.py:13-43 | missing user, then inactive, then role not allowed (reporting the allowed roles and the user's role; `DenialMessage` gives the error texts); the handler's own result exactly when all checks pass |
| Access.DecisionIgnoresHandler | backend/utils.py:25-40 | whether the call goes through, and any refusal, do not depend on the wrapped handler |
| Access.WiderRolesAdmitMore | backend/utils.py:33 | allowing more roles never refuses a user that fewer roles let through |
| Access.InsuranceRolesNested | backend/routes/insurance_companies.py:13-153 | whoever may delete a company may change one, whoever may change one may read; a manager may change but not delete |
| Access.InactiveAdminRefused | backend/utils.py:30-31 | an inactive user is refused with 403 whatever the role |
| InsuranceCompanies.CheckCreate | backend/routes/insurance_companies.py:62-73 | missing name, then a non-empty invalid email, then a name already in the table; success exactly when none applies |
| InsuranceCompanies.NewCompany | backend/routes/insurance_companies.py:76-83 | the stored company takes the given name, contact person, phone, email and address; is_active is true unless false is supplied |
| InsuranceCompanies.CheckUpdate | backend/routes/insurance_companies.py:106-120 | unknown id 404, then invalid email, then a new name held by some company; keeping the own name is allowed |
| InsuranceCompanies.PatchChangesOnlySuppliedFields | backend/routes/insurance_companies.py:123-134 | each field the update carries takes the new value in `PatchCompany`, every other keeps its value |
| InsuranceCompanies.EmptyPatchIsIdentity | backend/routes/insurance_companies.py:123-134 | an update carrying no field leaves the company as it was |
| InsuranceCompanies.CreateKeepsNamesUnique | backend/routes/insurance_companies.py:71-87 | an accepted create keeps names unique |
| InsuranceCompanies.UpdateKeepsNamesUnique | backend/routes/insurance_companies.py:117-134 | an accepted update keeps names unique |
| InsuranceCompanies.DeleteKeepsNamesUnique | backend/routes/insurance_companies.py:161 | deleting keeps names unique |
| InsuranceCompanies.InsuranceRegistry.Get | backend/routes/insurance_companies.py:41-52 | the stored company, or 404 exactly when the id is absent |
| InsuranceCompanies.InsuranceRegistry.Create | backend/routes/insurance_companies.py:55-98 | refused and unchanged exactly when the checks fail; otherwise the new company is stored under a fresh id and nothing else changes |
| InsuranceCompanies.InsuranceRegistry.Update | backend/routes/insurance_companies.py:101-148 | the check's answer; unchanged on failure; otherwise only that company changes, by the supplied fields |
| InsuranceCompanies.InsuranceRegistry.Delete | backend/routes/insurance_companies.py:151-172 | 404 and unchanged for an unknown id, otherwise exactly that company is removed |

## Left out

- Flask routing, JSON decoding and `jwt_required`: requests arrive as decoded
  Dafny values, and `None` or `Keep` stands for an absent key.
- The commit, the rollback, the 500 answers and logging: each handler is
  atomic in the model.
- The clock: the date of the estimate number and the approval time are
  parameters.
- Database ids: new part, labour and company ids are parameters or counters.
  A part or labour row is looked up across all estimates in the source. Here
  the caller passes `owner`, the estimate that owns the row with that id, and
  the precondition ties it to this estimate's own lines.
- `Decimal(str(float))`: amounts are exact reals, not binary floats.
- `calculate_totals` is not among the source files. Its contract comes from
  the figures of the end-to-end test. The rounding mode of the tax, half to
  even, is an assumption of this model.
- Concurrent creation of estimate numbers: the model is sequential.
- The per-route role lists, apart from those of the insurance-company
  routes: they are configuration.
- `backend/models.py`, the customer and vehicle routes, the seed data and the
  test scripts: the existence of customers, vehicles and insurance companies
  is a set of ids passed in.
- `validate_email`: not among the source files, so it is an opaque
  `string -> bool` parameter.
- JSON `null` for fields modelled as required values (a `null` quantity or
  name) and non-integer quantities: the model takes the decoded types.
- `EstimateNumbers.ParseInt`: Python's `int()` also accepts surrounding
  whitespace, a sign and `_` separators; the model accepts ASCII digits only.
  The stored numbers are always generated by the same code, so these forms
  do not occur.
- `Estimates.StoredDate`: `fromisoformat(...).date()` also drops a time
  part. The model keeps the parsed text and does not parse ISO dates.
- `Estimates.PageSize`: the other listing parameters (page, filters, paging
  arithmetic) are queries, not state changes, and are not modelled.
- Listing of insurance companies (`is_active` filter and paging): a
  read-only query.
- Get estimate and the `to_dict` output: read-only serialisation.
- Estimates.EstimateBook.Create: numbers new estimates with the corrected generator
  `NextNumber`, not with `generate_estimate_number` as written, so the
  uniqueness of numbers in `EstimateBook.Valid` holds for the corrected model
  only. The as-written generator is `GenerateNumberAsWritten`.
- EstimateNumbers.NextNumber: numbers whose last field does not parse are
  ignored. The source instead falls back to sequence 1 when the latest
  number of the day (in string order) has such a field: with `EST-d-0005`
  and `EST-d-x` stored it issues `EST-d-0001`, while `NextNumber` issues
  `EST-d-0006`. The source never writes such a number itself.

## Findings

| source | as written | input that shows it | evidently intended | confidence | as-written member | corrected member |
|---|---|---|---|---|---|---|
| backend/routes/estimates.py:20-28 | the latest number of the day is the greatest in string order (`ORDER BY estimate_number DESC`); the next sequence is its last field plus one | any day d with `EST-d-9999` and `EST-d-10000` issued (for example d = 20260101): the string `EST-d-9999` sorts after `EST-d-10000`, so the generator returns `EST-d-10000` again, a duplicate | one past the greatest sequence issued that day, read as a number, which is never a number already issued | not executed | EstimateNumbers.AsWrittenRepeatsAfter9999 | EstimateNumbers.NextNumber |
