# Invoice memory engine, modelled in Dafny

This project models the core of an invoice-processing service that learns
from human corrections. `MemoryEngine.process` takes an extracted invoice and
does three things. It recalls the memories stored for the invoice's vendor.
It applies the vendor's rules:

- Supplier GmbH: the `Leistungsdatum` service-date label.
- Parts AG: VAT-inclusive prices and a missing currency.
- Freight & Co: Skonto payment terms and the FREIGHT SKU.

It then flags near-duplicate invoices and picks between auto-accept and human
review. The learn handlers turn a human correction into new or reinforced
vendor memories and write a `learn` audit row. `MemoryStore` keeps the
memories, the invoice metadata and the audit log in SQL tables.

Modules:

- `Models` (models.dfy): the records of `src/models.ts`, plus `Option`, `Min` and `Max`.
- `Patterns` (patterns.dfy): the string tests and regular expressions the engine uses: `includes`, the service-date, currency and Skonto patterns, `split`/`join`, and the freight keywords. The three regular expressions are scanners, each proved to return the capture groups of the leftmost match, or nothing exactly when the pattern matches nowhere. `includes` is proved to hold exactly when the part occurs somewhere. `split` and `join` are proved inverse to each other. The freight test is the disjunction of three `includes` on the lower-cased description.
- `Store` (store.dfy): the class `MemoryStore`, whose fields are sequences standing for the three tables in row order. The SQL statements are pure functions on rows.
- `Rules` (rules.dfy): what `process` computes, as functions of the invoice, the recalled memories and the row the duplicate query returned (`Decision`). It also holds the lemmas about that result.
- `Learning` (learning.dfy): what the learn handlers do to the tables, as functions from the old tables to the new ones and the update list. It also holds the lemmas about them.
- `Engine` (engine.dfy): the class `MemoryEngine`. Its imperative `Process` and learn methods work on a `MemoryStore` and are proved to compute exactly the `Rules` and `Learning` functions.

Some behaviour is easy to overlook. `findDuplicate` returns the first matching
row in table order, which can be the invoice's own row. In that case the other
invoice is not reported (`Rules.OwnRowFirstHidesDuplicate`).

## Model

| member | source | states |
|---|---|---|
| Store.MemoryStore.constructor | src/memoryStore.ts:4-5 | the store starts with empty tables, the id counter at 1, and is valid |
| Store.MemoryStore.SaveMemory | src/memoryStore.ts:7-42 | the entry is appended under the next auto-increment id, which no earlier row has; createdAt defaults to now and updatedAt is now; the other tables are unchanged and the tables stay valid |
| Store.MemoryStore.UpdateMemory | src/memoryStore.ts:44-65 | the returned memory is the input with its confidence clamped to [0, 1]; only the rows with its id change, in confidence, reinforcement counts and updatedAt |
| Store.UpdatedFacts | src/memoryStore.ts:44-65 | the update keeps the row count and every id, keeps confidences in [0, 1], and changes nothing when no row has the id |
| Store.Clamp01 | src/memoryStore.ts:45 | the result lies in [0, 1], equals the input inside that range, and is 1 above it and 0 below it |
| Store.SelectMemories | src/memoryStore.ts:67-89 | a row is returned exactly when it belongs to the vendor or to no vendor and its confidence reaches the minimum |
| Store.MemoryStore.GetVendorMemories | src/memoryStore.ts:67-89 | the store's query: a memory is returned exactly when a row holds it and it is visible to the vendor at the minimum confidence |
| Store.MemoryStore.RecordAudit | src/memoryStore.ts:91-97 | exactly one audit row, holding the invoice id and the entry's step, time stamp and details, is appended; nothing else changes |
| Store.MemoryStore.SaveInvoiceMeta | src/memoryStore.ts:99-110 | INSERT OR IGNORE: the row is appended unless its id is present, the id is present afterwards, and ids stay distinct |
| Store.InsertOrIgnoreIdempotent | src/memoryStore.ts:99-110 | saving the same invoice id again leaves the table as it was |
| Store.FindDuplicateIn | src/memoryStore.ts:112-127 | None exactly when no row has the vendor, the number and a date within two days; otherwise a row of the table that matches |
| Store.MemoryStore.FindDuplicate | src/memoryStore.ts:112-127 | the same answer over the store's invoice table |
| Rules.ScoreStaysInUnit | src/memoryEngine.ts:68-230 | every bonus is capped at 1 and the duplicate penalty is floored at 0, so a score starting in [0, 1] stays there |
| Rules.DecisionScoreInUnit | src/memoryEngine.ts:43-262 | an extraction confidence in [0, 1] gives a final confidence score in [0, 1] |
| Rules.DecisionShape | src/memoryEngine.ts:20-275 | review is required exactly unless the score reaches 0.85 with no correction; memoryUpdates is empty; the trail is recall, apply, the optional duplicate apply, then decide |
| Rules.AppliedFixForcesReview | src/memoryEngine.ts:244-254 | a changed field always comes with a proposed correction, and any proposed correction sends the invoice to review |
| Rules.NothingToFix | src/memoryEngine.ts:243-254 | with nothing to fix and no duplicate, the fields and score are unchanged and auto-accept happens exactly when the extraction confidence reaches 0.85 |
| Rules.DuplicateForcesReview | src/memoryEngine.ts:228-241 | another invoice's row adds exactly one correction naming it, makes the score max(score - 0.2, 0), adds the reason, and forces review |
| Rules.OwnRowNeverFlags | src/memoryEngine.ts:228 | no row, or the invoice's own row, adds no correction, leaves the score to the vendor rules, and gives a trail of three entries |
| Rules.ConcludeUnflagged | src/memoryEngine.ts:243-254 | without a duplicate, the decision keeps the rules' fields and corrections, scores them, and gates on that score and their number |
| Rules.ServiceDateGate | src/memoryEngine.ts:55-81 | the Supplier GmbH rule changes nothing unless the label memory is recalled, the label occurs and the service date is blank; an unreadable or malformed date changes nothing and gets its own reason |
| Rules.ServiceDateApplied | src/memoryEngine.ts:55-71 | when the rule fires on a three-part date it writes yyyy-mm-dd, proposes that one correction, adds 0.15 (capped at 1) and goes to review |
| Rules.LabelWithoutMemoryKeepsServiceDate | src/memoryEngine.ts:82-86 | the label without a memory keeps the fields and the score, proposes nothing, and gives the reason |
| Rules.VatRule | src/memoryEngine.ts:99-116 | the VAT phrasing proposes the recomputation exactly when the memory is recalled, otherwise gives the missing-strategy reason, and never changes a field besides the currency |
| Rules.CurrencyRule | src/memoryEngine.ts:119-136 | a blank currency is filled with the leftmost whole-word EUR, USD or GBP, with that correction last; one present is kept; none found keeps the fields and says so |
| Rules.SkontoMatchRule | src/memoryEngine.ts:147-163 | a Skonto match sets paymentTerms.skonto to the two numbers, keeps every other key, and is the first correction |
| Rules.SkontoMemoryOnlyRule | src/memoryEngine.ts:164-168 | without a match the payment terms are kept and no Skonto correction is made; a recalled Skonto memory shows only in the reasoning |
| Rules.FreightSkuRule | src/memoryEngine.ts:170-205 | with the mapping memory, every freight-like line item and only those gets SKU FREIGHT at its place; without it the items are unchanged |
| Rules.FreightMappingsExact | src/memoryEngine.ts:179-195 | every freight correction maps a freight-like item, naming its 1-based line and its description, and every freight-like item has such a correction |
| Rules.FreightMappingsEmpty | src/memoryEngine.ts:179-203 | no freight correction is proposed exactly when no item is freight-like |
| Rules.FirstProcessingFlagsEarlierInvoice | src/memoryEngine.ts:214-241 | the first time an invoice is processed, a stored invoice of the same vendor and number dated within two days is flagged and review follows |
| Rules.AloneNeverFlagged | src/memoryEngine.ts:214-241 | an invoice whose only matching rows are its own is never flagged, however often it is processed |
| Rules.OwnRowFirstHidesDuplicate | src/memoryStore.ts:112-127 | with LIMIT 1 in table order, an invoice whose own row comes before another match is not flagged when processed again |
| Rules.FirstDuplicateAppend | src/memoryStore.ts:112-127 | appending a row does not move an existing first match |
| Patterns.ContainsMeans | src/memoryEngine.ts:53 | includes holds exactly when the part occurs at some position |
| Patterns.ServiceDateTextMatches | src/memoryEngine.ts:56 | the capture is None exactly when the pattern matches nowhere; otherwise it is the capture of the leftmost match, a non-empty run of digits and dots |
| Patterns.ServiceDateRoundTrip | src/memoryEngine.ts:58-62 | the ISO date splits on '-' into the captured date's three parts in reverse order, and those parts join back into the captured text |
| Patterns.JoinSplit | src/memoryEngine.ts:59 | joining the parts of a split returns the string |
| Patterns.SplitJoin | src/memoryEngine.ts:59 | splitting a join of parts free of the separator returns the parts |
| Patterns.FindCurrencyMatches | src/memoryEngine.ts:120 | the result is None exactly when no whole-word code occurs; otherwise it is the leftmost one, and it is EUR, USD or GBP |
| Patterns.LazyEndStops | src/memoryEngine.ts:147 | the lazy `.*?` stops at the first place where the days part matches or a line ends |
| Patterns.FindSkontoMatches | src/memoryEngine.ts:147-150 | there is a Skonto result exactly when the pattern matches somewhere, and then it is the pair of captures of the leftmost match |
| Patterns.SkontoCaptures | src/memoryEngine.ts:147-150 | the captures of a match are the numeric values of two non-empty digit runs: the one ending at the `%` and the one where the lazy `.*?` stops |
| Engine.ApplySupplierGmbH | src/memoryEngine.ts:47-89 | the draft gains the Supplier GmbH fields, corrections, reasons and score of the rules |
| Engine.ApplyPartsAG | src/memoryEngine.ts:91-137 | the draft gains the Parts AG fields, corrections, reasons and score |
| Engine.ApplyVatInclusive | src/memoryEngine.ts:95-116 | the VAT step keeps the fields and adds the VAT correction, reason and score |
| Engine.RecoverCurrency | src/memoryEngine.ts:118-136 | the currency step fills the currency, adds its correction and reason, and scores it |
| Engine.ApplyFreightCo | src/memoryEngine.ts:139-206 | the draft gains the Freight & Co fields, corrections, reasons and score |
| Engine.ApplySkonto | src/memoryEngine.ts:143-168 | the Skonto step's result equals the Skonto rule's fields, correction, reasons and score |
| Engine.StructureSkonto | src/memoryEngine.ts:148-163 | paymentTerms.skonto is set with the other keys kept; one correction, one reason, +0.1 |
| Engine.MapFreightSkus | src/memoryEngine.ts:170-205 | the SKU step's result equals the rule's line items, corrections, reasons and score |
| Engine.ScanFreightItems | src/memoryEngine.ts:175-201 | the forEach loop: each freight-like item gets SKU FREIGHT when mapped, one correction per such item, changed exactly when there was one |
| Engine.ApplyVendorRules | src/memoryEngine.ts:38-206 | step 2 as a whole gives exactly the rules' fields, corrections, reasons and score for the vendor |
| Engine.FlagAndDecide | src/memoryEngine.ts:208-274 | the duplicate flag, the gate and the trail give exactly the specified decision |
| Engine.MemoryEngine.constructor | src/memoryEngine.ts:16-18 | the engine works on the store it is given |
| Engine.MemoryEngine.Process | src/memoryEngine.ts:20-275 | the result is the specified decision for the memories recalled at 0.4 and the duplicate found after the save; the only change to the store is the invoice row inserted or ignored, and the store stays valid |
| Engine.MemoryEngine.LearnRule | src/memoryEngine.ts:293-332 | one rule of a handler: the store and the update list become those of Learning.Step |
| Engine.MemoryEngine.Reinforce | src/memoryEngine.ts:298-307 | the existing memory's row gains 0.1 confidence and one positive reinforcement; one update names its id and the value the correction taught |
| Engine.MemoryEngine.Create | src/memoryEngine.ts:308-323 | a vendor memory with the seed confidence is appended under the next id; one update names that id and the value |
| Engine.MemoryEngine.LearnFromHumanCorrection | src/memoryEngine.ts:492-547 | the store and updates become Learning.LearnSupplier of the old tables |
| Engine.MemoryEngine.LearnFromPartsAG | src/memoryEngine.ts:278-380 | the store and updates become Learning.LearnParts of the old tables |
| Engine.MemoryEngine.LearnFromFreightCo | src/memoryEngine.ts:383-485 | the store and updates become Learning.LearnFreight of the old tables |
| Engine.MemoryEngine.LearnFromCorrection | src/memoryEngine.ts:550-567 | the store and updates become Learning.LearnFromCorrection of the old tables |
| Learning.FirstCorrection | src/memoryEngine.ts:290-292 | None exactly when no correction names one of the fields; otherwise the first correction that names one of them |
| Learning.StepKeepsInvariants | src/memoryEngine.ts:293-332 | a learning step keeps the tables valid and confidences in [0, 1], leaves the invoice table alone, and appends exactly its one learn audit row |
| Learning.ReinforceRaisesConfidence | src/memoryEngine.ts:298-307 | reinforcing keeps the row count and the counter, raises exactly the found row's confidence to min(1, c + 0.1) with one more positive reinforcement and its key and value kept, whether or not the handler caps it first; the other rows are unchanged |
| Learning.StepCreates | src/memoryEngine.ts:308-323 | without a memory for the key, a creating step appends it under the next id, with the seed confidence and counts 1 and 0, and process recalls it when the seed reaches 0.4 |
| Learning.StepTwiceReinforces | src/memoryEngine.ts:293-324 | learning a rule twice creates one memory and then reinforces that same id, adding no second row |
| Learning.UnknownVendorLearnsNothing | src/memoryEngine.ts:563-565 | a vendor without a handler changes no table and returns no update |
| Learning.LearnKeepsInvariants | src/memoryEngine.ts:277-567 | any correction keeps the tables valid and confidences in [0, 1], leaves the invoice table alone, and appends one learn audit row per rule it teaches, in order |
| Learning.LearnsSafelyChain | src/memoryEngine.ts:278-380 | two safe learning steps in a row are safe, with their updates and audit rows concatenated |
| Learning.SupplierCorrectionIsRecalled | src/memoryEngine.ts:501-536 | a first Supplier GmbH service-date correction creates the label memory, which process then recalls at 0.4 |
| Learning.PartsVatWithoutTargetStillAudited | src/memoryEngine.ts:293-332 | a VAT correction whose target is not VAT_INCLUSIVE and with no memory creates nothing but still writes the learn audit row |
| Learning.CurrencyReinforcementNamesCorrection | src/memoryEngine.ts:338-352 | with a default-currency memory stored, a currency correction reinforces it and reports the newly corrected code, while the row keeps the code it had |

## Left out

- Clocks: every `new Date().toISOString()` is the single `now` parameter. `process` reads the clock once per audit entry, and the model uses one time stamp for the whole trail.
- Message texts: proposed corrections, reasons, audit details and update strings are datatype variants carrying the values the texts interpolate. Each update carries the memory id, the rule and the value the correction taught; for the fixed messages that value is a constant. `reasoning.join(' ')` is kept as the sequence of reasons.
- `toFixed(2)` in the decide entry: the entry carries the exact score.
- Floating point: confidences and scores are exact reals. A sum such as 0.7 + 0.15 that IEEE doubles round near the 0.85 threshold may decide differently in the source.
- Dates: `julianday` parsing is left out. Invoice dates are day numbers, and a date SQLite cannot read is `None`.
- `Number()` of a digit string is its exact natural number; precision loss for very long digit runs is not modelled.
- Case folding: `toLowerCase` and the `/i` flag are modelled for ASCII letters only.
- JSON: the memory `value` column stores JSON in the source. The model keeps the structured value.
- Row order: SQL without ORDER BY returns rows in unspecified order. The model uses insertion order for `getVendorMemories` and `findDuplicate` (LIMIT 1).
- Storage failures: SQL errors, the connection from `getDB` (src/db.ts), and schema creation are left out. The engine's constructor is given a store; src/db.ts is not part of this model.
- Store.MemoryStore.constructor: models a store over a new, empty database. The source opens a shared database file that persists between runs, and its AUTOINCREMENT counters survive row deletions. Every engine contract holds for any valid store, so only the starting state differs.
- `console.log` in the dispatcher's default branch has no effect in the model.
- src/index.ts, the demo scripts and the data files are not part of this model.

