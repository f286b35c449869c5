/** `MemoryEngine` (src/memoryEngine.ts): `process` recalls the vendor's
    memories, applies the vendor's rules to a working copy of the fields,
    records the invoice and checks it for duplicates, and decides; the
    learning handlers turn a human correction into reinforced or new
    memories. Each method is proved to compute what the functions of
    rules.dfy and learning.dfy specify. */
module Engine {
  import opened Models
  import opened Patterns
  import opened Store
  import opened Rules
  import opened Learning

  /** The working state of one run of `process`: the normalized copy of
      the fields, the corrections and reasons so far, and the score. */
  datatype Draft = Draft(fields: Fields, corrections: seq<ProposedCorrection>, reasons: seq<Reason>, score: real)

  /** Step 2a, Supplier GmbH: fill a missing service date from the text
      after "Leistungsdatum:", rewritten from dd.mm.yyyy to yyyy-mm-dd. */
  method ApplySupplierGmbH(inv: ExtractedInvoice, recalled: seq<MemoryEntry>, d: Draft) returns (d': Draft)
    ensures d'.fields == SupplierFields(inv, recalled, d.fields)
    ensures d'.corrections == d.corrections + SupplierFixes(inv, recalled)
    ensures d'.reasons == d.reasons + SupplierReasons(inv, recalled)
    ensures d'.score == ScoreAfter(d.score, SupplierFixes(inv, recalled))
  {
    d' := d;
    var serviceMem := FindByKey(recalled, LABEL_KEY);
    var hasLeistungsdatum := Contains(inv.rawText, LEISTUNGSDATUM);
    if serviceMem.Some? && hasLeistungsdatum && IsBlank(inv.fields.serviceDate) {
      var found := ServiceDateText(inv.rawText);
      if found.Some? {
        var parts := Split(found.value, '.');
        if |parts| == 3 {
          var isoDate := parts[2] + "-" + parts[1] + "-" + parts[0];
          ScoreAfterOne(d.score, SetServiceDate(isoDate));
          d' := Draft(d'.fields.(serviceDate := Some(isoDate)),
                      d'.corrections + [SetServiceDate(isoDate)],
                      d'.reasons + [AppliedLabelMapping],
                      Min(1.0, d'.score + 0.15));
        } else {
          d' := d'.(reasons := d'.reasons + [UnexpectedDateFormat]);
        }
      } else {
        d' := d'.(reasons := d'.reasons + [UnparsableServiceDate]);
      }
    } else if hasLeistungsdatum && IsBlank(inv.fields.serviceDate) {
      d' := d'.(reasons := d'.reasons + [LabelWithoutMemory]);
    }
  }

  /** Step 2b, Parts AG: propose recomputing from gross for VAT-inclusive
      prices when the strategy is known, and recover a missing currency. */
  method ApplyPartsAG(inv: ExtractedInvoice, recalled: seq<MemoryEntry>, d: Draft) returns (d': Draft)
    ensures d'.fields == PartsFields(inv, d.fields)
    ensures d'.corrections == d.corrections + PartsFixes(inv, recalled)
    ensures d'.reasons == d.reasons + PartsReasons(inv, recalled)
    ensures d'.score == ScoreAfter(d.score, PartsFixes(inv, recalled))
  {
    var vat := ApplyVatInclusive(inv, recalled, d);
    d' := RecoverCurrency(inv, vat);
    ghost var vatFixes, currencyFixes := VatFixes(inv, recalled), CurrencyFixes(inv);
    ghost var vatWhy, currencyWhy := VatReasons(inv, recalled), CurrencyReasons(inv);
    AppendAssoc(d.corrections, vatFixes, currencyFixes);
    AppendAssoc(d.reasons, vatWhy, currencyWhy);
    ScoreAfterAppend(d.score, vatFixes, currencyFixes);
  }

  /** The VAT-inclusive part of step 2b; it never changes a field. */
  method ApplyVatInclusive(inv: ExtractedInvoice, recalled: seq<MemoryEntry>, d: Draft) returns (d': Draft)
    ensures d'.fields == d.fields
    ensures d'.corrections == d.corrections + VatFixes(inv, recalled)
    ensures d'.reasons == d.reasons + VatReasons(inv, recalled)
    ensures d'.score == ScoreAfter(d.score, VatFixes(inv, recalled))
  {
    var raw := inv.rawText;
    d' := d;
    var vatMem := FindByKey(recalled, VAT_KEY);
    var vatInclusive := Contains(raw, "MwSt. inkl.") || Contains(raw, "Prices incl. VAT");
    if vatInclusive {
      if vatMem.Some? {
        ScoreAfterOne(d.score, RecomputeFromGross);
        d' := d'.(reasons := d'.reasons + [VatStrategyApplied],
                  corrections := d'.corrections + [RecomputeFromGross],
                  score := Min(1.0, d'.score + 0.15));
      } else {
        d' := d'.(reasons := d'.reasons + [VatWithoutStrategy]);
      }
    }
  }

  /** The currency part of step 2b: a blank currency is taken from the first
      whole-word EUR, USD or GBP of the raw text. */
  method RecoverCurrency(inv: ExtractedInvoice, d: Draft) returns (d': Draft)
    ensures d'.fields == PartsFields(inv, d.fields)
    ensures d'.corrections == d.corrections + CurrencyFixes(inv)
    ensures d'.reasons == d.reasons + CurrencyReasons(inv)
    ensures d'.score == ScoreAfter(d.score, CurrencyFixes(inv))
  {
    d' := d;
    if IsBlank(inv.fields.currency) {
      var found := FindCurrency(inv.rawText);
      if found.Some? {
        var curr := found.value;
        ScoreAfterOne(d.score, RecoveredCurrency(curr));
        d' := Draft(d'.fields.(currency := Some(curr)),
                    d'.corrections + [RecoveredCurrency(curr)],
                    d'.reasons + [CurrencyRecovered(curr)],
                    Min(1.0, d'.score + 0.1));
      } else {
        d' := d'.(reasons := d'.reasons + [CurrencyNotFound]);
      }
    }
  }

  /** Step 2c, Freight & Co: structure Skonto terms found in the text, then
      map every freight-like line item to SKU FREIGHT when the mapping is known. */
  method ApplyFreightCo(inv: ExtractedInvoice, recalled: seq<MemoryEntry>, d: Draft) returns (d': Draft)
    ensures d'.fields == FreightFields(inv, recalled, d.fields)
    ensures d'.corrections == d.corrections + FreightFixes(inv, recalled)
    ensures d'.reasons == d.reasons + FreightCoReasons(inv, recalled)
    ensures d'.score == ScoreAfter(d.score, FreightFixes(inv, recalled))
  {
    var terms := ApplySkonto(inv, recalled, d);
    d' := MapFreightSkus(inv, recalled, terms);
    ghost var skonto, skus := SkontoFixes(inv.rawText), SkuFixes(inv, recalled);
    ghost var skontoWhy := SkontoReasons(inv.rawText, recalled);
    ghost var skuWhy := FreightReasons(inv.fields.lineItems, |inv.fields.lineItems|, HasKey(recalled, FREIGHT_KEY));
    AppendAssoc(d.corrections, skonto, skus);
    AppendAssoc(d.reasons, skontoWhy, skuWhy);
    ScoreAfterAppend(d.score, skonto, skus);
  }

  /** The Skonto part of step 2c: `(\d+)% Skonto ... (\d+) day(s)` becomes
      `paymentTerms.skonto`, keeping the other terms. */
  method ApplySkonto(inv: ExtractedInvoice, recalled: seq<MemoryEntry>, d: Draft) returns (d': Draft)
    ensures d'.fields == SkontoFields(inv.rawText, d.fields)
    ensures d'.corrections == d.corrections + SkontoFixes(inv.rawText)
    ensures d'.reasons == d.reasons + SkontoReasons(inv.rawText, recalled)
    ensures d'.score == ScoreAfter(d.score, SkontoFixes(inv.rawText))
  {
    d' := d;
    var skontoMem := FindByKey(recalled, SKONTO_KEY);
    var skontoMatch := FindSkonto(inv.rawText);
    if skontoMatch.Some? {
      var (percent, days) := skontoMatch.value;
      assert SkontoFixes(inv.rawText) == [ExtractedSkonto(percent, days)];
      d' := StructureSkonto(d, percent, days);
    } else {
      assert SkontoFixes(inv.rawText) == [];
      assert d'.score == ScoreAfter(d.score, []);
      if skontoMem.Some? {
        d' := d'.(reasons := d'.reasons + [KnownSkontoPattern]);
      }
    }
  }

  /** Sets `paymentTerms.skonto` to the matched terms, keeping the others. */
  method StructureSkonto(d: Draft, percent: nat, days: nat) returns (d': Draft)
    ensures d'.fields == d.fields.(paymentTerms := Some(WithSkonto(d.fields.paymentTerms, percent, days)))
    ensures d'.corrections == d.corrections + [ExtractedSkonto(percent, days)]
    ensures d'.reasons == d.reasons + [SkontoStructured]
    ensures d'.score == ScoreAfter(d.score, [ExtractedSkonto(percent, days)])
  {
    ScoreAfterOne(d.score, ExtractedSkonto(percent, days));
    var existingTerms := d.fields.paymentTerms.GetOr(map[]);
    d' := Draft(d.fields.(paymentTerms := Some(existingTerms["skonto" := Skonto(percent, days)])),
                d.corrections + [ExtractedSkonto(percent, days)],
                d.reasons + [SkontoStructured],
                Min(1.0, d.score + 0.1));
  }

  /** The SKU part of step 2c: the loop over the line items. */
  method MapFreightSkus(inv: ExtractedInvoice, recalled: seq<MemoryEntry>, d: Draft) returns (d': Draft)
    ensures d'.fields == SkuFields(inv, recalled, d.fields)
    ensures d'.corrections == d.corrections + SkuFixes(inv, recalled)
    ensures d'.reasons == d.reasons + FreightReasons(inv.fields.lineItems, |inv.fields.lineItems|, HasKey(recalled, FREIGHT_KEY))
    ensures d'.score == ScoreAfter(d.score, SkuFixes(inv, recalled))
  {
    var freightMem := FindByKey(recalled, FREIGHT_KEY);
    var items := inv.fields.lineItems;
    var updated, changed, fixes, why, score := ScanFreightItems(items, freightMem.Some?, d.score);
    FreightMappingsEmpty(items, |items|);
    d' := Draft(d.fields, d.corrections + fixes, d.reasons + why, score);
    if changed {
      assert updated == MapFreight(items);
      d' := d'.(fields := d'.fields.(lineItems := updated));
    }
  }

  /** The `forEach` over the line items: with the mapping known, every
      freight-like item gets SKU FREIGHT and a correction naming its line;
      without it, each is only noted for review. */
  method ScanFreightItems(items: seq<LineItem>, mapped: bool, score0: real)
    returns (updated: seq<LineItem>, changed: bool, fixes: seq<ProposedCorrection>, why: seq<Reason>, score: real)
    ensures |updated| == |items|
    ensures forall j :: 0 <= j < |items| ==>
              updated[j] == if mapped && FreightLike(items[j].description)
                            then items[j].(sku := Some("FREIGHT")) else items[j]
    ensures fixes == if mapped then FreightMappings(items, |items|) else []
    ensures changed <==> fixes != []
    ensures why == FreightReasons(items, |items|, mapped)
    ensures score == ScoreAfter(score0, fixes)
  {
    updated, changed, fixes, why, score := items, false, [], [], score0;
    var idx := 0;
    while idx < |items|
      invariant 0 <= idx <= |items|
      invariant updated == MapFreightUpTo(items, idx, mapped)
      invariant fixes == if mapped then FreightMappings(items, idx) else []
      invariant changed <==> fixes != []
      invariant why == FreightReasons(items, idx, mapped)
      invariant score == ScoreAfter(score0, fixes)
    {
      var item := items[idx];
      var looksFreight := FreightLike(item.description);
      FreightScanNext(items, idx, mapped);
      if looksFreight && mapped {
        var fix := MappedFreight(idx + 1, item.description);
        updated := updated[idx := item.(sku := Some("FREIGHT"))];
        changed := true;
        ScoreAfterSnoc(score0, fixes, fix);
        fixes := fixes + [fix];
        score := Min(1.0, score + 0.1);
        why := why + [FreightMappingApplied];
      } else if looksFreight && !mapped {
        why := why + [FreightWithoutMapping];
      } else {
        assert fixes + [] == fixes && why + [] == why;
      }
      idx := idx + 1;
    }
    MapFreightUpToAt(items, |items|, mapped);
  }

  /** Step 2 of `process`: the rules of the invoice's vendor, applied in
      turn to a draft that starts from the extracted fields and confidence. */
  method ApplyVendorRules(inv: ExtractedInvoice, recalled: seq<MemoryEntry>) returns (d: Draft)
    ensures d == Draft(NormalizedFields(inv, recalled), Fixes(inv, recalled), ApplyReasons(inv, recalled),
                       ScoreAfter(inv.confidence, Fixes(inv, recalled)))
  {
    VendorsDistinct();
    var start := Draft(inv.fields, [], [], inv.confidence);
    d := start;
    if inv.vendor == SUPPLIER_GMBH {
      d := ApplySupplierGmbH(inv, recalled, d);
    }
    if inv.vendor == PARTS_AG {
      d := ApplyPartsAG(inv, recalled, d);
    }
    if inv.vendor == FREIGHT_CO {
      d := ApplyFreightCo(inv, recalled, d);
    }
    assert d.corrections == Fixes(inv, recalled);
    assert d.reasons == ApplyReasons(inv, recalled);
  }

  /** Steps 2d and 3 of `process` once the duplicate query has answered:
      flag another invoice's row, then gate on score and corrections. */
  method FlagAndDecide(invoice: ExtractedInvoice, recalledCount: nat, d0: Draft, trail0: seq<AuditEntry>,
                       dup: Option<InvoiceRow>, now: string) returns (r: DecisionResult)
    requires d0.score == ScoreAfter(invoice.confidence, d0.corrections)
    requires trail0 == [AuditEntry(Recall, now, Recalled(recalledCount, invoice.vendor)),
                        AuditEntry(Apply, now, AppliedMemories(invoice.vendor, |d0.corrections|))]
    ensures r == Conclude(invoice, recalledCount, d0.fields, d0.corrections, d0.reasons, dup, now)
  {
    var d := d0;
    var auditTrail := trail0;
    ghost var dupFixes := DuplicateCorrections(invoice, dup);
    if dup.Some? && dup.value.id != invoice.invoiceId {
      ScoreAfterOne(d.score, PossibleDuplicate(dup.value.id));
      d := d.(corrections := d.corrections + [PossibleDuplicate(dup.value.id)],
              score := Max(d.score - 0.2, 0.0),
              reasons := d.reasons + [DuplicateDetected(dup.value.id)]);
      auditTrail := auditTrail + [AuditEntry(Apply, now, DuplicateFound(dup.value.id))];
    } else {
      assert d0.corrections + dupFixes == d0.corrections;
      assert d0.reasons + [] == d0.reasons;
      assert trail0 + [] == trail0;
    }
    ScoreAfterAppend(invoice.confidence, d0.corrections, dupFixes);
    assert d.corrections == d0.corrections + dupFixes;
    assert d.score == ScoreAfter(invoice.confidence, d0.corrections + dupFixes);

    var requiresHumanReview := true;
    if d.score >= CONF_AUTO_ACCEPT && |d.corrections| == 0 {
      requiresHumanReview := false;
      d := d.(reasons := d.reasons + [AutoAccepted]);
    } else {
      requiresHumanReview := true;
      d := d.(reasons := d.reasons + [ReviewRequired]);
    }
    auditTrail := auditTrail + [AuditEntry(Decide, now, Decided(requiresHumanReview, d.score))];

    r := DecisionResult(d.fields, d.corrections, requiresHumanReview, d.reasons, d.score, [], auditTrail);
  }

  class MemoryEngine {
    const store: MemoryStore

    constructor (store: MemoryStore)
      ensures this.store == store
    {
      this.store := store;
    }

    /** `process`: decide one invoice. The only change to the store is the
        invoice's metadata row; the result is the decision the rules specify
        for the memories recalled before and the duplicate found after it. */
    method Process(invoice: ExtractedInvoice, now: string) returns (r: DecisionResult)
      requires store.Valid()
      modifies store
      ensures store.Valid()
      ensures store.invoices == InsertOrIgnore(old(store.invoices), MetaRow(invoice))
      ensures store.memories == old(store.memories) && store.nextId == old(store.nextId) && store.audit == old(store.audit)
      ensures r == Decision(invoice, old(store.GetVendorMemories(invoice.vendor, MIN_VENDOR_MEMORY_CONF)),
                            store.FindDuplicate(invoice.vendor, invoice.fields.invoiceNumber, invoice.fields.invoiceDate), now)
    {
      VendorsDistinct();
      // 1) recall
      var vendorMemories := store.GetVendorMemories(invoice.vendor, MIN_VENDOR_MEMORY_CONF);
      var auditTrail := [AuditEntry(Recall, now, Recalled(|vendorMemories|, invoice.vendor))];

      // 2) apply
      var d := ApplyVendorRules(invoice, vendorMemories);
      auditTrail := auditTrail + [AuditEntry(Apply, now, AppliedMemories(invoice.vendor, |d.corrections|))];

      // 2d) duplicate detection
      store.SaveInvoiceMeta(invoice.invoiceId, invoice.vendor, invoice.fields.invoiceNumber, invoice.fields.invoiceDate);
      var dup := store.FindDuplicate(invoice.vendor, invoice.fields.invoiceNumber, invoice.fields.invoiceDate);

      // 3) decide
      r := FlagAndDecide(invoice, |vendorMemories|, d, auditTrail, dup, now);
    }

    /** One rule of a learning handler: reinforce the vendor's memory with
        the key, or create it when allowed, and log the `learn` step. */
    method LearnRule(invoiceId: string, vendor: string, key: string, value: MemoryValue, seed: real,
                     capped: bool, allowCreate: bool, rule: Rule, now: string) returns (updates: seq<Update>)
      requires store.Valid()
      modifies store
      ensures store.Valid()
      ensures (store.State(), updates) == Step(old(store.State()), invoiceId, vendor, key, value, seed, capped, allowCreate, rule, now)
    {
      ghost var t := store.State();
      var existing := FindByKey(store.GetVendorMemories(vendor, 0.0), key);
      assert existing == Existing(t, vendor, key);
      if existing.Some? {
        updates := Reinforce(existing.value, capped, rule, value, now);
      } else if allowCreate {
        updates := Create(vendor, key, value, seed, rule, now);
      } else {
        updates := [];
      }
      store.RecordAudit(invoiceId, AuditEntry(Learn, now, Learned(rule)));
    }

    /** The reinforcing branch: the existing memory gains 0.1 confidence
        and one positive reinforcement. */
    method Reinforce(e: MemoryEntry, capped: bool, rule: Rule, value: MemoryValue, now: string) returns (updates: seq<Update>)
      requires store.Valid()
      modifies store
      ensures store.Valid()
      ensures store.State() == old(store.State()).(memories := Updated(old(store.memories), Reinforcement(e, capped), now))
      ensures updates == [Reinforced(e.id, rule, value)]
    {
      var reinforced := e.(confidence := if capped then Min(1.0, e.confidence + 0.1) else e.confidence + 0.1,
                           positiveReinforcements := e.positiveReinforcements + 1);
      var saved := store.UpdateMemory(reinforced, now);
      updates := [Reinforced(saved.id, rule, value)];
    }

    /** The creating branch: a new vendor memory under the next id. */
    method Create(vendor: string, key: string, value: MemoryValue, seed: real, rule: Rule, now: string) returns (updates: seq<Update>)
      requires store.Valid()
      modifies store
      ensures store.Valid()
      ensures store.State() == old(store.State()).(memories := old(store.memories) + [Inserted(Fresh(vendor, key, value, seed, now), old(store.nextId), now)],
                                                   nextId := old(store.nextId) + 1)
      ensures updates == [Created(old(store.nextId), rule, value)]
    {
      var mem := NewMemory(Some(vendor), VENDOR, key, value, seed, 1, 0, None, Some(now), now);
      var saved := store.SaveMemory(mem, now);
      updates := [Created(saved.id, rule, value)];
    }

    /** `learnFromHumanCorrection`: a Supplier GmbH correction of serviceDate
        teaches the Leistungsdatum label mapping. */
    method LearnFromHumanCorrection(c: HumanCorrection, now: string) returns (updates: seq<Update>)
      requires store.Valid()
      modifies store
      ensures store.Valid()
      ensures (store.State(), updates) == LearnSupplier(old(store.State()), c, now)
    {
      updates := [];
      if c.vendor == SUPPLIER_GMBH && FirstCorrection(c.corrections, SERVICE_DATE_FIELDS).Some? {
        updates := LearnRule(c.invoiceId, SUPPLIER_GMBH, LABEL_KEY, TargetField("serviceDate"), 0.6, true, true,
                             LabelMapping, now);
      }
    }

    /** `learnFromPartsAG`: the VAT-inclusive strategy and the default currency. */
    method LearnFromPartsAG(c: HumanCorrection, now: string) returns (updates: seq<Update>)
      requires store.Valid()
      modifies store
      ensures store.Valid()
      ensures (store.State(), updates) == LearnParts(old(store.State()), c, now)
    {
      updates := [];
      if c.vendor != PARTS_AG {
        return;
      }
      ghost var t := store.State();
      var vatCorrection := FirstCorrection(c.corrections, VAT_FIELDS);
      var vatUpdates: seq<Update> := [];
      if vatCorrection.Some? {
        vatUpdates := LearnRule(c.invoiceId, PARTS_AG, VAT_KEY, Strategy("RECOMPUTE_FROM_GROSS"), 0.7, false,
                                vatCorrection.value.toValue == Str("VAT_INCLUSIVE"), VatBehavior, now);
      }
      assert (store.State(), vatUpdates) == VatStep(t, c, now);
      ghost var t1 := store.State();
      var currencyCorr := FirstCorrection(c.corrections, CURRENCY_FIELDS);
      var currencyUpdates: seq<Update> := [];
      if currencyCorr.Some? && currencyCorr.value.toValue.Str? {
        currencyUpdates := LearnRule(c.invoiceId, PARTS_AG, CURRENCY_KEY, CurrencyCode(currencyCorr.value.toValue.s),
                                     0.7, false, true, CurrencyDefault, now);
      }
      assert (store.State(), currencyUpdates) == CurrencyStep(t1, c, now);
      updates := vatUpdates + currencyUpdates;
    }

    /** `learnFromFreightCo`: the Skonto terms and the FREIGHT SKU mapping. */
    method LearnFromFreightCo(c: HumanCorrection, now: string) returns (updates: seq<Update>)
      requires store.Valid()
      modifies store
      ensures store.Valid()
      ensures (store.State(), updates) == LearnFreight(old(store.State()), c, now)
    {
      updates := [];
      if c.vendor != FREIGHT_CO {
        return;
      }
      ghost var t := store.State();
      var skontoCorr := FirstCorrection(c.corrections, SKONTO_FIELDS);
      var skontoUpdates: seq<Update> := [];
      if skontoCorr.Some? {
        skontoUpdates := LearnRule(c.invoiceId, FREIGHT_CO, SKONTO_KEY, CorrectedValue(skontoCorr.value.toValue),
                                   0.7, false, true, SkontoTerms, now);
      }
      assert (store.State(), skontoUpdates) == SkontoStep(t, c, now);
      ghost var t1 := store.State();
      var skuCorr := FirstCorrection(c.corrections, SKU_FIELDS);
      var skuUpdates: seq<Update> := [];
      if skuCorr.Some? && skuCorr.value.toValue == Str("FREIGHT") {
        skuUpdates := LearnRule(c.invoiceId, FREIGHT_CO, FREIGHT_KEY, SkuValue("FREIGHT"), 0.6, false, true, FreightSku, now);
      }
      assert (store.State(), skuUpdates) == SkuStep(t1, c, now);
      updates := skontoUpdates + skuUpdates;
    }

    /** `learnFromCorrection`: dispatch on the vendor; other vendors learn nothing. */
    method LearnFromCorrection(c: HumanCorrection, now: string) returns (updates: seq<Update>)
      requires store.Valid()
      modifies store
      ensures store.Valid()
      ensures (store.State(), updates) == Learning.LearnFromCorrection(old(store.State()), c, now)
    {
      if c.vendor == SUPPLIER_GMBH {
        updates := LearnFromHumanCorrection(c, now);
      } else if c.vendor == PARTS_AG {
        updates := LearnFromPartsAG(c, now);
      } else if c.vendor == FREIGHT_CO {
        updates := LearnFromFreightCo(c, now);
      } else {
        updates := [];
      }
    }
  }
}
