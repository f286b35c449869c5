/** What the learning handlers of `MemoryEngine` (src/memoryEngine.ts) do
    to the store, stated as functions from the tables before a human
    correction to the tables after it and the updates reported. Each
    handler looks a memory up by key among the vendor's memories of any
    confidence, reinforces it when it is there and creates it otherwise,
    and logs one `learn` audit row per rule it recognised. */
module Learning {
  import opened Models
  import opened Store
  import opened Rules

  /** The position of the first correction of one of the fields, or |cs|. */
  function CorrectionIndex(cs: seq<FieldCorrection>, fields: set<string>): (k: nat)
    ensures k <= |cs|
    ensures k < |cs| ==> cs[k].field in fields
    ensures forall j :: 0 <= j < k ==> cs[j].field !in fields
    decreases |cs|
  {
    if cs == [] || cs[0].field in fields then 0 else 1 + CorrectionIndex(cs[1..], fields)
  }

  /** `corrections.find((c) => fields.includes(c.field))` */
  function FirstCorrection(cs: seq<FieldCorrection>, fields: set<string>): (r: Option<FieldCorrection>)
    ensures r.None? <==> forall c :: c in cs ==> c.field !in fields
    ensures r.Some? ==> r.value in cs && r.value.field in fields
    ensures r.Some? ==> exists k :: 0 <= k < |cs| && cs[k] == r.value && forall j :: 0 <= j < k ==> cs[j].field !in fields
  {
    var k := CorrectionIndex(cs, fields);
    if k < |cs| then Some(cs[k]) else None
  }

  const SERVICE_DATE_FIELDS: set<string> := {"serviceDate"}
  const VAT_FIELDS: set<string> := {"vatBehavior", "grossTotal", "taxTotal"}
  const CURRENCY_FIELDS: set<string> := {"currency"}
  const SKONTO_FIELDS: set<string> := {"discountTerms", "paymentTerms.skonto"}
  const SKU_FIELDS: set<string> := {"lineItems0.sku", "freightSku"}

  /** The memory a handler looks for: `getVendorMemories(vendor, 0).find(key)`. */
  function Existing(t: Tables, vendor: string, key: string): Option<MemoryEntry> {
    FindByKey(SelectMemories(t.memories, vendor, 0.0), key)
  }

  /** The reinforced copy: confidence up by 0.1 (capped at 1 by the handler
      itself when `capped`), one more positive reinforcement. */
  function Reinforcement(existing: MemoryEntry, capped: bool): MemoryEntry {
    existing.(confidence := if capped then Min(1.0, existing.confidence + 0.1) else existing.confidence + 0.1,
              positiveReinforcements := existing.positiveReinforcements + 1)
  }

  /** The vendor memory a handler creates. */
  function Fresh(vendor: string, key: string, value: MemoryValue, seed: real, now: string): NewMemory {
    NewMemory(Some(vendor), VENDOR, key, value, seed, 1, 0, None, Some(now), now)
  }

  /** One learning step for one rule: reinforce the memory with the key, or
      create it when `allowCreate`, then log the `learn` audit row (which is
      logged even when nothing was created). */
  function Step(t: Tables, invoiceId: string, vendor: string, key: string, value: MemoryValue,
                seed: real, capped: bool, allowCreate: bool, rule: Rule, now: string): (Tables, seq<Update>)
  {
    var audit := t.audit + [AuditRow(invoiceId, Learn, now, Learned(rule))];
    match Existing(t, vendor, key)
    case Some(existing) =>
      (t.(memories := Updated(t.memories, Reinforcement(existing, capped), now), audit := audit),
       [Reinforced(existing.id, rule, value)])
    case None =>
      if allowCreate then
        (t.(memories := t.memories + [Inserted(Fresh(vendor, key, value, seed, now), t.nextId, now)],
            nextId := t.nextId + 1, audit := audit),
         [Created(t.nextId, rule, value)])
      else (t.(audit := audit), [])
  }

  /** `learnFromHumanCorrection`: the Supplier GmbH label mapping. */
  function LearnSupplier(t: Tables, c: HumanCorrection, now: string): (Tables, seq<Update>) {
    if c.vendor == SUPPLIER_GMBH && FirstCorrection(c.corrections, SERVICE_DATE_FIELDS).Some? then
      Step(t, c.invoiceId, SUPPLIER_GMBH, LABEL_KEY, TargetField("serviceDate"), 0.6, true, true, LabelMapping, now)
    else (t, [])
  }

  /** The VAT-inclusive step of `learnFromPartsAG`: taken when a correction
      touches vatBehavior, grossTotal or taxTotal; it creates the memory only
      when the first such correction's target is VAT_INCLUSIVE. */
  function VatStep(t: Tables, c: HumanCorrection, now: string): (Tables, seq<Update>) {
    var vat := FirstCorrection(c.corrections, VAT_FIELDS);
    if vat.Some? then
      Step(t, c.invoiceId, PARTS_AG, VAT_KEY, Strategy("RECOMPUTE_FROM_GROSS"), 0.7, false,
           vat.value.toValue == Str("VAT_INCLUSIVE"), VatBehavior, now)
    else (t, [])
  }

  /** The default-currency step: taken when the first currency correction's
      target is a string. */
  function CurrencyStep(t: Tables, c: HumanCorrection, now: string): (Tables, seq<Update>) {
    var cur := FirstCorrection(c.corrections, CURRENCY_FIELDS);
    if cur.Some? && cur.value.toValue.Str? then
      Step(t, c.invoiceId, PARTS_AG, CURRENCY_KEY, CurrencyCode(cur.value.toValue.s), 0.7, false, true,
           CurrencyDefault, now)
    else (t, [])
  }

  /** `learnFromPartsAG`: the VAT-inclusive strategy, then the default currency. */
  function LearnParts(t: Tables, c: HumanCorrection, now: string): (Tables, seq<Update>) {
    if c.vendor != PARTS_AG then (t, [])
    else
      var (t1, u1) := VatStep(t, c, now);
      var (t2, u2) := CurrencyStep(t1, c, now);
      (t2, u1 + u2)
  }

  /** The Skonto step of `learnFromFreightCo`: taken when a correction
      touches discountTerms or paymentTerms.skonto; the memory stores its target. */
  function SkontoStep(t: Tables, c: HumanCorrection, now: string): (Tables, seq<Update>) {
    var skonto := FirstCorrection(c.corrections, SKONTO_FIELDS);
    if skonto.Some? then
      Step(t, c.invoiceId, FREIGHT_CO, SKONTO_KEY, CorrectedValue(skonto.value.toValue), 0.7, false, true,
           SkontoTerms, now)
    else (t, [])
  }

  /** The SKU step: taken when the first lineItems0.sku or freightSku
      correction's target is FREIGHT. */
  function SkuStep(t: Tables, c: HumanCorrection, now: string): (Tables, seq<Update>) {
    var sku := FirstCorrection(c.corrections, SKU_FIELDS);
    if sku.Some? && sku.value.toValue == Str("FREIGHT") then
      Step(t, c.invoiceId, FREIGHT_CO, FREIGHT_KEY, SkuValue("FREIGHT"), 0.6, false, true, FreightSku, now)
    else (t, [])
  }

  /** `learnFromFreightCo`: the Skonto terms, then the FREIGHT SKU mapping. */
  function LearnFreight(t: Tables, c: HumanCorrection, now: string): (Tables, seq<Update>) {
    if c.vendor != FREIGHT_CO then (t, [])
    else
      var (t1, u1) := SkontoStep(t, c, now);
      var (t2, u2) := SkuStep(t1, c, now);
      (t2, u1 + u2)
  }

  /** `learnFromCorrection`: dispatch on the exact vendor string. */
  function LearnFromCorrection(t: Tables, c: HumanCorrection, now: string): (Tables, seq<Update>) {
    if c.vendor == SUPPLIER_GMBH then LearnSupplier(t, c, now)
    else if c.vendor == PARTS_AG then LearnParts(t, c, now)
    else if c.vendor == FREIGHT_CO then LearnFreight(t, c, now)
    else (t, [])
  }

  /** The rule each step of a handler logs, when it is taken. */
  function VatRules(c: HumanCorrection): seq<Rule> {
    if FirstCorrection(c.corrections, VAT_FIELDS).Some? then [VatBehavior] else []
  }

  function CurrencyRules(c: HumanCorrection): seq<Rule> {
    var cur := FirstCorrection(c.corrections, CURRENCY_FIELDS);
    if cur.Some? && cur.value.toValue.Str? then [CurrencyDefault] else []
  }

  function SkontoRules(c: HumanCorrection): seq<Rule> {
    if FirstCorrection(c.corrections, SKONTO_FIELDS).Some? then [SkontoTerms] else []
  }

  function SkuRules(c: HumanCorrection): seq<Rule> {
    var sku := FirstCorrection(c.corrections, SKU_FIELDS);
    if sku.Some? && sku.value.toValue == Str("FREIGHT") then [FreightSku] else []
  }

  /** The rules a correction teaches, in the order the handler takes them. */
  function TaughtRules(c: HumanCorrection): seq<Rule> {
    if c.vendor == SUPPLIER_GMBH then
      (if FirstCorrection(c.corrections, SERVICE_DATE_FIELDS).Some? then [LabelMapping] else [])
    else if c.vendor == PARTS_AG then VatRules(c) + CurrencyRules(c)
    else if c.vendor == FREIGHT_CO then SkontoRules(c) + SkuRules(c)
    else []
  }

  function LearnRows(invoiceId: string, rules: seq<Rule>, now: string): seq<AuditRow> {
    seq(|rules|, i requires 0 <= i < |rules| => AuditRow(invoiceId, Learn, now, Learned(rules[i])))
  }

  // ===== properties of one step =====

  /** A step keeps the tables valid and every confidence in [0, 1], leaves
      the invoice table alone and appends exactly one audit row. */
  lemma StepKeepsInvariants(t: Tables, invoiceId: string, vendor: string, key: string, value: MemoryValue,
                            seed: real, capped: bool, allowCreate: bool, rule: Rule, now: string)
    requires ValidTables(t) && 0.0 <= seed <= 1.0
    ensures var (t', updates) := Step(t, invoiceId, vendor, key, value, seed, capped, allowCreate, rule, now);
            LearnsSafely(t, t', updates, invoiceId, [rule], now)
  {
    var row := AuditRow(invoiceId, Learn, now, Learned(rule));
    match Existing(t, vendor, key)
    case Some(existing) =>
      ReinforceIsSafe(t, Reinforcement(existing, capped), row, rule, value, now);
    case None =>
      if allowCreate {
        CreateIsSafe(t, Inserted(Fresh(vendor, key, value, seed, now), t.nextId, now), row, rule, value, now);
      } else {
        assert LearnRows(invoiceId, [rule], now) == [row];
      }
  }

  /** The reinforcing branch of a step is safe. */
  lemma ReinforceIsSafe(t: Tables, mem: MemoryEntry, row: AuditRow, rule: Rule, value: MemoryValue, now: string)
    requires ValidTables(t) && row == AuditRow(row.invoiceId, Learn, now, Learned(rule))
    ensures LearnsSafely(t, t.(memories := Updated(t.memories, mem, now), audit := t.audit + [row]),
                         [Reinforced(mem.id, rule, value)], row.invoiceId, [rule], now)
  {
    assert LearnRows(row.invoiceId, [rule], now) == [row];
    UpdatedValid(t, mem, now);
    UpdatedFacts(t.memories, mem, now);
  }

  /** The creating branch of a step is safe when the new row's confidence is in range. */
  lemma CreateIsSafe(t: Tables, created: MemoryEntry, row: AuditRow, rule: Rule, value: MemoryValue, now: string)
    requires ValidTables(t) && created.id == t.nextId && 0.0 <= created.confidence <= 1.0
    requires row == AuditRow(row.invoiceId, Learn, now, Learned(rule))
    ensures LearnsSafely(t, t.(memories := t.memories + [created], nextId := t.nextId + 1, audit := t.audit + [row]),
                         [Created(t.nextId, rule, value)], row.invoiceId, [rule], now)
  {
    assert LearnRows(row.invoiceId, [rule], now) == [row];
    InsertKeepsInvariants(t, created);
  }

  /** Appending a row under the next id and advancing the counter keeps the
      tables valid, and keeps the confidences in range when the row's is. */
  lemma InsertKeepsInvariants(t: Tables, row: MemoryEntry)
    requires ValidTables(t) && row.id == t.nextId
    ensures ValidTables(t.(memories := t.memories + [row], nextId := t.nextId + 1))
    ensures ConfidencesInRange(t.memories) && 0.0 <= row.confidence <= 1.0 ==>
              ConfidencesInRange(t.memories + [row])
  {
    var ms := t.memories + [row];
    assert forall i :: 0 <= i < |t.memories| ==> ms[i] == t.memories[i];
    assert ms[|t.memories|] == row;
  }

  /** A reinforcement keeps the row count and the id counter, and raises
      exactly the found row's confidence by 0.1, capped at 1 — whether or
      not the handler caps it before the store clamps it. */
  lemma ReinforceRaisesConfidence(t: Tables, invoiceId: string, vendor: string, key: string, value: MemoryValue,
                                  seed: real, capped: bool, allowCreate: bool, rule: Rule, now: string)
    requires ValidTables(t) && ConfidencesInRange(t.memories)
    requires Existing(t, vendor, key).Some?
    ensures var existing := Existing(t, vendor, key).value;
            var (t', updates) := Step(t, invoiceId, vendor, key, value, seed, capped, allowCreate, rule, now);
            && updates == [Reinforced(existing.id, rule, value)]
            && |t'.memories| == |t.memories| && t'.nextId == t.nextId
            && (forall i :: 0 <= i < |t.memories| && t.memories[i].id == existing.id ==>
                  t'.memories[i].confidence == Min(1.0, existing.confidence + 0.1)
                  && t'.memories[i].positiveReinforcements == existing.positiveReinforcements + 1
                  && t'.memories[i].key == t.memories[i].key && t'.memories[i].value == t.memories[i].value)
            && (forall i :: 0 <= i < |t.memories| && t.memories[i].id != existing.id ==>
                  t'.memories[i] == t.memories[i])
  {
    var existing := Existing(t, vendor, key).value;
    assert existing in t.memories;
    ReinforcedRows(t.memories, existing, capped, now);
  }

  /** The update a reinforcement makes, on the rows alone. */
  lemma ReinforcedRows(rows: seq<MemoryEntry>, existing: MemoryEntry, capped: bool, now: string)
    requires 0.0 <= existing.confidence <= 1.0
    ensures var out := Updated(rows, Reinforcement(existing, capped), now);
            && |out| == |rows|
            && (forall i :: 0 <= i < |rows| && rows[i].id == existing.id ==>
                  out[i].confidence == Min(1.0, existing.confidence + 0.1)
                  && out[i].positiveReinforcements == existing.positiveReinforcements + 1
                  && out[i].key == rows[i].key && out[i].value == rows[i].value)
            && (forall i :: 0 <= i < |rows| && rows[i].id != existing.id ==> out[i] == rows[i])
  {
  }

  /** Without a memory for the key a step that may create one appends it,
      under the next id, with the seed confidence and one positive
      reinforcement, and reports it; the engine recalls it from then on when
      the seed reaches the recall threshold. */
  lemma StepCreates(t: Tables, invoiceId: string, vendor: string, key: string, value: MemoryValue,
                    seed: real, capped: bool, rule: Rule, now: string)
    requires Existing(t, vendor, key).None? && 0.0 <= seed
    ensures var (t', updates) := Step(t, invoiceId, vendor, key, value, seed, capped, true, rule, now);
            && updates == [Created(t.nextId, rule, value)]
            && |t'.memories| == |t.memories| + 1 && t'.memories[..|t.memories|] == t.memories
            && (var m := t'.memories[|t.memories|];
                && m.id == t.nextId && m.vendorName == Some(vendor) && m.key == key && m.value == value
                && m.confidence == seed && m.positiveReinforcements == 1 && m.negativeReinforcements == 0)
            && (seed >= MIN_VENDOR_MEMORY_CONF ==> HasKey(SelectMemories(t'.memories, vendor, MIN_VENDOR_MEMORY_CONF), key))
  {
    var (t', updates) := Step(t, invoiceId, vendor, key, value, seed, capped, true, rule, now);
    var m := t'.memories[|t.memories|];
    assert m in t'.memories;
    if seed >= MIN_VENDOR_MEMORY_CONF {
      assert m in SelectMemories(t'.memories, vendor, MIN_VENDOR_MEMORY_CONF);
    }
  }

  /** Learning the same rule twice creates one memory and then reinforces
      it: the second step reports the id the first created and adds no row. */
  lemma StepTwiceReinforces(t: Tables, invoiceId: string, vendor: string, key: string, value: MemoryValue,
                            seed: real, capped: bool, rule: Rule, now: string, later: string)
    requires Existing(t, vendor, key).None? && 0.0 <= seed
    ensures var (t1, u1) := Step(t, invoiceId, vendor, key, value, seed, capped, true, rule, now);
            var (t2, u2) := Step(t1, invoiceId, vendor, key, value, seed, capped, true, rule, later);
            && u1 == [Created(t.nextId, rule, value)]
            && u2 == [Reinforced(t.nextId, rule, value)]
            && |t2.memories| == |t1.memories| == |t.memories| + 1
            && t2.nextId == t1.nextId
  {
    var (t1, u1) := Step(t, invoiceId, vendor, key, value, seed, capped, true, rule, now);
    var m := t1.memories[|t.memories|];
    assert t1.memories == t.memories + [m];
    assert m in SelectMemories(t1.memories, vendor, 0.0);
    var found := Existing(t1, vendor, key);
    assert found.Some?;
    assert found.value in t1.memories && found.value.key == key;
  }

  // ===== properties of the handlers =====

  /** A correction for a vendor without a handler changes nothing. */
  lemma UnknownVendorLearnsNothing(t: Tables, c: HumanCorrection, now: string)
    requires c.vendor != SUPPLIER_GMBH && c.vendor != PARTS_AG && c.vendor != FREIGHT_CO
    ensures LearnFromCorrection(t, c, now) == (t, [])
    ensures TaughtRules(c) == []
  {
  }

  /** What every learning step keeps: the tables stay valid and the
      confidences in [0, 1], the invoice table is untouched, the audit log
      grows by one `learn` row per rule, in order, and each update reported
      is about one of those rules, at most one per rule. */
  ghost predicate LearnsSafely(t: Tables, t': Tables, updates: seq<Update>, invoiceId: string, rules: seq<Rule>, now: string) {
    && ValidTables(t')
    && (ConfidencesInRange(t.memories) ==> ConfidencesInRange(t'.memories))
    && t'.invoices == t.invoices
    && t'.audit == t.audit + LearnRows(invoiceId, rules, now)
    && |updates| <= |rules|
    && (forall u :: u in updates ==> u.rule in rules)
  }

  lemma LearnsSafelyChain(t: Tables, t1: Tables, u1: seq<Update>, t2: Tables, u2: seq<Update>,
                          invoiceId: string, r1: seq<Rule>, r2: seq<Rule>, now: string)
    requires LearnsSafely(t, t1, u1, invoiceId, r1, now) && LearnsSafely(t1, t2, u2, invoiceId, r2, now)
    ensures LearnsSafely(t, t2, u1 + u2, invoiceId, r1 + r2, now)
  {
    LearnRowsAppend(invoiceId, r1, r2, now);
  }

  /** Learning from any correction learns safely the rules it teaches. */
  lemma LearnKeepsInvariants(t: Tables, c: HumanCorrection, now: string)
    requires ValidTables(t)
    ensures LearnsSafely(t, LearnFromCorrection(t, c, now).0, LearnFromCorrection(t, c, now).1, c.invoiceId, TaughtRules(c), now)
  {
    VendorsDistinct();
    if c.vendor == SUPPLIER_GMBH {
      if FirstCorrection(c.corrections, SERVICE_DATE_FIELDS).Some? {
        StepKeepsInvariants(t, c.invoiceId, SUPPLIER_GMBH, LABEL_KEY, TargetField("serviceDate"), 0.6, true, true, LabelMapping, now);
      }
    } else if c.vendor == PARTS_AG {
      PartsKeepsInvariants(t, c, now);
    } else if c.vendor == FREIGHT_CO {
      FreightKeepsInvariants(t, c, now);
    } else {
      assert LearnRows(c.invoiceId, [], now) == [];
    }
  }

  lemma PartsKeepsInvariants(t: Tables, c: HumanCorrection, now: string)
    requires ValidTables(t) && c.vendor == PARTS_AG
    ensures LearnsSafely(t, LearnParts(t, c, now).0, LearnParts(t, c, now).1, c.invoiceId, TaughtRules(c), now)
  {
    VendorsDistinct();
    var (t1, u1) := VatStep(t, c, now);
    var (t2, u2) := CurrencyStep(t1, c, now);
    VatStepIsSafe(t, c, now);
    CurrencyStepIsSafe(t1, c, now);
    LearnsSafelyChain(t, t1, u1, t2, u2, c.invoiceId, VatRules(c), CurrencyRules(c), now);
  }

  lemma VatStepIsSafe(t: Tables, c: HumanCorrection, now: string)
    requires ValidTables(t)
    ensures LearnsSafely(t, VatStep(t, c, now).0, VatStep(t, c, now).1, c.invoiceId, VatRules(c), now)
  {
    var vat := FirstCorrection(c.corrections, VAT_FIELDS);
    if vat.Some? {
      StepKeepsInvariants(t, c.invoiceId, PARTS_AG, VAT_KEY, Strategy("RECOMPUTE_FROM_GROSS"), 0.7, false,
                          vat.value.toValue == Str("VAT_INCLUSIVE"), VatBehavior, now);
    } else {
      assert LearnRows(c.invoiceId, [], now) == [];
    }
  }

  lemma CurrencyStepIsSafe(t: Tables, c: HumanCorrection, now: string)
    requires ValidTables(t)
    ensures LearnsSafely(t, CurrencyStep(t, c, now).0, CurrencyStep(t, c, now).1, c.invoiceId, CurrencyRules(c), now)
  {
    var cur := FirstCorrection(c.corrections, CURRENCY_FIELDS);
    if cur.Some? && cur.value.toValue.Str? {
      StepKeepsInvariants(t, c.invoiceId, PARTS_AG, CURRENCY_KEY, CurrencyCode(cur.value.toValue.s), 0.7, false, true,
                          CurrencyDefault, now);
    } else {
      assert LearnRows(c.invoiceId, [], now) == [];
    }
  }

  lemma FreightKeepsInvariants(t: Tables, c: HumanCorrection, now: string)
    requires ValidTables(t) && c.vendor == FREIGHT_CO
    ensures LearnsSafely(t, LearnFreight(t, c, now).0, LearnFreight(t, c, now).1, c.invoiceId, TaughtRules(c), now)
  {
    VendorsDistinct();
    var (t1, u1) := SkontoStep(t, c, now);
    var (t2, u2) := SkuStep(t1, c, now);
    SkontoStepIsSafe(t, c, now);
    SkuStepIsSafe(t1, c, now);
    LearnsSafelyChain(t, t1, u1, t2, u2, c.invoiceId, SkontoRules(c), SkuRules(c), now);
  }

  lemma SkontoStepIsSafe(t: Tables, c: HumanCorrection, now: string)
    requires ValidTables(t)
    ensures LearnsSafely(t, SkontoStep(t, c, now).0, SkontoStep(t, c, now).1, c.invoiceId, SkontoRules(c), now)
  {
    var skonto := FirstCorrection(c.corrections, SKONTO_FIELDS);
    if skonto.Some? {
      StepKeepsInvariants(t, c.invoiceId, FREIGHT_CO, SKONTO_KEY, CorrectedValue(skonto.value.toValue), 0.7, false, true,
                          SkontoTerms, now);
    } else {
      assert LearnRows(c.invoiceId, [], now) == [];
    }
  }

  lemma SkuStepIsSafe(t: Tables, c: HumanCorrection, now: string)
    requires ValidTables(t)
    ensures LearnsSafely(t, SkuStep(t, c, now).0, SkuStep(t, c, now).1, c.invoiceId, SkuRules(c), now)
  {
    var sku := FirstCorrection(c.corrections, SKU_FIELDS);
    if sku.Some? && sku.value.toValue == Str("FREIGHT") {
      StepKeepsInvariants(t, c.invoiceId, FREIGHT_CO, FREIGHT_KEY, SkuValue("FREIGHT"), 0.6, false, true, FreightSku, now);
    } else {
      assert LearnRows(c.invoiceId, [], now) == [];
    }
  }

  lemma LearnRowsAppend(invoiceId: string, a: seq<Rule>, b: seq<Rule>, now: string)
    ensures LearnRows(invoiceId, a + b, now) == LearnRows(invoiceId, a, now) + LearnRows(invoiceId, b, now)
  {
  }

  /** After the Supplier GmbH correction of a service date, when no label
      memory existed, the engine recalls the new label mapping for the next
      Supplier GmbH invoice, so the Leistungsdatum rule can fire. */
  lemma SupplierCorrectionIsRecalled(t: Tables, c: HumanCorrection, now: string)
    requires c.vendor == SUPPLIER_GMBH && FirstCorrection(c.corrections, SERVICE_DATE_FIELDS).Some?
    requires Existing(t, SUPPLIER_GMBH, LABEL_KEY).None?
    ensures LearnFromCorrection(t, c, now).1 == [Created(t.nextId, LabelMapping, TargetField("serviceDate"))]
    ensures HasKey(SelectMemories(LearnFromCorrection(t, c, now).0.memories, SUPPLIER_GMBH, MIN_VENDOR_MEMORY_CONF), LABEL_KEY)
  {
    StepCreates(t, c.invoiceId, SUPPLIER_GMBH, LABEL_KEY, TargetField("serviceDate"), 0.6, true, LabelMapping, now);
  }

  /** A Parts AG currency correction with a default-currency memory already
      stored reinforces that memory and reports the newly corrected code,
      while the stored row keeps the code it had. */
  lemma CurrencyReinforcementNamesCorrection(t: Tables, c: HumanCorrection, now: string)
    requires ValidTables(t) && ConfidencesInRange(t.memories)
    requires c.vendor == PARTS_AG && FirstCorrection(c.corrections, VAT_FIELDS).None?
    requires FirstCorrection(c.corrections, CURRENCY_FIELDS).Some?
    requires FirstCorrection(c.corrections, CURRENCY_FIELDS).value.toValue.Str?
    requires Existing(t, PARTS_AG, CURRENCY_KEY).Some?
    ensures var existing := Existing(t, PARTS_AG, CURRENCY_KEY).value;
            var code := FirstCorrection(c.corrections, CURRENCY_FIELDS).value.toValue.s;
            var (t', updates) := LearnFromCorrection(t, c, now);
            && updates == [Reinforced(existing.id, CurrencyDefault, CurrencyCode(code))]
            && forall i :: 0 <= i < |t.memories| && t.memories[i].id == existing.id ==>
                 t'.memories[i].value == t.memories[i].value
  {
    VendorsDistinct();
    var code := FirstCorrection(c.corrections, CURRENCY_FIELDS).value.toValue.s;
    assert VatStep(t, c, now) == (t, []);
    var (t2, u2) := CurrencyStep(t, c, now);
    assert LearnFromCorrection(t, c, now) == LearnParts(t, c, now) == (t2, [] + u2);
    assert [] + u2 == u2;
    ReinforceRaisesConfidence(t, c.invoiceId, PARTS_AG, CURRENCY_KEY, CurrencyCode(code), 0.7, false, true,
                              CurrencyDefault, now);
  }

  /** A VAT correction whose target is not VAT_INCLUSIVE, with no memory to
      reinforce, creates nothing but is still logged. */
  lemma PartsVatWithoutTargetStillAudited(t: Tables, c: HumanCorrection, now: string)
    requires c.vendor == PARTS_AG
    requires FirstCorrection(c.corrections, VAT_FIELDS).Some?
    requires FirstCorrection(c.corrections, VAT_FIELDS).value.toValue != Str("VAT_INCLUSIVE")
    requires Existing(t, PARTS_AG, VAT_KEY).None?
    requires FirstCorrection(c.corrections, CURRENCY_FIELDS).None?
    ensures LearnFromCorrection(t, c, now) == (t.(audit := t.audit + [AuditRow(c.invoiceId, Learn, now, Learned(VatBehavior))]), [])
  {
    VendorsDistinct();
    var audit := t.audit + [AuditRow(c.invoiceId, Learn, now, Learned(VatBehavior))];
    var vat := FirstCorrection(c.corrections, VAT_FIELDS);
    assert Step(t, c.invoiceId, PARTS_AG, VAT_KEY, Strategy("RECOMPUTE_FROM_GROSS"), 0.7, false,
                vat.value.toValue == Str("VAT_INCLUSIVE"), VatBehavior, now) == (t.(audit := audit), []);
    assert LearnParts(t, c, now) == (t.(audit := audit), [] + []);
    assert LearnFromCorrection(t, c, now) == LearnParts(t, c, now);
    var none: seq<Update> := [];
    assert none + none == none;
  }
}
