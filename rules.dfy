/** What `MemoryEngine.process` (src/memoryEngine.ts) computes, stated as
    functions of the invoice, the recalled memories and the duplicate the
    store reports: the per-vendor rules, the confidence score, the review
    gate and the audit trail. The imperative engine in engine.dfy is proved
    to return exactly `Decision(...)`; the lemmas here are the properties
    of that result. */
module Rules {
  import opened Models
  import opened Patterns
  import opened Store

  const MIN_VENDOR_MEMORY_CONF: real := 0.4
  const CONF_AUTO_ACCEPT: real := 0.85

  const SUPPLIER_GMBH: string := "Supplier GmbH"
  const PARTS_AG: string := "Parts AG"
  const FREIGHT_CO: string := "Freight & Co"

  const LABEL_KEY: string := "label_mapping:Leistungsdatum"
  const VAT_KEY: string := "tax_behavior:VAT_INCLUSIVE"
  const SKONTO_KEY: string := "payment_terms:skonto"
  const FREIGHT_KEY: string := "sku_mapping:freight"
  const CURRENCY_KEY: string := "currency_default"

  // ----- looking memories up by key -----

  /** The position of the first memory with the key, or |ms|. */
  function KeyIndex(ms: seq<MemoryEntry>, key: string): (k: nat)
    ensures k <= |ms|
    ensures k < |ms| ==> ms[k].key == key
    ensures forall j :: 0 <= j < k ==> ms[j].key != key
    decreases |ms|
  {
    if ms == [] || ms[0].key == key then 0 else 1 + KeyIndex(ms[1..], key)
  }

  /** `memories.find((m) => m.key === key)` */
  function FindByKey(ms: seq<MemoryEntry>, key: string): (r: Option<MemoryEntry>)
    ensures r.None? <==> forall m :: m in ms ==> m.key != key
    ensures r.Some? ==> r.value in ms && r.value.key == key
  {
    var k := KeyIndex(ms, key);
    if k < |ms| then Some(ms[k]) else None
  }

  predicate HasKey(ms: seq<MemoryEntry>, key: string) {
    FindByKey(ms, key).Some?
  }

  /** A JavaScript-falsy optional string: null or empty. */
  predicate IsBlank(o: Option<string>) {
    o == None || o == Some("")
  }

  // ----- the confidence score -----

  /** The adjustment each proposed correction makes: a bonus capped at 1
      by `Math.min(1, s + d)`, or the duplicate penalty floored at 0 by
      `Math.max(s - 0.2, 0)`. */
  function Adjust(score: real, c: ProposedCorrection): real {
    match c
    case SetServiceDate(_) => Min(1.0, score + 0.15)
    case RecomputeFromGross => Min(1.0, score + 0.15)
    case RecoveredCurrency(_) => Min(1.0, score + 0.1)
    case ExtractedSkonto(_, _) => Min(1.0, score + 0.1)
    case MappedFreight(_, _) => Min(1.0, score + 0.1)
    case PossibleDuplicate(_) => Max(score - 0.2, 0.0)
  }

  /** The score after the adjustments of cs, made in order. */
  function ScoreAfter(score: real, cs: seq<ProposedCorrection>): real
    decreases |cs|
  {
    if cs == [] then score else Adjust(ScoreAfter(score, cs[..|cs| - 1]), cs[|cs| - 1])
  }

  lemma {:induction false} ScoreAfterAppend(score: real, a: seq<ProposedCorrection>, b: seq<ProposedCorrection>)
    ensures ScoreAfter(score, a + b) == ScoreAfter(ScoreAfter(score, a), b)
    decreases |b|
  {
    if b == [] {
      assert a + b == a;
    } else {
      assert (a + b)[..|a + b| - 1] == a + b[..|b| - 1];
      ScoreAfterAppend(score, a, b[..|b| - 1]);
    }
  }

  /** One more correction makes one more adjustment. */
  lemma ScoreAfterSnoc(score: real, cs: seq<ProposedCorrection>, c: ProposedCorrection)
    ensures ScoreAfter(score, cs + [c]) == Adjust(ScoreAfter(score, cs), c)
  {
    assert (cs + [c])[..|cs|] == cs;
  }

  lemma ScoreAfterOne(score: real, c: ProposedCorrection)
    ensures ScoreAfter(score, [c]) == Adjust(score, c)
  {
    assert [c][..0] == [];
  }

  /** Each bonus is clamped at 1 and the penalty at 0, so a score that
      starts in [0, 1] stays there whatever the corrections are. */
  lemma {:induction false} ScoreStaysInUnit(score: real, cs: seq<ProposedCorrection>)
    requires 0.0 <= score <= 1.0
    ensures 0.0 <= ScoreAfter(score, cs) <= 1.0
    decreases |cs|
  {
    if cs != [] {
      ScoreStaysInUnit(score, cs[..|cs| - 1]);
    }
  }

  // ----- 2a) Supplier GmbH: serviceDate from "Leistungsdatum" -----

  predicate ServiceDateRuleFires(inv: ExtractedInvoice, recalled: seq<MemoryEntry>) {
    HasKey(recalled, LABEL_KEY) && Contains(inv.rawText, LEISTUNGSDATUM) && IsBlank(inv.fields.serviceDate)
  }

  /** The ISO service date the rule writes, when it fires and the captured
      date splits into exactly three parts. */
  function ServiceDateFix(inv: ExtractedInvoice, recalled: seq<MemoryEntry>): Option<string> {
    if ServiceDateRuleFires(inv, recalled) then
      match ServiceDateText(inv.rawText)
      case Some(v) => if |Split(v, '.')| == 3 then Some(ToIsoDate(v)) else None
      case None => None
    else None
  }

  function SupplierFixes(inv: ExtractedInvoice, recalled: seq<MemoryEntry>): seq<ProposedCorrection> {
    match ServiceDateFix(inv, recalled)
    case Some(iso) => [SetServiceDate(iso)]
    case None => []
  }

  function SupplierFields(inv: ExtractedInvoice, recalled: seq<MemoryEntry>, f: Fields): Fields {
    match ServiceDateFix(inv, recalled)
    case Some(iso) => f.(serviceDate := Some(iso))
    case None => f
  }

  function SupplierReasons(inv: ExtractedInvoice, recalled: seq<MemoryEntry>): seq<Reason> {
    if ServiceDateRuleFires(inv, recalled) then
      match ServiceDateText(inv.rawText)
      case Some(v) => if |Split(v, '.')| == 3 then [AppliedLabelMapping] else [UnexpectedDateFormat]
      case None => [UnparsableServiceDate]
    else if Contains(inv.rawText, LEISTUNGSDATUM) && IsBlank(inv.fields.serviceDate) then [LabelWithoutMemory]
    else []
  }

  // ----- 2b) Parts AG: VAT-inclusive prices and a missing currency -----

  predicate VatPhrasing(raw: string) {
    Contains(raw, "MwSt. inkl.") || Contains(raw, "Prices incl. VAT")
  }

  /** The currency recovered from the raw text when the field is blank. */
  function RecoveredCode(inv: ExtractedInvoice): Option<string> {
    if IsBlank(inv.fields.currency) then FindCurrency(inv.rawText) else None
  }

  function VatFixes(inv: ExtractedInvoice, recalled: seq<MemoryEntry>): seq<ProposedCorrection> {
    if VatPhrasing(inv.rawText) && HasKey(recalled, VAT_KEY) then [RecomputeFromGross] else []
  }

  function VatReasons(inv: ExtractedInvoice, recalled: seq<MemoryEntry>): seq<Reason> {
    if VatPhrasing(inv.rawText) then
      (if HasKey(recalled, VAT_KEY) then [VatStrategyApplied] else [VatWithoutStrategy])
    else []
  }

  function CurrencyFixes(inv: ExtractedInvoice): seq<ProposedCorrection> {
    match RecoveredCode(inv) case Some(c) => [RecoveredCurrency(c)] case None => []
  }

  function CurrencyReasons(inv: ExtractedInvoice): seq<Reason> {
    if IsBlank(inv.fields.currency) then
      (match FindCurrency(inv.rawText) case Some(c) => [CurrencyRecovered(c)] case None => [CurrencyNotFound])
    else []
  }

  function PartsFixes(inv: ExtractedInvoice, recalled: seq<MemoryEntry>): seq<ProposedCorrection> {
    VatFixes(inv, recalled) + CurrencyFixes(inv)
  }

  function PartsFields(inv: ExtractedInvoice, f: Fields): Fields {
    match RecoveredCode(inv)
    case Some(c) => f.(currency := Some(c))
    case None => f
  }

  function PartsReasons(inv: ExtractedInvoice, recalled: seq<MemoryEntry>): seq<Reason> {
    VatReasons(inv, recalled) + CurrencyReasons(inv)
  }

  // ----- 2c) Freight & Co: Skonto terms and the FREIGHT SKU -----

  function SkontoFixes(raw: string): seq<ProposedCorrection> {
    match FindSkonto(raw)
    case Some((percent, days)) => [ExtractedSkonto(percent, days)]
    case None => []
  }

  function SkontoReasons(raw: string, recalled: seq<MemoryEntry>): seq<Reason> {
    if FindSkonto(raw).Some? then [SkontoStructured]
    else if HasKey(recalled, SKONTO_KEY) then [KnownSkontoPattern]
    else []
  }

  /** `{...existingTerms, skonto: {percent, days}}`, existingTerms defaulting to `{}`. */
  function WithSkonto(terms: Option<PaymentTerms>, percent: nat, days: nat): PaymentTerms {
    terms.GetOr(map[])["skonto" := Skonto(percent, days)]
  }

  /** The corrections for the freight-like items among the first n, in order;
      lines are numbered from 1. */
  function FreightMappings(items: seq<LineItem>, n: nat): seq<ProposedCorrection>
    requires n <= |items|
  {
    if n == 0 then []
    else FreightMappings(items, n - 1)
         + (if FreightLike(items[n - 1].description) then [MappedFreight(n, items[n - 1].description)] else [])
  }

  function FreightReasons(items: seq<LineItem>, n: nat, mapped: bool): seq<Reason>
    requires n <= |items|
  {
    if n == 0 then []
    else FreightReasons(items, n - 1, mapped)
         + (if FreightLike(items[n - 1].description) then
              [if mapped then FreightMappingApplied else FreightWithoutMapping]
            else [])
  }

  predicate AnyFreight(items: seq<LineItem>) {
    exists i :: 0 <= i < |items| && FreightLike(items[i].description)
  }

  /** Every freight-like item with its SKU set to FREIGHT, the rest as they were. */
  function MapFreight(items: seq<LineItem>): seq<LineItem> {
    seq(|items|, i requires 0 <= i < |items| =>
      if FreightLike(items[i].description) then items[i].(sku := Some("FREIGHT")) else items[i])
  }

  /** The line items once the loop has looked at the first n of them. */
  function MapFreightUpTo(items: seq<LineItem>, n: nat, mapped: bool): (out: seq<LineItem>)
    requires n <= |items|
    ensures |out| == |items|
  {
    if n == 0 then items
    else if mapped && FreightLike(items[n - 1].description) then
      MapFreightUpTo(items, n - 1, mapped)[n - 1 := items[n - 1].(sku := Some("FREIGHT"))]
    else MapFreightUpTo(items, n - 1, mapped)
  }

  /** After n items each of the first n is mapped when it is freight-like and
      the mapping is known; every other item is as it was. */
  lemma {:induction false} MapFreightUpToAt(items: seq<LineItem>, n: nat, mapped: bool)
    requires n <= |items|
    ensures var out := MapFreightUpTo(items, n, mapped);
            forall j :: 0 <= j < |items| ==>
                 out[j] == if j < n && mapped && FreightLike(items[j].description)
                           then items[j].(sku := Some("FREIGHT")) else items[j]
  {
    if n > 0 {
      MapFreightUpToAt(items, n - 1, mapped);
    }
  }

  /** Looking at item n extends the mappings, the reasons and the items by
      what that one item contributes. */
  lemma FreightScanNext(items: seq<LineItem>, n: nat, mapped: bool)
    requires n < |items|
    ensures var looks := FreightLike(items[n].description);
            && FreightMappings(items, n + 1)
               == FreightMappings(items, n) + (if looks then [MappedFreight(n + 1, items[n].description)] else [])
            && FreightReasons(items, n + 1, mapped)
               == FreightReasons(items, n, mapped)
                  + (if looks then [if mapped then FreightMappingApplied else FreightWithoutMapping] else [])
            && MapFreightUpTo(items, n + 1, mapped)
               == if mapped && looks then MapFreightUpTo(items, n, mapped)[n := items[n].(sku := Some("FREIGHT"))]
                  else MapFreightUpTo(items, n, mapped)
  {
  }

  function SkuFixes(inv: ExtractedInvoice, recalled: seq<MemoryEntry>): seq<ProposedCorrection> {
    if HasKey(recalled, FREIGHT_KEY) then FreightMappings(inv.fields.lineItems, |inv.fields.lineItems|) else []
  }

  function FreightFixes(inv: ExtractedInvoice, recalled: seq<MemoryEntry>): seq<ProposedCorrection> {
    SkontoFixes(inv.rawText) + SkuFixes(inv, recalled)
  }

  function SkontoFields(raw: string, f: Fields): Fields {
    match FindSkonto(raw)
    case Some((percent, days)) => f.(paymentTerms := Some(WithSkonto(f.paymentTerms, percent, days)))
    case None => f
  }

  function SkuFields(inv: ExtractedInvoice, recalled: seq<MemoryEntry>, f: Fields): Fields {
    if HasKey(recalled, FREIGHT_KEY) && AnyFreight(inv.fields.lineItems) then
      f.(lineItems := MapFreight(inv.fields.lineItems))
    else f
  }

  function FreightFields(inv: ExtractedInvoice, recalled: seq<MemoryEntry>, f: Fields): Fields {
    SkuFields(inv, recalled, SkontoFields(inv.rawText, f))
  }

  function FreightCoReasons(inv: ExtractedInvoice, recalled: seq<MemoryEntry>): seq<Reason> {
    SkontoReasons(inv.rawText, recalled)
    + FreightReasons(inv.fields.lineItems, |inv.fields.lineItems|, HasKey(recalled, FREIGHT_KEY))
  }

  // ----- the whole apply stage, gated by the exact vendor string -----

  lemma VendorsDistinct()
    ensures SUPPLIER_GMBH != PARTS_AG && SUPPLIER_GMBH != FREIGHT_CO && PARTS_AG != FREIGHT_CO
  {
    assert SUPPLIER_GMBH[0] != PARTS_AG[0] && SUPPLIER_GMBH[0] != FREIGHT_CO[0] && PARTS_AG[0] != FREIGHT_CO[0];
  }

  function Fixes(inv: ExtractedInvoice, recalled: seq<MemoryEntry>): seq<ProposedCorrection> {
    if inv.vendor == SUPPLIER_GMBH then SupplierFixes(inv, recalled)
    else if inv.vendor == PARTS_AG then PartsFixes(inv, recalled)
    else if inv.vendor == FREIGHT_CO then FreightFixes(inv, recalled)
    else []
  }

  function NormalizedFields(inv: ExtractedInvoice, recalled: seq<MemoryEntry>): Fields {
    if inv.vendor == SUPPLIER_GMBH then SupplierFields(inv, recalled, inv.fields)
    else if inv.vendor == PARTS_AG then PartsFields(inv, inv.fields)
    else if inv.vendor == FREIGHT_CO then FreightFields(inv, recalled, inv.fields)
    else inv.fields
  }

  function ApplyReasons(inv: ExtractedInvoice, recalled: seq<MemoryEntry>): seq<Reason> {
    if inv.vendor == SUPPLIER_GMBH then SupplierReasons(inv, recalled)
    else if inv.vendor == PARTS_AG then PartsReasons(inv, recalled)
    else if inv.vendor == FREIGHT_CO then FreightCoReasons(inv, recalled)
    else []
  }

  // ----- duplicate check and decision -----

  /** The metadata row `saveInvoiceMeta` writes for the invoice. */
  function MetaRow(inv: ExtractedInvoice): InvoiceRow {
    InvoiceRow(inv.invoiceId, inv.vendor, inv.fields.invoiceNumber, inv.fields.invoiceDate)
  }

  /** The store reported a row of another invoice. */
  predicate Flagged(inv: ExtractedInvoice, found: Option<InvoiceRow>) {
    found.Some? && found.value.id != inv.invoiceId
  }

  function DuplicateCorrections(inv: ExtractedInvoice, found: Option<InvoiceRow>): seq<ProposedCorrection> {
    if Flagged(inv, found) then [PossibleDuplicate(found.value.id)] else []
  }

  /** The result of processing the invoice, given the memories recalled
      for its vendor and the row the duplicate query returned. Every time
      stamp of the trail is `now`. */
  function Decision(inv: ExtractedInvoice, recalled: seq<MemoryEntry>, found: Option<InvoiceRow>, now: string): DecisionResult {
    Conclude(inv, |recalled|, NormalizedFields(inv, recalled), Fixes(inv, recalled), ApplyReasons(inv, recalled), found, now)
  }

  /** Steps 2d and 3, after the vendor's rules produced the fields, fixes
      and reasons: the duplicate flag, the score, the gate and the trail. */
  function Conclude(inv: ExtractedInvoice, recalledCount: nat, fields: Fields, fixes: seq<ProposedCorrection>,
                    applyReasons: seq<Reason>, found: Option<InvoiceRow>, now: string): DecisionResult {
    var corrections := fixes + DuplicateCorrections(inv, found);
    var score := ScoreAfter(inv.confidence, corrections);
    var review := !(score >= CONF_AUTO_ACCEPT && |corrections| == 0);
    var reasons := applyReasons
                   + (if Flagged(inv, found) then [DuplicateDetected(found.value.id)] else [])
                   + [if review then ReviewRequired else AutoAccepted];
    var trail := [AuditEntry(Recall, now, Recalled(recalledCount, inv.vendor)),
                  AuditEntry(Apply, now, AppliedMemories(inv.vendor, |fixes|))]
                 + (if Flagged(inv, found) then [AuditEntry(Apply, now, DuplicateFound(found.value.id))] else [])
                 + [AuditEntry(Decide, now, Decided(review, score))];
    DecisionResult(fields, corrections, review, reasons, score, [], trail)
  }

  // ===== properties of the decision =====

  /** The gate, the trail's shape and the empty memory updates, on every
      path and whatever the vendor's rules proposed. */
  lemma DecisionShape(inv: ExtractedInvoice, recalledCount: nat, fields: Fields, fixes: seq<ProposedCorrection>,
                      applyReasons: seq<Reason>, found: Option<InvoiceRow>, now: string)
    ensures var r := Conclude(inv, recalledCount, fields, fixes, applyReasons, found, now);
            && r.requiresHumanReview == !(r.confidenceScore >= CONF_AUTO_ACCEPT && |r.proposedCorrections| == 0)
            && r.memoryUpdates == []
            && |r.auditTrail| == (if Flagged(inv, found) then 4 else 3)
            && r.auditTrail[0].step == Recall
            && r.auditTrail[|r.auditTrail| - 1].step == Decide
            && forall i :: 0 < i < |r.auditTrail| - 1 ==> r.auditTrail[i].step == Apply
  {
  }

  /** An extraction confidence in [0, 1] gives a final score in [0, 1]. */
  lemma DecisionScoreInUnit(inv: ExtractedInvoice, recalled: seq<MemoryEntry>, found: Option<InvoiceRow>, now: string)
    requires 0.0 <= inv.confidence <= 1.0
    ensures 0.0 <= Decision(inv, recalled, found, now).confidenceScore <= 1.0
  {
    ScoreStaysInUnit(inv.confidence, Fixes(inv, recalled) + DuplicateCorrections(inv, found));
  }

  /** The freight mappings are exactly one MappedFreight per freight-like
      item among the first n, carrying its 1-based line and its description. */
  lemma {:induction false} FreightMappingsExact(items: seq<LineItem>, n: nat)
    requires n <= |items|
    ensures forall c :: c in FreightMappings(items, n) ==>
              c.MappedFreight? && 1 <= c.line <= n && FreightLike(items[c.line - 1].description)
              && c.description == items[c.line - 1].description
    ensures forall i :: 0 <= i < n && FreightLike(items[i].description) ==>
              MappedFreight(i + 1, items[i].description) in FreightMappings(items, n)
  {
    if n > 0 {
      FreightMappingsExact(items, n - 1);
    }
  }

  /** No freight mapping is proposed exactly when none of the first n items is freight-like. */
  lemma {:induction false} FreightMappingsEmpty(items: seq<LineItem>, n: nat)
    requires n <= |items|
    ensures FreightMappings(items, n) == [] <==> forall i :: 0 <= i < n ==> !FreightLike(items[i].description)
  {
    if n > 0 {
      FreightMappingsEmpty(items, n - 1);
    }
  }

  /** Changed fields come with at least one proposed correction, so the
      invoice goes to review; so does any proposed correction. */
  lemma AppliedFixForcesReview(inv: ExtractedInvoice, recalled: seq<MemoryEntry>, found: Option<InvoiceRow>, now: string)
    ensures NormalizedFields(inv, recalled) != inv.fields ==> Fixes(inv, recalled) != []
    ensures Fixes(inv, recalled) != [] ==> Decision(inv, recalled, found, now).requiresHumanReview
  {
    if inv.vendor == FREIGHT_CO && HasKey(recalled, FREIGHT_KEY) && AnyFreight(inv.fields.lineItems) {
      var items := inv.fields.lineItems;
      var i :| 0 <= i < |items| && FreightLike(items[i].description);
      FreightMappingsExact(items, |items|);
      assert MappedFreight(i + 1, items[i].description) in FreightFixes(inv, recalled);
    }
  }

  /** Whatever the vendor's rules proposed, a duplicate of another invoice
      adds exactly one correction naming it, takes 0.2 off the score
      (floored at 0) and forces review. */
  lemma DuplicateForcesReview(inv: ExtractedInvoice, recalledCount: nat, fields: Fields, fixes: seq<ProposedCorrection>,
                              applyReasons: seq<Reason>, dup: InvoiceRow, now: string)
    requires dup.id != inv.invoiceId
    ensures var r := Conclude(inv, recalledCount, fields, fixes, applyReasons, Some(dup), now);
            && r.proposedCorrections == fixes + [PossibleDuplicate(dup.id)]
            && r.confidenceScore == Max(ScoreAfter(inv.confidence, fixes) - 0.2, 0.0)
            && r.requiresHumanReview
            && DuplicateDetected(dup.id) in r.reasoning
  {
    var flag := [PossibleDuplicate(dup.id)];
    var before := ScoreAfter(inv.confidence, fixes);
    ScoreAfterAppend(inv.confidence, fixes, flag);
    ScoreAfterOne(before, PossibleDuplicate(dup.id));
    assert ScoreAfter(inv.confidence, fixes + flag) == Max(before - 0.2, 0.0);
    var r := Conclude(inv, recalledCount, fields, fixes, applyReasons, Some(dup), now);
    assert r.proposedCorrections == fixes + flag;
    assert r.reasoning[|applyReasons|] == DuplicateDetected(dup.id);
  }

  /** The store returning the invoice's own row, or nothing, never flags. */
  lemma OwnRowNeverFlags(inv: ExtractedInvoice, recalled: seq<MemoryEntry>, found: Option<InvoiceRow>, now: string)
    requires found.None? || found.value.id == inv.invoiceId
    ensures var r := Decision(inv, recalled, found, now);
            && r.proposedCorrections == Fixes(inv, recalled)
            && r.confidenceScore == ScoreAfter(inv.confidence, Fixes(inv, recalled))
            && |r.auditTrail| == 3
  {
    assert Fixes(inv, recalled) + [] == Fixes(inv, recalled);
  }

  /** With nothing to fix and no duplicate, the score is the extraction
      confidence and the invoice is auto-accepted exactly when that reaches 0.85. */
  lemma NothingToFix(inv: ExtractedInvoice, recalled: seq<MemoryEntry>, found: Option<InvoiceRow>, now: string)
    requires Fixes(inv, recalled) == [] && !Flagged(inv, found)
    ensures var r := Decision(inv, recalled, found, now);
            && r.normalizedInvoice == inv.fields
            && r.confidenceScore == inv.confidence
            && r.requiresHumanReview == (inv.confidence < CONF_AUTO_ACCEPT)
  {
    AppliedFixForcesReview(inv, recalled, found, now);
  }

  // ----- the Supplier GmbH rule -----

  /** The label without a memory leaves the service date and the score
      alone and says why. */
  lemma LabelWithoutMemoryKeepsServiceDate(inv: ExtractedInvoice, recalled: seq<MemoryEntry>, found: Option<InvoiceRow>, now: string)
    requires inv.vendor == SUPPLIER_GMBH
    requires !HasKey(recalled, LABEL_KEY) && Contains(inv.rawText, LEISTUNGSDATUM)
    requires IsBlank(inv.fields.serviceDate) && !Flagged(inv, found)
    ensures var r := Decision(inv, recalled, found, now);
            && r.normalizedInvoice == inv.fields
            && r.proposedCorrections == []
            && r.confidenceScore == inv.confidence
            && LabelWithoutMemory in r.reasoning
  {
  }

  /** When the rule fires on a date of three parts it writes `yyyy-mm-dd`,
      proposes one correction and adds 0.15 (capped at 1). */
  lemma ServiceDateApplied(inv: ExtractedInvoice, recalled: seq<MemoryEntry>, found: Option<InvoiceRow>, now: string)
    requires inv.vendor == SUPPLIER_GMBH && ServiceDateRuleFires(inv, recalled)
    requires ServiceDateText(inv.rawText).Some? && |Split(ServiceDateText(inv.rawText).value, '.')| == 3
    requires !Flagged(inv, found)
    ensures var v := ServiceDateText(inv.rawText).value;
            var r := Decision(inv, recalled, found, now);
            && r.normalizedInvoice == inv.fields.(serviceDate := Some(ToIsoDate(v)))
            && r.proposedCorrections == [SetServiceDate(ToIsoDate(v))]
            && r.confidenceScore == Min(1.0, inv.confidence + 0.15)
            && r.requiresHumanReview
  {
    var v := ServiceDateText(inv.rawText).value;
    var iso := ToIsoDate(v);
    VendorsDistinct();
    assert ServiceDateFix(inv, recalled) == Some(iso);
    assert Fixes(inv, recalled) == [SetServiceDate(iso)];
    assert NormalizedFields(inv, recalled) == inv.fields.(serviceDate := Some(iso));
    ConcludeUnflagged(inv, |recalled|, NormalizedFields(inv, recalled), Fixes(inv, recalled), ApplyReasons(inv, recalled),
                      found, now);
    ScoreAfterOne(inv.confidence, SetServiceDate(iso));
  }

  /** The Supplier GmbH rule changes nothing unless the label memory is
      recalled, the label occurs and the service date is blank; when it
      fires on text without a readable date it changes nothing but says why. */
  lemma ServiceDateGate(inv: ExtractedInvoice, recalled: seq<MemoryEntry>)
    requires inv.vendor == SUPPLIER_GMBH
    ensures !ServiceDateRuleFires(inv, recalled) ==> NormalizedFields(inv, recalled) == inv.fields && Fixes(inv, recalled) == []
    ensures ServiceDateRuleFires(inv, recalled) && ServiceDateText(inv.rawText).None? ==>
              && NormalizedFields(inv, recalled) == inv.fields && Fixes(inv, recalled) == []
              && ApplyReasons(inv, recalled) == [UnparsableServiceDate]
    ensures ServiceDateRuleFires(inv, recalled) && ServiceDateText(inv.rawText).Some?
            && |Split(ServiceDateText(inv.rawText).value, '.')| != 3 ==>
              && NormalizedFields(inv, recalled) == inv.fields && Fixes(inv, recalled) == []
              && ApplyReasons(inv, recalled) == [UnexpectedDateFormat]
  {
  }

  /** Without a duplicate the decision keeps the rules' fields and fixes,
      scores them, and gates on that score and their number. */
  lemma ConcludeUnflagged(inv: ExtractedInvoice, recalledCount: nat, fields: Fields, fixes: seq<ProposedCorrection>,
                          applyReasons: seq<Reason>, found: Option<InvoiceRow>, now: string)
    requires !Flagged(inv, found)
    ensures var r := Conclude(inv, recalledCount, fields, fixes, applyReasons, found, now);
            && r.normalizedInvoice == fields
            && r.proposedCorrections == fixes
            && r.confidenceScore == ScoreAfter(inv.confidence, fixes)
            && r.requiresHumanReview == !(r.confidenceScore >= CONF_AUTO_ACCEPT && fixes == [])
  {
    assert fixes + [] == fixes;
  }

  // ----- the Parts AG rules -----

  /** The VAT phrasing proposes the recomputation exactly when the memory
      is recalled, and never changes a field; without it the reasoning says
      the strategy is missing. */
  lemma VatRule(inv: ExtractedInvoice, recalled: seq<MemoryEntry>)
    requires inv.vendor == PARTS_AG && VatPhrasing(inv.rawText)
    ensures var currency := match RecoveredCode(inv) case Some(c) => [RecoveredCurrency(c)] case None => [];
            && (HasKey(recalled, VAT_KEY) ==> Fixes(inv, recalled) == [RecomputeFromGross] + currency)
            && (!HasKey(recalled, VAT_KEY) ==>
                  Fixes(inv, recalled) == currency && VatWithoutStrategy in ApplyReasons(inv, recalled))
            && NormalizedFields(inv, recalled) == inv.fields.(currency := NormalizedFields(inv, recalled).currency)
  {
  }

  /** A blank currency is filled with the leftmost whole-word EUR, USD or
      GBP of the raw text, with one correction; a present one is kept. */
  lemma CurrencyRule(inv: ExtractedInvoice, recalled: seq<MemoryEntry>)
    requires inv.vendor == PARTS_AG
    ensures IsBlank(inv.fields.currency) && FindCurrency(inv.rawText).Some? ==>
              var c := FindCurrency(inv.rawText).value;
              && NormalizedFields(inv, recalled).currency == Some(c)
              && IsCurrencyCode(c)
              && Fixes(inv, recalled)[|Fixes(inv, recalled)| - 1] == RecoveredCurrency(c)
    ensures !IsBlank(inv.fields.currency) ==> NormalizedFields(inv, recalled) == inv.fields
    ensures IsBlank(inv.fields.currency) && FindCurrency(inv.rawText).None? ==>
              NormalizedFields(inv, recalled) == inv.fields && CurrencyNotFound in ApplyReasons(inv, recalled)
  {
  }

  // ----- the Freight & Co rules -----

  /** A direct Skonto match sets `paymentTerms.skonto`, keeps every other
      key, and is the first correction, whether or not a memory exists. */
  lemma SkontoMatchRule(inv: ExtractedInvoice, recalled: seq<MemoryEntry>)
    requires inv.vendor == FREIGHT_CO && FindSkonto(inv.rawText).Some?
    ensures var (percent, days) := FindSkonto(inv.rawText).value;
            var terms := NormalizedFields(inv, recalled).paymentTerms;
            && terms.Some? && "skonto" in terms.value && terms.value["skonto"] == Skonto(percent, days)
            && (forall k :: k != "skonto" && inv.fields.paymentTerms.Some? && k in inv.fields.paymentTerms.value ==>
                  k in terms.value && terms.value[k] == inv.fields.paymentTerms.value[k])
            && Fixes(inv, recalled)[0] == ExtractedSkonto(percent, days)
  {
    VendorsDistinct();
    var (percent, days) := FindSkonto(inv.rawText).value;
    var f := inv.fields;
    var withTerms := f.(paymentTerms := Some(WithSkonto(f.paymentTerms, percent, days)));
    var out := FreightFields(inv, recalled, f);
    assert out.paymentTerms == withTerms.paymentTerms;
    assert NormalizedFields(inv, recalled) == out;
    assert SkontoFixes(inv.rawText) == [ExtractedSkonto(percent, days)];
    assert Fixes(inv, recalled) == FreightFixes(inv, recalled);
  }

  /** Without a direct match the terms are left alone; a recalled Skonto
      memory is only mentioned in the reasoning. */
  lemma SkontoMemoryOnlyRule(inv: ExtractedInvoice, recalled: seq<MemoryEntry>)
    requires inv.vendor == FREIGHT_CO && FindSkonto(inv.rawText).None?
    ensures NormalizedFields(inv, recalled).paymentTerms == inv.fields.paymentTerms
    ensures HasKey(recalled, SKONTO_KEY) ==> KnownSkontoPattern in ApplyReasons(inv, recalled)
    ensures forall c :: c in Fixes(inv, recalled) ==> !c.ExtractedSkonto?
  {
    VendorsDistinct();
    assert NormalizedFields(inv, recalled) == FreightFields(inv, recalled, inv.fields);
    assert ApplyReasons(inv, recalled) == FreightCoReasons(inv, recalled);
    assert Fixes(inv, recalled) == FreightFixes(inv, recalled);
    if HasKey(recalled, FREIGHT_KEY) {
      FreightMappingsExact(inv.fields.lineItems, |inv.fields.lineItems|);
    }
  }

  /** With the mapping memory every freight-like item, and only those, gets
      SKU FREIGHT, in place; without it the items are untouched. */
  lemma FreightSkuRule(inv: ExtractedInvoice, recalled: seq<MemoryEntry>)
    requires inv.vendor == FREIGHT_CO
    ensures var items := inv.fields.lineItems;
            var out := NormalizedFields(inv, recalled).lineItems;
            && |out| == |items|
            && (forall i :: 0 <= i < |items| ==>
                  out[i] == if HasKey(recalled, FREIGHT_KEY) && FreightLike(items[i].description)
                            then items[i].(sku := Some("FREIGHT")) else items[i])
  {
  }

  // ----- the duplicate check against the invoice table -----

  /** A match before the end of the table stays the first match when a row is appended. */
  lemma {:induction false} FirstDuplicateAppend(rows: seq<InvoiceRow>, row: InvoiceRow, vendor: string, invoiceNumber: string, invoiceDate: Option<int>)
    requires FirstDuplicateAt(rows, vendor, invoiceNumber, invoiceDate) < |rows|
    ensures FirstDuplicateAt(rows + [row], vendor, invoiceNumber, invoiceDate) == FirstDuplicateAt(rows, vendor, invoiceNumber, invoiceDate)
    decreases |rows|
  {
    if !IsDuplicate(rows[0], vendor, invoiceNumber, invoiceDate) {
      assert (rows + [row])[1..] == rows[1..] + [row];
      FirstDuplicateAppend(rows[1..], row, vendor, invoiceNumber, invoiceDate);
    }
  }

  /** Processing an invoice for the first time, when the table holds another
      invoice of the same vendor and number dated within two days, flags it. */
  lemma FirstProcessingFlagsEarlierInvoice(rows: seq<InvoiceRow>, inv: ExtractedInvoice, recalled: seq<MemoryEntry>, now: string)
    requires !HasInvoice(rows, inv.invoiceId)
    requires exists row :: row in rows && IsDuplicate(row, inv.vendor, inv.fields.invoiceNumber, inv.fields.invoiceDate)
    ensures var table := InsertOrIgnore(rows, MetaRow(inv));
            var found := FindDuplicateIn(table, inv.vendor, inv.fields.invoiceNumber, inv.fields.invoiceDate);
            var r := Decision(inv, recalled, found, now);
            && Flagged(inv, found) && found.value in rows
            && r.requiresHumanReview
            && r.proposedCorrections[|r.proposedCorrections| - 1] == PossibleDuplicate(found.value.id)
  {
    var f := inv.fields;
    var k := FirstDuplicateAt(rows, inv.vendor, f.invoiceNumber, f.invoiceDate);
    FirstDuplicateAppend(rows, MetaRow(inv), inv.vendor, f.invoiceNumber, f.invoiceDate);
    assert (rows + [MetaRow(inv)])[k] == rows[k];
    var found := FindDuplicateIn(rows + [MetaRow(inv)], inv.vendor, f.invoiceNumber, f.invoiceDate);
    assert found == Some(rows[k]);
    DuplicateForcesReview(inv, |recalled|, NormalizedFields(inv, recalled), Fixes(inv, recalled), ApplyReasons(inv, recalled),
                          rows[k], now);
  }

  /** An invoice whose only matching rows are its own is never flagged,
      however often it is processed. */
  lemma AloneNeverFlagged(rows: seq<InvoiceRow>, inv: ExtractedInvoice, recalled: seq<MemoryEntry>, now: string)
    requires forall row :: row in rows && IsDuplicate(row, inv.vendor, inv.fields.invoiceNumber, inv.fields.invoiceDate) ==> row.id == inv.invoiceId
    ensures var table := InsertOrIgnore(rows, MetaRow(inv));
            var found := FindDuplicateIn(table, inv.vendor, inv.fields.invoiceNumber, inv.fields.invoiceDate);
            !Flagged(inv, found) && Decision(inv, recalled, found, now).proposedCorrections == Fixes(inv, recalled)
  {
    var table := InsertOrIgnore(rows, MetaRow(inv));
    var found := FindDuplicateIn(table, inv.vendor, inv.fields.invoiceNumber, inv.fields.invoiceDate);
    if found.Some? {
      assert found.value in rows || found.value == MetaRow(inv);
    }
    OwnRowNeverFlags(inv, recalled, found, now);
  }

  /** LIMIT 1 returns the first match in table order, so an invoice whose
      own row precedes another match is not flagged when processed again. */
  lemma OwnRowFirstHidesDuplicate(inv: ExtractedInvoice, other: InvoiceRow)
    requires other.id != inv.invoiceId && inv.fields.invoiceDate.Some?
    requires IsDuplicate(other, inv.vendor, inv.fields.invoiceNumber, inv.fields.invoiceDate)
    ensures var table := InsertOrIgnore([MetaRow(inv), other], MetaRow(inv));
            var found := FindDuplicateIn(table, inv.vendor, inv.fields.invoiceNumber, inv.fields.invoiceDate);
            table == [MetaRow(inv), other] && found == Some(MetaRow(inv)) && !Flagged(inv, found)
  {
    assert [MetaRow(inv), other][0].id == inv.invoiceId;
  }
}
