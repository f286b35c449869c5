/** The values the invoice engine works on: invoices, memories, audit
    entries, human corrections and decisions (src/models.ts). */
module Models {

  datatype Option<T> = None | Some(value: T) {
    function GetOr(default: T): T {
      if Some? then value else default
    }
  }

  /** JavaScript's Math.min and Math.max on two numbers. */
  function Min(a: real, b: real): real { if a <= b then a else b }
  function Max(a: real, b: real): real { if a >= b then a else b }

  /** Appending to a sequence in two steps is appending the concatenation. */
  lemma AppendAssoc<T>(a: seq<T>, b: seq<T>, c: seq<T>)
    ensures a + b + c == a + (b + c)
  {
  }

  datatype LineItem = LineItem(sku: Option<string>, description: string, qty: real, unitPrice: real)

  /** A value under one key of the `paymentTerms` record; the engine only
      ever writes `skonto`. */
  datatype Term = Skonto(percent: nat, days: nat) | OtherTerm(text: string)

  type PaymentTerms = map<string, Term>

  /** The extracted fields. `invoiceDate` is the day number SQLite's
      julianday gives the date text, None when it cannot read it.
      `paymentTerms` is not declared in the source's type but the engine
      reads and writes it on the working copy of the fields. */
  datatype Fields = Fields(
    invoiceNumber: string,
    invoiceDate: Option<int>,
    serviceDate: Option<string>,
    currency: Option<string>,
    poNumber: Option<string>,
    netTotal: real,
    taxRate: real,
    taxTotal: real,
    grossTotal: real,
    lineItems: seq<LineItem>,
    paymentTerms: Option<PaymentTerms>)

  datatype ExtractedInvoice = ExtractedInvoice(
    invoiceId: string,
    vendor: string,
    fields: Fields,
    confidence: real,
    rawText: string)

  datatype MemoryType = VENDOR | CORRECTION | RESOLUTION

  /** A JSON value as it arrives in a human correction (`from`, `to`). */
  datatype Value = Str(s: string) | Num(n: real) | Null | Composite(id: nat)

  /** The payload of a memory, one variant per payload shape the engine stores. */
  datatype MemoryValue =
    | TargetField(field: string)
    | Strategy(name: string)
    | CurrencyCode(code: string)
    | SkuValue(sku: string)
    | CorrectedValue(to: Value)

  datatype MemoryEntry = MemoryEntry(
    id: nat,
    vendorName: Option<string>,
    kind: MemoryType,
    key: string,
    value: MemoryValue,
    confidence: real,
    positiveReinforcements: int,
    negativeReinforcements: int,
    lastUsedAt: Option<string>,
    createdAt: string,
    updatedAt: string)

  /** A memory before the store has given it an id. */
  datatype NewMemory = NewMemory(
    vendorName: Option<string>,
    kind: MemoryType,
    key: string,
    value: MemoryValue,
    confidence: real,
    positiveReinforcements: int,
    negativeReinforcements: int,
    lastUsedAt: Option<string>,
    createdAt: Option<string>,
    updatedAt: string)

  datatype AuditStep = Recall | Apply | Decide | Learn

  /** The rule a learning step is about. */
  datatype Rule = LabelMapping | VatBehavior | CurrencyDefault | SkontoTerms | FreightSku

  /** The facts each audit detail text reports. */
  datatype AuditDetail =
    | Recalled(count: nat, vendor: string)
    | AppliedMemories(vendor: string, proposed: nat)
    | DuplicateFound(duplicateId: string)
    | Decided(requiresHumanReview: bool, confidenceScore: real)
    | Learned(rule: Rule)

  datatype AuditEntry = AuditEntry(step: AuditStep, timestamp: string, details: AuditDetail)

  /** The proposed corrections of a decision, one variant per message. */
  datatype ProposedCorrection =
    | SetServiceDate(isoDate: string)
    | RecomputeFromGross
    | RecoveredCurrency(code: string)
    | ExtractedSkonto(percent: nat, days: nat)
    | MappedFreight(line: nat, description: string)
    | PossibleDuplicate(duplicateId: string)

  /** The rationale sentences of a decision, one variant per sentence. */
  datatype Reason =
    | AppliedLabelMapping
    | UnexpectedDateFormat
    | UnparsableServiceDate
    | LabelWithoutMemory
    | VatStrategyApplied
    | VatWithoutStrategy
    | CurrencyRecovered(code: string)
    | CurrencyNotFound
    | SkontoStructured
    | KnownSkontoPattern
    | FreightMappingApplied
    | FreightWithoutMapping
    | DuplicateDetected(duplicateId: string)
    | AutoAccepted
    | ReviewRequired

  datatype DecisionResult = DecisionResult(
    normalizedInvoice: Fields,
    proposedCorrections: seq<ProposedCorrection>,
    requiresHumanReview: bool,
    reasoning: seq<Reason>,
    confidenceScore: real,
    memoryUpdates: seq<string>,
    auditTrail: seq<AuditEntry>)

  datatype FieldCorrection = FieldCorrection(field: string, fromValue: Value, toValue: Value, reason: string)

  datatype HumanCorrection = HumanCorrection(
    invoiceId: string,
    vendor: string,
    corrections: seq<FieldCorrection>,
    finalDecision: string)

  /** What a learning handler reports for one rule: the memory id it
      reinforced or created, and the value the correction taught (the
      currency messages name it; after a reinforcement the row itself keeps
      the value it had). */
  datatype Update = Reinforced(id: nat, rule: Rule, value: MemoryValue) | Created(id: nat, rule: Rule, value: MemoryValue)
}
