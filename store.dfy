/** The memory store (src/memoryStore.ts): three tables behind SQL, kept
    here as sequences in insertion order. Memories have an auto-increment
    id; invoice metadata is keyed by invoice id; the audit log only grows. */
module Store {
  import opened Models

  datatype InvoiceRow = InvoiceRow(id: string, vendorName: string, invoiceNumber: string, invoiceDate: Option<int>)

  datatype AuditRow = AuditRow(invoiceId: string, step: AuditStep, timestamp: string, details: AuditDetail)

  /** The contents of the three tables and the next id AUTOINCREMENT hands out. */
  datatype Tables = Tables(memories: seq<MemoryEntry>, nextId: nat, invoices: seq<InvoiceRow>, audit: seq<AuditRow>)

  /** The counter is positive; memory ids are positive, below the counter and increasing in table
      order (so distinct); invoice ids are distinct (the primary key). */
  ghost predicate ValidTables(t: Tables) {
    && 0 < t.nextId
    && (forall i, j :: 0 <= i < j < |t.memories| ==> t.memories[i].id < t.memories[j].id)
    && (forall i :: 0 <= i < |t.memories| ==> 0 < t.memories[i].id < t.nextId)
    && (forall i, j :: 0 <= i < j < |t.invoices| ==> t.invoices[i].id != t.invoices[j].id)
  }

  /** Every stored confidence lies in [0, 1]. */
  ghost predicate ConfidencesInRange(rows: seq<MemoryEntry>) {
    forall i :: 0 <= i < |rows| ==> 0.0 <= rows[i].confidence <= 1.0
  }

  /** `Math.max(0, Math.min(1, x))` */
  function Clamp01(x: real): (r: real)
    ensures 0.0 <= r <= 1.0
    ensures 0.0 <= x <= 1.0 ==> r == x
    ensures x > 1.0 ==> r == 1.0
    ensures x < 0.0 ==> r == 0.0
  {
    Max(0.0, Min(1.0, x))
  }

  /** The row INSERT INTO memories writes for entry under the given id:
      the entry's columns, createdAt defaulting to now, updatedAt = now. */
  function Inserted(entry: NewMemory, id: nat, now: string): MemoryEntry {
    MemoryEntry(id, entry.vendorName, entry.kind, entry.key, entry.value, entry.confidence,
                entry.positiveReinforcements, entry.negativeReinforcements, entry.lastUsedAt,
                entry.createdAt.GetOr(now), now)
  }

  /** The table after `UPDATE memories SET confidence, positiveReinforcements,
      negativeReinforcements, updatedAt WHERE id = mem.id`. */
  function Updated(rows: seq<MemoryEntry>, mem: MemoryEntry, now: string): seq<MemoryEntry> {
    seq(|rows|, i requires 0 <= i < |rows| =>
      if rows[i].id == mem.id then
        rows[i].(confidence := Clamp01(mem.confidence),
                 positiveReinforcements := mem.positiveReinforcements,
                 negativeReinforcements := mem.negativeReinforcements,
                 updatedAt := now)
      else rows[i])
  }

  /** `(vendorName = ? OR vendorName IS NULL) AND confidence >= ?` */
  predicate Visible(m: MemoryEntry, vendor: string, minConfidence: real) {
    (m.vendorName == Some(vendor) || m.vendorName == None) && m.confidence >= minConfidence
  }

  /** The rows of the vendor query, in table order. */
  function SelectMemories(rows: seq<MemoryEntry>, vendor: string, minConfidence: real): (r: seq<MemoryEntry>)
    ensures forall m :: m in r <==> m in rows && Visible(m, vendor, minConfidence)
    ensures |r| <= |rows|
    decreases |rows|
  {
    if rows == [] then []
    else if Visible(rows[0], vendor, minConfidence) then [rows[0]] + SelectMemories(rows[1..], vendor, minConfidence)
    else SelectMemories(rows[1..], vendor, minConfidence)
  }

  /** `vendorName = ? AND invoiceNumber = ? AND ABS(julianday(invoiceDate) -
      julianday(?)) <= 2`; a date SQLite cannot read is NULL and matches nothing. */
  predicate IsDuplicate(row: InvoiceRow, vendor: string, invoiceNumber: string, invoiceDate: Option<int>) {
    && row.vendorName == vendor
    && row.invoiceNumber == invoiceNumber
    && row.invoiceDate.Some? && invoiceDate.Some?
    && -2 <= row.invoiceDate.value - invoiceDate.value <= 2
  }

  /** The position of the first matching row, or |rows|. */
  function FirstDuplicateAt(rows: seq<InvoiceRow>, vendor: string, invoiceNumber: string, invoiceDate: Option<int>): (k: nat)
    ensures k <= |rows|
    ensures k < |rows| ==> IsDuplicate(rows[k], vendor, invoiceNumber, invoiceDate)
    ensures forall j :: 0 <= j < k ==> !IsDuplicate(rows[j], vendor, invoiceNumber, invoiceDate)
    decreases |rows|
  {
    if rows == [] || IsDuplicate(rows[0], vendor, invoiceNumber, invoiceDate) then 0
    else 1 + FirstDuplicateAt(rows[1..], vendor, invoiceNumber, invoiceDate)
  }

  /** `SELECT ... LIMIT 1` over the invoice rows: the first match in table order. */
  function FindDuplicateIn(rows: seq<InvoiceRow>, vendor: string, invoiceNumber: string, invoiceDate: Option<int>): (r: Option<InvoiceRow>)
    ensures r.None? <==> forall row :: row in rows ==> !IsDuplicate(row, vendor, invoiceNumber, invoiceDate)
    ensures r.Some? ==> r.value in rows && IsDuplicate(r.value, vendor, invoiceNumber, invoiceDate)
  {
    var k := FirstDuplicateAt(rows, vendor, invoiceNumber, invoiceDate);
    if k < |rows| then Some(rows[k]) else None
  }

  predicate HasInvoice(rows: seq<InvoiceRow>, id: string) {
    exists i :: 0 <= i < |rows| && rows[i].id == id
  }

  /** `INSERT OR IGNORE INTO invoices`: a row whose id is present already is dropped. */
  function InsertOrIgnore(rows: seq<InvoiceRow>, row: InvoiceRow): seq<InvoiceRow> {
    if HasInvoice(rows, row.id) then rows else rows + [row]
  }

  /** Saving the same invoice id a second time changes nothing. */
  lemma InsertOrIgnoreIdempotent(rows: seq<InvoiceRow>, row: InvoiceRow, again: InvoiceRow)
    requires again.id == row.id
    ensures InsertOrIgnore(InsertOrIgnore(rows, row), again) == InsertOrIgnore(rows, row)
  {
    var r := InsertOrIgnore(rows, row);
    assert r[|r| - 1].id == row.id || HasInvoice(rows, row.id);
  }

  /** INSERT OR IGNORE keeps invoice ids distinct, and the id is present afterwards. */
  lemma InsertOrIgnoreKeepsKey(rows: seq<InvoiceRow>, row: InvoiceRow)
    requires forall i, j :: 0 <= i < j < |rows| ==> rows[i].id != rows[j].id
    ensures var r := InsertOrIgnore(rows, row);
            (forall i, j :: 0 <= i < j < |r| ==> r[i].id != r[j].id) && HasInvoice(r, row.id)
  {
    var r := InsertOrIgnore(rows, row);
    if !HasInvoice(rows, row.id) {
      assert r[|rows|] == row;
    }
  }

  /** The update leaves the ids where they were, keeps every confidence in
      range, and changes nothing when no row has the id. */
  lemma UpdatedFacts(rows: seq<MemoryEntry>, mem: MemoryEntry, now: string)
    ensures |Updated(rows, mem, now)| == |rows|
    ensures forall i :: 0 <= i < |rows| ==> Updated(rows, mem, now)[i].id == rows[i].id
    ensures ConfidencesInRange(rows) ==> ConfidencesInRange(Updated(rows, mem, now))
    ensures (forall i :: 0 <= i < |rows| ==> rows[i].id != mem.id) ==> Updated(rows, mem, now) == rows
  {
  }

  /** The memory tables after an update of a valid table are valid. */
  lemma UpdatedValid(t: Tables, mem: MemoryEntry, now: string)
    requires ValidTables(t)
    ensures ValidTables(t.(memories := Updated(t.memories, mem, now)))
  {
    UpdatedFacts(t.memories, mem, now);
  }

  class MemoryStore {
    var memories: seq<MemoryEntry>
    var nextId: nat
    var invoices: seq<InvoiceRow>
    var audit: seq<AuditRow>

    ghost function State(): Tables
      reads this
    {
      Tables(memories, nextId, invoices, audit)
    }

    ghost predicate Valid()
      reads this
    {
      ValidTables(State())
    }

    /** A store over empty tables. */
    constructor ()
      ensures Valid()
      ensures State() == Tables([], 1, [], [])
    {
      memories, nextId, invoices, audit := [], 1, [], [];
    }

    method SaveMemory(entry: NewMemory, now: string) returns (saved: MemoryEntry)
      requires Valid()
      modifies this
      ensures Valid()
      ensures saved == Inserted(entry, old(nextId), now)
      ensures forall m :: m in old(memories) ==> m.id != saved.id
      ensures memories == old(memories) + [saved] && nextId == old(nextId) + 1
      ensures invoices == old(invoices) && audit == old(audit)
    {
      saved := Inserted(entry, nextId, now);
      ghost var before := memories;
      memories := memories + [saved];
      nextId := nextId + 1;
      assert forall i :: 0 <= i < |before| ==> memories[i] == before[i] && memories[i].id < saved.id;
      assert memories[|before|] == saved;
    }

    method UpdateMemory(mem: MemoryEntry, now: string) returns (saved: MemoryEntry)
      requires Valid()
      modifies this
      ensures Valid()
      ensures saved == mem.(confidence := Clamp01(mem.confidence))
      ensures memories == Updated(old(memories), mem, now)
      ensures nextId == old(nextId) && invoices == old(invoices) && audit == old(audit)
    {
      UpdatedValid(State(), mem, now);
      var nextConfidence := Max(0.0, Min(1.0, mem.confidence));
      memories := Updated(memories, mem, now);
      saved := mem.(confidence := nextConfidence);
    }

    /** The memories visible to the vendor with at least the given confidence. */
    function GetVendorMemories(vendorName: string, minConfidence: real): (r: seq<MemoryEntry>)
      reads this
      ensures forall m :: m in r <==> m in memories && Visible(m, vendorName, minConfidence)
    {
      SelectMemories(memories, vendorName, minConfidence)
    }

    method RecordAudit(invoiceId: string, entry: AuditEntry)
      requires Valid()
      modifies this
      ensures Valid()
      ensures audit == old(audit) + [AuditRow(invoiceId, entry.step, entry.timestamp, entry.details)]
      ensures memories == old(memories) && nextId == old(nextId) && invoices == old(invoices)
    {
      audit := audit + [AuditRow(invoiceId, entry.step, entry.timestamp, entry.details)];
    }

    method SaveInvoiceMeta(invoiceId: string, vendor: string, invoiceNumber: string, invoiceDate: Option<int>)
      requires Valid()
      modifies this
      ensures Valid()
      ensures invoices == InsertOrIgnore(old(invoices), InvoiceRow(invoiceId, vendor, invoiceNumber, invoiceDate))
      ensures HasInvoice(invoices, invoiceId)
      ensures memories == old(memories) && nextId == old(nextId) && audit == old(audit)
    {
      InsertOrIgnoreKeepsKey(invoices, InvoiceRow(invoiceId, vendor, invoiceNumber, invoiceDate));
      invoices := InsertOrIgnore(invoices, InvoiceRow(invoiceId, vendor, invoiceNumber, invoiceDate));
    }

    /** Another invoice of the vendor with the number, dated within two days. */
    function FindDuplicate(vendor: string, invoiceNumber: string, invoiceDate: Option<int>): (r: Option<InvoiceRow>)
      reads this
      ensures r.None? <==> forall row :: row in invoices ==> !IsDuplicate(row, vendor, invoiceNumber, invoiceDate)
      ensures r.Some? ==> r.value in invoices && IsDuplicate(r.value, vendor, invoiceNumber, invoiceDate)
    {
      FindDuplicateIn(invoices, vendor, invoiceNumber, invoiceDate)
    }
  }
}
