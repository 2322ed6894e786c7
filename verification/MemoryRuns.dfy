/** What the customer memory keeps over whole runs: one active row for each slot, holding what was
    last remembered there. */
module MemoryRuns {
  import opened Domain
  import opened Memory

  ghost predicate Unique(rows: seq<Record>) {
    forall i, j | 0 <= i < j < |rows| && rows[i].status == Active && rows[j].status == Active :: rows[i].slot != rows[j].slot
  }

  ghost predicate Holds(rows: seq<Record>, slot: Slot) {
    exists i :: 0 <= i < |rows| && IsActive(rows[i], slot)
  }

  /** The active rows are the entries of the map: one row for each. */
  ghost predicate Represents(rows: seq<Record>, facts: map<Slot, string>) {
    && Unique(rows)
    && (forall i | 0 <= i < |rows| && rows[i].status == Active :: rows[i].slot in facts && facts[rows[i].slot] == rows[i].content)
    && forall slot | slot in facts :: Holds(rows, slot)
  }

  // ------------------------------------------------------------------------------- remember and forget

  lemma RetireRefines(rows: seq<Record>, facts: map<Slot, string>, slot: Slot, status: Status, now: real)
    requires Represents(rows, facts) && status != Active
    ensures Represents(Retired(rows, slot, status, now), facts - {slot})
  {
    var after := Retired(rows, slot, status, now);
    forall s | s in facts - {slot} ensures Holds(after, s) {
      var i :| 0 <= i < |rows| && IsActive(rows[i], s);
      assert IsActive(after[i], s);
    }
  }

  /** A new row refines an insertion when the slot was free. */
  lemma AppendRefines(rows: seq<Record>, facts: map<Slot, string>, r: Record)
    requires Represents(rows, facts) && r.status == Active && r.slot !in facts
    ensures Represents(rows + [r], facts[r.slot := r.content])
  {
    var after := rows + [r];
    forall s | s in facts[r.slot := r.content] ensures Holds(after, s) {
      if s == r.slot {
        assert IsActive(after[|rows|], s);
      } else {
        var i :| 0 <= i < |rows| && IsActive(rows[i], s);
        assert IsActive(after[i], s);
      }
    }
  }

  /** With one row for each slot, a refresh changes one row only, and neither content nor expiry of
      any. */
  lemma RefreshRefines(rows: seq<Record>, after: seq<Record>, facts: map<Slot, string>, id: nat, slot: Slot, content: string,
                       confidence: real, now: real)
    requires Represents(rows, facts) && RefreshedAt(rows, after, id, slot, content, confidence, now)
    ensures Represents(after, facts[slot := content]) && facts[slot := content] == facts
    ensures after == rows[id := rows[id].(updatedAt := now, confidence := Max(rows[id].confidence, confidence))]
  {
    forall i | 0 <= i < |rows| && i != id ensures after[i] == rows[i] {
      assert !IsActive(rows[i], slot);
    }
    assert after == rows[id := after[id]];
    forall s | s in facts ensures Holds(after, s) {
      var i :| 0 <= i < |rows| && IsActive(rows[i], s);
      assert IsActive(after[i], s);
    }
  }

  // ------------------------------------------------------------------------------- compaction

  /** The newest of the first `n` rows that are active at the slot. */
  lemma {:induction false} NewestExists(rows: seq<Record>, slot: Slot, n: nat) returns (best: nat)
    requires n <= |rows| && exists i :: 0 <= i < n && IsActive(rows[i], slot)
    ensures best < n && IsActive(rows[best], slot)
    ensures forall j: nat | j < n && IsActive(rows[j], slot) && j != best :: Newer(rows, best, j)
  {
    if exists i :: 0 <= i < n - 1 && IsActive(rows[i], slot) {
      best := NewestExists(rows, slot, n - 1);
      if IsActive(rows[n - 1], slot) && Newer(rows, n - 1, best) {
        best := n - 1;
      }
    } else {
      best := n - 1;
    }
  }

  /** From any state, compaction keeps of each slot the one active row with the greatest time of
      update and, within that, the greatest id; that row is left untouched. No slot is lost. */
  lemma CompactionKeepsNewest(rows: seq<Record>, tenant: string, customer: int, now: real, slot: Slot) returns (best: nat)
    requires slot.tenant == tenant && slot.customer == customer && Holds(rows, slot)
    ensures best < |rows| && IsActive(rows[best], slot)
    ensures forall j: nat | j < |rows| && IsActive(rows[j], slot) && j != best :: Newer(rows, best, j)
    ensures forall j: nat | j < |rows| :: IsActive(Compacted(rows, tenant, customer, now)[j], slot) <==> j == best
    ensures Compacted(rows, tenant, customer, now)[best] == rows[best]
  {
    best := NewestExists(rows, slot, |rows|);
    var after := Compacted(rows, tenant, customer, now);
    forall j: nat | j < |rows| ensures IsActive(after[j], slot) <==> j == best {
      if IsActive(rows[j], slot) && j != best {
        assert Newer(rows, best, j) && IsActive(rows[best], rows[j].slot);
      }
    }
  }

  /** Rows of other tenants and customers, and rows that are not active, are left alone; afterwards
      the scope has one active row for each slot. */
  lemma CompactionIsConfined(rows: seq<Record>, tenant: string, customer: int, now: real)
    ensures var after := Compacted(rows, tenant, customer, now);
            && (forall i | 0 <= i < |rows| && !InScope(rows[i], tenant, customer) :: after[i] == rows[i])
            && (forall i, j | 0 <= i < j < |rows| && InScope(after[i], tenant, customer) && InScope(after[j], tenant, customer) ::
                  after[i].slot != after[j].slot)
  {
    var after := Compacted(rows, tenant, customer, now);
    forall i, j | 0 <= i < j < |rows| && InScope(after[i], tenant, customer) && InScope(after[j], tenant, customer)
      ensures after[i].slot != after[j].slot
    {
      assert Newer(rows, i, j) || Newer(rows, j, i);
      assert rows[i].slot == rows[j].slot ==> IsActive(rows[i], rows[j].slot) && IsActive(rows[j], rows[i].slot);
    }
  }

  /** With one active row for each slot, compaction has nothing to do. */
  lemma CompactionIsIdle(rows: seq<Record>, tenant: string, customer: int, now: real)
    requires Unique(rows)
    ensures Compacted(rows, tenant, customer, now) == rows
  {
    assert forall i | 0 <= i < |rows| && InScope(rows[i], tenant, customer) :: !Beaten(rows, i);
  }

  // ------------------------------------------------------------------------------- runs

  datatype Operation =
    | Remember(tenant: string, customer: int, judged: Judgement, retention: Retention, now: real)
    | Forget(slot: Slot, now: real)
    | Compact(tenant: string, customer: int, now: real)

  /** What an operation means for the facts: only a judgement that allows it, in a tenant, is kept. */
  function Meant(enabled: bool, facts: map<Slot, string>, op: Operation): map<Slot, string> {
    if !enabled then facts
    else match op
      case Remember(tenant, customer, judged, retention, _) =>
        if retention == NoStore || judged.Refused? || Blank(tenant) then facts
        else facts[Slot(tenant, customer, judged.key) := judged.content]
      case Forget(slot, _) => if Blank(slot.tenant) then facts else facts - {slot}
      case Compact(_, _, _) => facts
  }

  function Meaning(enabled: bool, ops: seq<Operation>): map<Slot, string> {
    if ops == [] then map[] else Meant(enabled, Meaning(enabled, ops[..|ops| - 1]), ops[|ops| - 1])
  }

  method Perform(service: MemoryService, op: Operation, ghost facts: map<Slot, string>)
    requires Represents(service.records, facts)
    modifies service
    ensures Represents(service.records, Meant(service.enabled, facts, op))
    ensures op.Compact? ==> service.records == old(service.records)
  {
    ghost var before := service.records;
    match op
    case Remember(tenant, customer, judged, retention, now) =>
      var outcome := service.Remember(tenant, customer, judged, retention, now);
      if outcome.Deduplicated? {
        RefreshRefines(before, service.records, facts, outcome.id, Slot(tenant, customer, judged.key), judged.content, judged.confidence, now);
      } else if outcome.Persisted? {
        var slot := Slot(tenant, customer, judged.key);
        RetireRefines(before, facts, slot, Superseded, now);
        var added := service.records[|before|];
        AppendRefines(Retired(before, slot, Superseded, now), facts - {slot}, added);
        assert (facts - {slot})[slot := judged.content] == facts[slot := judged.content];
      }
    case Forget(slot, now) =>
      var outcome := service.Forget(slot, now);
      RetireRefines(before, facts, slot, Deleted, now);
    case Compact(tenant, customer, now) =>
      var compacted := service.Compact(tenant, customer, now);
      CompactionIsIdle(before, tenant, customer, now);
  }

  /** Over every sequential run from an empty table each slot has at most one active row, its
      content is what was last remembered there and not forgotten since, and compaction never finds
      anything to do. */
  method RunMemory(service: MemoryService, ops: seq<Operation>)
    requires service.records == []
    modifies service
    ensures Represents(service.records, Meaning(service.enabled, ops))
  {
    for n := 0 to |ops|
      invariant Represents(service.records, Meaning(service.enabled, ops[..n]))
    {
      assert ops[..n + 1][..n] == ops[..n];
      Perform(service, ops[n], Meaning(service.enabled, ops[..n]));
    }
    assert ops[..|ops|] == ops;
  }
}
