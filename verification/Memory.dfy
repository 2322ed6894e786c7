/** The customer memory: what is remembered, superseded, forgotten and compacted, and the map from
    slots to contents that all of it amounts to (memory/service.py, memory/compaction.py). */
module Memory {
  import opened Domain

  // ------------------------------------------------------------------------------- the rows

  datatype Status = Active | Superseded | Deleted

  datatype Slot = Slot(tenant: string, customer: int, key: string)

  /** A row; its id is its place in the table. Time is measured in days. */
  datatype Record = Record(slot: Slot, content: string, confidence: real, createdAt: real, updatedAt: real,
                           expiresAt: Option<real>, status: Status)

  datatype Retention = Standard | Short | NoStore

  /** What `evaluate_candidate` makes of a candidate. */
  datatype Judgement =
    | Refused(why: string)
    | Allowed(key: string, content: string, confidence: real, shortLived: bool, retention: Retention)

  datatype Outcome =
    | Disabled | RetentionIsNoStore | PolicyRefused(why: string) | TenantMissing
    | Deduplicated(id: nat) | Persisted(id: nat)
    | NotFound | Forgotten(count: nat)

  predicate IsActive(r: Record, slot: Slot) {
    r.status == Active && r.slot == slot
  }

  predicate Blank(tenant: string) {
    forall c | c in tenant :: c in {' ', '\t', '\n', '\r'}
  }

  function Max(a: real, b: real): real { if a >= b then a else b }

  function Retire(r: Record, status: Status, now: real): Record {
    r.(status := status, updatedAt := now)
  }

  /** The active rows of the slot get the status; no other row changes. */
  function Retired(rows: seq<Record>, slot: Slot, status: Status, now: real): (r: seq<Record>) {
    seq(|rows|, i requires 0 <= i < |rows| => if IsActive(rows[i], slot) then Retire(rows[i], status, now) else rows[i])
  }

  // ------------------------------------------------------------------------------- remember

  ghost predicate Knows(rows: seq<Record>, slot: Slot, content: string) {
    exists i :: 0 <= i < |rows| && IsActive(rows[i], slot) && rows[i].content == content
  }

  /** A row with the same content is refreshed, but for its expiry; rows seen before it are superseded. */
  ghost predicate RefreshedAt(rows: seq<Record>, after: seq<Record>, id: nat, slot: Slot, content: string, confidence: real, now: real) {
    && |after| == |rows| && id < |rows| && IsActive(rows[id], slot) && rows[id].content == content
    && after[id] == rows[id].(updatedAt := now, confidence := Max(rows[id].confidence, confidence))
    && forall i | 0 <= i < |rows| && i != id :: after[i] == rows[i] || SupersededAt(rows, after, i, slot, content, now)
  }

  ghost predicate SupersededAt(rows: seq<Record>, after: seq<Record>, i: nat, slot: Slot, content: string, now: real)
    requires i < |rows| == |after|
  {
    IsActive(rows[i], slot) && rows[i].content != content && after[i] == Retire(rows[i], Superseded, now)
  }

  // ------------------------------------------------------------------------------- compaction

  predicate InScope(r: Record, tenant: string, customer: int) {
    r.status == Active && r.slot.tenant == tenant && r.slot.customer == customer
  }

  /** Row `i` comes before row `j` when the newest come first. */
  predicate Newer(rows: seq<Record>, i: nat, j: nat)
    requires i < |rows| && j < |rows|
  {
    rows[i].updatedAt > rows[j].updatedAt || (rows[i].updatedAt == rows[j].updatedAt && i > j)
  }

  /** A newer active row has the same slot. */
  ghost predicate Beaten(rows: seq<Record>, i: nat)
    requires i < |rows|
  {
    exists j: nat :: j < |rows| && IsActive(rows[j], rows[i].slot) && Newer(rows, j, i)
  }

  ghost predicate Drops(rows: seq<Record>, i: nat, tenant: string, customer: int)
    requires i < |rows|
  {
    InScope(rows[i], tenant, customer) && Beaten(rows, i)
  }

  ghost function Compacted(rows: seq<Record>, tenant: string, customer: int, now: real): seq<Record> {
    seq(|rows|, i requires 0 <= i < |rows| =>
      if Drops(rows, i, tenant, customer) then Retire(rows[i], Superseded, now) else rows[i])
  }

  ghost function ScopeIds(rows: seq<Record>, tenant: string, customer: int): set<nat> {
    set i: nat | i < |rows| && InScope(rows[i], tenant, customer)
  }

  ghost function ScopeKeys(rows: seq<Record>, tenant: string, customer: int): set<string> {
    set i: nat | i < |rows| && InScope(rows[i], tenant, customer) :: rows[i].slot.key
  }

  ghost predicate InRange(rows: seq<Record>, ids: seq<nat>) {
    forall a | 0 <= a < |ids| :: ids[a] < |rows|
  }

  ghost predicate NewestFirst(rows: seq<Record>, ids: seq<nat>) {
    && InRange(rows, ids)
    && forall a, b | 0 <= a < b < |ids| :: Newer(rows, ids[a], ids[b])
  }

  function InsertNewest(rows: seq<Record>, id: nat, ids: seq<nat>): (r: seq<nat>)
    requires id < |rows| && id !in ids && NewestFirst(rows, ids)
    ensures NewestFirst(rows, r) && forall x :: x in r <==> x == id || x in ids
  {
    if ids == [] then [id]
    else if Newer(rows, id, ids[0]) then [id] + ids
    else
      var rest := InsertNewest(rows, id, ids[1..]);
      assert forall x :: x in ids <==> x == ids[0] || x in ids[1..];
      assert forall a | 0 <= a < |rest| :: rest[a] in rest && Newer(rows, ids[0], rest[a]);
      [ids[0]] + rest
  }

  /** The rows in scope, newest first: the query of `active_for_customer`, and the order in which
      compaction sorts again what the query returns. */
  function NewestInScope(rows: seq<Record>, tenant: string, customer: int, n: nat): (ids: seq<nat>)
    requires n <= |rows|
    ensures NewestFirst(rows, ids)
    ensures forall x: nat :: x in ids <==> x < n && InScope(rows[x], tenant, customer)
  {
    if n == 0 then []
    else
      var ids := NewestInScope(rows, tenant, customer, n - 1);
      if InScope(rows[n - 1], tenant, customer) then InsertNewest(rows, n - 1, ids) else ids
  }

  function IdSet(ids: seq<nat>): set<nat> {
    set id | id in ids
  }

  lemma {:induction false} DistinctCount(ids: seq<nat>)
    requires forall a, b | 0 <= a < b < |ids| :: ids[a] != ids[b]
    ensures |IdSet(ids)| == |ids|
  {
    if ids == [] {
      assert IdSet(ids) == {};
    } else {
      var front, last := ids[..|ids| - 1], ids[|ids| - 1];
      DistinctCount(front);
      assert forall a | 0 <= a < |front| :: front[a] == ids[a];
      assert last !in IdSet(front);
      assert IdSet(ids) == IdSet(front) + {last};
    }
  }

  /** In the sorted list, a row is beaten exactly when its key stands earlier. */
  lemma BeatenExact(rows: seq<Record>, tenant: string, customer: int, ids: seq<nat>, n: nat)
    requires NewestFirst(rows, ids) && n < |ids|
    requires forall x: nat :: x in ids <==> x < |rows| && InScope(rows[x], tenant, customer)
    ensures Beaten(rows, ids[n]) <==> exists m :: 0 <= m < n && rows[ids[m]].slot.key == rows[ids[n]].slot.key
  {
    var id := ids[n];
    assert id in ids;
    if Beaten(rows, id) {
      var j: nat :| j < |rows| && IsActive(rows[j], rows[id].slot) && Newer(rows, j, id);
      assert j in ids;
      var m :| 0 <= m < |ids| && ids[m] == j;
      assert m < n;
    }
    if m :| 0 <= m < n && rows[ids[m]].slot.key == rows[id].slot.key {
      assert ids[m] in ids;
      assert Newer(rows, ids[m], id) && IsActive(rows[ids[m]], rows[id].slot);
    }
  }

  // ------------------------------------------------------------------------------- the service

  class MemoryService {
    const enabled: bool
    const defaultTtlDays: int
    const supportTtlDays: int
    var records: seq<Record>

    constructor (enabled: bool, defaultTtlDays: int, supportTtlDays: int)
      ensures this.enabled == enabled && this.defaultTtlDays == defaultTtlDays && this.supportTtlDays == supportTtlDays
      ensures records == []
    {
      this.enabled, this.defaultTtlDays, this.supportTtlDays := enabled, defaultTtlDays, supportTtlDays;
      records := [];
    }

    /** `_expiry_for`. */
    function Expiry(shortLived: bool, retention: Retention, now: real): Option<real> {
      if retention == NoStore then Some(now)
      else if retention == Short || shortLived then Some(now + supportTtlDays as real)
      else if defaultTtlDays > 0 then Some(now + defaultTtlDays as real) else None
    }

    /** `active_by_key`: the active rows of the slot; callers may not rely on their order. */
    method ActiveByKey(slot: Slot) returns (ids: seq<nat>)
      ensures forall id: nat :: id in ids <==> id < |records| && IsActive(records[id], slot)
      ensures forall a, b | 0 <= a < b < |ids| :: ids[a] != ids[b]
    {
      ids := [];
      for i := 0 to |records|
        invariant forall id: nat :: id in ids <==> id < i && IsActive(records[id], slot)
        invariant forall a, b | 0 <= a < b < |ids| :: ids[a] != ids[b]
      {
        if IsActive(records[i], slot) {
          ids := ids + [i];
        }
      }
    }

    /** `remember`: content that the slot already holds refreshes its row; other content takes the
        slot over. */
    method Remember(tenant: string, customer: int, judged: Judgement, retention: Retention, now: real) returns (outcome: Outcome)
      modifies this
      ensures outcome == Disabled <==> !enabled
      ensures outcome == RetentionIsNoStore <==> enabled && retention == NoStore
      ensures outcome.PolicyRefused? <==> enabled && retention != NoStore && judged.Refused?
      ensures outcome == TenantMissing <==> enabled && retention != NoStore && judged.Allowed? && Blank(tenant)
      ensures !outcome.NotFound? && !outcome.Forgotten?
      ensures !outcome.Deduplicated? && !outcome.Persisted? ==> records == old(records)
      ensures outcome.Deduplicated? ==>
                RefreshedAt(old(records), records, outcome.id, Slot(tenant, customer, judged.key), judged.content, judged.confidence, now)
      ensures outcome.Persisted? ==>
                var slot := Slot(tenant, customer, judged.key);
                && !Knows(old(records), slot, judged.content) && outcome.id == |old(records)|
                && records == Retired(old(records), slot, Superseded, now)
                            + [Record(slot, judged.content, judged.confidence, now, now, Expiry(judged.shortLived, judged.retention, now), Active)]
    {
      if !enabled {
        return Disabled;
      }
      if retention == NoStore {
        return RetentionIsNoStore;
      }
      if judged.Refused? {
        return PolicyRefused(judged.why);
      }
      if Blank(tenant) {
        return TenantMissing;
      }
      var slot := Slot(tenant, customer, judged.key);
      var existing := ActiveByKey(slot);
      ghost var before := records;
      for n := 0 to |existing|
        invariant |records| == |before|
        invariant forall i | 0 <= i < |before| ::
                    records[i] == if i in existing[..n] then Retire(before[i], Superseded, now) else before[i]
        invariant forall i: nat | i < |before| && i in existing[..n] :: before[i].content != judged.content
      {
        var id := existing[n];
        assert id in existing && id !in existing[..n];
        assert existing[..n + 1] == existing[..n] + [id];
        if records[id].content == judged.content {
          records := records[id := records[id].(updatedAt := now, confidence := Max(records[id].confidence, judged.confidence))];
          assert forall i | 0 <= i < |before| && i != id && i in existing[..n] :: SupersededAt(before, records, i, slot, judged.content, now);
          return Deduplicated(id);
        }
        records := records[id := Retire(records[id], Superseded, now)];
      }
      assert existing[..|existing|] == existing;
      assert records == Retired(before, slot, Superseded, now);
      outcome := Persisted(|records|);
      records := records + [Record(slot, judged.content, judged.confidence, now, now, Expiry(judged.shortLived, judged.retention, now), Active)];
    }

    /** `forget`. */
    method Forget(slot: Slot, now: real) returns (outcome: Outcome)
      modifies this
      ensures outcome == Disabled <==> !enabled
      ensures outcome == TenantMissing <==> enabled && Blank(slot.tenant)
      ensures outcome == NotFound <==>
                enabled && !Blank(slot.tenant) && forall i | 0 <= i < |old(records)| :: !IsActive(old(records)[i], slot)
      ensures outcome in {Disabled, TenantMissing, NotFound} || outcome.Forgotten?
      ensures outcome.Forgotten? ==> outcome.count == |set i: nat | i < |old(records)| && IsActive(old(records)[i], slot)|
      ensures records == if enabled && !Blank(slot.tenant) then Retired(old(records), slot, Deleted, now) else old(records)
    {
      if !enabled {
        return Disabled;
      }
      if Blank(slot.tenant) {
        return TenantMissing;
      }
      var ids := ActiveByKey(slot);
      ghost var before := records;
      if ids == [] {
        assert forall i | 0 <= i < |before| :: i !in ids;
        assert records == Retired(before, slot, Deleted, now);
        return NotFound;
      }
      for n := 0 to |ids|
        invariant |records| == |before|
        invariant forall i | 0 <= i < |before| ::
                    records[i] == if i in ids[..n] then Retire(before[i], Deleted, now) else before[i]
      {
        assert ids[n] in ids && ids[..n + 1] == ids[..n] + [ids[n]];
        records := records[ids[n] := Retire(records[ids[n]], Deleted, now)];
      }
      assert ids[..|ids|] == ids && ids[0] in ids;
      assert records == Retired(before, slot, Deleted, now);
      DistinctCount(ids);
      assert IdSet(ids) == (set i: nat | i < |before| && IsActive(before[i], slot));
      outcome := Forgotten(|ids|);
    }

    /** `compact_customer_memory`: of the active rows of each slot the newest stays as it is and the
        others are superseded; the result is how many. A blank tenant changes nothing. */
    method Compact(tenant: string, customer: int, now: real) returns (compacted: Option<nat>)
      modifies this
      ensures compacted == None <==> Blank(tenant)
      ensures compacted == None ==> records == old(records)
      ensures compacted.Some? ==> records == Compacted(old(records), tenant, customer, now)
      ensures compacted.Some? ==> compacted.value + |ScopeKeys(old(records), tenant, customer)| == |ScopeIds(old(records), tenant, customer)|
    {
      if Blank(tenant) {
        return None;
      }
      ghost var before := records;
      var ids := NewestInScope(records, tenant, customer, |records|);
      var kept, count := {}, 0;
      for n := 0 to |ids|
        invariant PartlyCompacted(before, records, Compacted(before, tenant, customer, now), ids[..n])
        invariant kept == KeysAt(before, ids[..n]) && count + |kept| == n
      {
        ghost var was, had := records, kept;
        var id := ids[n];
        var key := records[id].slot.key;
        if key in kept {
          records := records[id := Retire(records[id], Superseded, now)];
          count := count + 1;
        } else {
          kept := kept + {key};
        }
        CompactNext(before, was, records, tenant, customer, now, ids, n, had);
      }
      AllCompacted(before, records, tenant, customer, now, ids);
      compacted := Some(count);
    }
  }

  /** One turn of the loop of `Compact`. */
  lemma CompactNext(before: seq<Record>, rows: seq<Record>, next: seq<Record>, tenant: string, customer: int, now: real,
                    ids: seq<nat>, n: nat, kept: set<string>)
    requires NewestFirst(before, ids) && n < |ids|
    requires forall x: nat :: x in ids <==> x < |before| && InScope(before[x], tenant, customer)
    requires PartlyCompacted(before, rows, Compacted(before, tenant, customer, now), ids[..n])
    requires kept == KeysAt(before, ids[..n])
    requires next == if rows[ids[n]].slot.key in kept then rows[ids[n] := Retire(rows[ids[n]], Superseded, now)] else rows
    ensures PartlyCompacted(before, next, Compacted(before, tenant, customer, now), ids[..n + 1])
    ensures rows[ids[n]].slot.key in kept ==> KeysAt(before, ids[..n + 1]) == kept
    ensures rows[ids[n]].slot.key !in kept ==> KeysAt(before, ids[..n + 1]) == kept + {rows[ids[n]].slot.key}
  {
    CompactStep(before, tenant, customer, ids, n);
    assert rows[ids[n]] == before[ids[n]];
    var after := Compacted(before, tenant, customer, now);
    assert next == rows[ids[n] := after[ids[n]]];
    PartlyOneMore(before, rows, next, after, ids[..n], ids[n]);
  }

  /** The rows of `ids` are as compaction leaves them; the others as it found them. */
  ghost predicate PartlyCompacted(before: seq<Record>, rows: seq<Record>, after: seq<Record>, ids: seq<nat>) {
    && |rows| == |before| == |after|
    && InRange(before, ids)
    && forall i: nat | i < |before| :: rows[i] == if i in ids then after[i] else before[i]
  }

  lemma PartlyOneMore(before: seq<Record>, rows: seq<Record>, next: seq<Record>, after: seq<Record>, ids: seq<nat>, id: nat)
    requires PartlyCompacted(before, rows, after, ids) && id < |before|
    requires next == rows[id := after[id]]
    ensures PartlyCompacted(before, next, after, ids + [id])
  {
  }

  lemma AllCompacted(before: seq<Record>, rows: seq<Record>, tenant: string, customer: int, now: real, ids: seq<nat>)
    requires PartlyCompacted(before, rows, Compacted(before, tenant, customer, now), ids[..|ids|])
    requires NewestFirst(before, ids)
    requires forall x: nat :: x in ids <==> x < |before| && InScope(before[x], tenant, customer)
    ensures rows == Compacted(before, tenant, customer, now)
    ensures KeysAt(before, ids[..|ids|]) == ScopeKeys(before, tenant, customer)
    ensures |ids| == |ScopeIds(before, tenant, customer)|
  {
    assert ids[..|ids|] == ids;
    DistinctCount(ids);
    assert IdSet(ids) == ScopeIds(before, tenant, customer);
  }

  lemma CompactStep(rows: seq<Record>, tenant: string, customer: int, ids: seq<nat>, n: nat)
    requires NewestFirst(rows, ids) && n < |ids|
    requires forall x: nat :: x in ids <==> x < |rows| && InScope(rows[x], tenant, customer)
    ensures ids[n] < |rows| && ids[n] !in ids[..n] && ids[..n + 1] == ids[..n] + [ids[n]]
    ensures InRange(rows, ids[..n]) && InRange(rows, ids[..n + 1])
    ensures rows[ids[n]].slot.key in KeysAt(rows, ids[..n]) <==> Drops(rows, ids[n], tenant, customer)
    ensures KeysAt(rows, ids[..n + 1]) == KeysAt(rows, ids[..n]) + {rows[ids[n]].slot.key}
  {
    assert ids[n] in ids;
    BeatenExact(rows, tenant, customer, ids, n);
    KeyStandsEarlier(rows, ids, n);
  }

  ghost function KeysAt(rows: seq<Record>, ids: seq<nat>): set<string>
    requires InRange(rows, ids)
  {
    set id | id in ids :: rows[id].slot.key
  }

  lemma KeyStandsEarlier(rows: seq<Record>, ids: seq<nat>, n: nat)
    requires NewestFirst(rows, ids) && n < |ids|
    ensures InRange(rows, ids[..n]) && InRange(rows, ids[..n + 1])
    ensures rows[ids[n]].slot.key in KeysAt(rows, ids[..n]) <==> exists m :: 0 <= m < n && rows[ids[m]].slot.key == rows[ids[n]].slot.key
    ensures KeysAt(rows, ids[..n + 1]) == KeysAt(rows, ids[..n]) + {rows[ids[n]].slot.key}
  {
    assert ids[..n + 1] == ids[..n] + [ids[n]];
    if m :| 0 <= m < n && rows[ids[m]].slot.key == rows[ids[n]].slot.key {
      assert ids[m] in ids[..n];
    }
  }
}
