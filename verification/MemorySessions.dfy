/** The customer memory under several sessions at once: every operation reads the active rows first and
    commits its changes to them later, column by column, with other commits in between
    (memory/service.py, memory/compaction.py). */
module MemorySessions {
  import opened Domain
  import opened Memory
  import opened MemoryRuns

  // ------------------------------------------------------------------------------- read and write

  /** What a call decides on what it has read: rows to mark, a row to refresh, a row to add. */
  datatype Change = Change(
    marked: set<nat>, status: Status, now: real, refreshed: Option<nat>, confidence: real, added: Option<Record>)

  /** The calls that the memory policy lets through. */
  datatype Call =
    | Remembers(slot: Slot, content: string, confidence: real, expiresAt: Option<real>, now: real)
    | Forgets(slot: Slot, now: real)
    | Compacts(tenant: string, customer: int, now: real)

  function ActiveIds(rows: seq<Record>, slot: Slot): set<nat> {
    set i: nat | i < |rows| && IsActive(rows[i], slot)
  }

  function NewRow(call: Call): Record
    requires call.Remembers?
  {
    Record(call.slot, call.content, call.confidence, call.now, call.now, call.expiresAt, Active)
  }

  /** What the call decides on these rows. The query of `remember` has no order, so which rows it meets
      before one of the same content is open. */
  ghost predicate Planned(rows: seq<Record>, call: Call, c: Change) {
    match call
    case Remembers(slot, content, confidence, _, now) =>
      && c.status == Superseded && c.now == now
      && (if Knows(rows, slot, content) then
            && c.added == None && c.refreshed.Some?
            && c.refreshed.value in ActiveIds(rows, slot) && rows[c.refreshed.value].content == content
            && c.confidence == Max(rows[c.refreshed.value].confidence, confidence)
            && forall i | i in c.marked :: i in ActiveIds(rows, slot) && rows[i].content != content
          else c.marked == ActiveIds(rows, slot) && c.refreshed == None && c.added == Some(NewRow(call)))
    case Forgets(slot, now) =>
      c.marked == ActiveIds(rows, slot) && c.status == Deleted && c.now == now && c.refreshed == None && c.added == None
    case Compacts(tenant, customer, now) =>
      && c.marked == (set i: nat | i < |rows| && Drops(rows, i, tenant, customer))
      && c.status == Superseded && c.now == now && c.refreshed == None && c.added == None
  }

  function Touched(r: Record, c: Change, i: nat): Record {
    if i in c.marked then Retire(r, c.status, c.now)
    else if c.refreshed == Some(i) then r.(updatedAt := c.now, confidence := c.confidence)
    else r
  }

  /** The commit: the changed columns of the rows that were read, whatever they are by now, and the new
      row. */
  function Applied(rows: seq<Record>, c: Change): seq<Record> {
    var touched := seq(|rows|, i requires 0 <= i < |rows| => Touched(rows[i], c, i));
    if c.added.Some? then touched + [c.added.value] else touched
  }

  /** With nothing in between, reading and committing is what the service does in one go. */
  lemma UndisturbedIsService(rows: seq<Record>, call: Call, c: Change)
    requires Planned(rows, call, c)
    ensures match call
            case Remembers(slot, content, confidence, _, now) =>
              if Knows(rows, slot, content) then
                RefreshedAt(rows, Applied(rows, c), c.refreshed.value, slot, content, confidence, now)
              else Applied(rows, c) == Retired(rows, slot, Superseded, now) + [NewRow(call)]
            case Forgets(slot, now) => Applied(rows, c) == Retired(rows, slot, Deleted, now)
            case Compacts(tenant, customer, now) => Applied(rows, c) == Compacted(rows, tenant, customer, now)
  {
    if call.Remembers? && Knows(rows, call.slot, call.content) {
      var after := Applied(rows, c);
      forall i: nat | i < |rows| && i != c.refreshed.value
        ensures after[i] == rows[i] || SupersededAt(rows, after, i, call.slot, call.content, call.now)
      {
        assert after[i] == Touched(rows[i], c, i);
      }
    }
  }

  // ------------------------------------------------------------------------------- one commit

  /** A row is added over an active one that the call did not know. */
  ghost predicate InsertsOver(rows: seq<Record>, c: Change) {
    c.added.Some? && exists i: nat :: IsUnseen(rows, c, i)
  }

  ghost predicate IsUnseen(rows: seq<Record>, c: Change, i: nat) {
    c.added.Some? && i < |rows| && IsActive(rows[i], c.added.value.slot) && i !in c.marked
  }

  /** A change as some call decided it on at most `n` rows. */
  ghost predicate ChangeOk(c: Change, n: nat) {
    && c.status != Active && (forall i | i in c.marked :: i < n)
    && (c.added.Some? ==> c.added.value.status == Active && c.refreshed == None)
  }

  lemma PlannedOk(rows: seq<Record>, call: Call, c: Change)
    requires Planned(rows, call, c)
    ensures ChangeOk(c, |rows|)
    ensures c.added.Some? ==> forall i: nat | i < |rows| && IsActive(rows[i], c.added.value.slot) :: i in c.marked
  {
  }

  /** The rows that stay keep their slot and are active only if they were. */
  lemma AppliedAt(rows: seq<Record>, c: Change, i: nat)
    requires i < |rows| && c.status != Active
    ensures |Applied(rows, c)| == |rows| + (if c.added.Some? then 1 else 0)
    ensures Applied(rows, c)[i].slot == rows[i].slot
    ensures Applied(rows, c)[i].status == Active <==> rows[i].status == Active && i !in c.marked
  {
    assert Applied(rows, c)[i] == Touched(rows[i], c, i);
  }

  /** A commit keeps one active row in each slot exactly when it adds none over a row it did not know. */
  lemma WriteExact(rows: seq<Record>, c: Change, n: nat)
    requires Unique(rows) && ChangeOk(c, n)
    ensures Unique(Applied(rows, c)) <==> !InsertsOver(rows, c)
  {
    var after := Applied(rows, c);
    forall i: nat | i < |rows| ensures after[i].slot == rows[i].slot && (after[i].status == Active <==> rows[i].status == Active && i !in c.marked) {
      AppliedAt(rows, c, i);
    }
    if InsertsOver(rows, c) {
      var i: nat :| IsUnseen(rows, c, i);
      assert after[i].status == Active && after[|rows|] == c.added.value && after[i].slot == after[|rows|].slot;
    } else {
      forall i, j | 0 <= i < j < |after| && after[i].status == Active && after[j].status == Active
        ensures after[i].slot != after[j].slot
      {
        if j == |rows| {
          assert !IsUnseen(rows, c, i);
        }
      }
    }
  }

  // ------------------------------------------------------------------------------- interleavings

  /** The table, and the sessions that have read and not yet committed. */
  datatype World = World(rows: seq<Record>, open: map<nat, Change>)

  datatype Event =
    | Reads(t: nat, call: Call, change: Change)
    | Commits(t: nat)
    | Loses(t: nat)        // an error, or a lost connection, before the commit

  ghost predicate Next(w: World, e: Event, w': World) {
    match e
    case Reads(t, call, c) => t !in w.open && Planned(w.rows, call, c) && w' == w.(open := w.open[t := c])
    case Commits(t) => t in w.open && w' == World(Applied(w.rows, w.open[t]), w.open - {t})
    case Loses(t) => t in w.open && w' == w.(open := w.open - {t})
  }

  ghost predicate Run(run: seq<World>, events: seq<Event>) {
    && |run| == |events| + 1 && run[0] == World([], map[])
    && forall i | 0 <= i < |events| :: Next(run[i], events[i], run[i + 1])
  }

  ghost predicate OpenOk(w: World) {
    forall t | t in w.open :: ChangeOk(w.open[t], |w.rows|)
  }

  lemma {:induction false} RunOpenOk(run: seq<World>, events: seq<Event>, i: nat)
    requires Run(run, events) && i < |run|
    ensures OpenOk(run[i])
  {
    if i > 0 {
      RunOpenOk(run, events, i - 1);
      StepOpenOk(run[i - 1], events[i - 1], run[i]);
    }
  }

  lemma StepOpenOk(w: World, e: Event, w': World)
    requires OpenOk(w) && Next(w, e, w')
    ensures OpenOk(w') && |w.rows| <= |w'.rows|
  {
    if e.Reads? {
      PlannedOk(w.rows, e.call, e.change);
    }
  }

  /** The i-th event is a commit that adds a row over an active one that its call did not know. */
  ghost predicate Oversteps(run: seq<World>, events: seq<Event>, i: nat)
    requires i < |events| < |run|
  {
    events[i].Commits? && events[i].t in run[i].open && InsertsOver(run[i].rows, run[i].open[events[i].t])
  }

  lemma StepExact(run: seq<World>, events: seq<Event>, i: nat)
    requires Run(run, events) && i < |events| && Unique(run[i].rows)
    ensures Unique(run[i + 1].rows) <==> !Oversteps(run, events, i)
  {
    RunOpenOk(run, events, i);
    assert Next(run[i], events[i], run[i + 1]);
    if events[i].Commits? {
      assert ChangeOk(run[i].open[events[i].t], |run[i].rows|);
      WriteExact(run[i].rows, run[i].open[events[i].t], |run[i].rows|);
    }
  }

  /** Over any interleaving: every slot has at most one active row in all states if and only if no
      commit adds a row over an active one that its call did not know. */
  lemma {:induction false} UniqueExact(run: seq<World>, events: seq<Event>, i: nat)
    requires Run(run, events) && i < |run|
    ensures (forall j | 0 <= j <= i :: Unique(run[j].rows)) <==> (forall j | 0 <= j < i :: !Oversteps(run, events, j))
  {
    if i > 0 {
      UniqueExact(run, events, i - 1);
      if Unique(run[i - 1].rows) {
        StepExact(run, events, i - 1);
      }
    }
  }

  // ------------------------------------------------------------------- what the call cannot know

  /** Rows stay where they are, keep their slot, and never become active again. */
  ghost predicate Keeps(rows: seq<Record>, later: seq<Record>) {
    && |rows| <= |later|
    && forall i: nat | i < |rows| :: later[i].slot == rows[i].slot && (later[i].status == Active ==> rows[i].status == Active)
  }

  lemma StepKeeps(w: World, e: Event, w': World)
    requires OpenOk(w) && Next(w, e, w')
    ensures Keeps(w.rows, w'.rows)
  {
    if e.Commits? {
      forall i: nat | i < |w.rows|
        ensures w'.rows[i].slot == w.rows[i].slot && (w'.rows[i].status == Active ==> w.rows[i].status == Active)
      {
        AppliedAt(w.rows, w.open[e.t], i);
      }
    }
  }

  lemma {:induction false} RunKeepsRows(run: seq<World>, events: seq<Event>, i: nat, j: nat)
    requires Run(run, events) && i <= j < |run|
    ensures Keeps(run[i].rows, run[j].rows)
  {
    if i < j {
      RunKeepsRows(run, events, i, j - 1);
      RunOpenOk(run, events, j - 1);
      StepKeeps(run[j - 1], events[j - 1], run[j]);
    }
  }

  /** Which commit added the row. */
  lemma {:induction false} AddedBy(run: seq<World>, events: seq<Event>, k: nat, j: nat, row: nat) returns (m: nat)
    requires Run(run, events) && k <= j < |run| && |run[k].rows| <= row < |run[j].rows|
    ensures k <= m < j && |run[m].rows| == row && Adds(run, events, m)
  {
    m := j - 1;
    RunKeepsRows(run, events, k, j - 1);
    assert Next(run[m], events[m], run[j]);
    if row < |run[m].rows| {
      m := AddedBy(run, events, k, m, row);
    }
  }

  /** The m-th event commits a new row. */
  ghost predicate Adds(run: seq<World>, events: seq<Event>, m: nat)
    requires m < |events| < |run|
  {
    events[m].Commits? && events[m].t in run[m].open && run[m].open[events[m].t].added.Some?
  }

  /** The row that the m-th event added is active at the slot in state `j`. */
  ghost predicate StillThere(run: seq<World>, m: nat, j: nat, slot: Slot)
    requires m < |run| && j < |run|
  {
    |run[m].rows| < |run[j].rows| && IsActive(run[j].rows[|run[m].rows|], slot)
  }

  lemma {:induction false} StaysOpen(run: seq<World>, events: seq<Event>, k: nat, j: nat)
    requires Run(run, events) && k < j < |run| && events[k].Reads?
    requires forall m | k < m < j :: events[m].t != events[k].t
    ensures events[k].t in run[j].open && run[j].open[events[k].t] == events[k].change
  {
    assert Next(run[j - 1], events[j - 1], run[j]);
    if k < j - 1 {
      StaysOpen(run, events, k, j - 1);
    }
  }

  /** A commit oversteps exactly when, between the read of its call and the commit itself, another
      commit added a row at its slot that is still active. */
  lemma OverstepsExact(run: seq<World>, events: seq<Event>, k: nat, j: nat)
    requires Run(run, events) && k < j < |events| && events[k].Reads? && events[j] == Commits(events[k].t)
    requires forall m | k < m < j :: events[m].t != events[k].t
    requires events[k].change.added.Some?
    ensures Oversteps(run, events, j) <==>
            exists m: nat :: k < m < j && Adds(run, events, m) && StillThere(run, m, j, events[k].change.added.value.slot)
  {
    var c, slot := events[k].change, events[k].change.added.value.slot;
    assert Next(run[k], events[k], run[k + 1]);
    PlannedOk(run[k].rows, events[k].call, c);
    StaysOpen(run, events, k, j);
    RunKeepsRows(run, events, k, j);
    if Oversteps(run, events, j) {
      var row: nat :| IsUnseen(run[j].rows, c, row);
      assert row >= |run[k].rows|;
      var m := AddedBy(run, events, k, j, row);
      assert StillThere(run, m, j, slot);
    }
    if m: nat :| k < m < j && Adds(run, events, m) && StillThere(run, m, j, slot) {
      RunKeepsRows(run, events, k, m);
      assert IsUnseen(run[j].rows, c, |run[m].rows|);
    }
  }

  // ------------------------------------------------------------------------------- an example

  const COLOUR := Slot("acme", 1, "colour")

  const BLUE := Remembers(COLOUR, "blue", 1.0, None, 1.0)
  const GREEN := Remembers(COLOUR, "green", 1.0, None, 2.0)
  const TIDY := Compacts("acme", 1, 3.0)

  function Adding(call: Call): Change
    requires call.Remembers?
  {
    Change({}, Superseded, call.now, None, 0.0, Some(NewRow(call)))
  }

  const TIDYING := Change({0}, Superseded, 3.0, None, 0.0, None)

  const RACE_EVENTS := [Reads(1, BLUE, Adding(BLUE)), Reads(2, GREEN, Adding(GREEN)), Commits(1), Commits(2),
                        Reads(3, TIDY, TIDYING), Commits(3)]

  const RACE :=
    var blue, green := NewRow(BLUE), NewRow(GREEN);
    [World([], map[]),
     World([], map[1 := Adding(BLUE)]),
     World([], map[1 := Adding(BLUE), 2 := Adding(GREEN)]),
     World([blue], map[2 := Adding(GREEN)]),
     World([blue, green], map[]),
     World([blue, green], map[3 := TIDYING]),
     World([Retire(blue, Superseded, 3.0), green], map[])]

  lemma BothRead()
    ensures forall call: Call | call.Remembers? :: Planned([], call, Adding(call))
  {
  }

  lemma TidyingPlanned()
    ensures Planned(RACE[4].rows, TIDY, TIDYING)
  {
    var rows := RACE[4].rows;
    assert IsActive(rows[1], rows[0].slot) && Newer(rows, 1, 0) && !Newer(rows, 0, 1);
    assert Drops(rows, 0, "acme", 1) && !Drops(rows, 1, "acme", 1);
  }

  lemma RaceStep(i: nat)
    requires i < 6
    ensures Next(RACE[i], RACE_EVENTS[i], RACE[i + 1])
  {
    BothRead();
    TidyingPlanned();
    if i == 2 {
      assert RACE[2].open - {1} == RACE[3].open;
    } else if i == 3 {
      assert RACE[3].open - {2} == RACE[4].open;
      assert Applied([NewRow(BLUE)], Adding(GREEN)) == [NewRow(BLUE), NewRow(GREEN)];
    } else if i == 5 {
      assert RACE[5].open - {3} == RACE[6].open;
    }
  }

  /** Two calls of `remember` that both read before either commits leave two active rows in one slot;
      compaction afterwards keeps the later one. */
  lemma InterleavedRemembersNeedCompaction()
    ensures Run(RACE, RACE_EVENTS) && !Unique(RACE[4].rows) && Oversteps(RACE, RACE_EVENTS, 3)
    ensures Unique(RACE[6].rows) && RACE[6].rows[1] == NewRow(GREEN)
  {
    forall i: nat | i < 6 ensures Next(RACE[i], RACE_EVENTS[i], RACE[i + 1]) {
      RaceStep(i);
    }
    assert RACE[4].rows[0].slot == RACE[4].rows[1].slot;
    assert IsUnseen(RACE[3].rows, Adding(GREEN), 0);
  }
}
