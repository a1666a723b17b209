/** `record` (webhooks/repository.py) under concurrency: any number of workers, each reading, inserting
    and reading again in steps that interleave as they please. */
module Dedup {
  import opened Outcomes

  type WorkerId = nat

  /** A row of webhook_events; its index in the table is its primary key. */
  datatype Entry = Entry(eventId: string, payload: string)

  datatype Call = Call(eventId: string, payload: string)

  /** Where a worker stands in its call. */
  datatype Phase =
    | Starting
    | Missed                            // the first read found nothing; the insert is pending
    | Refused                           // the commit broke the unique constraint and was rolled back
    | Returned(row: nat, created: bool)
    | Raised                            // the second read found nothing either

  datatype State = State(table: seq<Entry>, phases: seq<Phase>)

  /** `get`. */
  function Lookup(table: seq<Entry>, eventId: string): (r: Option<nat>)
    ensures r.Some? ==> r.value < |table| && table[r.value].eventId == eventId
    ensures r.None? ==> forall i :: 0 <= i < |table| ==> table[i].eventId != eventId
  {
    if table == [] then None
    else if table[|table| - 1].eventId == eventId then Some(|table| - 1)
    else Lookup(table[..|table| - 1], eventId)
  }

  /** One step of one worker: the first read, the insert with its commit, or the second read. */
  function Advance(table: seq<Entry>, call: Call, phase: Phase): (seq<Entry>, Phase) {
    match phase
    case Starting =>
      (table, match Lookup(table, call.eventId) case Some(row) => Returned(row, false) case None => Missed)
    case Missed =>
      if Lookup(table, call.eventId).Some? then (table, Refused)
      else (table + [Entry(call.eventId, call.payload)], Returned(|table|, true))
    case Refused =>
      (table, match Lookup(table, call.eventId) case Some(row) => Returned(row, false) case None => Raised)
    case _ => (table, phase)
  }

  function Step(s: State, calls: seq<Call>, w: WorkerId): State
    requires |s.phases| == |calls|
  {
    if w >= |calls| then s
    else
      var (table, phase) := Advance(s.table, calls[w], s.phases[w]);
      State(table, s.phases[w := phase])
  }

  /** All workers about to start. */
  function Begin(table: seq<Entry>, calls: seq<Call>): (s: State)
    ensures |s.phases| == |calls|
  {
    State(table, seq(|calls|, _ => Starting))
  }

  function Interleave(table: seq<Entry>, calls: seq<Call>, schedule: seq<WorkerId>): (s: State)
    ensures |s.phases| == |calls|
  {
    if schedule == [] then Begin(table, calls)
    else Step(Interleave(table, calls, schedule[..|schedule| - 1]), calls, schedule[|schedule| - 1])
  }

  // ---------------------------------------------------------------- what holds throughout

  /** `uq_webhook_events_provider_event_id`. */
  predicate UniqueIds(table: seq<Entry>) {
    forall i, j :: 0 <= i < j < |table| ==> table[i].eventId != table[j].eventId
  }

  predicate HasRow(table: seq<Entry>, eventId: string) {
    exists i :: 0 <= i < |table| && table[i].eventId == eventId
  }

  /** A worker's phase agrees with the table: whoever returned holds the id's row; whoever was refused
      will find one; whoever created it wrote its own payload into a row that was not there before. */
  predicate PhaseOk(first: seq<Entry>, table: seq<Entry>, call: Call, phase: Phase) {
    match phase
    case Starting => true
    case Missed => !HasRow(first, call.eventId)
    case Refused => HasRow(table, call.eventId)
    case Returned(row, created) =>
      && row < |table| && table[row].eventId == call.eventId
      && (created ==> row >= |first| && table[row].payload == call.payload)
    case Raised => false
  }

  predicate Created(phase: Phase) {
    phase.Returned? && phase.created
  }

  predicate InvAt(first: seq<Entry>, calls: seq<Call>, s: State) {
    && |s.phases| == |calls|
    && first <= s.table && UniqueIds(s.table)
    && (forall w :: 0 <= w < |calls| ==> PhaseOk(first, s.table, calls[w], s.phases[w]))
    && (forall v, w :: 0 <= v < w < |calls| && Created(s.phases[v]) && Created(s.phases[w]) ==>
          s.phases[v].row != s.phases[w].row)
    && (forall row :: |first| <= row < |s.table| ==> Creator(s.phases, row))
  }

  /** Some worker created this row. */
  predicate Creator(phases: seq<Phase>, row: nat) {
    exists w :: 0 <= w < |phases| && phases[w] == Returned(row, true)
  }

  lemma HasRowGrows(table: seq<Entry>, later: seq<Entry>, eventId: string)
    requires table <= later
    ensures HasRow(table, eventId) ==> HasRow(later, eventId)
  {
  }

  /** A row of an id that was not there at the start is new. */
  lemma RowIsNew(first: seq<Entry>, table: seq<Entry>, row: nat)
    requires first <= table && row < |table| && !HasRow(first, table[row].eventId)
    ensures row >= |first|
  {
  }

  lemma StepKeeps(first: seq<Entry>, calls: seq<Call>, s: State, w: WorkerId)
    requires InvAt(first, calls, s)
    ensures InvAt(first, calls, Step(s, calls, w))
  {
    if w < |calls| {
      var t := Step(s, calls, w);
      forall v | 0 <= v < |calls| ensures PhaseOk(first, t.table, calls[v], t.phases[v]) {
        assert PhaseOk(first, s.table, calls[v], s.phases[v]);
        HasRowGrows(first, s.table, calls[v].eventId);
        HasRowGrows(s.table, t.table, calls[v].eventId);
      }
      forall row | |first| <= row < |t.table| ensures Creator(t.phases, row) {
        if row < |s.table| {
          assert Creator(s.phases, row);
          var v :| 0 <= v < |s.phases| && s.phases[v] == Returned(row, true);
          assert t.phases[v] == s.phases[v];
        } else {
          assert t.phases[w] == Returned(row, true);
        }
      }
    }
  }

  lemma {:induction false} InterleaveKeeps(table: seq<Entry>, calls: seq<Call>, schedule: seq<WorkerId>)
    requires UniqueIds(table)
    ensures InvAt(table, calls, Interleave(table, calls, schedule))
  {
    if schedule != [] {
      InterleaveKeeps(table, calls, schedule[..|schedule| - 1]);
      StepKeeps(table, calls, Interleave(table, calls, schedule[..|schedule| - 1]), schedule[|schedule| - 1]);
    }
  }

  /** Dedup under every interleaving of every number of callers: no event id ever has two rows, nobody
      raises, all callers for an id that have returned hold the same row, and at most one of them is
      told it created it. */
  lemma RecordsOnce(table: seq<Entry>, calls: seq<Call>, schedule: seq<WorkerId>, v: WorkerId, w: WorkerId)
    requires UniqueIds(table) && v < |calls| && w < |calls| && calls[v].eventId == calls[w].eventId
    ensures var s := Interleave(table, calls, schedule);
            && UniqueIds(s.table) && table <= s.table && s.phases[v] != Raised
            && (s.phases[v].Returned? ==>
                  s.phases[v].row < |s.table| && s.table[s.phases[v].row].eventId == calls[v].eventId)
            && (s.phases[v].Returned? && s.phases[w].Returned? ==>
                  && s.phases[v].row == s.phases[w].row
                  && (v != w ==> !(s.phases[v].created && s.phases[w].created)))
  {
    InterleaveKeeps(table, calls, schedule);
    var s := Interleave(table, calls, schedule);
    assert PhaseOk(table, s.table, calls[v], s.phases[v]) && PhaseOk(table, s.table, calls[w], s.phases[w]);
  }

  lemma OldRowsHaveNoCreator(first: seq<Entry>, calls: seq<Call>, s: State, row: nat)
    requires InvAt(first, calls, s) && row < |first|
    ensures !Creator(s.phases, row)
  {
  }

  /** Once a caller has returned, somebody created the row exactly if it was not there at the start; and
      then the stored payload is the creator's, whatever the other callers carried. */
  lemma RowHasOneCreator(table: seq<Entry>, calls: seq<Call>, schedule: seq<WorkerId>, w: WorkerId)
    requires UniqueIds(table) && w < |calls| && Interleave(table, calls, schedule).phases[w].Returned?
    ensures var s := Interleave(table, calls, schedule);
            var row := s.phases[w].row;
            row < |s.table| &&
            if HasRow(table, calls[w].eventId) then row < |table| && s.table[row] == table[row] && !Creator(s.phases, row)
            else exists c ::
                   && 0 <= c < |calls| && s.phases[c] == Returned(row, true)
                   && s.table[row] == Entry(calls[w].eventId, calls[c].payload)
  {
    InterleaveKeeps(table, calls, schedule);
    var s := Interleave(table, calls, schedule);
    var row := s.phases[w].row;
    assert PhaseOk(table, s.table, calls[w], s.phases[w]);
    if HasRow(table, calls[w].eventId) {
      var i :| 0 <= i < |table| && table[i].eventId == calls[w].eventId;
      assert s.table[i] == table[i];
      assert row == i;
      OldRowsHaveNoCreator(table, calls, s, row);
    } else {
      RowIsNew(table, s.table, row);
      assert Creator(s.phases, row);
      var c :| 0 <= c < |s.phases| && s.phases[c] == Returned(row, true);
      assert PhaseOk(table, s.table, calls[c], s.phases[c]);
    }
  }

  /** A worker returns within three of its own steps, however they are interleaved. */
  lemma {:induction false} ReturnsInThree(table: seq<Entry>, calls: seq<Call>, schedule: seq<WorkerId>, w: WorkerId)
    requires UniqueIds(table) && w < |calls|
    ensures Turns(schedule, w) >= 3 ==> Interleave(table, calls, schedule).phases[w].Returned?
    ensures Turns(schedule, w) >= 1 ==> Interleave(table, calls, schedule).phases[w] != Starting
    ensures Turns(schedule, w) >= 2 ==> Interleave(table, calls, schedule).phases[w] != Missed
  {
    if schedule != [] {
      var before := schedule[..|schedule| - 1];
      ReturnsInThree(table, calls, before, w);
      InterleaveKeeps(table, calls, before);
      InterleaveKeeps(table, calls, schedule);
      var s := Interleave(table, calls, schedule);
      assert PhaseOk(table, s.table, calls[w], s.phases[w]);
    }
  }

  function Turns(schedule: seq<WorkerId>, w: WorkerId): nat {
    if schedule == [] then 0
    else Turns(schedule[..|schedule| - 1], w) + if schedule[|schedule| - 1] == w then 1 else 0
  }
}
