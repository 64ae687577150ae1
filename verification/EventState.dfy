/** The life of an event: it is scheduled until an administrator postpones, reschedules or cancels it.  Sales, payments
    and the doors all read it from here. */
module EventState {
  import opened Options
  import opened Wib

  datatype Lifecycle = Scheduled | Rescheduled | Postponed | Cancelled

  /** The columns of events that decide; `version` counts the decisions taken, and times are seconds. */
  datatype EventRow = EventRow(status: Lifecycle, version: nat, startsAt: Option<int>)

  /** What eventstate.Read makes of the row: the start of a postponed or cancelled event is withheld. */
  function Read(e: EventRow): EventRow {
    if e.status == Postponed || e.status == Cancelled then e.(startsAt := None) else e
  }

  predicate CanCheckIn(e: EventRow, now: int) {
    && (e.status == Scheduled || e.status == Rescheduled)
    && (e.version == 0 || (e.startsAt.Some? && WibDay(now) == WibDay(e.startsAt.value)))
  }

  // ---------------------------------------------------------------- decisions and edits

  /** A decision as it is submitted, for the version that its author saw. */
  datatype Decision = Decision(action: Lifecycle, startsAt: Option<int>, deadline: Option<int>, expected: nat)

  /** validate: only a new date comes with a start and a deadline, in this order and both ahead. */
  predicate DecisionOk(d: Decision, now: int) {
    match d.action
    case Scheduled => false
    case Rescheduled => d.startsAt.Some? && d.deadline.Some? && now < d.deadline.value < d.startsAt.value
    case Postponed => d.startsAt.None? && d.deadline.None?
    case Cancelled => d.startsAt.None? && d.deadline.None?
  }

  /** Another version, an earlier cancellation, or work of an earlier decision that is not done yet. */
  predicate Conflicts(e: EventRow, d: Decision, unfinished: bool) {
    e.version != d.expected || e.status == Cancelled || (unfinished && d.action != Cancelled)
  }

  function Decided(e: EventRow, d: Decision): EventRow {
    EventRow(d.action, e.version + 1, if d.startsAt.Some? then d.startsAt else e.startsAt)
  }

  datatype Move =
    | Decide(decision: Decision, now: int, unfinished: bool)
    | Edit(startsAt: Option<int>)

  /** The row after a decision, or after an edit, which cannot touch the schedule once a decision was taken. */
  function Moved(e: EventRow, move: Move): EventRow {
    match move
    case Decide(d, now, unfinished) => if DecisionOk(d, now) && !Conflicts(e, d, unfinished) then Decided(e, d) else e
    case Edit(startsAt) => if e.version > 0 then e else e.(startsAt := startsAt)
  }

  function AfterMoves(e: EventRow, moves: seq<Move>): EventRow
    decreases |moves|
  {
    if moves == [] then e else AfterMoves(Moved(e, moves[0]), moves[1..])
  }

  /** An event is scheduled until the first decision, and a rescheduled one has a start. */
  predicate Settled(e: EventRow) {
    (e.status == Scheduled <==> e.version == 0) && (e.status == Rescheduled ==> e.startsAt.Some?)
  }

  lemma {:induction false} MovesKeepSettled(e: EventRow, moves: seq<Move>)
    requires Settled(e)
    ensures Settled(AfterMoves(e, moves))
    decreases |moves|
  {
    if moves != [] { MovesKeepSettled(Moved(e, moves[0]), moves[1..]); }
  }

  /** A settled event opens its doors at some moment exactly if it is neither postponed nor cancelled. */
  lemma OpensSomeDay(e: EventRow)
    requires Settled(e)
    ensures (exists now :: CanCheckIn(Read(e), now)) <==> e.status == Scheduled || e.status == Rescheduled
  {
    if e.status == Scheduled || e.status == Rescheduled {
      var now := if e.startsAt.Some? then e.startsAt.value else 0;
      assert CanCheckIn(Read(e), now);
    }
  }
}
