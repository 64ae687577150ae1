/** Versions 14, 21 and 26 of the migrations: programs that look at the schema before each
    statement, so that a run cut off anywhere can be started again from the top. */
module ResumableMigrations {
  import opened Options
  import opened EmailQueueSchema

  datatype Outcome = Done | Interrupted | Rejected | InvalidKeys

  /** Where a run ends: the database, the statements the connection had left, the result. */
  datatype Run = Run(db: Database, budget: nat, outcome: Outcome)

  /** Version 14 asks once, before it changes email_queue, whether id is the primary key.  Version 21 searches the text in
      which MySQL stores the check for the wording of its own new one; `known` says whether the stored form of that one
      would be recognised (MySQL quotes names and literals its own way, so it need not be). */
  datatype Program = Recovery14(primaryIsId: bool) | Refunds21(known: bool) | EventChanges26

  const RecoveryTables := [RecoveryRequests, RecoveryTokens, RateLimits]
  const RecoveryColumns := [(ColId, true), (ColKind, false), (ColDedupeKey, true), (ColRequestId, true)]
  const RecoveryNullability := [(ColId, false), (ColDedupeKey, false), (ColOrderId, true)]
  const RecoveryIndexes := [UqDedupe, IxOrder, IxRecovery]
  const RecoveryKeys := [FkOrder, FkRecovery]

  function Length(p: Program): nat {
    match p
    case Recovery14(_) => 20
    case Refunds21(_) => 7
    case EventChanges26 => 4
  }

  /** The statement that the program sends at its i-th place, if what it reads there asks for one. */
  function Slot(p: Program, i: nat, db: Database): Option<Statement>
    requires i < Length(p)
  {
    match p
    case Recovery14(primaryIsId) => RecoverySlot(primaryIsId, i, db)
    case Refunds21(known) => RefundsSlot(known, i, db)
    case EventChanges26 => EventChangesSlot(i, db)
  }

  function RecoverySlot(primaryIsId: bool, i: nat, db: Database): Option<Statement>
    requires i < 20
  {
    if i < 3 then Some(CreateTable(RecoveryTables[i]))
    else if i == 3 then (if !primaryIsId && FkOrder in db.foreignKeys then Some(DropOrderForeignKey) else None)
    else if i < 8 then ColumnSlot(RecoveryColumns[i - 4], db)
    else if i == 8 then Some(FillKeys)
    else if i == 9 then None // the key test; it reads only
    else if i == 10 then (if primaryIsId then None else Some(SwitchPrimary(db.primary.Some?)))
    else if i < 14 then NullabilitySlot(RecoveryNullability[i - 11], db)
    else if i < 17 then (if RecoveryIndexes[i - 14] in db.indexes then None else Some(AddIndex(RecoveryIndexes[i - 14])))
    else if i < 19 then (if RecoveryKeys[i - 17] in db.foreignKeys then None else Some(AddForeignKey(RecoveryKeys[i - 17])))
    else if db.target.Some? then None else Some(AddTarget(RecoveryTarget))
  }

  function ColumnSlot(column: (Column, bool), db: Database): Option<Statement> {
    if column.0 in db.columns then None else Some(AddColumn(column.0, column.1))
  }

  function NullabilitySlot(wanted: (Column, bool), db: Database): Option<Statement> {
    if wanted.0 in db.columns && db.columns[wanted.0] == wanted.1 then None else Some(SetNullable(wanted.0, wanted.1))
  }

  function RefundsSlot(known: bool, i: nat, db: Database): Option<Statement>
    requires i < 7
  {
    if i == 0 then Some(AddOrderStatuses)
    else if i == 1 then Some(CreateTable(OrderRefunds))
    else if i == 2 then Some(CreateTable(OrderRefundAudit))
    else if i == 3 then ColumnSlot((ColRefundSnapshot, true), db)
    else if i == 4 then Some(SetKinds({Tickets, Recovery, Refund}))
    else if i == 5 then (if db.target.Some? && !(known && db.target != Some(RecoveryTarget)) then Some(DropTarget) else None)
    else if db.target.None? then Some(AddTarget(RefundTarget)) else None
  }

  function EventChangesSlot(i: nat, db: Database): Option<Statement>
    requires i < 4
  {
    if i == 0 then ColumnSlot((ColEventChangeId, true), db)
    else if i == 1 then Some(SetKinds({Tickets, Recovery, Refund, EventChange}))
    else if i == 2 then (if db.target.Some? then Some(DropTarget) else None)
    else Some(AddTarget(EventChangeTarget))
  }

  /** The test of version 14 that ends the run before any key is added. */
  predicate KeysInvalid(rows: seq<Row>) {
    !NoNulls(rows, ColId) || !NoNulls(rows, ColDedupeKey) || !Unique(rows, ColId) || !Unique(rows, ColDedupeKey)
  }

  /** It is passed exactly by rows that all have both keys and share neither. */
  lemma KeyTestMeans(rows: seq<Row>)
    ensures !KeysInvalid(rows) <==>
              && (forall i :: 0 <= i < |rows| ==> rows[i].id.Some? && rows[i].dedupeKey.Some?)
              && (forall i, j :: 0 <= i < j < |rows| ==>
                    rows[i].id.value != rows[j].id.value && rows[i].dedupeKey.value != rows[j].dedupeKey.value)
  {
    forall i | 0 <= i < |rows| ensures Field(rows[i], ColId) == rows[i].id && Field(rows[i], ColDedupeKey) == rows[i].dedupeKey {}
  }

  /** The rest of a run from place i, when the connection carries `budget` more statements. */
  function RunFrom(p: Program, i: nat, db: Database, budget: nat): Run
    requires i <= Length(p)
    decreases Length(p) - i
  {
    if i == Length(p) then Run(db, budget, Done)
    else if p.Recovery14? && i == 9 && KeysInvalid(db.rows) then Run(db, budget, InvalidKeys)
    else
      match Slot(p, i, db)
      case None => RunFrom(p, i + 1, db, budget)
      case Some(st) =>
        if budget == 0 then Run(db, 0, Interrupted)
        else if !Accepts(st, db) then Run(db, budget, Rejected)
        else RunFrom(p, i + 1, Execute(st, db), budget - 1)
  }

  lemma PlaceOfRun(p: Program, i: nat, db: Database, budget: nat)
    requires i < Length(p) && !(p.Recovery14? && i == 9 && KeysInvalid(db.rows))
    requires Slot(p, i, db).Some? ==> Accepts(Slot(p, i, db).value, db)
    ensures Slot(p, i, db).None? ==> RunFrom(p, i, db, budget) == RunFrom(p, i + 1, db, budget)
    ensures Slot(p, i, db).Some? && budget == 0 ==> RunFrom(p, i, db, budget) == Run(db, 0, Interrupted)
    ensures Slot(p, i, db).Some? && budget > 0 ==>
              RunFrom(p, i, db, budget) == RunFrom(p, i + 1, Execute(Slot(p, i, db).value, db), budget - 1)
  {
  }

  lemma SkippedPlace(p: Program, i: nat, db: Database, budget: nat)
    requires i < Length(p) && !p.Recovery14? && Slot(p, i, db) == None
    ensures RunFrom(p, i, db, budget) == RunFrom(p, i + 1, db, budget)
  {
  }

  /** A place whose statement, if any, is accepted either ends the run, cut off with the database as it is, or hands it
      to the next place. */
  lemma RunGoesOn(p: Program, i: nat, db: Database, budget: nat, slot: Option<Statement>, next: Database) returns (cut: bool, left: nat)
    requires i < Length(p) && !p.Recovery14? && slot == Slot(p, i, db)
    requires if slot.None? then next == db else Accepts(slot.value, db) && next == Execute(slot.value, db)
    ensures cut ==> budget == 0 && RunFrom(p, i, db, budget) == Run(db, 0, Interrupted)
    ensures !cut ==> left + 1 >= budget && RunFrom(p, i, db, budget) == RunFrom(p, i + 1, next, left)
  {
    cut := slot.Some? && budget == 0;
    left := if slot.Some? && budget > 0 then budget - 1 else budget;
  }

  datatype Version = V14 | V21(known: bool) | V26

  function Start(v: Version, db: Database): Program {
    match v
    case V14 => Recovery14(db.primary == Some(ColId))
    case V21(known) => Refunds21(known)
    case V26 => EventChanges26
  }

  function RunVersion(v: Version, db: Database, budget: nat): Run {
    RunFrom(Start(v, db), 0, db, budget)
  }

  /** The database after a series of runs, each cut off after its own number of statements. */
  function AfterRuns(v: Version, db: Database, budgets: seq<nat>): Database
    decreases |budgets|
  {
    if budgets == [] then db
    else AfterRuns(v, RunVersion(v, db, budgets[0]).db, budgets[1..])
  }

  // ---------------------------------------------------------------- what every cut-off leaves behind

  /** A row of the ticket e-mail queue whose keys are not filled yet, or filled from its order. */
  predicate TicketRow(row: Row) {
    && row.kind == Tickets && row.orderId.Some? && row.requestId.None?
    && row.refundSnapshot.None? && row.eventChangeId.None?
    && (row.id.None? || row.id == row.orderId)
    && (row.dedupeKey.None? || row.dedupeKey == Some(TicketKey(row.orderId.value)))
  }

  predicate Filled(row: Row) {
    row.id.Some? && row.dedupeKey.Some?
  }

  predicate TicketRows(rows: seq<Row>) {
    && (forall i :: 0 <= i < |rows| ==> TicketRow(rows[i]))
    && (forall i, j :: 0 <= i < j < |rows| ==> rows[i].orderId != rows[j].orderId)
  }

  predicate AllFilled(rows: seq<Row>) {
    forall i :: 0 <= i < |rows| ==> Filled(rows[i])
  }

  predicate NoneHas(rows: seq<Row>, column: Column) {
    forall i :: 0 <= i < |rows| ==> Field(rows[i], column).None?
  }

  /** Every state that an interrupted version 14 can leave, by this program or by its SQL script. */
  predicate Resumable14(db: Database) {
    && ColOrderId in db.columns
    && TicketRows(db.rows) && Refers(db.rows, ColOrderId, db.orders)
    && (ColId !in db.columns ==> NoneHas(db.rows, ColId))
    && (ColDedupeKey !in db.columns ==> NoneHas(db.rows, ColDedupeKey))
    && (ColId in db.columns && !db.columns[ColId] ==> NoNulls(db.rows, ColId))
    && (ColDedupeKey in db.columns && !db.columns[ColDedupeKey] ==> NoNulls(db.rows, ColDedupeKey))
    && (ColKind in db.columns ==> !db.columns[ColKind] && db.kinds == {Tickets, Recovery})
    && (ColRequestId in db.columns ==> db.columns[ColRequestId])
    && (db.primary == None || db.primary == Some(ColOrderId) || db.primary == Some(ColId))
    && (db.primary == Some(ColId) ==> ColId in db.columns && !db.columns[ColId])
    && (db.target.Some? ==> db.target == Some(RecoveryTarget))
  }

  function Finished(row: Row): Row
    requires row.orderId.Some?
  {
    row.(id := row.orderId, dedupeKey := Some(TicketKey(row.orderId.value)))
  }

  function FinishedRows(rows: seq<Row>): (finished: seq<Row>)
    requires forall i :: 0 <= i < |rows| ==> rows[i].orderId.Some?
    ensures |finished| == |rows|
    ensures forall i :: 0 <= i < |rows| ==> finished[i] == Finished(rows[i])
  {
    seq(|rows|, i requires 0 <= i < |rows| => Finished(rows[i]))
  }

  /** The database that version 14 is for, written down without any step of the program. */
  function Target14(db: Database): Database
    requires TicketRows(db.rows)
  {
    db.(tables := db.tables + {RecoveryRequests, RecoveryTokens, RateLimits},
        columns := db.columns[ColId := false][ColKind := false][ColDedupeKey := false][ColRequestId := true][ColOrderId := true],
        primary := Some(ColId),
        indexes := db.indexes + {UqDedupe, IxOrder, IxRecovery},
        foreignKeys := db.foreignKeys + {FkOrder, FkRecovery},
        target := Some(RecoveryTarget),
        kinds := {Tickets, Recovery},
        rows := FinishedRows(db.rows))
  }

  /** What holds in front of place i, beside Resumable14. */
  predicate Ready14(primaryIsId: bool, i: nat, db: Database) {
    && (primaryIsId || i >= 11 <==> db.primary == Some(ColId))
    && (i >= 1 ==> RecoveryRequests in db.tables)
    && (i >= 2 ==> RecoveryTokens in db.tables)
    && (i >= 3 ==> RateLimits in db.tables)
    && (!primaryIsId && 4 <= i <= 10 ==> FkOrder !in db.foreignKeys)
    && (i >= 5 ==> ColId in db.columns)
    && (i >= 6 ==> ColKind in db.columns)
    && (i >= 7 ==> ColDedupeKey in db.columns)
    && (i >= 8 ==> ColRequestId in db.columns)
    && (i >= 9 ==> AllFilled(db.rows))
    && (i >= 12 ==> !db.columns[ColId])
    && (i >= 13 ==> !db.columns[ColDedupeKey])
    && (i >= 14 ==> ColOrderId in db.columns && db.columns[ColOrderId])
    && (i >= 15 ==> UqDedupe in db.indexes)
    && (i >= 16 ==> IxOrder in db.indexes)
    && (i >= 17 ==> IxRecovery in db.indexes)
    && (i >= 18 ==> FkOrder in db.foreignKeys)
    && (i >= 19 ==> FkRecovery in db.foreignKeys)
    && (i >= 20 ==> db.target == Some(RecoveryTarget))
  }

  predicate Holds14(primaryIsId: bool, i: nat, db: Database) {
    Resumable14(db) && Ready14(primaryIsId, i, db)
  }

  /** `next` stands one place further than `db`, with the same goal. */
  predicate Advances14(primaryIsId: bool, i: nat, db: Database, next: Database)
    requires Holds14(primaryIsId, i, db)
  {
    Holds14(primaryIsId, i + 1, next) && Target14(next) == Target14(db)
  }

  lemma FilledKeysAreUnique(db: Database)
    requires Resumable14(db) && AllFilled(db.rows)
    ensures !KeysInvalid(db.rows)
  {
    forall i, j | 0 <= i < j < |db.rows|
      ensures db.rows[i].id != db.rows[j].id && db.rows[i].dedupeKey != db.rows[j].dedupeKey
    {
      var a, b := db.rows[i].orderId.value, db.rows[j].orderId.value;
      assert TicketRow(db.rows[i]) && TicketRow(db.rows[j]) && Filled(db.rows[i]) && Filled(db.rows[j]);
      if TicketKey(a) == TicketKey(b) { TicketKeyInjective(a, b); }
    }
  }

  lemma CreateStep(primaryIsId: bool, i: nat, db: Database)
    requires i < 3 && Holds14(primaryIsId, i, db)
    ensures var st := CreateTable(RecoveryTables[i]);
      Accepts(st, db) && Advances14(primaryIsId, i, db, Execute(st, db))
  {
  }

  lemma AddedColumnIsBlank(db: Database, column: Column)
    requires Resumable14(db) && column in {ColId, ColKind, ColDedupeKey, ColRequestId} && column !in db.columns
    ensures BlankAll(db.rows, column) == db.rows
  {
    assert forall k :: 0 <= k < |db.rows| ==> TicketRow(db.rows[k]);
    assert column != ColKind ==> NoneHas(db.rows, column);
  }

  lemma ColumnStep(primaryIsId: bool, i: nat, db: Database)
    requires 4 <= i < 8 && Holds14(primaryIsId, i, db)
    ensures match ColumnSlot(RecoveryColumns[i - 4], db)
      case None => Advances14(primaryIsId, i, db, db)
      case Some(st) => Accepts(st, db) && Advances14(primaryIsId, i, db, Execute(st, db))
  {
    var column := RecoveryColumns[i - 4];
    if column.0 !in db.columns {
      var next := Execute(AddColumn(column.0, column.1), db);
      AddedColumnIsBlank(db, column.0);
      assert next == db.(columns := db.columns[column.0 := column.1], kinds := next.kinds);
      assert Target14(next).columns == Target14(db).columns;
    }
  }

  lemma FillStep(primaryIsId: bool, db: Database)
    requires Holds14(primaryIsId, 8, db)
    ensures Accepts(FillKeys, db) && Advances14(primaryIsId, 8, db, Execute(FillKeys, db))
  {
    var next := Execute(FillKeys, db);
    forall k | 0 <= k < |db.rows|
      ensures TicketRow(next.rows[k]) && Filled(next.rows[k])
      ensures next.rows[k].orderId == db.rows[k].orderId && Finished(next.rows[k]) == Finished(db.rows[k])
    {
      assert TicketRow(db.rows[k]);
    }
    assert Target14(next).rows == Target14(db).rows;
  }

  lemma PrimaryStep(db: Database)
    requires Holds14(false, 10, db)
    ensures var st := SwitchPrimary(db.primary.Some?);
      Accepts(st, db) && Advances14(false, 10, db, Execute(st, db))
  {
    FilledKeysAreUnique(db);
    var next := Execute(SwitchPrimary(db.primary.Some?), db);
    assert Target14(next).columns == Target14(db).columns;
  }

  lemma NullabilityStep(primaryIsId: bool, i: nat, db: Database)
    requires 11 <= i < 14 && Holds14(primaryIsId, i, db)
    ensures match NullabilitySlot(RecoveryNullability[i - 11], db)
      case None => Advances14(primaryIsId, i, db, db)
      case Some(st) => Accepts(st, db) && Advances14(primaryIsId, i, db, Execute(st, db))
  {
    var wanted := RecoveryNullability[i - 11];
    assert NoNulls(db.rows, ColId) && NoNulls(db.rows, ColDedupeKey) by {
      assert forall k :: 0 <= k < |db.rows| ==> Filled(db.rows[k]);
    }
    var next := Execute(SetNullable(wanted.0, wanted.1), db);
    assert next == db.(columns := db.columns[wanted.0 := wanted.1]);
    assert Target14(next).columns == Target14(db).columns;
  }

  lemma IndexStep(primaryIsId: bool, i: nat, db: Database)
    requires 14 <= i < 17 && Holds14(primaryIsId, i, db)
    requires RecoveryIndexes[i - 14] !in db.indexes
    ensures var st := AddIndex(RecoveryIndexes[i - 14]);
      Accepts(st, db) && Advances14(primaryIsId, i, db, Execute(st, db))
  {
    FilledKeysAreUnique(db);
    var next := Execute(AddIndex(RecoveryIndexes[i - 14]), db);
    assert Target14(next).indexes == Target14(db).indexes;
  }

  lemma ConstraintStep(primaryIsId: bool, i: nat, db: Database)
    requires 17 <= i < 20 && Holds14(primaryIsId, i, db)
    ensures match RecoverySlot(primaryIsId, i, db)
      case None => Advances14(primaryIsId, i, db, db)
      case Some(st) => Accepts(st, db) && Advances14(primaryIsId, i, db, Execute(st, db))
  {
    assert forall k :: 0 <= k < |db.rows| ==> TicketRow(db.rows[k]);
    if i < 19 {
      var next := Execute(AddForeignKey(RecoveryKeys[i - 17]), db);
      assert Target14(next).foreignKeys == Target14(db).foreignKeys;
    }
  }

  lemma Step14(primaryIsId: bool, i: nat, db: Database) returns (slot: Option<Statement>, next: Database)
    requires i < 20 && Holds14(primaryIsId, i, db)
    ensures i == 9 ==> !KeysInvalid(db.rows)
    ensures slot == RecoverySlot(primaryIsId, i, db)
    ensures slot.Some? ==> Accepts(slot.value, db) && next == Execute(slot.value, db)
    ensures slot.None? ==> next == db
    ensures Advances14(primaryIsId, i, db, next)
  {
    slot := RecoverySlot(primaryIsId, i, db);
    next := if slot.None? then db else Execute(slot.value, db);
    if i < 3 { CreateStep(primaryIsId, i, db); }
    else if i == 3 {
      if !primaryIsId && FkOrder in db.foreignKeys {
        assert Target14(Execute(DropOrderForeignKey, db)).foreignKeys == Target14(db).foreignKeys;
      }
    }
    else if i < 8 { ColumnStep(primaryIsId, i, db); }
    else if i == 8 { FillStep(primaryIsId, db); }
    else if i == 9 { FilledKeysAreUnique(db); }
    else if i == 10 { if !primaryIsId { PrimaryStep(db); } }
    else if i < 14 { NullabilityStep(primaryIsId, i, db); }
    else if i < 17 { if RecoveryIndexes[i - 14] !in db.indexes { IndexStep(primaryIsId, i, db); } }
    else { ConstraintStep(primaryIsId, i, db); }
  }

  /** What a run of version 14 from place i comes to: it is never refused, it stops early only when the
      connection is lost, and wherever that happens the goal is still the same. */
  predicate Concludes14(primaryIsId: bool, i: nat, db: Database, budget: nat)
    requires i <= 20 && TicketRows(db.rows)
  {
    var r := RunFrom(Recovery14(primaryIsId), i, db, budget);
    && (r.outcome == Done || (r.outcome == Interrupted && r.budget == 0))
    && (budget >= 20 - i ==> r.outcome == Done)
    && Resumable14(r.db) && Target14(r.db) == Target14(db)
    && (r.outcome == Done ==> r.db == Target14(db))
  }

  /** One place of a run: either the connection is lost in front of it, or the run goes on behind it. */
  lemma Next14(primaryIsId: bool, i: nat, db: Database, budget: nat) returns (cut: bool, next: Database, left: nat)
    requires i < 20 && Holds14(primaryIsId, i, db)
    ensures cut ==> budget == 0 && RunFrom(Recovery14(primaryIsId), i, db, budget) == Run(db, 0, Interrupted)
    ensures !cut ==> Holds14(primaryIsId, i + 1, next) && Target14(next) == Target14(db) && left + 1 >= budget
    ensures !cut ==> RunFrom(Recovery14(primaryIsId), i, db, budget) == RunFrom(Recovery14(primaryIsId), i + 1, next, left)
  {
    var slot;
    slot, next := Step14(primaryIsId, i, db);
    cut := slot.Some? && budget == 0;
    left := if slot.Some? && budget > 0 then budget - 1 else budget;
    PlaceOfRun(Recovery14(primaryIsId), i, db, budget);
  }

  lemma {:induction false} RecoveryProgress(primaryIsId: bool, i: nat, db: Database, budget: nat)
    requires i <= 20 && Holds14(primaryIsId, i, db)
    ensures Concludes14(primaryIsId, i, db, budget)
    decreases 20 - i
  {
    if i == 20 {
      ReadyIsTarget(primaryIsId, db);
    } else {
      var cut, next, left := Next14(primaryIsId, i, db, budget);
      if !cut { RecoveryProgress(primaryIsId, i + 1, next, left); }
    }
  }

  lemma ReadyIsTarget(primaryIsId: bool, db: Database)
    requires Holds14(primaryIsId, 20, db)
    ensures db == Target14(db)
  {
    var goal := Target14(db);
    assert forall k :: 0 <= k < |db.rows| ==> TicketRow(db.rows[k]) && Filled(db.rows[k]);
    assert db.rows == goal.rows;
    assert db.columns == goal.columns;
    assert db.tables == goal.tables && db.indexes == goal.indexes && db.foreignKeys == goal.foreignKeys;
  }

  lemma {:induction false} RecoverySeries(db: Database, budgets: seq<nat>)
    requires Resumable14(db)
    ensures Resumable14(AfterRuns(V14, db, budgets)) && Target14(AfterRuns(V14, db, budgets)) == Target14(db)
    decreases |budgets|
  {
    if budgets != [] {
      RecoveryProgress(db.primary == Some(ColId), 0, db, budgets[0]);
      RecoverySeries(RunVersion(V14, db, budgets[0]).db, budgets[1..]);
    }
  }

  /** Any series of cut-off runs followed by one that is not cut off ends like one run alone. */
  lemma {:induction false} RecoveryConverges(db: Database, budgets: seq<nat>, last: nat)
    requires Resumable14(db) && last >= 20
    ensures RunVersion(V14, AfterRuns(V14, db, budgets), last).outcome == Done
    ensures RunVersion(V14, AfterRuns(V14, db, budgets), last).db == RunVersion(V14, db, last).db == Target14(db)
  {
    RecoverySeries(db, budgets);
    var middle := AfterRuns(V14, db, budgets);
    RecoveryProgress(middle.primary == Some(ColId), 0, middle, last);
    RecoveryProgress(db.primary == Some(ColId), 0, db, last);
  }

  // ---------------------------------------------------------------- tickets sold between two runs

  /** Between two runs of version 14 an older server may still queue the tickets of a new order. */
  datatype Happening = Cut(budget: nat) | Queue(row: Row)

  /** The older server fills no new column, so MySQL refuses its row once one of them may not be NULL. */
  predicate Queues(row: Row, db: Database) {
    && TicketRow(row) && row.id.None? && row.dedupeKey.None?
    && (forall i :: 0 <= i < |db.rows| ==> db.rows[i].orderId != row.orderId)
    && (ColId in db.columns ==> db.columns[ColId])
    && (ColDedupeKey in db.columns ==> db.columns[ColDedupeKey])
  }

  function Queued(db: Database, row: Row): Database
    requires row.orderId.Some?
  {
    db.(rows := db.rows + [row], orders := db.orders + {row.orderId.value})
  }

  function AfterHappening(db: Database, h: Happening): Database {
    match h
    case Cut(budget) => RunVersion(V14, db, budget).db
    case Queue(row) => if Queues(row, db) then Queued(db, row) else db
  }

  function AfterHappenings(db: Database, hs: seq<Happening>): Database
    decreases |hs|
  {
    if hs == [] then db else AfterHappenings(AfterHappening(db, hs[0]), hs[1..])
  }

  /** The rows that were accepted, in their order. */
  function Arrived(db: Database, hs: seq<Happening>): (rows: seq<Row>)
    ensures forall i :: 0 <= i < |rows| ==> rows[i].orderId.Some?
    decreases |hs|
  {
    if hs == [] then []
    else (if hs[0].Queue? && Queues(hs[0].row, db) then [hs[0].row] else []) + Arrived(AfterHappening(db, hs[0]), hs[1..])
  }

  function OrdersOf(rows: seq<Row>): set<string> {
    set i | 0 <= i < |rows| && rows[i].orderId.Some? :: rows[i].orderId.value
  }

  /** The target with later rows and their orders behind what it has. */
  function With(target: Database, rows: seq<Row>): Database
    requires forall i :: 0 <= i < |rows| ==> rows[i].orderId.Some?
  {
    target.(rows := target.rows + FinishedRows(rows), orders := target.orders + OrdersOf(rows))
  }

  lemma WithNone(target: Database)
    ensures With(target, []) == target
  {
  }

  lemma WithMore(target: Database, row: Row, rest: seq<Row>)
    requires row.orderId.Some? && forall i :: 0 <= i < |rest| ==> rest[i].orderId.Some?
    ensures With(With(target, [row]), rest) == With(target, [row] + rest)
  {
    var rows := [row] + rest;
    assert target.rows + FinishedRows([row]) + FinishedRows(rest) == target.rows + FinishedRows(rows);
    assert OrdersOf(rows) == OrdersOf([row]) + OrdersOf(rest) by {
      forall o | o in OrdersOf([row]) + OrdersOf(rest) ensures o in OrdersOf(rows) {
        if o in OrdersOf(rest) {
          var i :| 0 <= i < |rest| && rest[i].orderId == Some(o);
          assert rows[i + 1] == rest[i];
        } else {
          assert rows[0] == row;
        }
      }
    }
  }

  lemma QueuedIsResumable(db: Database, row: Row)
    requires Resumable14(db) && Queues(row, db)
    ensures Resumable14(Queued(db, row)) && Target14(Queued(db, row)) == With(Target14(db), [row])
  {
    var next := Queued(db, row);
    forall i | 0 <= i < |next.rows| ensures TicketRow(next.rows[i]) && Finished(next.rows[i]) == (Target14(db).rows + FinishedRows([row]))[i] {
      if i < |db.rows| { assert TicketRow(db.rows[i]); }
    }
    assert Refers(next.rows, ColOrderId, next.orders) by {
      forall i | 0 <= i < |next.rows| && Field(next.rows[i], ColOrderId).Some? ensures Field(next.rows[i], ColOrderId).value in next.orders {
        if i < |db.rows| { assert Field(db.rows[i], ColOrderId).value in db.orders; }
      }
    }
    assert Target14(next).rows == Target14(db).rows + FinishedRows([row]);
    assert OrdersOf([row]) == {row.orderId.value} by { assert [row][0] == row; }
  }

  lemma HappeningKeepsTarget(db: Database, h: Happening)
    requires Resumable14(db)
    ensures var next := AfterHappening(db, h);
      Resumable14(next) && Target14(next) == if h.Queue? && Queues(h.row, db) then With(Target14(db), [h.row]) else Target14(db)
  {
    match h
    case Cut(budget) => RecoveryProgress(db.primary == Some(ColId), 0, db, budget);
    case Queue(row) => if Queues(row, db) { QueuedIsResumable(db, row); }
  }

  lemma {:induction false} RecoveryAmongArrivals(db: Database, hs: seq<Happening>)
    requires Resumable14(db)
    ensures Resumable14(AfterHappenings(db, hs)) && Target14(AfterHappenings(db, hs)) == With(Target14(db), Arrived(db, hs))
    decreases |hs|
  {
    if hs == [] {
      WithNone(Target14(db));
    } else {
      var next := AfterHappening(db, hs[0]);
      HappeningKeepsTarget(db, hs[0]);
      RecoveryAmongArrivals(next, hs[1..]);
      if hs[0].Queue? && Queues(hs[0].row, db) {
        WithMore(Target14(db), hs[0].row, Arrived(next, hs[1..]));
      } else {
        assert [] + Arrived(next, hs[1..]) == Arrived(next, hs[1..]);
      }
    }
  }

  /** However often version 14 is cut off, and whatever older servers queue in between, a run that lasts ends at the
      target, with every row that was there and every row that arrived, in this order and with its keys filled. */
  lemma {:induction false} RecoveryConvergesAmongArrivals(db: Database, hs: seq<Happening>, last: nat)
    requires Resumable14(db) && last >= 20
    ensures var r := RunVersion(V14, AfterHappenings(db, hs), last);
      r.outcome == Done && r.db == With(Target14(db), Arrived(db, hs))
  {
    RecoveryAmongArrivals(db, hs);
    var after := AfterHappenings(db, hs);
    RecoveryProgress(after.primary == Some(ColId), 0, after, last);
  }

  /** Once version 14 is complete, a further run, whole or cut off, changes nothing. */
  lemma {:induction false} CompleteRecoveryIsStable(i: nat, db: Database, budget: nat)
    requires i <= 20 && Holds14(true, 20, db)
    ensures RunFrom(Recovery14(true), i, db, budget).db == db
    decreases 20 - i
  {
    if i < 20 {
      FilledKeysAreUnique(db);
      var slot := RecoverySlot(true, i, db);
      if slot.None? {
        CompleteRecoveryIsStable(i + 1, db, budget);
      } else if budget > 0 {
        assert Execute(slot.value, db) == db by {
          assert i == 8 ==> FillAll(db.rows) == db.rows by {
            assert forall k :: 0 <= k < |db.rows| ==> Filled(db.rows[k]);
          }
        }
        CompleteRecoveryIsStable(i + 1, db, budget - 1);
      }
    }
  }

  predicate KeyColumns(db: Database) {
    && ColId in db.columns && ColKind in db.columns && ColDedupeKey in db.columns
    && ColOrderId in db.columns && ColRequestId in db.columns
  }

  /** How a run over rows with missing or shared keys ends: no key of email_queue has changed. */
  predicate StopsAtKeys(db: Database, r: Run) {
    && (r.outcome == InvalidKeys || (r.outcome == Interrupted && r.budget == 0))
    && r.db.columns == db.columns && r.db.primary == db.primary && r.db.indexes == db.indexes && r.db.target == db.target
    && (r.db.rows == db.rows || r.db.rows == FillAll(db.rows))
  }

  lemma {:induction false} BadKeysAfterFill(primaryIsId: bool, db: Database, budget: nat)
    requires KeyColumns(db) && KeysInvalid(FillAll(db.rows))
    ensures StopsAtKeys(db, RunFrom(Recovery14(primaryIsId), 8, db, budget))
  {
  }

  lemma {:induction false} PresentColumnsAreSkipped(primaryIsId: bool, i: nat, db: Database, budget: nat)
    requires 4 <= i <= 8 && KeyColumns(db)
    ensures RunFrom(Recovery14(primaryIsId), i, db, budget) == RunFrom(Recovery14(primaryIsId), 8, db, budget)
    decreases 8 - i
  {
    if i < 8 { PresentColumnsAreSkipped(primaryIsId, i + 1, db, budget); }
  }

  /** Version 14 from the point where it turns to email_queue, over rows whose keys are missing or shared. */
  lemma {:induction false} BadKeysStopTheRun(primaryIsId: bool, db: Database, budget: nat)
    requires KeyColumns(db) && KeysInvalid(FillAll(db.rows))
    ensures StopsAtKeys(db, RunFrom(Recovery14(primaryIsId), 3, db, budget))
  {
    var next := if !primaryIsId && FkOrder in db.foreignKeys then Execute(DropOrderForeignKey, db) else db;
    var left := if next != db && budget > 0 then budget - 1 else budget;
    PresentColumnsAreSkipped(primaryIsId, 4, next, left);
    BadKeysAfterFill(primaryIsId, next, left);
  }

  /** The schema as version 13 leaves it: order_id is the primary key and the only key column. */
  predicate OldSchema(db: Database) {
    && db.columns == map[ColOrderId := false] && db.primary == Some(ColOrderId)
    && FkOrder in db.foreignKeys && FkRecovery !in db.foreignKeys
    && {UqDedupe, IxOrder, IxRecovery} !! db.indexes
    && db.target.None?
    && (forall i :: 0 <= i < |db.rows| ==> TicketRow(db.rows[i]) && db.rows[i].id.None? && db.rows[i].dedupeKey.None?)
    && Unique(db.rows, ColOrderId) && Refers(db.rows, ColOrderId, db.orders)
  }

  lemma OldSchemaIsResumable(db: Database)
    requires OldSchema(db)
    ensures Resumable14(db)
  {
    assert forall i :: 0 <= i < |db.rows| ==> TicketRow(db.rows[i]) && Field(db.rows[i], ColOrderId) == db.rows[i].orderId;
  }

  // ---------------------------------------------------------------- the SQL script of version 14

  /** The eight statements of the script itself, which older binaries sent one by one. */
  function ScriptStep(i: nat, db: Database): Database
    requires i < 8 && (i == 5 ==> forall k :: 0 <= k < |db.rows| ==> db.rows[k].orderId.Some?)
  {
    if i < 3 then Execute(CreateTable(RecoveryTables[i]), db)
    else if i == 3 then Execute(DropOrderForeignKey, db)
    else if i == 4 then
      Execute(AddColumn(ColRequestId, true), Execute(AddColumn(ColDedupeKey, true),
        Execute(AddColumn(ColKind, false), Execute(AddColumn(ColId, true), db))))
    else if i == 5 then db.(rows := FinishedRows(db.rows))
    else if i == 6 then
      db.(columns := db.columns[ColId := false][ColDedupeKey := false][ColOrderId := true], primary := Some(ColId),
          indexes := db.indexes + {UqDedupe, IxOrder, IxRecovery})
    else db.(foreignKeys := db.foreignKeys + {FkOrder, FkRecovery}, target := Some(RecoveryTarget))
  }

  /** What is in place in front of the i-th script statement. */
  predicate ScriptReady(i: nat, db: Database) {
    && Resumable14(db)
    && (i >= 1 ==> RecoveryRequests in db.tables) && (i >= 2 ==> RecoveryTokens in db.tables) && (i >= 3 ==> RateLimits in db.tables)
    && (i < 5 ==> db.columns == map[ColOrderId := false])
    && (i >= 5 ==> db.columns.Keys == {ColOrderId, ColId, ColKind, ColDedupeKey, ColRequestId})
    && (i >= 6 ==> AllFilled(db.rows))
    && (i < 7 ==> db.primary == Some(ColOrderId))
    && (i >= 7 ==> db.primary == Some(ColId) && !db.columns[ColDedupeKey] && db.columns[ColOrderId]
                   && {UqDedupe, IxOrder, IxRecovery} <= db.indexes)
    && (i >= 8 ==> {FkOrder, FkRecovery} <= db.foreignKeys && db.target == Some(RecoveryTarget))
  }

  lemma ScriptAddsColumns(db: Database)
    requires ScriptReady(4, db)
    ensures ScriptReady(5, ScriptStep(4, db)) && Target14(ScriptStep(4, db)) == Target14(db)
  {
    var next := ScriptStep(4, db);
    AddedColumnIsBlank(db, ColId);
    AddedColumnIsBlank(db, ColKind);
    AddedColumnIsBlank(db, ColDedupeKey);
    AddedColumnIsBlank(db, ColRequestId);
    assert next == db.(columns := next.columns, kinds := {Tickets, Recovery});
    assert next.columns == map[ColOrderId := false, ColId := true, ColKind := false, ColDedupeKey := true, ColRequestId := true];
    assert Target14(next).columns == Target14(db).columns;
  }

  lemma ScriptFillsKeys(db: Database)
    requires ScriptReady(5, db)
    ensures ScriptReady(6, ScriptStep(5, db)) && Target14(ScriptStep(5, db)) == Target14(db)
  {
    var next := ScriptStep(5, db);
    assert forall k :: 0 <= k < |db.rows| ==> TicketRow(db.rows[k]);
    assert forall k :: 0 <= k < |db.rows| ==> TicketRow(next.rows[k]) && next.rows[k].orderId == db.rows[k].orderId;
    assert Target14(next).rows == Target14(db).rows;
  }

  lemma ScriptSwitchesKeys(db: Database)
    requires ScriptReady(6, db)
    ensures ScriptReady(7, ScriptStep(6, db)) && Target14(ScriptStep(6, db)) == Target14(db)
  {
    var next := ScriptStep(6, db);
    assert NoNulls(db.rows, ColId) && NoNulls(db.rows, ColDedupeKey) by {
      assert forall k :: 0 <= k < |db.rows| ==> Filled(db.rows[k]);
    }
    assert Target14(next).columns == Target14(db).columns;
    assert Target14(next).indexes == Target14(db).indexes;
  }

  lemma ScriptAdvances(i: nat, db: Database)
    requires i < 8 && ScriptReady(i, db)
    ensures ScriptReady(i + 1, ScriptStep(i, db)) && Target14(ScriptStep(i, db)) == Target14(db)
  {
    if i == 4 { ScriptAddsColumns(db); }
    else if i == 5 { ScriptFillsKeys(db); }
    else if i == 6 { ScriptSwitchesKeys(db); }
    else { assert Target14(ScriptStep(i, db)).foreignKeys == Target14(db).foreignKeys; }
  }

  /** The database after the first k statements of the script. */
  function ScriptPrefix(db: Database, i: nat, k: nat): (after: Database)
    requires i <= k <= 8 && ScriptReady(i, db)
    ensures ScriptReady(k, after) && Target14(after) == Target14(db)
    decreases k - i
  {
    if i == k then db else (ScriptAdvances(i, db); ScriptPrefix(ScriptStep(i, db), i + 1, k))
  }

  function AfterScript(db: Database, k: nat): (after: Database)
    requires OldSchema(db) && k <= 8
    ensures Resumable14(after)
  {
    OldSchemaIsResumable(db);
    ScriptPrefix(db, 0, k)
  }

  /** A script of version 14 cut off after any statement is picked up by the program, and the program
      reaches what the whole script would have reached. */
  lemma {:induction false} ScriptIsResumed(db: Database, k: nat, budgets: seq<nat>, last: nat)
    requires OldSchema(db) && k <= 8 && last >= 20
    ensures RunVersion(V14, AfterRuns(V14, AfterScript(db, k), budgets), last).db == AfterScript(db, 8)
  {
    OldSchemaIsResumable(db);
    var whole := AfterScript(db, 8);
    RecoveryConverges(AfterScript(db, k), budgets, last);
    assert forall i :: 0 <= i < |whole.rows| ==> TicketRow(whole.rows[i]) && Filled(whole.rows[i]);
    ReadyIsTarget(true, whole);
  }

  // ---------------------------------------------------------------- versions 21 and 26

  /** Every state that an interrupted version 21 can leave.  Between the two statements that exchange
      the check nothing guards the rows, but nothing but the migration writes them either. */
  predicate Resumable21(db: Database) {
    && KeyColumns(db) && AllSatisfy(db.rows, RefundTarget)
    && (ColRefundSnapshot in db.columns ==> db.columns[ColRefundSnapshot])
    && (ColRefundSnapshot !in db.columns ==> NoneHas(db.rows, ColRefundSnapshot))
    && (db.target.Some? ==> db.target.value != EventChangeTarget)
  }

  function Target21(db: Database): Database {
    db.(tables := db.tables + {OrderRefunds, OrderRefundAudit}, refundStatuses := true,
        columns := db.columns[ColRefundSnapshot := true],
        kinds := {Tickets, Recovery, Refund}, target := Some(RefundTarget))
  }

  predicate Ready21(i: nat, db: Database) {
    && (i >= 1 ==> db.refundStatuses)
    && (i >= 2 ==> OrderRefunds in db.tables)
    && (i >= 3 ==> OrderRefundAudit in db.tables)
    && (i >= 4 ==> ColRefundSnapshot in db.columns)
    && (i >= 5 ==> db.kinds == {Tickets, Recovery, Refund})
    && (i >= 6 ==> db.target != Some(RecoveryTarget))
    && (i >= 7 ==> db.target == Some(RefundTarget))
  }

  predicate Resumable26(db: Database) {
    && KeyColumns(db) && ColRefundSnapshot in db.columns && AllSatisfy(db.rows, EventChangeTarget)
    && (ColEventChangeId in db.columns ==> db.columns[ColEventChangeId])
    && (ColEventChangeId !in db.columns ==> NoneHas(db.rows, ColEventChangeId))
  }

  function Target26(db: Database): Database {
    db.(columns := db.columns[ColEventChangeId := true],
        kinds := {Tickets, Recovery, Refund, EventChange}, target := Some(EventChangeTarget))
  }

  predicate Ready26(i: nat, db: Database) {
    && (i >= 1 ==> ColEventChangeId in db.columns)
    && (i >= 2 ==> db.kinds == {Tickets, Recovery, Refund, EventChange})
    && (i == 3 ==> db.target.None?)
    && (i >= 4 ==> db.target == Some(EventChangeTarget))
  }

  /** Each check of email_queue accepts whatever the check before it accepted. */
  lemma ChecksWiden(rows: seq<Row>)
    ensures AllSatisfy(rows, RecoveryTarget) ==> AllSatisfy(rows, RefundTarget)
    ensures AllSatisfy(rows, RefundTarget) ==> AllSatisfy(rows, EventChangeTarget)
  {
    assert forall i :: 0 <= i < |rows| && Satisfies(rows[i], RecoveryTarget) ==> Satisfies(rows[i], RefundTarget);
    assert forall i :: 0 <= i < |rows| && Satisfies(rows[i], RefundTarget) ==> Satisfies(rows[i], EventChangeTarget);
  }

  /** `next` stands one place further than `db`, with the same goal. */
  predicate Advances21(i: nat, db: Database, next: Database) {
    Resumable21(next) && Ready21(i + 1, next) && Target21(next) == Target21(db)
  }

  lemma AddedSnapshotIsBlank(db: Database)
    requires Resumable21(db) && ColRefundSnapshot !in db.columns
    ensures BlankAll(db.rows, ColRefundSnapshot) == db.rows
  {
    assert NoneHas(db.rows, ColRefundSnapshot);
    assert forall k :: 0 <= k < |db.rows| ==> Field(db.rows[k], ColRefundSnapshot).None?;
  }

  lemma Step21(known: bool, i: nat, db: Database) returns (slot: Option<Statement>, next: Database)
    requires i < 7 && Resumable21(db) && Ready21(i, db)
    ensures slot == Slot(Refunds21(known), i, db) && Advances21(i, db, next)
    ensures slot.None? ==> next == db
    ensures slot.Some? ==> Accepts(slot.value, db) && next == Execute(slot.value, db)
  {
    slot, next := RefundsSlot(known, i, db), db;
    assert forall k :: 0 <= k < |db.rows| ==> Satisfies(db.rows[k], RefundTarget);
    if slot.Some? {
      next := Execute(slot.value, db);
      if i == 3 { AddedSnapshotIsBlank(db); }
      assert Target21(next).columns == Target21(db).columns;
      assert Target21(next).tables == Target21(db).tables;
    }
  }

  lemma Step26(i: nat, db: Database)
    requires i < 4 && Resumable26(db) && Ready26(i, db)
    ensures match EventChangesSlot(i, db)
      case None => Ready26(i + 1, db)
      case Some(st) => Accepts(st, db) && Resumable26(Execute(st, db)) && Ready26(i + 1, Execute(st, db))
                       && Target26(Execute(st, db)) == Target26(db)
  {
    var slot := EventChangesSlot(i, db);
    assert forall k :: 0 <= k < |db.rows| ==> Satisfies(db.rows[k], EventChangeTarget);
    if slot.Some? {
      var next := Execute(slot.value, db);
      if i == 0 {
        assert forall k :: 0 <= k < |db.rows| ==> Field(db.rows[k], ColEventChangeId).None?;
        assert next.rows == db.rows;
      }
      assert Target26(next).columns == Target26(db).columns;
    }
  }

  /** How a run from place i of version 21 ends. */
  predicate Concludes21(i: nat, db: Database, budget: nat, r: Run)
    requires i <= 7
  {
    && (r.outcome == Done || (r.outcome == Interrupted && r.budget == 0))
    && (budget >= 7 - i ==> r.outcome == Done)
    && Resumable21(r.db) && Target21(r.db) == Target21(db)
    && (r.outcome == Done ==> r.db == Target21(db))
  }

  lemma Concluded21(db: Database, budget: nat)
    requires Resumable21(db) && Ready21(7, db)
    ensures Concludes21(7, db, budget, Run(db, budget, Done))
  {
    assert db.columns == Target21(db).columns && db.tables == Target21(db).tables;
  }

  lemma ConcludesAtNextPlace(i: nat, db: Database, budget: nat, next: Database, left: nat, r: Run)
    requires i < 7 && Target21(next) == Target21(db) && left + 1 >= budget && Concludes21(i + 1, next, left, r)
    ensures Concludes21(i, db, budget, r)
  {
  }

  lemma {:induction false} RefundsProgress(known: bool, i: nat, db: Database, budget: nat)
    requires i <= 7 && Resumable21(db) && Ready21(i, db)
    ensures Concludes21(i, db, budget, RunFrom(Refunds21(known), i, db, budget))
    decreases 7 - i
  {
    if i == 7 {
      Concluded21(db, budget);
    } else {
      var slot, next := Step21(known, i, db);
      var cut, left := RunGoesOn(Refunds21(known), i, db, budget, slot, next);
      if !cut {
        RefundsProgress(known, i + 1, next, left);
        ConcludesAtNextPlace(i, db, budget, next, left, RunFrom(Refunds21(known), i, db, budget));
      }
    }
  }

  lemma {:induction false} EventChangesProgress(i: nat, db: Database, budget: nat)
    requires i <= 4 && Resumable26(db) && Ready26(i, db)
    ensures var r := RunFrom(EventChanges26, i, db, budget);
      && (r.outcome == Done || (r.outcome == Interrupted && r.budget == 0))
      && (budget >= 4 - i ==> r.outcome == Done)
      && Resumable26(r.db) && Target26(r.db) == Target26(db)
      && (r.outcome == Done ==> r.db == Target26(db))
    decreases 4 - i
  {
    if i < 4 {
      Step26(i, db);
      var slot := EventChangesSlot(i, db);
      if slot.None? { EventChangesProgress(i + 1, db, budget); }
      else if budget > 0 { EventChangesProgress(i + 1, Execute(slot.value, db), budget - 1); }
    }
  }

  lemma {:induction false} RefundsConverge(known: bool, db: Database, budgets: seq<nat>, last: nat)
    requires Resumable21(db) && last >= 7
    ensures RunVersion(V21(known), AfterRuns(V21(known), db, budgets), last).outcome == Done
    ensures RunVersion(V21(known), AfterRuns(V21(known), db, budgets), last).db == Target21(db)
    decreases |budgets|
  {
    if budgets == [] {
      RefundsProgress(known, 0, db, last);
    } else {
      RefundsProgress(known, 0, db, budgets[0]);
      RefundsConverge(known, RunVersion(V21(known), db, budgets[0]).db, budgets[1..], last);
    }
  }

  lemma {:induction false} EventChangesConverge(db: Database, budgets: seq<nat>, last: nat)
    requires Resumable26(db) && last >= 4
    ensures RunVersion(V26, AfterRuns(V26, db, budgets), last).outcome == Done
    ensures RunVersion(V26, AfterRuns(V26, db, budgets), last).db == Target26(db)
    decreases |budgets|
  {
    if budgets == [] {
      EventChangesProgress(0, db, last);
    } else {
      EventChangesProgress(0, db, budgets[0]);
      EventChangesConverge(RunVersion(V26, db, budgets[0]).db, budgets[1..], last);
    }
  }

  /** The three upgrades of email_queue one after the other, each interrupted as often as one likes:
      no row is lost, each keeps its order and everything but its two keys, and the keys follow the order. */
  lemma {:induction false} UpgradesKeepEveryRow(known: bool, db: Database, cuts14: seq<nat>, cuts21: seq<nat>, cuts26: seq<nat>)
    requires OldSchema(db)
    ensures
      var db14 := RunVersion(V14, AfterRuns(V14, db, cuts14), 20).db;
      var db21 := RunVersion(V21(known), AfterRuns(V21(known), db14, cuts21), 7).db;
      var db26 := RunVersion(V26, AfterRuns(V26, db21, cuts26), 4).db;
      && |db26.rows| == |db.rows|
      && (forall i :: 0 <= i < |db.rows| ==>
            && db.rows[i].orderId.Some?
            && db26.rows[i] == db.rows[i].(id := db.rows[i].orderId, dedupeKey := Some(TicketKey(db.rows[i].orderId.value))))
      && db26.primary == Some(ColId) && UqDedupe in db26.indexes
      && FkOrder in db26.foreignKeys && FkRecovery in db26.foreignKeys && db26.target == Some(EventChangeTarget)
  {
    OldSchemaIsResumable(db);
    RecoveryConverges(db, cuts14, 20);
    TargetsChain(db);
    RefundsConverge(known, Target14(db), cuts21, 7);
    EventChangesConverge(Target21(Target14(db)), cuts26, 4);
    assert forall i :: 0 <= i < |db.rows| ==> TicketRow(db.rows[i]);
  }

  /** Each upgrade leaves what the next one starts from. */
  lemma TargetsChain(db: Database)
    requires OldSchema(db) && TicketRows(db.rows)
    ensures Resumable21(Target14(db)) && Resumable26(Target21(Target14(db)))
  {
    assert forall i :: 0 <= i < |db.rows| ==> TicketRow(db.rows[i]);
    var rows := Target14(db).rows;
    assert AllSatisfy(rows, RecoveryTarget);
    ChecksWiden(rows);
  }

  // ---------------------------------------------------------------- the functions of migrate.go

  /** A database connection that is lost after a number of statements nobody knows in advance. */
  class Connection {
    var db: Database
    var budget: nat

    constructor (db: Database, budget: nat)
      ensures this.db == db && this.budget == budget
    {
      this.db := db;
      this.budget := budget;
    }

    /** Sends one statement; `Done` means that MySQL carried it out. */
    method Exec(st: Statement) returns (outcome: Outcome)
      modifies this
      ensures outcome == if old(budget) == 0 then Interrupted else if Accepts(st, old(db)) then Done else Rejected
      ensures db == if outcome == Done then Execute(st, old(db)) else old(db)
      ensures budget == if outcome == Done then old(budget) - 1 else old(budget)
    {
      if budget == 0 { return Interrupted; }
      if !Accepts(st, db) { return Rejected; }
      db := Execute(st, db);
      budget := budget - 1;
      return Done;
    }
  }

  /** The first three statements of resumeRecovery. */
  method CreateRecoveryTables(c: Connection, ghost latch: bool) returns (outcome: Outcome)
    requires latch == (c.db.primary == Some(ColId))
    modifies c
    ensures c.db.primary == old(c.db.primary)
    ensures if outcome == Done then RunFrom(Recovery14(latch), 3, c.db, c.budget) == RunFrom(Recovery14(latch), 0, old(c.db), old(c.budget))
            else Run(c.db, c.budget, outcome) == RunFrom(Recovery14(latch), 0, old(c.db), old(c.budget))
  {
    ghost var total := RunFrom(Recovery14(latch), 0, c.db, c.budget);
    for i := 0 to 3
      invariant c.db.primary == old(c.db.primary)
      invariant RunFrom(Recovery14(latch), i, c.db, c.budget) == total
    {
      outcome := c.Exec(CreateTable(RecoveryTables[i]));
      if outcome != Done { return; }
    }
    return Done;
  }

  /** Drops the foreign key in front of a primary key switch. */
  method DropForeignKey(c: Connection, primaryIsId: bool) returns (outcome: Outcome)
    modifies c
    ensures if outcome == Done then RunFrom(Recovery14(primaryIsId), 4, c.db, c.budget) == RunFrom(Recovery14(primaryIsId), 3, old(c.db), old(c.budget))
            else Run(c.db, c.budget, outcome) == RunFrom(Recovery14(primaryIsId), 3, old(c.db), old(c.budget))
  {
    if !primaryIsId && FkOrder in c.db.foreignKeys {
      outcome := c.Exec(DropOrderForeignKey);
      if outcome != Done { return; }
    }
    return Done;
  }

  /** Adds the columns that are missing. */
  method AddRecoveryColumns(c: Connection, primaryIsId: bool) returns (outcome: Outcome)
    modifies c
    ensures if outcome == Done then RunFrom(Recovery14(primaryIsId), 8, c.db, c.budget) == RunFrom(Recovery14(primaryIsId), 4, old(c.db), old(c.budget))
            else Run(c.db, c.budget, outcome) == RunFrom(Recovery14(primaryIsId), 4, old(c.db), old(c.budget))
  {
    ghost var total := RunFrom(Recovery14(primaryIsId), 4, c.db, c.budget);
    for i := 0 to 4
      invariant RunFrom(Recovery14(primaryIsId), 4 + i, c.db, c.budget) == total
    {
      var column := RecoveryColumns[i];
      if column.0 !in c.db.columns {
        outcome := c.Exec(AddColumn(column.0, column.1));
        if outcome != Done { return; }
      }
    }
    return Done;
  }

  /** Fills the keys, tests them and moves the primary key. */
  method FillAndSwitch(c: Connection, primaryIsId: bool) returns (outcome: Outcome)
    modifies c
    ensures if outcome == Done then RunFrom(Recovery14(primaryIsId), 11, c.db, c.budget) == RunFrom(Recovery14(primaryIsId), 8, old(c.db), old(c.budget))
            else Run(c.db, c.budget, outcome) == RunFrom(Recovery14(primaryIsId), 8, old(c.db), old(c.budget))
  {
    ghost var total := RunFrom(Recovery14(primaryIsId), 8, c.db, c.budget);
    outcome := c.Exec(FillKeys);
    if outcome != Done { return; }
    assert RunFrom(Recovery14(primaryIsId), 9, c.db, c.budget) == total;
    if KeysInvalid(c.db.rows) { return InvalidKeys; }
    assert RunFrom(Recovery14(primaryIsId), 10, c.db, c.budget) == total;
    if !primaryIsId {
      outcome := c.Exec(SwitchPrimary(c.db.primary.Some?));
      if outcome != Done { return; }
    }
    return Done;
  }

  /** Sets the nullability of the key columns and adds the indexes. */
  method SettleColumns(c: Connection, primaryIsId: bool) returns (outcome: Outcome)
    modifies c
    ensures if outcome == Done then RunFrom(Recovery14(primaryIsId), 17, c.db, c.budget) == RunFrom(Recovery14(primaryIsId), 11, old(c.db), old(c.budget))
            else Run(c.db, c.budget, outcome) == RunFrom(Recovery14(primaryIsId), 11, old(c.db), old(c.budget))
  {
    ghost var total := RunFrom(Recovery14(primaryIsId), 11, c.db, c.budget);
    for i := 0 to 3
      invariant RunFrom(Recovery14(primaryIsId), 11 + i, c.db, c.budget) == total
    {
      var wanted := RecoveryNullability[i];
      if !(wanted.0 in c.db.columns && c.db.columns[wanted.0] == wanted.1) {
        outcome := c.Exec(SetNullable(wanted.0, wanted.1));
        if outcome != Done { return; }
      }
    }
    for i := 0 to 3
      invariant RunFrom(Recovery14(primaryIsId), 14 + i, c.db, c.budget) == total
    {
      if RecoveryIndexes[i] !in c.db.indexes {
        outcome := c.Exec(AddIndex(RecoveryIndexes[i]));
        if outcome != Done { return; }
      }
    }
    return Done;
  }

  /** Adds the two foreign keys and the check. */
  method AddConstraints(c: Connection, primaryIsId: bool) returns (outcome: Outcome)
    modifies c
    ensures Run(c.db, c.budget, outcome) == RunFrom(Recovery14(primaryIsId), 17, old(c.db), old(c.budget))
  {
    ghost var total := RunFrom(Recovery14(primaryIsId), 17, c.db, c.budget);
    for i := 0 to 2
      invariant RunFrom(Recovery14(primaryIsId), 17 + i, c.db, c.budget) == total
    {
      if RecoveryKeys[i] !in c.db.foreignKeys {
        outcome := c.Exec(AddForeignKey(RecoveryKeys[i]));
        if outcome != Done { return; }
      }
    }
    if c.db.target.None? {
      outcome := c.Exec(AddTarget(RecoveryTarget));
      if outcome != Done { return; }
    }
    return Done;
  }

  /** resumeRecovery. */
  method ResumeRecovery(c: Connection) returns (outcome: Outcome)
    modifies c
    ensures Run(c.db, c.budget, outcome) == RunVersion(V14, old(c.db), old(c.budget))
    ensures Resumable14(old(c.db)) ==> outcome == Done || (outcome == Interrupted && c.budget == 0)
    ensures Resumable14(old(c.db)) ==> Resumable14(c.db) && Target14(c.db) == Target14(old(c.db))
    ensures Resumable14(old(c.db)) && outcome == Done ==> c.db == Target14(old(c.db))
  {
    outcome := RecoveryStatements(c);
    if Resumable14(old(c.db)) { RecoveryProgress(old(c.db).primary == Some(ColId), 0, old(c.db), old(c.budget)); }
  }

  method RecoveryStatements(c: Connection) returns (outcome: Outcome)
    modifies c
    ensures Run(c.db, c.budget, outcome) == RunVersion(V14, old(c.db), old(c.budget))
  {
    outcome := CreateRecoveryTables(c, c.db.primary == Some(ColId));
    if outcome != Done { return; }
    var primaryIsId := c.db.primary == Some(ColId);
    outcome := DropForeignKey(c, primaryIsId);
    if outcome != Done { return; }
    outcome := AddRecoveryColumns(c, primaryIsId);
    if outcome != Done { return; }
    outcome := FillAndSwitch(c, primaryIsId);
    if outcome != Done { return; }
    outcome := SettleColumns(c, primaryIsId);
    if outcome != Done { return; }
    outcome := AddConstraints(c, primaryIsId);
  }

  /** resumeRefunds. */
  method ResumeRefunds(c: Connection, known: bool) returns (outcome: Outcome)
    modifies c
    ensures Run(c.db, c.budget, outcome) == RunVersion(V21(known), old(c.db), old(c.budget))
    ensures Resumable21(old(c.db)) ==> outcome == Done || (outcome == Interrupted && c.budget == 0)
    ensures Resumable21(old(c.db)) ==> Resumable21(c.db) && Target21(c.db) == Target21(old(c.db))
    ensures Resumable21(old(c.db)) && outcome == Done ==> c.db == Target21(old(c.db))
  {
    outcome := CreateRefundTables(c, known);
    if outcome == Done { outcome := WidenForRefunds(c, known); }
    if outcome == Done { outcome := ExchangeTarget(c, known); }
    if Resumable21(old(c.db)) { RefundsProgress(known, 0, old(c.db), old(c.budget)); }
  }

  /** Sends the statement of place i of a run. */
  method SendAt(c: Connection, ghost p: Program, ghost i: nat, st: Statement) returns (outcome: Outcome)
    requires i < Length(p) && !p.Recovery14? && Slot(p, i, c.db) == Some(st)
    modifies c
    ensures if outcome == Done then RunFrom(p, i + 1, c.db, c.budget) == RunFrom(p, i, old(c.db), old(c.budget))
            else Run(c.db, c.budget, outcome) == RunFrom(p, i, old(c.db), old(c.budget))
  {
    outcome := c.Exec(st);
  }

  method CreateRefundTables(c: Connection, ghost known: bool) returns (outcome: Outcome)
    modifies c
    ensures if outcome == Done then RunFrom(Refunds21(known), 3, c.db, c.budget) == RunFrom(Refunds21(known), 0, old(c.db), old(c.budget))
            else Run(c.db, c.budget, outcome) == RunFrom(Refunds21(known), 0, old(c.db), old(c.budget))
  {
    outcome := SendAt(c, Refunds21(known), 0, AddOrderStatuses);
    if outcome != Done { return; }
    outcome := SendAt(c, Refunds21(known), 1, CreateTable(OrderRefunds));
    if outcome != Done { return; }
    outcome := SendAt(c, Refunds21(known), 2, CreateTable(OrderRefundAudit));
  }

  /** Gives email_queue the snapshot column and the third kind. */
  method WidenForRefunds(c: Connection, ghost known: bool) returns (outcome: Outcome)
    modifies c
    ensures if outcome == Done then RunFrom(Refunds21(known), 5, c.db, c.budget) == RunFrom(Refunds21(known), 3, old(c.db), old(c.budget))
            else Run(c.db, c.budget, outcome) == RunFrom(Refunds21(known), 3, old(c.db), old(c.budget))
  {
    if ColRefundSnapshot !in c.db.columns {
      outcome := SendAt(c, Refunds21(known), 3, AddColumn(ColRefundSnapshot, true));
      if outcome != Done { return; }
    } else {
      SkippedPlace(Refunds21(known), 3, c.db, c.budget);
    }
    outcome := SendAt(c, Refunds21(known), 4, SetKinds({Tickets, Recovery, Refund}));
  }

  /** Reads the text of the check and exchanges it unless it is recognised as the new one. */
  method ExchangeTarget(c: Connection, known: bool) returns (outcome: Outcome)
    modifies c
    ensures Run(c.db, c.budget, outcome) == RunFrom(Refunds21(known), 5, old(c.db), old(c.budget))
  {
    if c.db.target.Some? {
      if known && c.db.target.value != RecoveryTarget {
        assert RunFrom(Refunds21(known), 6, c.db, c.budget) == RunFrom(Refunds21(known), 5, old(c.db), old(c.budget));
        return Done;
      }
      outcome := c.Exec(DropTarget);
      if outcome != Done { return; }
    }
    assert RunFrom(Refunds21(known), 6, c.db, c.budget) == RunFrom(Refunds21(known), 5, old(c.db), old(c.budget));
    outcome := c.Exec(AddTarget(RefundTarget));
  }

  /** The part of resumeEventChanges that concerns email_queue. */
  method ResumeEventChanges(c: Connection) returns (outcome: Outcome)
    modifies c
    ensures Run(c.db, c.budget, outcome) == RunVersion(V26, old(c.db), old(c.budget))
    ensures Resumable26(old(c.db)) ==> outcome == Done || (outcome == Interrupted && c.budget == 0)
    ensures Resumable26(old(c.db)) ==> Resumable26(c.db) && Target26(c.db) == Target26(old(c.db))
    ensures Resumable26(old(c.db)) && outcome == Done ==> c.db == Target26(old(c.db))
  {
    outcome := WidenForEventChanges(c);
    if outcome == Done { outcome := ReplaceTarget(c); }
    if Resumable26(old(c.db)) { EventChangesProgress(0, old(c.db), old(c.budget)); }
  }

  method WidenForEventChanges(c: Connection) returns (outcome: Outcome)
    modifies c
    ensures if outcome == Done then RunFrom(EventChanges26, 2, c.db, c.budget) == RunFrom(EventChanges26, 0, old(c.db), old(c.budget))
            else Run(c.db, c.budget, outcome) == RunFrom(EventChanges26, 0, old(c.db), old(c.budget))
  {
    if ColEventChangeId !in c.db.columns {
      outcome := c.Exec(AddColumn(ColEventChangeId, true));
      if outcome != Done { return; }
    }
    assert RunFrom(EventChanges26, 1, c.db, c.budget) == RunFrom(EventChanges26, 0, old(c.db), old(c.budget));
    outcome := c.Exec(SetKinds({Tickets, Recovery, Refund, EventChange}));
  }

  method ReplaceTarget(c: Connection) returns (outcome: Outcome)
    modifies c
    ensures Run(c.db, c.budget, outcome) == RunFrom(EventChanges26, 2, old(c.db), old(c.budget))
  {
    if c.db.target.Some? {
      outcome := c.Exec(DropTarget);
      if outcome != Done { return; }
    }
    assert RunFrom(EventChanges26, 3, c.db, c.budget) == RunFrom(EventChanges26, 2, old(c.db), old(c.budget));
    outcome := c.Exec(AddTarget(EventChangeTarget));
  }
}
