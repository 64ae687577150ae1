/** The email_queue table as MySQL's information_schema shows it, its rows, and the statements
    that the migrations send to it.  `Accepts` says when MySQL carries a statement out;
    `Execute` is what the statement does.  Every ALTER is atomic and commits implicitly. */
module EmailQueueSchema {
  import opened Options

  datatype Kind = Tickets | Recovery | Refund | EventChange

  /** A column that the table does not have yet reads as NULL, or as 'TICKETS' for kind. */
  datatype Row = Row(
    id: Option<string>,
    kind: Kind,
    dedupeKey: Option<string>,
    orderId: Option<string>,
    requestId: Option<string>,
    refundSnapshot: Option<string>,
    eventChangeId: Option<string>,
    payload: string)

  datatype Column = ColId | ColKind | ColDedupeKey | ColOrderId | ColRequestId | ColRefundSnapshot | ColEventChangeId
  datatype Index = UqDedupe | IxOrder | IxRecovery | IxOther(name: string)
  datatype ForeignKey = FkOrder | FkRecovery
  datatype Table = RecoveryRequests | RecoveryTokens | RateLimits | OrderRefunds | OrderRefundAudit
  /** The three texts that chk_email_queue_target has over time. */
  datatype Clause = RecoveryTarget | RefundTarget | EventChangeTarget

  datatype Database = Database(
    tables: set<Table>,
    columns: map<Column, bool>, // the value is IS_NULLABLE
    primary: Option<Column>,
    indexes: set<Index>,
    foreignKeys: set<ForeignKey>,
    target: Option<Clause>,
    kinds: set<Kind>,
    refundStatuses: bool, // orders.status has the two refund values
    rows: seq<Row>,
    orders: set<string>,
    requests: set<string>)

  datatype Statement =
    | CreateTable(table: Table) // CREATE TABLE IF NOT EXISTS
    | AddOrderStatuses
    | DropOrderForeignKey
    | AddColumn(column: Column, nullable: bool)
    | FillKeys
    | SwitchPrimary(dropOld: bool)
    | SetNullable(column: Column, nullable: bool)
    | AddIndex(index: Index)
    | AddForeignKey(key: ForeignKey)
    | SetKinds(kinds: set<Kind>)
    | DropTarget
    | AddTarget(clause: Clause)

  function Field(row: Row, column: Column): Option<string> {
    match column
    case ColId => row.id
    case ColKind => Some("")
    case ColDedupeKey => row.dedupeKey
    case ColOrderId => row.orderId
    case ColRequestId => row.requestId
    case ColRefundSnapshot => row.refundSnapshot
    case ColEventChangeId => row.eventChangeId
  }

  predicate NoNulls(rows: seq<Row>, column: Column) {
    forall i :: 0 <= i < |rows| ==> Field(rows[i], column).Some?
  }

  /** No two rows share a value that is not NULL. */
  predicate Unique(rows: seq<Row>, column: Column) {
    forall i, j :: 0 <= i < j < |rows| && Field(rows[i], column).Some? ==> Field(rows[i], column) != Field(rows[j], column)
  }

  predicate Refers(rows: seq<Row>, column: Column, parents: set<string>) {
    forall i :: 0 <= i < |rows| && Field(rows[i], column).Some? ==> Field(rows[i], column).value in parents
  }

  predicate Satisfies(row: Row, clause: Clause) {
    match row.kind
    case Tickets => row.orderId.Some? && row.requestId.None?
    case Recovery => row.orderId.None? && row.requestId.Some?
    case Refund => clause != RecoveryTarget && row.orderId.Some? && row.requestId.None? && row.refundSnapshot.Some?
    case EventChange => clause == EventChangeTarget && row.orderId.Some? && row.requestId.None? && row.eventChangeId.Some?
  }

  predicate AllSatisfy(rows: seq<Row>, clause: Clause) {
    forall i :: 0 <= i < |rows| ==> Satisfies(rows[i], clause)
  }

  predicate KindsWithin(rows: seq<Row>, kinds: set<Kind>) {
    forall i :: 0 <= i < |rows| ==> rows[i].kind in kinds
  }

  predicate HasClauseColumns(columns: map<Column, bool>, clause: Clause) {
    && ColKind in columns && ColOrderId in columns && ColRequestId in columns
    && (clause != RecoveryTarget ==> ColRefundSnapshot in columns)
    && (clause == EventChangeTarget ==> ColEventChangeId in columns)
  }

  function IndexColumn(index: Index): Option<Column> {
    match index
    case UqDedupe => Some(ColDedupeKey)
    case IxOrder => Some(ColOrderId)
    case IxRecovery => Some(ColRequestId)
    case IxOther(_) => None
  }

  /** MySQL's precondition for each statement. */
  predicate Accepts(st: Statement, db: Database) {
    match st
    case CreateTable(t) =>
      && (t == RecoveryTokens ==> RecoveryRequests in db.tables)
      && (t == OrderRefundAudit ==> OrderRefunds in db.tables)
    case AddOrderStatuses => true
    case DropOrderForeignKey => FkOrder in db.foreignKeys
    case AddColumn(c, _) => c !in db.columns
    case FillKeys => ColId in db.columns && ColKind in db.columns && ColDedupeKey in db.columns && ColOrderId in db.columns
    case SwitchPrimary(dropOld) =>
      && ColId in db.columns
      && NoNulls(db.rows, ColId) && Unique(db.rows, ColId)
      && dropOld == db.primary.Some?
      // a foreign key needs an index that starts with its column
      && (db.primary == Some(ColOrderId) && FkOrder in db.foreignKeys ==> IxOrder in db.indexes)
    case SetNullable(c, nullable) =>
      && c in db.columns
      && (if nullable then db.primary != Some(c) else NoNulls(db.rows, c))
    case AddIndex(ix) =>
      && ix !in db.indexes
      && (IndexColumn(ix).Some? ==> IndexColumn(ix).value in db.columns)
      && (ix == UqDedupe ==> Unique(db.rows, ColDedupeKey))
    case AddForeignKey(k) =>
      && k !in db.foreignKeys
      && (match k
          case FkOrder => ColOrderId in db.columns && Refers(db.rows, ColOrderId, db.orders)
          case FkRecovery => RecoveryRequests in db.tables && ColRequestId in db.columns && Refers(db.rows, ColRequestId, db.requests))
    case SetKinds(kinds) => ColKind in db.columns && KindsWithin(db.rows, kinds)
    case DropTarget => db.target.Some?
    case AddTarget(clause) => db.target.None? && HasClauseColumns(db.columns, clause) && AllSatisfy(db.rows, clause)
  }

  function TicketKey(orderId: string): string {
    "tickets:" + orderId
  }

  function Coalesce(a: Option<string>, b: Option<string>): Option<string> {
    if a.Some? then a else b
  }

  /** One row under the key-filling UPDATE of version 14. */
  function Fill(row: Row): Row {
    if row.kind == Tickets && row.orderId.Some? && (row.id.None? || row.dedupeKey.None?) then
      row.(id := Coalesce(row.id, row.orderId), dedupeKey := Coalesce(row.dedupeKey, Some(TicketKey(row.orderId.value))))
    else row
  }

  function FillAll(rows: seq<Row>): (filled: seq<Row>)
    ensures |filled| == |rows|
    ensures forall i :: 0 <= i < |rows| ==> filled[i] == Fill(rows[i])
  {
    seq(|rows|, i requires 0 <= i < |rows| => Fill(rows[i]))
  }

  /** The default that ADD COLUMN writes into a row. */
  function Blank(row: Row, column: Column): Row {
    match column
    case ColId => row.(id := None)
    case ColKind => row.(kind := Tickets)
    case ColDedupeKey => row.(dedupeKey := None)
    case ColOrderId => row.(orderId := None)
    case ColRequestId => row.(requestId := None)
    case ColRefundSnapshot => row.(refundSnapshot := None)
    case ColEventChangeId => row.(eventChangeId := None)
  }

  function BlankAll(rows: seq<Row>, column: Column): (blanked: seq<Row>)
    ensures |blanked| == |rows|
    ensures forall i :: 0 <= i < |rows| ==> blanked[i] == Blank(rows[i], column)
  {
    seq(|rows|, i requires 0 <= i < |rows| => Blank(rows[i], column))
  }

  function Execute(st: Statement, db: Database): Database {
    match st
    case CreateTable(t) => db.(tables := db.tables + {t})
    case AddOrderStatuses => db.(refundStatuses := true)
    case DropOrderForeignKey => db.(foreignKeys := db.foreignKeys - {FkOrder})
    case AddColumn(c, nullable) =>
      db.(columns := db.columns[c := nullable],
          rows := BlankAll(db.rows, c),
          kinds := if c == ColKind then {Tickets, Recovery} else db.kinds)
    case FillKeys => db.(rows := FillAll(db.rows))
    case SwitchPrimary(_) => db.(columns := db.columns[ColId := false], primary := Some(ColId))
    case SetNullable(c, nullable) => db.(columns := db.columns[c := nullable])
    case AddIndex(ix) => db.(indexes := db.indexes + {ix})
    case AddForeignKey(k) => db.(foreignKeys := db.foreignKeys + {k})
    case SetKinds(kinds) => db.(kinds := kinds)
    case DropTarget => db.(target := None)
    case AddTarget(clause) => db.(target := Some(clause))
  }

  lemma TicketKeyInjective(a: string, b: string)
    requires TicketKey(a) == TicketKey(b)
    ensures a == b
  {
    assert TicketKey(a)[8..] == a && TicketKey(b)[8..] == b;
  }
}
