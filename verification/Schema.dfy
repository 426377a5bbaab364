/** The tables, the audit log and the wire messages of the sync service. A table
    is a sequence of rows that are never removed, and a row's id is its index. */
module Schema {
  import opened Basics
  import opened Calendar

  /** A payload key that may be missing, null (or unusable), or carry a value. */
  datatype Field<+T> = Absent | Null | Given(value: T)

  /** What a payload writes in a reference column: an id issued by the server,
      or the client id of a row this device has not synced yet. */
  datatype Ref = Local(clientId: Id) | Server(id: nat)

  /** An instant and the calendar day it falls on at the location. */
  datatype Moment = Moment(ts: int, day: Day)

  // ------------------------------------------------------------------
  // Tables
  // ------------------------------------------------------------------

  datatype Player = Player(
    dedupKey: string,
    first: string,
    last: Option<string>,
    birth: Option<string>,
    grade: Option<string>,
    photoConsent: bool,
    school: Option<Id>,
    location: Id)

  datatype Consent = Consent(
    player: nat,
    consentType: string,
    granted: bool,
    how: Option<string>,
    capturedBy: Id,
    location: Id,
    ts: Option<int>,
    clientId: Option<Id>)

  datatype EntitlementStatus = Active | Expired | Cancelled

  /** `units` of `None` is an unlimited entitlement; dates are day numbers. */
  datatype Entitlement = Entitlement(
    player: nat,
    product: Id,
    status: EntitlementStatus,
    units: Option<int>,
    validFrom: Option<int>,
    validTo: Option<int>,
    location: Id,
    clientId: Option<Id>)

  datatype Entity =
    | PlayerEntity
    | ConsentEntity
    | SessionEntity
    | AttendanceEntity
    | PaymentEntity
    | EntitlementEntity
    | MetricsEntity
    | UnknownEntity(name: string)

  /** The columns a later edit may overwrite. */
  datatype Value =
    | SessionValue(duration: Option<int>, reference: Option<string>)
    | AttendanceValue(present: bool)
    | PaymentValue(how: Option<string>)
    | MetricValue(metric: string)

  /** A row of one of the four natural-key tables. `identity` holds the columns
      the key is built from, as they were inserted. */
  datatype Record = Record(
    entity: Entity,
    key: string,
    player: nat,
    session: Option<nat>,
    identity: seq<Option<string>>,
    lesson: Option<Id>,
    school: Option<Id>,
    location: Id,
    loggedBy: Id,
    value: Value,
    ts: Option<int>,
    clientId: Option<Id>)

  datatype LogAction = Insert | Update | Skip

  datatype LogEntry = LogEntry(
    entity: Entity,
    record: nat,
    action: LogAction,
    location: Id,
    user: Id,
    clientId: Option<Id>,
    clientTs: Option<int>,
    legacyMissing: bool)

  /** Product rules. `hoursPerWeek` distinguishes a missing key from a value
      that is not an integer, because only the latter makes a rule recurring. */
  datatype Rules = Rules(
    hoursPerWeek: Field<int>,
    hours: Option<int>,
    units: Option<int>,
    sessions: Option<int>,
    reset: Option<string>,
    minTermMonths: Option<int>,
    validDays: Option<int>,
    fixedWindow: bool)

  const NO_RULES := Rules(Absent, None, None, None, None, None, None, false)

  /** `known` holds the ids of the seeded locations, schools and lessons. */
  datatype Db = Db(
    players: seq<Player>,
    consents: seq<Consent>,
    entitlements: seq<Entitlement>,
    records: seq<Record>,
    log: seq<LogEntry>,
    products: map<Id, Rules>,
    known: set<Id>)
  {
    /** Everything but the audit log. */
    function Business(): Db {
      this.(log := [])
    }
  }

  predicate KnownOrNull(db: Db, id: Option<Id>) {
    id.None? || id.value in db.known
  }

  // ------------------------------------------------------------------
  // Wire messages
  // ------------------------------------------------------------------

  /** A birth date as the payload carries it, already reduced to ISO form. */
  datatype Birth = NoBirth | BirthDate(iso: string) | Unparsable

  datatype Body =
    | PlayerBody(first: Option<string>, last: Option<string>, birth: Birth, grade: Option<string>,
                 location: Option<Id>, school: Option<Id>)
    | ConsentBody(player: Option<Ref>, consentType: Option<string>, granted: Field<bool>,
                  how: Option<string>)
    | EntitlementBody(player: Option<Ref>, product: Option<Id>, entitlement: Option<Ref>, amount: Option<int>)
    | SessionBody(player: Option<Ref>, sessionType: Option<string>, startedAt: Option<string>,
                  endedAt: Option<string>, duration: Option<int>, reference: Field<string>,
                  school: Option<Id>)
    | AttendanceBody(player: Option<Ref>, session: Option<Ref>, date: Option<string>, present: Option<bool>,
                     school: Option<Id>)
    | PaymentBody(player: Option<Ref>, product: Option<Id>, amountCents: Option<int>, how: Option<string>,
                  paidAt: Option<string>)
    | MetricsBody(player: Option<Ref>, metricType: Option<string>, metric: Option<string>,
                  measuredAt: Option<string>, lesson: Option<Id>)
    | UnknownBody(name: string)
  {
    function EntityName(): Entity {
      match this
      case PlayerBody(_, _, _, _, _, _) => PlayerEntity
      case ConsentBody(_, _, _, _) => ConsentEntity
      case EntitlementBody(_, _, _, _) => EntitlementEntity
      case SessionBody(_, _, _, _, _, _, _) => SessionEntity
      case AttendanceBody(_, _, _, _, _) => AttendanceEntity
      case PaymentBody(_, _, _, _, _) => PaymentEntity
      case MetricsBody(_, _, _, _, _) => MetricsEntity
      case UnknownBody(name) => UnknownEntity(name)
    }

    /** `payload.player_id`; a player action and an unknown one carry none. */
    function PlayerRef(): Option<Ref> {
      if PlayerBody? || UnknownBody? then None else this.player
    }

    /** `payload.session_id`, read for attendance only. */
    function SessionRef(): Option<Ref> {
      if AttendanceBody? then this.session else None
    }

    function WithPlayer(id: nat): Body
      requires !PlayerBody? && !UnknownBody?
    {
      this.(player := Some(Server(id)))
    }

    function WithSession(id: nat): Body
      requires AttendanceBody?
    {
      this.(session := Some(Server(id)))
    }
  }

  datatype Action = Action(clientId: Id, at: Moment, body: Body)

  datatype ActionStatus = Applied | Skipped | Rejected

  datatype ActionResult = ActionResult(
    clientId: Id,
    entity: Entity,
    status: ActionStatus,
    recordId: Option<nat>,
    reason: string)

  /** A call that returns, or raises and leaves its caller to roll back. */
  datatype Outcome<+T> = Returned(result: T) | Raised(message: string)

  // ------------------------------------------------------------------
  // The audit log
  // ------------------------------------------------------------------

  /** How the audit append of one action behaves. */
  datatype Audit = Works | SignatureFails | Breaks

  predicate HasReceipt(log: seq<LogEntry>, clientId: Id) {
    exists i :: 0 <= i < |log| && log[i].clientId == Some(clientId)
  }

  /** The partial unique index on `sync_log.client_id`. */
  ghost predicate UniqueReceipts(log: seq<LogEntry>) {
    forall i, j :: 0 <= i < j < |log| && log[i].clientId.Some? ==> log[i].clientId != log[j].clientId
  }

  /** `append_sync_log`: raises when the audit is down or the receipt is taken. */
  function Logged(db: Db, entry: LogEntry, audit: Audit): (r: Outcome<Db>)
    ensures r.Returned? ==> r.result.Business() == db.Business() && r.result.log == db.log + [entry]
    ensures r.Returned? && UniqueReceipts(db.log) ==> UniqueReceipts(r.result.log)
    ensures r.Returned? <==> audit == Works && (entry.clientId.None? || !HasReceipt(db.log, entry.clientId.value))
  {
    if audit != Works then Raised("audit append failed")
    else if entry.clientId.Some? && HasReceipt(db.log, entry.clientId.value) then Raised("duplicate client_id")
    else Returned(db.(log := db.log + [entry]))
  }

  /** A database connection: `durable` is what has been committed, `work` is
      what the open transaction sees. */
  class Connection {
    var durable: Db
    var work: Db

    constructor (db: Db)
      ensures durable == work == db
    {
      durable, work := db, db;
    }

    method Commit()
      modifies this
      ensures durable == work == old(work)
    {
      durable := work;
    }

    method Rollback()
      modifies this
      ensures durable == work == old(durable)
    {
      work := durable;
    }

    /** `append_sync_log` on this transaction; it never commits. */
    method Append(entry: LogEntry, audit: Audit) returns (ok: bool)
      modifies this`work
      ensures ok == Logged(old(work), entry, audit).Returned?
      ensures work == if ok then Logged(old(work), entry, audit).result else old(work)
    {
      var logged := Logged(work, entry, audit);
      ok := logged.Returned?;
      if ok {
        work := logged.result;
      }
    }
  }
}
