/** The sync service: one action at a time, each in its own transaction. Every
    handler is given as a specification (what it leaves committed and answers)
    and as the procedure that reads, writes, audits and commits. */
module Service {
  import opened Basics
  import opened Schema
  import opened Rbac
  import opened Mapping
  import opened Dedup
  import opened Resolution
  import Engine

  // ------------------------------------------------------------------
  // Last write wins
  // ------------------------------------------------------------------

  function ClientText(clientId: Option<Id>): string {
    if clientId.None? then "None" else clientId.value
  }

  /** `_prefers_incoming`. */
  predicate PrefersIncoming(incomingTs: Option<int>, incomingId: Option<Id>, storedTs: Option<int>,
                            storedId: Option<Id>) {
    if storedTs.None? then incomingTs.Some?
    else if incomingTs.None? then false
    else if incomingTs.value > storedTs.value then true
    else if incomingTs.value < storedTs.value then false
    else StrLess(ClientText(storedId), ClientText(incomingId))
  }

  // ------------------------------------------------------------------
  // Results
  // ------------------------------------------------------------------

  function Answer(a: Action, status: ActionStatus, recordId: Option<nat>): ActionResult {
    ActionResult(a.clientId, a.body.EntityName(), status, recordId, "")
  }

  function Reject(a: Action, reason: string): ActionResult {
    ActionResult(a.clientId, a.body.EntityName(), Rejected, None, reason)
  }

  /** An audit entry of this service; only draws and entitlement creates carry
      the client id into the log. */
  function Entry(e: Entity, record: nat, action: LogAction, location: Id, user: Id, a: Action): LogEntry {
    LogEntry(e, record, action, location, user, None, Some(a.at.ts), false)
  }

  /** Commit one audited change, or raise and leave the tables alone. */
  function Audited(db: Db, changed: Db, entry: LogEntry, audit: Audit, answer: ActionResult): (Db,
                                                                                               Outcome<ActionResult>) {
    var logged := Logged(changed, entry, audit);
    if logged.Raised? then (db, Raised(logged.message)) else (logged.result, Returned(answer))
  }

  // ------------------------------------------------------------------
  // Row lookups
  // ------------------------------------------------------------------

  /** `_resolve_player_scope`: a reference that names a row of the table. */
  predicate PlayerExists(db: Db, r: Ref) {
    r.Server? && r.id < |db.players|
  }

  predicate SessionExists(db: Db, r: Ref) {
    r.Server? && r.id < |db.records| && db.records[r.id].entity.SessionEntity?
  }

  /** `_resolve_entitlement_scope` joins the entitlement with its player. */
  predicate EntitlementExists(db: Db, r: Ref) {
    r.Server? && r.id < |db.entitlements| && db.entitlements[r.id].player < |db.players|
  }

  function FindConsent(db: Db, clientId: Id): Option<nat> {
    Find(db.consents, (c: Consent) => c.clientId == Some(clientId))
  }

  function FindEntitlement(db: Db, clientId: Id): Option<nat> {
    Find(db.entitlements, (e: Entitlement) => e.clientId == Some(clientId))
  }

  function FindRecord(db: Db, key: string): Option<nat> {
    Find(db.records, (r: Record) => r.key == key)
  }

  // ------------------------------------------------------------------
  // Players
  // ------------------------------------------------------------------

  function PlayerCandidate(a: Action): PlayerRecord
    requires a.body.PlayerBody?
  {
    PlayerRecord(a.clientId, a.body.first, a.body.last, a.body.birth, a.body.grade, None, 1.0)
  }

  function WithSchool(players: seq<Player>, id: nat, school: Option<Id>): seq<Player>
    requires id < |players|
  {
    players[id := players[id].(school := Coalesce(players[id].school, school))]
  }

  /** Writing a school that is not a known one violates its foreign key. */
  predicate SchoolWritable(db: Db, row: Player, school: Option<Id>) {
    row.school.Some? || KnownOrNull(db, school)
  }

  ghost function PlayerApplied(db: Db, s: Scope, a: Action, user: Id, audit: Audit): (Db, Outcome<ActionResult>)
    requires a.body.PlayerBody?
  {
    if a.body.location.Some? && !CanWrite(s, a.body.location, a.body.school) then (db, Raised("out_of_scope"))
    else
      var (location, school) := Stamp(s, a.body.location, a.body.school);
      if location.None? then (db, Returned(Reject(a, "location_required")))
      else
        var run := Resolved(db.players, [PlayerCandidate(a)], location.value, db.known);
        if run.Raised? then (db, Raised(run.message))
        else if a.clientId !in run.result.1.resolved then (db, Returned(Reject(a, "unresolved_player")))
        else
          var players, id := run.result.0, run.result.1.resolved[a.clientId];
          var isNew := id in run.result.1.created;
          if id >= |players| || !SchoolWritable(db, players[id], school) then (db, Raised("foreign key"))
          else
            Audited(db, db.(players := WithSchool(players, id, school)),
                    Entry(PlayerEntity, id, if isNew then Insert else Skip, location.value, user, a), audit,
                    Answer(a, if isNew then Applied else Skipped, Some(id)))
  }

  method ApplyPlayer(conn: Connection, s: Scope, a: Action, user: Id, audit: Audit) returns (r: Outcome<ActionResult>)
    requires a.body.PlayerBody? && conn.work == conn.durable
    modifies conn
    ensures (conn.durable, r) == PlayerApplied(old(conn.durable), s, a, user, audit)
    ensures r.Returned? ==> conn.work == conn.durable
  {
    if a.body.location.Some? && !CanWrite(s, a.body.location, a.body.school) {
      return Raised("out_of_scope");
    }
    var (location, school) := Stamp(s, a.body.location, a.body.school);
    if location.None? {
      return Returned(Reject(a, "location_required"));
    }
    var resolution := ResolvePlayers(conn, [PlayerCandidate(a)], location.value);
    if resolution.Raised? {
      return Raised(resolution.message);
    }
    if a.clientId !in resolution.result.resolved {
      conn.Rollback();
      return Returned(Reject(a, "unresolved_player"));
    }
    var id := resolution.result.resolved[a.clientId];
    var isNew := id in resolution.result.created;
    if id >= |conn.work.players| || !SchoolWritable(conn.work, conn.work.players[id], school) {
      return Raised("foreign key");
    }
    conn.work := conn.work.(players := WithSchool(conn.work.players, id, school));
    r := FinishAudited(conn, Entry(PlayerEntity, id, if isNew then Insert else Skip, location.value, user, a), audit,
                       Answer(a, if isNew then Applied else Skipped, Some(id)));
  }

  /** Append the audit entry to the open transaction and commit both, or raise. */
  method FinishAudited(conn: Connection, entry: LogEntry, audit: Audit, answer: ActionResult)
    returns (r: Outcome<ActionResult>)
    modifies conn
    ensures (conn.durable, r) == Audited(old(conn.durable), old(conn.work), entry, audit, answer)
    ensures r.Returned? ==> conn.work == conn.durable
  {
    var before := conn.work;
    var ok := conn.Append(entry, audit);
    if !ok {
      return Raised(Logged(before, entry, audit).message);
    }
    conn.Commit();
    r := Returned(answer);
  }

  // ------------------------------------------------------------------
  // Consents
  // ------------------------------------------------------------------

  /** A missing key means granted; an explicit null is false. */
  function Granted(granted: Field<bool>): bool {
    granted.Absent? || (granted.Given? && granted.value)
  }

  function NewConsent(a: Action, player: nat, location: Id, user: Id): Consent
    requires a.body.ConsentBody? && a.body.consentType.Some?
  {
    Consent(player, a.body.consentType.value, Granted(a.body.granted),
            a.body.how, user, location, Some(a.at.ts), Some(a.clientId))
  }

  function ConsentApplied(db: Db, s: Scope, a: Action, user: Id, audit: Audit): (Db, Outcome<ActionResult>)
    requires a.body.ConsentBody?
  {
    if a.body.player.None? then (db, Returned(Reject(a, "player_required")))
    else if !PlayerExists(db, a.body.player.value) then (db, Raised("player not found"))
    else
      var player := a.body.player.value.id;
      var location := db.players[player].location;
      if !CanWrite(s, Some(location), db.players[player].school) then (db, Raised("out_of_scope"))
      else if a.body.consentType.None? || a.body.consentType.value == "" then
        (db, Returned(Reject(a, "consent_type_required")))
      else
        var existing := FindConsent(db, a.clientId);
        if existing.Some? then
          Audited(db, db, Entry(ConsentEntity, existing.value, Skip, location, user, a), audit,
                  Answer(a, Skipped, existing))
        else
          var appended := db.(consents := db.consents + [NewConsent(a, player, location, user)]);
          Audited(db, appended, Entry(ConsentEntity, |db.consents|, Insert, location, user, a), audit,
                  Answer(a, Applied, Some(|db.consents|)))
  }

  /** `append_consent`: the ledger only ever grows. */
  method AppendConsent(conn: Connection, row: Consent, user: Id, a: Action, audit: Audit) returns (ok: bool, id: nat)
    modifies conn`work
    ensures id == |old(conn.work.consents)|
    ensures var grown := old(conn.work).(consents := old(conn.work.consents) + [row]);
            var logged := Logged(grown, Entry(ConsentEntity, id, Insert, row.location, user, a), audit);
            ok == logged.Returned? && conn.work == if ok then logged.result else old(conn.work)
  {
    var savepoint := conn.work;
    id := |conn.work.consents|;
    conn.work := conn.work.(consents := conn.work.consents + [row]);
    ok := conn.Append(Entry(ConsentEntity, id, Insert, row.location, user, a), audit);
    if !ok {
      conn.work := savepoint;
    }
  }

  method ApplyConsent(conn: Connection, s: Scope, a: Action, user: Id, audit: Audit) returns (r: Outcome<ActionResult>)
    requires a.body.ConsentBody? && conn.work == conn.durable
    modifies conn
    ensures (conn.durable, r) == ConsentApplied(old(conn.durable), s, a, user, audit)
    ensures r.Returned? ==> conn.work == conn.durable
  {
    if a.body.player.None? {
      return Returned(Reject(a, "player_required"));
    }
    if !PlayerExists(conn.work, a.body.player.value) {
      return Raised("player not found");
    }
    var player := a.body.player.value.id;
    var location := conn.work.players[player].location;
    if !CanWrite(s, Some(location), conn.work.players[player].school) {
      return Raised("out_of_scope");
    }
    if a.body.consentType.None? || a.body.consentType.value == "" {
      return Returned(Reject(a, "consent_type_required"));
    }
    var existing := FindConsent(conn.work, a.clientId);
    if existing.Some? {
      r := FinishAudited(conn, Entry(ConsentEntity, existing.value, Skip, location, user, a), audit,
                         Answer(a, Skipped, existing));
      return;
    }
    var ok, id := AppendConsent(conn, NewConsent(a, player, location, user), user, a, audit);
    if !ok {
      return Raised("audit append failed");
    }
    conn.Commit();
    r := Returned(Answer(a, Applied, Some(id)));
  }

  // ------------------------------------------------------------------
  // Entitlements
  // ------------------------------------------------------------------

  function DrawReason(status: Engine.DrawStatus): string {
    match status
    case InvalidAmount => "invalid_amount"
    case NotFound => "not_found"
    case Inactive => "inactive"
    case InsufficientUnits => "insufficient_units"
    case SignatureFailed => "signature_failed"
    case _ => ""
  }

  function DrawAnswer(a: Action, id: nat, status: Engine.DrawStatus): ActionResult {
    if status.DrawApplied? then Answer(a, Applied, Some(id))
    else if status.DrawSkipped? then Answer(a, Skipped, Some(id))
    else ActionResult(a.clientId, EntitlementEntity, Rejected, Some(id), DrawReason(status))
  }

  predicate IsDraw(b: Body) {
    b.EntitlementBody? && b.entitlement.Some? && b.amount.Some?
  }

  function EntitlementApplied(db: Db, s: Scope, a: Action, user: Id, audit: Audit): (Db, Outcome<ActionResult>)
    requires a.body.EntitlementBody?
  {
    if IsDraw(a.body) then
      if !EntitlementExists(db, a.body.entitlement.value) then (db, Raised("entitlement not found"))
      else
        var id := a.body.entitlement.value.id;
        var row := db.entitlements[id];
        if !CanWrite(s, Some(row.location), db.players[row.player].school) then (db, Raised("out_of_scope"))
        else
          var drawn := Engine.Drawn(db, id, a.body.amount.value, user, a.at, Some(a.clientId), audit);
          (drawn.0, if drawn.1.Raised? then Raised(drawn.1.message)
                    else Returned(DrawAnswer(a, id, drawn.1.result.status)))
    else if a.body.player.None? || a.body.product.None? then (db, Returned(Reject(a, "player_and_product_required")))
    else if !PlayerExists(db, a.body.player.value) then (db, Raised("player not found"))
    else
      var player := a.body.player.value.id;
      var location := db.players[player].location;
      if !CanWrite(s, Some(location), db.players[player].school) then (db, Raised("out_of_scope"))
      else
        var existing := FindEntitlement(db, a.clientId);
        if existing.Some? then
          Audited(db, db, Entry(EntitlementEntity, existing.value, Skip, location, user, a), audit,
                  Answer(a, Skipped, existing))
        else
          var made := Engine.Created(db, player, a.body.product.value, location, user, a.at, Some(a.clientId), audit);
          (made.0, if made.1.Raised? then Raised(made.1.message) else Returned(Answer(a, Applied, Some(made.1.result))))
  }

  method ApplyEntitlement(conn: Connection, s: Scope, a: Action, user: Id, audit: Audit)
    returns (r: Outcome<ActionResult>)
    requires a.body.EntitlementBody? && conn.work == conn.durable
    modifies conn
    ensures (conn.durable, r) == EntitlementApplied(old(conn.durable), s, a, user, audit)
    ensures r.Returned? ==> conn.work == conn.durable
  {
    if IsDraw(a.body) {
      if !EntitlementExists(conn.work, a.body.entitlement.value) {
        return Raised("entitlement not found");
      }
      var id := a.body.entitlement.value.id;
      var row := conn.work.entitlements[id];
      if !CanWrite(s, Some(row.location), conn.work.players[row.player].school) {
        return Raised("out_of_scope");
      }
      var drawn := Engine.DrawEntitlement(conn, id, a.body.amount.value, user, a.at, Some(a.clientId), audit);
      if drawn.Raised? {
        return Raised(drawn.message);
      }
      return Returned(DrawAnswer(a, id, drawn.result.status));
    }
    if a.body.player.None? || a.body.product.None? {
      return Returned(Reject(a, "player_and_product_required"));
    }
    if !PlayerExists(conn.work, a.body.player.value) {
      return Raised("player not found");
    }
    var player := a.body.player.value.id;
    var location := conn.work.players[player].location;
    if !CanWrite(s, Some(location), conn.work.players[player].school) {
      return Raised("out_of_scope");
    }
    var existing := FindEntitlement(conn.work, a.clientId);
    if existing.Some? {
      r := FinishAudited(conn, Entry(EntitlementEntity, existing.value, Skip, location, user, a), audit,
                         Answer(a, Skipped, existing));
      return;
    }
    var made := Engine.CreateEntitlement(conn, player, a.body.product.value, location, user, a.at, Some(a.clientId),
                                         audit);
    if made.Raised? {
      return Raised(made.message);
    }
    r := Returned(Answer(a, Applied, Some(made.result)));
  }

  // ------------------------------------------------------------------
  // Natural-key entities
  // ------------------------------------------------------------------

  const SESSION_TYPES := {"lesson", "kit", "esports", "lounge"}
  const FACILITATOR_SESSION_TYPES := {"lesson", "kit", "esports"}

  function BodySchool(b: Body): Option<Id> {
    if b.SessionBody? || b.AttendanceBody? then b.school else None
  }

  /** Everything that is checked before the key is looked up; `None` is a pass. */
  function NaturalRefusal(db: Db, s: Scope, a: Action): Option<Outcome<ActionResult>>
    requires IsNatural(a.body.EntityName())
  {
    if a.body.player.None? then Some(Returned(Reject(a, "player_required")))
    else if !PlayerExists(db, a.body.player.value) then Some(Raised("player not found"))
    else
      var player := db.players[a.body.player.value.id];
      if !CanWrite(s, Some(player.location), player.school) then Some(Raised("out_of_scope"))
      else
        var session := a.body.SessionRef();
        if a.body.AttendanceBody? && session.None? && s.role.Facilitator? then
          Some(Returned(Reject(a, "session_required")))
        else if session.Some? && !SessionExists(db, session.value) then Some(Raised("session not found"))
        else if session.Some?
                && !CanWrite(s, Some(db.records[session.value.id].location), db.records[session.value.id].school)
        then Some(Raised("out_of_scope"))
        else if session.Some? && db.records[session.value.id].player != a.body.player.value.id then
          Some(Returned(Reject(a, "session_player_mismatch")))
        else if a.body.PaymentBody? && a.body.amountCents.None? then Some(Returned(Reject(a, "bad_amount")))
        else if a.body.MetricsBody? && (a.body.metricType.None? || a.body.metricType.value !in METRIC_TYPES) then
          Some(Returned(Reject(a, "invalid_metric_type")))
        else if a.body.MetricsBody? && a.body.metric.None? then Some(Returned(Reject(a, "value_required")))
        else if (a.body.SessionBody? || a.body.AttendanceBody?)
                && !CanWrite(s, Some(player.location), EffectiveSchool(a.body, player))
        then Some(Raised("out_of_scope"))
        else None
  }

  /** A session or attendance row inherits the player's school. */
  function EffectiveSchool(b: Body, player: Player): Option<Id> {
    if b.SessionBody? || b.AttendanceBody? then Coalesce(BodySchool(b), player.school) else None
  }

  function SessionId(b: Body): Option<nat> {
    var session := b.SessionRef();
    if session.Some? && session.value.Server? then Some(session.value.id) else None
  }

  function Identity(a: Action): seq<Option<string>>
    requires IsNatural(a.body.EntityName()) && a.body.player.Some? && a.body.player.value.Server?
  {
    IdentityOf(a.body, a.body.player.value.id, SessionId(a.body))
  }

  function KeyFor(a: Action): string
    requires IsNatural(a.body.EntityName()) && a.body.player.Some? && a.body.player.value.Server?
  {
    NaturalKey(a.body.EntityName(), Identity(a))
  }

  /** The mutable columns of a first insert; a missing `present` takes the
      column default. */
  function InsertedValue(b: Body): Value
    requires IsNatural(b.EntityName())
  {
    match b
    case SessionBody(_, _, _, _, duration, reference, _) =>
      SessionValue(duration, if reference.Given? then Some(reference.value) else None)
    case AttendanceBody(_, _, _, present, _) => AttendanceValue(if present.Some? then present.value else true)
    case PaymentBody(_, _, _, how, _) => PaymentValue(how)
    case MetricsBody(_, _, metric, _, _) => MetricValue(if metric.Some? then metric.value else "")
  }

  /** The mutable columns a winning edit leaves: absent ones are written as null,
      except a session's reference, which is then kept. */
  function EditedValue(stored: Value, b: Body): Value
    requires IsNatural(b.EntityName())
  {
    match b
    case SessionBody(_, _, _, _, duration, reference, _) =>
      SessionValue(duration, if reference.Given? then Some(reference.value)
                             else if reference.Absent? && stored.SessionValue? then stored.reference
                             else None)
    case AttendanceBody(_, _, _, present, _) => AttendanceValue(if present.Some? then present.value else true)
    case PaymentBody(_, _, _, how, _) => PaymentValue(how)
    case MetricsBody(_, _, metric, _, _) => MetricValue(if metric.Some? then metric.value else "")
  }

  /** NOT NULL, CHECK and foreign keys of an insert. */
  predicate Insertable(db: Db, b: Body, school: Option<Id>) {
    match b
    case SessionBody(_, sessionType, _, _, _, _, _) =>
      sessionType.Some? && sessionType.value in SESSION_TYPES && KnownOrNull(db, school)
    case AttendanceBody(_, _, date, _, _) => date.Some? && KnownOrNull(db, school)
    case PaymentBody(_, product, _, _, _) => product.None? || product.value in db.products
    case MetricsBody(_, _, _, _, lesson) => KnownOrNull(db, lesson)
    case _ => false
  }

  /** `attendance.present` is NOT NULL, so an edit that omits it fails. */
  predicate Editable(b: Body) {
    b.AttendanceBody? ==> b.present.Some?
  }

  function NewRecord(db: Db, a: Action, user: Id): Record
    requires IsNatural(a.body.EntityName()) && a.body.player.Some? && PlayerExists(db, a.body.player.value)
  {
    var player := a.body.player.value.id;
    Record(a.body.EntityName(), KeyFor(a), player, SessionId(a.body), Identity(a),
           if a.body.MetricsBody? then a.body.lesson else None,
           EffectiveSchool(a.body, db.players[player]), db.players[player].location, user,
           InsertedValue(a.body), Some(a.at.ts), Some(a.clientId))
  }

  function EditedRecord(stored: Record, a: Action): Record
    requires IsNatural(a.body.EntityName())
  {
    stored.(value := EditedValue(stored.value, a.body), ts := Some(a.at.ts), clientId := Some(a.clientId))
  }

  function NaturalApplied(db: Db, s: Scope, a: Action, user: Id, audit: Audit): (Db, Outcome<ActionResult>)
    requires IsNatural(a.body.EntityName())
  {
    var refusal := NaturalRefusal(db, s, a);
    if refusal.Some? then (db, refusal.value)
    else
      var player := db.players[a.body.player.value.id];
      var entity := a.body.EntityName();
      var existing := FindRecord(db, KeyFor(a));
      if existing.None? then
        if !Insertable(db, a.body, EffectiveSchool(a.body, player)) then (db, Raised("constraint violation"))
        else
          Audited(db, db.(records := db.records + [NewRecord(db, a, user)]),
                  Entry(entity, |db.records|, Insert, player.location, user, a), audit,
                  Answer(a, Applied, Some(|db.records|)))
      else
        var stored := db.records[existing.value];
        if PrefersIncoming(Some(a.at.ts), Some(a.clientId), stored.ts, stored.clientId) then
          if !Editable(a.body) then (db, Raised("constraint violation"))
          else
            Audited(db, db.(records := db.records[existing.value := EditedRecord(stored, a)]),
                    Entry(entity, existing.value, Update, player.location, user, a), audit,
                    Answer(a, Applied, existing))
        else
          Audited(db, db, Entry(entity, existing.value, Skip, player.location, user, a), audit,
                  Answer(a, Skipped, existing))
  }

  method ApplyNaturalKey(conn: Connection, s: Scope, a: Action, user: Id, audit: Audit)
    returns (r: Outcome<ActionResult>)
    requires IsNatural(a.body.EntityName()) && conn.work == conn.durable
    modifies conn
    ensures (conn.durable, r) == NaturalApplied(old(conn.durable), s, a, user, audit)
    ensures r.Returned? ==> conn.work == conn.durable
  {
    var refusal := NaturalRefusal(conn.work, s, a);
    if refusal.Some? {
      return refusal.value;
    }
    var existing := FindRecord(conn.work, KeyFor(a));
    if existing.None? {
      r := InsertNatural(conn, a, user, audit);
      return;
    }
    var stored := conn.work.records[existing.value];
    if PrefersIncoming(Some(a.at.ts), Some(a.clientId), stored.ts, stored.clientId) {
      r := UpdateNatural(conn, a, existing.value, user, audit);
      return;
    }
    var location := conn.work.players[a.body.player.value.id].location;
    r := FinishAudited(conn, Entry(a.body.EntityName(), existing.value, Skip, location, user, a), audit,
                       Answer(a, Skipped, existing));
  }

  /** `_insert_natural`. */
  method InsertNatural(conn: Connection, a: Action, user: Id, audit: Audit) returns (r: Outcome<ActionResult>)
    requires IsNatural(a.body.EntityName()) && a.body.player.Some? && PlayerExists(conn.work, a.body.player.value)
    requires conn.work == conn.durable
    modifies conn
    ensures var was := old(conn.durable);
            var player := was.players[a.body.player.value.id];
            (conn.durable, r) ==
            if !Insertable(was, a.body, EffectiveSchool(a.body, player)) then (was, Raised("constraint violation"))
            else
              Audited(was, was.(records := was.records + [NewRecord(was, a, user)]),
                      Entry(a.body.EntityName(), |was.records|, Insert, player.location, user, a), audit,
                      Answer(a, Applied, Some(|was.records|)))
    ensures r.Returned? ==> conn.work == conn.durable
  {
    var player := conn.work.players[a.body.player.value.id];
    if !Insertable(conn.work, a.body, EffectiveSchool(a.body, player)) {
      return Raised("constraint violation");
    }
    var id := |conn.work.records|;
    conn.work := conn.work.(records := conn.work.records + [NewRecord(conn.work, a, user)]);
    r := FinishAudited(conn, Entry(a.body.EntityName(), id, Insert, player.location, user, a), audit,
                       Answer(a, Applied, Some(id)));
  }

  /** `_update_natural`. */
  method UpdateNatural(conn: Connection, a: Action, id: nat, user: Id, audit: Audit) returns (r: Outcome<ActionResult>)
    requires IsNatural(a.body.EntityName()) && a.body.player.Some? && PlayerExists(conn.work, a.body.player.value)
    requires id < |conn.work.records| && conn.work == conn.durable
    modifies conn
    ensures var was := old(conn.durable);
            var player := was.players[a.body.player.value.id];
            (conn.durable, r) ==
            if !Editable(a.body) then (was, Raised("constraint violation"))
            else
              Audited(was, was.(records := was.records[id := EditedRecord(was.records[id], a)]),
                      Entry(a.body.EntityName(), id, Update, player.location, user, a), audit,
                      Answer(a, Applied, Some(id)))
    ensures r.Returned? ==> conn.work == conn.durable
  {
    if !Editable(a.body) {
      return Raised("constraint violation");
    }
    var location := conn.work.players[a.body.player.value.id].location;
    conn.work := conn.work.(records := conn.work.records[id := EditedRecord(conn.work.records[id], a)]);
    r := FinishAudited(conn, Entry(a.body.EntityName(), id, Update, location, user, a), audit,
                       Answer(a, Applied, Some(id)));
  }

  // ------------------------------------------------------------------
  // Dispatch
  // ------------------------------------------------------------------

  predicate FacilitatorEntity(e: Entity) {
    e.SessionEntity? || e.AttendanceEntity? || e.MetricsEntity?
  }

  /** Refusals that look at the role and the action only. */
  function Forbidden(s: Scope, a: Action): Option<string> {
    if s.role.Facilitator? && !FacilitatorEntity(a.body.EntityName()) then Some("forbidden_entity")
    else if a.body.UnknownBody? then Some("unknown_entity")
    else if s.role.Facilitator? && a.body.SessionBody?
            && (a.body.sessionType.None? || a.body.sessionType.value !in FACILITATOR_SESSION_TYPES)
    then Some("forbidden_session_type")
    else None
  }

  ghost function ActionApplied(db: Db, s: Scope, a: Action, user: Id, audit: Audit): (Db, Outcome<ActionResult>) {
    var forbidden := Forbidden(s, a);
    if forbidden.Some? then (db, Returned(Reject(a, forbidden.value)))
    else if a.body.PlayerBody? then PlayerApplied(db, s, a, user, audit)
    else if a.body.ConsentBody? then ConsentApplied(db, s, a, user, audit)
    else if a.body.EntitlementBody? then EntitlementApplied(db, s, a, user, audit)
    else NaturalApplied(db, s, a, user, audit)
  }

  method ApplyAction(conn: Connection, s: Scope, a: Action, user: Id, audit: Audit) returns (r: Outcome<ActionResult>)
    requires conn.work == conn.durable
    modifies conn
    ensures (conn.durable, r) == ActionApplied(old(conn.durable), s, a, user, audit)
    ensures r.Returned? ==> conn.work == conn.durable
  {
    var forbidden := Forbidden(s, a);
    if forbidden.Some? {
      return Returned(Reject(a, forbidden.value));
    }
    if a.body.PlayerBody? {
      r := ApplyPlayer(conn, s, a, user, audit);
    } else if a.body.ConsentBody? {
      r := ApplyConsent(conn, s, a, user, audit);
    } else if a.body.EntitlementBody? {
      r := ApplyEntitlement(conn, s, a, user, audit);
    } else {
      r := ApplyNaturalKey(conn, s, a, user, audit);
    }
  }

  /** One action of a batch: an exception is this action's rejection only. */
  ghost function Served(db: Db, s: Scope, a: Action, user: Id, audit: Audit): (Db, ActionResult) {
    var applied := ActionApplied(db, s, a, user, audit);
    (applied.0, if applied.1.Returned? then applied.1.result else Reject(a, applied.1.message))
  }

  /** `apply_batch`: the committed tables and the answers, in order. */
  ghost function BatchApplied(db: Db, s: Scope, actions: seq<Action>, user: Id, audits: seq<Audit>): (Db,
                                                                                                      seq<ActionResult>)
    requires |audits| == |actions|
    decreases |actions|
  {
    if actions == [] then (db, [])
    else
      var n := |actions| - 1;
      var before := BatchApplied(db, s, actions[..n], user, audits[..n]);
      var last := Served(before.0, s, actions[n], user, audits[n]);
      (last.0, before.1 + [last.1])
  }

  method ApplyBatch(conn: Connection, s: Scope, actions: seq<Action>, user: Id, audits: seq<Audit>)
    returns (results: seq<ActionResult>)
    requires |audits| == |actions|
    modifies conn
    ensures (conn.durable, results) == BatchApplied(old(conn.durable), s, actions, user, audits)
  {
    results := [];
    var i := 0;
    while i < |actions|
      invariant 0 <= i <= |actions|
      invariant (conn.durable, results) == BatchApplied(old(conn.durable), s, actions[..i], user, audits[..i])
    {
      conn.Rollback();
      var outcome := ApplyAction(conn, s, actions[i], user, audits[i]);
      var result: ActionResult;
      if outcome.Returned? {
        result := outcome.result;
      } else {
        conn.Rollback();
        result := Reject(actions[i], outcome.message);
      }
      results := results + [result];
      assert actions[..i + 1][..i] == actions[..i] && audits[..i + 1][..i] == audits[..i];
      i := i + 1;
    }
    assert actions[..i] == actions && audits[..i] == audits;
  }
}
