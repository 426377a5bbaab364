/** What an acknowledged action has actually written, and where it may write. */
module Effects {
  import opened Basics
  import opened Schema
  import opened Rbac
  import opened Dedup
  import opened Resolution
  import opened Service
  import opened Replay
  import Engine
  import Mapping

  /** An applied consent is one more ledger row, in the payload's own words. */
  lemma ConsentEffect(db: Db, s: Scope, a: Action, user: Id, audit: Audit)
    requires a.body.ConsentBody? && Served(db, s, a, user, audit).1.status.Applied?
    ensures a.body.player.Some? && PlayerExists(db, a.body.player.value) && a.body.consentType.Some?
    ensures var after := Served(db, s, a, user, audit).0;
            var player := a.body.player.value.id;
            && |after.consents| == |db.consents| + 1 && db.consents <= after.consents
            && var row := after.consents[|db.consents|];
               && row.player == player && row.location == db.players[player].location
               && row.consentType == a.body.consentType.value && row.how == a.body.how && row.capturedBy == user
               && (row.granted <==> a.body.granted.Absent? || a.body.granted == Given(true))
               && row.clientId == Some(a.clientId) && row.ts == Some(a.at.ts)
               && after == db.(consents := after.consents,
                               log := db.log + [LogEntry(ConsentEntity, |db.consents|, Insert, row.location, user, None,
                                                         Some(a.at.ts), false)])
  {
  }

  /** A column keeps its value, and takes the offered one if it has none. */
  predicate Filled(before: Option<string>, after: Option<string>, offered: Option<string>) {
    (before.Some? ==> after == before) && (before.None? ==> after == offered)
  }

  lemma RegistrationKey(a: Action)
    requires a.body.PlayerBody?
    ensures KeyOf(PlayerCandidate(a)) == Slug(a.body.first) + "|" + Slug(a.body.last) + "|"
                                         + (if a.body.birth.BirthDate? then a.body.birth.iso else "")
  {
    hide Slug;
  }

  lemma RegistrationRow(db: Db, s: Scope, a: Action)
    requires a.body.PlayerBody?
    ensures var r := PlayerCandidate(a);
            var last := if IsPresent(a.body.last) then a.body.last else None;
            var grade := if IsPresent(a.body.grade) then a.body.grade else None;
            var birth := if a.body.birth.BirthDate? then Some(a.body.birth.iso) else None;
            && (forall location: Id ::
                  var made := NewPlayer(OwnAttributes(r), KeyOf(r), location, db.known);
                  made.Returned? ==>
                    && Some(made.result.first) == a.body.first && IsPresent(a.body.first) && made.result.last == last
                    && made.result == Player(KeyOf(r), made.result.first, last, birth, grade, false, None, location))
            && (forall row: Player ::
                  var filled := GapsClosed(row, OwnAttributes(r));
                  filled.Returned? ==>
                    && Filled(row.last, filled.result.last, last) && Filled(row.birth, filled.result.birth, birth)
                    && Filled(row.grade, filled.result.grade, grade)
                    && filled.result == row.(last := filled.result.last, birth := filled.result.birth,
                                             grade := filled.result.grade))
  {
    hide Slug, KeyOf;
  }

  /** A new registration is one more row carrying the payload, stamped with the
      scope; a repeated one only fills columns that were null. */
  lemma RegistrationEffect(db: Db, s: Scope, a: Action, user: Id, audit: Audit)
    requires a.body.PlayerBody? && WellDerived(s) && !Served(db, s, a, user, audit).1.status.Rejected?
    ensures var r := Served(db, s, a, user, audit);
            var after, candidate := r.0, PlayerCandidate(a);
            && r.1.recordId.Some? && r.1.recordId.value < |after.players|
            && after == db.(players := after.players, log := after.log)
            && after.log == db.log + [LogEntry(PlayerEntity, r.1.recordId.value,
                                               if r.1.status.Applied? then Insert else Skip,
                                               Stamp(s, a.body.location, a.body.school).0.value, user, None,
                                               Some(a.at.ts), false)]
            && var id := r.1.recordId.value;
               var row := after.players[id];
               && row.dedupKey == KeyOf(candidate)
               && row.dedupKey == Slug(a.body.first) + "|" + Slug(a.body.last) + "|"
                                  + (if a.body.birth.BirthDate? then a.body.birth.iso else "")
               && if r.1.status.Applied? then
                    && id == |db.players| && after.players == db.players + [row]
                    && Some(row.first) == a.body.first && IsPresent(a.body.first)
                    && row.last == (if IsPresent(a.body.last) then a.body.last else None)
                    && row.grade == (if IsPresent(a.body.grade) then a.body.grade else None)
                    && row.birth == (if a.body.birth.BirthDate? then Some(a.body.birth.iso) else None)
                    && !row.photoConsent
                    && Some(row.location) == Stamp(s, a.body.location, a.body.school).0
                    && row.school == Stamp(s, a.body.location, a.body.school).1
                    && CanWrite(s, Some(row.location), row.school)
                  else
                    && id < |db.players| && after.players == db.players[id := row] && RowExtends(db.players[id], row)
                    && Filled(db.players[id].last, row.last, if IsPresent(a.body.last) then a.body.last else None)
                    && Filled(db.players[id].birth, row.birth,
                              if a.body.birth.BirthDate? then Some(a.body.birth.iso) else None)
                    && Filled(db.players[id].grade, row.grade, if IsPresent(a.body.grade) then a.body.grade else None)
                    && Filled(db.players[id].school, row.school, Stamp(s, a.body.location, a.body.school).1)
  {
    hide Slug, Resolved, KeyOf, HasName, KeysForName, IsPresent, GapsClosed, NewPlayer;
    RegistrationKey(a);
    RegistrationRow(db, s, a);
    var (location, school) := Stamp(s, a.body.location, a.body.school);
    StampedIsWritable(s, a.body.location, a.body.school);
    CandidateIdentity(a);
    var r := PlayerCandidate(a);
    ResolveOne(db.players, r, location.value, db.known);
    var run := Resolved(db.players, [r], location.value, db.known).result;
    assert a.clientId in run.1.resolved;
    var id := run.1.resolved[a.clientId];
    var after := Served(db, s, a, user, audit).0;
    assert after.players == WithSchool(run.0, id, school);
    if id == |db.players| {
      assert after.players == db.players + [after.players[id]];
    } else {
      assert after.players == db.players[id := after.players[id]];
    }
  }

  /** An applied sale is one more active entitlement with the units and window the
      fields of the product's rules give for that day, signed with its client id. */
  lemma SaleEffect(db: Db, s: Scope, a: Action, user: Id, audit: Audit)
    requires a.body.EntitlementBody? && !IsDraw(a.body) && Served(db, s, a, user, audit).1.status.Applied?
    ensures a.body.player.Some? && PlayerExists(db, a.body.player.value) && a.body.product.Some?
    ensures a.body.product.value in db.products
    ensures var after := Served(db, s, a, user, audit).0;
            && |after.entitlements| == |db.entitlements| + 1 && db.entitlements <= after.entitlements
            && var row := after.entitlements[|db.entitlements|];
               && row.player == a.body.player.value.id && row.product == a.body.product.value && row.status.Active?
               && row.validFrom.Some?
               && Engine.SoldAs(db.products[row.product], a.at.day,
                                Engine.Window(row.units, row.validFrom.value, row.validTo))
               && row.location == db.players[row.player].location && row.clientId == Some(a.clientId)
               && after == db.(entitlements := after.entitlements,
                               log := db.log + [LogEntry(EntitlementEntity, |db.entitlements|, Insert, row.location,
                                                         user,
                                                         Some(a.clientId), Some(a.at.ts), false)])
               && HasReceipt(after.log, a.clientId)
  {
    hide Engine.DeriveWindow, Engine.SoldAs;
    var after := Served(db, s, a, user, audit).0;
    assert after.log[|db.log|].clientId == Some(a.clientId);
    Engine.WindowMeaning(db.products[a.body.product.value], a.at.day);
  }

  /** An applied draw takes exactly its amount from the balance of the period it
      falls in, never more than is there, touches no other row, and signs the
      decrement; an unlimited one is receipted but takes nothing. */
  lemma DrawEffect(db: Db, s: Scope, a: Action, user: Id, audit: Audit)
    requires IsDraw(a.body) && Served(db, s, a, user, audit).1.status.Applied?
    ensures EntitlementExists(db, a.body.entitlement.value) && a.body.amount.value > 0
    ensures var after := Served(db, s, a, user, audit).0;
            var id, amount := a.body.entitlement.value.id, a.body.amount.value;
            var row, entry := db.entitlements[id], LogEntry(EntitlementEntity, id, Update,
                                                            db.entitlements[id].location, user,
                                                            Some(a.clientId), Some(a.at.ts), false);
            var reset := Engine.ResetIfNewPeriod(row.units, row.validFrom, Engine.RulesOf(db, row.product), a.at.day);
            var opening := if reset.changed then reset.units else row.units;
            var rules := Engine.RulesOf(db, row.product);
            && (reset.changed <==>
                  Engine.Recurs(rules) && row.validFrom.Some?
                  && exists d :: row.validFrom.value < d <= a.at.day && Engine.BeginsPeriod(rules, d))
            && (reset.changed ==> Engine.GrantsUnits(rules, opening))
            && row.status.Active? && |after.entitlements| == |db.entitlements|
            && (forall i :: 0 <= i < |db.entitlements| && i != id ==> after.entitlements[i] == db.entitlements[i])
            && after == db.(entitlements := after.entitlements, log := after.log)
            && after.entitlements[id].validFrom == (if reset.changed then reset.validFrom else row.validFrom)
            && if opening.None? then
                 after.entitlements[id].units.None? && after.log == db.log + [entry.(action := Skip)]
               else
                 && opening.value >= amount && after.entitlements[id].units == Some(opening.value - amount)
                 && after.log == db.log + [entry]
  {
    hide Engine.ResetIfNewPeriod, Engine.GrantsUnits, Engine.BeginsPeriod, Engine.Recurs;
    var row := db.entitlements[a.body.entitlement.value.id];
    Engine.ResetIff(row.units, row.validFrom, Engine.RulesOf(db, row.product), a.at.day);
  }

  /** The row holds what the payload says, column by column: a session its type,
      times, length and reference, attendance its date and mark (present unless it
      says otherwise), a payment its product, cents, method and time, a metric its
      type, value, time and lesson. */
  predicate HoldsPayload(row: Record, b: Body) {
    && |row.identity| > 0 && row.identity[0] == Some(Mapping.NatText(row.player))
    && (b.SessionBody? ==>
          && row.value == SessionValue(b.duration, if b.reference.Given? then Some(b.reference.value) else None)
          && row.identity[1..] == [b.sessionType, b.startedAt, b.endedAt] && row.session.None? && row.lesson.None?)
    && (b.AttendanceBody? ==>
          && row.value == AttendanceValue(b.present != Some(false))
          && row.identity[1..] == [b.date, if row.session.None? then None else Some(Mapping.NatText(row.session.value))]
          && (row.session.None? <==> b.session.None?) && row.lesson.None?)
    && (b.PaymentBody? ==>
          && row.value == PaymentValue(b.how) && b.amountCents.Some?
          && row.identity[1..] == [b.product, Some(Mapping.IntText(b.amountCents.value)), b.paidAt]
          && row.session.None? && row.lesson.None?)
    && (b.MetricsBody? ==>
          && b.metric.Some? && row.value == MetricValue(b.metric.value)
          && row.identity[1..] == [b.metricType, b.measuredAt] && row.lesson == b.lesson && row.session.None?)
  }

  /** A first capture under its natural key becomes one row, attached to the player
      and session it names and to the place they belong to, and is logged as an
      insert. */
  lemma CaptureEffect(db: Db, s: Scope, a: Action, user: Id, audit: Audit)
    requires Mapping.IsNatural(a.body.EntityName()) && Served(db, s, a, user, audit).1.status.Applied?
    requires a.body.player.Some? && a.body.player.value.Server? && FindRecord(db, KeyFor(a)).None?
    ensures PlayerExists(db, a.body.player.value)
    ensures var after := Served(db, s, a, user, audit).0;
            var player := db.players[a.body.player.value.id];
            && |after.records| == |db.records| + 1 && db.records <= after.records
            && var row := after.records[|db.records|];
               && row.entity == a.body.EntityName() && row.key == KeyFor(a)
               && row.player == a.body.player.value.id && row.location == player.location && row.loggedBy == user
               && (a.body.AttendanceBody? && a.body.session.Some? ==>
                     && row.session.Some? && a.body.session == Some(Server(row.session.value))
                     && row.session.value < |db.records| && db.records[row.session.value].entity.SessionEntity?
                     && db.records[row.session.value].player == row.player)
               && (a.body.SessionBody? || a.body.AttendanceBody? ==>
                     row.school == Coalesce(BodySchool(a.body), player.school))
               && (a.body.PaymentBody? || a.body.MetricsBody? ==> row.school.None?)
               && HoldsPayload(row, a.body) && row.ts == Some(a.at.ts) && row.clientId == Some(a.clientId)
               && after == db.(records := after.records,
                               log := db.log + [LogEntry(row.entity, |db.records|, Insert, row.location, user, None,
                                                         Some(a.at.ts), false)])
  {
    hide Slug, Mapping.NaturalKey, PrefersIncoming, Insertable, Mapping.NatText, Mapping.IntText, HoldsPayload;
    NoRefusalMeans(db, s, a);
    PayloadHeld(db, s, a, user);
  }

  lemma PayloadHeld(db: Db, s: Scope, a: Action, user: Id)
    requires Mapping.IsNatural(a.body.EntityName()) && NaturalRefusal(db, s, a).None?
    requires a.body.player.Some? && PlayerExists(db, a.body.player.value)
    ensures HoldsPayload(NewRecord(db, a, user), a.body)
  {
    hide Slug, Mapping.NaturalKey, Mapping.NatText, Mapping.IntText;
    var identity := Identity(a);
    assert a.body.SessionBody? ==> identity[1..] == [a.body.sessionType, a.body.startedAt, a.body.endedAt];
    assert a.body.PaymentBody? ==> |identity| == 4 && identity[1..] == [identity[1], identity[2], identity[3]];
    assert a.body.AttendanceBody? || a.body.MetricsBody? ==>
             |identity| == 3 && identity[1..] == [identity[1], identity[2]];
  }

  /** The columns a winning edit leaves: what the payload says, absent ones cleared,
      but for a session's reference, which stays if the payload does not speak of it. */
  predicate HoldsEdit(stored: Value, after: Value, b: Body) {
    && (b.SessionBody? ==>
          && after.SessionValue? && after.duration == b.duration
          && (b.reference.Given? ==> after.reference == Some(b.reference.value))
          && (b.reference.Null? ==> after.reference.None?)
          && (b.reference.Absent? && stored.SessionValue? ==> after.reference == stored.reference))
    && (b.AttendanceBody? ==> b.present.Some? && after == AttendanceValue(b.present.value))
    && (b.PaymentBody? ==> after == PaymentValue(b.how))
    && (b.MetricsBody? ==> b.metric.Some? && after == MetricValue(b.metric.value))
  }

  /** An applied action whose key has a row already edits that row: the columns that
      may be edited and the winner's pair, nothing else of it and no other row, and
      it is logged as an update. */
  lemma EditEffect(db: Db, s: Scope, a: Action, user: Id, audit: Audit)
    requires Mapping.IsNatural(a.body.EntityName()) && Served(db, s, a, user, audit).1.status.Applied?
    requires a.body.player.Some? && a.body.player.value.Server? && FindRecord(db, KeyFor(a)).Some?
    ensures PlayerExists(db, a.body.player.value)
    ensures var after, i := Served(db, s, a, user, audit).0, FindRecord(db, KeyFor(a)).value;
            && |after.records| == |db.records|
            && after.records[i] == db.records[i].(value := after.records[i].value, ts := Some(a.at.ts),
                                                  clientId := Some(a.clientId))
            && HoldsEdit(db.records[i].value, after.records[i].value, a.body)
            && (forall j :: 0 <= j < |db.records| && j != i ==> after.records[j] == db.records[j])
            && after == db.(records := after.records,
                            log := db.log + [LogEntry(a.body.EntityName(), i, Update,
                                                      db.players[a.body.player.value.id].location, user, None,
                                                      Some(a.at.ts), false)])
  {
    hide Slug, Mapping.NaturalKey, Mapping.IdentityOf, PrefersIncoming, Insertable;
    NoRefusalMeans(db, s, a);
  }

  // ------------------------------------------------------------------
  // Where rows belong
  // ------------------------------------------------------------------

  /** The key of a record starts with its table and its player. */
  function KeyStart(e: Entity, player: nat): string {
    Mapping.TableName(e) + "|" + Mapping.NatText(player) + "|"
  }

  predicate Placed(db: Db, r: Record) {
    && Mapping.IsNatural(r.entity) && KeyStart(r.entity, r.player) <= r.key
    && r.player < |db.players| && r.location == db.players[r.player].location
  }

  /** Every record is keyed under its player and lies where its player belongs. */
  ghost predicate AllPlaced(db: Db) {
    forall i :: 0 <= i < |db.records| ==> Placed(db, db.records[i])
  }

  lemma KeyForStarts(a: Action)
    requires Mapping.IsNatural(a.body.EntityName()) && a.body.player.Some? && a.body.player.value.Server?
    ensures KeyStart(a.body.EntityName(), a.body.player.value.id) <= KeyFor(a)
  {
    hide Slug, JoinWith;
    var table, p, identity := Mapping.TableName(a.body.EntityName()), a.body.player.value.id, Identity(a);
    Mapping.NumberIsItsSlug(p);
    assert identity[0] == Some(Mapping.NatText(p)) && |identity| > 0;
    var fields := Mapping.NormalizedFields(identity);
    var rest := fields[1..] + ["sync"];
    assert [table] + fields + ["sync"] == [table, Mapping.NatText(p)] + rest;
    Mapping.JoinThree(table, Mapping.NatText(p), rest);
    assert KeyFor(a) == KeyStart(a.body.EntityName(), p) + JoinWith("|", rest);
  }

  /** A key names one table and one player. */
  lemma KeyNamesPlayer(key: string, e: Entity, p: nat, f: Entity, q: nat)
    requires Mapping.IsNatural(e) && Mapping.IsNatural(f) && KeyStart(e, p) <= key && KeyStart(f, q) <= key
    ensures e == f && p == q
  {
    hide Slug, Mapping.NatText, Mapping.TableName;
    Mapping.TablesDiffer(e, f);
    Mapping.TablesDiffer(f, e);
    Mapping.NumberIsItsSlug(p);
    Mapping.NumberIsItsSlug(q);
    TwoParts(key, Mapping.TableName(e), Mapping.NatText(p), Mapping.TableName(f), Mapping.NatText(q));
    Mapping.NumbersDiffer(p, q);
  }

  lemma TwoParts(key: string, t: string, m: string, u: string, n: string)
    requires Plain(t) && Plain(m) && Plain(u) && Plain(n) && t + "|" + m + "|" <= key && u + "|" + n + "|" <= key
    ensures t == u && m == n
  {
    var x, y := key[|t + "|" + m + "|"|..], key[|u + "|" + n + "|"|..];
    assert key == t + "|" + (m + "|" + x) && key == u + "|" + (n + "|" + y);
    FirstPart(t, m + "|" + x, u, n + "|" + y);
    FirstPart(u, n + "|" + y, t, m + "|" + x);
    FirstPart(m, x, n, y);
  }

  predicate Covers(s: Scope, location: Id) {
    s.location.None? || s.location == Some(location)
  }

  /** The record was added or changed. */
  predicate Written(db: Db, after: Db, i: nat)
    requires i < |after.records|
  {
    i >= |db.records| || after.records[i] != db.records[i]
  }

  /** What a natural-key action may do to the records: add its own row, or edit the
      row that has its key, which is of the same player. */
  lemma NaturalWrites(db: Db, s: Scope, a: Action, user: Id, audit: Audit)
    requires Mapping.IsNatural(a.body.EntityName()) && AllPlaced(db)
    ensures var after := NaturalApplied(db, s, a, user, audit).0;
            && after.players == db.players && after.consents == db.consents && after.entitlements == db.entitlements
            && (after.records != db.records ==>
                  && NaturalRefusal(db, s, a).None? && a.body.player.Some? && PlayerExists(db, a.body.player.value)
                  && if FindRecord(db, KeyFor(a)).None? then after.records == db.records + [NewRecord(db, a, user)]
                     else
                       var i := FindRecord(db, KeyFor(a)).value;
                       && after.records == db.records[i := EditedRecord(db.records[i], a)]
                       && db.records[i].entity == a.body.EntityName() && db.records[i].player == a.body.player.value.id)
  {
    hide Slug, Mapping.NaturalKey, Mapping.IdentityOf, PrefersIncoming, Insertable, Editable, NaturalRefusal,
         KeyStart, EditedValue;
    if NaturalRefusal(db, s, a).None? {
      NoRefusalMeans(db, s, a);
      var existing := FindRecord(db, KeyFor(a));
      if existing.Some? {
        var stored := db.records[existing.value];
        assert Placed(db, stored);
        KeyForStarts(a);
        KeyNamesPlayer(KeyFor(a), stored.entity, stored.player, a.body.EntityName(), a.body.player.value.id);
      }
    }
  }

  /** A natural-key action that passes names a player inside the scope, and its own
      row would be inside it too. */
  lemma NamesOwnPlayer(db: Db, s: Scope, a: Action)
    requires Mapping.IsNatural(a.body.EntityName()) && WellDerived(s) && NaturalRefusal(db, s, a).None?
    ensures a.body.player.Some? && PlayerExists(db, a.body.player.value)
    ensures var player := db.players[a.body.player.value.id];
            && Covers(s, player.location)
            && (s.role.Facilitator? ==> player.school == s.school)
            && (s.role.Facilitator? && (a.body.SessionBody? || a.body.AttendanceBody?) ==>
                  EffectiveSchool(a.body, player) == s.school)
  {
  }

  lemma PlacedStays(d: Db, e: Db, i: nat)
    requires AllPlaced(d) && Extends(d, e) && i < |d.records|
    ensures i < |e.records| && Placed(e, e.records[i])
  {
    hide PrefersIncoming, KeyStart;
    assert Placed(d, d.records[i]) && RecordKept(d.records[i], e.records[i]);
    var p := d.records[i].player;
    assert RowExtends(d.players[p], e.players[p]);
  }

  /** Every action keeps every record with its player. */
  lemma PlacedStep(db: Db, s: Scope, a: Action, user: Id, audit: Audit)
    requires Sound(db) && AllPlaced(db)
    ensures AllPlaced(Served(db, s, a, user, audit).0)
  {
    hide PlayerApplied, NaturalApplied, EntitlementApplied, ConsentApplied, Sound, Extends, Placed;
    var after := Served(db, s, a, user, audit).0;
    ActionStep(db, s, a, user, audit);
    forall i | 0 <= i < |db.records| ensures i < |after.records| && Placed(after, after.records[i]) {
      PlacedStays(db, after, i);
    }
    if a.body.PlayerBody? {
      PlayerInScope(db, s, a, user, audit);
    } else if a.body.EntitlementBody? {
      EntitlementRecords(db, s, a, user, audit);
    } else if a.body.ConsentBody? {
      ConsentRecords(db, s, a, user, audit);
    } else if Mapping.IsNatural(a.body.EntityName()) {
      NaturalWrites(db, s, a, user, audit);
      if |after.records| > |db.records| {
        NewRowPlaced(db, after, a, user);
      }
    }
  }

  lemma NewRowPlaced(db: Db, after: Db, a: Action, user: Id)
    requires Mapping.IsNatural(a.body.EntityName()) && a.body.player.Some? && PlayerExists(db, a.body.player.value)
    requires after.players == db.players
    ensures Placed(after, NewRecord(db, a, user))
  {
    hide Slug, Mapping.NaturalKey, Mapping.IdentityOf, KeyStart;
    KeyForStarts(a);
  }

  lemma ConsentRecords(db: Db, s: Scope, a: Action, user: Id, audit: Audit)
    requires a.body.ConsentBody?
    ensures ConsentApplied(db, s, a, user, audit).0.records == db.records
  {
  }

  lemma EntitlementRecords(db: Db, s: Scope, a: Action, user: Id, audit: Audit)
    requires a.body.EntitlementBody?
    ensures EntitlementApplied(db, s, a, user, audit).0.records == db.records
  {
    hide Engine.DeriveWindow, Engine.ResetIfNewPeriod;
  }

  /** Whatever an action writes to the consent, entitlement and natural-key tables
      lies where its author may write: every row that is new or changed belongs to
      a location the scope covers. */
  lemma WritesStayInScope(db: Db, s: Scope, a: Action, user: Id, audit: Audit)
    requires WellDerived(s) && AllPlaced(db)
    ensures var after := Served(db, s, a, user, audit).0;
            && (forall i :: 0 <= i < |after.consents| && (i >= |db.consents| || after.consents[i] != db.consents[i]) ==>
                  Covers(s, after.consents[i].location))
            && (forall i :: 0 <= i < |after.entitlements|
                            && (i >= |db.entitlements| || after.entitlements[i] != db.entitlements[i]) ==>
                  Covers(s, after.entitlements[i].location))
            && (forall i :: 0 <= i < |after.records| && Written(db, after, i) ==> Covers(s, after.records[i].location))
  {
    hide PlayerApplied, NaturalApplied, EntitlementApplied;
    if a.body.PlayerBody? {
      PlayerInScope(db, s, a, user, audit);
    } else if a.body.EntitlementBody? {
      EntitlementInScope(db, s, a, user, audit);
    } else if Mapping.IsNatural(a.body.EntityName()) {
      NaturalInScope(db, s, a, user, audit);
    }
  }

  lemma PlayerInScope(db: Db, s: Scope, a: Action, user: Id, audit: Audit)
    requires a.body.PlayerBody?
    ensures var after := PlayerApplied(db, s, a, user, audit).0;
            after.consents == db.consents && after.entitlements == db.entitlements && after.records == db.records
  {
    hide Slug, Resolved, WithSchool;
  }

  lemma DrawInScope(db: Db, id: nat, amount: int, user: Id, a: Action, audit: Audit)
    requires id < |db.entitlements|
    ensures var after := Engine.Drawn(db, id, amount, user, a.at, Some(a.clientId), audit).0;
            && after.consents == db.consents && after.records == db.records && |after.entitlements| == |db.entitlements|
            && after.entitlements[id].location == db.entitlements[id].location
            && forall i :: 0 <= i < |after.entitlements| && i != id ==> after.entitlements[i] == db.entitlements[i]
  {
    hide Engine.ResetIfNewPeriod;
  }

  lemma EntitlementInScope(db: Db, s: Scope, a: Action, user: Id, audit: Audit)
    requires WellDerived(s) && a.body.EntitlementBody?
    ensures var after := EntitlementApplied(db, s, a, user, audit).0;
            && after.consents == db.consents && after.records == db.records && |after.entitlements| >= |db.entitlements|
            && forall i :: 0 <= i < |after.entitlements|
                           && (i >= |db.entitlements| || after.entitlements[i] != db.entitlements[i]) ==>
                 s.location.None? || s.location == Some(after.entitlements[i].location)
  {
    hide Engine.DeriveWindow, Engine.Drawn;
    if IsDraw(a.body) && EntitlementExists(db, a.body.entitlement.value) {
      DrawInScope(db, a.body.entitlement.value.id, a.body.amount.value, user, a, audit);
    }
  }

  /** The records an action writes, against its author's scope: each is of a player
      and a location inside it; a facilitator's new session or attendance row is in
      its school, while an edited row stays in the school it was filed under. */
  lemma NaturalInScope(db: Db, s: Scope, a: Action, user: Id, audit: Audit)
    requires WellDerived(s) && Mapping.IsNatural(a.body.EntityName()) && AllPlaced(db)
    ensures var after := NaturalApplied(db, s, a, user, audit).0;
            && after.consents == db.consents && after.entitlements == db.entitlements
            && forall i :: 0 <= i < |after.records| && Written(db, after, i) ==>
                 var row := after.records[i];
                 && Covers(s, row.location) && row.player < |db.players|
                 && (s.role.Facilitator? ==> db.players[row.player].school == s.school)
                 && (i < |db.records| ==> row.school == db.records[i].school)
                 && (i >= |db.records| && s.role.Facilitator?
                     && (row.entity.SessionEntity? || row.entity.AttendanceEntity?) ==>
                       row.school == s.school)
  {
    hide Slug, Mapping.NaturalKey, Mapping.IdentityOf, NaturalApplied, NaturalRefusal, KeyStart, EditedValue,
         EffectiveSchool;
    NaturalWrites(db, s, a, user, audit);
    if NaturalApplied(db, s, a, user, audit).0.records != db.records {
      NamesOwnPlayer(db, s, a);
      if FindRecord(db, KeyFor(a)).Some? {
        assert Placed(db, db.records[FindRecord(db, KeyFor(a)).value]);
      }
    }
  }

  /** The school scope of a facilitator's writes holds exactly as far as the row
      that has the key already: an edit is never tested against the school the
      stored row is filed under. */
  lemma SchoolScopeIff(db: Db, s: Scope, a: Action, user: Id, audit: Audit)
    requires WellDerived(s) && s.role.Facilitator? && AllPlaced(db) && (a.body.SessionBody? || a.body.AttendanceBody?)
    requires Served(db, s, a, user, audit).0.records != db.records
    ensures a.body.player.Some? && PlayerExists(db, a.body.player.value)
    ensures var after := Served(db, s, a, user, audit).0;
            (forall i :: 0 <= i < |after.records| && Written(db, after, i) ==> after.records[i].school == s.school) <==>
            (var existing := FindRecord(db, KeyFor(a)); existing.Some? ==>
               db.records[existing.value].school == s.school)
  {
    hide Slug, Mapping.NaturalKey, Mapping.IdentityOf, NaturalApplied, NaturalRefusal, KeyStart, EditedValue,
         EffectiveSchool, AllPlaced;
    NaturalWrites(db, s, a, user, audit);
    NaturalInScope(db, s, a, user, audit);
    var after := Served(db, s, a, user, audit).0;
    var existing := FindRecord(db, KeyFor(a));
    if existing.Some? {
      var i := existing.value;
      assert forall k :: 0 <= k < |after.records| && k != i ==> !Written(db, after, k);
      assert Written(db, after, i);
    }
  }

  /** A player of school `y`, whose lesson the founder files under school `x`. */
  function OnePupil(): Db {
    Db([Player("ann|lee|", "Ann", Some("Lee"), None, None, false, Some("y"), "here")], [], [], [], [], map[],
       {"here", "x", "y"})
  }

  function Lesson(clientId: Id, ts: int, duration: int, school: Option<Id>): Action {
    Action(clientId, Moment(ts, 7),
           SessionBody(Some(Server(0)), Some("lesson"), Some("9"), Some("10"), Some(duration), Null, school))
  }

  /** The facilitator of school `y` then edits that row, which stays under `x`. */
  lemma ForeignSchoolEdited()
    ensures var db, mine := OnePupil(), Scope(Facilitator, Some("here"), Some("y"));
            var filed := Served(db, Scope(Founder, None, None), Lesson("a", 1, 60, Some("x")), "founder", Works);
            var edited := Served(filed.0, mine, Lesson("b", 2, 45, None), "facilitator", Works);
            && AllPlaced(db) && filed.1.status.Applied? && edited.1.status.Applied?
            && |filed.0.records| == 1 && |edited.0.records| == 1
            && filed.0.records[0].school == Some("x") && edited.0.records[0].school == Some("x")
            && edited.0.records[0].value == SessionValue(Some(45), None)
  {
    hide Slug, Mapping.NaturalKey;
    var a, b := Lesson("a", 1, 60, Some("x")), Lesson("b", 2, 45, None);
    assert KeyFor(a) == KeyFor(b);
    var filed := Served(OnePupil(), Scope(Founder, None, None), a, "founder", Works).0;
    assert filed.records[0].key == KeyFor(b);
    assert FindRecord(filed, KeyFor(b)) == Some(0);
  }
}
