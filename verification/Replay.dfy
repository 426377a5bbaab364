/** What no action ever undoes, and why submitting an action again is harmless. */
module Replay {
  import opened Basics
  import opened Schema
  import opened Rbac
  import opened Mapping
  import opened Dedup
  import opened Resolution
  import opened Service
  import Engine

  // ------------------------------------------------------------------
  // The winner order
  // ------------------------------------------------------------------

  /** `(ts, id)` does not lose against `(ts', id')`... */
  lemma PrefersAsymmetric(ts: Option<int>, id: Option<Id>, ts': Option<int>, id': Option<Id>)
    ensures !(PrefersIncoming(ts, id, ts', id') && PrefersIncoming(ts', id', ts, id))
    ensures !PrefersIncoming(ts, id, ts, id)
  {
    StrTrichotomy(ClientText(id), ClientText(id'));
    StrTrichotomy(ClientText(id), ClientText(id));
  }

  /** ...and a row that has been overtaken is never preferred again. */
  lemma NotPreferredTransitive(ts: Option<int>, id: Option<Id>, ts': Option<int>, id': Option<Id>,
                               ts'': Option<int>, id'': Option<Id>)
    requires !PrefersIncoming(ts, id, ts', id') && !PrefersIncoming(ts', id', ts'', id'')
    ensures !PrefersIncoming(ts, id, ts'', id'')
  {
    var a, b, c := ClientText(id), ClientText(id'), ClientText(id'');
    StrTrichotomy(a, b);
    StrTrichotomy(b, c);
    StrTrichotomy(a, c);
    if StrLess(a, b) && StrLess(b, c) {
      StrLessTransitive(a, b, c);
    }
  }

  // ------------------------------------------------------------------
  // Invariant and growth
  // ------------------------------------------------------------------

  /** The uniqueness the tables promise. */
  ghost predicate Sound(db: Db) {
    && UniqueReceipts(db.log)
    && UniqueKeys(db.players)
    && (forall i, j :: 0 <= i < j < |db.consents| && db.consents[i].clientId.Some? ==>
          db.consents[i].clientId != db.consents[j].clientId)
    && (forall i, j :: 0 <= i < j < |db.entitlements| && db.entitlements[i].clientId.Some? ==>
          db.entitlements[i].clientId != db.entitlements[j].clientId)
    && (forall i, j :: 0 <= i < j < |db.records| ==> db.records[i].key != db.records[j].key)
  }

  predicate EntitlementKept(x: Entitlement, y: Entitlement) {
    x.player == y.player && x.product == y.product && x.location == y.location && x.clientId == y.clientId
  }

  predicate RecordKept(x: Record, y: Record) {
    && x.entity == y.entity && x.key == y.key && x.player == y.player && x.session == y.session
    && x.identity == y.identity && x.school == y.school && x.location == y.location && x.loggedBy == y.loggedBy
    && !PrefersIncoming(x.ts, x.clientId, y.ts, y.clientId)
  }

  /** A later state of the database: rows stay, identities stay, filled columns
      stay, the winner of a record only improves, the ledger and the log grow. */
  ghost predicate Extends(d: Db, e: Db) {
    && PlayersExtend(d.players, e.players)
    && d.consents <= e.consents
    && |d.entitlements| <= |e.entitlements|
    && (forall i :: 0 <= i < |d.entitlements| ==> EntitlementKept(d.entitlements[i], e.entitlements[i]))
    && |d.records| <= |e.records|
    && (forall i :: 0 <= i < |d.records| ==> RecordKept(d.records[i], e.records[i]))
    && d.log <= e.log
    && d.products == e.products && d.known == e.known
  }

  lemma RecordKeptTransitive(x: Record, y: Record, z: Record)
    requires RecordKept(x, y) && RecordKept(y, z)
    ensures RecordKept(x, z)
  {
    NotPreferredTransitive(x.ts, x.clientId, y.ts, y.clientId, z.ts, z.clientId);
  }

  lemma RecordKeptReflexive(x: Record)
    ensures RecordKept(x, x)
  {
    PrefersAsymmetric(x.ts, x.clientId, x.ts, x.clientId);
  }

  lemma ExtendsReflexive(d: Db)
    ensures Extends(d, d)
  {
    forall x: Record ensures RecordKept(x, x) {
      RecordKeptReflexive(x);
    }
  }

  lemma ExtendsTransitive(d: Db, e: Db, f: Db)
    requires Extends(d, e) && Extends(e, f)
    ensures Extends(d, f)
  {
    hide PrefersIncoming;
    ExtendTransitive(d.players, e.players, f.players);
    forall i | 0 <= i < |d.records| ensures RecordKept(d.records[i], f.records[i]) {
      RecordKeptTransitive(d.records[i], e.records[i], f.records[i]);
    }
    forall i | 0 <= i < |d.entitlements| ensures EntitlementKept(d.entitlements[i], f.entitlements[i]) {
      assert EntitlementKept(d.entitlements[i], e.entitlements[i]);
    }
  }

  /** An audited change extends the database as far as its tables do. */
  lemma AuditedExtends(db: Db, changed: Db, entry: LogEntry, audit: Audit, answer: ActionResult)
    requires Extends(db, changed) && Sound(db) && Sound(changed)
    ensures Extends(db, Audited(db, changed, entry, audit, answer).0)
    ensures Sound(Audited(db, changed, entry, audit, answer).0)
  {
    hide PrefersIncoming;
    ExtendsReflexive(db);
  }

  ghost predicate UniqueKeys(players: seq<Player>) {
    forall i, j :: 0 <= i < j < |players| ==> players[i].dedupKey != players[j].dedupKey
  }

  lemma ResolveGrows(players: seq<Player>, r: PlayerRecord, location: Id, known: set<Id>)
    requires UniqueKeys(players) && Resolved(players, [r], location, known).Returned?
    ensures var run := Resolved(players, [r], location, known).result;
            && PlayersExtend(players, run.0) && UniqueKeys(run.0)
            && (r.identity in run.1.resolved ==> run.1.resolved[r.identity] < |run.0|)
  {
    hide Slug, Resolved, KeyOf, HasName, KeysForName, OwnAttributes;
    ResolveOne(players, r, location, known);
  }

  lemma SchoolGrows(players: seq<Player>, id: nat, school: Option<Id>)
    requires UniqueKeys(players) && id < |players|
    ensures PlayersExtend(players, WithSchool(players, id, school)) && UniqueKeys(WithSchool(players, id, school))
  {
  }

  lemma PlayerStep(db: Db, s: Scope, a: Action, user: Id, audit: Audit)
    requires Sound(db) && a.body.PlayerBody?
    ensures var after := PlayerApplied(db, s, a, user, audit).0;
            Extends(db, after) && Sound(after)
  {
    hide Slug, PrefersIncoming, Resolved, RowExtends, Audited, PlayerCandidate;
    ExtendsReflexive(db);
    var (location, school) := Stamp(s, a.body.location, a.body.school);
    if location.Some? && Resolved(db.players, [PlayerCandidate(a)], location.value, db.known).Returned? {
      CandidateIdentity(a);
      ResolveGrows(db.players, PlayerCandidate(a), location.value, db.known);
      var run := Resolved(db.players, [PlayerCandidate(a)], location.value, db.known).result;
      if a.clientId in run.1.resolved {
        var id := run.1.resolved[a.clientId];
        SchoolGrows(run.0, id, school);
        ExtendTransitive(db.players, run.0, WithSchool(run.0, id, school));
        var changed := db.(players := WithSchool(run.0, id, school));
        assert Extends(db, changed) && Sound(changed);
        var isNew := id in run.1.created;
        AuditedExtends(db, changed, Entry(PlayerEntity, id, if isNew then Insert else Skip, location.value, user, a),
                       audit, Answer(a, if isNew then Applied else Skipped, Some(id)));
      }
    }
  }

  lemma CandidateIdentity(a: Action)
    requires a.body.PlayerBody?
    ensures PlayerCandidate(a).identity == a.clientId
  {
  }

  lemma ConsentStep(db: Db, s: Scope, a: Action, user: Id, audit: Audit)
    requires Sound(db) && a.body.ConsentBody?
    ensures var after := ConsentApplied(db, s, a, user, audit).0;
            Extends(db, after) && Sound(after)
  {
    hide PrefersIncoming;
    ExtendsReflexive(db);
    var existing := FindConsent(db, a.clientId);
    if a.body.player.Some? && PlayerExists(db, a.body.player.value) && a.body.consentType.Some? {
      var player := a.body.player.value.id;
      var location := db.players[player].location;
      if existing.Some? {
        AuditedExtends(db, db, Entry(ConsentEntity, existing.value, Skip, location, user, a), audit,
                       Answer(a, Skipped, existing));
      } else {
        var changed := db.(consents := db.consents + [NewConsent(a, player, location, user)]);
        assert Extends(db, changed) && Sound(changed);
        AuditedExtends(db, changed, Entry(ConsentEntity, |db.consents|, Insert, location, user, a), audit,
                       Answer(a, Applied, Some(|db.consents|)));
      }
    }
  }

  lemma RowChangeExtends(db: Db, id: nat, row: Entitlement)
    requires Sound(db) && id < |db.entitlements| && EntitlementKept(db.entitlements[id], row)
    ensures Extends(db, Engine.WithRow(db, id, row)) && Sound(Engine.WithRow(db, id, row))
  {
    hide PrefersIncoming;
    ExtendsReflexive(db);
  }

  lemma LoggedExtends(db: Db, changed: Db, entry: LogEntry, audit: Audit)
    requires Extends(db, changed) && Sound(changed) && Logged(changed, entry, audit).Returned?
    ensures Extends(db, Logged(changed, entry, audit).result) && Sound(Logged(changed, entry, audit).result)
  {
    hide PrefersIncoming, RowExtends, EntitlementKept;
  }

  lemma DrawStep(db: Db, id: nat, amount: int, user: Id, at: Moment, clientId: Option<Id>, audit: Audit)
    requires Sound(db)
    ensures var after := Engine.Drawn(db, id, amount, user, at, clientId, audit).0;
            Extends(db, after) && Sound(after)
  {
    hide Extends, Sound, Logged, Engine.ResetIfNewPeriod, Engine.WithRow;
    ExtendsReflexive(db);
    if amount > 0 && id < |db.entitlements| {
      var row := db.entitlements[id];
      var current := Engine.Refreshed(db, row, at.day);
      RowChangeExtends(db, id, current);
      if Engine.AlreadyDrawn(db.log, id, at.ts, clientId) {
        var claimed := if HasReceipt(db.log, clientId.value) then None else clientId;
        var entry := Engine.DrawEntry(row, id, Skip, user, at, claimed);
        if Logged(db, entry, audit).Returned? { LoggedExtends(db, db, entry, audit); }
      } else if current.units.None? {
        var entry := Engine.DrawEntry(row, id, Skip, user, at, clientId);
        var reset := Engine.WithRow(db, id, current);
        if Logged(reset, entry, audit).Returned? { LoggedExtends(db, reset, entry, audit); }
      } else {
        var taken := current.(units := Some(current.units.value - amount));
        RowChangeExtends(db, id, taken);
        var entry := Engine.DrawEntry(row, id, Update, user, at, clientId);
        var changed := Engine.WithRow(db, id, taken);
        if Logged(changed, entry, audit).Returned? { LoggedExtends(db, changed, entry, audit); }
      }
    }
  }

  lemma CreateStep(db: Db, player: nat, product: Id, location: Id, user: Id, at: Moment, clientId: Id, audit: Audit)
    requires Sound(db) && FindEntitlement(db, clientId).None?
    ensures var after := Engine.Created(db, player, product, location, user, at, Some(clientId), audit).0;
            Extends(db, after) && Sound(after)
  {
    hide PrefersIncoming, Engine.DeriveWindow;
    ExtendsReflexive(db);
  }

  lemma EntitlementStep(db: Db, s: Scope, a: Action, user: Id, audit: Audit)
    requires Sound(db) && a.body.EntitlementBody?
    ensures var after := EntitlementApplied(db, s, a, user, audit).0;
            Extends(db, after) && Sound(after)
  {
    hide PrefersIncoming, Engine.Drawn, Engine.Created, Extends, Sound;
    ExtendsReflexive(db);
    if IsDraw(a.body) {
      if EntitlementExists(db, a.body.entitlement.value) {
        DrawStep(db, a.body.entitlement.value.id, a.body.amount.value, user, a.at, Some(a.clientId), audit);
      }
    } else if a.body.player.Some? && a.body.product.Some? && PlayerExists(db, a.body.player.value) {
      var player := a.body.player.value.id;
      var location := db.players[player].location;
      var existing := FindEntitlement(db, a.clientId);
      if existing.Some? {
        AuditedExtends(db, db, Entry(EntitlementEntity, existing.value, Skip, location, user, a), audit,
                       Answer(a, Skipped, existing));
      } else {
        CreateStep(db, player, a.body.product.value, location, user, a.at, a.clientId, audit);
      }
    }
  }

  lemma NaturalStep(db: Db, s: Scope, a: Action, user: Id, audit: Audit)
    requires Sound(db) && IsNatural(a.body.EntityName())
    ensures var after := NaturalApplied(db, s, a, user, audit).0;
            Extends(db, after) && Sound(after)
  {
    hide Slug, PrefersIncoming, NaturalKey, IdentityOf, NaturalRefusal;
    ExtendsReflexive(db);
    if NaturalRefusal(db, s, a).None? {
      NoRefusalMeans(db, s, a);
      var location := db.players[a.body.player.value.id].location;
      var entity := a.body.EntityName();
      var existing := FindRecord(db, KeyFor(a));
      if existing.None? {
        var changed := db.(records := db.records + [NewRecord(db, a, user)]);
        assert Extends(db, changed) && Sound(changed);
        AuditedExtends(db, changed, Entry(entity, |db.records|, Insert, location, user, a), audit,
                       Answer(a, Applied, Some(|db.records|)));
      } else {
        var stored := db.records[existing.value];
        AuditedExtends(db, db, Entry(entity, existing.value, Skip, location, user, a), audit,
                       Answer(a, Skipped, existing));
        if PrefersIncoming(Some(a.at.ts), Some(a.clientId), stored.ts, stored.clientId) {
          PrefersAsymmetric(Some(a.at.ts), Some(a.clientId), stored.ts, stored.clientId);
          var changed := db.(records := db.records[existing.value := EditedRecord(stored, a)]);
          assert RecordKept(stored, EditedRecord(stored, a));
          assert Extends(db, changed) && Sound(changed);
          AuditedExtends(db, changed, Entry(entity, existing.value, Update, location, user, a), audit,
                         Answer(a, Applied, existing));
        }
      }
    }
  }

  lemma NoRefusalMeans(db: Db, s: Scope, a: Action)
    requires IsNatural(a.body.EntityName()) && NaturalRefusal(db, s, a).None?
    ensures a.body.player.Some? && PlayerExists(db, a.body.player.value)
  {
  }

  /** Every action, whatever comes of it, keeps the uniqueness of the tables and
      undoes nothing. */
  lemma ActionStep(db: Db, s: Scope, a: Action, user: Id, audit: Audit)
    requires Sound(db)
    ensures var after := Served(db, s, a, user, audit).0;
            Extends(db, after) && Sound(after)
  {
    hide Extends, Sound, PlayerApplied, ConsentApplied, EntitlementApplied, NaturalApplied;
    ExtendsReflexive(db);
    if a.body.PlayerBody? {
      PlayerStep(db, s, a, user, audit);
    } else if a.body.ConsentBody? {
      ConsentStep(db, s, a, user, audit);
    } else if a.body.EntitlementBody? {
      EntitlementStep(db, s, a, user, audit);
    } else if !a.body.UnknownBody? {
      NaturalStep(db, s, a, user, audit);
    }
  }
}
