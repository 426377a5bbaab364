/** Which actions the sync service takes, which it skips and which it turns away,
    in terms of the scope, the payload and the rows they name. */
module Admission {
  import opened Basics
  import opened Schema
  import opened Rbac
  import opened Mapping
  import opened Dedup
  import opened Resolution
  import opened Service
  import opened Replay
  import Engine

  // ------------------------------------------------------------------
  // Scopes
  // ------------------------------------------------------------------

  /** A founder reaches everything, a manager the own location, a facilitator the
      own school of the own location. */
  predicate InReach(s: Scope, location: Id, school: Option<Id>) {
    match s.role
    case Founder => true
    case Manager => s.location == Some(location)
    case Facilitator => s.location == Some(location) && s.school == school
  }

  /** Facilitators send lessons, kit and esports sessions, attendance and metrics;
      nobody sends an entity the service does not know. */
  predicate RoleMaySend(s: Scope, b: Body) {
    && !b.UnknownBody?
    && (s.role.Facilitator? ==>
          || b.AttendanceBody? || b.MetricsBody?
          || (b.SessionBody? && b.sessionType in {Some("lesson"), Some("kit"), Some("esports")}))
  }

  lemma ScopeMeaning(s: Scope, location: Id, school: Option<Id>)
    requires WellDerived(s)
    ensures CanWrite(s, Some(location), school) <==> InReach(s, location, school)
  {
  }

  lemma RoleMeaning(s: Scope, a: Action)
    ensures Forbidden(s, a).None? <==> RoleMaySend(s, a.body)
  {
  }

  /** A derived scope is the one the token's claims give. */
  lemma DeriveMeaning(p: Principal)
    ensures Derive(p).Some? <==> p.role == "founder"
                                 || (p.role == "manager" && p.location.Some? && p.location != Some(""))
                                 || (&& p.role == "facilitator" && p.location.Some? && p.location != Some("")
                                     && p.school.Some? && p.school != Some(""))
    ensures p.role == "founder" ==> Derive(p) == Some(Scope(Founder, None, None))
    ensures p.role == "manager" && Derive(p).Some? ==> Derive(p) == Some(Scope(Manager, p.location, None))
    ensures p.role == "facilitator" && Derive(p).Some? ==> Derive(p) == Some(Scope(Facilitator, p.location, p.school))
  {
    assert p.role == "founder" ==> p.role[1] == 'o';
    assert p.role == "manager" ==> p.role[0] == 'm';
    assert p.role == "facilitator" ==> p.role[1] == 'a';
  }

  /** A row is stamped with the scope's own location and school where it has one. */
  lemma StampMeaning(s: Scope, location: Option<Id>, school: Option<Id>)
    requires WellDerived(s)
    ensures s.role.Founder? ==> Stamp(s, location, school) == (location, school)
    ensures s.role.Manager? ==> Stamp(s, location, school) == (s.location, school)
    ensures s.role.Facilitator? ==> Stamp(s, location, school) == (s.location, s.school)
  {
  }

  predicate NamesPlayer(db: Db, r: Option<Ref>) {
    r.Some? && r.value.Server? && r.value.id < |db.players|
  }

  predicate ReachesPlayer(db: Db, s: Scope, r: Option<Ref>) {
    NamesPlayer(db, r) && InReach(s, db.players[r.value.id].location, db.players[r.value.id].school)
  }

  // ------------------------------------------------------------------
  // Sessions, attendance, payments and metrics
  // ------------------------------------------------------------------

  /** The action names a player in reach, and what it says of a session, an amount, a
      metric or a school stands up. */
  predicate Sensible(db: Db, s: Scope, b: Body) {
    && ReachesPlayer(db, s, b.PlayerRef())
    && var id := b.PlayerRef().value.id;
       var player := db.players[id];
       && (b.AttendanceBody? && b.session.None? ==> !s.role.Facilitator?)
       && (b.AttendanceBody? && b.session.Some? ==>
             && b.session.value.Server? && b.session.value.id < |db.records|
             && var session := db.records[b.session.value.id];
                session.entity.SessionEntity? && session.player == id && InReach(s, session.location, session.school))
       && (b.PaymentBody? ==> b.amountCents.Some?)
       && (b.MetricsBody? ==>
             && b.metricType in {Some("typing_wpm"), Some("typing_accuracy"), Some("homework_done"), Some("quiz_score"),
                                 Some("observation")}
             && b.metric.Some?)
       && (b.SessionBody? || b.AttendanceBody? ==>
             InReach(s, player.location, if b.school.Some? then b.school else player.school))
  }

  /** The table takes the row: a session of a known type, a dated attendance, and
      schools, products and lessons that exist. */
  predicate MakesRow(db: Db, b: Body)
    requires IsNatural(b.EntityName()) && NamesPlayer(db, b.PlayerRef())
  {
    var home := db.players[b.PlayerRef().value.id].school;
    && (b.SessionBody? ==> b.sessionType in {Some("lesson"), Some("kit"), Some("esports"), Some("lounge")})
    && (b.AttendanceBody? ==> b.date.Some?)
    && (b.SessionBody? || b.AttendanceBody? ==>
          var school := if b.school.Some? then b.school else home; school.Some? ==> school.value in db.known)
    && (b.PaymentBody? && b.product.Some? ==> b.product.value in db.products)
    && (b.MetricsBody? && b.lesson.Some? ==> b.lesson.value in db.known)
  }

  /** The action is the later one: by its time, or at the same time by its client id;
      any time is later than none. */
  predicate IsLater(a: Action, stored: Record) {
    || stored.ts.None? || a.at.ts > stored.ts.value
    || (a.at.ts == stored.ts.value && StrLess(if stored.clientId.Some? then stored.clientId.value
                                              else "None", a.clientId))
  }

  lemma LaterMeaning(a: Action, stored: Record)
    ensures PrefersIncoming(Some(a.at.ts), Some(a.clientId), stored.ts, stored.clientId) <==> IsLater(a, stored)
  {
  }

  lemma SensibleMeaning(db: Db, s: Scope, a: Action)
    requires IsNatural(a.body.EntityName()) && WellDerived(s)
    ensures NaturalRefusal(db, s, a).None? <==> Sensible(db, s, a.body)
    ensures NaturalRefusal(db, s, a).Some? && NaturalRefusal(db, s, a).value.Returned? ==>
              NaturalRefusal(db, s, a).value.result.status.Rejected?
  {
  }

  lemma MakesRowMeaning(db: Db, b: Body)
    requires IsNatural(b.EntityName()) && NamesPlayer(db, b.PlayerRef())
    ensures Insertable(db, b, EffectiveSchool(b, db.players[b.PlayerRef().value.id])) <==> MakesRow(db, b)
  {
  }

  /** The answer to a capture. It is turned away if the role may not send it, if it
      is not sensible, if it would be a first row the table does not take, or if it
      is a later attendance without its mark; it is skipped if its key has a row that
      it is not later than; otherwise it is applied. */
  lemma CaptureAnswer(db: Db, s: Scope, a: Action, user: Id)
    requires IsNatural(a.body.EntityName()) && WellDerived(s)
    ensures var r := Served(db, s, a, user, Works);
            if !RoleMaySend(s, a.body) || !Sensible(db, s, a.body) then r.1.status.Rejected? && r.0 == db
            else
              var existing := FindRecord(db, KeyFor(a));
              if existing.None? then
                if MakesRow(db, a.body) then r.1.status.Applied? && r.1.recordId == Some(|db.records|)
                else r.1.status.Rejected? && r.0 == db
              else if !IsLater(a, db.records[existing.value]) then
                && r.1.status.Skipped? && r.1.recordId == existing
                && r.0 == db.(log := db.log + [LogEntry(a.body.EntityName(), existing.value, Skip,
                                                        db.players[a.body.player.value.id].location, user, None,
                                                        Some(a.at.ts), false)])
              else if a.body.AttendanceBody? && a.body.present.None? then r.1.status.Rejected? && r.0 == db
              else r.1.status.Applied? && r.1.recordId == existing
  {
    hide Slug, NaturalKey, IdentityOf, PrefersIncoming, NaturalRefusal, Insertable, Forbidden, Sensible, MakesRow,
         RoleMaySend, IsLater, NewRecord, EditedRecord;
    RoleMeaning(s, a);
    SensibleMeaning(db, s, a);
    if NaturalRefusal(db, s, a).None? {
      NoRefusalMeans(db, s, a);
      MakesRowMeaning(db, a.body);
      var existing := FindRecord(db, KeyFor(a));
      if existing.Some? {
        LaterMeaning(a, db.records[existing.value]);
      }
    }
  }

  // ------------------------------------------------------------------
  // Consents
  // ------------------------------------------------------------------

  /** A consent is turned away if it comes from a facilitator, names no player in
      reach or no type; it is skipped if one with its client id is in the ledger;
      otherwise it is appended. */
  lemma ConsentAnswer(db: Db, s: Scope, a: Action, user: Id)
    requires a.body.ConsentBody? && WellDerived(s)
    ensures var r := Served(db, s, a, user, Works);
            var known := exists i :: 0 <= i < |db.consents| && db.consents[i].clientId == Some(a.clientId);
            if s.role.Facilitator? || !ReachesPlayer(db, s, a.body.player)
               || a.body.consentType.None? || a.body.consentType == Some("")
            then r.1.status.Rejected? && r.0 == db
            else if known then r.1.status.Skipped? && r.0 == db.(log := r.0.log)
            else r.1.status.Applied? && r.1.recordId == Some(|db.consents|)
  {
  }

  // ------------------------------------------------------------------
  // Sales and draws
  // ------------------------------------------------------------------

  /** A sale is turned away if it comes from a facilitator, names no player in reach
      or no product, if its product does not exist or its window ends outside the
      calendar, or if its client id has signed something else; it is skipped if an
      entitlement with its client id exists; otherwise it is made. */
  lemma SaleAnswer(db: Db, s: Scope, a: Action, user: Id)
    requires a.body.EntitlementBody? && !(a.body.entitlement.Some? && a.body.amount.Some?) && WellDerived(s)
    ensures var r := Served(db, s, a, user, Works);
            var sold := exists i :: 0 <= i < |db.entitlements| && db.entitlements[i].clientId == Some(a.clientId);
            if s.role.Facilitator? || !ReachesPlayer(db, s, a.body.player) || a.body.product.None? then
              r.1.status.Rejected? && r.0 == db
            else if sold then r.1.status.Skipped? && r.0 == db.(log := r.0.log)
            else if a.body.product.value !in db.products || HasReceipt(db.log, a.clientId)
                    || Engine.DeriveWindow(db.products[a.body.product.value], a.at.day).Raised?
            then r.1.status.Rejected? && r.0 == db
            else r.1.status.Applied? && r.1.recordId == Some(|db.entitlements|)
  {
    hide Engine.DeriveWindow;
  }

  predicate ReachesEntitlement(db: Db, s: Scope, r: Option<Ref>) {
    && r.Some? && r.value.Server? && r.value.id < |db.entitlements|
    && var row := db.entitlements[r.value.id];
       row.player < |db.players| && InReach(s, row.location, db.players[row.player].school)
  }

  /** A draw is turned away without a look if it comes from a facilitator or names no
      entitlement in reach, and with its reason if its amount is not positive, if the
      entitlement is not active, or if the period has less left than it asks for; it
      is skipped if it has been taken before; otherwise it is taken. */
  lemma DrawAnswerMeaning(db: Db, s: Scope, a: Action, user: Id)
    requires a.body.EntitlementBody? && a.body.entitlement.Some? && a.body.amount.Some? && WellDerived(s)
    ensures var r, amount := Served(db, s, a, user, Works), a.body.amount.value;
            if s.role.Facilitator?
               || !ReachesEntitlement(db, s, a.body.entitlement) then r.1.status.Rejected? && r.0 == db
            else
              var id := a.body.entitlement.value.id;
              var row := db.entitlements[id];
              var reset := Engine.ResetIfNewPeriod(row.units, row.validFrom, Engine.RulesOf(db, row.product), a.at.day);
              var left := if reset.changed then reset.units else row.units;
              && r.1.recordId == Some(id)
              && if amount <= 0 then r.1.status.Rejected? && r.1.reason == "invalid_amount" && r.0 == db
                 else if HasReceipt(db.log, a.clientId) || Engine.HasLegacyReceipt(db.log, id, a.at.ts) then
                   r.1.status.Skipped? && r.0 == db.(log := r.0.log)
                 else if !row.status.Active? then r.1.status.Rejected? && r.1.reason == "inactive"
                 else if left.Some? && left.value < amount then
                   r.1.status.Rejected? && r.1.reason == "insufficient_units"
                 else r.1.status.Applied?
  {
    hide Engine.ResetIfNewPeriod;
  }

  // ------------------------------------------------------------------
  // Registrations
  // ------------------------------------------------------------------

  /** Some stored key of this very name is another person's. */
  ghost predicate HasRival(db: Db, r: PlayerRecord) {
    exists i :: 0 <= i < |db.players| && NameOf(r) + "|" <= db.players[i].dedupKey && db.players[i].dedupKey != KeyOf(r)
  }

  ghost predicate Registered(db: Db, r: PlayerRecord) {
    exists i :: 0 <= i < |db.players| && db.players[i].dedupKey == KeyOf(r)
  }

  lemma RivalMeaning(db: Db, r: PlayerRecord)
    ensures HasRival(db, r) <==> exists k :: k in KeysForName(db.players, NameOf(r)) && k != KeyOf(r)
  {
    hide NameOf, KeyOf;
    if HasRival(db, r) {
      var i :| 0 <= i < |db.players| && NameOf(r) + "|" <= db.players[i].dedupKey && db.players[i].dedupKey != KeyOf(r);
      assert db.players[i].dedupKey in KeysForName(db.players, NameOf(r));
    }
  }

  function HomeOf(s: Scope, b: Body): Option<Id>
    requires b.PlayerBody?
  {
    if s.role.Founder? then b.location else s.location
  }

  function SchoolOf(s: Scope, b: Body): Option<Id>
    requires b.PlayerBody?
  {
    if s.role.Facilitator? then s.school else b.school
  }

  /** Refused whoever the person is and whatever is stored of them. */
  ghost predicate Unregistrable(db: Db, s: Scope, a: Action)
    requires a.body.PlayerBody?
  {
    || s.role.Facilitator? || HomeOf(s, a.body).None?
    || (a.body.location.Some? && !InReach(s, a.body.location.value, a.body.school))
    || !HasName(PlayerCandidate(a)) || HasRival(db, PlayerCandidate(a)) || a.body.birth.Unparsable?
  }

  lemma UnregistrableRefused(db: Db, s: Scope, a: Action, user: Id)
    requires a.body.PlayerBody? && WellDerived(s) && Unregistrable(db, s, a)
    ensures var r := Served(db, s, a, user, Works); r.1.status.Rejected? && r.0 == db
  {
    hide Slug, Resolved, KeyOf, HasName, KeysForName, IsPresent, NameOf, HasRival, WithSchool, Audited;
    CandidateIdentity(a);
    var person := PlayerCandidate(a);
    RivalMeaning(db, person);
    var (location, school) := Stamp(s, a.body.location, a.body.school);
    if location.Some? {
      ResolveOne(db.players, person, location.value, db.known);
    }
  }

  lemma PersonResolved(db: Db, s: Scope, a: Action)
    requires a.body.PlayerBody? && WellDerived(s) && !Unregistrable(db, s, a)
    ensures var (location, school) := Stamp(s, a.body.location, a.body.school);
            && location == HomeOf(s, a.body) && school == SchoolOf(s, a.body) && location.Some?
            && (a.body.location.Some? ==> CanWrite(s, a.body.location, a.body.school))
            && var run := Resolved(db.players, [PlayerCandidate(a)], location.value, db.known);
               var at := FindPlayer(db.players, KeyOf(PlayerCandidate(a)));
               if at.Some? then
                 && run.Returned? && run.result.1.resolved == map[a.clientId := at.value] && run.result.1.created == []
                 && |run.result.0| == |db.players| && run.result.0[at.value].school == db.players[at.value].school
               else if !IsPresent(a.body.first) || location.value !in db.known then run.Raised?
               else
                 && run.Returned? && run.result.1.resolved == map[a.clientId := |db.players|]
                 && run.result.1.created == [|db.players|]
                 && |run.result.0| == |db.players| + 1 && run.result.0[|db.players|].school.None?
  {
    assert IsPresent(a.body.first) ==> a.body.first.Some?;
    hide Slug, Resolved, KeyOf, HasName, KeysForName, IsPresent, NameOf, HasRival;
    CandidateIdentity(a);
    var person := PlayerCandidate(a);
    RivalMeaning(db, person);
    var (location, school) := Stamp(s, a.body.location, a.body.school);
    ResolveOne(db.players, person, location.value, db.known);
  }

  /** A registration is turned away if it comes from a facilitator, asks for a place
      out of reach or has none, names nobody or somebody who cannot be told apart,
      or carries a birth date nobody can read; a new person needs a first name and a
      location that exists, and a school that is to be filled in must exist. A person
      who is registered already is skipped, any other is added. */
  lemma RegistrationAnswer(db: Db, s: Scope, a: Action, user: Id)
    requires a.body.PlayerBody? && WellDerived(s)
    ensures var r, person := Served(db, s, a, user, Works), PlayerCandidate(a);
            var home, school := HomeOf(s, a.body), SchoolOf(s, a.body);
            if Unregistrable(db, s, a) then r.1.status.Rejected? && r.0 == db
            else if Registered(db, person) then
              var id := FindPlayer(db.players, KeyOf(person)).value;
              if db.players[id].school.None? && school.Some? && school.value !in db.known
              then r.1.status.Rejected? && r.0 == db
              else r.1.status.Skipped? && r.1.recordId == Some(id)
            else if !IsPresent(a.body.first) || home.value !in db.known || (school.Some? && school.value !in db.known)
            then r.1.status.Rejected? && r.0 == db
            else r.1.status.Applied? && r.1.recordId == Some(|db.players|)
  {
    hide Slug, Resolved, KeyOf, HasName, KeysForName, IsPresent, NameOf, HasRival, Stamp, CanWrite, InReach;
    if Unregistrable(db, s, a) {
      UnregistrableRefused(db, s, a, user);
    } else {
      PersonResolved(db, s, a);
      var run := Resolved(db.players, [PlayerCandidate(a)], HomeOf(s, a.body).value, db.known);
      assert run.Returned? && run.result.1.created != [] ==> run.result.1.created[0] == |db.players|;
    }
  }
}
