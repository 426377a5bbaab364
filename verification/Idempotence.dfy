/** Submitting an applied or skipped action again, at any later point, is skipped
    and changes nothing but the log. */
module Idempotence {
  import opened Basics
  import opened Schema
  import opened Rbac
  import opened Mapping
  import opened Dedup
  import opened Resolution
  import opened Service
  import opened Replay
  import Engine

  // ------------------------------------------------------------------
  // What an acknowledged action leaves behind
  // ------------------------------------------------------------------

  /** The durable trace of an acknowledged action: the row or receipt by which a
      later copy of it is recognised. */
  ghost predicate Durable(db: Db, a: Action) {
    match a.body
    case PlayerBody(_, _, _, _, _, _) => FindPlayer(db.players, KeyOf(PlayerCandidate(a))).Some?
    case ConsentBody(_, _, _, _) => FindConsent(db, a.clientId).Some?
    case EntitlementBody(_, _, _, _) =>
      if IsDraw(a.body) then HasReceipt(db.log, a.clientId) else FindEntitlement(db, a.clientId).Some?
    case UnknownBody(_) => false
    case _ =>
      && a.body.player.Some? && a.body.player.value.Server?
      && FindRecord(db, KeyFor(a)).Some?
      && var stored := db.records[FindRecord(db, KeyFor(a)).value];
         !PrefersIncoming(Some(a.at.ts), Some(a.clientId), stored.ts, stored.clientId)
  }

  /** The checks that let the action through, as far as they depend on tables. */
  ghost predicate Admitted(db: Db, s: Scope, a: Action) {
    && Forbidden(s, a).None?
    && match a.body
       case PlayerBody(_, _, _, _, location, school) =>
         && (location.Some? ==> CanWrite(s, location, school))
         && Stamp(s, location, school).0.Some?
         && HasName(PlayerCandidate(a))
         && FindPlayer(db.players, KeyOf(PlayerCandidate(a))).Some?
         && var row := db.players[FindPlayer(db.players, KeyOf(PlayerCandidate(a))).value];
            && GapsFilled(row, OwnAttributes(PlayerCandidate(a)))
            && (Stamp(s, location, school).1.Some? ==> row.school.Some?)
       case ConsentBody(player, consentType, _, _) =>
         && player.Some? && PlayerExists(db, player.value) && consentType.Some? && consentType.value != ""
         && CanWrite(s, Some(db.players[player.value.id].location), db.players[player.value.id].school)
       case EntitlementBody(player, product, entitlement, amount) =>
         if IsDraw(a.body) then
           && EntitlementExists(db, entitlement.value) && amount.value > 0
           && var row := db.entitlements[entitlement.value.id];
              CanWrite(s, Some(row.location), db.players[row.player].school)
         else
           && player.Some? && product.Some? && PlayerExists(db, player.value)
           && CanWrite(s, Some(db.players[player.value.id].location), db.players[player.value.id].school)
       case UnknownBody(_) => false
       case _ => NaturalRefusal(db, s, a).None?
  }

  // ------------------------------------------------------------------
  // An acknowledgement settles its action
  // ------------------------------------------------------------------

  ghost predicate Acknowledged(db: Db, s: Scope, a: Action, user: Id, audit: Audit) {
    !Served(db, s, a, user, audit).1.status.Rejected?
  }

  lemma PlayerSettles(db: Db, s: Scope, a: Action, user: Id, audit: Audit)
    requires a.body.PlayerBody? && Forbidden(s, a).None? && UniqueKeys(db.players)
    requires PlayerApplied(db, s, a, user, audit).1.Returned?
    requires !PlayerApplied(db, s, a, user, audit).1.result.status.Rejected?
    ensures var after := PlayerApplied(db, s, a, user, audit).0;
            Durable(after, a) && Admitted(after, s, a)
  {
    hide Slug, Resolved, KeyOf, HasName, KeysForName, IsPresent;
    var (location, school) := Stamp(s, a.body.location, a.body.school);
    var r := PlayerCandidate(a);
    CandidateIdentity(a);
    ResolveOne(db.players, r, location.value, db.known);
    var run := Resolved(db.players, [r], location.value, db.known).result;
    var id := run.1.resolved[a.clientId];
    assert run.0[id].dedupKey == KeyOf(r) && GapsFilled(run.0[id], OwnAttributes(r));
    var after := PlayerApplied(db, s, a, user, audit).0;
    assert after.players == WithSchool(run.0, id, school);
    assert after.players[id].dedupKey == KeyOf(r);
    forall i | 0 <= i < id ensures after.players[i].dedupKey != KeyOf(r) {
      assert after.players[i] == run.0[i];
    }
    assert FindPlayer(after.players, KeyOf(r)) == Some(id);
  }

  lemma ConsentSettles(db: Db, s: Scope, a: Action, user: Id, audit: Audit)
    requires a.body.ConsentBody? && Forbidden(s, a).None?
    requires ConsentApplied(db, s, a, user, audit).1.Returned?
    requires !ConsentApplied(db, s, a, user, audit).1.result.status.Rejected?
    ensures var after := ConsentApplied(db, s, a, user, audit).0;
            Durable(after, a) && Admitted(after, s, a)
  {
    var after := ConsentApplied(db, s, a, user, audit).0;
    if FindConsent(db, a.clientId).None? {
      assert after.consents[|db.consents|].clientId == Some(a.clientId);
    }
  }

  lemma DrawSettles(db: Db, id: nat, amount: int, user: Id, at: Moment, clientId: Id, audit: Audit)
    requires var drawn := Engine.Drawn(db, id, amount, user, at, Some(clientId), audit);
             drawn.1.Returned? && (drawn.1.result.status.DrawApplied? || drawn.1.result.status.DrawSkipped?)
    ensures HasReceipt(Engine.Drawn(db, id, amount, user, at, Some(clientId), audit).0.log, clientId)
    ensures amount > 0 && id < |db.entitlements|
  {
    var after := Engine.Drawn(db, id, amount, user, at, Some(clientId), audit).0;
    if HasReceipt(db.log, clientId) {
      var i :| 0 <= i < |db.log| && db.log[i].clientId == Some(clientId);
      assert after.log[i] == db.log[i];
    } else {
      assert after.log[|db.log|].clientId == Some(clientId);
    }
  }

  lemma EntitlementSettles(db: Db, s: Scope, a: Action, user: Id, audit: Audit)
    requires Sound(db) && a.body.EntitlementBody? && Forbidden(s, a).None?
    requires EntitlementApplied(db, s, a, user, audit).1.Returned?
    requires !EntitlementApplied(db, s, a, user, audit).1.result.status.Rejected?
    ensures var after := EntitlementApplied(db, s, a, user, audit).0;
            Durable(after, a) && Admitted(after, s, a)
  {
    hide Engine.Drawn;
    var after := EntitlementApplied(db, s, a, user, audit).0;
    if IsDraw(a.body) {
      var id := a.body.entitlement.value.id;
      DrawSettles(db, id, a.body.amount.value, user, a.at, a.clientId, audit);
      EntitlementStep(db, s, a, user, audit);
      assert EntitlementKept(db.entitlements[id], after.entitlements[id]);
      DrawKeepsPlayers(db, id, a.body.amount.value, user, a.at, Some(a.clientId), audit);
    } else if FindEntitlement(db, a.clientId).None? {
      assert after.entitlements[|db.entitlements|].clientId == Some(a.clientId);
    }
  }

  lemma DrawKeepsPlayers(db: Db, id: nat, amount: int, user: Id, at: Moment, clientId: Option<Id>, audit: Audit)
    ensures Engine.Drawn(db, id, amount, user, at, clientId, audit).0.players == db.players
  {
  }

  lemma NaturalSettles(db: Db, s: Scope, a: Action, user: Id, audit: Audit)
    requires Sound(db) && WellDerived(s) && IsNatural(a.body.EntityName()) && Forbidden(s, a).None?
    requires NaturalApplied(db, s, a, user, audit).1.Returned?
    requires !NaturalApplied(db, s, a, user, audit).1.result.status.Rejected?
    ensures var after := NaturalApplied(db, s, a, user, audit).0;
            Durable(after, a) && NaturalRefusal(after, s, a).None?
  {
    hide Slug, NaturalKey, IdentityOf, PrefersIncoming;
    NoRefusalMeans(db, s, a);
    NaturalStep(db, s, a, user, audit);
    PrefersAsymmetric(Some(a.at.ts), Some(a.clientId), Some(a.at.ts), Some(a.clientId));
    var after := NaturalApplied(db, s, a, user, audit).0;
    var existing := FindRecord(db, KeyFor(a));
    var id := if existing.Some? then existing.value else |db.records|;
    assert id < |after.records| && after.records[id].key == KeyFor(a);
    forall i | 0 <= i < id ensures after.records[i].key != KeyFor(a) {
      assert RecordKept(db.records[i], after.records[i]);
    }
    assert FindRecord(after, KeyFor(a)) == Some(id);
    RefusalStays(db, after, s, a);
  }

  /** Tables that kept their rows still let the action through. */
  lemma RefusalStays(d: Db, e: Db, s: Scope, a: Action)
    requires WellDerived(s) && IsNatural(a.body.EntityName()) && NaturalRefusal(d, s, a).None? && Extends(d, e)
    ensures NaturalRefusal(e, s, a).None?
  {
    hide PrefersIncoming;
    var id := a.body.player.value.id;
    var p, q := d.players[id], e.players[id];
    assert RowExtends(p, q);
    CanWriteMonotone(s, Some(p.location), p.school, q.school);
    if a.body.SessionBody? || a.body.AttendanceBody? {
      CanWriteMonotone(s, Some(p.location), EffectiveSchool(a.body, p), EffectiveSchool(a.body, q));
    }
    var session := a.body.SessionRef();
    if session.Some? {
      assert RecordKept(d.records[session.value.id], e.records[session.value.id]);
    }
  }

  /** Acknowledging an action makes it durable. */
  lemma AcknowledgedSettles(db: Db, s: Scope, a: Action, user: Id, audit: Audit)
    requires Sound(db) && WellDerived(s) && Acknowledged(db, s, a, user, audit)
    ensures var after := Served(db, s, a, user, audit).0;
            Durable(after, a) && Admitted(after, s, a)
  {
    hide PlayerApplied, ConsentApplied, EntitlementApplied, NaturalApplied, Durable;
    if a.body.PlayerBody? {
      PlayerSettles(db, s, a, user, audit);
    } else if a.body.ConsentBody? {
      ConsentSettles(db, s, a, user, audit);
    } else if a.body.EntitlementBody? {
      EntitlementSettles(db, s, a, user, audit);
    } else {
      NaturalSettles(db, s, a, user, audit);
    }
  }

  // ------------------------------------------------------------------
  // Settled actions stay settled
  // ------------------------------------------------------------------

  lemma PlayerIndexStays(p: seq<Player>, q: seq<Player>, key: string)
    requires PlayersExtend(p, q) && FindPlayer(p, key).Some?
    ensures FindPlayer(q, key) == FindPlayer(p, key)
  {
    var id := FindPlayer(p, key).value;
    assert RowExtends(p[id], q[id]);
    forall i | 0 <= i < id ensures q[i].dedupKey != key {
      assert RowExtends(p[i], q[i]);
    }
  }

  lemma RecordIndexStays(d: Db, e: Db, key: string)
    requires Extends(d, e) && FindRecord(d, key).Some?
    ensures FindRecord(e, key) == FindRecord(d, key)
  {
    hide PrefersIncoming;
    var id := FindRecord(d, key).value;
    assert RecordKept(d.records[id], e.records[id]);
    forall i | 0 <= i < id ensures e.records[i].key != key {
      assert RecordKept(d.records[i], e.records[i]);
    }
  }

  lemma DurableStays(d: Db, e: Db, a: Action)
    requires Durable(d, a) && Extends(d, e)
    ensures Durable(e, a)
  {
    hide Slug, PrefersIncoming, KeyOf, NaturalKey, IdentityOf;
    match a.body {
      case PlayerBody(_, _, _, _, _, _) =>
        PlayerIndexStays(d.players, e.players, KeyOf(PlayerCandidate(a)));
      case ConsentBody(_, _, _, _) =>
        assert e.consents[FindConsent(d, a.clientId).value].clientId == Some(a.clientId);
      case EntitlementBody(_, _, _, _) =>
        if IsDraw(a.body) {
          var i :| 0 <= i < |d.log| && d.log[i].clientId == Some(a.clientId);
          assert e.log[i] == d.log[i];
        } else {
          var i := FindEntitlement(d, a.clientId).value;
          assert EntitlementKept(d.entitlements[i], e.entitlements[i]);
        }
      case UnknownBody(_) =>
      case _ =>
        RecordIndexStays(d, e, KeyFor(a));
        var i := FindRecord(d, KeyFor(a)).value;
        assert RecordKept(d.records[i], e.records[i]);
        NotPreferredTransitive(Some(a.at.ts), Some(a.clientId), d.records[i].ts, d.records[i].clientId,
                               e.records[i].ts, e.records[i].clientId);
    }
  }

  lemma AdmittedStays(d: Db, e: Db, s: Scope, a: Action)
    requires WellDerived(s) && Admitted(d, s, a) && Extends(d, e)
    ensures Admitted(e, s, a)
  {
    hide Slug, PrefersIncoming, KeyOf, HasName, IsPresent;
    match a.body {
      case PlayerBody(_, _, _, _, _, _) =>
        var key := KeyOf(PlayerCandidate(a));
        PlayerIndexStays(d.players, e.players, key);
        var id := FindPlayer(d.players, key).value;
        assert RowExtends(d.players[id], e.players[id]);
      case ConsentBody(player, _, _, _) =>
        PlayerScopeStays(d, e, s, player.value.id);
      case EntitlementBody(player, _, entitlement, _) =>
        if IsDraw(a.body) {
          var id := entitlement.value.id;
          assert EntitlementKept(d.entitlements[id], e.entitlements[id]);
          var owner := d.entitlements[id].player;
          assert RowExtends(d.players[owner], e.players[owner]);
          CanWriteMonotone(s, Some(d.entitlements[id].location), d.players[owner].school, e.players[owner].school);
        } else {
          PlayerScopeStays(d, e, s, player.value.id);
        }
      case UnknownBody(_) =>
      case _ =>
        RefusalStays(d, e, s, a);
    }
  }

  lemma PlayerScopeStays(d: Db, e: Db, s: Scope, id: nat)
    requires WellDerived(s) && Extends(d, e) && id < |d.players|
    requires CanWrite(s, Some(d.players[id].location), d.players[id].school)
    ensures CanWrite(s, Some(e.players[id].location), e.players[id].school)
  {
    assert RowExtends(d.players[id], e.players[id]);
    CanWriteMonotone(s, Some(d.players[id].location), d.players[id].school, e.players[id].school);
  }

  // ------------------------------------------------------------------
  // A settled action is skipped
  // ------------------------------------------------------------------

  /** Skipped, every business table as it was, one more skip in the log. */
  ghost predicate IsNoOp(db: Db, after: Db, result: ActionResult) {
    && result.status.Skipped?
    && after.Business() == db.Business()
    && |after.log| == |db.log| + 1 && after.log[..|db.log|] == db.log
    && after.log[|db.log|].action == Skip && after.log[|db.log|].clientId.None?
  }

  /** The names the players table can tell apart. */
  ghost predicate NamesTellApart(db: Db, a: Action) {
    a.body.PlayerBody? ==> OneRowPerName(db.players) && PlainName(a.body.first, a.body.last)
  }

  lemma SettledPlayerSkips(db: Db, s: Scope, a: Action, user: Id)
    requires a.body.PlayerBody? && Durable(db, a) && Admitted(db, s, a) && NamesTellApart(db, a)
    ensures PlayerApplied(db, s, a, user, Works).1.Returned?
    ensures IsNoOp(db, PlayerApplied(db, s, a, user, Works).0, PlayerApplied(db, s, a, user, Works).1.result)
  {
    var r := PlayerCandidate(a);
    var (location, school) := Stamp(s, a.body.location, a.body.school);
    var id := FindPlayer(db.players, KeyOf(r)).value;
    OnlyKeyOfName(db.players, r, id);
    FilledIsNoOp(db.players[id], OwnAttributes(r));
    hide Slug, Resolved, KeyOf, HasName, KeysForName, IsPresent;
    ResolveOne(db.players, r, location.value, db.known);
    assert db.players[id := db.players[id]] == db.players;
    assert WithSchool(db.players, id, school) == db.players;
  }

  /** A settled registration that is sent again is skipped exactly when its key is
      alone under its name; otherwise it is rejected and nothing changes. */
  lemma PlayerReplayIff(db: Db, s: Scope, a: Action, user: Id)
    requires a.body.PlayerBody? && Durable(db, a) && Admitted(db, s, a)
    ensures var replay := Served(db, s, a, user, Works);
            && (replay.1.status.Skipped? <==> AloneUnderName(db.players, PlayerCandidate(a)))
            && (replay.1.status.Rejected? <==> !AloneUnderName(db.players, PlayerCandidate(a)))
            && (replay.1.status.Rejected? ==> replay.0 == db)
            && (replay.1.status.Skipped? ==> IsNoOp(db, replay.0, replay.1))
  {
    var r := PlayerCandidate(a);
    var (location, school) := Stamp(s, a.body.location, a.body.school);
    var id := FindPlayer(db.players, KeyOf(r)).value;
    FilledIsNoOp(db.players[id], OwnAttributes(r));
    hide Slug, Resolved, KeyOf, HasName, KeysForName, IsPresent;
    CandidateIdentity(a);
    ResolveOne(db.players, r, location.value, db.known);
    assert db.players[id := db.players[id]] == db.players;
    assert WithSchool(db.players, id, school) == db.players;
  }

  /** A name that contains the separator can break another person's replay: the
      key of `a|b c` starts with the name key of `a b`. */
  lemma SeparatorConfusesNames(x: Player, y: Player)
    requires x.dedupKey == DedupKey(Some("a"), Some("b"), NoBirth)
    requires y.dedupKey == DedupKey(Some("a|b"), Some("c"), NoBirth)
    ensures NameKey(Some("a"), Some("b")) != NameKey(Some("a|b"), Some("c"))
    ensures x.dedupKey != y.dedupKey
    ensures forall r: PlayerRecord :: r.first == Some("a") && r.last == Some("b") && r.birth.NoBirth? ==>
              !AloneUnderName([x, y], r)
  {
    SeparatorSlugs();
    hide Slug;
    forall r: PlayerRecord | r.first == Some("a") && r.last == Some("b") && r.birth.NoBirth?
      ensures !AloneUnderName([x, y], r)
    {
      assert NameOf(r) + "|" == "a|b|" && KeyOf(r) == "a|b|" && y.dedupKey == "a|b|c|";
      assert "a|b|" <= [x, y][1].dedupKey;
      assert y.dedupKey in KeysForName([x, y], NameOf(r));
    }
  }

  const FOUNDER := Scope(Founder, None, None)

  function Registration(clientId: Id, first: string, last: string): Action {
    Action(clientId, Moment(1, 7), PlayerBody(Some(first), Some(last), NoBirth, None, Some("here"), None))
  }

  /** A person nobody confuses with anyone is registered as the next row. */
  lemma RegistersNew(db: Db, clientId: Id, first: string, last: string)
    requires "here" in db.known && IsPresent(Some(first))
    requires Slug(Some(first)) != "" && KeysForName(db.players, NameKey(Some(first), Some(last))) == {}
    requires FindPlayer(db.players, DedupKey(Some(first), Some(last), NoBirth)).None?
    ensures var r := Served(db, FOUNDER, Registration(clientId, first, last), "founder", Works);
            && r.1.status.Applied? && r.0.known == db.known
            && |r.0.players| == |db.players| + 1 && db.players <= r.0.players
            && r.0.players[|db.players|].dedupKey == DedupKey(Some(first), Some(last), NoBirth)
  {
    hide Slug, Resolved, KeysForName, DedupKey, NameKey, IsPresent;
    var a := Registration(clientId, first, last);
    CandidateIdentity(a);
    ResolveOne(db.players, PlayerCandidate(a), "here", db.known);
  }

  /** Two rows whose keys are confusable: the registration of the first is neither
      resolved nor inserted. */
  lemma RegistersInVain(db: Db, clientId: Id)
    requires |db.players| == 2
    requires db.players[0].dedupKey == DedupKey(Some("a"), Some("b"), NoBirth)
    requires db.players[1].dedupKey == DedupKey(Some("a|b"), Some("c"), NoBirth)
    ensures var r := Served(db, FOUNDER, Registration(clientId, "a", "b"), "founder", Works);
            r.1.status.Rejected? && r.1.reason == "unresolved_player" && r.0 == db
  {
    var a := Registration(clientId, "a", "b");
    CandidateIdentity(a);
    SeparatorConfusesNames(db.players[0], db.players[1]);
    assert [db.players[0], db.players[1]] == db.players;
    hide Slug, Resolved, KeysForName, DedupKey, NameKey, HasName;
    assert !AloneUnderName(db.players, PlayerCandidate(a));
    ResolveOne(db.players, PlayerCandidate(a), "here", db.known);
  }

  lemma SeparatorKeys()
    ensures IsPresent(Some("a")) && IsPresent(Some("a|b")) && Slug(Some("a")) != "" && Slug(Some("a|b")) != ""
    ensures DedupKey(Some("a"), Some("b"), NoBirth) == "a|b|" && DedupKey(Some("a|b"), Some("c"), NoBirth) == "a|b|c|"
    ensures NameKey(Some("a"), Some("b")) == "a|b" && NameKey(Some("a|b"), Some("c")) == "a|b|c"
  {
    SeparatorSlugs();
    assert "a"[0] == 'a' && "a|b"[0] == 'a';
    hide Slug;
    assert BirthIso(NoBirth) == "";
  }

  lemma NoneUnder(players: seq<Player>, name: string)
    requires forall i :: 0 <= i < |players| ==> |players[i].dedupKey| <= |name|
    ensures KeysForName(players, name) == {}
    ensures FindPlayer(players, name + "|").None?
  {
  }

  /** The run: `a b` registers, `a|b c` registers, and `a b`, sent once more, is
      rejected although it was acknowledged before. */
  lemma SeparatorBreaksReplay()
    ensures var db := Db([], [], [], [], [], map[], {"here"});
            var mine, other := Registration("p", "a", "b"), Registration("q", "a|b", "c");
            var one := Served(db, FOUNDER, mine, "founder", Works);
            var two := Served(one.0, FOUNDER, other, "founder", Works);
            var again := Served(two.0, FOUNDER, mine, "founder", Works);
            && Sound(db) && one.1.status.Applied? && two.1.status.Applied?
            && again.1.status.Rejected? && again.1.reason == "unresolved_player" && again.0 == two.0
  {
    SeparatorKeys();
    hide Slug, Served, DedupKey, NameKey, IsPresent, Registration, KeysForName, FindPlayer;
    var db := Db([], [], [], [], [], map[], {"here"});
    NoneUnder(db.players, "a|b");
    assert "a|b" + "|" == "a|b|" && "a|b|c" + "|" == "a|b|c|";
    RegistersNew(db, "p", "a", "b");
    var one := Served(db, FOUNDER, Registration("p", "a", "b"), "founder", Works).0;
    NoneUnder(one.players, "a|b|c");
    RegistersNew(one, "q", "a|b", "c");
    RegistersInVain(Served(one, FOUNDER, Registration("q", "a|b", "c"), "founder", Works).0, "p");
  }

  /** Among rows with one row per name, a row's key is the only one of its name. */
  lemma OnlyKeyOfName(players: seq<Player>, r: PlayerRecord, id: nat)
    requires OneRowPerName(players) && PlainName(r.first, r.last)
    requires id < |players| && players[id].dedupKey == KeyOf(r)
    ensures forall k :: k in KeysForName(players, NameOf(r)) ==> k == KeyOf(r)
  {
    LookupExact(players, r.first, r.last);
    assert NameOf(r) + "|" <= KeyOf(r);
    hide Slug;
  }

  lemma FilledIsNoOp(row: Player, attrs: Attrs)
    requires GapsFilled(row, attrs)
    ensures GapsClosed(row, attrs) == Returned(row)
  {
  }

  lemma SettledDrawSkips(db: Db, id: nat, amount: int, user: Id, at: Moment, clientId: Id)
    requires HasReceipt(db.log, clientId) && amount > 0 && id < |db.entitlements|
    ensures var drawn := Engine.Drawn(db, id, amount, user, at, Some(clientId), Works);
            && drawn.1 == Returned(Engine.DrawResult(Engine.DrawSkipped, db.entitlements[id].units))
            && drawn.0.Business() == db.Business()
            && drawn.0.log == db.log + [Engine.DrawEntry(db.entitlements[id], id, Skip, user, at, None)]
  {
  }

  lemma SettledSkips(db: Db, s: Scope, a: Action, user: Id)
    requires Durable(db, a) && Admitted(db, s, a) && NamesTellApart(db, a)
    ensures IsNoOp(db, Served(db, s, a, user, Works).0, Served(db, s, a, user, Works).1)
  {
    hide Slug, PlayerApplied, NaturalKey, IdentityOf, PrefersIncoming, OneRowPerName;
    if a.body.PlayerBody? {
      SettledPlayerSkips(db, s, a, user);
    } else if IsDraw(a.body) {
      hide Engine.Drawn;
      SettledDrawSkips(db, a.body.entitlement.value.id, a.body.amount.value, user, a.at, a.clientId);
    }
  }

  // ------------------------------------------------------------------
  // Runs
  // ------------------------------------------------------------------

  /** One action arriving from any device, under any scope, with the audit log in
      any state. */
  datatype Step = Step(scope: Scope, action: Action, user: Id, audit: Audit)

  ghost function Run(db: Db, steps: seq<Step>): Db
    decreases |steps|
  {
    if steps == [] then db
    else
      var last := steps[|steps| - 1];
      Served(Run(db, steps[..|steps| - 1]), last.scope, last.action, last.user, last.audit).0
  }

  ghost predicate PlainSteps(steps: seq<Step>) {
    forall t :: t in steps && t.action.body.PlayerBody? ==> PlainName(t.action.body.first, t.action.body.last)
  }

  lemma {:induction false} RunExtends(db: Db, steps: seq<Step>)
    requires Sound(db)
    ensures Extends(db, Run(db, steps)) && Sound(Run(db, steps))
    decreases |steps|
  {
    hide Served, Extends, Sound;
    if steps == [] {
      ExtendsReflexive(db);
    } else {
      var front, last := steps[..|steps| - 1], steps[|steps| - 1];
      RunExtends(db, front);
      ActionStep(Run(db, front), last.scope, last.action, last.user, last.audit);
      ExtendsTransitive(db, Run(db, front), Run(db, steps));
    }
  }

  lemma RegistrationKeepsNames(db: Db, s: Scope, a: Action, user: Id, audit: Audit)
    requires OneRowPerName(db.players) && a.body.PlayerBody? && PlainName(a.body.first, a.body.last)
    ensures OneRowPerName(PlayerApplied(db, s, a, user, audit).0.players)
  {
    hide Slug, OneRowPerName, Resolved;
    var (location, school) := Stamp(s, a.body.location, a.body.school);
    var r := PlayerCandidate(a);
    if location.Some? && Resolved(db.players, [r], location.value, db.known).Returned? {
      ResolveKeepsOneRowPerName(db.players, [r], location.value, db.known);
      var run := Resolved(db.players, [r], location.value, db.known).result;
      if a.clientId in run.1.resolved && run.1.resolved[a.clientId] < |run.0| {
        SchoolKeepsNames(run.0, run.1.resolved[a.clientId], school);
      }
    }
  }

  lemma StepKeepsNames(db: Db, s: Scope, a: Action, user: Id, audit: Audit)
    requires OneRowPerName(db.players)
    requires a.body.PlayerBody? ==> PlainName(a.body.first, a.body.last)
    ensures OneRowPerName(Served(db, s, a, user, audit).0.players)
  {
    hide Slug, OneRowPerName, PlayerApplied;
    if a.body.PlayerBody? {
      RegistrationKeepsNames(db, s, a, user, audit);
    } else if IsDraw(a.body) && EntitlementExists(db, a.body.entitlement.value) {
      hide Engine.Drawn;
      DrawKeepsPlayers(db, a.body.entitlement.value.id, a.body.amount.value, user, a.at, Some(a.clientId), audit);
    }
  }

  lemma SchoolKeepsNames(players: seq<Player>, id: nat, school: Option<Id>)
    requires OneRowPerName(players) && id < |players|
    ensures OneRowPerName(WithSchool(players, id, school))
  {
    hide Slug;
    var after := WithSchool(players, id, school);
    forall i | 0 <= i < |players| ensures RowName(after[i]) == RowName(players[i]) && RowConsistent(after[i]) {
      assert RowConsistent(players[i]);
    }
  }

  lemma {:induction false} RunKeepsNames(db: Db, steps: seq<Step>)
    requires OneRowPerName(db.players) && PlainSteps(steps)
    ensures OneRowPerName(Run(db, steps).players)
    decreases |steps|
  {
    hide Served, OneRowPerName, PlainName;
    if steps != [] {
      var front, last := steps[..|steps| - 1], steps[|steps| - 1];
      RunKeepsNames(db, front);
      assert last in steps;
      StepKeepsNames(Run(db, front), last.scope, last.action, last.user, last.audit);
    }
  }

  /** Once an action was applied or skipped, resubmitting it under the same scope
      after any further actions is skipped and changes no business row; for a
      player this needs the names in play to be free of the key separator. */
  lemma ReplayIsNoOp(db: Db, s: Scope, a: Action, user: Id, audit: Audit, steps: seq<Step>, user': Id)
    requires Sound(db) && WellDerived(s) && Acknowledged(db, s, a, user, audit)
    requires a.body.PlayerBody? ==>
               OneRowPerName(db.players) && PlainName(a.body.first, a.body.last) && PlainSteps(steps)
    ensures var later := Run(Served(db, s, a, user, audit).0, steps);
            var replay := Served(later, s, a, user', Works);
            IsNoOp(later, replay.0, replay.1) && Durable(later, a)
  {
    hide Served, Run, Extends, Sound, Durable, Admitted, OneRowPerName, PlainName;
    var after := Served(db, s, a, user, audit).0;
    ActionStep(db, s, a, user, audit);
    AcknowledgedSettles(db, s, a, user, audit);
    RunExtends(after, steps);
    var later := Run(after, steps);
    DurableStays(after, later, a);
    AdmittedStays(after, later, s, a);
    if a.body.PlayerBody? {
      StepKeepsNames(db, s, a, user, audit);
      RunKeepsNames(after, steps);
    }
    SettledSkips(later, s, a, user');
  }

  // ------------------------------------------------------------------
  // The record id an answer carries
  // ------------------------------------------------------------------

  /** The row an action is recognised by. */
  ghost function TraceOf(db: Db, a: Action): Option<nat> {
    match a.body
    case PlayerBody(_, _, _, _, _, _) => FindPlayer(db.players, KeyOf(PlayerCandidate(a)))
    case ConsentBody(_, _, _, _) => FindConsent(db, a.clientId)
    case EntitlementBody(_, _, entitlement, _) =>
      if !IsDraw(a.body) then FindEntitlement(db, a.clientId)
      else if entitlement.value.Server? && HasReceipt(db.log, a.clientId) then Some(entitlement.value.id)
      else None
    case UnknownBody(_) => None
    case _ => if a.body.player.Some? && a.body.player.value.Server? then FindRecord(db, KeyFor(a)) else None
  }

  lemma PlayerAnswerNamesTrace(db: Db, s: Scope, a: Action, user: Id, audit: Audit)
    requires a.body.PlayerBody? && Forbidden(s, a).None? && UniqueKeys(db.players)
    requires PlayerApplied(db, s, a, user, audit).1.Returned?
    requires !PlayerApplied(db, s, a, user, audit).1.result.status.Rejected?
    ensures var r := PlayerApplied(db, s, a, user, audit);
            r.1.result.recordId.Some? && r.1.result.recordId == TraceOf(r.0, a)
  {
    hide Slug, Resolved, KeyOf, HasName, KeysForName, IsPresent;
    var (location, school) := Stamp(s, a.body.location, a.body.school);
    var r := PlayerCandidate(a);
    CandidateIdentity(a);
    ResolveOne(db.players, r, location.value, db.known);
    var run := Resolved(db.players, [r], location.value, db.known).result;
    var id := run.1.resolved[a.clientId];
    var after := PlayerApplied(db, s, a, user, audit).0;
    assert after.players == WithSchool(run.0, id, school);
    assert after.players[id].dedupKey == KeyOf(r);
    forall i | 0 <= i < id ensures after.players[i].dedupKey != KeyOf(r) {
      assert after.players[i] == run.0[i];
    }
  }

  lemma EntitlementAnswerNamesTrace(db: Db, s: Scope, a: Action, user: Id, audit: Audit)
    requires Sound(db) && a.body.EntitlementBody? && Forbidden(s, a).None?
    requires EntitlementApplied(db, s, a, user, audit).1.Returned?
    requires !EntitlementApplied(db, s, a, user, audit).1.result.status.Rejected?
    ensures var r := EntitlementApplied(db, s, a, user, audit);
            r.1.result.recordId.Some? && r.1.result.recordId == TraceOf(r.0, a)
  {
    hide Engine.Drawn;
    EntitlementSettles(db, s, a, user, audit);
    EntitlementStep(db, s, a, user, audit);
    var after := EntitlementApplied(db, s, a, user, audit).0;
    if !IsDraw(a.body) {
      var existing := FindEntitlement(db, a.clientId);
      var id := if existing.Some? then existing.value else |db.entitlements|;
      assert id < |after.entitlements| && after.entitlements[id].clientId == Some(a.clientId);
      forall i | 0 <= i < id ensures after.entitlements[i].clientId != Some(a.clientId) {
        assert EntitlementKept(db.entitlements[i], after.entitlements[i]);
      }
    }
  }

  lemma NaturalAnswerNamesTrace(db: Db, s: Scope, a: Action, user: Id, audit: Audit)
    requires Sound(db) && WellDerived(s) && IsNatural(a.body.EntityName()) && Forbidden(s, a).None?
    requires NaturalApplied(db, s, a, user, audit).1.Returned?
    requires !NaturalApplied(db, s, a, user, audit).1.result.status.Rejected?
    ensures var r := NaturalApplied(db, s, a, user, audit);
            r.1.result.recordId.Some? && r.1.result.recordId == TraceOf(r.0, a)
  {
    hide Slug, NaturalKey, IdentityOf, PrefersIncoming;
    NaturalSettles(db, s, a, user, audit);
    NoRefusalMeans(db, s, a);
    NaturalStep(db, s, a, user, audit);
    var after := NaturalApplied(db, s, a, user, audit).0;
    var existing := FindRecord(db, KeyFor(a));
    if existing.Some? {
      RecordIndexStays(db, after, KeyFor(a));
    } else {
      assert after.records[|db.records|].key == KeyFor(a);
      assert FindRecord(after, KeyFor(a)) == Some(|db.records|);
    }
  }

  lemma ConsentAnswerNamesTrace(db: Db, s: Scope, a: Action, user: Id, audit: Audit)
    requires a.body.ConsentBody? && Forbidden(s, a).None?
    requires ConsentApplied(db, s, a, user, audit).1.Returned?
    requires !ConsentApplied(db, s, a, user, audit).1.result.status.Rejected?
    ensures var r := ConsentApplied(db, s, a, user, audit);
            r.1.result.recordId.Some? && r.1.result.recordId == TraceOf(r.0, a)
  {
    var after := ConsentApplied(db, s, a, user, audit).0;
    if FindConsent(db, a.clientId).None? {
      assert after.consents[|db.consents|].clientId == Some(a.clientId);
      assert FindConsent(after, a.clientId) == Some(|db.consents|);
    }
  }

  /** The id in an acknowledgement is the id of the row that holds the action. */
  lemma AnswerNamesTrace(db: Db, s: Scope, a: Action, user: Id, audit: Audit)
    requires Sound(db) && WellDerived(s) && Acknowledged(db, s, a, user, audit)
    ensures var r := Served(db, s, a, user, audit);
            r.1.recordId.Some? && r.1.recordId == TraceOf(r.0, a)
  {
    hide PlayerApplied, ConsentApplied, EntitlementApplied, NaturalApplied, TraceOf;
    if a.body.PlayerBody? {
      PlayerAnswerNamesTrace(db, s, a, user, audit);
    } else if a.body.ConsentBody? {
      ConsentAnswerNamesTrace(db, s, a, user, audit);
    } else if a.body.EntitlementBody? {
      EntitlementAnswerNamesTrace(db, s, a, user, audit);
    } else {
      NaturalAnswerNamesTrace(db, s, a, user, audit);
    }
  }

  /** That row never changes its id. */
  lemma TraceStays(d: Db, e: Db, a: Action)
    requires TraceOf(d, a).Some? && Extends(d, e)
    ensures TraceOf(e, a) == TraceOf(d, a)
  {
    hide Slug, PrefersIncoming, KeyOf, NaturalKey, IdentityOf;
    match a.body {
      case PlayerBody(_, _, _, _, _, _) =>
        PlayerIndexStays(d.players, e.players, KeyOf(PlayerCandidate(a)));
      case ConsentBody(_, _, _, _) =>
        var i := FindConsent(d, a.clientId).value;
        assert forall j :: 0 <= j <= i ==> e.consents[j] == d.consents[j];
      case EntitlementBody(_, _, _, _) =>
        if IsDraw(a.body) {
          var i :| 0 <= i < |d.log| && d.log[i].clientId == Some(a.clientId);
          assert e.log[i] == d.log[i];
        } else {
          var i := FindEntitlement(d, a.clientId).value;
          forall j | 0 <= j <= i ensures e.entitlements[j].clientId == d.entitlements[j].clientId {
            assert EntitlementKept(d.entitlements[j], e.entitlements[j]);
          }
        }
      case UnknownBody(_) =>
      case _ =>
        RecordIndexStays(d, e, KeyFor(a));
    }
  }

  /** An applied draw had no receipt before and has one after; nothing else ever
      gives its client id a second one. */
  lemma DrawAppliesOnce(db: Db, s: Scope, a: Action, user: Id, audit: Audit)
    requires IsDraw(a.body) && Served(db, s, a, user, audit).1.status.Applied?
    ensures !HasReceipt(db.log, a.clientId)
    ensures HasReceipt(Served(db, s, a, user, audit).0.log, a.clientId)
  {
    var id := a.body.entitlement.value.id;
    DrawSettles(db, id, a.body.amount.value, user, a.at, a.clientId, audit);
  }
}
