/** Last-write-wins on the tables: who a natural key's row belongs to after any
    run, and exactly when the order of arrival makes no difference. */
module LastWrite {
  import opened Basics
  import opened Schema
  import opened Rbac
  import opened Mapping
  import opened Service
  import opened Replay
  import opened Idempotence
  import opened Arrivals
  import Resolution
  import Engine

  predicate LosesTo(a: Action, r: Record) {
    !PrefersIncoming(Some(a.at.ts), Some(a.clientId), r.ts, r.clientId)
  }

  function RowOf(db: Db, key: string): Record
    requires FindRecord(db, key).Some?
  {
    db.records[FindRecord(db, key).value]
  }

  function MarkOf(db: Db, key: string): Option<Mark> {
    if FindRecord(db, key).None? then None
    else Some(Mark(RowOf(db, key).ts, RowOf(db, key).clientId, RowOf(db, key).value))
  }

  // ------------------------------------------------------------------
  // Any run at all
  // ------------------------------------------------------------------

  /** The value columns the action wrote; a session's reference counts only if
      the action carried it. */
  predicate Wrote(b: Body, v: Value) {
    && IsNatural(b.EntityName())
    && if Omits(b) then v.SessionValue? && v.duration == b.duration else v == InsertedValue(b)
  }

  /** The action is of this key. */
  predicate Concerns(a: Action, key: string) {
    && IsNatural(a.body.EntityName()) && a.body.player.Some? && a.body.player.value.Server?
    && KeyFor(a) == key
  }

  /** The row is the action's: its pair and the columns it supplied. */
  predicate WroteRow(a: Action, key: string, r: Record) {
    Concerns(a, key) && r.ts == Some(a.at.ts) && r.clientId == Some(a.clientId) && Wrote(a.body, r.value)
  }

  ghost function StatusAt(db: Db, steps: seq<Step>, k: nat): ActionStatus
    requires k < |steps|
  {
    var t := steps[k];
    Served(Run(db, steps[..k]), t.scope, t.action, t.user, t.audit).1.status
  }

  /** A step that is not an applied action on the key leaves its row. */
  lemma OtherStepsLeaveTheRow(db: Db, t: Step, key: string)
    requires Sound(db)
    ensures var r := Served(db, t.scope, t.action, t.user, t.audit);
            && (MarkOf(r.0, key) == MarkOf(db, key)
                || (r.1.status.Applied? && FindRecord(r.0, key).Some? && WroteRow(t.action, key, RowOf(r.0, key))))
  {
    hide Slug, PlayerApplied, ConsentApplied, EntitlementApplied, NaturalApplied, WroteRow;
    if t.action.body.PlayerBody? {
      PlayerLeavesRecords(db, t.scope, t.action, t.user, t.audit);
    } else if t.action.body.ConsentBody? {
      ConsentLeavesRecords(db, t.scope, t.action, t.user, t.audit);
    } else if t.action.body.EntitlementBody? {
      EntitlementLeavesRecords(db, t.scope, t.action, t.user, t.audit);
    } else if IsNatural(t.action.body.EntityName()) {
      NaturalRow(db, t.scope, t.action, t.user, t.audit, key);
    }
  }

  lemma PlayerLeavesRecords(db: Db, s: Scope, a: Action, user: Id, audit: Audit)
    requires a.body.PlayerBody?
    ensures PlayerApplied(db, s, a, user, audit).0.records == db.records
  {
    hide Slug, Resolution.Resolved, WithSchool;
  }

  lemma ConsentLeavesRecords(db: Db, s: Scope, a: Action, user: Id, audit: Audit)
    requires a.body.ConsentBody?
    ensures ConsentApplied(db, s, a, user, audit).0.records == db.records
  {
  }

  lemma EntitlementLeavesRecords(db: Db, s: Scope, a: Action, user: Id, audit: Audit)
    requires a.body.EntitlementBody?
    ensures EntitlementApplied(db, s, a, user, audit).0.records == db.records
  {
    hide Engine.ResetIfNewPeriod, Engine.DeriveWindow;
  }

  lemma NaturalRow(db: Db, s: Scope, a: Action, user: Id, audit: Audit, key: string)
    requires Sound(db) && IsNatural(a.body.EntityName())
    ensures var r := NaturalApplied(db, s, a, user, audit);
            || MarkOf(r.0, key) == MarkOf(db, key)
            || (&& r.1.Returned? && r.1.result.status.Applied?
                && FindRecord(r.0, key).Some? && WroteRow(a, key, RowOf(r.0, key)))
  {
    hide Slug, NaturalKey, IdentityOf, PrefersIncoming, NaturalRefusal, Insertable, Editable, Sound, MarkOf, WroteRow;
    if NaturalRefusal(db, s, a).None? {
      NoRefusalMeans(db, s, a);
      if FindRecord(db, KeyFor(a)).None? {
        RowInserted(db, s, a, user, audit, key);
      } else {
        RowEdited(db, s, a, user, audit, key);
      }
    }
  }

  lemma RowInserted(db: Db, s: Scope, a: Action, user: Id, audit: Audit, key: string)
    requires IsNatural(a.body.EntityName()) && NaturalRefusal(db, s, a).None?
    requires a.body.player.Some? && PlayerExists(db, a.body.player.value) && FindRecord(db, KeyFor(a)).None?
    ensures var r := NaturalApplied(db, s, a, user, audit);
            || MarkOf(r.0, key) == MarkOf(db, key)
            || (&& r.1.Returned? && r.1.result.status.Applied?
                && FindRecord(r.0, key).Some? && WroteRow(a, key, RowOf(r.0, key)))
  {
    hide Slug, NaturalKey, IdentityOf, PrefersIncoming, NaturalRefusal, Insertable;
    var after := NaturalApplied(db, s, a, user, audit).0;
    if after.records != db.records {
      var row := NewRecord(db, a, user);
      assert after.records == db.records + [row];
      if KeyFor(a) == key {
        AppendedLast(db, after, row, key);
      } else {
        AppendedElsewhere(db, after, row, key);
      }
    }
  }

  lemma AppendedLast(d: Db, e: Db, row: Record, key: string)
    requires e.records == d.records + [row] && row.key == key && FindRecord(d, key).None?
    ensures FindRecord(e, key) == Some(|d.records|)
  {
    assert e.records[|d.records|].key == key;
  }

  lemma AppendedElsewhere(d: Db, e: Db, row: Record, key: string)
    requires e.records == d.records + [row] && row.key != key
    ensures FindRecord(e, key) == FindRecord(d, key)
  {
    assert forall i :: 0 <= i < |d.records| ==> e.records[i] == d.records[i];
  }

  lemma RowEdited(db: Db, s: Scope, a: Action, user: Id, audit: Audit, key: string)
    requires Sound(db) && IsNatural(a.body.EntityName()) && NaturalRefusal(db, s, a).None?
    requires a.body.player.Some? && PlayerExists(db, a.body.player.value) && FindRecord(db, KeyFor(a)).Some?
    ensures var r := NaturalApplied(db, s, a, user, audit);
            && FindRecord(r.0, key) == FindRecord(db, key)
            && (|| MarkOf(r.0, key) == MarkOf(db, key)
                || (&& r.1.Returned? && r.1.result.status.Applied?
                    && FindRecord(r.0, key).Some? && WroteRow(a, key, RowOf(r.0, key))))
  {
    hide Slug, NaturalKey, IdentityOf, PrefersIncoming, NaturalRefusal, Insertable, Sound, Editable;
    var after := NaturalApplied(db, s, a, user, audit).0;
    SameKeysSameIndex(db, after, key);
  }

  lemma SameKeysSameIndex(d: Db, e: Db, key: string)
    requires |d.records| == |e.records| && forall i :: 0 <= i < |d.records| ==> d.records[i].key == e.records[i].key
    ensures FindRecord(e, key) == FindRecord(d, key)
  {
  }

  /** After any run, of any actions from anywhere, the row of a key loses to no
      acknowledged action on that key, and it is the work of an applied one or the
      row that was there. */
  lemma WinnerIsStored(db: Db, key: string, steps: seq<Step>)
    requires Sound(db) && forall t :: t in steps ==> WellDerived(t.scope)
    ensures forall k :: 0 <= k < |steps| && Concerns(steps[k].action, key) && !StatusAt(db, steps, k).Rejected? ==>
              FindRecord(Run(db, steps), key).Some? && LosesTo(steps[k].action, RowOf(Run(db, steps), key))
    ensures MarkOf(Run(db, steps), key) == MarkOf(db, key)
            || exists k :: 0 <= k < |steps| && StatusAt(db, steps, k).Applied?
                 && FindRecord(Run(db, steps), key).Some? && WroteRow(steps[k].action, key, RowOf(Run(db, steps), key))
  {
    hide Slug, Served, Run, PrefersIncoming, NaturalKey, Sound, WroteRow, StatusAt;
    forall k | 0 <= k < |steps| && Concerns(steps[k].action, key) && !StatusAt(db, steps, k).Rejected?
      ensures FindRecord(Run(db, steps), key).Some? && LosesTo(steps[k].action, RowOf(Run(db, steps), key))
    {
      AcknowledgedLoses(db, key, steps, k);
    }
    AuthorOfRow(db, key, steps);
  }

  lemma AcknowledgedLoses(db: Db, key: string, steps: seq<Step>, k: nat)
    requires Sound(db) && k < |steps| && WellDerived(steps[k].scope)
    requires Concerns(steps[k].action, key) && !StatusAt(db, steps, k).Rejected?
    ensures FindRecord(Run(db, steps), key).Some? && LosesTo(steps[k].action, RowOf(Run(db, steps), key))
  {
    hide Slug, Served, Run, NaturalKey, IdentityOf, Sound, Extends, Durable, Acknowledged, Admitted, FindRecord,
         RowOf, LosesTo;
    var t, before := steps[k], Run(db, steps[..k]);
    RunExtends(db, steps[..k]);
    assert Acknowledged(before, t.scope, t.action, t.user, t.audit) by { NotRejected(db, steps, k); }
    AcknowledgedSettles(before, t.scope, t.action, t.user, t.audit);
    ActionStep(before, t.scope, t.action, t.user, t.audit);
    assert steps[..k + 1][..k] == steps[..k];
    RunUnfold(db, steps[..k + 1]);
    RunInTwo(db, steps[..k + 1], steps[k + 1..]);
    assert steps == steps[..k + 1] + steps[k + 1..];
    RunExtends(Run(db, steps[..k + 1]), steps[k + 1..]);
    DurableStays(Run(db, steps[..k + 1]), Run(db, steps), t.action);
    DurableLoses(Run(db, steps), t.action, key);
  }

  lemma NotRejected(db: Db, steps: seq<Step>, k: nat)
    requires k < |steps| && !StatusAt(db, steps, k).Rejected?
    ensures Acknowledged(Run(db, steps[..k]), steps[k].scope, steps[k].action, steps[k].user, steps[k].audit)
  {
    hide Served, Run;
  }

  lemma DurableLoses(db: Db, a: Action, key: string)
    requires Concerns(a, key) && Durable(db, a)
    ensures FindRecord(db, key).Some? && LosesTo(a, RowOf(db, key))
  {
    hide PrefersIncoming, NaturalKey, IdentityOf, Slug;
  }

  lemma {:induction false} AuthorOfRow(db: Db, key: string, steps: seq<Step>)
    requires Sound(db)
    ensures MarkOf(Run(db, steps), key) == MarkOf(db, key)
            || exists k :: 0 <= k < |steps| && StatusAt(db, steps, k).Applied?
                 && FindRecord(Run(db, steps), key).Some? && WroteRow(steps[k].action, key, RowOf(Run(db, steps), key))
    decreases |steps|
  {
    hide Slug, Served, Run, Sound, Extends, Wrote, Concerns, StatusAt;
    RunUnfold(db, steps);
    if steps != [] {
      var n := |steps| - 1;
      var t, before := steps[n], Run(db, steps[..n]);
      RunExtends(db, steps[..n]);
      AuthorOfRow(db, key, steps[..n]);
      OtherStepsLeaveTheRow(before, t, key);
      LastStatus(db, steps);
      if MarkOf(Run(db, steps), key) == MarkOf(before, key) && MarkOf(before, key) != MarkOf(db, key) {
        var k :| 0 <= k < n && StatusAt(db, steps[..n], k).Applied?
                 && WroteRow(steps[..n][k].action, key, RowOf(before, key));
        StatusOfPrefix(db, steps, n, k);
        assert WroteRow(steps[k].action, key, RowOf(Run(db, steps), key));
      }
    }
  }

  lemma LastStatus(db: Db, steps: seq<Step>)
    requires steps != []
    ensures var n := |steps| - 1;
            StatusAt(db, steps, n) ==
            Served(Run(db, steps[..n]), steps[n].scope, steps[n].action, steps[n].user, steps[n].audit).1.status
  {
  }

  lemma StatusOfPrefix(db: Db, steps: seq<Step>, n: nat, k: nat)
    requires k < n <= |steps|
    ensures StatusAt(db, steps[..n], k) == StatusAt(db, steps, k)
  {
    hide Served;
    assert steps[..n][..k] == steps[..k];
  }

  lemma RunUnfold(db: Db, steps: seq<Step>)
    ensures steps == [] ==> Run(db, steps) == db
    ensures steps != [] ==>
              var last := steps[|steps| - 1];
              Run(db, steps) == Served(Run(db, steps[..|steps| - 1]), last.scope, last.action, last.user, last.audit).0
  {
  }

  lemma {:induction false} RunInTwo(db: Db, first: seq<Step>, second: seq<Step>)
    ensures Run(db, first + second) == Run(Run(db, first), second)
    decreases |second|
  {
    hide Served;
    if second == [] {
      assert first + second == first;
    } else {
      var n := |second| - 1;
      RunInTwo(db, first, second[..n]);
      assert (first + second)[..|first + second| - 1] == first + second[..n];
    }
  }

  // ------------------------------------------------------------------
  // Arrivals on one key
  // ------------------------------------------------------------------

  /** An action on `key` that no refusal stops, with the audit log working. Whether
      its row would violate a constraint is left open. */
  ghost predicate Passing(db: Db, t: Step, key: string) {
    && IsNatural(t.action.body.EntityName())
    && WellDerived(t.scope) && t.audit.Works?
    && Forbidden(t.scope, t.action).None?
    && NaturalRefusal(db, t.scope, t.action).None?
    && Concerns(t.action, key)
  }

  ghost predicate AllPassing(db: Db, steps: seq<Step>, key: string) {
    forall t :: t in steps ==> Passing(db, t, key)
  }

  /** The row the action would insert meets every constraint. */
  predicate CanInsert(db: Db, a: Action) {
    && IsNatural(a.body.EntityName()) && a.body.player.Some? && PlayerExists(db, a.body.player.value)
    && Insertable(db, a.body, EffectiveSchool(a.body, db.players[a.body.player.value.id]))
  }

  function OfferOf(db: Db, t: Step): Offer {
    Offer(t.action, CanInsert(db, t.action))
  }

  function OffersOf(db: Db, steps: seq<Step>): (r: seq<Offer>)
    ensures |r| == |steps| && forall i :: 0 <= i < |r| ==> r[i] == OfferOf(db, steps[i])
  {
    seq(|steps|, i requires 0 <= i < |steps| => OfferOf(db, steps[i]))
  }

  /** What one arrival does to the row, and when it is rejected. */
  lemma ArrivalMeaning(db: Db, t: Step, key: string)
    requires Sound(db) && Passing(db, t, key)
    ensures var r := Served(db, t.scope, t.action, t.user, t.audit);
            var stored := MarkOf(db, key);
            && MarkOf(r.0, key) == Arrived(stored, OfferOf(db, t))
            && r.0.players == db.players && r.0.known == db.known && r.0.products == db.products
            && (r.1.status.Rejected? <==>
                  if stored.None? then !CanInsert(db, t.action)
                  else Over(t.action, stored.value) && !Editable(t.action.body))
  {
    hide Slug, NaturalKey, IdentityOf, PrefersIncoming, NaturalRefusal, Insertable, Editable, EditedValue,
         InsertedValue, Sound;
    NoRefusalMeans(db, t.scope, t.action);
    if FindRecord(db, key).Some? {
      var after := Served(db, t.scope, t.action, t.user, t.audit).0;
      SameKeysSameIndex(db, after, key);
    } else if CanInsert(db, t.action) {
      FirstInsert(db, t, key);
    }
  }

  lemma PassingStays(d: Db, e: Db, t: Step, key: string)
    requires Passing(d, t, key) && Extends(d, e) && e.players == d.players
    ensures Passing(e, t, key) && OfferOf(e, t) == OfferOf(d, t)
  {
    hide Slug, NaturalKey, IdentityOf, PrefersIncoming;
    RefusalStays(d, e, t.scope, t.action);
    NoRefusalMeans(d, t.scope, t.action);
  }

  /** The tables follow the arrivals. */
  lemma {:induction false} RunIsArrivals(db: Db, key: string, steps: seq<Step>)
    requires Sound(db) && AllPassing(db, steps, key)
    ensures AllNatural(OffersOf(db, steps))
    ensures var after := Run(db, steps);
            && MarkOf(after, key) == ArrivedAll(MarkOf(db, key), OffersOf(db, steps))
            && after.players == db.players && after.known == db.known && after.products == db.products
            && Extends(db, after) && Sound(after)
    decreases |steps|
  {
    hide Slug, Served, Run, Passing, Arrived, NaturalKey, Sound, Extends, OfferOf, MarkOf;
    RunUnfold(db, steps);
    RunExtends(db, steps);
    forall t | t in steps ensures Natural(OfferOf(db, t)) {
      PassingIsNatural(db, t, key);
    }
    if steps != [] {
      var n := |steps| - 1;
      var t, mid := steps[n], Run(db, steps[..n]);
      RunIsArrivals(db, key, steps[..n]);
      assert t in steps;
      PassingStays(db, mid, t, key);
      ArrivalMeaning(mid, t, key);
      assert OffersOf(db, steps)[..n] == OffersOf(db, steps[..n]);
    }
  }

  lemma PassingIsNatural(db: Db, t: Step, key: string)
    requires Passing(db, t, key)
    ensures Natural(OfferOf(db, t))
  {
  }

  function ActionsOf(steps: seq<Step>): set<Action> {
    set t | t in steps :: t.action
  }

  ghost predicate PairsNameActions(steps: seq<Step>) {
    forall t, u :: t in steps && u in steps && SamePair(t.action, u.action) ==> t.action == u.action
  }

  function OfferSet(db: Db, steps: seq<Step>): set<Offer> {
    set t | t in steps :: OfferOf(db, t)
  }

  lemma OffersCovered(db: Db, key: string, steps: seq<Step>, other: seq<Step>)
    requires AllPassing(db, steps, key) && PairsNameActions(steps) && ActionsOf(other) == ActionsOf(steps)
    ensures PairsDistinct(OfferSet(db, steps)) && Covers(OffersOf(db, other), OfferSet(db, steps))
  {
    hide Passing, CanInsert;
    forall t | t in steps ensures Natural(OfferOf(db, t)) {
      PassingIsNatural(db, t, key);
    }
    forall t | t in other ensures OfferOf(db, t) in OfferSet(db, steps) {
      assert t.action in ActionsOf(other);
      var u :| u in steps && u.action == t.action;
      assert OfferOf(db, u) == OfferOf(db, t);
    }
    forall o | o in OfferSet(db, steps) ensures o in OffersOf(db, other) {
      var t :| t in steps && o == OfferOf(db, t);
      assert t.action in ActionsOf(steps) && t.action in ActionsOf(other);
      var u :| u in other && u.action == t.action;
      var i :| 0 <= i < |other| && other[i] == u;
      assert OffersOf(db, other)[i] == o;
    }
  }

  /** Any sequence of offers is that of some steps. */
  lemma {:induction false} Realised(db: Db, steps: seq<Step>, offers: seq<Offer>) returns (r: seq<Step>)
    requires forall o :: o in offers ==> o in OfferSet(db, steps)
    ensures OffersOf(db, r) == offers && forall t :: t in r ==> t in steps
    decreases |offers|
  {
    hide OfferOf;
    if offers == [] {
      r := [];
    } else {
      var rest := Realised(db, steps, offers[1..]);
      assert offers[0] in offers;
      var t :| t in steps && OfferOf(db, t) == offers[0];
      r := [t] + rest;
      assert offers == [offers[0]] + offers[1..];
    }
  }

  lemma RealisedActions(db: Db, steps: seq<Step>, offers: seq<Offer>) returns (r: seq<Step>)
    requires Covers(offers, OfferSet(db, steps))
    ensures OffersOf(db, r) == offers && ActionsOf(r) == ActionsOf(steps) && forall t :: t in r ==> t in steps
  {
    hide CanInsert;
    r := Realised(db, steps, offers);
    forall a | a in ActionsOf(steps) ensures a in ActionsOf(r) {
      var t :| t in steps && t.action == a;
      assert OfferOf(db, t) in OfferSet(db, steps);
      var i :| 0 <= i < |offers| && offers[i] == OfferOf(db, t);
      assert OffersOf(db, r)[i] == OfferOf(db, r[i]);
      assert r[i] in r && r[i].action == a;
    }
  }

  /** Every sequence of these actions leaves the key the same winner and the same
      columns. */
  ghost predicate OrdersAgree(db: Db, key: string, steps: seq<Step>) {
    forall other :: AllPassing(db, other, key) && ActionsOf(other) == ActionsOf(steps) ==>
      MarkOf(Run(db, other), key) == MarkOf(Run(db, steps), key)
  }

  lemma OrdersAgreeAsOffers(db: Db, key: string, steps: seq<Step>)
    requires Sound(db) && AllPassing(db, steps, key) && PairsNameActions(steps)
    ensures PairsDistinct(OfferSet(db, steps))
    ensures OrdersAgree(db, key, steps) <==> AllOrdersAgree(MarkOf(db, key), OfferSet(db, steps))
  {
    hide Run, Passing, Sound, Extends, MarkOf, ArrivedAll, OfferOf, OfferSet, ActionsOf, Covers;
    var m, offers := MarkOf(db, key), OfferSet(db, steps);
    OffersCovered(db, key, steps, steps);
    RunIsArrivals(db, key, steps);
    if AllOrdersAgree(m, offers) {
      forall other | AllPassing(db, other, key) && ActionsOf(other) == ActionsOf(steps)
        ensures MarkOf(Run(db, other), key) == MarkOf(Run(db, steps), key)
      {
        OffersCovered(db, key, steps, other);
        RunIsArrivals(db, key, other);
      }
    }
    if OrdersAgree(db, key, steps) {
      forall s | Covers(s, offers) && AllNatural(s) ensures ArrivedAll(m, s) == MarkOf(Run(db, steps), key) {
        var r := RealisedActions(db, steps, s);
        RunIsArrivals(db, key, r);
      }
    }
  }

  /** On a key without a row the order, and any repetition, make no difference if
      and only if the strongest action that can make the row may also edit it (or
      is the only one that can make it), beats every action that may edit it, and,
      if it omits a session's reference, cannot find another action's there. */
  lemma OrdersAgreeIff(db: Db, key: string, steps: seq<Step>)
    requires Sound(db) && FindRecord(db, key).None? && AllPassing(db, steps, key) && PairsNameActions(steps)
    ensures OrdersAgree(db, key, steps) <==> Agreeable(OfferSet(db, steps))
  {
    hide Run, Passing, Sound, OfferSet, Agreeable, OrdersAgree, AllOrdersAgree;
    OrdersAgreeAsOffers(db, key, steps);
    FreshOrdersAgreeIff(OfferSet(db, steps));
  }

  /** On a key with a row they make none if and only if the strongest action that
      may edit it supplies the reference, or no other one changes it. */
  lemma OrdersAgreeOnRowIff(db: Db, key: string, steps: seq<Step>)
    requires Sound(db) && FindRecord(db, key).Some? && AllPassing(db, steps, key) && PairsNameActions(steps)
    ensures OrdersAgree(db, key, steps) <==> AgreeableOn(MarkOf(db, key).value, OfferSet(db, steps))
  {
    hide Run, Passing, Sound, OfferSet, AgreeableOn, OrdersAgree, AllOrdersAgree;
    OrdersAgreeAsOffers(db, key, steps);
    StoredOrdersAgreeIff(MarkOf(db, key).value, OfferSet(db, steps));
  }

  /** Two sequences of the same agreeable actions store the same row columns, those
      the strongest of them would insert by itself. */
  lemma OrderIndependent(db: Db, key: string, first: seq<Step>, second: seq<Step>)
    requires Sound(db) && FindRecord(db, key).None?
    requires AllPassing(db, first, key) && AllPassing(db, second, key)
    requires ActionsOf(first) == ActionsOf(second) && PairsNameActions(first) && Agreeable(OfferSet(db, first))
    ensures MarkOf(Run(db, first), key) == MarkOf(Run(db, second), key)
    ensures forall w :: Strongest(w, OfferSet(db, first)) ==>
              Natural(w) && MarkOf(Run(db, first), key) == Some(Inserted(w.action))
    ensures (forall t :: t in first ==> !CanInsert(db, t.action)) <==> MarkOf(Run(db, first), key).None?
  {
    hide Run, Passing, Sound, Extends, Harmonious, MarkOf, ArrivedAll, InsertedValue, CanInsert;
    RunIsArrivals(db, key, first);
    RunIsArrivals(db, key, second);
    OffersCovered(db, key, first, first);
    OffersCovered(db, key, first, second);
    FreshOrdersAgreeIff(OfferSet(db, first));
    assert MarkOf(db, key).None? by { NoMark(db, key); }
    assert AllOrdersAgree(None, OfferSet(db, first));
    forall w | Strongest(w, OfferSet(db, first))
      ensures Natural(w) && MarkOf(Run(db, first), key) == Some(Inserted(w.action))
    {
      HarmonyHolds(w, OfferSet(db, first), OffersOf(db, first));
    }
    NothingInserted(OffersOf(db, first));
    assert forall i :: 0 <= i < |first| ==> OffersOf(db, first)[i].insertable == CanInsert(db, first[i].action);
  }

  lemma NoMark(db: Db, key: string)
    ensures MarkOf(db, key).None? <==> FindRecord(db, key).None?
  {
  }

  /** The columns no edit touches are those of the first action that could make
      the row, whoever wins. */
  lemma FirstInsertFixes(db: Db, key: string, steps: seq<Step>, k: nat)
    requires Sound(db) && FindRecord(db, key).None? && AllPassing(db, steps, key)
    requires k < |steps| && CanInsert(db, steps[k].action) && forall j :: 0 <= j < k ==> !CanInsert(db, steps[j].action)
    ensures FindRecord(Run(db, steps), key).Some?
    ensures RecordKept(NewRecord(db, steps[k].action, steps[k].user), RowOf(Run(db, steps), key))
  {
    hide Slug, Served, Run, PrefersIncoming, NaturalKey, IdentityOf, Sound, Extends, Passing, CanInsert, NewRecord;
    FirstInsertMakes(db, key, steps[..k], steps[k]);
    assert steps[..k + 1] == steps[..k] + [steps[k]];
    RunExtends(db, steps[..k + 1]);
    RunInTwo(db, steps[..k + 1], steps[k + 1..]);
    assert steps == steps[..k + 1] + steps[k + 1..];
    var after := Run(db, steps[..k + 1]);
    RunExtends(after, steps[k + 1..]);
    RecordIndexStays(after, Run(db, steps), key);
    RowKept(after, Run(db, steps), key);
  }

  lemma FirstInsertMakes(db: Db, key: string, idle: seq<Step>, t: Step)
    requires Sound(db) && FindRecord(db, key).None? && AllPassing(db, idle, key) && Passing(db, t, key)
    requires CanInsert(db, t.action) && forall j :: 0 <= j < |idle| ==> !CanInsert(db, idle[j].action)
    ensures var after := Run(db, idle + [t]);
            && FindRecord(after, key).Some? && RowOf(after, key) == NewRecord(db, t.action, t.user)
  {
    hide Slug, Served, Run, PrefersIncoming, NaturalKey, IdentityOf, Sound, Extends, Passing, ArrivedAll, Insertable,
         NewRecord;
    var before := Run(db, idle);
    RunIsArrivals(db, key, idle);
    NoMark(db, key);
    NoMark(before, key);
    NothingInserted(OffersOf(db, idle));
    PassingStays(db, before, t, key);
    FirstInsert(before, t, key);
    assert (idle + [t])[..|idle|] == idle;
    RunUnfold(db, idle + [t]);
    SamePlayersSameRow(db, before, t, key);
  }

  lemma SamePlayersSameRow(d: Db, e: Db, t: Step, key: string)
    requires Passing(d, t, key) && d.players == e.players
    ensures t.action.body.player.Some? && PlayerExists(d, t.action.body.player.value)
    ensures NewRecord(d, t.action, t.user) == NewRecord(e, t.action, t.user)
  {
    hide Slug, NaturalKey, IdentityOf;
    NoRefusalMeans(d, t.scope, t.action);
  }

  lemma RowKept(d: Db, e: Db, key: string)
    requires Extends(d, e) && FindRecord(d, key).Some? && FindRecord(e, key) == FindRecord(d, key)
    ensures RecordKept(RowOf(d, key), RowOf(e, key))
  {
    hide RecordKept;
  }

  lemma FirstInsert(db: Db, t: Step, key: string)
    requires Passing(db, t, key) && FindRecord(db, key).None? && CanInsert(db, t.action)
    ensures var r := Served(db, t.scope, t.action, t.user, t.audit);
            && FindRecord(r.0, key).Some? && RowOf(r.0, key) == NewRecord(db, t.action, t.user)
            && r.0.players == db.players && r.0.known == db.known && r.0.products == db.products && r.1.status.Applied?
  {
    hide Slug, NaturalKey, IdentityOf, PrefersIncoming, NaturalRefusal, Insertable;
    NoRefusalMeans(db, t.scope, t.action);
    AppendedLast(db, Served(db, t.scope, t.action, t.user, t.audit).0, NewRecord(db, t.action, t.user), key);
  }

  // ------------------------------------------------------------------
  // Two actions
  // ------------------------------------------------------------------

  /** The exact condition for two arrivals on a fresh key, `u` preferred. */
  lemma TwoOrdersAgreeIff(db: Db, key: string, t: Step, u: Step)
    requires Sound(db) && FindRecord(db, key).None? && Passing(db, t, key) && Passing(db, u, key)
    requires Beats(u.action, t.action)
    ensures MarkOf(Run(db, [t, u]), key) == MarkOf(Run(db, [u, t]), key) <==>
            && (CanInsert(db, t.action) && CanInsert(db, u.action) ==>
                  Editable(u.action.body) && !(Omits(u.action.body) && Carries(t.action.body)))
            && (CanInsert(db, t.action) && !CanInsert(db, u.action) ==> !Editable(u.action.body))
  {
    hide Slug, Served, Run, PrefersIncoming, NaturalKey, Sound, Extends, Passing, CanInsert;
    TwoArrive(db, key, t, u);
    TwoArrive(db, key, u, t);
    PrefersAsymmetric(Some(u.action.at.ts), Some(u.action.clientId), Some(t.action.at.ts), Some(t.action.clientId));
  }

  lemma TwoArrive(db: Db, key: string, t: Step, u: Step)
    requires Sound(db) && FindRecord(db, key).None? && Passing(db, t, key) && Passing(db, u, key)
    ensures Natural(OfferOf(db, t)) && Natural(OfferOf(db, u))
    ensures MarkOf(Run(db, [t, u]), key) == Arrived(Arrived(None, OfferOf(db, t)), OfferOf(db, u))
  {
    hide Run, Sound, Extends, Passing, Arrived, CanInsert;
    RunIsArrivals(db, key, [t, u]);
    PassingIsNatural(db, t, key);
    PassingIsNatural(db, u, key);
    assert OffersOf(db, [t, u]) == [OfferOf(db, t), OfferOf(db, u)];
    TwoArrived(None, OfferOf(db, t), OfferOf(db, u));
  }

  /** When the winner `u` omits the reference its rival `t` carried, the reference
      that stays is `t`'s if `t` came first and none if it came second. */
  lemma OmittedReferenceDiverges(db: Db, key: string, t: Step, u: Step)
    requires Sound(db) && FindRecord(db, key).None? && Passing(db, t, key) && Passing(db, u, key)
    requires CanInsert(db, t.action) && CanInsert(db, u.action) && Beats(u.action, t.action)
    requires Carries(t.action.body) && Omits(u.action.body)
    ensures var x, y := MarkOf(Run(db, [t, u]), key), MarkOf(Run(db, [u, t]), key);
            && x.Some? && x.value.value == SessionValue(u.action.body.duration, Some(t.action.body.reference.value))
            && y.Some? && y.value.value == SessionValue(u.action.body.duration, None)
  {
    hide Slug, Served, Run, PrefersIncoming, NaturalKey, Sound, Extends, Passing, CanInsert;
    TwoArrive(db, key, t, u);
    TwoArrive(db, key, u, t);
    PrefersAsymmetric(Some(u.action.at.ts), Some(u.action.clientId), Some(t.action.at.ts), Some(t.action.clientId));
  }

  // ------------------------------------------------------------------
  // Inputs on which the order decides who wins
  // ------------------------------------------------------------------

  /** One player and nothing else; no school is known. */
  function OnePlayer(): Db {
    Db([Player("ann|lee|", "Ann", Some("Lee"), None, None, false, None, "here")], [], [], [], [], map[], {})
  }

  function ByFounder(clientId: Id, ts: int, body: Body): Step {
    Step(Scope(Founder, None, None), Action(clientId, Moment(ts, 7), body), "founder", Works)
  }

  /** The attendance sheet of one day, with and without the `present` column. */
  function Marked(): Step {
    ByFounder("a", 1, AttendanceBody(Some(Server(0)), None, Some("2024-05-01"), Some(false), None))
  }

  function Unmarked(): Step {
    ByFounder("b", 2, AttendanceBody(Some(Server(0)), None, Some("2024-05-01"), None, None))
  }

  lemma OnePlayerIsSound()
    ensures Sound(OnePlayer())
  {
  }

  /** The later action omits `present`: arriving second it is rejected and the
      earlier one stays, arriving first it is stored and stays. */
  lemma OmittedPresentDiverges()
    ensures var db, key := OnePlayer(), KeyFor(Marked().action);
            && Sound(db) && Passing(db, Marked(), key) && Passing(db, Unmarked(), key)
            && MarkOf(Run(db, [Marked(), Unmarked()]), key) == Some(Mark(Some(1), Some("a"), AttendanceValue(false)))
            && StatusAt(db, [Marked(), Unmarked()], 1).Rejected?
            && MarkOf(Run(db, [Unmarked(), Marked()]), key) == Some(Mark(Some(2), Some("b"), AttendanceValue(true)))
  {
    hide Slug, NaturalKey, Served, Run, Sound, Extends;
    OnePlayerIsSound();
    var db, t, u := OnePlayer(), Marked(), Unmarked();
    var key := KeyFor(t.action);
    assert KeyFor(u.action) == key;
    TwoArrive(db, key, t, u);
    TwoArrive(db, key, u, t);
    RunIsArrivals(db, key, [t]);
    RunUnfold(db, [t, u]);
    assert [t, u][..1] == [t] && OffersOf(db, [t]) == [OfferOf(db, t)];
    OneArrived(None, OfferOf(db, t));
    PassingStays(db, Run(db, [t]), u, key);
    ArrivalMeaning(Run(db, [t]), u, key);
  }

  /** A session, and a later version of it that names a school nobody knows. */
  function Placed(): Step {
    ByFounder("a", 1, SessionBody(Some(Server(0)), Some("lesson"), Some("9"), Some("10"), Some(60), Null, None))
  }

  function Misplaced(): Step {
    ByFounder("b", 2,
              SessionBody(Some(Server(0)), Some("lesson"), Some("9"), Some("10"), Some(45), Null, Some("nowhere")))
  }

  /** An edit never writes the school, so the unknown one is only fatal to an
      insert: arriving first the later action is rejected, arriving second it wins. */
  lemma UnknownSchoolDiverges()
    ensures var db, key := OnePlayer(), KeyFor(Placed().action);
            && Sound(db) && Passing(db, Placed(), key) && Passing(db, Misplaced(), key)
            && MarkOf(Run(db, [Placed(), Misplaced()]), key)
               == Some(Mark(Some(2), Some("b"), SessionValue(Some(45), None)))
            && MarkOf(Run(db, [Misplaced(), Placed()]), key)
               == Some(Mark(Some(1), Some("a"), SessionValue(Some(60), None)))
  {
    hide Slug, NaturalKey, Served, Run, Sound, Extends;
    OnePlayerIsSound();
    var db, t, u := OnePlayer(), Placed(), Misplaced();
    var key := KeyFor(t.action);
    assert KeyFor(u.action) == key;
    TwoArrive(db, key, t, u);
    TwoArrive(db, key, u, t);
  }
}
