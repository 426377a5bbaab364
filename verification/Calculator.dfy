/** The offline balance: what a device shows and permits before the server knows,
    and why the server then honours every draw the device permitted. */
module Calculator {
  import opened Basics
  import opened Schema
  import opened Rbac
  import opened LocalStore
  import opened Service
  import Dedup
  import Engine
  import Idempotence
  import Mapping
  import Replay
  import Resolution

  // ------------------------------------------------------------------
  // The calculator
  // ------------------------------------------------------------------

  predicate IsPendingDrawFor(st: Stored, id: nat) {
    && st.status.Unsynced? && st.action.body.EntitlementBody?
    && st.action.body.entitlement == Some(Server(id)) && st.action.body.amount.Some?
  }

  function Amount(st: Stored, id: nat): int {
    if IsPendingDrawFor(st, id) then st.action.body.amount.value else 0
  }

  function PendingSum(rows: seq<Stored>, id: nat): int {
    if rows == [] then 0 else PendingSum(rows[..|rows| - 1], id) + Amount(rows[|rows| - 1], id)
  }

  method SumPendingDraws(rows: seq<Stored>, id: nat) returns (total: int)
    ensures total == PendingSum(rows, id)
  {
    total := 0;
    for i := 0 to |rows|
      invariant total == PendingSum(rows[..i], id)
    {
      if IsPendingDrawFor(rows[i], id) {
        total := total + rows[i].action.body.amount.value;
      }
      assert rows[..i + 1][..i] == rows[..i];
    }
    assert rows[..|rows|] == rows;
  }

  datatype Remaining = Unlimited | Minutes(left: int)

  function OptimisticRemaining(cached: Option<int>, pending: int): Remaining {
    if cached.None? then Unlimited else Minutes(cached.value - pending)
  }

  predicate CanDraw(r: Remaining, amount: int) {
    if r.Unlimited? then true else if r.left < 0 then false else 0 < amount <= r.left
  }

  /** An unlimited entitlement permits any draw; a limited one exactly the positive
      draws that fit, with those still pending, in the cached balance, the whole of
      it included. */
  lemma CanDrawIff(cached: Option<int>, pending: int, amount: int)
    ensures CanDraw(OptimisticRemaining(cached, pending), amount) <==>
              cached.None? || (amount > 0 && pending + amount <= cached.value)
  {
  }

  /** A queued row weighs its amount exactly while it is an unsynced draw of this
      very entitlement. */
  lemma PendingSumMeaning(rows: seq<Stored>, st: Stored, id: nat)
    ensures PendingSum([], id) == 0
    ensures var b := st.action.body;
            PendingSum(rows + [st], id) ==
            PendingSum(rows, id)
            + if st.status.Unsynced? && b.EntitlementBody? && b.entitlement == Some(Server(id)) && b.amount.Some?
              then b.amount.value else 0
  {
    assert (rows + [st])[..|rows|] == rows;
  }

  // ------------------------------------------------------------------
  // Captures
  // ------------------------------------------------------------------

  /** Every draw in the queue was permitted when it was captured, against the
      cached balance less the draws captured before it. */
  ghost predicate CapturedOffline(rows: seq<Stored>, id: nat, cached: Option<int>) {
    forall i :: 0 <= i < |rows| && IsPendingDrawFor(rows[i], id) ==>
      CanDraw(OptimisticRemaining(cached, PendingSum(rows[..i], id)), Amount(rows[i], id))
  }

  ghost predicate DistinctIds(rows: seq<Stored>) {
    forall i, j :: 0 <= i < j < |rows| ==> rows[i].action.clientId != rows[j].action.clientId
  }

  /** What the draws outside `done` still ask for. */
  ghost function Owed(rows: seq<Stored>, id: nat, done: set<nat>): int {
    if rows == [] then 0
    else
      var n := |rows| - 1;
      Owed(rows[..n], id, done) + (if n in done then 0 else Amount(rows[n], id))
  }

  lemma {:induction false} NothingDelivered(rows: seq<Stored>, id: nat)
    ensures Owed(rows, id, {}) == PendingSum(rows, id)
  {
    if rows != [] {
      NothingDelivered(rows[..|rows| - 1], id);
    }
  }

  lemma {:induction false} OwedAfter(rows: seq<Stored>, id: nat, done: set<nat>, i: nat)
    requires i !in done
    ensures Owed(rows, id, done + {i}) == Owed(rows, id, done) - if i < |rows| then Amount(rows[i], id) else 0
  {
    if rows != [] {
      OwedAfter(rows[..|rows| - 1], id, done, i);
    }
  }

  ghost predicate PositiveDraws(rows: seq<Stored>, id: nat) {
    forall i :: 0 <= i < |rows| && IsPendingDrawFor(rows[i], id) ==> Amount(rows[i], id) > 0
  }

  lemma {:induction false} OwedBounds(rows: seq<Stored>, id: nat, done: set<nat>)
    requires PositiveDraws(rows, id)
    ensures 0 <= Owed(rows, id, done) <= PendingSum(rows, id)
    ensures forall i :: 0 <= i < |rows| && i !in done ==> Owed(rows, id, done) >= Amount(rows[i], id)
  {
    if rows != [] {
      var front := rows[..|rows| - 1];
      assert forall i :: 0 <= i < |front| ==> front[i] == rows[i];
      OwedBounds(front, id, done);
    }
  }

  /** Draws permitted against a limited balance are positive, and together they
      never ask for more than that balance. */
  lemma {:induction false} PermittedFit(rows: seq<Stored>, id: nat, cached: int)
    requires CapturedOffline(rows, id, Some(cached))
    ensures PositiveDraws(rows, id)
    ensures PendingSum(rows, id) == 0 || 0 < PendingSum(rows, id) <= cached
  {
    if rows != [] {
      var n := |rows| - 1;
      var front := rows[..n];
      assert forall i :: 0 <= i < n ==> front[..i] == rows[..i] && front[i] == rows[i];
      PermittedFit(front, id, cached);
      assert PendingSum(rows, id) == PendingSum(front, id) + Amount(rows[n], id);
    }
  }

  // ------------------------------------------------------------------
  // Deliveries
  // ------------------------------------------------------------------

  /** What reaches the server: a draw of this queue, for the first time or again
      after a lost answer, or anybody's action about something else. */
  datatype Arrival = Own(i: nat) | Other(step: Idempotence.Step)

  ghost function Served1(db: Db, s: Scope, user: Id, rows: seq<Stored>, x: Arrival): (Db, ActionResult)
    requires x.Own? ==> x.i < |rows|
  {
    match x
    case Own(i) => Service.Served(db, s, rows[i].action, user, Works)
    case Other(step) => Service.Served(db, step.scope, step.action, step.user, step.audit)
  }

  /** This device is the only drawer, and its client ids are its own. */
  ghost predicate Foreign(rows: seq<Stored>, id: nat, a: Action) {
    && !(IsDraw(a.body) && a.body.entitlement == Some(Server(id)))
    && forall i :: 0 <= i < |rows| ==> rows[i].action.clientId != a.clientId
  }

  ghost predicate Arrivals(rows: seq<Stored>, id: nat, xs: seq<Arrival>) {
    forall k :: 0 <= k < |xs| ==>
      match xs[k]
      case Own(i) => i < |rows| && IsPendingDrawFor(rows[i], id)
      case Other(step) => Foreign(rows, id, step.action)
  }

  ghost function After(db: Db, s: Scope, user: Id, rows: seq<Stored>, id: nat, xs: seq<Arrival>): Db
    requires Arrivals(rows, id, xs)
    decreases |xs|
  {
    if xs == [] then db
    else Served1(After(db, s, user, rows, id, xs[..|xs| - 1]), s, user, rows, xs[|xs| - 1]).0
  }

  ghost function Delivered(xs: seq<Arrival>): set<nat> {
    set k | 0 <= k < |xs| && xs[k].Own? :: xs[k].i
  }

  // ------------------------------------------------------------------
  // Other people's actions
  // ------------------------------------------------------------------

  /** At most one entry, under the action's own client id or none. */
  ghost predicate OwnEntry(db: Db, after: Db, a: Action) {
    || after.log == db.log
    || (&& |after.log| == |db.log| + 1 && db.log <= after.log
        && !after.log[|db.log|].legacyMissing
        && (after.log[|db.log|].clientId.Some? ==> after.log[|db.log|].clientId == Some(a.clientId)))
  }

  ghost predicate Apart(db: Db, after: Db, a: Action, id: nat) {
    && OwnEntry(db, after, a)
    && id < |db.entitlements| && id < |after.entitlements| && after.entitlements[id] == db.entitlements[id]
  }

  lemma AuditedApart(db: Db, changed: Db, entry: LogEntry, audit: Audit, answer: ActionResult, a: Action, id: nat)
    requires id < |db.entitlements| && changed.log == db.log && changed.entitlements == db.entitlements
    requires entry.clientId.None? && !entry.legacyMissing
    ensures Apart(db, Audited(db, changed, entry, audit, answer).0, a, id)
  {
  }

  lemma PlayerApart(db: Db, s: Scope, a: Action, user: Id, audit: Audit, id: nat)
    requires id < |db.entitlements| && a.body.PlayerBody?
    ensures Apart(db, PlayerApplied(db, s, a, user, audit).0, a, id)
  {
    hide Slug, Dedup.KeyOf, Resolution.Resolved, WithSchool, Audited;
    var (location, school) := Stamp(s, a.body.location, a.body.school);
    if location.Some? && Resolution.Resolved(db.players, [PlayerCandidate(a)], location.value, db.known).Returned? {
      var run := Resolution.Resolved(db.players, [PlayerCandidate(a)], location.value, db.known).result;
      if a.clientId in run.1.resolved && run.1.resolved[a.clientId] < |run.0| {
        var p := run.1.resolved[a.clientId];
        var isNew := p in run.1.created;
        AuditedApart(db, db.(players := WithSchool(run.0, p, school)),
                     Entry(PlayerEntity, p, if isNew then Insert else Skip, location.value, user, a), audit,
                     Answer(a, if isNew then Applied else Skipped, Some(p)), a, id);
      }
    }
  }

  lemma DrawApart(db: Db, other: nat, amount: int, user: Id, a: Action, audit: Audit, id: nat)
    requires id < |db.entitlements| && other != id
    ensures Apart(db, Engine.Drawn(db, other, amount, user, a.at, Some(a.clientId), audit).0, a, id)
  {
    hide Engine.ResetIfNewPeriod;
  }

  lemma EntitlementApart(db: Db, s: Scope, a: Action, user: Id, audit: Audit, id: nat)
    requires id < |db.entitlements| && a.body.EntitlementBody?
    requires !(IsDraw(a.body) && a.body.entitlement == Some(Server(id)))
    ensures Apart(db, EntitlementApplied(db, s, a, user, audit).0, a, id)
  {
    hide Engine.DeriveWindow;
    if IsDraw(a.body) && EntitlementExists(db, a.body.entitlement.value) {
      hide Engine.Drawn;
      DrawApart(db, a.body.entitlement.value.id, a.body.amount.value, user, a, audit, id);
    }
  }

  lemma NaturalApart(db: Db, s: Scope, a: Action, user: Id, audit: Audit, id: nat)
    requires id < |db.entitlements| && Mapping.IsNatural(a.body.EntityName())
    ensures Apart(db, NaturalApplied(db, s, a, user, audit).0, a, id)
  {
    hide Slug, Mapping.NaturalKey, Mapping.IdentityOf, PrefersIncoming, NaturalRefusal, Insertable, Editable,
         NewRecord, EditedRecord;
    if NaturalRefusal(db, s, a).None? {
      Replay.NoRefusalMeans(db, s, a);
    }
  }

  /** An action about anything else leaves the entitlement alone, and at most logs
      under its own client id. */
  lemma ServedApart(db: Db, s: Scope, a: Action, user: Id, audit: Audit, id: nat)
    requires id < |db.entitlements| && !(IsDraw(a.body) && a.body.entitlement == Some(Server(id)))
    ensures Apart(db, Service.Served(db, s, a, user, audit).0, a, id)
  {
    hide PlayerApplied, EntitlementApplied, NaturalApplied;
    if a.body.PlayerBody? {
      PlayerApart(db, s, a, user, audit, id);
    } else if a.body.EntitlementBody? {
      EntitlementApart(db, s, a, user, audit, id);
    } else if !a.body.ConsentBody? && !a.body.UnknownBody? {
      NaturalApart(db, s, a, user, audit, id);
    }
  }

  lemma DrawLogs(db: Db, id: nat, amount: int, user: Id, a: Action, audit: Audit)
    ensures OwnEntry(db, Engine.Drawn(db, id, amount, user, a.at, Some(a.clientId), audit).0, a)
  {
    hide Engine.ResetIfNewPeriod;
  }

  lemma OtherReceipts(db: Db, after: Db, a: Action, clientId: Id)
    requires OwnEntry(db, after, a) && clientId != a.clientId
    ensures HasReceipt(after.log, clientId) <==> HasReceipt(db.log, clientId)
  {
    if HasReceipt(db.log, clientId) {
      var i :| 0 <= i < |db.log| && db.log[i].clientId == Some(clientId);
      assert after.log[i] == db.log[i];
    }
  }

  // ------------------------------------------------------------------
  // The promise
  // ------------------------------------------------------------------

  /** The cached balance does not exceed what a reset would restore. */
  ghost predicate AllowanceCovers(rules: Rules, cached: Option<int>) {
    Engine.IsRecurring(rules) && Engine.AllowanceUnits(rules).Some? ==>
      cached.Some? && cached.value <= Engine.AllowanceUnits(rules).value
  }

  predicate Affords(units: Option<int>, owed: int) {
    owed == 0 || units.None? || owed <= units.value
  }

  /** The row is active, affords the draws still to come, and a reset would too. */
  ghost predicate RowCovers(db: Db, id: nat, owed: int, cached: Option<int>) {
    && id < |db.entitlements| && db.entitlements[id].status.Active?
    && Affords(db.entitlements[id].units, owed)
    && (cached.None? ==> db.entitlements[id].units.None?)
    && AllowanceCovers(Engine.RulesOf(db, db.entitlements[id].product), cached)
  }

  ghost predicate ReceiptsMatch(db: Db, rows: seq<Stored>, id: nat, done: set<nat>) {
    forall i :: 0 <= i < |rows| && IsPendingDrawFor(rows[i], id) ==>
      (HasReceipt(db.log, rows[i].action.clientId) <==> i in done)
  }

  ghost predicate AllAdmitted(db: Db, s: Scope, rows: seq<Stored>, id: nat) {
    forall i :: 0 <= i < |rows| && IsPendingDrawFor(rows[i], id) ==> Idempotence.Admitted(db, s, rows[i].action)
  }

  ghost predicate Covered(db: Db, s: Scope, rows: seq<Stored>, id: nat, done: set<nat>, cached: Option<int>) {
    && Replay.Sound(db) && AllAdmitted(db, s, rows, id)
    && RowCovers(db, id, Owed(rows, id, done), cached) && ReceiptsMatch(db, rows, id, done)
  }

  /** The server honours one draw out of what is owed, by taking it or by
      recognising it, and still covers the rest. */
  lemma DrawHonoured(db: Db, id: nat, amount: int, user: Id, at: Moment, clientId: Id, owed: int, cached: Option<int>)
    requires RowCovers(db, id, owed, cached) && amount > 0
    requires !HasReceipt(db.log, clientId) ==> amount <= owed && (cached.Some? ==> owed <= cached.value)
    ensures var drawn := Engine.Drawn(db, id, amount, user, at, Some(clientId), Works);
            && drawn.1.Returned? && (drawn.1.result.status.DrawApplied? || drawn.1.result.status.DrawSkipped?)
            && HasReceipt(drawn.0.log, clientId)
            && RowCovers(drawn.0, id, if HasReceipt(db.log, clientId) then owed else owed - amount, cached)
  {
    hide Engine.PeriodOf, Engine.IsRecurring, Engine.AllowanceUnits;
    var drawn := Engine.Drawn(db, id, amount, user, at, Some(clientId), Works);
    Idempotence.DrawSettles(db, id, amount, user, at, clientId, Works);
  }

  lemma AdmittedStay(db: Db, after: Db, s: Scope, rows: seq<Stored>, id: nat)
    requires WellDerived(s) && AllAdmitted(db, s, rows, id) && Replay.Extends(db, after)
    ensures AllAdmitted(after, s, rows, id)
  {
    hide Idempotence.Admitted, Replay.Extends, IsPendingDrawFor;
    forall i | 0 <= i < |rows| && IsPendingDrawFor(rows[i], id) ensures Idempotence.Admitted(after, s, rows[i].action) {
      Idempotence.AdmittedStays(db, after, s, rows[i].action);
    }
  }

  /** An admitted draw is the engine's draw. */
  lemma DrawServed(db: Db, s: Scope, st: Stored, id: nat, user: Id)
    requires IsPendingDrawFor(st, id) && Idempotence.Admitted(db, s, st.action)
    requires Engine.Drawn(db, id, Amount(st, id), user, st.action.at, Some(st.action.clientId), Works).1.Returned?
    ensures Amount(st, id) > 0
    ensures var drawn := Engine.Drawn(db, id, Amount(st, id), user, st.action.at, Some(st.action.clientId), Works);
            Service.Served(db, s, st.action, user, Works) == (drawn.0, DrawAnswer(st.action, id, drawn.1.result.status))
  {
    hide Engine.Drawn;
  }

  lemma OwnArrival(db: Db, s: Scope, user: Id, rows: seq<Stored>, id: nat, done: set<nat>, cached: Option<int>, i: nat)
    requires WellDerived(s) && Covered(db, s, rows, id, done, cached) && PositiveDraws(rows, id) && DistinctIds(rows)
    requires cached.Some? ==> PendingSum(rows, id) == 0 || PendingSum(rows, id) <= cached.value
    requires i < |rows| && IsPendingDrawFor(rows[i], id)
    ensures var r := Service.Served(db, s, rows[i].action, user, Works);
            !r.1.status.Rejected? && Covered(r.0, s, rows, id, done + {i}, cached)
  {
    hide Engine.Drawn, Service.Served, RowCovers, Replay.Sound, Replay.Extends, Idempotence.Admitted, HasReceipt,
         Owed, PendingSum, OwnEntry;
    var a, owed := rows[i].action, Owed(rows, id, done);
    OwedBounds(rows, id, done);
    DrawHonoured(db, id, Amount(rows[i], id), user, a.at, a.clientId, owed, cached);
    DrawServed(db, s, rows[i], id, user);
    DrawLogs(db, id, Amount(rows[i], id), user, a, Works);
    Replay.ActionStep(db, s, a, user, Works);
    var after := Service.Served(db, s, a, user, Works).0;
    AdmittedStay(db, after, s, rows, id);
    ReceiptsStep(db, after, rows, id, done, i);
    if i in done {
      assert done + {i} == done;
    } else {
      OwedAfter(rows, id, done, i);
    }
  }

  lemma ReceiptsStep(db: Db, after: Db, rows: seq<Stored>, id: nat, done: set<nat>, i: nat)
    requires ReceiptsMatch(db, rows, id, done) && DistinctIds(rows) && i < |rows|
    requires OwnEntry(db, after, rows[i].action) && HasReceipt(after.log, rows[i].action.clientId)
    ensures ReceiptsMatch(after, rows, id, done + {i})
  {
    hide OwnEntry, HasReceipt, IsPendingDrawFor;
    forall j | 0 <= j < |rows| && IsPendingDrawFor(rows[j], id)
      ensures HasReceipt(after.log, rows[j].action.clientId) <==> j in done + {i}
    {
      if j != i {
        OtherReceipts(db, after, rows[i].action, rows[j].action.clientId);
      }
    }
  }

  lemma OtherArrival(db: Db, s: Scope, rows: seq<Stored>, id: nat, done: set<nat>, cached: Option<int>,
                     step: Idempotence.Step)
    requires WellDerived(s) && Covered(db, s, rows, id, done, cached) && Foreign(rows, id, step.action)
    ensures Covered(Service.Served(db, step.scope, step.action, step.user, step.audit).0, s, rows, id, done, cached)
  {
    hide Engine.Drawn, Service.Served, Replay.Sound, Idempotence.Admitted, HasReceipt, Owed, OwnEntry,
         AllowanceCovers, IsPendingDrawFor, Dedup.PlayersExtend;
    var a := step.action;
    var after := Service.Served(db, step.scope, a, step.user, step.audit).0;
    ServedApart(db, step.scope, a, step.user, step.audit, id);
    Replay.ActionStep(db, step.scope, a, step.user, step.audit);
    AdmittedStay(db, after, s, rows, id);
    forall j | 0 <= j < |rows| && IsPendingDrawFor(rows[j], id)
      ensures HasReceipt(after.log, rows[j].action.clientId) <==> j in done
    {
      OtherReceipts(db, after, a, rows[j].action.clientId);
    }
  }

  lemma DeliveredGrows(xs: seq<Arrival>)
    requires xs != []
    ensures var front, last := xs[..|xs| - 1], xs[|xs| - 1];
            Delivered(xs) == if last.Own? then Delivered(front) + {last.i} else Delivered(front)
  {
    var front := xs[..|xs| - 1];
    assert forall k :: 0 <= k < |front| ==> front[k] == xs[k];
  }

  lemma {:induction false} StaysCovered(db: Db, s: Scope, user: Id, rows: seq<Stored>, id: nat, cached: Option<int>,
                                        xs: seq<Arrival>)
    requires WellDerived(s) && DistinctIds(rows) && PositiveDraws(rows, id) && Arrivals(rows, id, xs)
    requires cached.Some? ==> PendingSum(rows, id) == 0 || PendingSum(rows, id) <= cached.value
    requires Covered(db, s, rows, id, {}, cached)
    ensures Covered(After(db, s, user, rows, id, xs), s, rows, id, Delivered(xs), cached)
    decreases |xs|
  {
    hide Covered, DistinctIds, PositiveDraws, Foreign, PendingSum, Service.Served;
    if xs == [] {
      assert Delivered(xs) == {};
    } else {
      var front, last := xs[..|xs| - 1], xs[|xs| - 1];
      StaysCovered(db, s, user, rows, id, cached, front);
      DeliveredGrows(xs);
      hide Delivered;
      var before := After(db, s, user, rows, id, front);
      if last.Own? {
        OwnArrival(before, s, user, rows, id, Delivered(front), cached, last.i);
      } else {
        OtherArrival(before, s, rows, id, Delivered(front), cached, last.step);
      }
    }
  }

  /** The cache was just fetched, and nothing captured since has been sent. */
  ghost predicate Fresh(db: Db, s: Scope, rows: seq<Stored>, id: nat, cached: Option<int>) {
    && Replay.Sound(db) && AllAdmitted(db, s, rows, id)
    && id < |db.entitlements| && db.entitlements[id].status.Active? && db.entitlements[id].units == cached
    && ReceiptsMatch(db, rows, id, {})
  }

  /** Every draw the device permitted offline is honoured, however often, in
      whatever order and among whatever other actions it arrives, and whatever
      resets fall due on the way, provided the cached balance does not exceed the
      allowance. An unlimited balance permits any amount, so there the amounts
      must be positive. */
  lemma OfflinePromise(db: Db, s: Scope, user: Id, rows: seq<Stored>, id: nat, cached: Option<int>, xs: seq<Arrival>,
                       k: nat)
    requires WellDerived(s) && Fresh(db, s, rows, id, cached) && DistinctIds(rows) && Arrivals(rows, id, xs)
    requires CapturedOffline(rows, id, cached) && (cached.None? ==> PositiveDraws(rows, id))
    requires AllowanceCovers(Engine.RulesOf(db, db.entitlements[id].product), cached)
    requires k < |xs| && xs[k].Own?
    ensures !Served1(After(db, s, user, rows, id, xs[..k]), s, user, rows, xs[k]).1.status.Rejected?
  {
    hide ReceiptsMatch, AllAdmitted, CapturedOffline, DistinctIds, Owed, PendingSum, AllowanceCovers, Service.Served,
         After, Foreign;
    if cached.Some? {
      PermittedFit(rows, id, cached.value);
    }
    NothingDelivered(rows, id);
    assert Covered(db, s, rows, id, {}, cached);
    hide Covered, PositiveDraws;
    StaysCovered(db, s, user, rows, id, cached, xs[..k]);
    OwnArrival(After(db, s, user, rows, id, xs[..k]), s, user, rows, id, Delivered(xs[..k]), cached, xs[k].i);
  }

  // ------------------------------------------------------------------
  // The balance itself
  // ------------------------------------------------------------------

  /** No draw falls in a later period, and no old log line passes for one. */
  ghost predicate SamePeriod(db: Db, rows: seq<Stored>, id: nat) {
    && id < |db.entitlements|
    && var e := db.entitlements[id];
       forall i :: 0 <= i < |rows| && IsPendingDrawFor(rows[i], id) ==>
         && !Engine.ResetIfNewPeriod(e.units, e.validFrom, Engine.RulesOf(db, e.product), rows[i].action.at.day).changed
         && !Engine.HasLegacyReceipt(db.log, id, rows[i].action.at.ts)
  }

  /** The server's units, the draws still owed, and the cache add up. */
  ghost predicate InStep(db: Db, rows: seq<Stored>, id: nat, done: set<nat>, cached: int) {
    && SamePeriod(db, rows, id)
    && db.entitlements[id].units == Some(cached - PendingSum(rows, id) + Owed(rows, id, done))
  }

  lemma LegacyStays(db: Db, after: Db, a: Action, id: nat, ts: int)
    requires OwnEntry(db, after, a) && !Engine.HasLegacyReceipt(db.log, id, ts)
    ensures !Engine.HasLegacyReceipt(after.log, id, ts)
  {
    assert forall i :: 0 <= i < |db.log| && i < |after.log| ==> after.log[i] == db.log[i];
  }

  lemma SamePeriodStays(db: Db, after: Db, a: Action, rows: seq<Stored>, id: nat)
    requires SamePeriod(db, rows, id) && OwnEntry(db, after, a) && after.products == db.products
    requires id < |after.entitlements| && after.entitlements[id].validFrom == db.entitlements[id].validFrom
    requires after.entitlements[id].product == db.entitlements[id].product
    ensures SamePeriod(after, rows, id)
  {
    hide OwnEntry, IsPendingDrawFor, Engine.HasLegacyReceipt, Engine.PeriodOf, Engine.IsRecurring;
    forall i | 0 <= i < |rows| && IsPendingDrawFor(rows[i], id)
      ensures !Engine.HasLegacyReceipt(after.log, id, rows[i].action.at.ts)
    {
      LegacyStays(db, after, a, id, rows[i].action.at.ts);
    }
  }

  /** Within a period a draw takes exactly its amount, and only once. */
  lemma DrawTakes(db: Db, id: nat, amount: int, user: Id, at: Moment, clientId: Id)
    requires id < |db.entitlements| && db.entitlements[id].status.Active? && db.entitlements[id].units.Some?
    requires amount > 0
    requires !HasReceipt(db.log, clientId) ==> amount <= db.entitlements[id].units.value
    requires var e := db.entitlements[id];
             !Engine.ResetIfNewPeriod(e.units, e.validFrom, Engine.RulesOf(db, e.product), at.day).changed
    requires !Engine.HasLegacyReceipt(db.log, id, at.ts)
    ensures var drawn := Engine.Drawn(db, id, amount, user, at, Some(clientId), Works);
            && drawn.1.Returned? && (drawn.1.result.status.DrawApplied? || drawn.1.result.status.DrawSkipped?)
            && drawn.0.products == db.products && id < |drawn.0.entitlements|
            && drawn.0.entitlements[id] ==
                 if HasReceipt(db.log, clientId) then db.entitlements[id]
                 else db.entitlements[id].(units := Some(db.entitlements[id].units.value - amount))
  {
    hide Engine.PeriodOf, Engine.IsRecurring, Engine.AllowanceUnits;
  }

  /** What a device that draws alone knows of the server within one period. */
  ghost predicate Tracked(db: Db, s: Scope, rows: seq<Stored>, id: nat, done: set<nat>, cached: int) {
    && Replay.Sound(db) && AllAdmitted(db, s, rows, id) && ReceiptsMatch(db, rows, id, done)
    && InStep(db, rows, id, done, cached) && db.entitlements[id].status.Active?
  }

  lemma OwnTracked(db: Db, s: Scope, user: Id, rows: seq<Stored>, id: nat, done: set<nat>, cached: int, i: nat)
    requires WellDerived(s) && Tracked(db, s, rows, id, done, cached) && PositiveDraws(rows, id) && DistinctIds(rows)
    requires PendingSum(rows, id) == 0 || PendingSum(rows, id) <= cached
    requires i < |rows| && IsPendingDrawFor(rows[i], id)
    ensures Tracked(Service.Served(db, s, rows[i].action, user, Works).0, s, rows, id, done + {i}, cached)
  {
    hide Engine.Drawn, Service.Served, Replay.Sound, Replay.Extends, Idempotence.Admitted, HasReceipt, Owed,
         PendingSum, OwnEntry, Engine.ResetIfNewPeriod, Engine.HasLegacyReceipt;
    var a, amount := rows[i].action, Amount(rows[i], id);
    OwedBounds(rows, id, done);
    NothingDelivered(rows, id);
    OwedBounds(rows, id, {});
    DrawTakes(db, id, amount, user, a.at, a.clientId);
    DrawServed(db, s, rows[i], id, user);
    DrawLogs(db, id, amount, user, a, Works);
    Idempotence.DrawSettles(db, id, amount, user, a.at, a.clientId, Works);
    Replay.ActionStep(db, s, a, user, Works);
    var after := Service.Served(db, s, a, user, Works).0;
    AdmittedStay(db, after, s, rows, id);
    ReceiptsStep(db, after, rows, id, done, i);
    SamePeriodStays(db, after, a, rows, id);
    if i in done {
      assert done + {i} == done;
    } else {
      OwedAfter(rows, id, done, i);
    }
  }

  lemma OtherTracked(db: Db, s: Scope, rows: seq<Stored>, id: nat, done: set<nat>, cached: int, step: Idempotence.Step)
    requires WellDerived(s) && Tracked(db, s, rows, id, done, cached) && Foreign(rows, id, step.action)
    ensures Tracked(Service.Served(db, step.scope, step.action, step.user, step.audit).0, s, rows, id, done, cached)
  {
    hide Service.Served, Replay.Sound, Owed, PendingSum, OwnEntry, Dedup.PlayersExtend, Engine.ResetIfNewPeriod,
         Engine.HasLegacyReceipt, Idempotence.Admitted, HasReceipt, IsPendingDrawFor;
    var a := step.action;
    var after := Service.Served(db, step.scope, a, step.user, step.audit).0;
    ServedApart(db, step.scope, a, step.user, step.audit, id);
    Replay.ActionStep(db, step.scope, a, step.user, step.audit);
    AdmittedStay(db, after, s, rows, id);
    SamePeriodStays(db, after, a, rows, id);
    forall j | 0 <= j < |rows| && IsPendingDrawFor(rows[j], id)
      ensures HasReceipt(after.log, rows[j].action.clientId) <==> j in done
    {
      OtherReceipts(db, after, a, rows[j].action.clientId);
    }
  }

  lemma {:induction false} StaysTracked(db: Db, s: Scope, user: Id, rows: seq<Stored>, id: nat, cached: int,
                                        xs: seq<Arrival>)
    requires WellDerived(s) && DistinctIds(rows) && PositiveDraws(rows, id) && Arrivals(rows, id, xs)
    requires PendingSum(rows, id) == 0 || PendingSum(rows, id) <= cached
    requires Tracked(db, s, rows, id, {}, cached)
    ensures Tracked(After(db, s, user, rows, id, xs), s, rows, id, Delivered(xs), cached)
    decreases |xs|
  {
    hide DistinctIds, PositiveDraws, Foreign, PendingSum, Service.Served, Tracked;
    if xs == [] {
      assert Delivered(xs) == {};
    } else {
      var front, last := xs[..|xs| - 1], xs[|xs| - 1];
      StaysTracked(db, s, user, rows, id, cached, front);
      DeliveredGrows(xs);
      hide Delivered;
      var before := After(db, s, user, rows, id, front);
      if last.Own? {
        OwnTracked(before, s, user, rows, id, Delivered(front), cached, last.i);
      } else {
        OtherTracked(before, s, rows, id, Delivered(front), cached, last.step);
      }
    }
  }

  /** The queue once the delivered draws have their answers. */
  function Answered(rows: seq<Stored>, done: set<nat>): (r: seq<Stored>)
    ensures |r| == |rows|
  {
    if rows == [] then []
    else
      var n := |rows| - 1;
      Answered(rows[..n], done) + [if n in done then rows[n].(status := SyncApplied) else rows[n]]
  }

  lemma {:induction false} StillPending(rows: seq<Stored>, id: nat, done: set<nat>)
    ensures PendingSum(Answered(rows, done), id) == Owed(rows, id, done)
  {
    if rows != [] {
      var n := |rows| - 1;
      StillPending(rows[..n], id, done);
      assert Answered(rows, done)[..n] == Answered(rows[..n], done);
    }
  }

  lemma {:induction false} AllDelivered(rows: seq<Stored>, id: nat, done: set<nat>)
    requires forall i :: 0 <= i < |rows| && IsPendingDrawFor(rows[i], id) ==> i in done
    ensures Owed(rows, id, done) == 0
  {
    if rows != [] {
      var front := rows[..|rows| - 1];
      assert forall i :: 0 <= i < |front| ==> front[i] == rows[i];
      AllDelivered(front, id, done);
    }
  }

  /** Within one period the shown balance is a prediction: what the server ends up
      with once everything is delivered is what the device showed. Until the cache
      is refreshed, the balance recomputed over the answered queue overstates the
      final one by exactly what has been delivered. */
  lemma BalancePredicted(db: Db, s: Scope, user: Id, rows: seq<Stored>, id: nat, cached: int, xs: seq<Arrival>)
    requires WellDerived(s) && Fresh(db, s, rows, id, Some(cached)) && DistinctIds(rows) && Arrivals(rows, id, xs)
    requires CapturedOffline(rows, id, Some(cached)) && SamePeriod(db, rows, id)
    ensures var after, done := After(db, s, user, rows, id, xs), Delivered(xs);
            var shown := OptimisticRemaining(Some(cached), PendingSum(rows, id));
            && id < |after.entitlements| && after.entitlements[id].units.Some?
            && after.entitlements[id].units.value == shown.left + Owed(rows, id, done)
            && ((forall i :: 0 <= i < |rows| && IsPendingDrawFor(rows[i], id) ==> i in done) ==>
                  after.entitlements[id].units == Some(shown.left))
            && OptimisticRemaining(Some(cached), PendingSum(Answered(rows, done), id)).left
               == shown.left + (PendingSum(rows, id) - Owed(rows, id, done))
  {
    hide ReceiptsMatch, AllAdmitted, CapturedOffline, DistinctIds, Owed, PendingSum, Service.Served, After, Foreign,
         Delivered, Replay.Sound, Answered, Engine.ResetIfNewPeriod, Engine.HasLegacyReceipt;
    PermittedFit(rows, id, cached);
    NothingDelivered(rows, id);
    assert Tracked(db, s, rows, id, {}, cached);
    hide SamePeriod;
    StaysTracked(db, s, user, rows, id, cached, xs);
    StillPending(rows, id, Delivered(xs));
    if forall i :: 0 <= i < |rows| && IsPendingDrawFor(rows[i], id) ==> i in Delivered(xs) {
      AllDelivered(rows, id, Delivered(xs));
    }
  }

  // ------------------------------------------------------------------
  // Where the promise stops
  // ------------------------------------------------------------------

  /** The device permits any amount against an unlimited balance, but the server
      honours a draw on an unlimited row exactly when its amount is positive. */
  lemma UnlimitedHonouredIffPositive(db: Db, id: nat, amount: int, user: Id, at: Moment, clientId: Id)
    requires RowCovers(db, id, 0, None)
    ensures CanDraw(OptimisticRemaining(None, 0), amount)
    ensures var drawn := Engine.Drawn(db, id, amount, user, at, Some(clientId), Works).1;
            drawn.Returned? && (drawn.result.status.DrawApplied? || drawn.result.status.DrawSkipped? <==> amount > 0)
  {
    if amount > 0 {
      hide Engine.Drawn;
      DrawHonoured(db, id, amount, user, at, clientId, amount, None);
    }
  }

  /** A permitted draw that is larger than the allowance is refused as soon as a
      reset falls due before it, so the cache must not exceed the allowance. */
  lemma ShortAllowanceRefuses(db: Db, id: nat, cached: int, amount: int, user: Id, at: Moment, clientId: Id)
    requires id < |db.entitlements| && db.entitlements[id].status.Active?
    requires CanDraw(OptimisticRemaining(Some(cached), 0), amount)
    requires var e := db.entitlements[id];
             var rules := Engine.RulesOf(db, e.product);
             && Engine.ResetIfNewPeriod(e.units, e.validFrom, rules, at.day).changed
             && Engine.AllowanceUnits(rules).Some? && Engine.AllowanceUnits(rules).value < amount
    requires !Engine.AlreadyDrawn(db.log, id, at.ts, Some(clientId))
    ensures var drawn := Engine.Drawn(db, id, amount, user, at, Some(clientId), Works);
            drawn.1.Returned? && drawn.1.result.status.InsufficientUnits?
  {
    hide Engine.PeriodOf;
  }
}
