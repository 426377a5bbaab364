/** A reference account that restores its allowance at midnight of every reset
    day, and the proof that the engine's lazy reset cannot be told apart from it. */
module EagerReset {
  import opened Basics
  import opened Calendar
  import opened Schema
  import opened Engine

  /** `clock` is the latest day the account has lived through; `used` and
      `legacy` are the draws it has already honoured. */
  datatype Account = Account(units: Option<int>, clock: int, used: set<Id>, legacy: set<int>)

  datatype Request = Request(amount: int, at: Moment, clientId: Option<Id>)

  /** One midnight: on the reset weekday unused units are discarded. */
  function Midnight(a: Account, rules: Rules): Account {
    var today := a.clock + 1;
    if IsRecurring(rules) && Weekday(today) == ResetWeekday(rules)
    then a.(units := AllowanceUnits(rules), clock := today)
    else a.(clock := today)
  }

  /** The night before a day that begins a period restores exactly the units of one,
      and no other night changes anything but the date. */
  lemma MidnightMeaning(a: Account, rules: Rules)
    ensures var b := Midnight(a, rules);
            && b == a.(units := b.units, clock := a.clock + 1)
            && if Recurs(rules) && BeginsPeriod(rules, a.clock + 1) then GrantsUnits(rules, b.units)
               else b.units == a.units
  {
    AllowanceMeaning(rules);
    ResetDayMeaning(rules, a.clock + 1);
  }

  function LiveUntil(a: Account, rules: Rules, day: int): Account
    decreases day - a.clock
  {
    if day <= a.clock then a else LiveUntil(Midnight(a, rules), rules, day)
  }

  function EagerDraw(a: Account, rules: Rules, active: bool, req: Request): (Account, DrawStatus) {
    if req.amount <= 0 then (a, InvalidAmount)
    else if req.clientId.Some? && (req.clientId.value in a.used || req.at.ts in a.legacy) then
      (a.(used := a.used + {req.clientId.value}), DrawSkipped)
    else
      var now := LiveUntil(a, rules, req.at.day);
      if !active then (now, Inactive)
      else if now.units.Some? && now.units.value < req.amount then (now, InsufficientUnits)
      else
        var left := if now.units.None? then None else Some(now.units.value - req.amount);
        (now.(units := left, used := if req.clientId.None? then now.used else now.used + {req.clientId.value}),
         DrawApplied)
  }

  function EagerRun(a: Account, rules: Rules, active: bool, reqs: seq<Request>): (Account, seq<DrawStatus>)
    decreases reqs
  {
    if reqs == [] then (a, [])
    else
      var first := EagerDraw(a, rules, active, reqs[0]);
      var rest := EagerRun(first.0, rules, active, reqs[1..]);
      (rest.0, [first.1] + rest.1)
  }

  /** The same requests served by the engine, with a working audit log. */
  function LazyRun(db: Db, id: nat, user: Id, reqs: seq<Request>): (Db, seq<Outcome<DrawResult>>)
    decreases reqs
  {
    if reqs == [] then (db, [])
    else
      var first := Drawn(db, id, reqs[0].amount, user, reqs[0].at, reqs[0].clientId, Works);
      var rest := LazyRun(first.0, id, user, reqs[1..]);
      (rest.0, [first.1] + rest.1)
  }

  function UsedIds(log: seq<LogEntry>): set<Id> {
    set i | 0 <= i < |log| && log[i].clientId.Some? :: log[i].clientId.value
  }

  function LegacyTimes(log: seq<LogEntry>, id: nat): set<int> {
    set i | 0 <= i < |log| && log[i].legacyMissing && log[i].entity == EntitlementEntity
            && log[i].record == id && log[i].action == Update && log[i].clientTs.Some? :: log[i].clientTs.value
  }

  /** The stored row and the reference account tell the same story; a recurring
      row carries the period start its units belong to. */
  ghost predicate Agrees(db: Db, id: nat, a: Account) {
    && id < |db.entitlements|
    && var row := db.entitlements[id];
       var rules := RulesOf(db, row.product);
       && a.units == row.units
       && a.used == UsedIds(db.log)
       && a.legacy == LegacyTimes(db.log, id)
       && (IsRecurring(rules) ==>
             && row.validFrom.Some?
             && Aligned(rules, row.validFrom.value)
             && row.validFrom.value <= a.clock < row.validFrom.value + 7)
  }

  lemma {:induction false} LiveUntilMeaning(a: Account, rules: Rules, day: int, start: int)
    requires IsRecurring(rules) ==> Aligned(rules, start) && start <= a.clock < start + 7
    ensures var b := LiveUntil(a, rules, day);
            && b.used == a.used && b.legacy == a.legacy
            && b.clock == (if day <= a.clock then a.clock else day)
            && b.units == (if IsRecurring(rules) && day >= start + 7 then AllowanceUnits(rules) else a.units)
            && (Recurs(rules) && day >= start + 7 ==> GrantsUnits(rules, b.units))
    decreases day - a.clock
  {
    AllowanceMeaning(rules);
    if day > a.clock {
      var next := Midnight(a, rules);
      var start' := if next.clock == start + 7 then next.clock else start;
      LiveUntilMeaning(next, rules, day, start');
    }
  }

  lemma UsedAppend(log: seq<LogEntry>, e: LogEntry, id: nat)
    ensures UsedIds(log + [e]) == UsedIds(log) + (if e.clientId.Some? then {e.clientId.value} else {})
    ensures !e.legacyMissing ==> LegacyTimes(log + [e], id) == LegacyTimes(log, id)
  {
    var more := log + [e];
    assert more[|log|] == e;
    assert forall i :: 0 <= i < |log| ==> more[i] == log[i];
  }

  lemma AlreadyDrawnAgrees(db: Db, id: nat, a: Account, req: Request)
    requires Agrees(db, id, a)
    ensures AlreadyDrawn(db.log, id, req.at.ts, req.clientId)
            <==> req.clientId.Some? && (req.clientId.value in a.used || req.at.ts in a.legacy)
    ensures req.clientId.Some? ==> (HasReceipt(db.log, req.clientId.value) <==> req.clientId.value in a.used)
  {
  }

  /** A lazy reset catches the row up with every midnight it slept through. */
  lemma RefreshAgrees(db: Db, id: nat, a: Account, day: Day)
    requires Agrees(db, id, a)
    ensures var row := db.entitlements[id];
            var rules := RulesOf(db, row.product);
            && Agrees(WithRow(db, id, Refreshed(db, row, day)), id, LiveUntil(a, rules, day))
            && Refreshed(db, row, day).units == LiveUntil(a, rules, day).units
  {
    var row := db.entitlements[id];
    var rules := RulesOf(db, row.product);
    if IsRecurring(rules) {
      LiveUntilMeaning(a, rules, day, row.validFrom.value);
      ResetMeaning(row.units, row.validFrom.value, rules, day);
    } else {
      LiveUntilMeaning(a, rules, day, 0);
    }
  }

  lemma DrawAgrees(db: Db, id: nat, a: Account, user: Id, req: Request)
    requires Agrees(db, id, a)
    ensures var rules, active := RulesOf(db, db.entitlements[id].product), db.entitlements[id].status.Active?;
            var lazy := Drawn(db, id, req.amount, user, req.at, req.clientId, Works);
            var eager := EagerDraw(a, rules, active, req);
            && Agrees(lazy.0, id, eager.0)
            && lazy.0.products == db.products
            && lazy.0.entitlements[id].product == db.entitlements[id].product
            && lazy.0.entitlements[id].status == db.entitlements[id].status
            && lazy.1.Returned? && lazy.1.result.status == eager.1
  {
    var row := db.entitlements[id];
    var rules := RulesOf(db, row.product);
    AlreadyDrawnAgrees(db, id, a, req);
    if req.amount <= 0 {
    } else if AlreadyDrawn(db.log, id, req.at.ts, req.clientId) {
      var claimed := if HasReceipt(db.log, req.clientId.value) then None else req.clientId;
      UsedAppend(db.log, DrawEntry(row, id, Skip, user, req.at, claimed), id);
    } else {
      NewDrawAgrees(db, id, a, user, req);
    }
  }

  lemma NewDrawAgrees(db: Db, id: nat, a: Account, user: Id, req: Request)
    requires Agrees(db, id, a) && req.amount > 0 && !AlreadyDrawn(db.log, id, req.at.ts, req.clientId)
    ensures var rules, active := RulesOf(db, db.entitlements[id].product), db.entitlements[id].status.Active?;
            var lazy := Drawn(db, id, req.amount, user, req.at, req.clientId, Works);
            var eager := EagerDraw(a, rules, active, req);
            && Agrees(lazy.0, id, eager.0)
            && lazy.0.products == db.products
            && lazy.0.entitlements[id].product == db.entitlements[id].product
            && lazy.0.entitlements[id].status == db.entitlements[id].status
            && lazy.1.Returned? && lazy.1.result.status == eager.1
  {
    hide LiveUntil, ResetIfNewPeriod, ResetWeekday;
    var row := db.entitlements[id];
    AlreadyDrawnAgrees(db, id, a, req);
    RefreshAgrees(db, id, a, req.at.day);
    UsedAppend(db.log, DrawEntry(row, id, Skip, user, req.at, req.clientId), id);
    UsedAppend(db.log, DrawEntry(row, id, Update, user, req.at, req.clientId), id);
  }

  /** For draws at any times, in any order, replays included, the engine accepts,
      skips and rejects exactly like the eager account and leaves its units. */
  lemma {:induction false} LazyRefinesEager(db: Db, id: nat, a: Account, user: Id, reqs: seq<Request>)
    requires Agrees(db, id, a)
    ensures var rules, active := RulesOf(db, db.entitlements[id].product), db.entitlements[id].status.Active?;
            var lazy, eager := LazyRun(db, id, user, reqs), EagerRun(a, rules, active, reqs);
            && Agrees(lazy.0, id, eager.0)
            && |lazy.1| == |eager.1| == |reqs|
            && forall i :: 0 <= i < |reqs| ==> lazy.1[i].Returned? && lazy.1[i].result.status == eager.1[i]
    decreases reqs
  {
    if reqs != [] {
      DrawAgrees(db, id, a, user, reqs[0]);
      var first := Drawn(db, id, reqs[0].amount, user, reqs[0].at, reqs[0].clientId, Works).0;
      var rules, active := RulesOf(db, db.entitlements[id].product), db.entitlements[id].status.Active?;
      LazyRefinesEager(first, id, EagerDraw(a, rules, active, reqs[0]).0, user, reqs[1..]);
    }
  }

  /** Without a stored period start the reset is computed but never written, so
      the row keeps its old units however many weeks pass. */
  lemma NullStartNeverResets(db: Db, id: nat, amount: int, user: Id, at: Moment, clientId: Option<Id>, audit: Audit)
    requires id < |db.entitlements| && db.entitlements[id].validFrom.None?
    ensures var after := Drawn(db, id, amount, user, at, clientId, audit);
            && |after.0.entitlements| == |db.entitlements|
            && after.0.entitlements[id].validFrom.None?
            && (after.1.Returned? && after.1.result.status != DrawApplied ==>
                  after.0.entitlements == db.entitlements)
  {
  }
}
