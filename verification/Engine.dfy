/** The entitlement engine: units and windows derived from product rules, the
    lazy weekly reset, and the draw with its signature. */
module Engine {
  import opened Basics
  import opened Calendar
  import opened Schema

  const MINUTES_PER_HOUR := 60

  // ------------------------------------------------------------------
  // Pure derivation
  // ------------------------------------------------------------------

  /** The per-period allowance in minutes; `None` is unlimited. */
  function AllowanceUnits(rules: Rules): Option<int> {
    if rules.hoursPerWeek.Given? then Some(rules.hoursPerWeek.value * MINUTES_PER_HOUR)
    else if rules.hours.Some? then Some(rules.hours.value * MINUTES_PER_HOUR)
    else if rules.units.Some? then rules.units
    else rules.sessions
  }

  predicate IsRecurring(rules: Rules) {
    rules.reset.Some? || !rules.hoursPerWeek.Absent?
  }

  function ResetWeekday(rules: Rules): (w: int)
    ensures 0 <= w < 7
  {
    var name := Slug(rules.reset);
    if name == "tuesday" then 1
    else if name == "wednesday" then 2
    else if name == "thursday" then 3
    else if name == "friday" then 4
    else if name == "saturday" then 5
    else if name == "sunday" then 6
    else 0
  }

  function PeriodOf(rules: Rules, today: Day): (start: int)
    ensures today - 6 <= start <= today && Weekday(start) == ResetWeekday(rules)
  {
    PeriodStart(ResetWeekday(rules), today)
  }

  // ------------------------------------------------------------------
  // What the rules say, field by field
  // ------------------------------------------------------------------

  /** The units a product grants for a period: 60 minutes for each hour it names, a
      weekly figure before a plain one, else the count it names; without limit if it
      names none. */
  predicate GrantsUnits(rules: Rules, units: Option<int>) {
    && (units.None? <==>
          !rules.hoursPerWeek.Given? && rules.hours.None? && rules.units.None? && rules.sessions.None?)
    && (rules.hoursPerWeek.Given? ==> units == Some(60 * rules.hoursPerWeek.value))
    && (!rules.hoursPerWeek.Given? && rules.hours.Some? ==> units == Some(60 * rules.hours.value))
    && (!rules.hoursPerWeek.Given? && rules.hours.None? && rules.units.Some? ==> units == rules.units)
    && (!rules.hoursPerWeek.Given? && rules.hours.None? && rules.units.None? && rules.sessions.Some? ==>
          units == rules.sessions)
  }

  const DAY_NAMES := ["monday", "tuesday", "wednesday", "thursday", "friday", "saturday", "sunday"]

  /** The day begins a period: it is the weekday the rules name, or a Monday. */
  predicate BeginsPeriod(rules: Rules, day: int) {
    if Slug(rules.reset) in DAY_NAMES then Slug(rules.reset) == DAY_NAMES[Weekday(day)]
    else Weekday(day) == 0
  }

  predicate Recurs(rules: Rules) {
    rules.reset.Some? || rules.hoursPerWeek.Given? || rules.hoursPerWeek.Null?
  }

  lemma AllowanceMeaning(rules: Rules)
    ensures GrantsUnits(rules, AllowanceUnits(rules))
    ensures IsRecurring(rules) <==> Recurs(rules)
  {
  }

  lemma DayNamesDiffer()
    ensures forall i, j :: 0 <= i < j < 7 ==> DAY_NAMES[i] != DAY_NAMES[j]
  {
    assert DAY_NAMES[0][0] == 'm' && DAY_NAMES[1][..2] == "tu" && DAY_NAMES[2][0] == 'w' && DAY_NAMES[3][..2] == "th";
    assert DAY_NAMES[4][0] == 'f' && DAY_NAMES[5][..2] == "sa" && DAY_NAMES[6][..2] == "su";
  }

  lemma ResetDayMeaning(rules: Rules, day: int)
    ensures BeginsPeriod(rules, day) <==> Aligned(rules, day)
  {
    hide Slug;
    DayNamesDiffer();
  }

  datatype Window = Window(units: Option<int>, validFrom: int, validTo: Option<int>)

  /** The units and validity window of a new entitlement; raises when the end of
      the term is past the last representable date. */
  function DeriveWindow(rules: Rules, today: Day): Outcome<Window> {
    var start := if IsRecurring(rules) then PeriodOf(rules, today) else today;
    if rules.minTermMonths.Some? then
      var end := AddMonths(ToDate(start), rules.minTermMonths.value);
      if end.None? then Raised("date out of range")
      else
        AddMonthsMeaning(ToDate(start), rules.minTermMonths.value);
        Returned(Window(AllowanceUnits(rules), start, Some(Ordinal(end.value))))
    else if rules.validDays.Some? then
      if 1 <= start + rules.validDays.value <= MAX_ORDINAL
      then Returned(Window(AllowanceUnits(rules), start, Some(start + rules.validDays.value)))
      else Raised("date out of range")
    else if IsRecurring(rules) && rules.fixedWindow then
      if start + 7 <= MAX_ORDINAL then Returned(Window(AllowanceUnits(rules), start, Some(start + 7)))
      else Raised("date out of range")
    else Returned(Window(AllowanceUnits(rules), start, None))
  }

  /** The whole window as the rules put it: the units of a period, from the begin of
      the running period or from today, to the end of a term in months, else of a
      number of days, else of the week of a fixed window, else without end. */
  predicate SoldAs(rules: Rules, today: Day, w: Window) {
    && GrantsUnits(rules, w.units)
    && (if Recurs(rules) then BeginsPeriod(rules, w.validFrom) && w.validFrom <= today < w.validFrom + 7
        else w.validFrom == today)
    && if rules.minTermMonths.Some? then
         w.validTo.Some? && EndsMonthsLater(w.validFrom, rules.minTermMonths.value, w.validTo.value)
       else if rules.validDays.Some? then w.validTo == Some(w.validFrom + rules.validDays.value)
       else w.validTo == if Recurs(rules) && rules.fixedWindow then Some(w.validFrom + 7) else None
  }

  /** `end` is the same day of the month so many months later, or the last day of
      that month if it has no such day. */
  predicate EndsMonthsLater(start: int, months: int, end: int) {
    && 1 <= start && 1 <= end
    && var (from, to) := (ToDate(start), ToDate(end));
       && 12 * to.year + to.month == 12 * from.year + from.month + months
       && (to.day == from.day || (to.day < from.day && to.day == DaysInMonth(to.year, to.month)))
  }

  /** What a derived window promises the buyer. */
  lemma WindowMeaning(rules: Rules, today: Day)
    requires DeriveWindow(rules, today).Returned?
    ensures var w := DeriveWindow(rules, today).result;
            && SoldAs(rules, today, w)
            && (rules.minTermMonths.Some? && rules.minTermMonths.value >= 0 ==>
                  var months := rules.minTermMonths.value;
                  w.validTo.Some? && 28 * months <= w.validTo.value - w.validFrom <= 31 * months)
  {
    var start := if IsRecurring(rules) then PeriodOf(rules, today) else today;
    AllowanceMeaning(rules);
    ResetDayMeaning(rules, start);
    if rules.minTermMonths.Some? {
      var end := AddMonths(ToDate(start), rules.minTermMonths.value).value;
      AddMonthsMeaning(ToDate(start), rules.minTermMonths.value);
      OrdinalByMonth(end);
      OrdinalOrder(end, Date(1, 1, 1));
      DateRoundTrip(end);
      if rules.minTermMonths.value >= 0 {
        AddMonthsSpan(ToDate(start), rules.minTermMonths.value);
      }
    }
  }

  datatype ResetOutcome = ResetOutcome(changed: bool, units: Option<int>, validFrom: Option<int>)

  /** `reset_if_new_period`: no rollover, and nothing is written here. */
  function ResetIfNewPeriod(units: Option<int>, validFrom: Option<int>, rules: Rules, today: Day): ResetOutcome {
    if !IsRecurring(rules) then ResetOutcome(false, units, validFrom)
    else
      var start := PeriodOf(rules, today);
      if validFrom.None? then ResetOutcome(false, units, Some(start))
      else if start > validFrom.value then ResetOutcome(true, AllowanceUnits(rules), Some(start))
      else ResetOutcome(false, units, validFrom)
  }

  /** `validFrom` is a period start of these rules. */
  predicate Aligned(rules: Rules, validFrom: int) {
    Weekday(validFrom) == ResetWeekday(rules)
  }

  /** A reset is due exactly when a period has begun since the one the units belong
      to; it then restores the units of a period, whatever was left, and moves the
      start to the begin of the running one. Otherwise the units stay. */
  lemma ResetIff(units: Option<int>, validFrom: Option<int>, rules: Rules, today: Day)
    ensures var r := ResetIfNewPeriod(units, validFrom, rules, today);
            && (r.changed <==>
                  && Recurs(rules) && validFrom.Some?
                  && exists d :: validFrom.value < d <= today && BeginsPeriod(rules, d))
            && (r.changed ==>
                  && GrantsUnits(rules, r.units) && r.validFrom.Some? && BeginsPeriod(rules, r.validFrom.value)
                  && validFrom.value < r.validFrom.value <= today < r.validFrom.value + 7)
            && (!r.changed ==> r.units == units && (validFrom.Some? ==> r.validFrom == validFrom))
  {
    AllowanceMeaning(rules);
    var start := PeriodOf(rules, today);
    ResetDayMeaning(rules, start);
    if Recurs(rules) && validFrom.Some? {
      if d :| validFrom.value < d <= today && BeginsPeriod(rules, d) {
        ResetDayMeaning(rules, d);
        assert d <= start;
      }
    }
  }

  /** An aligned period start stays aligned, never moves back, always lands on
      the current period once it is due, and is due exactly seven days on. */
  lemma ResetMeaning(units: Option<int>, validFrom: int, rules: Rules, today: Day)
    requires IsRecurring(rules) && Aligned(rules, validFrom)
    ensures var r := ResetIfNewPeriod(units, Some(validFrom), rules, today);
            && r.validFrom.Some? && Aligned(rules, r.validFrom.value) && r.validFrom.value >= validFrom
            && (r.changed <==> today >= validFrom + 7)
            && (r.changed ==> r.validFrom.value <= today < r.validFrom.value + 7 && r.units == AllowanceUnits(rules)
                              && GrantsUnits(rules, r.units))
            && (!r.changed ==> r.units == units && r.validFrom.value == validFrom)
  {
    AllowanceMeaning(rules);
  }

  // ------------------------------------------------------------------
  // Create
  // ------------------------------------------------------------------

  function RulesOf(db: Db, product: Id): Rules {
    if product in db.products then db.products[product] else NO_RULES
  }

  /** `create_entitlement`, as what it leaves committed and returns. */
  function Created(db: Db, player: nat, product: Id, location: Id, user: Id, at: Moment, clientId: Option<Id>,
                   audit: Audit)
    : (Db, Outcome<nat>)
  {
    var window := DeriveWindow(RulesOf(db, product), at.day);
    if window.Raised? then (db, Raised(window.message))
    else if player >= |db.players| || product !in db.products then (db, Raised("foreign key"))
    else
      var w := window.result;
      var row := Entitlement(player, product, Active, w.units, Some(w.validFrom), w.validTo, location, clientId);
      var inserted := db.(entitlements := db.entitlements + [row]);
      var entry := LogEntry(EntitlementEntity, |db.entitlements|, Insert, location, user, clientId, Some(at.ts), false);
      var logged := Logged(inserted, entry, audit);
      if logged.Raised? then (db, Raised(logged.message)) else (logged.result, Returned(|db.entitlements|))
  }

  method CreateEntitlement(conn: Connection, player: nat, product: Id, location: Id, user: Id, at: Moment,
                           clientId: Option<Id>, audit: Audit)
    returns (r: Outcome<nat>)
    requires conn.work == conn.durable
    modifies conn
    ensures (conn.durable, r) == Created(old(conn.durable), player, product, location, user, at, clientId, audit)
    ensures r.Returned? ==> conn.work == conn.durable
  {
    var rules := RulesOf(conn.work, product);
    var window := DeriveWindow(rules, at.day);
    if window.Raised? {
      return Raised(window.message);
    }
    if player >= |conn.work.players| || product !in conn.work.products {
      return Raised("foreign key");
    }
    var id := |conn.work.entitlements|;
    var w := window.result;
    var row := Entitlement(player, product, Active, w.units, Some(w.validFrom), w.validTo, location, clientId);
    conn.work := conn.work.(entitlements := conn.work.entitlements + [row]);
    var entry := LogEntry(EntitlementEntity, id, Insert, location, user, clientId, Some(at.ts), false);
    var before := conn.work;
    var ok := conn.Append(entry, audit);
    if !ok {
      return Raised(Logged(before, entry, audit).message);
    }
    conn.Commit();
    r := Returned(id);
  }

  // ------------------------------------------------------------------
  // Draw
  // ------------------------------------------------------------------

  datatype DrawStatus =
    | DrawApplied
    | DrawSkipped
    | InvalidAmount
    | NotFound
    | Inactive
    | InsufficientUnits
    | SignatureFailed

  datatype DrawResult = DrawResult(status: DrawStatus, remaining: Option<int>)

  /** An old revision logged draws without a client id: such an update of the
      same entitlement at the same instant counts as this action's receipt. */
  predicate HasLegacyReceipt(log: seq<LogEntry>, id: nat, ts: int) {
    exists i :: 0 <= i < |log| && log[i].legacyMissing && log[i].entity == EntitlementEntity
                && log[i].record == id && log[i].action == Update && log[i].clientTs == Some(ts)
  }

  /** The draw has been taken already, as far as the log can tell. */
  predicate AlreadyDrawn(log: seq<LogEntry>, id: nat, ts: int, clientId: Option<Id>) {
    clientId.Some? && (HasReceipt(log, clientId.value) || HasLegacyReceipt(log, id, ts))
  }

  function DrawEntry(row: Entitlement, id: nat, action: LogAction, user: Id, at: Moment,
                     clientId: Option<Id>): LogEntry {
    LogEntry(EntitlementEntity, id, action, row.location, user, clientId, Some(at.ts), false)
  }

  /** The row once a due reset has been written to it. */
  function Refreshed(db: Db, row: Entitlement, today: Day): Entitlement {
    var reset := ResetIfNewPeriod(row.units, row.validFrom, RulesOf(db, row.product), today);
    if reset.changed then row.(units := reset.units, validFrom := reset.validFrom) else row
  }

  function WithRow(db: Db, id: nat, row: Entitlement): Db
    requires id < |db.entitlements|
  {
    db.(entitlements := db.entitlements[id := row])
  }

  /** `draw`, as what it leaves committed and returns. */
  function Drawn(db: Db, id: nat, amount: int, user: Id, at: Moment, clientId: Option<Id>, audit: Audit)
    : (Db, Outcome<DrawResult>)
  {
    if amount <= 0 then (db, Returned(DrawResult(InvalidAmount, None)))
    else if id >= |db.entitlements| then (db, Returned(DrawResult(NotFound, None)))
    else
      var row := db.entitlements[id];
      if AlreadyDrawn(db.log, id, at.ts, clientId) then
        var claimed := if HasReceipt(db.log, clientId.value) then None else clientId;
        var logged := Logged(db, DrawEntry(row, id, Skip, user, at, claimed), audit);
        if logged.Raised? then (db, Raised(logged.message))
        else (logged.result, Returned(DrawResult(DrawSkipped, row.units)))
      else
        var current := Refreshed(db, row, at.day);
        var reset := WithRow(db, id, current);
        if !current.status.Active? then (reset, Returned(DrawResult(Inactive, current.units)))
        else if current.units.None? then
          if clientId.None? then (reset, Returned(DrawResult(DrawApplied, None)))
          else
            var logged := Logged(reset, DrawEntry(row, id, Skip, user, at, clientId), audit);
            if logged.Raised? then (db, Raised(logged.message))
            else (logged.result, Returned(DrawResult(DrawApplied, None)))
        else if current.units.value < amount then (reset, Returned(DrawResult(InsufficientUnits, current.units)))
        else
          var left := current.units.value - amount;
          var taken := WithRow(db, id, current.(units := Some(left)));
          var logged := Logged(taken, DrawEntry(row, id, Update, user, at, clientId), audit);
          if logged.Returned? then (logged.result, Returned(DrawResult(DrawApplied, Some(left))))
          else if audit.SignatureFails? then (reset, Returned(DrawResult(SignatureFailed, current.units)))
          else (db, Raised(logged.message))
  }

  method DrawEntitlement(conn: Connection, id: nat, amount: int, user: Id, at: Moment, clientId: Option<Id>,
                         audit: Audit)
    returns (r: Outcome<DrawResult>)
    requires conn.work == conn.durable
    modifies conn
    ensures (conn.durable, r) == Drawn(old(conn.durable), id, amount, user, at, clientId, audit)
    ensures r.Returned? ==> conn.work == conn.durable
  {
    if amount <= 0 {
      return Returned(DrawResult(InvalidAmount, None));
    }
    if id >= |conn.work.entitlements| {
      conn.Rollback();
      return Returned(DrawResult(NotFound, None));
    }
    var row := conn.work.entitlements[id];

    if clientId.Some? {
      var receipt := HasReceipt(conn.work.log, clientId.value);
      var legacy := !receipt && HasLegacyReceipt(conn.work.log, id, at.ts);
      if receipt || legacy {
        var entry := DrawEntry(row, id, Skip, user, at, if legacy then clientId else None);
        var ok := conn.Append(entry, audit);
        if !ok {
          return Raised(Logged(conn.work, entry, audit).message);
        }
        conn.Commit();
        return Returned(DrawResult(DrawSkipped, row.units));
      }
    }

    var units, validFrom := row.units, row.validFrom;
    var reset := ResetIfNewPeriod(units, validFrom, RulesOf(conn.work, row.product), at.day);
    if reset.changed {
      units, validFrom := reset.units, reset.validFrom;
      conn.work := WithRow(conn.work, id, row.(units := units, validFrom := validFrom));
    } else {
      assert WithRow(conn.work, id, row) == conn.work;
    }

    if !row.status.Active? {
      conn.Commit();
      return Returned(DrawResult(Inactive, units));
    }
    if units.None? {
      if clientId.Some? {
        var before := conn.work;
        var entry := DrawEntry(row, id, Skip, user, at, clientId);
        var ok := conn.Append(entry, audit);
        if !ok {
          return Raised(Logged(before, entry, audit).message);
        }
      }
      conn.Commit();
      return Returned(DrawResult(DrawApplied, None));
    }
    if units.value < amount {
      conn.Commit();
      return Returned(DrawResult(InsufficientUnits, units));
    }

    // The decrement and its signature share a savepoint; the reset does not.
    var savepoint := conn.work;
    var left := units.value - amount;
    conn.work := WithRow(conn.work, id, row.(units := Some(left), validFrom := validFrom));
    assert conn.work == WithRow(conn.durable, id, row.(units := Some(left), validFrom := validFrom));
    var before := conn.work;
    var entry := DrawEntry(row, id, Update, user, at, clientId);
    var signed := conn.Append(entry, audit);
    if !signed {
      conn.work := savepoint;
      if !audit.SignatureFails? {
        return Raised(Logged(before, entry, audit).message);
      }
      conn.Commit();
      return Returned(DrawResult(SignatureFailed, units));
    }
    conn.Commit();
    r := Returned(DrawResult(DrawApplied, Some(left)));
  }
}
