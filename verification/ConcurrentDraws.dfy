/** Draws as interleaved transactions: lock the row, look for a receipt, write the
    decrement with its signature, commit. The row lock and the unique index on the
    log's client id are all that orders them. */
module ConcurrentDraws {
  import opened Basics
  import opened Schema
  import opened Engine

  /** What a transaction is about to commit. */
  datatype Plan = Plan(row: Entitlement, entry: Option<LogEntry>, reset: bool, applied: bool)

  datatype Phase =
    | Waiting
    | Locked
    | Checked(replay: bool)
    | Written(plan: Plan)
    | Finished

  datatype Txn = Txn(id: nat, amount: int, user: Id, at: Moment, clientId: Option<Id>, phase: Phase)

  /** Units a period started with and the draws taken from them since. */
  datatype Ledger = Ledger(start: Option<int>, taken: seq<int>)

  /** A committed draw, whether it decremented, and the log position of its entry. */
  datatype Taken = Taken(id: nat, amount: int, clientId: Option<Id>, limited: bool, entry: Option<nat>)

  datatype World = World(db: Db, txns: seq<Txn>, ledgers: seq<Ledger>, history: seq<Taken>)

  function Sum(amounts: seq<int>): int {
    if amounts == [] then 0 else Sum(amounts[..|amounts| - 1]) + amounts[|amounts| - 1]
  }

  predicate HoldsLock(t: Txn) {
    t.phase.Locked? || t.phase.Checked? || t.phase.Written?
  }

  /** The client id an open transaction has put into the unique index. */
  function Claim(t: Txn): Option<Id> {
    if t.phase.Written? && t.phase.plan.entry.Some? then t.phase.plan.entry.value.clientId else None
  }

  /** The writes of a draw that found the row as it is and `replay` in the log. */
  function PlanOf(db: Db, t: Txn, replay: bool): Plan
    requires t.id < |db.entitlements|
  {
    var row := db.entitlements[t.id];
    if replay then
      var claimed := if t.clientId.Some? && HasReceipt(db.log, t.clientId.value) then None else t.clientId;
      Plan(row, Some(DrawEntry(row, t.id, Skip, t.user, t.at, claimed)), false, false)
    else
      var current := Refreshed(db, row, t.at.day);
      var reset := ResetIfNewPeriod(row.units, row.validFrom, RulesOf(db, row.product), t.at.day).changed;
      if !current.status.Active? then Plan(current, None, reset, false)
      else if current.units.None? then
        Plan(current,
             if t.clientId.None? then None else Some(DrawEntry(row, t.id, Skip, t.user, t.at, t.clientId)),
             reset, true)
      else if current.units.value < t.amount then Plan(current, None, reset, false)
      else
        Plan(current.(units := Some(current.units.value - t.amount)),
             Some(DrawEntry(row, t.id, Update, t.user, t.at, t.clientId)), reset, true)
  }

  datatype Step =
    | Begin(txn: Txn)
    | Lock(t: nat)
    | Check(t: nat)
    | Write(t: nat)
    | Commit(t: nat)
    | Abort(t: nat)
    | Sell(row: Entitlement, entry: LogEntry)

  function SetPhase(w: World, t: nat, p: Phase): World
    requires t < |w.txns|
  {
    w.(txns := w.txns[t := w.txns[t].(phase := p)])
  }

  ghost predicate Enabled(w: World, s: Step) {
    match s
    case Begin(txn) => txn.phase.Waiting? && txn.amount > 0
    case Lock(t) =>
      && t < |w.txns| && w.txns[t].phase.Waiting? && w.txns[t].id < |w.db.entitlements|
      && forall u :: 0 <= u < |w.txns| && HoldsLock(w.txns[u]) ==> w.txns[u].id != w.txns[t].id
    case Check(t) => t < |w.txns| && w.txns[t].phase.Locked?
    case Write(t) =>
      // An entry whose client id is in another open transaction waits for it; one
      // whose client id is already committed can only abort.
      && t < |w.txns| && w.txns[t].phase.Checked? && w.txns[t].id < |w.db.entitlements|
      && var entry := PlanOf(w.db, w.txns[t], w.txns[t].phase.replay).entry;
         entry.Some? && entry.value.clientId.Some? ==>
           && !HasReceipt(w.db.log, entry.value.clientId.value)
           && forall u :: 0 <= u < |w.txns| ==> Claim(w.txns[u]) != entry.value.clientId
    case Commit(t) => t < |w.txns| && w.txns[t].phase.Written? && w.txns[t].id < |w.db.entitlements|
    case Abort(t) => t < |w.txns| && !w.txns[t].phase.Finished?
    case Sell(row, entry) =>
      && (row.units.Some? ==> row.units.value >= 0)
      && entry.action == Insert
      && (entry.clientId.Some? ==>
            && !HasReceipt(w.db.log, entry.clientId.value)
            && forall u :: 0 <= u < |w.txns| ==> Claim(w.txns[u]) != entry.clientId)
  }

  /** The committed effect of a plan on the books. */
  function Settle(w: World, t: Txn): World
    requires t.phase.Written? && t.id < |w.db.entitlements| && |w.ledgers| == |w.db.entitlements|
  {
    var p := t.phase.plan;
    var log := if p.entry.None? then w.db.log else w.db.log + [p.entry.value];
    var book := if p.reset then Ledger(AllowanceUnits(RulesOf(w.db, p.row.product)), []) else w.ledgers[t.id];
    var ledger := if p.applied && p.row.units.Some? then book.(taken := book.taken + [t.amount]) else book;
    w.(db := w.db.(entitlements := w.db.entitlements[t.id := p.row], log := log),
       ledgers := w.ledgers[t.id := ledger],
       history := if p.applied
                  then w.history + [Taken(t.id, t.amount, t.clientId, p.row.units.Some?,
                                       if p.entry.None? then None else Some(|w.db.log|))]
                  else w.history)
  }

  function Next(w: World, s: Step): World
    requires Enabled(w, s) && |w.ledgers| == |w.db.entitlements|
  {
    match s
    case Begin(txn) => w.(txns := w.txns + [txn])
    case Lock(t) => SetPhase(w, t, Locked)
    case Check(t) => SetPhase(w, t, Checked(AlreadyDrawn(w.db.log, w.txns[t].id, w.txns[t].at.ts, w.txns[t].clientId)))
    case Write(t) => SetPhase(w, t, Written(PlanOf(w.db, w.txns[t], w.txns[t].phase.replay)))
    case Commit(t) => SetPhase(Settle(w, w.txns[t]), t, Finished)
    case Abort(t) => SetPhase(w, t, Finished)
    case Sell(row, entry) =>
      w.(db := w.db.(entitlements := w.db.entitlements + [row], log := w.db.log + [entry]),
         ledgers := w.ledgers + [Ledger(row.units, [])])
  }

  // ------------------------------------------------------------------
  // Invariant
  // ------------------------------------------------------------------

  /** No product resets to a negative allowance. */
  ghost predicate SaneRules(db: Db) {
    forall p :: p in db.products ==>
      AllowanceUnits(db.products[p]).Some? ==> AllowanceUnits(db.products[p]).value >= 0
  }

  /** Units are never negative and are what the period started with, less what
      was drawn in it. */
  ghost predicate Balanced(w: World) {
    && |w.ledgers| == |w.db.entitlements|
    && forall i :: 0 <= i < |w.ledgers| ==>
         var units := w.db.entitlements[i].units;
         units.Some? ==> units.value >= 0 && w.ledgers[i].start == Some(units.value + Sum(w.ledgers[i].taken))
  }

  /** Log positions at or after `base` that sign a decrement. */
  predicate IsSignature(log: seq<LogEntry>, base: nat, k: nat) {
    base <= k < |log| && log[k].entity == EntitlementEntity && log[k].action == Update
  }

  /** Committed draws and log entries match: a draw with a client id has its own
      entry carrying it, and the signatures are exactly the entries of the
      committed draws that decremented. */
  ghost predicate Signed(w: World, base: nat) {
    && base <= |w.db.log|
    && (forall h :: 0 <= h < |w.history| ==>
          var x := w.history[h];
          && (x.clientId.Some? || x.limited ==> x.entry.Some?)
          && (x.limited ==> IsSignature(w.db.log, base, x.entry.value))
          && (x.entry.Some? ==> base <= x.entry.value < |w.db.log|
                                && w.db.log[x.entry.value].clientId == x.clientId
                                && w.db.log[x.entry.value].record == x.id))
    && (forall g, h :: 0 <= g < h < |w.history| && w.history[g].entry.Some? ==>
          w.history[g].entry != w.history[h].entry)
    && (forall k: nat :: IsSignature(w.db.log, base, k) ==>
          exists h :: 0 <= h < |w.history| && w.history[h].entry == Some(k) && w.history[h].limited)
  }

  /** The transactions in flight respect the lock and the index. */
  ghost predicate Isolated(w: World) {
    && (forall t :: 0 <= t < |w.txns| && HoldsLock(w.txns[t]) ==> w.txns[t].id < |w.db.entitlements|)
    && (forall t, u :: 0 <= t < u < |w.txns| && HoldsLock(w.txns[t]) && HoldsLock(w.txns[u]) ==>
          w.txns[t].id != w.txns[u].id)
    && (forall t, u :: 0 <= t < u < |w.txns| && Claim(w.txns[t]).Some? ==> Claim(w.txns[t]) != Claim(w.txns[u]))
    && (forall t :: 0 <= t < |w.txns| && Claim(w.txns[t]).Some? ==> !HasReceipt(w.db.log, Claim(w.txns[t]).value))
    && (forall t :: 0 <= t < |w.txns| ==> w.txns[t].amount > 0)
  }

  /** What a written plan is worth: it was made from the row that is still there. */
  ghost predicate Faithful(w: World, t: Txn)
    requires t.id < |w.db.entitlements|
  {
    t.phase.Written? ==>
      var p, row := t.phase.plan, w.db.entitlements[t.id];
      var opening := if p.reset then AllowanceUnits(RulesOf(w.db, row.product)) else row.units;
      && p.row.product == row.product
      && (p.row.units.Some? <==> opening.Some?)
      && (p.row.units.Some? ==>
            p.row.units.value >= 0 && p.row.units.value == opening.value - (if p.applied then t.amount else 0))
      && (p.entry.Some? ==>
            && p.entry.value.entity == EntitlementEntity && p.entry.value.record == t.id
            && (p.entry.value.action == Update ==> p.applied && p.row.units.Some?)
            && (p.applied ==> p.entry.value.clientId == t.clientId))
      && (p.applied && t.clientId.Some? ==> p.entry.Some?)
      && (p.applied && p.row.units.Some? ==> p.entry.Some? && p.entry.value.action == Update)
  }

  ghost predicate Inv(w: World, base: nat) {
    && SaneRules(w.db) && UniqueReceipts(w.db.log)
    && Balanced(w) && Isolated(w) && Signed(w, base)
    && forall t :: 0 <= t < |w.txns| && HoldsLock(w.txns[t]) ==> Faithful(w, w.txns[t])
  }

  lemma PlanFaithful(w: World, t: nat, replay: bool)
    requires t < |w.txns| && w.txns[t].id < |w.db.entitlements| && SaneRules(w.db) && Balanced(w)
    requires w.txns[t].amount > 0
    ensures Faithful(w, w.txns[t].(phase := Written(PlanOf(w.db, w.txns[t], replay))))
  {
  }

  lemma SumAppend(taken: seq<int>, amount: int)
    ensures Sum(taken + [amount]) == Sum(taken) + amount
  {
    assert (taken + [amount])[..|taken|] == taken;
  }

  lemma CommitBalances(w: World, t: nat)
    requires Balanced(w) && t < |w.txns| && w.txns[t].phase.Written? && w.txns[t].id < |w.db.entitlements|
    requires Faithful(w, w.txns[t])
    ensures Balanced(Settle(w, w.txns[t]))
  {
    hide AllowanceUnits;
    var p := w.txns[t].phase.plan;
    var book := if p.reset then Ledger(AllowanceUnits(RulesOf(w.db, p.row.product)), []) else w.ledgers[w.txns[t].id];
    SumAppend(book.taken, w.txns[t].amount);
  }

  lemma CommitSigns(w: World, t: nat, base: nat)
    requires Signed(w, base) && |w.ledgers| == |w.db.entitlements|
    requires t < |w.txns| && w.txns[t].phase.Written? && w.txns[t].id < |w.db.entitlements|
    requires Faithful(w, w.txns[t])
    ensures Signed(Settle(w, w.txns[t]), base)
  {
    var after := Settle(w, w.txns[t]);
    assert w.db.log <= after.db.log;
    assert w.history <= after.history;
    forall k: nat | IsSignature(after.db.log, base, k)
      ensures exists h :: 0 <= h < |after.history| && after.history[h].entry == Some(k) && after.history[h].limited
    {
      if k < |w.db.log| {
        assert IsSignature(w.db.log, base, k);
        var h :| 0 <= h < |w.history| && w.history[h].entry == Some(k) && w.history[h].limited;
        assert after.history[h] == w.history[h];
      } else {
        assert after.history[|w.history|].entry == Some(k);
      }
    }
  }

  lemma CommitKeepsOthers(w: World, t: nat)
    requires Isolated(w) && UniqueReceipts(w.db.log) && |w.ledgers| == |w.db.entitlements|
    requires t < |w.txns| && w.txns[t].phase.Written? && w.txns[t].id < |w.db.entitlements|
    ensures var after := SetPhase(Settle(w, w.txns[t]), t, Finished);
            Isolated(after) && UniqueReceipts(after.db.log)
  {
  }

  lemma FaithfulStays(w: World, after: World, txn: Txn)
    requires txn.id < |w.db.entitlements| && Faithful(w, txn)
    requires txn.id < |after.db.entitlements| && after.db.entitlements[txn.id] == w.db.entitlements[txn.id]
    requires after.db.products == w.db.products
    ensures Faithful(after, txn)
  {
  }

  lemma NotWrittenFaithful(w: World, txn: Txn)
    requires txn.id < |w.db.entitlements| && !txn.phase.Written?
    ensures Faithful(w, txn)
  {
  }

  /** A step touches at most its own transaction and, when it commits, its row. */
  lemma OtherTransactions(w: World, s: Step, base: nat, t: nat)
    requires Inv(w, base) && Enabled(w, s)
    requires var after := Next(w, s); t < |after.txns| && HoldsLock(after.txns[t]) && after.txns[t].phase.Written?
    requires !(s.Write? && t == s.t)
    ensures var after := Next(w, s);
            && t < |w.txns| && w.txns[t] == after.txns[t] && after.db.products == w.db.products
            && w.txns[t].id < |w.db.entitlements| && w.txns[t].id < |after.db.entitlements|
            && after.db.entitlements[w.txns[t].id] == w.db.entitlements[w.txns[t].id]
  {
    hide Faithful, Signed, Balanced, SaneRules, PlanOf;
  }

  lemma StepKeepsFaithful(w: World, s: Step, base: nat)
    requires Inv(w, base) && Enabled(w, s)
    ensures var after := Next(w, s);
            forall t :: 0 <= t < |after.txns| && HoldsLock(after.txns[t]) ==>
              after.txns[t].id < |after.db.entitlements| && Faithful(after, after.txns[t])
  {
    hide Faithful, Signed, SaneRules, PlanOf, UniqueReceipts;
    var after := Next(w, s);
    if s.Write? {
      PlanFaithful(w, s.t, w.txns[s.t].phase.replay);
    }
    forall t | 0 <= t < |after.txns| && HoldsLock(after.txns[t])
      ensures after.txns[t].id < |after.db.entitlements| && Faithful(after, after.txns[t])
    {
      if !after.txns[t].phase.Written? {
        NotWrittenFaithful(after, after.txns[t]);
      } else if s.Write? && t == s.t {
        FaithfulStays(w, after, after.txns[t]);
      } else {
        OtherTransactions(w, s, base, t);
        FaithfulStays(w, after, w.txns[t]);
      }
    }
  }

  /** Locking, checking, writing and aborting touch no committed row. */
  lemma LocalStepKeepsBooks(w: World, s: Step, base: nat)
    requires Balanced(w) && Isolated(w) && Signed(w, base) && Enabled(w, s) && !s.Commit? && !s.Sell?
    ensures var after := Next(w, s);
            after.db == w.db && Balanced(after) && Isolated(after) && Signed(after, base)
  {
    LocalStepKeepsIsolated(w, s);
    hide PlanOf, AlreadyDrawn, Sum, IsSignature, Isolated, Enabled, HoldsLock, Claim;
    var after := Next(w, s);
    assert after.db == w.db && after.ledgers == w.ledgers && after.history == w.history;
  }

  lemma LocalStepKeepsIsolated(w: World, s: Step)
    requires |w.ledgers| == |w.db.entitlements| && Isolated(w) && Enabled(w, s) && !s.Commit? && !s.Sell?
    ensures Isolated(Next(w, s))
  {
    hide PlanOf, AlreadyDrawn;
    match s {
      case Begin(txn) =>
        var after := Next(w, s);
        assert forall t :: 0 <= t < |w.txns| ==> after.txns[t] == w.txns[t];
        assert after.txns[|w.txns|] == txn && !HoldsLock(txn) && Claim(txn).None?;
      case Lock(t) => SetPhaseIsolated(w, t, Locked);
      case Check(t) =>
        SetPhaseIsolated(w, t, Checked(AlreadyDrawn(w.db.log, w.txns[t].id, w.txns[t].at.ts, w.txns[t].clientId)));
      case Write(t) => SetPhaseIsolated(w, t, Written(PlanOf(w.db, w.txns[t], w.txns[t].phase.replay)));
      case Abort(t) => SetPhaseIsolated(w, t, Finished);
    }
  }

  lemma SetPhaseIsolated(w: World, t: nat, p: Phase)
    requires Isolated(w) && t < |w.txns|
    requires var moved := w.txns[t].(phase := p);
             && (HoldsLock(moved) ==>
                   && moved.id < |w.db.entitlements|
                   && forall u :: 0 <= u < |w.txns| && u != t && HoldsLock(w.txns[u]) ==> w.txns[u].id != moved.id)
             && (Claim(moved).Some? ==>
                   && !HasReceipt(w.db.log, Claim(moved).value)
                   && forall u :: 0 <= u < |w.txns| && u != t ==> Claim(w.txns[u]) != Claim(moved))
    ensures Isolated(SetPhase(w, t, p))
  {
    hide HasReceipt;
    var moved := w.txns[t].(phase := p);
    var after := SetPhase(w, t, p);
    assert forall u :: 0 <= u < |w.txns| ==> after.txns[u] == if u == t then moved else w.txns[u];
  }

  lemma CommitKeepsBooks(w: World, t: nat, base: nat)
    requires Inv(w, base) && Enabled(w, Commit(t))
    ensures var after := Next(w, Commit(t));
            && Balanced(after) && Isolated(after) && Signed(after, base) && UniqueReceipts(after.db.log)
            && after.db.products == w.db.products
  {
    hide AllowanceUnits, PlanOf, Faithful;
    CommitBalances(w, t);
    CommitSigns(w, t, base);
    CommitKeepsOthers(w, t);
    var settled := Settle(w, w.txns[t]);
    var after := Next(w, Commit(t));
    assert after.db == settled.db && after.history == settled.history && after.ledgers == settled.ledgers;
  }

  /** Every step keeps the invariant. */
  lemma StepKeepsInv(w: World, s: Step, base: nat)
    requires Inv(w, base) && Enabled(w, s)
    ensures Inv(Next(w, s), base)
  {
    StepKeepsFaithful(w, s, base);
    hide Faithful, Enabled, Balanced, Isolated, Signed, UniqueReceipts, SaneRules;
    assert SaneRules(Next(w, s).db) && UniqueReceipts(Next(w, s).db.log) && Balanced(Next(w, s))
        && Isolated(Next(w, s)) && Signed(Next(w, s), base)
    by {
      if s.Commit? {
        CommitKeepsBooks(w, s.t, base);
        SaneRulesByProducts(w.db, Next(w, s).db);
      } else if s.Sell? {
        SellKeepsBooks(w, s.row, s.entry, base);
        SaneRulesByProducts(w.db, Next(w, s).db);
      } else {
        LocalStepKeepsBooks(w, s, base);
      }
    }
  }

  lemma SaneRulesByProducts(d: Db, e: Db)
    requires SaneRules(d) && d.products == e.products
    ensures SaneRules(e)
  {
  }

  lemma SellKeepsBooks(w: World, row: Entitlement, entry: LogEntry, base: nat)
    requires Inv(w, base) && Enabled(w, Sell(row, entry))
    ensures var after := Next(w, Sell(row, entry));
            Balanced(after) && Isolated(after) && Signed(after, base) && UniqueReceipts(after.db.log)
  {
    hide Faithful, AllowanceUnits;
    var after := Next(w, Sell(row, entry));
    assert Sum([]) == 0;
    forall k: nat | IsSignature(after.db.log, base, k)
      ensures exists h :: 0 <= h < |after.history| && after.history[h].entry == Some(k) && after.history[h].limited
    {
      assert IsSignature(w.db.log, base, k);
    }
  }

  // ------------------------------------------------------------------
  // Whole runs
  // ------------------------------------------------------------------

  /** Nobody is drawing yet and the books are open. */
  ghost predicate Opening(w: World) {
    && w.txns == [] && w.history == [] && |w.ledgers| == |w.db.entitlements|
    && SaneRules(w.db) && UniqueReceipts(w.db.log)
    && (forall i :: 0 <= i < |w.ledgers| ==> w.ledgers[i] == Ledger(w.db.entitlements[i].units, []))
    && (forall i :: 0 <= i < |w.ledgers| && w.db.entitlements[i].units.Some? ==> w.db.entitlements[i].units.value >= 0)
  }

  ghost predicate IsTrace(trace: seq<World>, steps: seq<Step>) {
    && |trace| == |steps| + 1
    && forall i :: 0 <= i < |steps| ==>
         && Enabled(trace[i], steps[i]) && |trace[i].ledgers| == |trace[i].db.entitlements|
         && trace[i + 1] == Next(trace[i], steps[i])
  }

  lemma {:induction false} TraceInv(trace: seq<World>, steps: seq<Step>, n: nat)
    requires IsTrace(trace, steps) && Opening(trace[0]) && n < |trace|
    ensures Inv(trace[n], |trace[0].db.log|)
  {
    hide Enabled, Faithful;
    if n == 0 {
      assert Sum([]) == 0;
    } else {
      TraceInv(trace, steps, n - 1);
      StepKeepsInv(trace[n - 1], steps[n - 1], |trace[0].db.log|);
    }
  }

  /** At every moment of every interleaving: units are not negative, no client id
      has drawn twice (not even from different entitlements), each period's units
      are what it started with less what was drawn in it, and the draws that
      decremented are exactly the ones with a signature, one each. */
  lemma DrawsAreSafe(trace: seq<World>, steps: seq<Step>, n: nat)
    requires IsTrace(trace, steps) && Opening(trace[0]) && n < |trace|
    ensures Balanced(trace[n])
    ensures var w := trace[n];
            forall g, h :: 0 <= g < h < |w.history| && w.history[g].clientId.Some? ==>
              w.history[g].clientId != w.history[h].clientId
    ensures var w, base := trace[n], |trace[0].db.log|;
            && (forall k: nat :: IsSignature(w.db.log, base, k) <==>
                  exists h :: 0 <= h < |w.history| && w.history[h].limited && w.history[h].entry == Some(k))
            && (forall g, h :: 0 <= g < h < |w.history| && w.history[g].limited ==>
                  w.history[g].entry != w.history[h].entry)
  {
    TraceInv(trace, steps, n);
    hide Balanced, Isolated, Faithful;
    var w := trace[n];
    forall g, h | 0 <= g < h < |w.history| && w.history[g].clientId.Some?
      ensures w.history[g].clientId != w.history[h].clientId
    {
      if w.history[h].clientId.Some? {
        var i, j := w.history[g].entry.value, w.history[h].entry.value;
        assert i != j && w.db.log[i].clientId == w.history[g].clientId && w.db.log[j].clientId == w.history[h].clientId;
      }
    }
  }

  /** A draw whose four steps run without interruption commits exactly what the
      procedure `draw` commits. */
  lemma UninterruptedIsDraw(w: World, t: nat)
    requires t < |w.txns| && |w.ledgers| == |w.db.entitlements| && w.txns[t].phase.Checked?
    requires w.txns[t].amount > 0 && w.txns[t].id < |w.db.entitlements|
    requires var x := w.txns[t]; x.phase.replay == AlreadyDrawn(w.db.log, x.id, x.at.ts, x.clientId)
    requires Enabled(w, Write(t))
    ensures var x := w.txns[t];
            Next(Next(w, Write(t)), Commit(t)).db == Drawn(w.db, x.id, x.amount, x.user, x.at, x.clientId, Works).0
  {
    hide ResetIfNewPeriod;
    var x := w.txns[t];
    var row := w.db.entitlements[x.id];
    assert w.db.entitlements[x.id := row] == w.db.entitlements;
  }

  /** What such a draw leaves in the books: an applied one is entered once, with its
      amount, its client id and its log entry, and its amount is taken from the period
      it fell into, which is opened afresh with the units of a period if a reset was
      due; any other draw enters nothing. */
  lemma DrawEntersBooks(w: World, t: nat)
    requires t < |w.txns| && |w.ledgers| == |w.db.entitlements| && w.txns[t].phase.Checked?
    requires w.txns[t].amount > 0 && w.txns[t].id < |w.db.entitlements|
    requires var x := w.txns[t]; x.phase.replay == AlreadyDrawn(w.db.log, x.id, x.at.ts, x.clientId)
    requires Enabled(w, Write(t))
    ensures var x, after := w.txns[t], Next(Next(w, Write(t)), Commit(t));
            var outcome := Drawn(w.db, x.id, x.amount, x.user, x.at, x.clientId, Works).1;
            var row := w.db.entitlements[x.id];
            var reset := ResetIfNewPeriod(row.units, row.validFrom, RulesOf(w.db, row.product), x.at.day);
            var book := after.ledgers[x.id];
            && |after.ledgers| == |w.ledgers|
            && (forall i :: 0 <= i < |w.ledgers| && i != x.id ==> after.ledgers[i] == w.ledgers[i])
            && (outcome.Returned? && outcome.result.status.DrawApplied? ==>
                  after.history == w.history + [Taken(x.id, x.amount, x.clientId, outcome.result.remaining.Some?,
                                                      if after.db.log == w.db.log then None else Some(|w.db.log|))])
            && (outcome.Returned? && !outcome.result.status.DrawApplied? ==> after.history == w.history)
            && var taken := if !x.phase.replay && reset.changed then [] else w.ledgers[x.id].taken;
               && (if !x.phase.replay && reset.changed then GrantsUnits(RulesOf(w.db, row.product), book.start)
                   else book.start == w.ledgers[x.id].start)
               && book.taken == if outcome.Returned? && outcome.result.status.DrawApplied?
                                   && outcome.result.remaining.Some? then taken + [x.amount] else taken
  {
    AllowanceMeaning(RulesOf(w.db, w.db.entitlements[w.txns[t].id].product));
    hide ResetIfNewPeriod, HasLegacyReceipt, GrantsUnits, AllowanceUnits;
  }

  /** Nothing but a commit enters the books. */
  lemma OnlyCommitsEnter(w: World, s: Step)
    requires Enabled(w, s) && |w.ledgers| == |w.db.entitlements| && !s.Commit?
    ensures Next(w, s).history == w.history
    ensures w.ledgers <= Next(w, s).ledgers && (!s.Sell? ==> Next(w, s).db == w.db && Next(w, s).ledgers == w.ledgers)
  {
  }
}
