/** What a batch costs: one answer per action, one log entry per acknowledged
    action, and nothing at all for a rejected one but a reset that was due. */
module Accounting {
  import opened Basics
  import opened Schema
  import opened Rbac
  import opened Mapping
  import opened Dedup
  import opened Resolution
  import opened Service
  import Engine

  function Acknowledgements(results: seq<ActionResult>): nat {
    if results == [] then 0
    else Acknowledgements(results[..|results| - 1]) + (if results[|results| - 1].status.Rejected? then 0 else 1)
  }

  /** The only thing a rejected draw may leave behind. */
  ghost predicate OnlyDueReset(db: Db, after: Db, a: Action) {
    && IsDraw(a.body) && EntitlementExists(db, a.body.entitlement.value)
    && var id := a.body.entitlement.value.id;
       after == Engine.WithRow(db, id, Engine.Refreshed(db, db.entitlements[id], a.at.day))
  }

  ghost predicate Accounted(db: Db, after: Db, a: Action, r: ActionResult) {
    && r.clientId == a.clientId && r.entity == a.body.EntityName()
    && if r.status.Rejected? then after.log == db.log && (after == db || OnlyDueReset(db, after, a))
       else |after.log| == |db.log| + 1 && db.log <= after.log
  }

  lemma AuditedAccounted(db: Db, changed: Db, entry: LogEntry, audit: Audit, a: Action, answer: ActionResult)
    requires changed.log == db.log && !answer.status.Rejected?
    requires answer.clientId == a.clientId && answer.entity == a.body.EntityName()
    ensures var r := Audited(db, changed, entry, audit, answer);
            Accounted(db, r.0, a, if r.1.Returned? then r.1.result else Reject(a, r.1.message))
  {
  }

  lemma DrawAccounted(db: Db, a: Action, user: Id, audit: Audit)
    requires IsDraw(a.body) && EntitlementExists(db, a.body.entitlement.value)
    ensures var id := a.body.entitlement.value.id;
            var drawn := Engine.Drawn(db, id, a.body.amount.value, user, a.at, Some(a.clientId), audit);
            Accounted(db, drawn.0, a, if drawn.1.Returned? then DrawAnswer(a, id, drawn.1.result.status)
                                      else Reject(a, drawn.1.message))
  {
    hide Engine.ResetIfNewPeriod;
  }

  lemma PlayerAccounted(db: Db, s: Scope, a: Action, user: Id, audit: Audit)
    requires a.body.PlayerBody?
    ensures var r := PlayerApplied(db, s, a, user, audit);
            Accounted(db, r.0, a, if r.1.Returned? then r.1.result else Reject(a, r.1.message))
  {
    hide Slug, Resolved, Accounted, Audited;
    var (location, school) := Stamp(s, a.body.location, a.body.school);
    RejectionAccounted(db, a);
    if location.Some? && Resolved(db.players, [PlayerCandidate(a)], location.value, db.known).Returned? {
      var run := Resolved(db.players, [PlayerCandidate(a)], location.value, db.known).result;
      if a.clientId in run.1.resolved && run.1.resolved[a.clientId] < |run.0| {
        var id := run.1.resolved[a.clientId];
        var isNew := id in run.1.created;
        AuditedAccounted(db, db.(players := WithSchool(run.0, id, school)),
                         Entry(PlayerEntity, id, if isNew then Insert else Skip, location.value, user, a), audit, a,
                         Answer(a, if isNew then Applied else Skipped, Some(id)));
      }
    }
  }

  lemma RejectionAccounted(db: Db, a: Action)
    ensures forall reason :: Accounted(db, db, a, Reject(a, reason))
  {
  }

  lemma ConsentAccounted(db: Db, s: Scope, a: Action, user: Id, audit: Audit)
    requires a.body.ConsentBody?
    ensures var r := ConsentApplied(db, s, a, user, audit);
            Accounted(db, r.0, a, if r.1.Returned? then r.1.result else Reject(a, r.1.message))
  {
    hide OnlyDueReset;
  }

  lemma EntitlementAccounted(db: Db, s: Scope, a: Action, user: Id, audit: Audit)
    requires a.body.EntitlementBody?
    ensures var r := EntitlementApplied(db, s, a, user, audit);
            Accounted(db, r.0, a, if r.1.Returned? then r.1.result else Reject(a, r.1.message))
  {
    hide Engine.DeriveWindow, OnlyDueReset;
    if IsDraw(a.body) {
      hide Engine.Drawn;
      if EntitlementExists(db, a.body.entitlement.value) {
        DrawAccounted(db, a, user, audit);
      }
    }
  }

  lemma NaturalAccounted(db: Db, s: Scope, a: Action, user: Id, audit: Audit)
    requires IsNatural(a.body.EntityName())
    ensures var r := NaturalApplied(db, s, a, user, audit);
            Accounted(db, r.0, a, if r.1.Returned? then r.1.result else Reject(a, r.1.message))
  {
    hide Slug, NaturalKey, IdentityOf, PrefersIncoming, OnlyDueReset, Insertable, NewRecord, EditedRecord;
    RefusalAccounted(db, s, a);
  }

  lemma RefusalAccounted(db: Db, s: Scope, a: Action)
    requires IsNatural(a.body.EntityName())
    ensures var refusal := NaturalRefusal(db, s, a);
            refusal.Some? && refusal.value.Returned? ==>
              refusal.value.result == Reject(a, refusal.value.result.reason)
  {
  }

  /** One action. */
  lemma ActionAccounted(db: Db, s: Scope, a: Action, user: Id, audit: Audit)
    ensures var r := Served(db, s, a, user, audit);
            Accounted(db, r.0, a, r.1)
  {
    hide PlayerApplied, ConsentApplied, EntitlementApplied, NaturalApplied, OnlyDueReset;
    if a.body.PlayerBody? {
      PlayerAccounted(db, s, a, user, audit);
    } else if a.body.ConsentBody? {
      ConsentAccounted(db, s, a, user, audit);
    } else if a.body.EntitlementBody? {
      EntitlementAccounted(db, s, a, user, audit);
    } else if !a.body.UnknownBody? {
      NaturalAccounted(db, s, a, user, audit);
    }
  }

  /** A whole batch: answers in order, and as many log entries as actions that
      were applied or skipped. */
  lemma {:induction false} BatchAccounted(db: Db, s: Scope, actions: seq<Action>, user: Id, audits: seq<Audit>)
    requires |audits| == |actions|
    ensures var (after, results) := BatchApplied(db, s, actions, user, audits);
            && |results| == |actions|
            && (forall i :: 0 <= i < |actions| ==>
                  results[i].clientId == actions[i].clientId && results[i].entity == actions[i].body.EntityName())
            && |after.log| == |db.log| + Acknowledgements(results)
            && db.log <= after.log
    decreases |actions|
  {
    hide Served;
    if actions != [] {
      var n := |actions| - 1;
      BatchAccounted(db, s, actions[..n], user, audits[..n]);
      var before := BatchApplied(db, s, actions[..n], user, audits[..n]);
      ActionAccounted(before.0, s, actions[n], user, audits[n]);
      var last := Served(before.0, s, actions[n], user, audits[n]);
      assert (before.1 + [last.1])[..n] == before.1;
    }
  }
}
