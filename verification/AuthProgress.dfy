/** What logins, restores and revocations bring about when nobody interferes: which
    restore signs its tab in, what a login leaves behind, what a revocation erases. */
module AuthProgress {
  import opened Basics
  import opened Auth

  // ------------------------------------------------------------------
  // Restores
  // ------------------------------------------------------------------

  /** The next turn of a restore. */
  function RestoreTurn(s: System, j: nat): Step
    requires HasRestore(s, j)
  {
    match s.jobs[j].restore
    case Resting => RestoreEnters(j)
    case Reading(_) => RestoreReads(j)
    case Checking(_, _) => RestoreChecks(j)
    case Decrypting(_, _) => RestoreDecrypts(j)
    case Deriving(_, _) => RestoreDerives(j)
    case Sealing(_, _) => RestoreSeals(j)
    case Upgrading(_, _) => RestoreUpgrades(j)
    case Migrating(_, _) => RestorePublishes(j)
    case Deleting(_) => RestoreDeletes(j)
  }

  /** The restore takes its turns, at most `n` of them, and nobody else takes any. */
  function Restoring(s: System, j: nat, n: nat): System
    decreases n
  {
    if n == 0 || !HasRestore(s, j) || !Enabled(s, RestoreTurn(s, j)) then s
    else Restoring(Next(s, RestoreTurn(s, j)), j, n - 1)
  }

  const RESTORE_TURNS := 8

  lemma Unroll(s: System, j: nat, n: nat)
    requires n > 0 && HasRestore(s, j) && Enabled(s, RestoreTurn(s, j))
    ensures Restoring(s, j, n) == Restoring(Next(s, RestoreTurn(s, j)), j, n - 1)
  {
    hide Next, Enabled;
  }

  lemma Ended(s: System, j: nat, n: nat)
    requires j !in s.jobs
    ensures Restoring(s, j, n) == s
  {
  }

  /** A restore that may begin: its tab is where it was, and the lock is free. */
  predicate MayRestore(s: System, j: nat) {
    HasRestore(s, j) && s.jobs[j].restore.Resting? && Live(s, j) && LockFree(s, s.jobs[j])
  }

  lemma Entering(s: System, j: nat, n: nat)
    requires MayRestore(s, j) && n > 0
    ensures Restoring(s, j, n) == Restoring(AtRestore(s, j, Reading(s.marker)), j, n - 1)
  {
    assert Next(s, RestoreEnters(j)) == AtRestore(s, j, Reading(s.marker));
    Unroll(s, j, n);
  }

  lemma Reads(s: System, j: nat, n: nat)
    requires HasRestore(s, j) && s.jobs[j].restore.Reading? && n > 0
    ensures Restoring(s, j, n) == Restoring(AtRestore(s, j, Checking(s.jobs[j].restore.seen, s.tuple)), j, n - 1)
  {
    assert Next(s, RestoreReads(j)) == AtRestore(s, j, Checking(s.jobs[j].restore.seen, s.tuple));
    Unroll(s, j, n);
  }

  lemma Checks(s: System, j: nat, n: nat)
    requires HasRestore(s, j) && s.jobs[j].restore.Checking? && n > 0
    ensures Restoring(s, j, n) == Restoring(RestoreChecked(s, j), j, n - 1)
  {
    hide RestoreChecked;
    assert Next(s, RestoreChecks(j)) == RestoreChecked(s, j);
    Unroll(s, j, n);
  }

  lemma Decrypts(s: System, j: nat, n: nat)
    requires HasRestore(s, j) && s.jobs[j].restore.Decrypting? && n > 0
    ensures Restoring(s, j, n) == Restoring(RestoreDecrypted(s, j), j, n - 1)
  {
    hide RestoreDecrypted;
    assert Next(s, RestoreDecrypts(j)) == RestoreDecrypted(s, j);
    Unroll(s, j, n);
  }

  lemma Derives(s: System, j: nat, n: nat)
    requires HasRestore(s, j) && s.jobs[j].restore.Deriving? && n > 0
    ensures Restoring(s, j, n) == Restoring(RestoreDerived(s, j), j, n - 1)
  {
    hide RestoreDerived;
    assert Next(s, RestoreDerives(j)) == RestoreDerived(s, j);
    Unroll(s, j, n);
  }

  lemma Seals(s: System, j: nat, m: Marker, x: Session, n: nat)
    requires HasRestore(s, j) && s.jobs[j].restore == Sealing(m, x) && RestoreStands(s, j, m, x) && n > 0
    ensures Restoring(s, j, n) == Restoring(AtRestore(s, j, Upgrading(m, x)), j, n - 1)
  {
    hide RestoreStands;
    assert Next(s, RestoreSeals(j)) == AtRestore(s, j, Upgrading(m, x));
    Unroll(s, j, n);
  }

  lemma Upgrades(s: System, j: nat, m: Marker, x: Session, n: nat)
    requires HasRestore(s, j) && s.jobs[j].restore == Upgrading(m, x) && n > 0
    ensures Restoring(s, j, n)
            == Restoring(AtRestore(s, j, Migrating(m, x)).(tuple := Tuple(Holds(x), Some(m))), j, n - 1)
  {
    assert Next(s, RestoreUpgrades(j)) == AtRestore(s, j, Migrating(m, x)).(tuple := Tuple(Holds(x), Some(m)));
    Unroll(s, j, n);
  }

  lemma Publishes(s: System, j: nat, n: nat)
    requires HasRestore(s, j) && s.jobs[j].restore.Migrating? && n > 0
    ensures Restoring(s, j, n) == RestorePublished(s, j)
  {
    hide RestoreStands;
    var over := Next(s, RestorePublishes(j));
    assert over == RestorePublished(s, j) && j !in over.jobs;
    Unroll(s, j, n);
    Ended(over, j, n - 1);
  }

  lemma Deletes(s: System, j: nat, n: nat)
    requires HasRestore(s, j) && s.jobs[j].restore.Deleting? && n > 0
    ensures Restoring(s, j, n) == Done(s, j).(tuple := DeletedIfOwnedBy(s.tuple, s.jobs[j].restore.owner))
  {
    hide DeletedIfOwnedBy;
    var over := Next(s, RestoreDeletes(j));
    assert over == Done(s, j).(tuple := DeletedIfOwnedBy(s.tuple, s.jobs[j].restore.owner)) && j !in over.jobs;
    Unroll(s, j, n);
    Ended(over, j, n - 1);
  }

  /** A phase after a phase: the second one stands. */
  lemma Rephased(s: System, j: nat, p: RestorePhase, q: RestorePhase)
    requires HasRestore(s, j)
    ensures HasRestore(AtRestore(s, j, p), j)
    ensures AtRestore(AtRestore(s, j, p), j, q) == AtRestore(s, j, q)
    ensures Done(AtRestore(s, j, p), j) == Done(s, j)
    ensures Live(AtRestore(s, j, p), j) == Live(s, j)
  {
    assert (s.jobs[j := s.jobs[j].(restore := p)])[j := s.jobs[j].(restore := q)] ==
           s.jobs[j := s.jobs[j].(restore := q)];
    assert s.jobs[j := s.jobs[j].(restore := p)] - {j} == s.jobs - {j};
  }

  lemma ReadsPair(s: System, j: nat)
    requires MayRestore(s, j)
    ensures Restoring(s, j, RESTORE_TURNS) ==
            Restoring(AtRestore(s, j, Checking(s.marker, s.tuple)), j, RESTORE_TURNS - 2)
  {
    hide Restoring, LockFree;
    Entering(s, j, RESTORE_TURNS);
    Rephased(s, j, Reading(s.marker), Checking(s.marker, s.tuple));
    Reads(AtRestore(s, j, Reading(s.marker)), j, RESTORE_TURNS - 1);
  }

  /** The tab's last login has gone. */
  predicate SignedOut(tab: Tab, before: Tab) {
    tab.session.None? && tab.active.None? && tab.dataOwner.None? && tab.generation == before.generation + 1
  }

  /** The tab holds the session under its marker, in a lifecycle of its own. */
  predicate SignedIn(tab: Tab, before: Tab, m: Marker, x: Session) {
    && tab.session.Some? && tab.session.value.token == x.token && tab.session.value.expires == x.expires
    && tab.session.value.scope.Matching? && tab.active == Some(m)
    && tab.generation == before.generation + 1 && tab.dataOwner == Some(tab.generation)
  }

  /** The restore is over; tabs, jobs and clocks of others are as they were. */
  predicate OverFor(s: System, r: System, j: nat)
    requires HasRestore(s, j)
  {
    && r.jobs == s.jobs - {j} && r.now == s.now && r.locks == s.locks && r.next == s.next
    && r.issued == s.issued && r.tokens == s.tokens && r.published == s.published && r.revoked == s.revoked
    && |r.tabs| == |s.tabs| && forall t :: 0 <= t < |s.tabs| && t != s.jobs[j].tab ==> r.tabs[t] == s.tabs[t]
  }

  /** No marker: whatever tuple there is goes, and the tab is signed out. */
  lemma NoMarkerRestore(s: System, j: nat)
    requires MayRestore(s, j) && s.marker.None?
    ensures var r, t := Restoring(s, j, RESTORE_TURNS), s.jobs[j].tab;
            OverFor(s, r, j) && SignedOut(r.tabs[t], s.tabs[t]) && r.marker.None? && r.tuple == NO_TUPLE
  {
    hide Restoring, LockFree, Next, Enabled;
    ReadsPair(s, j);
    var phase, t := Checking(s.marker, s.tuple), s.jobs[j].tab;
    Checks(AtRestore(s, j, phase), j, RESTORE_TURNS - 2);
    Rephased(s, j, phase, Deleting(s.tuple.owner));
    var out := WithTab(s, t, Invalidated(s.tabs[t]));
    Rephased(out, j, phase, Deleting(s.tuple.owner));
    Deletes(AtRestore(out, j, Deleting(s.tuple.owner)), j, RESTORE_TURNS - 3);
  }

  /** A tuple of another owner: nothing happens. */
  lemma TornRestore(s: System, j: nat)
    requires MayRestore(s, j) && s.marker.Some? && s.tuple.owner != s.marker
    ensures var r := Restoring(s, j, RESTORE_TURNS); OverFor(s, r, j) && r == s.(jobs := r.jobs)
  {
    hide Restoring, LockFree, Next, Enabled;
    ReadsPair(s, j);
    var phase := Checking(s.marker, s.tuple);
    Checks(AtRestore(s, j, phase), j, RESTORE_TURNS - 2);
    Rephased(s, j, phase, Resting);
    Ended(Done(s, j), j, RESTORE_TURNS - 3);
  }

  /** The state in which a worthless login is being erased. */
  function Erasing(s: System, j: nat, m: Marker): System
    requires HasRestore(s, j)
  {
    var t := s.jobs[j].tab;
    AtRestore(WithTab(s, t, Invalidated(s.tabs[t])), j, Deleting(Some(m))).(marker := None)
  }

  lemma DiscardedIsErasing(s: System, j: nat, m: Marker, p: RestorePhase)
    requires HasRestore(s, j) && s.marker == Some(m)
    ensures HasRestore(AtRestore(s, j, p), j) && Discarded(AtRestore(s, j, p), j, m) == Erasing(s, j, m)
  {
    var t := s.jobs[j].tab;
    Rephased(WithTab(s, t, Invalidated(s.tabs[t])), j, p, Deleting(Some(m)));
  }

  lemma Erased(s: System, j: nat, m: Marker, n: nat)
    requires HasRestore(s, j) && s.tuple.owner == Some(m) && n > 0
    ensures var r, t := Restoring(Erasing(s, j, m), j, n), s.jobs[j].tab;
            OverFor(s, r, j) && SignedOut(r.tabs[t], s.tabs[t]) && r.marker.None? && r.tuple == NO_TUPLE
  {
    hide Restoring, LockFree, Next, Enabled;
    Deletes(Erasing(s, j, m), j, n);
    var t := s.jobs[j].tab;
    Rephased(WithTab(s, t, Invalidated(s.tabs[t])), j, Deleting(Some(m)), Resting);
  }

  /** The session under the marker can be used: it is readable, unexpired, and its
      stored scope is not another one's. */
  predicate Usable(tuple: Tuple, now: int) {
    tuple.sealed.Holds? && tuple.sealed.session.expires > now && !tuple.sealed.session.scope.Mismatched?
  }

  /** A marker with its own tuple, and something in it, is decrypted. */
  lemma ToDecrypting(s: System, j: nat, m: Marker)
    requires MayRestore(s, j) && s.marker == Some(m) && s.tuple.owner == Some(m) && !s.tuple.sealed.NoSession?
    ensures Restoring(s, j, RESTORE_TURNS)
            == Restoring(AtRestore(s, j, Decrypting(m, s.tuple.sealed)), j, RESTORE_TURNS - 3)
  {
    hide Restoring, LockFree, Next, Enabled;
    ReadsPair(s, j);
    var phase := Checking(s.marker, s.tuple);
    Checks(AtRestore(s, j, phase), j, RESTORE_TURNS - 2);
    Rephased(s, j, phase, Decrypting(m, s.tuple.sealed));
  }

  /** A session that can be read and has not expired gets its scope compared. */
  lemma ToDeriving(s: System, j: nat, m: Marker)
    requires MayRestore(s, j) && s.marker == Some(m) && s.tuple.owner == Some(m)
    requires s.tuple.sealed.Holds? && s.tuple.sealed.session.expires > s.now
    ensures Restoring(s, j, RESTORE_TURNS)
            == Restoring(AtRestore(s, j, Deriving(m, s.tuple.sealed.session)), j, RESTORE_TURNS - 4)
  {
    hide Restoring, LockFree, Next, Enabled;
    ToDecrypting(s, j, m);
    var phase := Decrypting(m, s.tuple.sealed);
    Decrypts(AtRestore(s, j, phase), j, RESTORE_TURNS - 3);
    Rephased(s, j, phase, Deriving(m, s.tuple.sealed.session));
  }

  lemma WorthlessRestore(s: System, j: nat, m: Marker)
    requires MayRestore(s, j) && s.marker == Some(m) && s.tuple.owner == Some(m) && !Usable(s.tuple, s.now)
    ensures var r, t := Restoring(s, j, RESTORE_TURNS), s.jobs[j].tab;
            OverFor(s, r, j) && SignedOut(r.tabs[t], s.tabs[t]) && r.marker.None? && r.tuple == NO_TUPLE
  {
    hide Restoring, LockFree, Next, Enabled, Discarded, Erasing, OverFor, SignedOut;
    var checking, decrypting := Checking(s.marker, s.tuple), Decrypting(m, s.tuple.sealed);
    if s.tuple.sealed.NoSession? {
      ReadsPair(s, j);
      Rephased(s, j, checking, Resting);
      Checks(AtRestore(s, j, checking), j, RESTORE_TURNS - 2);
      DiscardedIsErasing(s, j, m, checking);
      Erased(s, j, m, RESTORE_TURNS - 3);
    } else if !s.tuple.sealed.Holds? || s.tuple.sealed.session.expires <= s.now {
      ToDecrypting(s, j, m);
      Rephased(s, j, decrypting, Resting);
      Decrypts(AtRestore(s, j, decrypting), j, RESTORE_TURNS - 3);
      DiscardedIsErasing(s, j, m, decrypting);
      Erased(s, j, m, RESTORE_TURNS - 4);
    } else {
      var deriving := Deriving(m, s.tuple.sealed.session);
      ToDeriving(s, j, m);
      Derives(AtRestore(s, j, deriving), j, RESTORE_TURNS - 4);
      DiscardedIsErasing(s, j, m, deriving);
      Erased(s, j, m, RESTORE_TURNS - 5);
    }
  }

  lemma Commits(s: System, j: nat, m: Marker, x: Session, n: nat)
    requires HasRestore(s, j) && Live(s, j) && s.marker == Some(m) && x.expires > s.now && x.scope.Matching? && n > 0
    ensures var r, t := Restoring(AtRestore(s, j, Migrating(m, x)), j, n), s.jobs[j].tab;
            && OverFor(s, r, j) && SignedIn(r.tabs[t], s.tabs[t], m, x) && r.marker == s.marker && r.tuple == s.tuple
  {
    hide Restoring, LockFree, Next, Enabled;
    Rephased(s, j, Migrating(m, x), Resting);
    Publishes(AtRestore(s, j, Migrating(m, x)), j, n);
  }

  lemma UsableRestore(s: System, j: nat, m: Marker)
    requires MayRestore(s, j) && s.marker == Some(m) && s.tuple.owner == Some(m) && Usable(s.tuple, s.now)
    ensures var r, t, x := Restoring(s, j, RESTORE_TURNS), s.jobs[j].tab, s.tuple.sealed.session;
            && OverFor(s, r, j) && SignedIn(r.tabs[t], s.tabs[t], m, x) && r.marker == Some(m)
            && r.tuple == Tuple(Holds(x.(scope := Matching)), Some(m))
  {
    hide Restoring, LockFree, Next, Enabled, OverFor;
    var x := s.tuple.sealed.session;
    ToDeriving(s, j, m);
    Derives(AtRestore(s, j, Deriving(m, x)), j, RESTORE_TURNS - 4);
    if x.scope.Matching? {
      Rephased(s, j, Deriving(m, x), Migrating(m, x));
      Commits(s, j, m, x, RESTORE_TURNS - 5);
      assert x.(scope := Matching) == x;
    } else {
      var y := x.(scope := Matching);
      Rephased(s, j, Deriving(m, x), Sealing(m, y));
      UpgradedRestore(s, j, m, y);
    }
  }

  /** A session stored before scopes existed is sealed again with its scope. */
  lemma UpgradedRestore(s: System, j: nat, m: Marker, y: Session)
    requires HasRestore(s, j) && Live(s, j) && s.marker == Some(m) && y.expires > s.now && y.scope.Matching?
    ensures var r, t := Restoring(AtRestore(s, j, Sealing(m, y)), j, RESTORE_TURNS - 5), s.jobs[j].tab;
            && OverFor(s, r, j) && SignedIn(r.tabs[t], s.tabs[t], m, y) && r.marker == Some(m)
            && r.tuple == Tuple(Holds(y), Some(m))
  {
    hide Restoring, LockFree, Next, Enabled;
    var upgraded := s.(tuple := Tuple(Holds(y), Some(m)));
    Rephased(s, j, Sealing(m, y), Upgrading(m, y));
    Seals(AtRestore(s, j, Sealing(m, y)), j, m, y, RESTORE_TURNS - 5);
    Rephased(s, j, Upgrading(m, y), Migrating(m, y));
    Upgrades(AtRestore(s, j, Upgrading(m, y)), j, m, y, RESTORE_TURNS - 6);
    Commits(upgraded, j, m, y, RESTORE_TURNS - 7);
  }

  /** A restore that may begin and is left alone always comes to its end, and signs its
      tab in exactly when the shared marker has a tuple of its own that holds a usable
      session: with that session's token, under that marker, as the current owner of
      the local data. With the marker's own tuple worthless, the login is erased; with
      no marker, a leftover tuple is; either signs the tab out. A tuple of another
      owner is left alone, and so is the tab. */
  lemma RestoreOutcome(s: System, j: nat)
    requires MayRestore(s, j)
    ensures var r, t := Restoring(s, j, RESTORE_TURNS), s.jobs[j].tab;
            && OverFor(s, r, j)
            && if s.marker.Some? && s.tuple.owner == s.marker && Usable(s.tuple, s.now) then
                 var x := s.tuple.sealed.session;
                 && SignedIn(r.tabs[t], s.tabs[t], s.marker.value, x)
                 && r.marker == s.marker && r.tuple == Tuple(Holds(x.(scope := Matching)), s.marker)
                 && Token(r.tabs[t], r.marker, r.now) == Some(x.token) && OwnerIsCurrent(r.tabs[t], r.marker, r.now)
               else if s.marker.Some? && s.tuple.owner != s.marker then r == s.(jobs := r.jobs)
               else SignedOut(r.tabs[t], s.tabs[t]) && r.marker.None? && r.tuple == NO_TUPLE
  {
    hide Restoring, LockFree, Next, Enabled;
    if s.marker.None? {
      NoMarkerRestore(s, j);
    } else if s.tuple.owner != s.marker {
      TornRestore(s, j);
    } else if Usable(s.tuple, s.now) {
      UsableRestore(s, j, s.marker.value);
    } else {
      WorthlessRestore(s, j, s.marker.value);
    }
  }

  /** A restore whose tab has moved on to another lifecycle, or that reaches its last
      turn after marker, lifecycle or expiry have changed, leaves the tab alone. */
  lemma LateRestoreYields(s: System, j: nat)
    requires HasRestore(s, j) && s.jobs[j].restore.Migrating?
    ensures var job, x := s.jobs[j], s.jobs[j].restore.session;
            var stands := s.tabs[job.tab].generation == job.generation && s.marker == Some(job.restore.marker)
                          && x.expires > s.now;
            var r := Next(s, RestorePublishes(j));
            && r.jobs == s.jobs - {j} && r.marker == s.marker && r.tuple == s.tuple
            && r.tabs == if stands
                         then s.tabs[job.tab := Tab(Some(x), job.generation + 1, Some(job.restore.marker),
                                                    Some(job.generation + 1))]
                         else s.tabs
  {
    assert s.tabs[s.jobs[j].tab := s.tabs[s.jobs[j].tab]] == s.tabs;
  }

  /** The turns of a restore left alone are a run of its own turns. */
  lemma {:induction false} RestoringIsARun(s: System, j: nat, n: nat) returns (steps: seq<Step>)
    ensures Leads(s, steps, Restoring(s, j, n)) && forall i :: 0 <= i < |steps| ==> Mover(steps[i]) == Some(j)
    decreases n
  {
    hide Next, Enabled;
    if n == 0 || !HasRestore(s, j) || !Enabled(s, RestoreTurn(s, j)) {
      return [];
    }
    var turn := RestoreTurn(s, j);
    var rest := RestoringIsARun(Next(s, turn), j, n - 1);
    LeadsThrough(s, turn, Next(s, turn), rest, Restoring(s, j, n));
    steps := [turn] + rest;
  }

  /** The marker a restore goes by. */
  function Seen(job: Job): Option<Marker> {
    match job
    case Restore(_, _, Reading(seen)) => seen
    case Restore(_, _, Checking(seen, _)) => seen
    case Restore(_, _, Decrypting(m, _)) => Some(m)
    case Restore(_, _, Deriving(m, _)) => Some(m)
    case Restore(_, _, Sealing(m, _)) => Some(m)
    case Restore(_, _, Upgrading(m, _)) => Some(m)
    case Restore(_, _, Migrating(m, _)) => Some(m)
    case _ => None
  }

  /** The login a restore has in hand, with the marker it is held under. */
  function Found(job: Job): Option<(Marker, Id, int)> {
    if job.Restore? && Carried(job).Some?
    then Some((Carried(job).value.0, Carried(job).value.1.token, Carried(job).value.1.expires)) else None
  }

  /** The shared tuple holds that login. */
  predicate TupleHolds(tuple: Tuple, login: (Marker, Id, int)) {
    && tuple.owner == Some(login.0) && tuple.sealed.Holds?
    && tuple.sealed.session.token == login.1 && tuple.sealed.session.expires == login.2
  }

  /** The first half of a restore's turns. */
  predicate ReadingTurn(step: Step) {
    step.RestoreEnters? || step.RestoreReads? || step.RestoreChecks? || step.RestoreDecrypts?
  }

  lemma SeenReadingTurn(s: System, step: Step, j: nat)
    requires Enabled(s, step) && Mover(step) == Some(j) && ReadingTurn(step)
    requires j in Next(s, step).jobs && Seen(Next(s, step).jobs[j]).Some?
    ensures var seen := Seen(Next(s, step).jobs[j]);
            (step == RestoreEnters(j) && s.marker == seen) || (j in s.jobs && Seen(s.jobs[j]) == seen)
  {
    hide LockFree, Invalidated, Without, DeletedIfOwnedBy, PublishedTab, Unexpired, Live, RestoreStands;
  }

  lemma SeenLaterTurn(s: System, step: Step, j: nat)
    requires Enabled(s, step) && Mover(step) == Some(j) && !LoginTurn(step) && !ReadingTurn(step)
    requires j in Next(s, step).jobs && Seen(Next(s, step).jobs[j]).Some?
    ensures j in s.jobs && Seen(s.jobs[j]) == Seen(Next(s, step).jobs[j])
  {
    hide LockFree, Invalidated, Without, DeletedIfOwnedBy, PublishedTab, Unexpired, Live, RestoreStands;
  }

  lemma FoundReadingTurn(s: System, step: Step, j: nat)
    requires Enabled(s, step) && Mover(step) == Some(j) && ReadingTurn(step)
    requires j in Next(s, step).jobs && Found(Next(s, step).jobs[j]).Some?
    ensures var found := Found(Next(s, step).jobs[j]);
            (step == RestoreReads(j) && TupleHolds(s.tuple, found.value)) || (j in s.jobs && Found(s.jobs[j]) == found)
  {
    hide LockFree, Invalidated, Without, DeletedIfOwnedBy, PublishedTab, Unexpired, Live, RestoreStands;
  }

  lemma FoundLaterTurn(s: System, step: Step, j: nat)
    requires Enabled(s, step) && Mover(step) == Some(j) && !LoginTurn(step) && !ReadingTurn(step)
    requires j in Next(s, step).jobs && Found(Next(s, step).jobs[j]).Some?
    ensures j in s.jobs && Found(s.jobs[j]) == Found(Next(s, step).jobs[j])
  {
    hide LockFree, Invalidated, Without, DeletedIfOwnedBy, PublishedTab, Unexpired, Live, RestoreStands;
  }

  lemma LoginsSeeNothing(s: System, step: Step)
    requires Enabled(s, step) && LoginTurn(step) && Mover(step).Some? && Mover(step).value in Next(s, step).jobs
    ensures !Next(s, step).jobs[Mover(step).value].Restore?
  {
    hide LockFree, Invalidated, Without, DeletedIfOwnedBy, PublishedTab, Unexpired, Live, RestoreStands;
  }

  lemma OwnTurn(s: System, step: Step, j: nat)
    requires Enabled(s, step) && Mover(step) == Some(j) && !LoginTurn(step) && j in Next(s, step).jobs
    ensures var seen := Seen(Next(s, step).jobs[j]);
            seen.Some? ==> (step == RestoreEnters(j) && s.marker == seen) || (j in s.jobs && Seen(s.jobs[j]) == seen)
    ensures var found := Found(Next(s, step).jobs[j]);
            found.Some? ==> (step == RestoreReads(j) && TupleHolds(s.tuple, found.value))
                            || (j in s.jobs && Found(s.jobs[j]) == found)
  {
    hide Next, Enabled, LoginTurn, TupleHolds, Seen, Found, ReadingTurn;
    if Seen(Next(s, step).jobs[j]).Some? {
      if ReadingTurn(step) {
        SeenReadingTurn(s, step, j);
      } else {
        SeenLaterTurn(s, step, j);
      }
    }
    if Found(Next(s, step).jobs[j]).Some? {
      if ReadingTurn(step) {
        FoundReadingTurn(s, step, j);
      } else {
        FoundLaterTurn(s, step, j);
      }
    }
  }

  lemma SeenTurn(s: System, step: Step, j: nat)
    requires Enabled(s, step) && j in Next(s, step).jobs
    ensures var seen := Seen(Next(s, step).jobs[j]);
            seen.Some? ==> (step == RestoreEnters(j) && s.marker == seen) || (j in s.jobs && Seen(s.jobs[j]) == seen)
    ensures var found := Found(Next(s, step).jobs[j]);
            found.Some? ==> (step == RestoreReads(j) && TupleHolds(s.tuple, found.value))
                            || (j in s.jobs && Found(s.jobs[j]) == found)
  {
    hide Next, Enabled, LoginTurn, TupleHolds;
    TurnsApart(s, step);
    if Mover(step) == Some(j) {
      if LoginTurn(step) {
        LoginsSeeNothing(s, step);
      } else {
        OwnTurn(s, step, j);
      }
    }
  }

  ghost predicate SawMarker(states: seq<System>, steps: seq<Step>, k: nat, j: nat, m: Option<Marker>)
    requires k <= |steps| && |states| == |steps| + 1
  {
    exists e :: 0 <= e < k && steps[e] == RestoreEnters(j) && states[e].marker == m
  }

  ghost predicate SawTuple(states: seq<System>, steps: seq<Step>, k: nat, j: nat, login: (Marker, Id, int))
    requires k <= |steps| && |states| == |steps| + 1
  {
    exists r :: 0 <= r < k && steps[r] == RestoreReads(j) && TupleHolds(states[r].tuple, login)
  }

  /** What a restore goes by is what it read in turns of its own. */
  lemma {:induction false} SeenEarlier(states: seq<System>, steps: seq<Step>, k: nat, j: nat)
    requires Execution(states, steps) && states[0].jobs == map[] && k <= |steps| && j in states[k].jobs
    ensures Seen(states[k].jobs[j]).Some? ==> SawMarker(states, steps, k, j, Seen(states[k].jobs[j]))
    ensures Found(states[k].jobs[j]).Some? ==> SawTuple(states, steps, k, j, Found(states[k].jobs[j]).value)
    decreases k
  {
    hide Enabled, Next, Seen, Found, TupleHolds;
    var s, step := states[k - 1], steps[k - 1];
    assert Enabled(s, step) && states[k] == Next(s, step);
    SeenTurn(s, step, j);
    if j in s.jobs {
      SeenEarlier(states, steps, k - 1, j);
      SawEarlier(states, steps, k - 1, j, Seen(states[k].jobs[j]), Found(states[k].jobs[j]));
    }
  }

  lemma SawEarlier(states: seq<System>, steps: seq<Step>, k: nat, j: nat, m: Option<Marker>,
                   login: Option<(Marker, Id, int)>)
    requires k < |steps| && |states| == |steps| + 1
    ensures SawMarker(states, steps, k, j, m) ==> SawMarker(states, steps, k + 1, j, m)
    ensures login.Some? && SawTuple(states, steps, k, j, login.value) ==>
              SawTuple(states, steps, k + 1, j, login.value)
  {
    hide TupleHolds;
    if SawMarker(states, steps, k, j, m) {
      var e :| 0 <= e < k && steps[e] == RestoreEnters(j) && states[e].marker == m;
      assert 0 <= e < k + 1;
    }
    if login.Some? && SawTuple(states, steps, k, j, login.value) {
      var r :| 0 <= r < k && steps[r] == RestoreReads(j) && TupleHolds(states[r].tuple, login.value);
      assert 0 <= r < k + 1;
    }
  }

  /** In any run, whatever else goes on in it, a restore that signs its tab in has read
      the marker and that marker's own tuple in turns of its own, and publishes the
      session it found there, while the marker stands and the session is unexpired. */
  lemma PublishedWasRead(states: seq<System>, steps: seq<Step>, k: nat, j: nat)
    requires Execution(states, steps) && states[0].jobs == map[] && k < |steps| && steps[k] == RestorePublishes(j)
    requires states[k + 1].tabs != states[k].tabs
    ensures j in states[k].jobs && states[k].jobs[j].tab < |states[k + 1].tabs|
    ensures var s, tab := states[k], states[k + 1].tabs[states[k].jobs[j].tab];
            && tab.session.Some? && tab.active.Some? && s.marker == tab.active && tab.session.value.expires > s.now
            && SawMarker(states, steps, k, j, tab.active)
            && SawTuple(states, steps, k, j, (tab.active.value, tab.session.value.token, tab.session.value.expires))
  {
    hide SawMarker, SawTuple;
    SeenEarlier(states, steps, k, j);
    assert Enabled(states[k], steps[k]) && states[k + 1] == Next(states[k], steps[k]);
    LateRestoreYields(states[k], j);
    hide Next;
  }

  /** A restore whose tab has moved on to another lifecycle touches that tab in one case
      only: it finds the scope of the stored session forged, and signs the tab out
      without looking whether it is still its own. Otherwise it takes its turns in vain. */
  lemma LateRestoreTouches(s: System, j: nat, step: Step)
    requires HasRestore(s, j) && !Live(s, j) && Enabled(s, step) && Mover(step) == Some(j) && !LoginTurn(step)
    ensures Next(s, step).tabs != s.tabs <==> step == RestoreDerives(j) && s.jobs[j].restore.session.scope.Mismatched?
    ensures Next(s, step).tabs != s.tabs ==>
              var t := s.jobs[j].tab;
              && |Next(s, step).tabs| == |s.tabs| && SignedOut(Next(s, step).tabs[t], s.tabs[t])
              && forall u :: 0 <= u < |s.tabs| && u != t ==> Next(s, step).tabs[u] == s.tabs[u]
  {
    hide LockFree;
    var t := s.jobs[j].tab;
    assert Invalidated(s.tabs[t]) != s.tabs[t];
    assert s.tabs[t := Invalidated(s.tabs[t])][t] == Invalidated(s.tabs[t]);
  }

  /** A restore that found no marker leaves everything alone if there is one by the time
      it looks again. */
  lemma NewMarkerSpared(s: System, j: nat)
    requires HasRestore(s, j) && s.jobs[j].restore.Checking? && s.jobs[j].restore.seen.None? && s.marker.Some?
    ensures Next(s, RestoreChecks(j)) == s.(jobs := s.jobs - {j})
  {
  }

  // ------------------------------------------------------------------
  // Logins
  // ------------------------------------------------------------------

  /** A login from its start to its publication, with the server's answer. */
  function LoggedIn(s: System, t: nat, j: nat, k: nat, x: Session): seq<Step> {
    [StartLogin(t, j), LoginObserves(j), LoginAnswers(j, x), LoginEnters(j), LoginMarks(j), LoginWrites(j),
     LoginPublishes(j, k)]
  }

  /** Nobody is in the critical section that this tab would have to wait for. */
  predicate LockFreeFor(s: System, t: nat) {
    forall k :: k in s.jobs && InLock(s.jobs[k]) ==> !s.locks && s.jobs[k].tab != t
  }

  /** The login `j` of tab `t` in that phase, in the tab's present lifecycle. */
  function InLogin(s: System, t: nat, j: nat, phase: LoginPhase): System
    requires t < |s.tabs|
  {
    WithJob(s, j, Login(t, s.tabs[t].generation, phase))
  }

  lemma InLoginAgain(s: System, t: nat, j: nat, p: LoginPhase, q: LoginPhase)
    requires t < |s.tabs|
    ensures HasLogin(InLogin(s, t, j, p), j) && AtLogin(InLogin(s, t, j, p), j, q) == InLogin(s, t, j, q)
    ensures j !in s.jobs ==> Done(InLogin(s, t, j, p), j) == s
  {
    assert j !in s.jobs ==> s.jobs[j := Login(t, s.tabs[t].generation, p)] - {j} == s.jobs;
  }

  lemma Starts(s: System, t: nat, j: nat)
    requires t < |s.tabs| && j !in s.jobs
    ensures var begun := WithTab(s, t, s.tabs[t].(generation := s.tabs[t].generation + 1));
            Enabled(s, StartLogin(t, j)) && Next(s, StartLogin(t, j)) == InLogin(begun, t, j, Waiting)
  {
  }

  lemma Observes(s: System, t: nat, j: nat)
    requires t < |s.tabs|
    ensures var waiting := InLogin(s, t, j, Waiting);
            && Enabled(waiting, LoginObserves(j))
            && Next(waiting, LoginObserves(j)) == InLogin(s, t, j, Requesting(s.marker))
  {
    InLoginAgain(s, t, j, Waiting, Requesting(s.marker));
  }

  lemma Answers(s: System, t: nat, j: nat, x: Session)
    requires t < |s.tabs| && x.token !in s.tokens && x.scope.Matching? && x.expires > s.now
    ensures var requesting := InLogin(s, t, j, Requesting(s.marker));
            && Enabled(requesting, LoginAnswers(j, x))
            && Next(requesting, LoginAnswers(j, x))
               == InLogin(s.(tokens := s.tokens + {x.token}), t, j, Answered(s.marker, x))
  {
    InLoginAgain(s, t, j, Requesting(s.marker), Answered(s.marker, x));
  }

  lemma Enters(s: System, t: nat, j: nat, x: Session)
    requires t < |s.tabs| && j !in s.jobs && LockFreeFor(s, t)
    ensures var answered := InLogin(s, t, j, Answered(s.marker, x));
            && Enabled(answered, LoginEnters(j))
            && Next(answered, LoginEnters(j)) == InLogin(s, t, j, Preparing(s.marker, x))
  {
    InLoginAgain(s, t, j, Answered(s.marker, x), Preparing(s.marker, x));
    assert LockFree(InLogin(s, t, j, Answered(s.marker, x)), Login(t, s.tabs[t].generation, Answered(s.marker, x)));
  }

  /** The tab between the marking of its login and its publication. */
  function Marked(s: System, t: nat, x: Session): System
    requires t < |s.tabs|
  {
    WithTab(s, t, s.tabs[t].(session := None, active := None, dataOwner := None))
    .(marker := Some(s.next), next := s.next + 1, issued := s.issued[s.next := x])
  }

  lemma Marks(s: System, t: nat, j: nat, x: Session)
    requires t < |s.tabs| && x.expires > s.now
    ensures var preparing := InLogin(s, t, j, Preparing(s.marker, x));
            && Enabled(preparing, LoginMarks(j))
            && Next(preparing, LoginMarks(j)) == InLogin(Marked(s, t, x), t, j, Writing(s.next, x))
  {
    InLoginAgain(s, t, j, Preparing(s.marker, x), Writing(s.next, x));
    assert Next(InLogin(s, t, j, Preparing(s.marker, x)), LoginMarks(j))
        == LoginMarked(InLogin(s, t, j, Preparing(s.marker, x)), j);
    hide Next, Enabled;
  }

  lemma Writes(s: System, t: nat, j: nat, m: Marker, x: Session)
    requires t < |s.tabs|
    ensures var writing := InLogin(s, t, j, Writing(m, x));
            && Enabled(writing, LoginWrites(j))
            && Next(writing, LoginWrites(j)) == InLogin(s.(tuple := Tuple(Holds(x), Some(m))), t, j, Written(m, x))
  {
    InLoginAgain(s, t, j, Writing(m, x), Written(m, x));
  }

  /** The tab of the published login holds it in the lifecycle it began. */
  function Published(s: System, t: nat, m: Marker, x: Session): System
    requires t < |s.tabs|
  {
    var g := s.tabs[t].generation;
    WithTab(s, t, Tab(Some(x), g, Some(m), Some(g))).(published := s.published + {m})
  }

  lemma PublishesLogin(s: System, t: nat, j: nat, k: nat, m: Marker, x: Session)
    requires t < |s.tabs| && j !in s.jobs && k !in s.jobs && k != j && s.marker == Some(m)
    ensures var written := InLogin(s, t, j, Written(m, x));
            && Enabled(written, LoginPublishes(j, k))
            && Next(written, LoginPublishes(j, k)) == Published(s, t, m, x)
  {
    InLoginAgain(s, t, j, Written(m, x), Waiting);
  }

  lemma {:induction false} LeadsThrough(s: System, step: Step, middle: System, rest: seq<Step>, r: System)
    requires Enabled(s, step) && Next(s, step) == middle && Leads(middle, rest, r)
    ensures Leads(s, [step] + rest, r)
  {
    hide Enabled, Next;
    assert ([step] + rest)[1..] == rest;
  }

  /** The login's turns under the lock. */
  lemma PublishesMarked(s: System, t: nat, j: nat, k: nat, x: Session) returns (r: System)
    requires t < |s.tabs| && j !in s.jobs && k !in s.jobs && k != j && x.expires > s.now
    ensures Leads(InLogin(s, t, j, Preparing(s.marker, x)), [LoginMarks(j), LoginWrites(j), LoginPublishes(j, k)], r)
    ensures r == Published(Marked(s, t, x).(tuple := Tuple(Holds(x), Some(s.next))), t, s.next, x)
  {
    hide Next, Enabled, InLogin, Marked, Published;
    var m := s.next;
    var marked := Marked(s, t, x);
    MarkedShape(s, t, x);
    var sealed := marked.(tuple := Tuple(Holds(x), Some(m)));
    Marks(s, t, j, x);
    Writes(marked, t, j, m, x);
    PublishesLogin(sealed, t, j, k, m, x);
    r := Published(sealed, t, m, x);
    Leads3(InLogin(s, t, j, Preparing(s.marker, x)), LoginMarks(j), LoginWrites(j), LoginPublishes(j, k), r);
  }

  lemma MarkedShape(s: System, t: nat, x: Session)
    requires t < |s.tabs|
    ensures var r := Marked(s, t, x);
            |r.tabs| == |s.tabs| && r.jobs == s.jobs && r.marker == Some(s.next) && r.now == s.now
  {
  }

  /** A login that is answered with an unexpired session and left alone signs its tab
      in under a new marker, in the place of whatever marker and tuple were there. */
  lemma LoginOutcome(s: System, t: nat, j: nat, k: nat, x: Session) returns (r: System)
    requires t < |s.tabs| && j !in s.jobs && k !in s.jobs && k != j && LockFreeFor(s, t)
    requires x.token !in s.tokens && x.scope.Matching? && x.expires > s.now
    ensures Leads(s, LoggedIn(s, t, j, k, x), r)
    ensures |r.tabs| == |s.tabs| && forall u :: 0 <= u < |s.tabs| && u != t ==> r.tabs[u] == s.tabs[u]
    ensures r.marker == Some(s.next) && r.tuple == Tuple(Holds(x), Some(s.next)) && r.next == s.next + 1
    ensures SignedIn(r.tabs[t], s.tabs[t], s.next, x) && r.jobs == s.jobs
    ensures Token(r.tabs[t], r.marker, r.now) == Some(x.token) && OwnerIsCurrent(r.tabs[t], r.marker, r.now)
    ensures r.published == s.published + {s.next} && r.revoked == s.revoked && r.now == s.now && r.locks == s.locks
  {
    var begun := WithTab(s, t, s.tabs[t].(generation := s.tabs[t].generation + 1));
    var told := begun.(tokens := s.tokens + {x.token});
    assert LockFreeFor(told, t);
    hide Next, Enabled, InLogin, LockFreeFor;
    Starts(s, t, j);
    Observes(begun, t, j);
    Answers(begun, t, j, x);
    Enters(told, t, j, x);
    r := PublishesMarked(told, t, j, k, x);
    var locked := [LoginMarks(j), LoginWrites(j), LoginPublishes(j, k)];
    LoginLeads(s, begun, told, t, j, x, locked, r);
    assert LoggedIn(s, t, j, k, x) == [StartLogin(t, j), LoginObserves(j), LoginAnswers(j, x), LoginEnters(j)] + locked;
  }

  lemma LoginLeads(s: System, begun: System, told: System, t: nat, j: nat, x: Session, locked: seq<Step>, r: System)
    requires t < |s.tabs| && |begun.tabs| == |told.tabs| == |s.tabs| && told.marker == begun.marker
    requires Enabled(s, StartLogin(t, j)) && Next(s, StartLogin(t, j)) == InLogin(begun, t, j, Waiting)
    requires var waiting := InLogin(begun, t, j, Waiting);
             Enabled(waiting, LoginObserves(j))
             && Next(waiting, LoginObserves(j)) == InLogin(begun, t, j, Requesting(begun.marker))
    requires var requesting := InLogin(begun, t, j, Requesting(begun.marker));
             Enabled(requesting, LoginAnswers(j, x))
             && Next(requesting, LoginAnswers(j, x)) == InLogin(told, t, j, Answered(told.marker, x))
    requires var answered := InLogin(told, t, j, Answered(told.marker, x));
             Enabled(answered, LoginEnters(j))
             && Next(answered, LoginEnters(j)) == InLogin(told, t, j, Preparing(told.marker, x))
    requires Leads(InLogin(told, t, j, Preparing(told.marker, x)), locked, r)
    ensures Leads(s, [StartLogin(t, j), LoginObserves(j), LoginAnswers(j, x), LoginEnters(j)] + locked, r)
  {
    hide Enabled, Next, InLogin, Leads;
    var entered := [LoginEnters(j)] + locked;
    var answered := [LoginAnswers(j, x)] + entered;
    var observed := [LoginObserves(j)] + answered;
    LeadsThrough(InLogin(told, t, j, Answered(told.marker, x)), LoginEnters(j),
                 InLogin(told, t, j, Preparing(told.marker, x)), locked, r);
    LeadsThrough(InLogin(begun, t, j, Requesting(begun.marker)), LoginAnswers(j, x),
                 InLogin(told, t, j, Answered(told.marker, x)), entered, r);
    LeadsThrough(InLogin(begun, t, j, Waiting), LoginObserves(j),
                 InLogin(begun, t, j, Requesting(begun.marker)), answered, r);
    LeadsThrough(s, StartLogin(t, j), InLogin(begun, t, j, Waiting), observed, r);
    assert [StartLogin(t, j)] + observed
        == [StartLogin(t, j), LoginObserves(j), LoginAnswers(j, x), LoginEnters(j)] + locked;
  }

  // ------------------------------------------------------------------
  // Revocations
  // ------------------------------------------------------------------

  /** A logout signs its tab out at once, and the cleanup it queues, left alone, takes
      its own login's marker and tuple away and no other's. */
  lemma LogoutErases(s: System, t: nat, j: nat)
    requires t < |s.tabs| && j !in s.jobs && LockFreeFor(s, t)
    ensures Enabled(s, Logout(t, j))
    ensures var out := Next(s, Logout(t, j));
            && SignedOut(out.tabs[t], s.tabs[t]) && Token(out.tabs[t], out.marker, out.now).None?
            && Enabled(out, CleanupEnters(j)) && Enabled(Next(out, CleanupEnters(j)), CleanupDeletes(j))
            && var r := Next(Next(out, CleanupEnters(j)), CleanupDeletes(j));
               && r.tabs == out.tabs && r.jobs == s.jobs
               && r.marker == (if s.marker == s.tabs[t].active then None else s.marker)
               && r.tuple == (if s.tuple.owner == s.tabs[t].active then NO_TUPLE else s.tuple)
  {
    var out := Next(s, Logout(t, j));
    assert out.jobs == s.jobs[j := Cleanup(t, s.tabs[t].active, false)];
    var entered := Next(out, CleanupEnters(j));
    assert entered.jobs == s.jobs[j := Cleanup(t, s.tabs[t].active, true)];
    assert Next(entered, CleanupDeletes(j)).jobs == s.jobs;
  }

  /** A 401 signs the tab out exactly if it answers a request of the tab's present
      login: same lifecycle and same token. */
  lemma UnauthorizedMeaning(s: System, t: nat, snapshot: Snapshot, j: nat)
    requires t < |s.tabs| && j !in s.jobs
    ensures var r := Next(s, Unauthorized(t, snapshot, j));
            var tab := s.tabs[t];
            if tab.session.Some? && snapshot == Snapshot(Some(tab.session.value.token), tab.generation)
            then r == Next(s, Logout(t, j)) else r == s
  {
  }

  /** Nothing in the protocol holds the world back: at any moment time may pass, the store
      be damaged, a tab closed and opened again, and a login or, without a current one, a
      restore begin. */
  lemma WorldIsFree(s: System, t: nat, j: nat, later: int, sealed: Sealed)
    ensures later >= s.now ==> Enabled(s, Tick(later)) && Next(s, Tick(later)) == s.(now := later)
    ensures !sealed.Holds? ==>
              Enabled(s, Corrupt(sealed)) && Next(s, Corrupt(sealed)) == s.(tuple := Tuple(sealed, s.tuple.owner))
    ensures t < |s.tabs| ==>
              && Enabled(s, Reopen(t)) && |Next(s, Reopen(t)).tabs| == |s.tabs|
              && SignedOut(Next(s, Reopen(t)).tabs[t], s.tabs[t])
              && forall k :: k in Next(s, Reopen(t)).jobs <==> k in s.jobs && s.jobs[k].tab != t
    ensures t < |s.tabs| && j !in s.jobs ==>
              && Enabled(s, StartLogin(t, j))
              && (!OwnerIsCurrent(s.tabs[t], s.marker, s.now) ==>
                    && Enabled(s, StartRestore(t, j))
                    && Next(s, StartRestore(t, j))
                       == s.(jobs := s.jobs[j := Restore(t, s.tabs[t].generation, Resting)]))
  {
  }

  /** What goes on elsewhere ends a login, too: a removed marker that was the tab's own,
      and the discovery that the shared marker is no longer the tab's. */
  lemma ExternalEvents(s: System, t: nat, removed: Option<Marker>)
    requires t < |s.tabs|
    ensures var r, tab := Next(s, ExternalRemoval(t, removed)), s.tabs[t];
            && r == s.(tabs := r.tabs) && |r.tabs| == |s.tabs|
            && (forall u :: 0 <= u < |s.tabs| && u != t ==> r.tabs[u] == s.tabs[u])
            && if removed.Some? && tab.active == removed then SignedOut(r.tabs[t], tab) else r.tabs[t] == tab
    ensures var r, tab := Next(s, ExternalInvalidation(t)), s.tabs[t];
            && r == s.(tabs := r.tabs) && |r.tabs| == |s.tabs|
            && (forall u :: 0 <= u < |s.tabs| && u != t ==> r.tabs[u] == s.tabs[u])
            && if tab.session.Some? && (tab.active.None? || s.marker != tab.active) then SignedOut(r.tabs[t], tab)
               else r.tabs[t] == tab
  {
  }

  /** A login whose scope cannot be told signs its tab out; an error in a restore or a
      cleanup, and a refused login, end the job and nothing else. */
  lemma DroppedJobs(s: System, j: nat, step: Step)
    requires Enabled(s, step) && step in {LoginUnscoped(j), LoginRefused(j), RestoreErrors(j), CleanupErrors(j)}
    ensures var r := Next(s, step);
            && r == s.(jobs := s.jobs - {j}, tabs := r.tabs) && |r.tabs| == |s.tabs|
            && forall t :: 0 <= t < |s.tabs| ==>
                 if step.LoginUnscoped? && t == s.jobs[j].tab then SignedOut(r.tabs[t], s.tabs[t])
                 else r.tabs[t] == s.tabs[t]
  {
    hide LockFree;
  }

  /** The cleanup `k` of marker `m`, queued by tab `t`, with nothing else changed but
      login `j`, which has failed. */
  predicate GivenUp(s: System, r: System, j: nat, k: nat, m: Marker, stale: bool)
    requires HasLogin(s, j)
  {
    && r == s.(jobs := r.jobs, revoked := s.revoked + {m})
    && r.jobs == s.jobs[j := Login(s.jobs[j].tab, s.jobs[j].generation, Failed(stale))]
                       [k := Cleanup(s.jobs[j].tab, Some(m), false)]
  }

  /** A login that has marked itself and then fails queues its own cleanup; before that
      there is nothing to clean up. */
  lemma FailingLoginQueuesCleanup(s: System, j: nat, k: nat)
    requires Enabled(s, LoginErrors(j, k))
    ensures var r, login := Next(s, LoginErrors(j, k)), s.jobs[j].login;
            if login.Writing? || login.Written? then GivenUp(s, r, j, k, login.marker, false)
            else r == s.(jobs := s.jobs[j := Login(s.jobs[j].tab, s.jobs[j].generation, Failed(false))])
  {
    hide LockFree;
  }

  /** A login is published exactly if its tab is still in the lifecycle it began and its
      marker is still the shared one; otherwise it is given up as stale. */
  lemma PublishedIff(s: System, j: nat, k: nat)
    requires Enabled(s, LoginPublishes(j, k))
    ensures var r, job, x := Next(s, LoginPublishes(j, k)), s.jobs[j], s.jobs[j].login.session;
            if s.tabs[job.tab].generation == job.generation && s.marker == Some(job.login.marker) then
              && r.jobs == s.jobs - {j} && r.published == s.published + {job.login.marker}
              && r == s.(jobs := r.jobs, tabs := r.tabs, published := r.published)
              && r.tabs == s.tabs[job.tab := Tab(Some(x), job.generation, Some(job.login.marker), Some(job.generation))]
            else GivenUp(s, r, j, k, job.login.marker, true)
  {
    hide LockFree;
  }

  /** The cleanup of a login that was given up, left alone, erases what the login had
      shared, and nobody else's marker or tuple. */
  lemma GivenUpErases(s: System, r: System, j: nat, k: nat, m: Marker, stale: bool)
    requires HasLogin(s, j) && k !in s.jobs && k != j && GivenUp(s, r, j, k, m, stale)
    requires forall n :: n in s.jobs && n != j && InLock(s.jobs[n]) ==> !s.locks && s.jobs[n].tab != s.jobs[j].tab
    ensures Enabled(r, CleanupEnters(k)) && Enabled(Next(r, CleanupEnters(k)), CleanupDeletes(k))
    ensures var after := Next(Next(r, CleanupEnters(k)), CleanupDeletes(k));
            && after.tabs == s.tabs && after.jobs.Keys == s.jobs.Keys
            && after.marker == (if s.marker == Some(m) then None else s.marker)
            && after.tuple == (if s.tuple.owner == Some(m) then NO_TUPLE else s.tuple)
  {
    assert LockFree(r, r.jobs[k]);
    var entered := Next(r, CleanupEnters(k));
    assert entered.jobs == r.jobs[k := Cleanup(s.jobs[j].tab, Some(m), true)];
    hide LockFree;
    assert Next(entered, CleanupDeletes(k)).jobs == r.jobs - {k};
  }

  /** A login goes on after each await exactly if its tab is still in its lifecycle, the
      marker it observed is still the shared one, and its session is unexpired, where
      these are asked. */
  lemma LoginProceedsIff(s: System, j: nat, x: Session)
    requires HasLogin(s, j)
    ensures var job, login := s.jobs[j], s.jobs[j].login;
            var current := s.tabs[job.tab].generation == job.generation;
            && (login.Waiting? ==>
                  var r := Next(s, LoginObserves(j));
                  j in r.jobs && r.jobs[j] == Login(job.tab, job.generation, Requesting(s.marker)) <==> current)
            && (login.Requesting? && x.token !in s.tokens && x.scope.Matching? ==>
                  var r := Next(s, LoginAnswers(j, x));
                  j in r.jobs && r.jobs[j] == Login(job.tab, job.generation, Answered(login.observed, x))
                  <==> current && x.expires > s.now)
            && (login.Answered? && LockFree(s, job) ==>
                  var r := Next(s, LoginEnters(j));
                  j in r.jobs && r.jobs[j] == Login(job.tab, job.generation, Preparing(login.observed, login.session))
                  <==> current && s.marker == login.observed)
            && (login.Preparing? ==>
                  var r := Next(s, LoginMarks(j));
                  j in r.jobs && r.jobs[j] == Login(job.tab, job.generation, Writing(s.next, login.session))
                  <==> current && s.marker == login.observed && login.session.expires > s.now)
  {
    hide LockFree;
  }

  /** A login that fails signs its tab out if it failed by itself, and leaves it alone
      if it was overtaken. */
  lemma GivingUpMeaning(s: System, j: nat)
    requires HasLogin(s, j) && s.jobs[j].login.Failed?
    ensures var r, t := Next(s, LoginGivesUp(j)), s.jobs[j].tab;
            && r.jobs == s.jobs - {j} && r.marker == s.marker && r.tuple == s.tuple
            && if !s.jobs[j].login.stale && s.tabs[t].generation == s.jobs[j].generation
               then SignedOut(r.tabs[t], s.tabs[t]) else r.tabs == s.tabs
  {
  }

  // ------------------------------------------------------------------
  // A tab that is closed and opened again
  // ------------------------------------------------------------------

  const LOCKED := System(None, NO_TUPLE, [SIGNED_OUT], map[], 0, true, 0, {}, map[], {}, {})

  lemma Reopened(s: System, j: nat)
    requires |s.tabs| == 1 && s.jobs == map[]
    ensures Enabled(s, Reopen(0)) && Enabled(Next(s, Reopen(0)), StartRestore(0, j))
    ensures var reopened := Next(s, Reopen(0));
            && |reopened.tabs| == 1 && SignedOut(reopened.tabs[0], s.tabs[0])
            && var resting := Next(reopened, StartRestore(0, j));
               && MayRestore(resting, j) && resting.jobs[j].tab == 0 && |resting.tabs| == 1
               && resting.marker == s.marker && resting.tuple == s.tuple && resting.now == s.now
  {
    assert JobsOutside(s, 0) == map[];
    assert Next(s, Reopen(0)).jobs == map[];
  }

  /** From the very beginning: a login, the tab closed and opened again, and a restore
      that signs it in with the token of that login. */
  lemma ReopenedTabSignsIn() returns (r: System, back: System)
    ensures Initial(LOCKED) && Leads(LOCKED, LoggedIn(LOCKED, 0, 0, 1, OLDER), r)
    ensures Enabled(r, Reopen(0)) && Enabled(Next(r, Reopen(0)), StartRestore(0, 2))
    ensures |Next(r, Reopen(0)).tabs| == |back.tabs| == 1
    ensures Next(r, Reopen(0)).tabs[0].session.None?
    ensures back == Restoring(Next(Next(r, Reopen(0)), StartRestore(0, 2)), 2, RESTORE_TURNS)
    ensures Token(back.tabs[0], back.marker, back.now) == Some("a")
  {
    hide Restoring, LockFree, Next, Enabled, LoggedIn, Leads;
    r := LoginOutcome(LOCKED, 0, 0, 1, OLDER);
    Reopened(r, 2);
    var resting := Next(Next(r, Reopen(0)), StartRestore(0, 2));
    RestoreOutcome(resting, 2);
    back := Restoring(resting, 2, RESTORE_TURNS);
  }
}
