/** The auth lifecycle across tabs: one marker and one sealed session tuple shared
    by all, and in each tab a manager whose every await lets the others run. */
module Auth {
  import opened Basics

  // ------------------------------------------------------------------
  // State
  // ------------------------------------------------------------------

  /** Random marker ids are taken to be fresh, so a counter supplies them. */
  type Marker = nat

  /** The scope field a stored session carries, against the one its claims give. */
  datatype StoredScope = Unscoped | Matching | Mismatched

  datatype Session = Session(token: Id, expires: int, scope: StoredScope)

  /** What a read of the sealed tuple can find. */
  datatype Sealed = NoSession | Garbled | Holds(session: Session)

  datatype Tuple = Tuple(sealed: Sealed, owner: Option<Marker>)

  const NO_TUPLE := Tuple(NoSession, None)

  /** A manager's own fields. `dataOwner` is the generation its local-data
      capability was published under. */
  datatype Tab = Tab(session: Option<Session>, generation: nat, active: Option<Marker>, dataOwner: Option<nat>)

  datatype LoginPhase =
    | Waiting
    | Requesting(observed: Option<Marker>)
    | Answered(observed: Option<Marker>, session: Session)
    | Preparing(observed: Option<Marker>, session: Session)
    | Writing(marker: Marker, session: Session)
    | Written(marker: Marker, session: Session)
    | Failed(stale: bool)

  datatype RestorePhase =
    | Resting
    | Reading(seen: Option<Marker>)
    | Checking(seen: Option<Marker>, tuple: Tuple)
    | Decrypting(marker: Marker, sealed: Sealed)
    | Deriving(marker: Marker, session: Session)
    | Sealing(marker: Marker, session: Session)
    | Upgrading(marker: Marker, session: Session)
    | Migrating(marker: Marker, session: Session)
    | Deleting(owner: Option<Marker>)

  /** Work in flight, stopped at an await. */
  datatype Job =
    | Login(tab: nat, generation: nat, login: LoginPhase)
    | Restore(tab: nat, generation: nat, restore: RestorePhase)
    | Cleanup(tab: nat, expected: Option<Marker>, entered: bool)

  /** `locks` says whether Web Locks are available. `issued`, `published` and
      `revoked` are history: the session each marker was made for, the markers
      whose login completed, and those whose removal has been asked for. */
  datatype System = System(
    marker: Option<Marker>,
    tuple: Tuple,
    tabs: seq<Tab>,
    jobs: map<nat, Job>,
    now: int,
    locks: bool,
    next: Marker,
    tokens: set<Id>,
    issued: map<Marker, Session>,
    published: set<Marker>,
    revoked: set<Marker>)

  // ------------------------------------------------------------------
  // Synchronous operations
  // ------------------------------------------------------------------

  function Invalidated(tab: Tab): Tab {
    Tab(None, tab.generation + 1, None, None)
  }

  /** `removeSessionMarker`: compare and remove. */
  function Without(marker: Option<Marker>, expected: Option<Marker>): Option<Marker> {
    if marker == expected then None else marker
  }

  /** `deleteAuthMetadataIfOwnedBy`. */
  function DeletedIfOwnedBy(tuple: Tuple, expected: Option<Marker>): Tuple {
    if tuple.owner == expected then NO_TUPLE else tuple
  }

  function Unexpired(s: Session, now: int): bool {
    s.expires > now
  }

  /** `getToken`. */
  function Token(tab: Tab, marker: Option<Marker>, now: int): Option<Id> {
    if tab.session.None? || tab.active.None? || marker != tab.active then None
    else if Unexpired(tab.session.value, now) then Some(tab.session.value.token) else None
  }

  /** The published capability is still the tab's, and its login still current. */
  predicate OwnerIsCurrent(tab: Tab, marker: Option<Marker>, now: int) {
    && tab.session.Some? && tab.dataOwner == Some(tab.generation)
    && Unexpired(tab.session.value, now) && tab.active.Some? && marker == tab.active
  }

  datatype Snapshot = Snapshot(token: Option<Id>, generation: nat)

  /** A 401 revokes only the very lifecycle its request was sent under. */
  predicate Concerns(tab: Tab, snapshot: Option<Snapshot>) {
    snapshot.Some? ==>
      && snapshot.value.token.Some? && snapshot.value.generation == tab.generation
      && tab.session.Some? && snapshot.value.token == Some(tab.session.value.token)
  }

  function PublishedTab(m: Marker, session: Session, generation: nat): Tab {
    Tab(Some(session), generation, Some(m), Some(generation))
  }

  // ------------------------------------------------------------------
  // The manager as an object
  // ------------------------------------------------------------------

  /** localStorage, shared by every tab. */
  class SharedMarker {
    var current: Option<Marker>
    constructor () ensures current == None { current := None; }
  }

  class AuthManager {
    const shared: SharedMarker
    var session: Option<Session>
    var lifecycleGeneration: nat
    var activeSessionMarker: Option<Marker>
    var localDataOwner: Option<nat>
    /** Owners whose cleanup has been queued behind `pendingRevocation`. */
    var queued: seq<Option<Marker>>

    ghost function View(): Tab
      reads this
    {
      Tab(session, lifecycleGeneration, activeSessionMarker, localDataOwner)
    }

    constructor (storage: SharedMarker)
      ensures shared == storage && View() == Tab(None, 0, None, None) && queued == []
    {
      shared := storage;
      session, lifecycleGeneration, activeSessionMarker, localDataOwner := None, 0, None, None;
      queued := [];
    }

    method GetToken(now: int) returns (token: Option<Id>)
      ensures token == Token(View(), shared.current, now)
    {
      if session.None? || activeSessionMarker.None? || shared.current != activeSessionMarker {
        return None;
      }
      token := if session.value.expires > now then Some(session.value.token) else None;
    }

    method GetAuthRequestSnapshot(now: int) returns (snapshot: Snapshot)
      ensures snapshot == Snapshot(Token(View(), shared.current, now), View().generation)
    {
      var token := GetToken(now);
      snapshot := Snapshot(token, lifecycleGeneration);
    }

    method InvalidateLocalLifecycle()
      modifies this
      ensures View() == Invalidated(old(View())) && queued == old(queued)
    {
      lifecycleGeneration := lifecycleGeneration + 1;
      session := None;
      localDataOwner := None;
      activeSessionMarker := None;
    }

    method QueuePersistedSessionCleanup(expected: Option<Marker>)
      modifies this`queued
      ensures queued == old(queued) + [expected]
    {
      queued := queued + [expected];
    }

    method RevokePersistedSession()
      modifies this
      ensures View() == Invalidated(old(View()))
      ensures queued == old(queued) + [old(View()).active]
    {
      var expected := activeSessionMarker;
      InvalidateLocalLifecycle();
      QueuePersistedSessionCleanup(expected);
    }

    method HandleUnauthorized(snapshot: Option<Snapshot>) returns (revoked: bool)
      modifies this
      ensures revoked == Concerns(old(View()), snapshot)
      ensures View() == if revoked then Invalidated(old(View())) else old(View())
      ensures queued == if revoked then old(queued) + [old(View()).active] else old(queued)
    {
      if snapshot.Some?
         && (snapshot.value.token.None? || snapshot.value.generation != lifecycleGeneration
             || session.None? || snapshot.value.token != Some(session.value.token)) {
        return false;
      }
      RevokePersistedSession();
      revoked := true;
    }

    method Logout()
      modifies this
      ensures View() == Invalidated(old(View())) && queued == old(queued) + [old(View()).active]
    {
      var _ := HandleUnauthorized(None);
    }

    method HandleExternalMarkerRemoval(removed: Option<Marker>) returns (invalidated: bool)
      modifies this
      ensures invalidated <==> removed.Some? && removed == old(View()).active
      ensures View() == if invalidated then Invalidated(old(View())) else old(View())
      ensures queued == old(queued)
    {
      if removed.None? || removed != activeSessionMarker {
        return false;
      }
      InvalidateLocalLifecycle();
      invalidated := true;
    }

    method HandleExternalMarkerInvalidation() returns (invalidated: bool)
      modifies this
      ensures invalidated <==> old(View()).session.Some?
                               && !(old(View()).active.Some? && shared.current == old(View()).active)
      ensures View() == if invalidated then Invalidated(old(View())) else old(View())
      ensures queued == old(queued)
    {
      if activeSessionMarker.Some? && shared.current == activeSessionMarker {
        return false;
      }
      if session.None? {
        return false;
      }
      InvalidateLocalLifecycle();
      invalidated := true;
    }

    /** The turn of a login that replaces the shared marker; no await inside. */
    method MarkLogin(observed: Option<Marker>, m: Marker)
      requires shared.current == observed
      modifies this, shared
      ensures View() == old(View()).(session := None, active := None, dataOwner := None)
      ensures shared.current == Some(m) && queued == old(queued)
    {
      session := None;
      localDataOwner := None;
      if shared.current == observed {
        shared.current := None;
      }
      shared.current := Some(m);
      activeSessionMarker := None;
    }

    /** The last turn of a login: publish, or give the attempt up as stale. */
    method PublishLogin(generation: nat, m: Marker, granted: Session) returns (ok: bool)
      modifies this
      ensures ok <==> old(View()).generation == generation && shared.current == Some(m)
      ensures View() == if ok then PublishedTab(m, granted, generation) else old(View())
      ensures queued == if ok then old(queued) else old(queued) + [Some(m)]
    {
      if lifecycleGeneration != generation || shared.current != Some(m) {
        QueuePersistedSessionCleanup(Some(m));
        return false;
      }
      activeSessionMarker := Some(m);
      session := Some(granted);
      localDataOwner := Some(lifecycleGeneration);
      ok := true;
    }

    /** The last turn of a restore: compare and commit. */
    method PublishRestore(generation: nat, m: Marker, restored: Session, now: int) returns (ok: bool)
      modifies this
      ensures ok <==> old(View()).generation == generation && shared.current == Some(m) && Unexpired(restored, now)
      ensures View() == if ok then PublishedTab(m, restored, generation + 1) else old(View())
      ensures queued == old(queued)
    {
      if lifecycleGeneration != generation || shared.current != Some(m) || restored.expires <= now {
        return false;
      }
      lifecycleGeneration := lifecycleGeneration + 1;
      activeSessionMarker := Some(m);
      session := Some(restored);
      localDataOwner := Some(lifecycleGeneration);
      ok := true;
    }

    method IsLocalDataOwnerCurrent(generation: nat) returns (current: bool)
      ensures current <==> View().dataOwner == Some(generation) && generation == View().generation
    {
      current := localDataOwner.Some? && generation == lifecycleGeneration && generation == localDataOwner.value;
    }
  }

  // ------------------------------------------------------------------
  // Steps
  // ------------------------------------------------------------------

  datatype Step =
    | Tick(later: int)
    | Corrupt(sealed: Sealed)
    | Reopen(t: nat)
    | Logout(t: nat, j: nat)
    | Unauthorized(t: nat, snapshot: Snapshot, j: nat)
    | ExternalRemoval(t: nat, removed: Option<Marker>)
    | ExternalInvalidation(t: nat)
    | StartLogin(t: nat, j: nat)
    | LoginObserves(j: nat)
    | LoginAnswers(j: nat, session: Session)
    | LoginRefused(j: nat)
    | LoginEnters(j: nat)
    | LoginMarks(j: nat)
    | LoginWrites(j: nat)
    | LoginPublishes(j: nat, k: nat)
    | LoginUnscoped(j: nat)
    | LoginErrors(j: nat, k: nat)
    | LoginGivesUp(j: nat)
    | StartRestore(t: nat, j: nat)
    | RestoreEnters(j: nat)
    | RestoreReads(j: nat)
    | RestoreChecks(j: nat)
    | RestoreDecrypts(j: nat)
    | RestoreDerives(j: nat)
    | RestoreSeals(j: nat)
    | RestoreUpgrades(j: nat)
    | RestorePublishes(j: nat)
    | RestoreDeletes(j: nat)
    | RestoreErrors(j: nat)
    | CleanupEnters(j: nat)
    | CleanupDeletes(j: nat)
    | CleanupErrors(j: nat)

  /** Inside the critical section of the auth lock. */
  predicate InLock(job: Job) {
    match job
    case Login(_, _, phase) => phase.Preparing? || phase.Writing? || phase.Written?
    case Restore(_, _, phase) => !phase.Resting?
    case Cleanup(_, _, entered) => entered
  }

  /** Web Locks exclude every tab; without them a tab excludes only itself. */
  predicate Excludes(s: System, a: Job, b: Job) {
    s.locks || a.tab == b.tab
  }

  predicate LockFree(s: System, job: Job) {
    forall k :: k in s.jobs && InLock(s.jobs[k]) ==> !Excludes(s, job, s.jobs[k])
  }

  predicate HasLogin(s: System, j: nat) {
    j in s.jobs && s.jobs[j].Login? && s.jobs[j].tab < |s.tabs|
  }

  predicate HasRestore(s: System, j: nat) {
    j in s.jobs && s.jobs[j].Restore? && s.jobs[j].tab < |s.tabs|
  }

  predicate HasCleanup(s: System, j: nat) {
    j in s.jobs && s.jobs[j].Cleanup?
  }

  predicate Enabled(s: System, step: Step) {
    match step
    case Tick(later) => later >= s.now
    case Corrupt(sealed) => !sealed.Holds?
    case Reopen(t) => t < |s.tabs|
    case Logout(t, j) => t < |s.tabs| && j !in s.jobs
    case Unauthorized(t, _, j) => t < |s.tabs| && j !in s.jobs
    case ExternalRemoval(t, _) => t < |s.tabs|
    case ExternalInvalidation(t) => t < |s.tabs|
    case StartLogin(t, j) => t < |s.tabs| && j !in s.jobs
    case LoginObserves(j) => HasLogin(s, j) && s.jobs[j].login.Waiting?
    case LoginAnswers(j, session) =>
      HasLogin(s, j) && s.jobs[j].login.Requesting? && session.token !in s.tokens && session.scope.Matching?
    case LoginRefused(j) => HasLogin(s, j) && s.jobs[j].login.Requesting?
    case LoginEnters(j) => HasLogin(s, j) && s.jobs[j].login.Answered? && LockFree(s, s.jobs[j])
    case LoginMarks(j) => HasLogin(s, j) && s.jobs[j].login.Preparing?
    case LoginWrites(j) => HasLogin(s, j) && s.jobs[j].login.Writing?
    case LoginPublishes(j, k) => HasLogin(s, j) && s.jobs[j].login.Written? && k !in s.jobs
    case LoginErrors(j, k) =>
      && HasLogin(s, j) && k !in s.jobs
      && (s.jobs[j].login.Answered? || s.jobs[j].login.Preparing?
          || s.jobs[j].login.Writing? || s.jobs[j].login.Written?)
    case LoginUnscoped(j) => HasLogin(s, j) && s.jobs[j].login.Answered?
    case LoginGivesUp(j) => HasLogin(s, j) && s.jobs[j].login.Failed?
    case StartRestore(t, j) => t < |s.tabs| && j !in s.jobs && !OwnerIsCurrent(s.tabs[t], s.marker, s.now)
    case RestoreEnters(j) => HasRestore(s, j) && s.jobs[j].restore.Resting? && LockFree(s, s.jobs[j])
    case RestoreReads(j) => HasRestore(s, j) && s.jobs[j].restore.Reading?
    case RestoreChecks(j) => HasRestore(s, j) && s.jobs[j].restore.Checking?
    case RestoreDecrypts(j) => HasRestore(s, j) && s.jobs[j].restore.Decrypting?
    case RestoreDerives(j) => HasRestore(s, j) && s.jobs[j].restore.Deriving?
    case RestoreSeals(j) => HasRestore(s, j) && s.jobs[j].restore.Sealing?
    case RestoreUpgrades(j) => HasRestore(s, j) && s.jobs[j].restore.Upgrading?
    case RestorePublishes(j) => HasRestore(s, j) && s.jobs[j].restore.Migrating?
    case RestoreDeletes(j) => HasRestore(s, j) && s.jobs[j].restore.Deleting?
    case RestoreErrors(j) => HasRestore(s, j)
    case CleanupEnters(j) => HasCleanup(s, j) && !s.jobs[j].entered && LockFree(s, s.jobs[j])
    case CleanupDeletes(j) => HasCleanup(s, j) && s.jobs[j].entered
    case CleanupErrors(j) => HasCleanup(s, j)
  }

  function WithTab(s: System, t: nat, tab: Tab): System
    requires t < |s.tabs|
  {
    s.(tabs := s.tabs[t := tab])
  }

  function WithJob(s: System, j: nat, job: Job): System {
    s.(jobs := s.jobs[j := job])
  }

  function Done(s: System, j: nat): System {
    s.(jobs := s.jobs - {j})
  }

  function AtLogin(s: System, j: nat, phase: LoginPhase): System
    requires HasLogin(s, j)
  {
    WithJob(s, j, s.jobs[j].(login := phase))
  }

  function AtRestore(s: System, j: nat, phase: RestorePhase): System
    requires HasRestore(s, j)
  {
    WithJob(s, j, s.jobs[j].(restore := phase))
  }

  /** The job's tab is still in the lifecycle the job began in. */
  predicate Live(s: System, j: nat)
    requires HasLogin(s, j) || HasRestore(s, j)
  {
    s.tabs[s.jobs[j].tab].generation == s.jobs[j].generation
  }

  function Revoked(s: System, expected: Option<Marker>): System {
    if expected.Some? then s.(revoked := s.revoked + {expected.value}) else s
  }

  /** `queuePersistedSessionCleanup`. */
  function CleanupQueued(s: System, t: nat, expected: Option<Marker>, j: nat): System {
    WithJob(Revoked(s, expected), j, Cleanup(t, expected, false))
  }

  /** `revokePersistedSession`. */
  function RevokedTab(s: System, t: nat, j: nat): System
    requires t < |s.tabs|
  {
    CleanupQueued(WithTab(s, t, Invalidated(s.tabs[t])), t, s.tabs[t].active, j)
  }

  /** A restore gives its marker up as worthless. */
  function Discarded(s: System, j: nat, m: Marker): System
    requires HasRestore(s, j)
  {
    var t := s.jobs[j].tab;
    AtRestore(WithTab(s, t, Invalidated(s.tabs[t])), j, Deleting(Some(m))).(marker := Without(s.marker, Some(m)))
  }

  /** Reserve a lifecycle before the first await, so that any revoke after it wins. */
  function LoginStarted(s: System, t: nat, j: nat): System
    requires t < |s.tabs|
  {
    var generation := s.tabs[t].generation + 1;
    WithJob(WithTab(s, t, s.tabs[t].(generation := generation)), j, Login(t, generation, Waiting))
  }

  function LoginMarked(s: System, j: nat): System
    requires HasLogin(s, j) && s.jobs[j].login.Preparing?
  {
    var job, phase := s.jobs[j], s.jobs[j].login;
    if !Live(s, j) || s.marker != phase.observed || !Unexpired(phase.session, s.now) then AtLogin(s, j, Failed(true))
    else
      var m := s.next;
      WithTab(AtLogin(s, j, Writing(m, phase.session)), job.tab,
              s.tabs[job.tab].(session := None, active := None, dataOwner := None))
      .(marker := Some(m), next := m + 1, issued := s.issued[m := phase.session])
  }

  function LoginPublished(s: System, j: nat, k: nat): System
    requires HasLogin(s, j) && s.jobs[j].login.Written?
  {
    var job, phase := s.jobs[j], s.jobs[j].login;
    if !Live(s, j) || s.marker != Some(phase.marker)
    then CleanupQueued(AtLogin(s, j, Failed(true)), job.tab, Some(phase.marker), k)
    else
      WithTab(Done(s, j), job.tab, PublishedTab(phase.marker, phase.session, job.generation))
      .(published := s.published + {phase.marker})
  }

  function LoginErred(s: System, j: nat, k: nat): System
    requires HasLogin(s, j)
  {
    var job, phase := s.jobs[j], s.jobs[j].login;
    if phase.Writing? || phase.Written? then
      CleanupQueued(AtLogin(s, j, Failed(false)), job.tab, Some(phase.marker), k)
    else AtLogin(s, j, Failed(false))
  }

  function RestoreChecked(s: System, j: nat): System
    requires HasRestore(s, j) && s.jobs[j].restore.Checking?
  {
    var job, phase := s.jobs[j], s.jobs[j].restore;
    if !Live(s, j) then Done(s, j)
    else if phase.seen.None? then
      if s.marker.None?
      then AtRestore(WithTab(s, job.tab, Invalidated(s.tabs[job.tab])), j, Deleting(phase.tuple.owner))
      else Done(s, j)
    else if phase.tuple.owner != phase.seen then Done(s, j)
    else if phase.tuple.sealed.NoSession? then Discarded(s, j, phase.seen.value)
    else AtRestore(s, j, Decrypting(phase.seen.value, phase.tuple.sealed))
  }

  function RestoreDecrypted(s: System, j: nat): System
    requires HasRestore(s, j) && s.jobs[j].restore.Decrypting?
  {
    var phase := s.jobs[j].restore;
    if !phase.sealed.Holds? || !Unexpired(phase.sealed.session, s.now) then
      if Live(s, j) then Discarded(s, j, phase.marker) else Done(s, j)
    else AtRestore(s, j, Deriving(phase.marker, phase.sealed.session))
  }

  function RestoreDerived(s: System, j: nat): System
    requires HasRestore(s, j) && s.jobs[j].restore.Deriving?
  {
    var phase := s.jobs[j].restore;
    match phase.session.scope
    case Mismatched => Discarded(s, j, phase.marker)
    case Unscoped => AtRestore(s, j, Sealing(phase.marker, phase.session.(scope := Matching)))
    case Matching => AtRestore(s, j, Migrating(phase.marker, phase.session))
  }

  /** The guard shared by a restore's upgrade and its publication. */
  predicate RestoreStands(s: System, j: nat, m: Marker, session: Session)
    requires HasRestore(s, j)
  {
    Live(s, j) && s.marker == Some(m) && Unexpired(session, s.now)
  }

  function RestorePublished(s: System, j: nat): System
    requires HasRestore(s, j) && s.jobs[j].restore.Migrating?
  {
    var job, phase := s.jobs[j], s.jobs[j].restore;
    if RestoreStands(s, j, phase.marker, phase.session)
    then WithTab(Done(s, j), job.tab, PublishedTab(phase.marker, phase.session, job.generation + 1))
    else Done(s, j)
  }

  function JobsOutside(s: System, t: nat): map<nat, Job> {
    map j | j in s.jobs && s.jobs[j].tab != t :: s.jobs[j]
  }

  function Next(s: System, step: Step): System
    requires Enabled(s, step)
  {
    match step
    case Tick(later) => s.(now := later)
    case Corrupt(sealed) => s.(tuple := s.tuple.(sealed := sealed))
    case Reopen(t) => WithTab(s, t, Invalidated(s.tabs[t])).(jobs := JobsOutside(s, t))
    case Logout(t, j) => RevokedTab(s, t, j)
    case Unauthorized(t, snapshot, j) => if Concerns(s.tabs[t], Some(snapshot)) then RevokedTab(s, t, j) else s
    case ExternalRemoval(t, removed) =>
      if removed.Some? && removed == s.tabs[t].active then WithTab(s, t, Invalidated(s.tabs[t])) else s
    case ExternalInvalidation(t) =>
      if s.tabs[t].session.Some? && !(s.tabs[t].active.Some? && s.marker == s.tabs[t].active)
      then WithTab(s, t, Invalidated(s.tabs[t])) else s
    case StartLogin(t, j) => LoginStarted(s, t, j)
    case LoginObserves(j) => if Live(s, j) then AtLogin(s, j, Requesting(s.marker)) else Done(s, j)
    case LoginAnswers(j, session) =>
      if !Live(s, j) || !Unexpired(session, s.now) then Done(s, j)
      else AtLogin(s, j, Answered(s.jobs[j].login.observed, session)).(tokens := s.tokens + {session.token})
    case LoginRefused(j) => Done(s, j)
    case LoginEnters(j) =>
      if Live(s, j) && s.marker == s.jobs[j].login.observed
      then AtLogin(s, j, Preparing(s.jobs[j].login.observed, s.jobs[j].login.session))
      else AtLogin(s, j, Failed(true))
    case LoginMarks(j) => LoginMarked(s, j)
    case LoginWrites(j) =>
      var phase := s.jobs[j].login;
      AtLogin(s, j, Written(phase.marker, phase.session)).(tuple := Tuple(Holds(phase.session), Some(phase.marker)))
    case LoginPublishes(j, k) => LoginPublished(s, j, k)
    case LoginUnscoped(j) => var t := s.jobs[j].tab; Done(WithTab(s, t, Invalidated(s.tabs[t])), j)
    case LoginErrors(j, k) => LoginErred(s, j, k)
    case LoginGivesUp(j) =>
      var t := s.jobs[j].tab;
      if !s.jobs[j].login.stale && Live(s, j) then Done(WithTab(s, t, Invalidated(s.tabs[t])), j) else Done(s, j)
    case StartRestore(t, j) => WithJob(s, j, Restore(t, s.tabs[t].generation, Resting))
    case RestoreEnters(j) => if Live(s, j) then AtRestore(s, j, Reading(s.marker)) else Done(s, j)
    case RestoreReads(j) => AtRestore(s, j, Checking(s.jobs[j].restore.seen, s.tuple))
    case RestoreChecks(j) => RestoreChecked(s, j)
    case RestoreDecrypts(j) => RestoreDecrypted(s, j)
    case RestoreDerives(j) => RestoreDerived(s, j)
    case RestoreSeals(j) =>
      var phase := s.jobs[j].restore;
      if RestoreStands(s, j, phase.marker, phase.session)
      then AtRestore(s, j, Upgrading(phase.marker, phase.session)) else Done(s, j)
    case RestoreUpgrades(j) =>
      var phase := s.jobs[j].restore;
      AtRestore(s, j, Migrating(phase.marker, phase.session)).(tuple := Tuple(Holds(phase.session), Some(phase.marker)))
    case RestorePublishes(j) => RestorePublished(s, j)
    case RestoreDeletes(j) => Done(s, j).(tuple := DeletedIfOwnedBy(s.tuple, s.jobs[j].restore.owner))
    case RestoreErrors(j) => Done(s, j)
    case CleanupEnters(j) =>
      WithJob(s, j, s.jobs[j].(entered := true)).(marker := Without(s.marker, s.jobs[j].expected))
    case CleanupDeletes(j) => Done(s, j).(tuple := DeletedIfOwnedBy(s.tuple, s.jobs[j].expected))
    case CleanupErrors(j) => Done(s, j)
  }

  // ------------------------------------------------------------------
  // Invariant
  // ------------------------------------------------------------------

  /** `session` is the one that marker `m` was made for. */
  predicate IssuedFor(s: System, m: Marker, session: Session) {
    m in s.issued && s.issued[m].token == session.token && s.issued[m].expires == session.expires
  }

  ghost predicate SharedOk(s: System) {
    && (forall m :: m in s.issued ==> m < s.next && s.issued[m].token in s.tokens)
    && (forall m, n :: m in s.issued && n in s.issued && m != n ==> s.issued[m].token != s.issued[n].token)
    && (s.marker.Some? ==> s.marker.value in s.issued) && s.published <= s.issued.Keys
    && (s.tuple.owner.Some? && s.tuple.sealed.Holds? ==> IssuedFor(s, s.tuple.owner.value, s.tuple.sealed.session))
  }

  predicate TabOk(s: System, tab: Tab) {
    && (tab.session.Some? <==> tab.active.Some?)
    && (tab.session.Some? ==> IssuedFor(s, tab.active.value, tab.session.value))
  }

  /** The token of a login that has not marked itself yet belongs to it alone. */
  function Unmarked(job: Job): Option<Id> {
    match job
    case Login(_, _, Answered(_, session)) => Some(session.token)
    case Login(_, _, Preparing(_, session)) => Some(session.token)
    case _ => None
  }

  function OwnMarker(job: Job): Option<Marker> {
    match job
    case Login(_, _, Writing(m, _)) => Some(m)
    case Login(_, _, Written(m, _)) => Some(m)
    case _ => None
  }

  /** A session the job has in hand, with the marker it is held under. */
  function Carried(job: Job): Option<(Marker, Session)> {
    match job
    case Login(_, _, Writing(m, session)) => Some((m, session))
    case Login(_, _, Written(m, session)) => Some((m, session))
    case Restore(_, _, Checking(_, Tuple(Holds(session), Some(m)))) => Some((m, session))
    case Restore(_, _, Decrypting(m, Holds(session))) => Some((m, session))
    case Restore(_, _, Deriving(m, session)) => Some((m, session))
    case Restore(_, _, Sealing(m, session)) => Some((m, session))
    case Restore(_, _, Upgrading(m, session)) => Some((m, session))
    case Restore(_, _, Migrating(m, session)) => Some((m, session))
    case _ => None
  }

  /** The generation the job began in, which its tab may have left since. */
  function Began(job: Job): nat {
    if job.Cleanup? then 0 else job.generation
  }

  predicate JobOk(s: System, job: Job) {
    && job.tab < |s.tabs| && Began(job) <= s.tabs[job.tab].generation
    && (Carried(job).Some? ==> IssuedFor(s, Carried(job).value.0, Carried(job).value.1))
    && (Unmarked(job).Some? ==> Unmarked(job).value in s.tokens)
    && (OwnMarker(job).Some? ==> OwnMarker(job).value in s.issued && OwnMarker(job).value !in s.published)
    && (job.Cleanup? && job.expected.Some? ==> job.expected.value in s.revoked)
  }

  ghost predicate Distinct(s: System) {
    && (forall j, m :: j in s.jobs && Unmarked(s.jobs[j]).Some? && m in s.issued ==>
          s.issued[m].token != Unmarked(s.jobs[j]).value)
    && (forall j, k :: j in s.jobs && k in s.jobs && j != k && Unmarked(s.jobs[j]).Some? ==>
          Unmarked(s.jobs[j]) != Unmarked(s.jobs[k]))
    && (forall j, k :: j in s.jobs && k in s.jobs && j != k && OwnMarker(s.jobs[j]).Some? ==>
          OwnMarker(s.jobs[j]) != OwnMarker(s.jobs[k]))
  }

  ghost predicate Exclusive(s: System) {
    forall j, k :: j in s.jobs && k in s.jobs && j != k && InLock(s.jobs[j]) && InLock(s.jobs[k]) ==>
      !Excludes(s, s.jobs[j], s.jobs[k])
  }

  ghost predicate TabsOk(s: System) {
    forall t :: 0 <= t < |s.tabs| ==> TabOk(s, s.tabs[t])
  }

  ghost predicate JobsOk(s: System) {
    forall j :: j in s.jobs ==> JobOk(s, s.jobs[j])
  }

  ghost predicate Inv(s: System) {
    SharedOk(s) && TabsOk(s) && JobsOk(s) && Distinct(s) && Exclusive(s)
  }

  // ------------------------------------------------------------------
  // Turns
  // ------------------------------------------------------------------

  /** The job whose turn the step is. */
  function Mover(step: Step): Option<nat> {
    match step
    case LoginObserves(j) => Some(j)
    case LoginAnswers(j, _) => Some(j)
    case LoginRefused(j) => Some(j)
    case LoginEnters(j) => Some(j)
    case LoginMarks(j) => Some(j)
    case LoginWrites(j) => Some(j)
    case LoginPublishes(j, _) => Some(j)
    case LoginUnscoped(j) => Some(j)
    case LoginErrors(j, _) => Some(j)
    case LoginGivesUp(j) => Some(j)
    case RestoreEnters(j) => Some(j)
    case RestoreReads(j) => Some(j)
    case RestoreChecks(j) => Some(j)
    case RestoreDecrypts(j) => Some(j)
    case RestoreDerives(j) => Some(j)
    case RestoreSeals(j) => Some(j)
    case RestoreUpgrades(j) => Some(j)
    case RestorePublishes(j) => Some(j)
    case RestoreDeletes(j) => Some(j)
    case RestoreErrors(j) => Some(j)
    case CleanupEnters(j) => Some(j)
    case CleanupDeletes(j) => Some(j)
    case CleanupErrors(j) => Some(j)
    case _ => None
  }

  /** A job that has only been queued. */
  predicate JustQueued(job: Job) {
    match job
    case Login(_, _, phase) => phase.Waiting?
    case Restore(_, _, phase) => phase.Resting?
    case Cleanup(_, _, entered) => !entered
  }

  predicate LoginTurn(step: Step) {
    Mover(step).Some? && !step.RestoreEnters? && !step.RestoreReads? && !step.RestoreChecks? && !step.RestoreDecrypts?
    && !step.RestoreDerives? && !step.RestoreSeals? && !step.RestoreUpgrades? && !step.RestorePublishes?
    && !step.RestoreDeletes? && !step.RestoreErrors? && !step.CleanupEnters? && !step.CleanupDeletes?
    && !step.CleanupErrors?
  }

  ghost predicate JobsApart(s: System, s': System, mover: Option<nat>) {
    forall k :: k in s'.jobs && mover != Some(k) ==>
      if k in s.jobs then s'.jobs[k] == s.jobs[k] else JustQueued(s'.jobs[k])
  }

  lemma LoginApart(s: System, step: Step)
    requires Enabled(s, step) && LoginTurn(step)
    ensures JobsApart(s, Next(s, step), Mover(step))
  {
    hide LockFree, Invalidated, PublishedTab, Unexpired, Live;
  }

  lemma TabApart(s: System, step: Step)
    requires Enabled(s, step) && Mover(step).None?
    ensures JobsApart(s, Next(s, step), Mover(step))
  {
    hide Invalidated, Concerns;
  }

  lemma OthersApart(s: System, step: Step)
    requires Enabled(s, step) && !LoginTurn(step) && Mover(step).Some?
    ensures JobsApart(s, Next(s, step), Mover(step))
  {
    hide LockFree, Invalidated, Without, DeletedIfOwnedBy, PublishedTab, Unexpired, Live, RestoreStands;
  }

  /** A turn touches its own job, and may queue another. */
  lemma TurnsApart(s: System, step: Step)
    requires Enabled(s, step)
    ensures JobsApart(s, Next(s, step), Mover(step))
  {
    hide JobsApart, Next, Enabled, LoginTurn;
    if Mover(step).None? {
      TabApart(s, step);
    } else if LoginTurn(step) {
      LoginApart(s, step);
    } else {
      OthersApart(s, step);
    }
  }

  // ------------------------------------------------------------------
  // Every step keeps it
  // ------------------------------------------------------------------

  /** What no step takes back. */
  ghost predicate Onward(s: System, s': System) {
    && |s'.tabs| == |s.tabs| && s'.locks == s.locks && s'.next >= s.next && s'.now >= s.now
    && (forall t :: 0 <= t < |s.tabs| ==> s'.tabs[t].generation >= s.tabs[t].generation)
    && (forall m :: m in s.issued ==> m in s'.issued && s'.issued[m] == s.issued[m])
    && s.tokens <= s'.tokens && s.published <= s'.published && s.revoked <= s'.revoked
  }

  ghost predicate Keeps(s: System, s': System) {
    Inv(s') && Onward(s, s')
  }

  lemma JobsStayOk(s: System, r: System)
    requires JobsOk(s) && Onward(s, r)
    requires forall j :: j in r.jobs ==> j in s.jobs && r.jobs[j] == s.jobs[j]
    requires forall j :: j in r.jobs && OwnMarker(r.jobs[j]).Some? ==>
               OwnMarker(r.jobs[j]).value !in r.published - s.published
    ensures JobsOk(r)
  {
    hide Carried, Unmarked, OwnMarker, Began;
  }

  lemma JobsStayOkBut(s: System, r: System, i: nat)
    requires JobsOk(s) && Onward(s, r) && r.published == s.published && i in r.jobs && JobOk(r, r.jobs[i])
    requires forall j :: j in r.jobs && j != i ==> j in s.jobs && r.jobs[j] == s.jobs[j]
    ensures JobsOk(r)
  {
    hide Carried, Unmarked, OwnMarker, Began;
  }

  lemma KeepsTransitive(s: System, s': System, s'': System)
    requires Keeps(s, s') && Keeps(s', s'')
    ensures Keeps(s, s'')
  {
    hide Inv;
  }

  lemma Nothing(s: System)
    requires Inv(s)
    ensures Keeps(s, s)
  {
    hide Inv;
  }

  lemma TupleSet(s: System, tuple: Tuple)
    requires Inv(s)
    requires tuple.owner.Some? && tuple.sealed.Holds? ==> IssuedFor(s, tuple.owner.value, tuple.sealed.session)
    ensures Keeps(s, s.(tuple := tuple))
  {
    var r := s.(tuple := tuple);
    JobsStayOk(s, r);
    hide JobsOk;
  }

  lemma MarkerSet(s: System, marker: Option<Marker>)
    requires Inv(s) && (marker.None? || marker == s.marker)
    ensures Keeps(s, s.(marker := marker))
  {
    var r := s.(marker := marker);
    JobsStayOk(s, r);
    hide JobsOk;
  }

  lemma TimePasses(s: System, later: int)
    requires Inv(s) && later >= s.now
    ensures Keeps(s, s.(now := later))
  {
    var r := s.(now := later);
    JobsStayOk(s, r);
    hide JobsOk;
  }

  lemma TabSet(s: System, t: nat, tab: Tab)
    requires Inv(s) && t < |s.tabs| && TabOk(s, tab) && tab.generation >= s.tabs[t].generation
    ensures Keeps(s, WithTab(s, t, tab))
  {
    var r := WithTab(s, t, tab);
    JobsStayOk(s, r);
    hide JobsOk;
  }

  /** A job moves on: it brings no token or marker that others could have, and
      enters the critical section only when it is free. */
  predicate MovesOn(s: System, j: nat, job: Job) {
    if j in s.jobs then
      && job.tab == s.jobs[j].tab
      && (Unmarked(job).None? || Unmarked(job) == Unmarked(s.jobs[j]))
      && (OwnMarker(job).None? || OwnMarker(job) == OwnMarker(s.jobs[j]))
      && (InLock(job) ==> InLock(s.jobs[j]) || LockFree(s, s.jobs[j]))
    else Unmarked(job).None? && OwnMarker(job).None? && !InLock(job)
  }

  lemma ExclusiveSet(s: System, j: nat, job: Job)
    requires Exclusive(s)
    requires if j in s.jobs then
               job.tab == s.jobs[j].tab && (InLock(job) ==> InLock(s.jobs[j]) || LockFree(s, s.jobs[j]))
             else !InLock(job)
    ensures Exclusive(WithJob(s, j, job))
  {
    hide InLock, Unmarked, OwnMarker;
  }

  lemma DistinctSet(s: System, j: nat, job: Job)
    requires Distinct(s) && MovesOn(s, j, job)
    ensures Distinct(WithJob(s, j, job))
  {
    hide InLock, Unmarked, OwnMarker, LockFree;
  }

  lemma JobSet(s: System, j: nat, job: Job)
    requires Inv(s) && JobOk(s, job) && MovesOn(s, j, job)
    ensures Keeps(s, WithJob(s, j, job))
  {
    hide Unmarked, OwnMarker, InLock, Carried, Began, LockFree;
    ExclusiveSet(s, j, job);
    DistinctSet(s, j, job);
    hide Distinct, Exclusive, MovesOn;
    var r := WithJob(s, j, job);
    JobsStayOkBut(s, r, j);
    hide JobsOk, JobOk;
    SameShared(s, r);
    TabsStayOk(s, r);
    hide SharedOk, TabsOk;
  }

  lemma JobsDropped(s: System, jobs: map<nat, Job>)
    requires Inv(s) && forall j :: j in jobs ==> j in s.jobs && jobs[j] == s.jobs[j]
    ensures Keeps(s, s.(jobs := jobs))
  {
    var r := s.(jobs := jobs);
    JobsStayOk(s, r);
    hide JobsOk;
  }

  lemma RevokedSet(s: System, expected: Option<Marker>)
    requires Inv(s)
    ensures Keeps(s, Revoked(s, expected))
  {
    var r := Revoked(s, expected);
    JobsStayOk(s, r);
    hide JobsOk;
  }

  lemma PublishedSet(s: System, m: Marker)
    requires Inv(s) && m in s.issued && forall j :: j in s.jobs ==> OwnMarker(s.jobs[j]) != Some(m)
    ensures Keeps(s, s.(published := s.published + {m}))
  {
    var r := s.(published := s.published + {m});
    JobsStayOk(s, r);
    hide JobsOk;
  }

  lemma PendingTokens(s: System, j: nat)
    requires JobsOk(s) && j in s.jobs && Unmarked(s.jobs[j]).Some?
    ensures Unmarked(s.jobs[j]).value in s.tokens
  {
    assert JobOk(s, s.jobs[j]);
  }

  lemma MarkerIssued(s: System, j: nat)
    requires JobsOk(s) && j in s.jobs && OwnMarker(s.jobs[j]).Some?
    ensures OwnMarker(s.jobs[j]).value in s.issued
  {
    assert JobOk(s, s.jobs[j]);
  }

  /** The server's token is new, so it is no other login's. */
  lemma FreshTokenDistinct(s: System, j: nat, job: Job, token: Id)
    requires SharedOk(s) && JobsOk(s) && Distinct(s) && token !in s.tokens
    requires Unmarked(job) == Some(token) && OwnMarker(job).None?
    ensures Distinct(WithJob(s, j, job).(tokens := s.tokens + {token}))
  {
    var r := WithJob(s, j, job).(tokens := s.tokens + {token});
    forall k | k in s.jobs && Unmarked(s.jobs[k]).Some? ensures Unmarked(s.jobs[k]) != Some(token) {
      PendingTokens(s, k);
    }
    hide JobsOk, Unmarked, OwnMarker;
  }

  lemma AnswerKeeps(s: System, j: nat, session: Session)
    requires Inv(s) && HasLogin(s, j) && s.jobs[j].login.Requesting? && session.token !in s.tokens
    ensures Keeps(s, AtLogin(s, j, Answered(s.jobs[j].login.observed, session)).(tokens := s.tokens + {session.token}))
  {
    var job := s.jobs[j].(login := Answered(s.jobs[j].login.observed, session));
    var r := WithJob(s, j, job).(tokens := s.tokens + {session.token});
    FreshTokenDistinct(s, j, job, session.token);
    ExclusiveSet(s, j, job);
    assert JobOk(s, s.jobs[j]);
    JobsStayOkBut(s, r, j);
    hide Distinct, JobsOk;
  }

  /** The marking turn hands the login's token over to a new marker. */
  lemma MarkDistinct(s: System, j: nat, job: Job, session: Session)
    requires SharedOk(s) && JobsOk(s) && Distinct(s) && j in s.jobs && Unmarked(s.jobs[j]) == Some(session.token)
    requires Unmarked(job).None? && OwnMarker(job) == Some(s.next)
    ensures Distinct(WithJob(s, j, job).(issued := s.issued[s.next := session]))
  {
    forall k | k in s.jobs && OwnMarker(s.jobs[k]).Some? ensures OwnMarker(s.jobs[k]) != Some(s.next) {
      MarkerIssued(s, k);
    }
    hide JobsOk, Unmarked, OwnMarker;
  }

  lemma MarkShared(s: System, j: nat, session: Session)
    requires SharedOk(s) && JobsOk(s) && Distinct(s) && j in s.jobs && Unmarked(s.jobs[j]) == Some(session.token)
    ensures SharedOk(s.(marker := Some(s.next), next := s.next + 1, issued := s.issued[s.next := session]))
  {
    PendingTokens(s, j);
    hide JobsOk, Unmarked, OwnMarker;
  }

  /** The marker of login `j` comes into being, with its session. */
  function MarkerMade(s: System, j: nat, job: Job, session: Session): System {
    WithJob(s, j, job).(marker := Some(s.next), next := s.next + 1, issued := s.issued[s.next := session])
  }

  lemma MarkerMadeParts(s: System, j: nat, job: Job, session: Session)
    requires SharedOk(s) && JobsOk(s) && Distinct(s) && Exclusive(s)
    requires j in s.jobs && Unmarked(s.jobs[j]) == Some(session.token) && InLock(s.jobs[j])
    requires job.Login? && job.login == Writing(s.next, session) && job.tab == s.jobs[j].tab
    ensures var r := MarkerMade(s, j, job, session); SharedOk(r) && Distinct(r) && Exclusive(r)
  {
    var r := MarkerMade(s, j, job, session);
    MarkShared(s, j, session);
    MarkDistinct(s, j, job, session);
    ExclusiveSet(s, j, job);
    hide Distinct, Exclusive, SharedOk, JobsOk;
    SameJobs(r, WithJob(s, j, job).(issued := s.issued[s.next := session]));
    SameShared(r, s.(marker := Some(s.next), next := s.next + 1, issued := s.issued[s.next := session]));
  }

  lemma MarkerMadeKeeps(s: System, j: nat, job: Job, session: Session)
    requires Inv(s) && j in s.jobs && Unmarked(s.jobs[j]) == Some(session.token) && InLock(s.jobs[j])
    requires job.Login? && job.login == Writing(s.next, session) && job.tab == s.jobs[j].tab
    requires Began(job) == Began(s.jobs[j])
    ensures Keeps(s, MarkerMade(s, j, job, session))
  {
    var r := MarkerMade(s, j, job, session);
    MarkerMadeParts(s, j, job, session);
    hide Distinct, Exclusive;
    assert JobOk(s, s.jobs[j]);
    assert Onward(s, r);
    assert JobOk(r, job);
    hide SharedOk, IssuedFor, OwnMarker, Unmarked, Carried, Began;
    JobsStayOkBut(s, r, j);
    hide JobsOk;
    TabsStayOk(s, r);
  }

  lemma TabsStayOk(s: System, r: System)
    requires TabsOk(s) && Onward(s, r) && r.tabs == s.tabs
    ensures TabsOk(r)
  {
  }

  lemma SameShared(s: System, r: System)
    requires s == r.(jobs := s.jobs)
    ensures SharedOk(s) <==> SharedOk(r)
  {
  }

  lemma MarkKeeps(s: System, j: nat)
    requires Inv(s) && HasLogin(s, j) && s.jobs[j].login.Preparing?
    ensures Keeps(s, LoginMarked(s, j))
  {
    var job, phase := s.jobs[j], s.jobs[j].login;
    assert JobOk(s, job);
    if !Live(s, j) || s.marker != phase.observed || !Unexpired(phase.session, s.now) {
      JobSet(s, j, job.(login := Failed(true)));
    } else {
      var marked := job.(login := Writing(s.next, phase.session));
      MarkerMadeKeeps(s, j, marked, phase.session);
      var r := MarkerMade(s, j, marked, phase.session);
      var cleared := s.tabs[job.tab].(session := None, active := None, dataOwner := None);
      hide Inv, Onward;
      TabSet(r, job.tab, cleared);
      KeepsTransitive(s, r, WithTab(r, job.tab, cleared));
    }
  }

  /** These parts of the invariant look only at the jobs and what was issued. */
  lemma SameJobs(s: System, r: System)
    requires s.jobs == r.jobs && s.issued == r.issued && s.locks == r.locks
    ensures (Distinct(s) <==> Distinct(r)) && (Exclusive(s) <==> Exclusive(r))
  {
    hide Unmarked, OwnMarker, InLock;
  }

  lemma InvalidateKeeps(s: System, t: nat)
    requires Inv(s) && t < |s.tabs|
    ensures Keeps(s, WithTab(s, t, Invalidated(s.tabs[t])))
  {
    hide Inv;
    TabSet(s, t, Invalidated(s.tabs[t]));
  }

  lemma DoneKeeps(s: System, j: nat)
    requires Inv(s)
    ensures Keeps(s, Done(s, j))
  {
    hide Inv, Onward;
    JobsDropped(s, s.jobs - {j});
  }

  lemma QueueKeeps(s: System, t: nat, expected: Option<Marker>, j: nat)
    requires Inv(s) && t < |s.tabs| && j !in s.jobs
    ensures Keeps(s, CleanupQueued(s, t, expected, j))
  {
    RevokedSet(s, expected);
    var r := Revoked(s, expected);
    hide Inv;
    JobSet(r, j, Cleanup(t, expected, false));
    KeepsTransitive(s, r, CleanupQueued(s, t, expected, j));
  }

  lemma RevokeKeeps(s: System, t: nat, j: nat)
    requires Inv(s) && t < |s.tabs| && j !in s.jobs
    ensures Keeps(s, RevokedTab(s, t, j))
  {
    hide Inv, Onward;
    InvalidateKeeps(s, t);
    var r := WithTab(s, t, Invalidated(s.tabs[t]));
    QueueKeeps(r, t, s.tabs[t].active, j);
    KeepsTransitive(s, r, RevokedTab(s, t, j));
  }

  lemma TabSteps(s: System, step: Step)
    requires Inv(s) && Enabled(s, step)
    requires step.Logout? || step.Unauthorized? || step.ExternalRemoval? || step.ExternalInvalidation? || step.Reopen?
    ensures Keeps(s, Next(s, step))
  {
    hide Inv, Onward, Concerns;
    Nothing(s);
    InvalidateKeeps(s, step.t);
    if step.Logout? || step.Unauthorized? {
      RevokeKeeps(s, step.t, step.j);
    } else if step.Reopen? {
      var r := WithTab(s, step.t, Invalidated(s.tabs[step.t]));
      JobsDropped(r, JobsOutside(s, step.t));
      KeepsTransitive(s, r, Next(s, step));
    }
  }

  lemma GetJobOk(s: System, j: nat)
    requires Inv(s) && j in s.jobs
    ensures JobOk(s, s.jobs[j])
  {
  }

  /** Invalidate the tab of a job that then ends. */
  lemma InvalidateDoneKeeps(s: System, t: nat, j: nat)
    requires Inv(s) && t < |s.tabs|
    ensures Keeps(s, Done(WithTab(s, t, Invalidated(s.tabs[t])), j))
  {
    hide Inv, Onward;
    InvalidateKeeps(s, t);
    var r := WithTab(s, t, Invalidated(s.tabs[t]));
    DoneKeeps(r, j);
    KeepsTransitive(s, r, Done(r, j));
  }

  lemma GetTabOk(s: System, t: nat)
    requires Inv(s) && t < |s.tabs|
    ensures TabOk(s, s.tabs[t])
  {
    hide Distinct, Exclusive, JobsOk, SharedOk;
  }

  /** A job that has just been started, and holds nothing yet. */
  lemma JobBegun(s: System, j: nat, job: Job)
    requires Inv(s) && j !in s.jobs && job.tab < |s.tabs|
    requires (job.Login? && job.login.Waiting?) || (job.Restore? && job.restore.Resting?)
    requires job.generation <= s.tabs[job.tab].generation
    ensures Keeps(s, WithJob(s, j, job))
  {
    hide Inv, Onward;
    JobSet(s, j, job);
  }

  lemma GenerationUp(s: System, t: nat)
    requires Inv(s) && t < |s.tabs|
    ensures Keeps(s, WithTab(s, t, s.tabs[t].(generation := s.tabs[t].generation + 1)))
  {
    GetTabOk(s, t);
    hide Inv, Onward;
    TabSet(s, t, s.tabs[t].(generation := s.tabs[t].generation + 1));
  }

  lemma StartKeeps(s: System, t: nat, j: nat)
    requires Inv(s) && t < |s.tabs| && j !in s.jobs
    ensures Keeps(s, LoginStarted(s, t, j))
  {
    hide Inv, Onward;
    GenerationUp(s, t);
    var r := WithTab(s, t, s.tabs[t].(generation := s.tabs[t].generation + 1));
    JobBegun(r, j, Login(t, s.tabs[t].generation + 1, Waiting));
    KeepsTransitive(s, r, LoginStarted(s, t, j));
  }

  lemma LoginMoves(s: System, j: nat, phase: LoginPhase)
    requires Inv(s) && HasLogin(s, j)
    requires phase.Requesting? || phase.Failed?
             || (phase.Preparing? && LockFree(s, s.jobs[j]) && Unmarked(s.jobs[j]) == Some(phase.session.token))
    ensures Keeps(s, AtLogin(s, j, phase))
  {
    GetJobOk(s, j);
    hide Inv, Onward;
    JobSet(s, j, s.jobs[j].(login := phase));
  }

  lemma LoginBegins(s: System, step: Step)
    requires Inv(s) && Enabled(s, step)
    requires step.LoginObserves? || step.LoginAnswers? || step.LoginRefused? || step.LoginEnters?
             || step.LoginUnscoped? || step.LoginGivesUp?
    ensures Keeps(s, Next(s, step))
  {
    GetJobOk(s, step.j);
    DoneKeeps(s, step.j);
    hide Inv, Onward;
    var phase := s.jobs[step.j].login;
    if step.LoginAnswers? {
      AnswerKeeps(s, step.j, step.session);
    } else if step.LoginUnscoped? || step.LoginGivesUp? {
      InvalidateDoneKeeps(s, s.jobs[step.j].tab, step.j);
    } else if step.LoginObserves? {
      LoginMoves(s, step.j, Requesting(s.marker));
    } else if step.LoginEnters? {
      LoginMoves(s, step.j, Preparing(phase.observed, phase.session));
      LoginMoves(s, step.j, Failed(true));
    }
  }

  lemma LoginWriteKeeps(s: System, j: nat)
    requires Inv(s) && Enabled(s, LoginWrites(j))
    ensures Keeps(s, Next(s, LoginWrites(j)))
  {
    GetJobOk(s, j);
    var phase := s.jobs[j].login;
    TupleSet(s, Tuple(Holds(phase.session), Some(phase.marker)));
    var r := s.(tuple := Tuple(Holds(phase.session), Some(phase.marker)));
    hide Inv;
    JobSet(r, j, s.jobs[j].(login := Written(phase.marker, phase.session)));
    KeepsTransitive(s, r, Next(s, LoginWrites(j)));
  }

  /** A login that fails after marking queues the cleanup of its own marker. */
  lemma FailKeeps(s: System, j: nat, k: nat, stale: bool)
    requires Inv(s) && HasLogin(s, j) && k !in s.jobs && OwnMarker(s.jobs[j]).Some?
    ensures Keeps(s, CleanupQueued(AtLogin(s, j, Failed(stale)), s.jobs[j].tab, OwnMarker(s.jobs[j]), k))
  {
    GetJobOk(s, j);
    hide Inv, Onward;
    JobSet(s, j, s.jobs[j].(login := Failed(stale)));
    var r := AtLogin(s, j, Failed(stale));
    QueueKeeps(r, s.jobs[j].tab, OwnMarker(s.jobs[j]), k);
    KeepsTransitive(s, r, CleanupQueued(r, s.jobs[j].tab, OwnMarker(s.jobs[j]), k));
  }

  lemma LoginPublishKeeps(s: System, j: nat, k: nat)
    requires Inv(s) && HasLogin(s, j) && s.jobs[j].login.Written? && k !in s.jobs
    ensures Keeps(s, LoginPublished(s, j, k))
  {
    GetJobOk(s, j);
    var job, phase := s.jobs[j], s.jobs[j].login;
    if !Live(s, j) || s.marker != Some(phase.marker) {
      hide Inv, Onward;
      FailKeeps(s, j, k, true);
    } else {
      DoneKeeps(s, j);
      var r := Done(s, j);
      assert forall i :: i in r.jobs ==> OwnMarker(r.jobs[i]) != Some(phase.marker) by {
        assert OwnMarker(s.jobs[j]) == Some(phase.marker);
      }
      PublishedSet(r, phase.marker);
      var q := r.(published := r.published + {phase.marker});
      hide Inv, Onward;
      TabSet(q, job.tab, PublishedTab(phase.marker, phase.session, job.generation));
      KeepsTransitive(s, r, q);
      KeepsTransitive(s, q, LoginPublished(s, j, k));
    }
  }

  lemma LoginErrKeeps(s: System, j: nat, k: nat)
    requires Inv(s) && HasLogin(s, j) && k !in s.jobs
    ensures Keeps(s, LoginErred(s, j, k))
  {
    GetJobOk(s, j);
    hide Inv, Onward;
    if OwnMarker(s.jobs[j]).Some? {
      FailKeeps(s, j, k, false);
    } else {
      JobSet(s, j, s.jobs[j].(login := Failed(false)));
    }
  }

  lemma DiscardKeeps(s: System, j: nat, m: Marker)
    requires Inv(s) && HasRestore(s, j) && InLock(s.jobs[j])
    ensures Keeps(s, Discarded(s, j, m))
  {
    GetJobOk(s, j);
    var t := s.jobs[j].tab;
    InvalidateKeeps(s, t);
    var r := WithTab(s, t, Invalidated(s.tabs[t]));
    hide Inv;
    JobSet(r, j, s.jobs[j].(restore := Deleting(Some(m))));
    var q := AtRestore(r, j, Deleting(Some(m)));
    hide Onward;
    MarkerSet(q, Without(q.marker, Some(m)));
    KeepsTransitive(s, r, q);
    KeepsTransitive(s, q, Discarded(s, j, m));
  }

  lemma RestoreMoves(s: System, j: nat, phase: RestorePhase)
    requires Inv(s) && HasRestore(s, j) && !phase.Resting? && (InLock(s.jobs[j]) || LockFree(s, s.jobs[j]))
    requires var c := Carried(s.jobs[j].(restore := phase));
             c.Some? ==> IssuedFor(s, c.value.0, c.value.1)
    ensures Keeps(s, AtRestore(s, j, phase))
  {
    GetJobOk(s, j);
    hide Inv, Onward;
    JobSet(s, j, s.jobs[j].(restore := phase));
  }

  lemma RestoreCheckKeeps(s: System, j: nat)
    requires Inv(s) && HasRestore(s, j) && s.jobs[j].restore.Checking?
    ensures Keeps(s, RestoreChecked(s, j))
  {
    GetJobOk(s, j);
    DoneKeeps(s, j);
    var job, phase := s.jobs[j], s.jobs[j].restore;
    hide Inv, Onward;
    if Live(s, j) {
      if phase.seen.None? {
        if s.marker.None? {
          InvalidateKeeps(s, job.tab);
          var r := WithTab(s, job.tab, Invalidated(s.tabs[job.tab]));
          RestoreMoves(r, j, Deleting(phase.tuple.owner));
          KeepsTransitive(s, r, RestoreChecked(s, j));
        }
      } else if phase.tuple.owner == phase.seen {
        if phase.tuple.sealed.NoSession? {
          DiscardKeeps(s, j, phase.seen.value);
        } else {
          RestoreMoves(s, j, Decrypting(phase.seen.value, phase.tuple.sealed));
        }
      }
    }
  }

  lemma ReadKeeps(s: System, j: nat)
    requires Inv(s) && HasRestore(s, j) && s.jobs[j].restore.Reading?
    ensures Keeps(s, AtRestore(s, j, Checking(s.jobs[j].restore.seen, s.tuple)))
  {
    TupleIssued(s);
    hide Inv, Onward;
    RestoreMoves(s, j, Checking(s.jobs[j].restore.seen, s.tuple));
  }

  lemma TupleIssued(s: System)
    requires Inv(s)
    ensures s.tuple.owner.Some? && s.tuple.sealed.Holds? ==> IssuedFor(s, s.tuple.owner.value, s.tuple.sealed.session)
  {
    hide Distinct, Exclusive, JobsOk, TabsOk;
  }

  lemma SealKeeps(s: System, j: nat)
    requires Inv(s) && HasRestore(s, j) && s.jobs[j].restore.Sealing?
    ensures var phase := s.jobs[j].restore; Keeps(s, AtRestore(s, j, Upgrading(phase.marker, phase.session)))
  {
    GetJobOk(s, j);
    hide Inv, Onward;
    RestoreMoves(s, j, Upgrading(s.jobs[j].restore.marker, s.jobs[j].restore.session));
  }

  lemma DecryptKeeps(s: System, j: nat)
    requires Inv(s) && HasRestore(s, j) && s.jobs[j].restore.Decrypting?
    ensures Keeps(s, RestoreDecrypted(s, j))
  {
    GetJobOk(s, j);
    DoneKeeps(s, j);
    var phase := s.jobs[j].restore;
    hide Inv, Onward;
    DiscardKeeps(s, j, phase.marker);
    if phase.sealed.Holds? {
      RestoreMoves(s, j, Deriving(phase.marker, phase.sealed.session));
    }
  }

  lemma DeriveKeeps(s: System, j: nat)
    requires Inv(s) && HasRestore(s, j) && s.jobs[j].restore.Deriving?
    ensures Keeps(s, RestoreDerived(s, j))
  {
    GetJobOk(s, j);
    var phase := s.jobs[j].restore;
    hide Inv, Onward;
    DiscardKeeps(s, j, phase.marker);
    RestoreMoves(s, j, Migrating(phase.marker, phase.session));
    RestoreMoves(s, j, Sealing(phase.marker, phase.session.(scope := Matching)));
  }

  lemma UpgradeKeeps(s: System, j: nat)
    requires Inv(s) && Enabled(s, RestoreUpgrades(j))
    ensures Keeps(s, Next(s, RestoreUpgrades(j)))
  {
    GetJobOk(s, j);
    var phase := s.jobs[j].restore;
    TupleSet(s, Tuple(Holds(phase.session), Some(phase.marker)));
    var q := s.(tuple := Tuple(Holds(phase.session), Some(phase.marker)));
    hide Inv, Onward;
    RestoreMoves(q, j, Migrating(phase.marker, phase.session));
    KeepsTransitive(s, q, Next(s, RestoreUpgrades(j)));
  }

  lemma CarriedIssued(s: System, j: nat)
    requires Inv(s) && j in s.jobs && Carried(s.jobs[j]).Some?
    ensures IssuedFor(s, Carried(s.jobs[j]).value.0, Carried(s.jobs[j]).value.1)
  {
    GetJobOk(s, j);
  }

  lemma RestorePublishKeeps(s: System, j: nat)
    requires Inv(s) && HasRestore(s, j) && s.jobs[j].restore.Migrating?
    ensures Keeps(s, RestorePublished(s, j))
  {
    hide Inv, Onward, IssuedFor;
    CarriedIssued(s, j);
    DoneKeeps(s, j);
    var phase := s.jobs[j].restore;
    if RestoreStands(s, j, phase.marker, phase.session) {
      DonePublish(s, j, phase.marker, phase.session);
    }
  }

  lemma DonePublish(s: System, j: nat, m: Marker, session: Session)
    requires Inv(s) && HasRestore(s, j) && Live(s, j) && IssuedFor(s, m, session)
    ensures Keeps(s, WithTab(Done(s, j), s.jobs[j].tab, PublishedTab(m, session, s.jobs[j].generation + 1)))
  {
    hide Inv, Onward;
    DoneKeeps(s, j);
    var r, t := Done(s, j), s.jobs[j].tab;
    TabSet(r, t, PublishedTab(m, session, s.jobs[j].generation + 1));
    KeepsTransitive(s, r, WithTab(r, t, PublishedTab(m, session, s.jobs[j].generation + 1)));
  }

  lemma RestoreDeleteKeeps(s: System, j: nat)
    requires Inv(s) && Enabled(s, RestoreDeletes(j))
    ensures Keeps(s, Next(s, RestoreDeletes(j)))
  {
    DoneKeeps(s, j);
    var r := Done(s, j);
    TupleSet(r, DeletedIfOwnedBy(s.tuple, s.jobs[j].restore.owner));
    hide Inv, Onward;
    KeepsTransitive(s, r, Next(s, RestoreDeletes(j)));
  }

  lemma CleanupSteps(s: System, step: Step)
    requires Inv(s) && Enabled(s, step)
    requires step.CleanupEnters? || step.CleanupDeletes? || step.CleanupErrors?
    ensures Keeps(s, Next(s, step))
  {
    GetJobOk(s, step.j);
    DoneKeeps(s, step.j);
    if step.CleanupEnters? {
      hide Inv, Onward;
      var job := s.jobs[step.j].(entered := true);
      JobSet(s, step.j, job);
      var r := WithJob(s, step.j, job);
      MarkerSet(r, Without(s.marker, job.expected));
      KeepsTransitive(s, r, Next(s, step));
    } else if step.CleanupDeletes? {
      var r := Done(s, step.j);
      TupleSet(r, DeletedIfOwnedBy(s.tuple, s.jobs[step.j].expected));
      hide Inv, Onward;
      KeepsTransitive(s, r, Next(s, step));
    }
  }

  lemma LoginStepKeeps(s: System, step: Step)
    requires Inv(s) && Enabled(s, step) && LoginTurn(step)
    ensures Keeps(s, Next(s, step))
  {
    hide Inv, Onward, LockFree, Live, Unexpired, CleanupQueued, LoginMarked, LoginPublished, LoginErred;
    match step {
      case LoginMarks(j) => MarkKeeps(s, j);
      case LoginWrites(j) => LoginWriteKeeps(s, j);
      case LoginPublishes(j, k) => LoginPublishKeeps(s, j, k);
      case LoginErrors(j, k) => LoginErrKeeps(s, j, k);
      case _ => LoginBegins(s, step);
    }
  }

  lemma RestoreStepKeeps(s: System, step: Step)
    requires Inv(s) && Enabled(s, step)
    requires step.RestoreChecks? || step.RestoreEnters? || step.RestoreReads? || step.RestoreDecrypts?
             || step.RestoreDerives?
             || step.RestoreSeals? || step.RestoreUpgrades? || step.RestorePublishes? || step.RestoreDeletes?
             || step.RestoreErrors?
    ensures Keeps(s, Next(s, step))
  {
    hide Inv, Onward, Live, Unexpired, RestoreStands, RestoreChecked, RestoreDecrypted, RestoreDerived,
         RestorePublished, DeletedIfOwnedBy;
    match step {
      case RestoreChecks(j) => RestoreCheckKeeps(s, j);
      case RestoreEnters(j) => DoneKeeps(s, j); if Live(s, j) { RestoreMoves(s, j, Reading(s.marker)); }
      case RestoreReads(j) => ReadKeeps(s, j);
      case RestoreDecrypts(j) => DecryptKeeps(s, j);
      case RestoreDerives(j) => DeriveKeeps(s, j);
      case RestoreSeals(j) => DoneKeeps(s, j); SealKeeps(s, j);
      case RestoreUpgrades(j) => UpgradeKeeps(s, j);
      case RestorePublishes(j) => RestorePublishKeeps(s, j);
      case RestoreDeletes(j) => RestoreDeleteKeeps(s, j);
      case RestoreErrors(j) => DoneKeeps(s, j);
    }
  }

  /** Every turn of every tab keeps the invariant and takes nothing back. */
  lemma StepKeeps(s: System, step: Step)
    requires Inv(s) && Enabled(s, step)
    ensures Keeps(s, Next(s, step))
  {
    hide Inv, Onward, LoginTurn;
    if LoginTurn(step) {
      hide Enabled, Next;
      LoginStepKeeps(s, step);
    } else if step.CleanupEnters? || step.CleanupDeletes? || step.CleanupErrors? {
      hide Enabled, Next;
      CleanupSteps(s, step);
    } else {
      RemainingKeeps(s, step);
    }
  }

  lemma RemainingKeeps(s: System, step: Step)
    requires Inv(s) && Enabled(s, step) && !LoginTurn(step)
    requires !step.CleanupEnters? && !step.CleanupDeletes? && !step.CleanupErrors?
    ensures Keeps(s, Next(s, step))
  {
    hide Inv, Onward, Next, Enabled;
    match step {
      case Tick(later) => SimpleKeeps(s, step);
      case Corrupt(sealed) => SimpleKeeps(s, step);
      case StartLogin(t, j) => SimpleKeeps(s, step);
      case StartRestore(t, j) => SimpleKeeps(s, step);
      case Reopen(_) => TabSteps(s, step);
      case Logout(_, _) => TabSteps(s, step);
      case Unauthorized(_, _, _) => TabSteps(s, step);
      case ExternalRemoval(_, _) => TabSteps(s, step);
      case ExternalInvalidation(_) => TabSteps(s, step);
      case _ => RestoreStepKeeps(s, step);
    }
  }

  lemma SimpleKeeps(s: System, step: Step)
    requires Inv(s) && Enabled(s, step) && (step.Tick? || step.Corrupt? || step.StartLogin? || step.StartRestore?)
    ensures Keeps(s, Next(s, step))
  {
    TupleIssued(s);
    hide Inv, Onward, OwnerIsCurrent, LoginStarted;
    match step {
      case Tick(later) => TimePasses(s, later);
      case Corrupt(sealed) => TupleSet(s, s.tuple.(sealed := sealed));
      case StartLogin(t, j) => StartKeeps(s, t, j);
      case StartRestore(t, j) => JobBegun(s, j, Restore(t, s.tabs[t].generation, Resting));
    }
  }

  // ------------------------------------------------------------------
  // One token at a time
  // ------------------------------------------------------------------

  ghost predicate Execution(states: seq<System>, steps: seq<Step>) {
    && |states| == |steps| + 1
    && forall i :: 0 <= i < |steps| ==> Enabled(states[i], steps[i]) && states[i + 1] == Next(states[i], steps[i])
  }

  /** Freshly opened tabs over whatever an earlier run of the app left behind. */
  ghost predicate Initial(s: System) {
    && SharedOk(s) && s.jobs == map[]
    && forall t :: 0 <= t < |s.tabs| ==> s.tabs[t].session.None? && s.tabs[t].active.None?
  }

  lemma {:induction false} RunKeeps(states: seq<System>, steps: seq<Step>, i: nat, j: nat)
    requires Execution(states, steps) && i <= j <= |steps| && Inv(states[i])
    ensures Keeps(states[i], states[j])
    decreases j
  {
    hide Inv, Onward, Enabled, Next;
    if i == j {
      Nothing(states[i]);
    } else {
      RunKeeps(states, steps, i, j - 1);
      StepKeeps(states[j - 1], steps[j - 1]);
      KeepsTransitive(states[i], states[j - 1], states[j]);
    }
  }

  /** With or without Web Locks, at every moment of every interleaving, all tabs
      that can supply a bearer token supply the same one. */
  lemma OneToken(states: seq<System>, steps: seq<Step>, i: nat, t: nat, u: nat)
    requires Execution(states, steps) && Initial(states[0]) && i <= |steps|
    requires t < |states[i].tabs| && u < |states[i].tabs|
    ensures var s := states[i];
            Token(s.tabs[t], s.marker, s.now).Some? && Token(s.tabs[u], s.marker, s.now).Some? ==>
              Token(s.tabs[t], s.marker, s.now) == Token(s.tabs[u], s.marker, s.now)
  {
    hide Enabled, Next, Onward, SharedOk, Distinct, Exclusive, JobsOk;
    assert Inv(states[0]) by { EmptyInv(states[0]); }
    RunKeeps(states, steps, 0, i);
    assert TabOk(states[i], states[i].tabs[t]) && TabOk(states[i], states[i].tabs[u]);
  }

  lemma EmptyInv(s: System)
    requires Initial(s)
    ensures Inv(s)
  {
  }

  // ------------------------------------------------------------------
  // Revocation wins
  // ------------------------------------------------------------------

  lemma MarkerMoves(s: System, step: Step)
    requires Enabled(s, step)
    ensures var s' := Next(s, step); s'.marker.None? || s'.marker == s.marker || s'.marker == Some(s.next)
  {
  }

  /** A marker that has been removed or replaced never comes back, so no tab ever
      again supplies the token of its login. */
  lemma {:induction false} GoneForGood(states: seq<System>, steps: seq<Step>, i: nat, j: nat, m: Marker)
    requires Execution(states, steps) && i <= j <= |steps| && Inv(states[i])
    requires m < states[i].next && states[i].marker != Some(m)
    ensures m < states[j].next && states[j].marker != Some(m)
    ensures forall t :: 0 <= t < |states[j].tabs| && states[j].tabs[t].active == Some(m) ==>
              Token(states[j].tabs[t], states[j].marker, states[j].now).None?
    decreases j
  {
    hide Inv, Enabled, Next;
    if i < j {
      GoneForGood(states, steps, i, j - 1, m);
      RunKeeps(states, steps, i, j - 1);
      StepKeeps(states[j - 1], steps[j - 1]);
      MarkerMoves(states[j - 1], steps[j - 1]);
    }
  }

  /** A login whose tab has left the lifecycle it began in. */
  predicate Overtaken(s: System, j: nat) {
    HasLogin(s, j) && s.jobs[j].generation < s.tabs[s.jobs[j].tab].generation
  }

  /** An overtaken login stays overtaken, and its own turns publish nothing. */
  lemma OvertakenNeverPublishes(s: System, step: Step, j: nat)
    requires Inv(s) && Enabled(s, step) && Overtaken(s, j)
    ensures j in Next(s, step).jobs ==> Overtaken(Next(s, step), j)
    ensures step == LoginMarks(j) ==> Next(s, step).marker == s.marker && Next(s, step).tabs == s.tabs
    ensures step.LoginPublishes? && step.j == j ==>
              Next(s, step).published == s.published && Next(s, step).tabs == s.tabs
  {
    hide Inv, Enabled;
    StepKeeps(s, step);
    JobKeepsBirth(s, step, j);
  }

  lemma BirthTurn(s: System, step: Step, j: nat)
    requires Enabled(s, step) && HasLogin(s, j) && Mover(step) == Some(j)
    ensures LoginTurn(step)
    ensures j in Next(s, step).jobs ==>
              var job := Next(s, step).jobs[j];
              job.Login? && job.tab == s.jobs[j].tab && job.generation == s.jobs[j].generation
  {
    hide LockFree, Invalidated, PublishedTab, Unexpired, Live;
  }

  lemma JobKeepsBirth(s: System, step: Step, j: nat)
    requires Enabled(s, step) && HasLogin(s, j)
    ensures j in Next(s, step).jobs ==>
              var job := Next(s, step).jobs[j];
              job.Login? && job.tab == s.jobs[j].tab && job.generation == s.jobs[j].generation
  {
    hide Next, Enabled;
    TurnsApart(s, step);
    if Mover(step) == Some(j) {
      BirthTurn(s, step, j);
    }
  }

  /** The login that made `m` was overtaken before it published. */
  ghost predicate Lost(s: System, m: Marker) {
    && m < s.next && m !in s.published
    && forall j :: j in s.jobs && OwnMarker(s.jobs[j]) == Some(m) ==> Overtaken(s, j)
  }

  lemma LostStays(s: System, step: Step, m: Marker)
    requires Inv(s) && Enabled(s, step) && Lost(s, m)
    ensures Lost(Next(s, step), m)
  {
    var s' := Next(s, step);
    StepKeeps(s, step);
    hide Inv;
    forall j | j in s'.jobs && OwnMarker(s'.jobs[j]) == Some(m) ensures Overtaken(s', j) {
      MarkerOwned(s, step, j);
      OvertakenNeverPublishes(s, step, j);
    }
    hide OwnMarker;
    PublishesOwn(s, step);
  }

  lemma MarkerTurn(s: System, step: Step)
    requires Enabled(s, step) && LoginTurn(step) && Mover(step).value in Next(s, step).jobs
    ensures var j := Mover(step).value;
            OwnMarker(Next(s, step).jobs[j]).Some? ==>
              OwnMarker(Next(s, step).jobs[j]) == Some(s.next)
              || (j in s.jobs && OwnMarker(s.jobs[j]) == OwnMarker(Next(s, step).jobs[j]))
  {
    hide LockFree, Invalidated, PublishedTab, Unexpired, Live;
  }

  lemma NotLoginTurn(s: System, step: Step)
    requires Enabled(s, step) && !LoginTurn(step) && Mover(step).Some? && Mover(step).value in Next(s, step).jobs
    ensures OwnMarker(Next(s, step).jobs[Mover(step).value]).None?
  {
    hide LockFree, Invalidated, Without, DeletedIfOwnedBy, PublishedTab, Unexpired, Live, RestoreStands;
  }

  lemma MarkerOwned(s: System, step: Step, j: nat)
    requires Enabled(s, step) && j in Next(s, step).jobs && OwnMarker(Next(s, step).jobs[j]).Some?
    ensures OwnMarker(Next(s, step).jobs[j]) == Some(s.next)
            || (j in s.jobs && OwnMarker(s.jobs[j]) == OwnMarker(Next(s, step).jobs[j]))
  {
    hide Next, Enabled, LoginTurn;
    TurnsApart(s, step);
    if Mover(step) == Some(j) {
      if LoginTurn(step) {
        MarkerTurn(s, step);
      } else {
        NotLoginTurn(s, step);
      }
    }
  }

  lemma PublishesOwn(s: System, step: Step)
    requires Enabled(s, step)
    ensures forall m :: m in Next(s, step).published && m !in s.published ==>
              step.LoginPublishes? && OwnMarker(s.jobs[step.j]) == Some(m) && Live(s, step.j)
  {
  }

  /** Any revoke between a login's start and its publication wins for ever: the
      attempt's marker is never published in any continuation. */
  lemma {:induction false} RevokeWins(states: seq<System>, steps: seq<Step>, i: nat, j: nat, m: Marker)
    requires Execution(states, steps) && i <= j <= |steps| && Inv(states[i]) && Lost(states[i], m)
    ensures m !in states[j].published
    ensures Lost(states[j], m)
    decreases j
  {
    hide Inv, Enabled, Next, Onward;
    if i < j {
      RevokeWins(states, steps, i, j - 1, m);
      hide Lost;
      RunKeeps(states, steps, i, j - 1);
      LostStays(states[j - 1], steps[j - 1], m);
    }
  }

  /** The job is in flight from one moment to the other. */
  ghost predicate InFlight(states: seq<System>, i: nat, k: nat, j: nat)
    requires i <= k < |states|
  {
    forall n :: i <= n <= k ==> j in states[n].jobs
  }

  /** A login overtaken at any point, before or after it marked itself, is overtaken
      as long as it runs: none of its turns marks or publishes anything. */
  lemma {:induction false} OvertakenForGood(states: seq<System>, steps: seq<Step>, i: nat, k: nat, j: nat)
    requires Execution(states, steps) && i <= k <= |steps| && Inv(states[i]) && Overtaken(states[i], j)
    requires InFlight(states, i, k, j)
    ensures Overtaken(states[k], j)
    ensures k < |steps| && steps[k] == LoginMarks(j) ==>
              states[k + 1].marker == states[k].marker && states[k + 1].tabs == states[k].tabs
    ensures k < |steps| && steps[k].LoginPublishes? && steps[k].j == j ==>
              && states[k + 1].published == states[k].published && states[k + 1].tabs == states[k].tabs
              && states[k + 1].marker == states[k].marker
    decreases k
  {
    hide Inv, Enabled, Next, Onward, Overtaken;
    if i < k {
      OvertakenForGood(states, steps, i, k - 1, j);
      RunKeeps(states, steps, i, k - 1);
      OvertakenNeverPublishes(states[k - 1], steps[k - 1], j);
    }
    RunKeeps(states, steps, i, k);
    if k < |steps| {
      OvertakenNeverPublishes(states[k], steps[k], j);
      if steps[k].LoginPublishes? {
        PublishKeepsMarker(states[k], steps[k]);
      }
    }
  }

  lemma PublishKeepsMarker(s: System, step: Step)
    requires Enabled(s, step) && step.LoginPublishes?
    ensures Next(s, step).marker == s.marker
  {
  }

  /** A 401 or a logout after the login began puts its attempt in that position. */
  lemma RevokeOvertakes(s: System, t: nat, k: nat, j: nat)
    requires Inv(s) && t < |s.tabs| && k !in s.jobs && HasLogin(s, j) && s.jobs[j].tab == t
    ensures Overtaken(Next(s, Logout(t, k)), j)
    ensures OwnMarker(s.jobs[j]).Some? ==> Lost(Next(s, Logout(t, k)), OwnMarker(s.jobs[j]).value)
  {
    GetJobOk(s, j);
    var s' := Next(s, Logout(t, k));
    assert Overtaken(s', j);
    if OwnMarker(s.jobs[j]).Some? {
      var m := OwnMarker(s.jobs[j]).value;
      forall i | i in s'.jobs && OwnMarker(s'.jobs[i]) == Some(m) ensures Overtaken(s', i) {
        assert i != k && i == j;
      }
    }
  }

  // ------------------------------------------------------------------
  // Late answers
  // ------------------------------------------------------------------

  function SnapshotOf(s: System, t: nat): Snapshot
    requires t < |s.tabs|
  {
    Snapshot(Token(s.tabs[t], s.marker, s.now), s.tabs[t].generation)
  }

  /** However late a 401 arrives, it revokes only the login whose token the
      request carried: the session it ends has the marker it was sent under. */
  lemma LateUnauthorized(states: seq<System>, steps: seq<Step>, i: nat, j: nat, t: nat)
    requires Execution(states, steps) && i <= j <= |steps| && Inv(states[i]) && t < |states[i].tabs|
    ensures t < |states[j].tabs|
    ensures Concerns(states[j].tabs[t], Some(SnapshotOf(states[i], t))) ==>
              && states[j].tabs[t].active.Some? && states[j].tabs[t].active == states[i].tabs[t].active
              && states[j].tabs[t].generation == states[i].tabs[t].generation
  {
    hide Enabled, Next, Distinct, Exclusive, JobsOk;
    RunKeeps(states, steps, i, j);
    var was, tab := states[i].tabs[t], states[j].tabs[t];
    assert TabOk(states[i], was) && TabOk(states[j], tab);
  }

  // ------------------------------------------------------------------
  // What survives under the lock
  // ------------------------------------------------------------------

  /** What the holder of the cross-tab lock may rely on. */
  predicate HolderOk(s: System, job: Job) {
    match job
    case Login(_, _, Writing(m, _)) => s.marker == Some(m)
    case Login(_, _, Written(m, _)) => s.marker == Some(m) && s.tuple.owner == Some(m)
    case Restore(_, _, Reading(seen)) => s.marker == seen
    case Restore(_, _, Checking(seen, tuple)) => s.marker == seen && (s.tuple.sealed.Holds? ==> s.tuple == tuple)
    case Restore(_, _, Decrypting(m, sealed)) =>
      s.marker == Some(m) && (s.tuple.sealed.Holds? ==> s.tuple.sealed == sealed)
    case Restore(_, _, Deriving(m, session)) =>
      s.marker == Some(m) && (s.tuple.sealed.Holds? ==> s.tuple.sealed.session == session)
    case Restore(_, _, Sealing(m, _)) => s.marker == Some(m)
    case Restore(_, _, Upgrading(m, _)) => s.marker == Some(m)
    case Restore(_, _, Migrating(m, _)) => s.marker == Some(m)
    case Restore(_, _, Deleting(_)) => s.marker.None?
    case Cleanup(_, expected, true) => expected.None? || s.marker != expected
    case _ => true
  }

  ghost predicate Holders(s: System) {
    forall j :: j in s.jobs && InLock(s.jobs[j]) ==> HolderOk(s, s.jobs[j])
  }

  /** Marker and tuple change only at the hands of a job inside the lock, but for
      corruption, which takes a sealed session away. */
  lemma SharedChanges(s: System, step: Step)
    requires Enabled(s, step)
    ensures var s' := Next(s, step);
            s'.marker != s.marker || s'.tuple != s.tuple ==>
              || (step.Corrupt? && s'.marker == s.marker && !s'.tuple.sealed.Holds?)
              || (Mover(step).Some? && Mover(step).value in s.jobs
                  && (InLock(s.jobs[Mover(step).value]) || (step.CleanupEnters? && LockFree(s, s.jobs[step.j]))))
  {
  }

  /** A job another job's turn leaves in the lock was in the lock, unchanged. */
  lemma OthersAlone(s: System, step: Step, k: nat)
    requires Enabled(s, step) && k in Next(s, step).jobs && InLock(Next(s, step).jobs[k]) && Mover(step) != Some(k)
    ensures k in s.jobs && Next(s, step).jobs[k] == s.jobs[k]
  {
    TurnsApart(s, step);
    hide Next, Enabled;
  }

  lemma OtherHolder(s: System, step: Step, k: nat)
    requires s.locks && Inv(s) && Enabled(s, step) && Holders(s)
    requires k in Next(s, step).jobs && InLock(Next(s, step).jobs[k]) && Mover(step) != Some(k)
    ensures HolderOk(Next(s, step), Next(s, step).jobs[k])
  {
    OthersAlone(s, step, k);
    SharedChanges(s, step);
    hide SharedOk, TabsOk, JobsOk, Distinct, InLock, Enabled, Next;
  }

  lemma RestoreStarts(s: System, step: Step)
    requires Enabled(s, step) && (step.RestoreEnters? || step.RestoreReads? || step.RestoreChecks?)
    requires InLock(s.jobs[step.j]) ==> HolderOk(s, s.jobs[step.j])
    ensures var s' := Next(s, step);
            step.j in s'.jobs && InLock(s'.jobs[step.j]) ==> HolderOk(s', s'.jobs[step.j])
  {
    hide LockFree, Invalidated;
  }

  lemma RestoreTurns(s: System, step: Step)
    requires Enabled(s, step)
    requires step.RestoreDecrypts? || step.RestoreDerives? || step.RestoreSeals? || step.RestoreUpgrades?
    requires HolderOk(s, s.jobs[step.j])
    ensures var s' := Next(s, step);
            step.j in s'.jobs && InLock(s'.jobs[step.j]) ==> HolderOk(s', s'.jobs[step.j])
  {
    hide LockFree, Invalidated, Unexpired;
  }

  lemma OwnTurn(s: System, step: Step)
    requires Enabled(s, step) && Mover(step).Some? && Mover(step).value in s.jobs
    requires InLock(s.jobs[Mover(step).value]) ==> HolderOk(s, s.jobs[Mover(step).value])
    ensures var s', j := Next(s, step), Mover(step).value;
            j in s'.jobs && InLock(s'.jobs[j]) ==> HolderOk(s', s'.jobs[j])
  {
    if step.RestoreEnters? || step.RestoreReads? || step.RestoreChecks? {
      RestoreStarts(s, step);
    } else if step.RestoreDecrypts? || step.RestoreDerives? || step.RestoreSeals? || step.RestoreUpgrades? {
      RestoreTurns(s, step);
    }
  }

  lemma HoldersStay(s: System, step: Step)
    requires s.locks && Inv(s) && Enabled(s, step) && Holders(s)
    ensures Holders(Next(s, step))
  {
    hide Inv, Next, Enabled, InLock, HolderOk;
    var s' := Next(s, step);
    forall k | k in s'.jobs && InLock(s'.jobs[k]) ensures HolderOk(s', s'.jobs[k]) {
      if Mover(step) == Some(k) {
        MoverExists(s, step);
        OwnTurn(s, step);
      } else {
        OtherHolder(s, step, k);
      }
    }
  }

  lemma MoverExists(s: System, step: Step)
    requires Enabled(s, step) && Mover(step).Some?
    ensures Mover(step).value in s.jobs
  {
  }

  /** A login's marker and the sealed session it owns are both in place. */
  predicate Installed(s: System, m: Marker) {
    s.marker == Some(m) && s.tuple.owner == Some(m) && s.tuple.sealed.Holds?
  }

  /** The marking turn of a live login that observed `m` itself. */
  predicate MarksOver(s: System, j: nat, m: Marker) {
    && HasLogin(s, j) && s.jobs[j].login.Preparing? && s.jobs[j].login.observed == Some(m)
    && Live(s, j) && Unexpired(s.jobs[j].login.session, s.now)
  }

  /** The only turns that may end an installed login: one that observed it marks
      itself, its own revocation is carried out, a restore finds it expired or its
      scope forged, or the store is damaged. */
  predicate MayEnd(s: System, step: Step, m: Marker) {
    match step
    case LoginMarks(j) => MarksOver(s, j, m)
    case CleanupEnters(j) => j in s.jobs && s.jobs[j].Cleanup? && s.jobs[j].expected == Some(m)
    case RestoreDecrypts(_) => s.tuple.sealed.Holds? && !Unexpired(s.tuple.sealed.session, s.now)
    case RestoreDerives(_) => s.tuple.sealed.Holds? && s.tuple.sealed.session.scope.Mismatched?
    case Corrupt(_) => true
    case _ => false
  }

  lemma InstalledSurvives(s: System, step: Step, m: Marker)
    requires s.locks && Enabled(s, step) && Holders(s) && Installed(s, m) && !MayEnd(s, step, m)
    ensures Installed(Next(s, step), m)
  {
    if Mover(step).Some? {
      MoverExists(s, step);
      var job := s.jobs[Mover(step).value];
      assert InLock(job) ==> HolderOk(s, job);
    }
  }

  lemma {:induction false} InstalledStays(states: seq<System>, steps: seq<Step>, i: nat, j: nat, m: Marker)
    requires Execution(states, steps) && i <= j <= |steps|
    requires states[i].locks && Inv(states[i]) && Holders(states[i]) && Installed(states[i], m)
    requires forall k :: i <= k < j ==> !MayEnd(states[k], steps[k], m)
    ensures Installed(states[j], m) && Holders(states[j]) && states[j].locks
    decreases j
  {
    hide Inv, Holders, Enabled, Next, Installed, MayEnd;
    if i < j {
      InstalledStays(states, steps, i, j - 1, m);
      RunKeeps(states, steps, i, j - 1);
      StepKeeps(states[j - 1], steps[j - 1]);
      HoldersStay(states[j - 1], steps[j - 1]);
      InstalledSurvives(states[j - 1], steps[j - 1], m);
    }
  }

  /** Under Web Locks the holder of the lock may rely on what it has read, at every
      moment of every run. */
  lemma {:induction false} HoldersHold(states: seq<System>, steps: seq<Step>, i: nat)
    requires Execution(states, steps) && Initial(states[0]) && states[0].locks && i <= |steps|
    ensures Inv(states[i]) && Holders(states[i]) && states[i].locks
    decreases i
  {
    hide Inv, Enabled, Next, InLock, HolderOk, SharedOk;
    if i == 0 {
      EmptyInv(states[0]);
    } else {
      HoldersHold(states, steps, i - 1);
      hide Holders, Initial;
      StepKeeps(states[i - 1], steps[i - 1]);
      HoldersStay(states[i - 1], steps[i - 1]);
    }
  }

  /** The marker a login is going by, before it makes its own. */
  function Observed(job: Job): Option<Option<Marker>> {
    match job
    case Login(_, _, Requesting(observed)) => Some(observed)
    case Login(_, _, Answered(observed, _)) => Some(observed)
    case Login(_, _, Preparing(observed, _)) => Some(observed)
    case _ => None
  }

  lemma ObservedLoginTurn(s: System, step: Step)
    requires Enabled(s, step) && LoginTurn(step) && Mover(step).value in Next(s, step).jobs
    requires Observed(Next(s, step).jobs[Mover(step).value]).Some?
    ensures var j := Mover(step).value;
            var seen := Observed(Next(s, step).jobs[j]);
            (step == LoginObserves(j) && seen == Some(s.marker)) || (j in s.jobs && Observed(s.jobs[j]) == seen)
  {
    hide LockFree, Invalidated, PublishedTab, Unexpired, Live;
  }

  lemma OnlyLoginsObserve(s: System, step: Step)
    requires Enabled(s, step) && !LoginTurn(step) && Mover(step).Some? && Mover(step).value in Next(s, step).jobs
    ensures Observed(Next(s, step).jobs[Mover(step).value]).None?
  {
    hide LockFree, Invalidated, Without, DeletedIfOwnedBy, PublishedTab, Unexpired, Live, RestoreStands;
  }

  lemma ObservedTurn(s: System, step: Step, j: nat)
    requires Enabled(s, step) && j in Next(s, step).jobs && Observed(Next(s, step).jobs[j]).Some?
    ensures var seen := Observed(Next(s, step).jobs[j]);
            (step == LoginObserves(j) && seen == Some(s.marker)) || (j in s.jobs && Observed(s.jobs[j]) == seen)
  {
    hide Next, Enabled, LoginTurn;
    TurnsApart(s, step);
    if Mover(step) == Some(j) {
      if LoginTurn(step) {
        ObservedLoginTurn(s, step);
      } else {
        OnlyLoginsObserve(s, step);
      }
    }
  }

  /** The login began by reading `m` as the shared marker. */
  ghost predicate BeganUnder(states: seq<System>, steps: seq<Step>, k: nat, j: nat, m: Option<Marker>)
    requires k <= |steps| && |states| == |steps| + 1
  {
    exists o :: 0 <= o < k && steps[o] == LoginObserves(j) && states[o].marker == m
  }

  /** What a login goes by is what it read in a turn of its own. */
  lemma {:induction false} ObservedEarlier(states: seq<System>, steps: seq<Step>, k: nat, j: nat)
    requires Execution(states, steps) && states[0].jobs == map[] && k <= |steps|
    requires j in states[k].jobs && Observed(states[k].jobs[j]).Some?
    ensures BeganUnder(states, steps, k, j, Observed(states[k].jobs[j]).value)
    decreases k
  {
    hide Enabled, Next, Observed;
    ObservedTurn(states[k - 1], steps[k - 1], j);
    if steps[k - 1] != LoginObserves(j) || Observed(states[k].jobs[j]) != Some(states[k - 1].marker) {
      ObservedEarlier(states, steps, k - 1, j);
      var o :| 0 <= o < k - 1 && steps[o] == LoginObserves(j) && states[o].marker == Observed(states[k].jobs[j]).value;
      assert 0 <= o < k;
    }
  }

  /** The turn ends login `m` in one of the five ways, a login that marks itself
      having read `m` when it began. */
  ghost predicate Ends(states: seq<System>, steps: seq<Step>, k: nat, m: Marker)
    requires k < |steps| && |states| == |steps| + 1
  {
    && MayEnd(states[k], steps[k], m)
    && (steps[k].LoginMarks? ==> BeganUnder(states, steps, k, steps[k].j, Some(m)))
    && (steps[k].CleanupEnters? ==> m in states[k].revoked)
  }

  lemma MayEndEnds(states: seq<System>, steps: seq<Step>, k: nat, m: Marker)
    requires Execution(states, steps) && Initial(states[0]) && k < |steps| && Inv(states[k])
    ensures MayEnd(states[k], steps[k], m) ==> Ends(states, steps, k, m)
  {
    hide Inv, BeganUnder, Next, SharedOk, Live, Unexpired, LockFree;
    var s, step := states[k], steps[k];
    if MayEnd(s, step, m) {
      if step.LoginMarks? {
        ObservedEarlier(states, steps, k, step.j);
      } else if step.CleanupEnters? {
        GetJobOk(s, step.j);
      }
    }
  }

  /** Under Web Locks, from the first moment on, an installed login lasts until a
      login that began under it marks itself, or its own removal was asked for, or
      a restore finds it expired or forged, or the store is damaged. A login that
      began before it, or without it, takes all its turns in vain. */
  lemma InstalledLasts(states: seq<System>, steps: seq<Step>, i: nat, j: nat, m: Marker)
    requires Execution(states, steps) && Initial(states[0]) && states[0].locks && i <= j <= |steps|
    requires Installed(states[i], m) && forall k :: i <= k < j ==> !Ends(states, steps, k, m)
    ensures Installed(states[j], m)
  {
    hide Inv, Holders, Enabled, Next, Installed, MayEnd, Ends, SharedOk;
    HoldersHold(states, steps, i);
    forall k | i <= k < j ensures !MayEnd(states[k], steps[k], m) {
      HoldersHold(states, steps, k);
      MayEndEnds(states, steps, k, m);
    }
    InstalledStays(states, steps, i, j, m);
  }

  /** A login that publishes under the lock leaves its marker and tuple in place. */
  lemma PublishFindsInstalled(s: System, j: nat, k: nat)
    requires s.locks && Holders(s) && Enabled(s, LoginPublishes(j, k))
    requires Next(s, LoginPublishes(j, k)).published != s.published
    ensures var s', m := Next(s, LoginPublishes(j, k)), s.jobs[j].login.marker;
            && m in s'.published && s'.marker == Some(m) && s'.tuple.owner == Some(m)
            && (s'.tuple.sealed.Holds? ==> Installed(s', m))
            && OwnerIsCurrent(s'.tabs[s.jobs[j].tab], s'.marker, s.jobs[j].login.session.expires - 1)
  {
    assert HolderOk(s, s.jobs[j]);
  }

  lemma RevokedAlone(s: System, step: Step)
    requires Enabled(s, step) && !step.Logout? && !step.Unauthorized? && !step.LoginPublishes? && !step.LoginErrors?
    ensures Next(s, step).revoked == s.revoked
  {
    hide LockFree, Invalidated, Without, DeletedIfOwnedBy, PublishedTab, Unexpired, Live, RestoreStands;
  }

  lemma AttemptRevoked(s: System, step: Step)
    requires Enabled(s, step) && (step.LoginPublishes? || step.LoginErrors?)
    ensures forall m :: m in Next(s, step).revoked && m !in s.revoked ==> OwnMarker(s.jobs[step.j]) == Some(m)
  {
    hide LockFree, Invalidated, PublishedTab, Live;
  }

  /** A cleanup aims only at a marker whose removal was asked for, and once a login
      is published only a tab signed in under its marker can ask for that. */
  lemma OnlyOwnRevocation(s: System, step: Step, m: Marker)
    requires Inv(s) && Enabled(s, step)
    ensures step.CleanupEnters? && s.jobs[step.j].expected == Some(m) ==> m in s.revoked
    ensures m in s.published && m in Next(s, step).revoked && m !in s.revoked ==>
              (step.Logout? || step.Unauthorized?) && s.tabs[step.t].active == Some(m)
  {
    if Mover(step).Some? {
      MoverExists(s, step);
      GetJobOk(s, Mover(step).value);
    }
    hide Inv, LockFree, Invalidated;
    if step.LoginPublishes? || step.LoginErrors? {
      AttemptRevoked(s, step);
      hide Next, OwnMarker;
    } else if !step.Logout? && !step.Unauthorized? {
      RevokedAlone(s, step);
      hide Next;
    }
  }

  // ------------------------------------------------------------------
  // Without the lock
  // ------------------------------------------------------------------

  /** The restore has read a marker and a tuple that is not that marker's. */
  predicate Torn(s: System, j: nat) {
    && HasRestore(s, j) && s.jobs[j].restore.Checking?
    && s.jobs[j].restore.seen.Some? && s.jobs[j].restore.tuple.owner != s.jobs[j].restore.seen
  }

  lemma TornTurn(s: System, step: Step, j: nat)
    requires Enabled(s, step) && Torn(s, j)
    ensures Mover(step) == Some(j) ==> Next(s, step) == Done(s, j)
    ensures Mover(step) != Some(j) && j in Next(s, step).jobs ==>
              Next(s, step).jobs[j] == s.jobs[j] && |Next(s, step).tabs| == |s.tabs|
  {
    TurnsApart(s, step);
    if Mover(step) == Some(j) {
      hide LockFree, Invalidated, PublishedTab, Unexpired, Live;
    } else {
      TabsStay(s, step);
      hide Next, Enabled;
    }
  }

  lemma LoginTabsStay(s: System, step: Step)
    requires Enabled(s, step) && LoginTurn(step)
    ensures |Next(s, step).tabs| == |s.tabs|
  {
    hide LockFree, Invalidated, PublishedTab, Unexpired, Live;
  }

  lemma OtherTabsStay(s: System, step: Step)
    requires Enabled(s, step) && !LoginTurn(step)
    ensures |Next(s, step).tabs| == |s.tabs|
  {
    hide LockFree, Invalidated, Without, DeletedIfOwnedBy, PublishedTab, Unexpired, Live, RestoreStands, Concerns,
         JobsOutside;
  }

  lemma TabsStay(s: System, step: Step)
    requires Enabled(s, step)
    ensures |Next(s, step).tabs| == |s.tabs|
  {
    hide Enabled, Next, LoginTurn;
    if LoginTurn(step) {
      LoginTabsStay(s, step);
    } else {
      OtherTabsStay(s, step);
    }
  }

  lemma {:induction false} TornStays(states: seq<System>, steps: seq<Step>, i: nat, k: nat, j: nat)
    requires Execution(states, steps) && i <= k <= |steps| && Torn(states[i], j) && InFlight(states, i, k, j)
    ensures Torn(states[k], j) && states[k].jobs[j] == states[i].jobs[j]
    decreases k
  {
    hide Enabled, Next;
    if i < k {
      TornStays(states, steps, i, k - 1, j);
      hide Torn;
      TornTurn(states[k - 1], steps[k - 1], j);
      assert j !in Done(states[k - 1], j).jobs;
      assert Torn(states[k], j) by { SameJobTorn(states[k - 1], states[k], j); }
    }
  }

  lemma SameJobTorn(s: System, s': System, j: nat)
    requires Torn(s, j) && j in s'.jobs && s'.jobs[j] == s.jobs[j] && |s'.tabs| == |s.tabs|
    ensures Torn(s', j)
  {
  }

  lemma RestoreReadsTorn(states: seq<System>, steps: seq<Step>, e: nat, r: nat, j: nat)
    requires Execution(states, steps) && e < r < |steps| && InFlight(states, e + 1, r + 1, j)
    requires steps[e] == RestoreEnters(j) && steps[r] == RestoreReads(j)
    requires forall n :: e < n < r ==> Mover(steps[n]) != Some(j)
    requires states[e].marker.Some? && states[r].tuple.owner != states[e].marker
    ensures Torn(states[r + 1], j)
  {
    assert states[e + 1] == Next(states[e], steps[e]) && j in states[e + 1].jobs;
    EnteredSaw(states[e], steps[e], j);
    assert forall n :: e < n <= r ==> states[n].jobs[j] == states[e + 1].jobs[j] by {
      Undisturbed(states, steps, e + 1, r, j);
    }
    TabsStay(states[r], steps[r]);
    assert Enabled(states[r], steps[r]) && states[r + 1] == Next(states[r], steps[r]);
    assert states[r].jobs[j].restore == Reading(states[e].marker);
  }

  lemma EnteredSaw(s: System, step: Step, j: nat)
    requires Enabled(s, step) && step == RestoreEnters(j) && j in Next(s, step).jobs
    ensures Next(s, step).jobs[j].Restore? && Next(s, step).jobs[j].restore == Reading(s.marker)
  {
  }

  /** A job is as it was as long as it has no turn. */
  lemma {:induction false} Undisturbed(states: seq<System>, steps: seq<Step>, i: nat, k: nat, j: nat)
    requires Execution(states, steps) && i <= k <= |steps| && InFlight(states, i, k, j)
    requires forall n :: i <= n < k ==> Mover(steps[n]) != Some(j)
    ensures forall n :: i <= n <= k ==> states[n].jobs[j] == states[i].jobs[j]
    decreases k
  {
    hide Enabled, Next;
    if i < k {
      Undisturbed(states, steps, i, k - 1, j);
      TurnsApart(states[k - 1], steps[k - 1]);
    }
  }

  /** A restore that saw a marker and then read a tuple of another owner fails
      closed: whatever happens meanwhile, its next turn only ends it, and no tab,
      marker, tuple or publication changes by it. */
  lemma RestoreFailsClosed(states: seq<System>, steps: seq<Step>, e: nat, r: nat, k: nat, j: nat)
    requires Execution(states, steps) && e < r < k < |steps| && InFlight(states, e + 1, k, j)
    requires steps[e] == RestoreEnters(j) && steps[r] == RestoreReads(j)
    requires forall n :: e < n < r ==> Mover(steps[n]) != Some(j)
    requires states[e].marker.Some? && states[r].tuple.owner != states[e].marker
    ensures Mover(steps[k]) == Some(j) ==> states[k + 1] == Done(states[k], j)
    ensures forall n :: r < n < k ==> Mover(steps[n]) != Some(j)
  {
    hide Enabled, Next, Torn, Mover;
    RestoreReadsTorn(states, steps, e, r, j);
    TornStays(states, steps, r + 1, k, j);
    TornTurn(states[k], steps[k], j);
    forall n | r < n < k ensures Mover(steps[n]) != Some(j) {
      TornStays(states, steps, r + 1, n, j);
      TornTurn(states[n], steps[n], j);
      assert j !in Done(states[n], j).jobs && j in states[n + 1].jobs;
    }
  }

  const OLDER := Session("a", 100, Matching)
  const NEWER := Session("b", 100, Matching)

  const SIGNED_OUT := Tab(None, 0, None, None)
  const STARTED := Tab(None, 1, None, None)

  /** Two tabs of a browser that has no Web Locks. */
  function World(marker: Option<Marker>, tuple: Tuple, tabs: seq<Tab>, jobs: map<nat, Job>, next: Marker,
                 tokens: set<Id>, issued: map<Marker, Session>, published: set<Marker>): System
  {
    System(marker, tuple, tabs, jobs, 0, false, next, tokens, issued, published, {})
  }

  const BLANK := World(None, NO_TUPLE, [SIGNED_OUT, SIGNED_OUT], map[], 0, {}, map[], {})

  const OLDER_ANSWERED :=
    World(None, NO_TUPLE, [STARTED, SIGNED_OUT], map[0 := Login(0, 1, Answered(None, OLDER))], 0, {"a"}, map[], {})

  const OLDER_MARKED :=
    World(Some(0), NO_TUPLE, [STARTED, SIGNED_OUT], map[0 := Login(0, 1, Writing(0, OLDER))], 1, {"a"},
          map[0 := OLDER], {})

  const NEWER_ANSWERED :=
    World(Some(0), NO_TUPLE, [STARTED, STARTED],
          map[0 := Login(0, 1, Writing(0, OLDER)), 1 := Login(1, 1, Answered(Some(0), NEWER))], 1,
          {"a", "b"}, map[0 := OLDER], {})

  const NEWER_MARKED :=
    World(Some(1), NO_TUPLE, [STARTED, STARTED],
          map[0 := Login(0, 1, Writing(0, OLDER)), 1 := Login(1, 1, Writing(1, NEWER))], 2,
          {"a", "b"}, map[0 := OLDER, 1 := NEWER], {})

  const NEWER_PUBLISHED :=
    World(Some(1), Tuple(Holds(NEWER), Some(1)), [STARTED, PublishedTab(1, NEWER, 1)],
          map[0 := Login(0, 1, Writing(0, OLDER))], 2,
          {"a", "b"}, map[0 := OLDER, 1 := NEWER], {1})

  ghost predicate Leads(s: System, steps: seq<Step>, s': System)
    decreases |steps|
  {
    if steps == [] then s == s' else Enabled(s, steps[0]) && Leads(Next(s, steps[0]), steps[1..], s')
  }

  lemma Leads3(s: System, a: Step, b: Step, c: Step, s': System)
    requires Enabled(s, a)
    requires Enabled(Next(s, a), b)
    requires Enabled(Next(Next(s, a), b), c)
    requires Next(Next(Next(s, a), b), c) == s'
    ensures Leads(s, [a, b, c], s')
  {
    hide Enabled, Next;
    var two, one := [b, c], [c];
    assert [a, b, c][1..] == two && two[1..] == one && one[1..] == [];
    assert Leads(Next(Next(Next(s, a), b), c), [], s');
    assert Leads(Next(Next(s, a), b), one, s');
    assert Leads(Next(s, a), two, s');
  }

  lemma Leads2(s: System, a: Step, b: Step, s': System)
    requires Enabled(s, a)
    requires Enabled(Next(s, a), b)
    requires Next(Next(s, a), b) == s'
    ensures Leads(s, [a, b], s')
  {
    hide Enabled, Next;
    var one := [b];
    assert [a, b][1..] == one && one[1..] == [];
    assert Leads(Next(Next(s, a), b), [], s');
    assert Leads(Next(s, a), one, s');
  }

  lemma OlderLogin()
    ensures Leads(BLANK, [StartLogin(0, 0), LoginObserves(0), LoginAnswers(0, OLDER)], OLDER_ANSWERED)
    ensures Leads(OLDER_ANSWERED, [LoginEnters(0), LoginMarks(0)], OLDER_MARKED)
  {
    Leads3(BLANK, StartLogin(0, 0), LoginObserves(0), LoginAnswers(0, OLDER), OLDER_ANSWERED);
    Leads2(OLDER_ANSWERED, LoginEnters(0), LoginMarks(0), OLDER_MARKED);
  }

  lemma NewerLogin()
    ensures Leads(OLDER_MARKED, [StartLogin(1, 1), LoginObserves(1), LoginAnswers(1, NEWER)], NEWER_ANSWERED)
    ensures Leads(NEWER_ANSWERED, [LoginEnters(1), LoginMarks(1)], NEWER_MARKED)
  {
    Leads3(OLDER_MARKED, StartLogin(1, 1), LoginObserves(1), LoginAnswers(1, NEWER), NEWER_ANSWERED);
    Leads2(NEWER_ANSWERED, LoginEnters(1), LoginMarks(1), NEWER_MARKED);
  }

  lemma NewerPublishes()
    ensures Leads(NEWER_MARKED, [LoginWrites(1), LoginPublishes(1, 2)], NEWER_PUBLISHED)
  {
    Leads2(NEWER_MARKED, LoginWrites(1), LoginPublishes(1, 2), NEWER_PUBLISHED);
  }

  /** Without Web Locks an older login's tuple can land after a newer login has
      published: the newer marker stands, but its tuple is gone, by a turn that
      under the lock could not have ended it. (`OlderLogin`, `NewerLogin` and
      `NewerPublishes` are the run that leads here.) */
  lemma OlderWriteLandsLast()
    ensures var s := NEWER_PUBLISHED;
            && Installed(s, 1) && 1 in s.published && 1 !in s.revoked && Token(s.tabs[1], s.marker, s.now) == Some("b")
            && Enabled(s, LoginWrites(0)) && !MayEnd(s, LoginWrites(0), 1)
            && var late := Next(s, LoginWrites(0));
               !Installed(late, 1) && late.marker == Some(1) && late.tuple.owner == Some(0)
  {
  }

  const LATE_TUPLE := Next(NEWER_PUBLISHED, LoginWrites(0))

  const REOPENED :=
    World(Some(1), Tuple(Holds(OLDER), Some(0)), [STARTED, Tab(None, 2, None, None)],
          map[0 := Login(0, 1, Written(0, OLDER))], 2, {"a", "b"}, map[0 := OLDER, 1 := NEWER], {1})

  const RESTORING :=
    World(Some(1), Tuple(Holds(OLDER), Some(0)), [STARTED, Tab(None, 2, None, None)],
          map[0 := Login(0, 1, Written(0, OLDER)), 3 := Restore(1, 2, Reading(Some(1)))], 2, {"a", "b"},
          map[0 := OLDER, 1 := NEWER], {1})

  lemma LateTupleReopens()
    ensures Leads(NEWER_PUBLISHED, [LoginWrites(0), Reopen(1)], REOPENED)
  {
    assert JobsOutside(LATE_TUPLE, 1) == map[0 := Login(0, 1, Written(0, OLDER))];
    Leads2(NEWER_PUBLISHED, LoginWrites(0), Reopen(1), REOPENED);
  }

  /** The newer tab, reopened on that state, restores nothing: it is signed out
      under a marker that still stands, and the older login's session is not used. */
  lemma LateTupleSignsOut()
    ensures Leads(REOPENED, [StartRestore(1, 3), RestoreEnters(3)], RESTORING)
    ensures Leads(RESTORING, [RestoreReads(3), RestoreChecks(3)], REOPENED)
    ensures REOPENED.marker == Some(1)
    ensures forall t :: 0 <= t < 2 ==> Token(REOPENED.tabs[t], REOPENED.marker, REOPENED.now).None?
  {
    Leads2(REOPENED, StartRestore(1, 3), RestoreEnters(3), RESTORING);
    Leads2(RESTORING, RestoreReads(3), RestoreChecks(3), REOPENED);
  }
}
