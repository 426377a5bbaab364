/** The whole protocol: any number of tabs over one device store, requests and
    responses that may be lost, retries, crashes, account changes, other devices,
    and a server that applies one action at a time. A tab's flush is a bag of what
    it has read and been told, and it may act on any of it at any moment, so every
    interleaving of the real flushes is among the runs of this system. */
module EndToEnd {
  import opened Basics
  import opened Schema
  import opened Rbac
  import opened LocalStore
  import Service
  import Replay
  import Resolution
  import Idempotence

  // ------------------------------------------------------------------
  // State
  // ------------------------------------------------------------------

  /** A login: the claims behind the token, and the tab's lifecycle counter. */
  datatype Login = Login(owner: Owner, generation: nat)

  /** What one running flush knows: rows read, answers received with the rows they
      answer, ids learned from them, and the id maps as it last read them. */
  datatype Flush = Flush(
    run: nat,
    login: Login,
    seen: set<Stored>,
    answers: set<(Stored, ActionResult)>,
    newPlayers: IdMap,
    newSessions: IdMap,
    players: Versioned,
    sessions: Versioned)

  datatype Tab = Tab(login: Option<Login>, flush: Option<Flush>)

  /** A request: the rows as they were sent, under whose token, and the answers
      the server has produced so far. */
  datatype Request = Request(tab: nat, run: nat, token: Owner, batch: seq<Stored>, results: seq<ActionResult>)

  /** What is true of the world: the server's tables, the device's queue, and each
      action as it was first captured. */
  datatype Base = Base(db: Db, rows: Rows, captured: map<Id, Action>)

  datatype System = System(
    base: Base,
    players: map<Owner, Versioned>,
    sessions: map<Owner, Versioned>,
    tabs: seq<Tab>,
    requests: map<nat, Request>,
    clock: nat,
    drawn: seq<Id>)

  datatype Step =
    | SignIn(t: nat, owner: Owner)
    | SignOut(t: nat)
    | Capture(t: nat, action: Action)
    | StartFlush(t: nat)
    | ReadRow(t: nat, k: Id)
    | ReadMaps(t: nat)
    | RewritePlayer(t: nat, st: Stored)
    | RewriteSession(t: nat, st: Stored)
    | Send(t: nat, batch: seq<Stored>)
    | Serve(q: nat, user: Id, audit: Audit)
    | ServeOther(other: Idempotence.Step)
    | Lose(q: nat)
    | Receive(q: nat)
    | Reconcile(t: nat, st: Stored, r: ActionResult)
    | Bump(t: nat, st: Stored)
    | SavePlayers(t: nat)
    | SaveSessions(t: nat)
    | EndFlush(t: nat)

  function MapOf(maps: map<Owner, Versioned>, o: Owner): Versioned {
    if o in maps then maps[o] else Versioned(map[], 0)
  }

  predicate HasFlush(s: System, t: nat) {
    t < |s.tabs| && s.tabs[t].flush.Some?
  }

  /** `isOwnerCurrent`: the login the flush started under is still the tab's. */
  predicate OwnerCurrent(s: System, t: nat) {
    HasFlush(s, t) && s.tabs[t].login == Some(s.tabs[t].flush.value.login)
  }

  function FlushOf(s: System, t: nat): Flush
    requires HasFlush(s, t)
  {
    s.tabs[t].flush.value
  }

  predicate SeenPending(s: System, t: nat, st: Stored) {
    OwnerCurrent(s, t) && st in FlushOf(s, t).seen && st.status.Unsynced?
  }

  predicate Enabled(s: System, step: Step) {
    match step
    case SignIn(t, _) => t < |s.tabs|
    case SignOut(t) => t < |s.tabs|
    case Capture(t, action) => t < |s.tabs| && s.tabs[t].login.Some? && action.clientId !in s.base.rows
    case StartFlush(t) => t < |s.tabs| && s.tabs[t].login.Some?
    case ReadRow(t, k) => OwnerCurrent(s, t) && k in s.base.rows && s.base.rows[k].owner == FlushOf(s, t).login.owner
    case ReadMaps(t) => OwnerCurrent(s, t)
    case RewritePlayer(t, st) => SeenPending(s, t, st) && PlayerKnown(st.action.body, FlushOf(s, t).players.ids)
    case RewriteSession(t, st) => SeenPending(s, t, st) && SessionKnown(st.action.body, FlushOf(s, t).sessions.ids)
    case Send(t, batch) => OwnerCurrent(s, t) && forall st :: st in batch ==> SeenPending(s, t, st)
    case Serve(q, _, _) =>
      q in s.requests && |s.requests[q].results| < |s.requests[q].batch| && ServerScope(s.requests[q].token).Some?
    case ServeOther(other) => WellDerived(other.scope)
    case Lose(q) => q in s.requests
    case Receive(q) =>
      && q in s.requests && |s.requests[q].results| == |s.requests[q].batch|
      && HasFlush(s, s.requests[q].tab) && FlushOf(s, s.requests[q].tab).run == s.requests[q].run
    case Reconcile(t, st, r) => OwnerCurrent(s, t) && (st, r) in FlushOf(s, t).answers
    case Bump(t, st) => SeenPending(s, t, st)
    case SavePlayers(t) => OwnerCurrent(s, t)
    case SaveSessions(t) => OwnerCurrent(s, t)
    case EndFlush(t) => t < |s.tabs|
  }

  function WithTab(s: System, t: nat, tab: Tab): System
    requires t < |s.tabs|
  {
    s.(tabs := s.tabs[t := tab])
  }

  function WithFlush(s: System, t: nat, f: Flush): System
    requires t < |s.tabs|
  {
    WithTab(s, t, s.tabs[t].(flush := Some(f)))
  }

  function WithRows(s: System, rows: Rows): System {
    s.(base := s.base.(rows := rows))
  }

  /** The ids a reconciled row adds to what the flush has learned. */
  function LearnedFrom(f: Flush, st: Stored, r: ActionResult): Flush {
    if r.status.Rejected? || r.recordId.None? then f
    else if st.action.body.PlayerBody? then f.(newPlayers := f.newPlayers[st.action.clientId := r.recordId.value])
    else if st.action.body.SessionBody? then f.(newSessions := f.newSessions[st.action.clientId := r.recordId.value])
    else f
  }

  function Paired(batch: seq<Stored>, results: seq<ActionResult>): set<(Stored, ActionResult)>
    requires |batch| == |results|
  {
    set i | 0 <= i < |batch| :: (batch[i], results[i])
  }

  /** A guarded metadata write: it lands only if nobody wrote since the read. */
  function Saved(maps: map<Owner, Versioned>, o: Owner, read: Versioned, additions: IdMap): map<Owner, Versioned> {
    if MapOf(maps, o).revision == read.revision then maps[o := Versioned(read.ids + additions, read.revision + 1)]
    else maps
  }

  /** The client ids whose draw took effect, in order. */
  function DrawnBy(drawn: seq<Id>, a: Action, r: ActionResult): seq<Id> {
    if Service.IsDraw(a.body) && r.status.Applied? then drawn + [a.clientId] else drawn
  }

  function NextAction(request: Request): Action
    requires |request.results| < |request.batch|
  {
    request.batch[|request.results|].action
  }

  ghost function Next(s: System, step: Step): System
    requires Enabled(s, step)
  {
    match step
    case SignIn(t, owner) => WithTab(s, t, s.tabs[t].(login := Some(Login(owner, s.clock)))).(clock := s.clock + 1)
    case SignOut(t) => WithTab(s, t, s.tabs[t].(login := None))
    case Capture(t, action) =>
      var st := Stored(s.tabs[t].login.value.owner, action, Unsynced, 0, "", 1);
      s.(base := s.base.(rows := s.base.rows[action.clientId := st],
                         captured := s.base.captured[action.clientId := action]))
    case StartFlush(t) =>
      var login := s.tabs[t].login.value;
      WithFlush(s, t,
                Flush(s.clock, login, {}, {}, map[], map[], MapOf(s.players, login.owner),
                      MapOf(s.sessions, login.owner)))
      .(clock := s.clock + 1)
    case ReadRow(t, k) => var f := FlushOf(s, t); WithFlush(s, t, f.(seen := f.seen + {s.base.rows[k]}))
    case ReadMaps(t) =>
      var f := FlushOf(s, t);
      WithFlush(s, t, f.(players := MapOf(s.players, f.login.owner), sessions := MapOf(s.sessions, f.login.owner)))
    case RewritePlayer(t, st) =>
      var f := FlushOf(s, t);
      WithRows(s, Replaced(s.base.rows, WithKnownPlayer(st, f.players.ids), f.login.owner))
    case RewriteSession(t, st) =>
      var f := FlushOf(s, t);
      WithRows(s, Replaced(s.base.rows, WithKnownSession(st, f.sessions.ids), f.login.owner))
    case Send(t, batch) =>
      // The token is read in the same synchronous turn as the owner check.
      var request := Request(t, FlushOf(s, t).run, s.tabs[t].login.value.owner, batch, []);
      s.(requests := s.requests[s.clock := request], clock := s.clock + 1)
    case Serve(q, user, audit) =>
      var request := s.requests[q];
      var a := NextAction(request);
      var served := Service.Served(s.base.db, ServerScope(request.token).value, a, user, audit);
      s.(base := s.base.(db := served.0),
         requests := s.requests[q := request.(results := request.results + [served.1])],
         drawn := DrawnBy(s.drawn, a, served.1))
    case ServeOther(other) =>
      var served := Service.Served(s.base.db, other.scope, other.action, other.user, other.audit);
      s.(base := s.base.(db := served.0), drawn := DrawnBy(s.drawn, other.action, served.1))
    case Lose(q) => s.(requests := s.requests - {q})
    case Receive(q) =>
      var request := s.requests[q];
      var f := FlushOf(s, request.tab);
      WithFlush(s, request.tab, f.(answers := f.answers + Paired(request.batch, request.results)))
      .(requests := s.requests - {q})
    case Reconcile(t, st, r) =>
      var f := FlushOf(s, t);
      if GuardHolds(s.base.rows, st, f.login.owner) then
        WithRows(WithFlush(s, t, LearnedFrom(f, st, r)),
                 Replaced(s.base.rows, LocalStore.Reconciled(st, r), f.login.owner))
      else s
    case Bump(t, st) => WithRows(s, Replaced(s.base.rows, Bumped(st), FlushOf(s, t).login.owner))
    case SavePlayers(t) =>
      var f := FlushOf(s, t);
      s.(players := Saved(s.players, f.login.owner, f.players, f.newPlayers))
    case SaveSessions(t) =>
      var f := FlushOf(s, t);
      s.(sessions := Saved(s.sessions, f.login.owner, f.sessions, f.newSessions))
    case EndFlush(t) => WithTab(s, t, s.tabs[t].(flush := None))
  }

  // ------------------------------------------------------------------
  // Invariant
  // ------------------------------------------------------------------

  predicate Acked(st: Stored) {
    st.status.SyncApplied? || st.status.SyncSkipped?
  }

  /** The server holds the action, and would let its owner submit it again. */
  ghost predicate Settled(db: Db, o: Owner, a: Action) {
    && Idempotence.Durable(db, a)
    && ServerScope(o).Some? && Idempotence.Admitted(db, ServerScope(o).value, a)
  }

  /** An acknowledged row is held by the server. */
  ghost predicate RowsSettled(b: Base) {
    forall k :: k in b.rows && Acked(b.rows[k]) ==> Settled(b.db, b.rows[k].owner, b.rows[k].action)
  }

  /** `id` is the server's row for the action that `o` captured locally as `k`. */
  ghost predicate Names(b: Base, o: Owner, kind: Entity, k: Id, id: nat) {
    && k in b.rows && b.rows[k].owner == o && Acked(b.rows[k])
    && b.rows[k].action.body.EntityName() == kind
    && Idempotence.TraceOf(b.db, b.rows[k].action) == Some(id)
  }

  /** A reference is as it was captured, or the local id in it has been replaced
      by the server's row of that very local action. */
  ghost predicate RightRef(b: Base, o: Owner, kind: Entity, was: Option<Ref>, now: Option<Ref>) {
    || now == was
    || (&& was.Some? && was.value.Local? && now.Some? && now.value.Server?
        && Names(b, o, kind, was.value.clientId, now.value.id))
  }

  /** The row still carries what was captured, its references resolved rightly. */
  ghost predicate Faithful(b: Base, st: Stored) {
    var k := st.action.clientId;
    && k in b.captured && Blurred(st.action) == Blurred(b.captured[k])
    && RightRef(b, st.owner, PlayerEntity, b.captured[k].body.PlayerRef(), st.action.body.PlayerRef())
    && RightRef(b, st.owner, SessionEntity, b.captured[k].body.SessionRef(), st.action.body.SessionRef())
  }

  ghost predicate RowsFaithful(b: Base) {
    forall k :: k in b.rows ==> Faithful(b, b.rows[k])
  }

  ghost predicate BaseOk(b: Base) {
    Replay.Sound(b.db) && Keyed(b.rows) && b.captured.Keys == b.rows.Keys && RowsSettled(b) && RowsFaithful(b)
  }

  /** `st` was once the row of its client id: the row is the same action still,
      and exactly the same row unless its revision moved on. */
  ghost predicate WasRow(rows: Rows, st: Stored) {
    var k := st.action.clientId;
    && k in rows && rows[k].owner == st.owner
    && Blurred(rows[k].action) == Blurred(st.action)
    && st.revision <= rows[k].revision
    && (st.revision == rows[k].revision ==> rows[k] == st)
  }

  ghost predicate TrueAnswer(db: Db, o: Owner, a: Action, r: ActionResult) {
    !r.status.Rejected? ==>
      Settled(db, o, a) && r.recordId.Some? && Idempotence.TraceOf(db, a) == r.recordId
  }

  ghost predicate TrueMap(b: Base, o: Owner, kind: Entity, ids: IdMap) {
    forall k :: k in ids ==> Names(b, o, kind, k, ids[k])
  }

  ghost predicate MapsOk(b: Base, kind: Entity, maps: map<Owner, Versioned>) {
    forall o :: o in maps ==> TrueMap(b, o, kind, maps[o].ids)
  }

  /** `v` is, or once was, the stored map of `o`, which has every key of it. */
  ghost predicate WasMap(maps: map<Owner, Versioned>, o: Owner, v: Versioned) {
    && v.revision <= MapOf(maps, o).revision && (v.revision == MapOf(maps, o).revision ==> v == MapOf(maps, o))
    && v.ids.Keys <= MapOf(maps, o).ids.Keys
  }

  ghost predicate SentOk(b: Base, o: Owner, st: Stored) {
    WasRow(b.rows, st) && st.owner == o && Faithful(b, st)
  }

  ghost predicate FlushOk(b: Base, players: map<Owner, Versioned>, sessions: map<Owner, Versioned>, f: Flush) {
    && (forall st :: st in f.seen ==> SentOk(b, f.login.owner, st))
    && (forall x :: x in f.answers ==>
          SentOk(b, f.login.owner, x.0) && x.0.status.Unsynced? && TrueAnswer(b.db, f.login.owner, x.0.action, x.1))
    && TrueMap(b, f.login.owner, PlayerEntity, f.newPlayers) && TrueMap(b, f.login.owner, SessionEntity, f.newSessions)
    && TrueMap(b, f.login.owner, PlayerEntity, f.players.ids)
    && TrueMap(b, f.login.owner, SessionEntity, f.sessions.ids)
    && WasMap(players, f.login.owner, f.players) && WasMap(sessions, f.login.owner, f.sessions)
  }

  /** Everything in a request belongs to the owner of its token. */
  ghost predicate RequestOk(b: Base, q: Request) {
    && |q.results| <= |q.batch|
    && (forall i :: 0 <= i < |q.batch| ==> SentOk(b, q.token, q.batch[i]) && q.batch[i].status.Unsynced?)
    && (forall i :: 0 <= i < |q.results| ==> TrueAnswer(b.db, q.token, q.batch[i].action, q.results[i]))
  }

  /** Each client id has drawn at most once, and its receipt is in the log. */
  ghost predicate DrawnOnce(db: Db, drawn: seq<Id>) {
    && (forall i :: 0 <= i < |drawn| ==> HasReceipt(db.log, drawn[i]))
    && (forall i, j :: 0 <= i < j < |drawn| ==> drawn[i] != drawn[j])
  }

  /** An answer travels back to the flush that asked. */
  ghost predicate Addressed(s: System, q: Request) {
    HasFlush(s, q.tab) && FlushOf(s, q.tab).run == q.run ==> FlushOf(s, q.tab).login.owner == q.token
  }

  ghost predicate RunsPast(s: System) {
    && (forall q :: q in s.requests ==> s.requests[q].run < s.clock && Addressed(s, s.requests[q]))
    && (forall t :: 0 <= t < |s.tabs| && s.tabs[t].login.Some? ==> s.tabs[t].login.value.generation < s.clock)
    && (forall t :: 0 <= t < |s.tabs| && s.tabs[t].flush.Some? ==>
          s.tabs[t].flush.value.run < s.clock && s.tabs[t].flush.value.login.generation < s.clock)
  }

  ghost predicate Inv(s: System) {
    && BaseOk(s.base)
    && MapsOk(s.base, PlayerEntity, s.players) && MapsOk(s.base, SessionEntity, s.sessions)
    && (forall t :: 0 <= t < |s.tabs| && s.tabs[t].flush.Some? ==>
          FlushOk(s.base, s.players, s.sessions, s.tabs[t].flush.value))
    && (forall q :: q in s.requests ==> RequestOk(s.base, s.requests[q]))
    && RunsPast(s)
    && DrawnOnce(s.base.db, s.drawn)
  }

  // ------------------------------------------------------------------
  // How the system may change
  // ------------------------------------------------------------------

  /** Nothing leaves the queue; a row that has an answer never changes again; a
      pending row changes only with its revision, and then neither its owner nor
      anything of its action but its references. */
  ghost predicate Guarded(rows: Rows, rows': Rows) {
    forall k :: k in rows ==>
      && k in rows'
      && (rows'[k] == rows[k]
          || (&& rows[k].status.Unsynced? && rows'[k].revision > rows[k].revision
              && rows'[k].owner == rows[k].owner && Blurred(rows'[k].action) == Blurred(rows[k].action)
              && rows'[k].action.clientId == rows[k].action.clientId))
  }

  ghost predicate Later(b: Base, c: Base) {
    && Replay.Extends(b.db, c.db) && Guarded(b.rows, c.rows)
    && (forall k :: k in b.captured ==> k in c.captured && c.captured[k] == b.captured[k])
  }

  /** A committed mapping is neither lost nor changed. */
  ghost predicate MapsGrow(maps: map<Owner, Versioned>, maps': map<Owner, Versioned>) {
    forall o :: MapOf(maps', o) == MapOf(maps, o)
                || (&& MapOf(maps', o).revision > MapOf(maps, o).revision
                    && forall k :: k in MapOf(maps, o).ids ==>
                         k in MapOf(maps', o).ids && MapOf(maps', o).ids[k] == MapOf(maps, o).ids[k])
  }

  ghost predicate Onward(s: System, s': System) {
    Later(s.base, s'.base) && MapsGrow(s.players, s'.players) && MapsGrow(s.sessions, s'.sessions)
  }

  // ------------------------------------------------------------------
  // Everything known stays true
  // ------------------------------------------------------------------

  lemma LaterReflexive(b: Base)
    ensures Later(b, b)
  {
    Replay.ExtendsReflexive(b.db);
  }

  lemma LaterTransitive(b: Base, c: Base, d: Base)
    requires Later(b, c) && Later(c, d)
    ensures Later(b, d)
  {
    hide Replay.Extends, Blurred;
    Replay.ExtendsTransitive(b.db, c.db, d.db);
  }

  lemma WasRowStays(rows: Rows, rows': Rows, st: Stored)
    requires WasRow(rows, st) && Guarded(rows, rows')
    ensures WasRow(rows', st)
  {
    hide Blurred;
  }

  lemma NamesStay(b: Base, c: Base, o: Owner, kind: Entity, k: Id, id: nat)
    requires Names(b, o, kind, k, id) && Later(b, c)
    ensures Names(c, o, kind, k, id)
  {
    hide Idempotence.TraceOf, Replay.Extends, Blurred;
    Idempotence.TraceStays(b.db, c.db, b.rows[k].action);
  }

  lemma RightRefStays(b: Base, c: Base, o: Owner, kind: Entity, was: Option<Ref>, now: Option<Ref>)
    requires RightRef(b, o, kind, was, now) && Later(b, c)
    ensures RightRef(c, o, kind, was, now)
  {
    hide Names, Later;
    if now != was {
      NamesStay(b, c, o, kind, was.value.clientId, now.value.id);
    }
  }

  lemma FaithfulStays(b: Base, c: Base, st: Stored)
    requires Faithful(b, st) && Later(b, c)
    ensures Faithful(c, st)
  {
    hide RightRef, Replay.Extends, Blurred, Guarded;
    var was := b.captured[st.action.clientId].body;
    RightRefStays(b, c, st.owner, PlayerEntity, was.PlayerRef(), st.action.body.PlayerRef());
    RightRefStays(b, c, st.owner, SessionEntity, was.SessionRef(), st.action.body.SessionRef());
  }

  lemma SentOkStays(b: Base, c: Base, o: Owner, st: Stored)
    requires SentOk(b, o, st) && Later(b, c)
    ensures SentOk(c, o, st)
  {
    hide WasRow, Faithful, Guarded, Replay.Extends;
    WasRowStays(b.rows, c.rows, st);
    FaithfulStays(b, c, st);
  }

  lemma SettledStays(db: Db, db': Db, o: Owner, a: Action)
    requires Settled(db, o, a) && Replay.Extends(db, db')
    ensures Settled(db', o, a)
  {
    hide Idempotence.Durable, Idempotence.Admitted, Replay.Extends;
    Idempotence.DurableStays(db, db', a);
    Idempotence.AdmittedStays(db, db', ServerScope(o).value, a);
  }

  lemma TrueAnswerStays(db: Db, db': Db, o: Owner, a: Action, r: ActionResult)
    requires TrueAnswer(db, o, a, r) && Replay.Extends(db, db')
    ensures TrueAnswer(db', o, a, r)
  {
    hide Settled, Idempotence.TraceOf, Replay.Extends;
    if !r.status.Rejected? {
      SettledStays(db, db', o, a);
      Idempotence.TraceStays(db, db', a);
    }
  }

  lemma TrueMapStays(b: Base, c: Base, o: Owner, kind: Entity, ids: IdMap)
    requires TrueMap(b, o, kind, ids) && Later(b, c)
    ensures TrueMap(c, o, kind, ids)
  {
    hide Names, Later;
    forall k | k in ids ensures Names(c, o, kind, k, ids[k]) {
      NamesStay(b, c, o, kind, k, ids[k]);
    }
  }

  lemma MapsOkStay(b: Base, c: Base, kind: Entity, maps: map<Owner, Versioned>)
    requires MapsOk(b, kind, maps) && Later(b, c)
    ensures MapsOk(c, kind, maps)
  {
    hide TrueMap, Later;
    forall o | o in maps ensures TrueMap(c, o, kind, maps[o].ids) {
      TrueMapStays(b, c, o, kind, maps[o].ids);
    }
  }

  lemma FlushOkStays(s: System, s': System, f: Flush)
    requires FlushOk(s.base, s.players, s.sessions, f) && Later(s.base, s'.base)
    requires MapsGrow(s.players, s'.players) && MapsGrow(s.sessions, s'.sessions)
    ensures FlushOk(s'.base, s'.players, s'.sessions, f)
  {
    hide TrueMap, SentOk, TrueAnswer, Replay.Extends, Guarded;
    forall st | st in f.seen ensures SentOk(s'.base, f.login.owner, st) {
      SentOkStays(s.base, s'.base, f.login.owner, st);
    }
    forall x | x in f.answers
      ensures SentOk(s'.base, f.login.owner, x.0) && TrueAnswer(s'.base.db, f.login.owner, x.0.action, x.1)
    {
      SentOkStays(s.base, s'.base, f.login.owner, x.0);
      TrueAnswerStays(s.base.db, s'.base.db, f.login.owner, x.0.action, x.1);
    }
    TrueMapStays(s.base, s'.base, f.login.owner, PlayerEntity, f.newPlayers);
    TrueMapStays(s.base, s'.base, f.login.owner, SessionEntity, f.newSessions);
    TrueMapStays(s.base, s'.base, f.login.owner, PlayerEntity, f.players.ids);
    TrueMapStays(s.base, s'.base, f.login.owner, SessionEntity, f.sessions.ids);
  }

  lemma RequestOkStays(b: Base, c: Base, q: Request)
    requires RequestOk(b, q) && Later(b, c)
    ensures RequestOk(c, q)
  {
    hide SentOk, TrueAnswer, Replay.Extends, Guarded;
    forall i | 0 <= i < |q.batch| ensures SentOk(c, q.token, q.batch[i]) {
      SentOkStays(b, c, q.token, q.batch[i]);
    }
    forall i | 0 <= i < |q.results| ensures TrueAnswer(c.db, q.token, q.batch[i].action, q.results[i]) {
      TrueAnswerStays(b.db, c.db, q.token, q.batch[i].action, q.results[i]);
    }
  }

  lemma ReceiptStays(db: Db, db': Db, id: Id)
    requires HasReceipt(db.log, id) && Replay.Extends(db, db')
    ensures HasReceipt(db'.log, id)
  {
    var j :| 0 <= j < |db.log| && db.log[j].clientId == Some(id);
    assert db'.log[j] == db.log[j];
  }

  lemma DrawnOnceStays(db: Db, db': Db, drawn: seq<Id>)
    requires DrawnOnce(db, drawn) && Replay.Extends(db, db')
    ensures DrawnOnce(db', drawn)
  {
    hide HasReceipt, Replay.Extends;
    forall i | 0 <= i < |drawn| ensures HasReceipt(db'.log, drawn[i]) {
      ReceiptStays(db, db', drawn[i]);
    }
  }

  lemma RowsSettledStay(b: Base, c: Base)
    requires RowsSettled(b) && Replay.Extends(b.db, c.db) && c.rows == b.rows
    ensures RowsSettled(c)
  {
    hide Settled, Replay.Extends;
    forall k | k in b.rows && Acked(b.rows[k]) ensures Settled(c.db, b.rows[k].owner, b.rows[k].action) {
      SettledStays(b.db, c.db, b.rows[k].owner, b.rows[k].action);
    }
  }

  /** What is left to check of a step once its change to the base is known to be
      a legal one: only the parts it touched. */
  lemma Frame(s: System, s': System)
    requires Inv(s) && BaseOk(s'.base) && Later(s.base, s'.base)
    requires MapsGrow(s.players, s'.players) && MapsGrow(s.sessions, s'.sessions)
    requires s'.players == s.players || MapsOk(s'.base, PlayerEntity, s'.players)
    requires s'.sessions == s.sessions || MapsOk(s'.base, SessionEntity, s'.sessions)
    requires forall t :: 0 <= t < |s'.tabs| && s'.tabs[t].flush.Some? ==>
               (t < |s.tabs| && s.tabs[t].flush == s'.tabs[t].flush)
               || FlushOk(s'.base, s'.players, s'.sessions, s'.tabs[t].flush.value)
    requires forall q :: q in s'.requests ==>
               (q in s.requests && s.requests[q] == s'.requests[q]) || RequestOk(s'.base, s'.requests[q])
    requires RunsPast(s')
    requires s'.drawn == s.drawn || DrawnOnce(s'.base.db, s'.drawn)
    ensures Inv(s')
  {
    hide Replay.Extends, Guarded, BaseOk, MapsGrow, MapsOk, FlushOk, RequestOk, DrawnOnce, RunsPast;
    MapsOkStay(s.base, s'.base, PlayerEntity, s.players);
    MapsOkStay(s.base, s'.base, SessionEntity, s.sessions);
    DrawnOnceStays(s.base.db, s'.base.db, s.drawn);
    forall t | 0 <= t < |s'.tabs| && s'.tabs[t].flush.Some?
      ensures FlushOk(s'.base, s'.players, s'.sessions, s'.tabs[t].flush.value)
    {
      if t < |s.tabs| && s.tabs[t].flush == s'.tabs[t].flush {
        FlushOkStays(s, s', s.tabs[t].flush.value);
      }
    }
    forall q | q in s'.requests ensures RequestOk(s'.base, s'.requests[q]) {
      if q in s.requests && s.requests[q] == s'.requests[q] {
        RequestOkStays(s.base, s'.base, s.requests[q]);
      }
    }
  }

  // ------------------------------------------------------------------
  // Legal changes of the base
  // ------------------------------------------------------------------

  /** A guarded replacement by the same action, rightly resolved. */
  lemma ReplaceStep(b: Base, read: Stored, st: Stored, o: Owner)
    requires BaseOk(b) && SentOk(b, o, read) && read.status.Unsynced?
    requires st.owner == read.owner && st.revision == read.revision && st.action.clientId == read.action.clientId
    requires Blurred(st.action) == Blurred(read.action) && Faithful(b, st)
    requires Acked(st) ==> Settled(b.db, o, st.action)
    ensures var c := b.(rows := Replaced(b.rows, st, o)); BaseOk(c) && Later(b, c)
  {
    hide Settled, Blurred, Replay.Sound, Replay.Extends, Faithful, RowsFaithful;
    var c := b.(rows := Replaced(b.rows, st, o));
    Replay.ExtendsReflexive(b.db);
    assert Guarded(b.rows, c.rows);
    AllFaithful(b, c, st);
  }

  lemma AllFaithful(b: Base, c: Base, st: Stored)
    requires RowsFaithful(b) && Later(b, c) && Faithful(b, st)
    requires forall k :: k in c.rows ==>
               (k in b.rows && c.rows[k] == b.rows[k]) || c.rows[k] == st.(revision := c.rows[k].revision)
    ensures RowsFaithful(c)
  {
    hide Later, RightRef;
    FaithfulStays(b, c, st);
    forall k | k in c.rows ensures Faithful(c, c.rows[k]) {
      if k in b.rows && c.rows[k] == b.rows[k] {
        FaithfulStays(b, c, b.rows[k]);
      }
    }
  }

  lemma CaptureStep(b: Base, o: Owner, action: Action)
    requires BaseOk(b) && action.clientId !in b.rows
    ensures var st := Stored(o, action, Unsynced, 0, "", 1);
            var c := b.(rows := b.rows[action.clientId := st], captured := b.captured[action.clientId := action]);
            BaseOk(c) && Later(b, c)
  {
    hide Settled, Blurred, Replay.Sound, Replay.Extends, RowsFaithful, Names;
    var st := Stored(o, action, Unsynced, 0, "", 1);
    var c := b.(rows := b.rows[action.clientId := st], captured := b.captured[action.clientId := action]);
    Replay.ExtendsReflexive(b.db);
    assert Later(b, c);
    assert RowsFaithful(c) by {
      forall k | k in c.rows ensures Faithful(c, c.rows[k]) {
        if k != action.clientId {
          RowIsFaithful(b, k);
          FaithfulStays(b, c, b.rows[k]);
        }
      }
      FoldFaithful(c);
    }
  }

  lemma RowIsFaithful(b: Base, k: Id)
    requires RowsFaithful(b) && k in b.rows
    ensures Faithful(b, b.rows[k])
  {
  }

  lemma FoldFaithful(b: Base)
    requires forall k :: k in b.rows ==> Faithful(b, b.rows[k])
    ensures RowsFaithful(b)
  {
  }

  lemma DbStep(b: Base, db: Db)
    requires BaseOk(b) && Replay.Extends(b.db, db) && Replay.Sound(db)
    ensures BaseOk(b.(db := db)) && Later(b, b.(db := db))
  {
    hide Replay.Sound, Replay.Extends, RowsFaithful, Faithful, RowsSettled;
    var c := b.(db := db);
    RowsSettledStay(b, c);
    assert Later(b, c);
    forall k | k in c.rows ensures Faithful(c, c.rows[k]) {
      RowIsFaithful(b, k);
      FaithfulStays(b, c, b.rows[k]);
    }
    FoldFaithful(c);
  }

  // ------------------------------------------------------------------
  // The steps
  // ------------------------------------------------------------------

  /** A step that leaves the base and the maps alone. */
  lemma Still(s: System, s': System)
    requires s'.base == s.base && s'.players == s.players && s'.sessions == s.sessions
    ensures Later(s.base, s'.base) && MapsGrow(s.players, s'.players) && MapsGrow(s.sessions, s'.sessions)
  {
    LaterReflexive(s.base);
  }

  lemma TabSteps(s: System, step: Step)
    requires Inv(s) && Enabled(s, step)
    requires step.SignIn? || step.SignOut? || step.EndFlush? || step.StartFlush?
    ensures Inv(Next(s, step)) && Onward(s, Next(s, step))
  {
    hide BaseOk, FlushOk, RequestOk, DrawnOnce, Later, MapsGrow, TrueMap;
    var s' := Next(s, step);
    Still(s, s');
    if step.StartFlush? {
      NewFlushOk(s, s.tabs[step.t].login.value, s.clock);
    }
    Frame(s, s');
  }

  lemma NewFlushOk(s: System, login: Login, run: nat)
    requires MapsOk(s.base, PlayerEntity, s.players) && MapsOk(s.base, SessionEntity, s.sessions)
    ensures FlushOk(s.base, s.players, s.sessions,
                    Flush(run, login, {}, {}, map[], map[], MapOf(s.players, login.owner),
                          MapOf(s.sessions, login.owner)))
  {
  }

  lemma ReadSteps(s: System, step: Step)
    requires Inv(s) && Enabled(s, step) && (step.ReadRow? || step.ReadMaps?)
    ensures Inv(Next(s, step)) && Onward(s, Next(s, step))
  {
    hide RequestOk, DrawnOnce, Later, MapsGrow, Names, Faithful, Blurred, TrueAnswer, RowsSettled, Replay.Sound;
    var s' := Next(s, step);
    Still(s, s');
    if step.ReadRow? {
      RowIsFaithful(s.base, step.k);
    }
    var f := s'.tabs[step.t].flush.value;
    assert FlushOk(s'.base, s'.players, s'.sessions, f);
    assert RunsPast(s');
    hide FlushOk, RunsPast, BaseOk;
    Frame(s, s');
  }

  lemma SeenOk(s: System, t: nat, st: Stored)
    requires Inv(s) && SeenPending(s, t, st)
    ensures SentOk(s.base, FlushOf(s, t).login.owner, st)
  {
    hide BaseOk, MapsOk, RequestOk, RunsPast, DrawnOnce, SentOk;
  }

  lemma RewriteFaithful(b: Base, st: Stored, ids: IdMap, o: Owner)
    requires Faithful(b, st) && st.owner == o
    ensures TrueMap(b, o, PlayerEntity, ids) ==> Faithful(b, WithKnownPlayer(st, ids))
    ensures TrueMap(b, o, SessionEntity, ids) ==> Faithful(b, WithKnownSession(st, ids))
  {
    hide Names;
    ResolvingKeepsTheRest(st, ids);
    hide Blurred;
    if PlayerKnown(st.action.body, ids) && TrueMap(b, o, PlayerEntity, ids) {
      assert Names(b, o, PlayerEntity, LocalPlayer(st.action.body).value, ids[LocalPlayer(st.action.body).value]);
    }
    if SessionKnown(st.action.body, ids) && TrueMap(b, o, SessionEntity, ids) {
      assert Names(b, o, SessionEntity, LocalSession(st.action.body).value, ids[LocalSession(st.action.body).value]);
    }
  }

  /** A step that only replaces rows. */
  lemma RowsOnly(s: System, rows: Rows)
    requires Inv(s) && BaseOk(s.base.(rows := rows)) && Later(s.base, s.base.(rows := rows))
    ensures Inv(WithRows(s, rows)) && Onward(s, WithRows(s, rows))
  {
    hide BaseOk, FlushOk, RequestOk, DrawnOnce, Later;
    Frame(s, WithRows(s, rows));
  }

  lemma FlushMaps(s: System, t: nat)
    requires Inv(s) && HasFlush(s, t)
    ensures var f := FlushOf(s, t);
            && TrueMap(s.base, f.login.owner, PlayerEntity, f.players.ids)
            && TrueMap(s.base, f.login.owner, SessionEntity, f.sessions.ids)
            && TrueMap(s.base, f.login.owner, PlayerEntity, f.newPlayers)
            && TrueMap(s.base, f.login.owner, SessionEntity, f.newSessions)
            && WasMap(s.players, f.login.owner, f.players) && WasMap(s.sessions, f.login.owner, f.sessions)
  {
    hide BaseOk, MapsOk, RequestOk, RunsPast, DrawnOnce, SentOk, TrueMap, WasMap;
    assert FlushOk(s.base, s.players, s.sessions, s.tabs[t].flush.value);
  }

  /** A flush writes back a row it has seen: the same action, rightly resolved. */
  lemma WriteBack(s: System, t: nat, st: Stored, written: Stored)
    requires Inv(s) && SeenPending(s, t, st)
    requires written.owner == st.owner && written.revision == st.revision && written.status.Unsynced?
    requires written.action.clientId == st.action.clientId && Blurred(written.action) == Blurred(st.action)
    requires Faithful(s.base, written)
    ensures var s' := WithRows(s, Replaced(s.base.rows, written, FlushOf(s, t).login.owner));
            Inv(s') && Onward(s, s')
  {
    hide Inv, Onward, Faithful, Blurred, Replaced;
    SeenOk(s, t, st);
    BaseOfInv(s);
    ReplaceStep(s.base, st, written, FlushOf(s, t).login.owner);
    RowsOnly(s, Replaced(s.base.rows, written, FlushOf(s, t).login.owner));
  }

  lemma BaseOfInv(s: System)
    requires Inv(s)
    ensures BaseOk(s.base)
  {
    hide BaseOk, MapsOk, FlushOk, RequestOk, RunsPast, DrawnOnce;
  }

  lemma RewriteSteps(s: System, step: Step)
    requires Inv(s) && Enabled(s, step) && (step.RewritePlayer? || step.RewriteSession? || step.Bump?)
    ensures Inv(Next(s, step)) && Onward(s, Next(s, step))
  {
    var f, st := FlushOf(s, step.t), step.st;
    FlushMaps(s, step.t);
    SeenOk(s, step.t, st);
    hide Inv, Onward, Blurred, TrueMap, WasRow, WasMap, RightRef, Replaced, PlayerKnown, SessionKnown;
    if step.Bump? {
      WriteBack(s, step.t, st, Bumped(st));
    } else if step.RewritePlayer? {
      ResolvingKeepsTheRest(st, f.players.ids);
      RewriteFaithful(s.base, st, f.players.ids, f.login.owner);
      WriteBack(s, step.t, st, WithKnownPlayer(st, f.players.ids));
    } else {
      ResolvingKeepsTheRest(st, f.sessions.ids);
      RewriteFaithful(s.base, st, f.sessions.ids, f.login.owner);
      WriteBack(s, step.t, st, WithKnownSession(st, f.sessions.ids));
    }
  }

  lemma CaptureKeeps(s: System, step: Step)
    requires Inv(s) && Enabled(s, step) && step.Capture?
    ensures Inv(Next(s, step)) && Onward(s, Next(s, step))
  {
    hide BaseOk, FlushOk, RequestOk, DrawnOnce, Later, MapsOk;
    assert step.action.clientId !in s.base.rows;
    CaptureStep(s.base, s.tabs[step.t].login.value.owner, step.action);
    Frame(s, Next(s, step));
  }

  lemma SendKeeps(s: System, step: Step)
    requires Inv(s) && Enabled(s, step) && step.Send?
    ensures Inv(Next(s, step)) && Onward(s, Next(s, step))
  {
    var s' := Next(s, step);
    Still(s, s');
    var request := s'.requests[s.clock];
    forall i | 0 <= i < |request.batch|
      ensures SentOk(s.base, request.token, request.batch[i]) && request.batch[i].status.Unsynced?
    {
      assert step.batch[i] in step.batch;
      SeenOk(s, step.t, step.batch[i]);
    }
    hide BaseOk, FlushOk, SentOk, DrawnOnce, Later, MapsOk;
    assert RequestOk(s'.base, request);
    assert RunsPast(s');
    hide RequestOk;
    Frame(s, s');
  }

  /** One served action: the tables grow, an acknowledgement names a settled row,
      and a draw that takes effect is that client id's first. */
  lemma ServedStep(b: Base, scope: Scope, a: Action, user: Id, audit: Audit, drawn: seq<Id>)
    requires BaseOk(b) && WellDerived(scope) && DrawnOnce(b.db, drawn)
    ensures var served := Service.Served(b.db, scope, a, user, audit);
            var c := b.(db := served.0);
            && BaseOk(c) && Later(b, c) && DrawnOnce(c.db, DrawnBy(drawn, a, served.1))
            && (!served.1.status.Rejected? ==>
                  && Idempotence.Durable(c.db, a) && Idempotence.Admitted(c.db, scope, a)
                  && served.1.recordId.Some? && Idempotence.TraceOf(c.db, a) == served.1.recordId)
  {
    hide Service.Served, Later, RowsSettled, RowsFaithful, Idempotence.Durable, Idempotence.Admitted,
         Idempotence.TraceOf, HasReceipt, Replay.Sound;
    var served := Service.Served(b.db, scope, a, user, audit);
    Replay.ActionStep(b.db, scope, a, user, audit);
    DbStep(b, served.0);
    DrawnOnceStays(b.db, served.0, drawn);
    if !served.1.status.Rejected? {
      assert Idempotence.Acknowledged(b.db, scope, a, user, audit);
      Idempotence.AcknowledgedSettles(b.db, scope, a, user, audit);
      Idempotence.AnswerNamesTrace(b.db, scope, a, user, audit);
    }
    if Service.IsDraw(a.body) && served.1.status.Applied? {
      Idempotence.DrawAppliesOnce(b.db, scope, a, user, audit);
    }
  }

  lemma ServeKeeps(s: System, step: Step)
    requires Inv(s) && Enabled(s, step) && step.Serve?
    ensures Inv(Next(s, step)) && Onward(s, Next(s, step))
  {
    hide BaseOk, FlushOk, DrawnOnce, Later, MapsOk, SentOk, Service.Served, DrawnBy, Idempotence.Durable,
         Idempotence.Admitted, Idempotence.TraceOf;
    var request := s.requests[step.q];
    var scope := ServerScope(request.token).value;
    ServedStep(s.base, scope, NextAction(request), step.user, step.audit, s.drawn);
    var s' := Next(s, step);
    RequestOkStays(s.base, s'.base, request);
    assert RequestOk(s'.base, s'.requests[step.q]);
    assert RunsPast(s');
    hide RequestOk, RunsPast;
    Frame(s, s');
  }

  lemma ServeOtherKeeps(s: System, step: Step)
    requires Inv(s) && Enabled(s, step) && step.ServeOther?
    ensures Inv(Next(s, step)) && Onward(s, Next(s, step))
  {
    hide BaseOk, FlushOk, DrawnOnce, Later, MapsOk, TrueAnswer, SentOk, Service.Served, DrawnBy, RequestOk;
    ServedStep(s.base, step.other.scope, step.other.action, step.other.user, step.other.audit, s.drawn);
    Frame(s, Next(s, step));
  }

  lemma RequestSteps(s: System, step: Step)
    requires Inv(s) && Enabled(s, step) && (step.Lose? || step.Receive?)
    ensures Inv(Next(s, step)) && Onward(s, Next(s, step))
  {
    hide BaseOk, DrawnOnce, Later, MapsOk, TrueAnswer, SentOk, TrueMap, MapsGrow;
    var s' := Next(s, step);
    Still(s, s');
    if step.Receive? {
      var request := s.requests[step.q];
      var f := FlushOf(s, request.tab);
      assert FlushOk(s.base, s.players, s.sessions, f) && RequestOk(s.base, request);
      assert f.login.owner == request.token;
      assert FlushOk(s'.base, s'.players, s'.sessions, FlushOf(s', request.tab));
    }
    assert RunsPast(s');
    hide RequestOk, FlushOk, RunsPast;
    Frame(s, s');
  }

  lemma AnswerOk(s: System, t: nat, st: Stored, r: ActionResult)
    requires Inv(s) && HasFlush(s, t) && (st, r) in FlushOf(s, t).answers
    ensures SentOk(s.base, FlushOf(s, t).login.owner, st) && st.status.Unsynced?
    ensures TrueAnswer(s.base.db, FlushOf(s, t).login.owner, st.action, r)
  {
    hide BaseOk, MapsOk, RequestOk, RunsPast, DrawnOnce, SentOk, TrueMap, TrueAnswer;
    assert FlushOk(s.base, s.players, s.sessions, s.tabs[t].flush.value);
  }

  lemma LearnedOk(b: Base, f: Flush, st: Stored, r: ActionResult)
    requires var k := st.action.clientId;
             && k in b.rows && b.rows[k].owner == f.login.owner && b.rows[k].action == st.action
             && (!r.status.Rejected? ==> Acked(b.rows[k]))
    requires TrueAnswer(b.db, f.login.owner, st.action, r)
    requires TrueMap(b, f.login.owner, PlayerEntity, f.newPlayers)
    requires TrueMap(b, f.login.owner, SessionEntity, f.newSessions)
    ensures var g := LearnedFrom(f, st, r);
            TrueMap(b, f.login.owner, PlayerEntity, g.newPlayers)
            && TrueMap(b, f.login.owner, SessionEntity, g.newSessions)
  {
    hide Settled, Idempotence.TraceOf;
  }

  /** The row an answer lands on: the base moves legally, and carries the answer. */
  lemma AnswerLands(b: Base, st: Stored, r: ActionResult, o: Owner)
    requires BaseOk(b) && SentOk(b, o, st) && st.status.Unsynced? && TrueAnswer(b.db, o, st.action, r)
    requires GuardHolds(b.rows, st, o)
    ensures var c := b.(rows := Replaced(b.rows, LocalStore.Reconciled(st, r), o));
            && BaseOk(c) && Later(b, c) && st.action.clientId in c.rows
            && var row := c.rows[st.action.clientId];
               row.owner == o && row.action == st.action && (!r.status.Rejected? ==> Acked(row))
  {
    hide BaseOk, Blurred, Settled, Later, WasRow, RightRef, Idempotence.TraceOf;
    ReplaceStep(b, st, LocalStore.Reconciled(st, r), o);
  }

  lemma LearnedFlushOk(s: System, b: Base, f: Flush, st: Stored, r: ActionResult)
    requires FlushOk(s.base, s.players, s.sessions, f) && Later(s.base, b)
    requires (st, r) in f.answers
    requires var k := st.action.clientId;
             && k in b.rows && b.rows[k].owner == f.login.owner && b.rows[k].action == st.action
             && (!r.status.Rejected? ==> Acked(b.rows[k]))
    ensures FlushOk(b, s.players, s.sessions, LearnedFrom(f, st, r))
  {
    hide Later, MapsGrow, SentOk, TrueAnswer, TrueMap, Acked;
    Still(s, s);
    FlushOkStays(s, s.(base := b), f);
    LearnedOk(b, f, st, r);
  }

  lemma ReconcileKeeps(s: System, step: Step)
    requires Inv(s) && Enabled(s, step) && step.Reconcile?
    ensures Inv(Next(s, step)) && Onward(s, Next(s, step))
  {
    hide BaseOk, DrawnOnce, MapsOk, RequestOk, MapsGrow, FlushOk, Later, SentOk, TrueAnswer, Acked, GuardHolds,
         Replaced;
    var s' := Next(s, step);
    var f, st := FlushOf(s, step.t), step.st;
    Still(s, s);
    if GuardHolds(s.base.rows, st, f.login.owner) {
      AnswerOk(s, step.t, st, step.r);
      AnswerOwner(s.base.rows, st, f.login.owner);
      AnswerLands(s.base, st, step.r, f.login.owner);
      LearnedFlushOk(s, s'.base, f, st, step.r);
      assert RunsPast(s');
      hide RunsPast;
      Frame(s, s');
    }
  }

  lemma AnswerOwner(rows: Rows, st: Stored, o: Owner)
    requires GuardHolds(rows, st, o)
    ensures st.owner == o && st.action.clientId in Replaced(rows, st, o)
  {
  }

  lemma SavedOk(b: Base, kind: Entity, maps: map<Owner, Versioned>, o: Owner, read: Versioned, additions: IdMap)
    requires MapsOk(b, kind, maps) && TrueMap(b, o, kind, read.ids) && TrueMap(b, o, kind, additions)
    requires WasMap(maps, o, read)
    ensures MapsOk(b, kind, Saved(maps, o, read, additions)) && MapsGrow(maps, Saved(maps, o, read, additions))
  {
    hide Idempotence.TraceOf;
  }

  lemma SaveSteps(s: System, step: Step)
    requires Inv(s) && Enabled(s, step) && (step.SavePlayers? || step.SaveSessions?)
    ensures Inv(Next(s, step)) && Onward(s, Next(s, step))
  {
    hide BaseOk, FlushOk, DrawnOnce, Later, MapsOk, RequestOk, TrueMap, MapsGrow, WasMap, Saved;
    var s' := Next(s, step);
    Still(s, s);
    FlushMaps(s, step.t);
    var f := FlushOf(s, step.t);
    SavedOk(s.base, PlayerEntity, s.players, f.login.owner, f.players, f.newPlayers);
    SavedOk(s.base, SessionEntity, s.sessions, f.login.owner, f.sessions, f.newSessions);
    assert RunsPast(s');
    Frame(s, s');
  }

  /** Every step of every party keeps the invariant and only moves forward. */
  lemma StepKeepsInv(s: System, step: Step)
    requires Inv(s) && Enabled(s, step)
    ensures Inv(Next(s, step)) && Onward(s, Next(s, step))
  {
    hide Inv, Onward, Next, Enabled;
    match step {
      case SignIn(_, _) => TabSteps(s, step);
      case SignOut(_) => TabSteps(s, step);
      case EndFlush(_) => TabSteps(s, step);
      case StartFlush(_) => TabSteps(s, step);
      case Capture(_, _) => CaptureKeeps(s, step);
      case ReadRow(_, _) => ReadSteps(s, step);
      case ReadMaps(_) => ReadSteps(s, step);
      case RewritePlayer(_, _) => RewriteSteps(s, step);
      case RewriteSession(_, _) => RewriteSteps(s, step);
      case Bump(_, _) => RewriteSteps(s, step);
      case Send(_, _) => SendKeeps(s, step);
      case Serve(_, _, _) => ServeKeeps(s, step);
      case ServeOther(_) => ServeOtherKeeps(s, step);
      case Lose(_) => RequestSteps(s, step);
      case Receive(_) => RequestSteps(s, step);
      case Reconcile(_, _, _) => ReconcileKeeps(s, step);
      case SavePlayers(_) => SaveSteps(s, step);
      case SaveSessions(_) => SaveSteps(s, step);
    }
  }

  // ------------------------------------------------------------------
  // Runs
  // ------------------------------------------------------------------

  ghost predicate Execution(states: seq<System>, steps: seq<Step>) {
    && |states| == |steps| + 1
    && forall i :: 0 <= i < |steps| ==> Enabled(states[i], steps[i]) && states[i + 1] == Next(states[i], steps[i])
  }

  /** A device that has captured nothing, before a server with well-formed tables. */
  ghost predicate Initial(s: System) {
    && Replay.Sound(s.base.db) && s.base.rows == map[] && s.base.captured == map[]
    && s.players == map[] && s.sessions == map[] && s.requests == map[] && s.drawn == []
    && forall t :: 0 <= t < |s.tabs| ==>
         s.tabs[t].flush.None? && (s.tabs[t].login.Some? ==> s.tabs[t].login.value.generation < s.clock)
  }

  lemma InitialInv(s: System)
    requires Initial(s)
    ensures Inv(s)
  {
    hide Replay.Sound;
  }

  lemma OnwardTransitive(s: System, s': System, s'': System)
    requires Onward(s, s') && Onward(s', s'')
    ensures Onward(s, s'')
  {
    hide Later;
    LaterTransitive(s.base, s'.base, s''.base);
  }

  lemma {:induction false} RunKeepsInv(states: seq<System>, steps: seq<Step>, i: nat, j: nat)
    requires Execution(states, steps) && i <= j <= |steps| && Inv(states[i])
    ensures Inv(states[j]) && Onward(states[i], states[j])
    decreases j
  {
    hide Inv, Enabled, Next, Later, MapsGrow;
    if i == j {
      Still(states[i], states[i]);
    } else {
      RunKeepsInv(states, steps, i, j - 1);
      StepKeepsInv(states[j - 1], steps[j - 1]);
      OnwardTransitive(states[i], states[j - 1], states[j]);
    }
  }

  /** The draws on record are exactly those the server has answered as applied. */
  lemma DrawnRecords(s: System, step: Step)
    requires Enabled(s, step)
    ensures step.Serve? ==>
              var a, scope := NextAction(s.requests[step.q]), ServerScope(s.requests[step.q].token).value;
              var r := Service.Served(s.base.db, scope, a, step.user, step.audit).1;
              Next(s, step).drawn == if a.body.EntitlementBody? && a.body.entitlement.Some? && a.body.amount.Some?
                                        && r.status.Applied? then s.drawn + [a.clientId] else s.drawn
    ensures step.ServeOther? ==>
              var a, o := step.other.action, step.other;
              var r := Service.Served(s.base.db, o.scope, a, o.user, o.audit).1;
              Next(s, step).drawn == if a.body.EntitlementBody? && a.body.entitlement.Some? && a.body.amount.Some?
                                        && r.status.Applied? then s.drawn + [a.clientId] else s.drawn
    ensures !step.Serve? && !step.ServeOther? ==> Next(s, step).drawn == s.drawn
  {
    hide Service.Served, LearnedFrom, Saved, Replaced;
  }

  /** Nothing in the protocol holds the world back: at any moment any tab may sign in or
      out, capture an action, start or end a flush, any request may be lost, and any
      other device may have an action of its own served. */
  lemma WorldIsFree(s: System, t: nat, owner: Owner, a: Action, q: nat, other: Idempotence.Step)
    ensures t < |s.tabs| ==>
              && Enabled(s, SignIn(t, owner)) && Enabled(s, SignOut(t)) && Enabled(s, EndFlush(t))
              && Next(s, SignIn(t, owner)).tabs == s.tabs[t := Tab(Some(Login(owner, s.clock)), s.tabs[t].flush)]
              && Next(s, SignOut(t)).tabs == s.tabs[t := Tab(None, s.tabs[t].flush)]
              && Next(s, EndFlush(t)).tabs == s.tabs[t := Tab(s.tabs[t].login, None)]
    ensures t < |s.tabs| && s.tabs[t].login.Some? ==>
              && Enabled(s, StartFlush(t))
              && (a.clientId !in s.base.rows ==>
                    && Enabled(s, Capture(t, a))
                    && Next(s, Capture(t, a)).base.rows
                       == s.base.rows[a.clientId := Stored(s.tabs[t].login.value.owner, a, Unsynced, 0, "", 1)]
                    && Next(s, Capture(t, a)).base.captured == s.base.captured[a.clientId := a])
    ensures q in s.requests ==> Enabled(s, Lose(q)) && Next(s, Lose(q)) == s.(requests := s.requests - {q})
    ensures WellDerived(other.scope) ==>
              && Enabled(s, ServeOther(other))
              && Next(s, ServeOther(other)).base
                 == s.base.(db := Service.Served(s.base.db, other.scope, other.action, other.user, other.audit).0)
  {
    hide Service.Served;
  }

  /** Over every run, whatever is lost, retried, interleaved or replaced:
      - no captured action leaves the queue; a pending row changes only with its
        revision and only in its references, and an answered row is final;
      - an acknowledged row is durable at the server, and its owner sending it
        again would be let through to the same row;
      - every row is what was captured, with local references replaced only by
        the server's own rows of those local actions;
      - each client id draws at most once; consents, entitlements and natural
        keys stay unique; a committed mapping is never lost or changed. */
  lemma EveryRun(states: seq<System>, steps: seq<Step>, i: nat, j: nat)
    requires Execution(states, steps) && Initial(states[0]) && i <= j <= |steps|
    ensures var s, e := states[i], states[j];
            && s.base.captured.Keys <= e.base.rows.Keys && Guarded(s.base.rows, e.base.rows)
            && (forall k :: k in s.base.rows && !s.base.rows[k].status.Unsynced? ==>
                  k in e.base.rows && e.base.rows[k] == s.base.rows[k])
            && (forall k :: k in e.base.rows && Acked(e.base.rows[k]) ==>
                  Settled(e.base.db, e.base.rows[k].owner, e.base.rows[k].action))
            && (forall k :: k in e.base.rows ==> Faithful(e.base, e.base.rows[k]))
            && (forall m, n :: 0 <= m < n < |e.drawn| ==> e.drawn[m] != e.drawn[n])
            && Replay.Sound(e.base.db)
            && MapsGrow(s.players, e.players) && MapsGrow(s.sessions, e.sessions)
  {
    hide Enabled, Next, Settled, Faithful, Replay.Extends, Replay.Sound, MapsGrow, Blurred, FlushOk, RequestOk, MapsOk;
    InitialInv(states[0]);
    RunKeepsInv(states, steps, 0, i);
    RunKeepsInv(states, steps, i, j);
  }

  /** At any point of any run, an acknowledged row that is sent again under its
      owner's token is skipped and changes no business row; a registration, exactly
      as long as no other key of the players table starts with its name, and
      otherwise it is rejected and the tables stay as they are. */
  lemma AcknowledgedIsFinal(states: seq<System>, steps: seq<Step>, i: nat, k: Id, user: Id)
    requires Execution(states, steps) && Initial(states[0]) && i <= |steps|
    requires k in states[i].base.rows && Acked(states[i].base.rows[k])
    ensures var db, row := states[i].base.db, states[i].base.rows[k];
            && ServerScope(row.owner).Some?
            && var replay := Service.Served(db, ServerScope(row.owner).value, row.action, user, Works);
               if row.action.body.PlayerBody?
                  && !Resolution.AloneUnderName(db.players, Service.PlayerCandidate(row.action))
               then replay.1.status.Rejected? && replay.0 == db
               else Idempotence.IsNoOp(db, replay.0, replay.1)
  {
    hide Initial, Enabled, Next, Idempotence.Durable, Idempotence.Admitted, Idempotence.NamesTellApart,
         Service.Served, Faithful, Idempotence.IsNoOp, Replay.Sound, Resolution.AloneUnderName;
    EveryRun(states, steps, i, i);
    var db, row := states[i].base.db, states[i].base.rows[k];
    var scope := ServerScope(row.owner).value;
    if row.action.body.PlayerBody? {
      Idempotence.PlayerReplayIff(db, scope, row.action, user);
    } else {
      assert Idempotence.NamesTellApart(db, row.action) by { NoNameToTell(db, row.action); }
      Idempotence.SettledSkips(db, scope, row.action, user);
    }
  }

  lemma NoNameToTell(db: Db, a: Action)
    requires !a.body.PlayerBody?
    ensures Idempotence.NamesTellApart(db, a)
  {
  }

  // ------------------------------------------------------------------
  // Whose rows a flush may touch
  // ------------------------------------------------------------------

  /** The tab whose flush takes the step. */
  function Actor(step: Step): Option<nat> {
    match step
    case RewritePlayer(t, _) => Some(t)
    case RewriteSession(t, _) => Some(t)
    case Bump(t, _) => Some(t)
    case Reconcile(t, _, _) => Some(t)
    case Send(t, _) => Some(t)
    case _ => None
  }

  /** Whatever logouts, expiries and replacements happen in between: a batch goes
      out under the token of the very owner all its rows belong to, and a row
      changes only at the hands of a tab signed in as that row's owner. */
  lemma OnlyOwnRows(s: System, step: Step)
    requires Inv(s) && Enabled(s, step)
    ensures forall k :: k in s.base.rows ==>
              k in Next(s, step).base.rows
              && (Next(s, step).base.rows[k] != s.base.rows[k] ==>
                    && Actor(step).Some? && Actor(step).value < |s.tabs| && s.tabs[Actor(step).value].login.Some?
                    && s.tabs[Actor(step).value].login.value.owner == s.base.rows[k].owner)
    ensures forall q, st :: q in Next(s, step).requests && st in Next(s, step).requests[q].batch ==>
              st.owner == Next(s, step).requests[q].token
    ensures step.Send? ==>
              && s.tabs[step.t].login.Some?
              && Next(s, step).requests[s.clock].token == s.tabs[step.t].login.value.owner
  {
    StepKeepsInv(s, step);
    BatchOwners(Next(s, step));
    RowsOfActor(s, step);
    hide Inv, Onward;
  }

  lemma RowsOfActor(s: System, step: Step)
    requires Enabled(s, step)
    ensures forall k :: k in s.base.rows ==>
              k in Next(s, step).base.rows
              && (Next(s, step).base.rows[k] != s.base.rows[k] ==>
                    && Actor(step).Some? && Actor(step).value < |s.tabs| && s.tabs[Actor(step).value].login.Some?
                    && s.tabs[Actor(step).value].login.value.owner == s.base.rows[k].owner)
  {
    hide Service.Served, PlayerKnown, SessionKnown, LearnedFrom, WithKnownPlayer, WithKnownSession, Saved, DrawnBy,
         Paired, MapOf;
  }

  lemma BatchOwners(s: System)
    requires Inv(s)
    ensures forall q, st :: q in s.requests && st in s.requests[q].batch ==> st.owner == s.requests[q].token
  {
    hide BaseOk, MapsOk, FlushOk, RunsPast, DrawnOnce, WasRow, Faithful;
  }

  // ------------------------------------------------------------------
  // A mapping that was never saved
  // ------------------------------------------------------------------

  predicate Unlearned(f: Flush, k: Id) {
    k !in f.newPlayers && k !in f.newSessions && k !in f.players.ids && k !in f.sessions.ids
  }

  /** A flush whose login has gone may know what it likes: it saves nothing. */
  predicate FlushesUnaware(s: System, k: Id) {
    forall t :: 0 <= t < |s.tabs| && OwnerCurrent(s, t) ==> Unlearned(s.tabs[t].flush.value, k)
  }

  /** The row has its answer, but no map and no flush still signed in knows its id. */
  predicate Orphaned(s: System, k: Id) {
    && k in s.base.rows && !s.base.rows[k].status.Unsynced?
    && (forall o :: o in s.players ==> k !in s.players[o].ids)
    && (forall o :: o in s.sessions ==> k !in s.sessions[o].ids)
    && FlushesUnaware(s, k)
  }

  /** A flush that ends, or whose tab signs out or signs in as another, after it
      marked a row and before it saved its id, leaves the row orphaned, unless
      someone else has saved it. */
  lemma EndingBeforeSavingOrphans(s: System, step: Step, k: Id)
    requires Inv(s) && Enabled(s, step) && (step.EndFlush? || step.SignOut? || step.SignIn?)
    requires k in s.base.rows && !s.base.rows[k].status.Unsynced?
    requires forall o :: (o in s.players ==> k !in s.players[o].ids) && (o in s.sessions ==> k !in s.sessions[o].ids)
    requires forall u :: 0 <= u < |s.tabs| && u != step.t && OwnerCurrent(s, u) ==> Unlearned(s.tabs[u].flush.value, k)
    ensures Orphaned(Next(s, step), k)
  {
    hide BaseOk, MapsOk, FlushOk, RequestOk, DrawnOnce, Unlearned;
  }

  /** And an orphan is never adopted: no later step of anyone learns its id. */
  lemma OrphanStays(s: System, step: Step, k: Id)
    requires Inv(s) && Enabled(s, step) && Orphaned(s, k)
    ensures Orphaned(Next(s, step), k)
  {
    StepKeepsInv(s, step);
    OrphanUnlearned(s, step, k);
    OrphanUnsaved(s, step, k);
  }

  lemma OrphanUnlearned(s: System, step: Step, k: Id)
    requires Inv(s) && Enabled(s, step) && Orphaned(s, k)
    ensures FlushesUnaware(Next(s, step), k)
  {
    if step.Reconcile? {
      ReconcilePassesOrphan(s, step, k);
    } else if step.Receive? || step.StartFlush? || step.ReadMaps? || step.ReadRow? {
      ReadingPassesOrphan(s, step, k);
    } else {
      OtherFlushesAlone(s, step);
      hide Inv, Unlearned, Next, Enabled;
    }
  }

  lemma ReconcilePassesOrphan(s: System, step: Step, k: Id)
    requires Inv(s) && Enabled(s, step) && Orphaned(s, k) && step.Reconcile?
    ensures FlushesUnaware(Next(s, step), k)
  {
    AnswerOk(s, step.t, step.st, step.r);
    hide Inv, Faithful, TrueAnswer, Unlearned, Blurred, LearnedFrom, Replaced;
    if GuardHolds(s.base.rows, step.st, FlushOf(s, step.t).login.owner) {
      assert step.st.action.clientId != k;
      LearnsAnother(FlushOf(s, step.t), step.st, step.r, k);
      SameLogin(FlushOf(s, step.t), step.st, step.r);
    }
  }

  lemma SameLogin(f: Flush, st: Stored, r: ActionResult)
    ensures LearnedFrom(f, st, r).login == f.login
  {
  }

  lemma ReadingPassesOrphan(s: System, step: Step, k: Id)
    requires Enabled(s, step) && Orphaned(s, k)
    requires step.Receive? || step.StartFlush? || step.ReadMaps? || step.ReadRow?
    ensures FlushesUnaware(Next(s, step), k)
  {
  }

  lemma LearnsAnother(f: Flush, st: Stored, r: ActionResult, k: Id)
    requires Unlearned(f, k) && st.action.clientId != k
    ensures Unlearned(LearnedFrom(f, st, r), k)
  {
  }

  /** These steps leave the flushes, and no flush whose login has gone gets it back. */
  lemma OtherFlushesAlone(s: System, step: Step)
    requires Inv(s) && Enabled(s, step)
    requires !step.Reconcile? && !step.Receive? && !step.StartFlush? && !step.ReadMaps? && !step.ReadRow?
    ensures |Next(s, step).tabs| == |s.tabs|
    ensures forall t :: 0 <= t < |s.tabs| && OwnerCurrent(Next(s, step), t) ==>
              OwnerCurrent(s, t) && Next(s, step).tabs[t].flush == s.tabs[t].flush
  {
    hide BaseOk, MapsOk, FlushOk, RequestOk, DrawnOnce, Service.Served, PlayerKnown, SessionKnown, Saved;
  }

  lemma OrphanUnsaved(s: System, step: Step, k: Id)
    requires Inv(s) && Enabled(s, step) && Orphaned(s, k)
    ensures var s' := Next(s, step);
            && (forall o :: o in s'.players ==> k !in s'.players[o].ids)
            && (forall o :: o in s'.sessions ==> k !in s'.sessions[o].ids)
  {
    hide Inv, Service.Served, PlayerKnown, SessionKnown, LearnedFrom;
  }

  predicate RefersTo(b: Body, k: Id) {
    LocalPlayer(b) == Some(k) || LocalSession(b) == Some(k)
  }

  predicate WaitsOn(rows: Rows, m: Id, k: Id) {
    m in rows && RefersTo(rows[m].action.body, k)
  }

  lemma ReplacedWaits(rows: Rows, read: Stored, st: Stored, o: Owner, m: Id, k: Id)
    requires WaitsOn(rows, m, k) && WasRow(rows, read)
    requires st.revision == read.revision && st.action.clientId == read.action.clientId
    requires RefersTo(read.action.body, k) ==> RefersTo(st.action.body, k)
    ensures WaitsOn(Replaced(rows, st, o), m, k)
  {
    hide RefersTo, Blurred;
  }

  lemma RewriteKeepsWaiter(f: Flush, st: Stored, k: Id)
    requires Unlearned(f, k) && RefersTo(st.action.body, k)
    ensures RefersTo(WithKnownPlayer(st, f.players.ids).action.body, k)
    ensures RefersTo(WithKnownSession(st, f.sessions.ids).action.body, k)
  {
  }

  lemma WaiterStays(s: System, step: Step, k: Id, m: Id)
    requires Inv(s) && Enabled(s, step) && Orphaned(s, k) && WaitsOn(s.base.rows, m, k)
    ensures WaitsOn(Next(s, step).base.rows, m, k)
  {
    hide RefersTo, Unlearned, Replaced, GuardHolds, Blurred, Faithful, TrueAnswer;
    if step.RewritePlayer? || step.RewriteSession? || step.Bump? {
      SeenOk(s, step.t, step.st);
      hide Inv;
      RewrittenWaits(s, step, k, m);
    } else if step.Reconcile? {
      AnswerOk(s, step.t, step.st, step.r);
      hide Inv;
      ReplacedWaits(s.base.rows, step.st, LocalStore.Reconciled(step.st, step.r), FlushOf(s, step.t).login.owner, m, k);
    } else {
      hide Inv;
      RowsAlone(s, step);
    }
  }

  lemma RewrittenWaits(s: System, step: Step, k: Id, m: Id)
    requires Enabled(s, step) && (step.RewritePlayer? || step.RewriteSession? || step.Bump?)
    requires Orphaned(s, k) && WaitsOn(s.base.rows, m, k) && WasRow(s.base.rows, step.st)
    ensures WaitsOn(Next(s, step).base.rows, m, k)
  {
    hide RefersTo, Replaced, GuardHolds, Blurred, WaitsOn, WasRow;
    var f := FlushOf(s, step.t);
    assert Unlearned(f, k);
    if RefersTo(step.st.action.body, k) {
      RewriteKeepsWaiter(f, step.st, k);
    }
    hide Unlearned;
    var written := if step.Bump? then Bumped(step.st)
                   else if step.RewritePlayer? then WithKnownPlayer(step.st, f.players.ids)
                   else WithKnownSession(step.st, f.sessions.ids);
    ReplacedWaits(s.base.rows, step.st, written, f.login.owner, m, k);
  }

  lemma RowsAlone(s: System, step: Step)
    requires Enabled(s, step)
    requires !step.RewritePlayer? && !step.RewriteSession? && !step.Bump? && !step.Reconcile?
    ensures forall k :: k in s.base.rows ==>
              k in Next(s, step).base.rows && Next(s, step).base.rows[k] == s.base.rows[k]
  {
    hide Service.Served;
  }

  /** So a row that refers to an orphan refers to it for ever: no run resolves it. */
  lemma {:induction false} OrphanForever(states: seq<System>, steps: seq<Step>, i: nat, j: nat, k: Id, m: Id)
    requires Execution(states, steps) && i <= j <= |steps|
    requires Inv(states[i]) && Orphaned(states[i], k) && WaitsOn(states[i].base.rows, m, k)
    ensures Orphaned(states[j], k) && WaitsOn(states[j].base.rows, m, k)
    decreases j
  {
    hide Inv, Enabled, Next, Onward, Orphaned, WaitsOn;
    if i < j {
      RunKeepsInv(states, steps, i, j - 1);
      OrphanForever(states, steps, i, j - 1, k, m);
      OrphanStays(states[j - 1], steps[j - 1], k);
      WaiterStays(states[j - 1], steps[j - 1], k, m);
    }
  }
}
