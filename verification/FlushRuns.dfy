/** The flush procedure is one of the runs of the protocol: whatever `SyncEngine`
    leaves after a completed flush, the steps of `EndToEnd` lead to, with the very
    answers the server's batch gives. */
module FlushRuns {
  import opened Basics
  import opened Schema
  import opened LocalStore
  import opened EndToEnd
  import opened Rbac
  import Accounting
  import Drain
  import Idempotence
  import Replay
  import Service
  import SyncEngine

  // ------------------------------------------------------------------
  // Reachability
  // ------------------------------------------------------------------

  ghost predicate Path(s: System, steps: seq<Step>, s': System)
    decreases |steps|
  {
    if steps == [] then s == s' else Enabled(s, steps[0]) && Path(Next(s, steps[0]), steps[1..], s')
  }

  ghost predicate Reaches(s: System, s': System) {
    exists steps :: Path(s, steps, s')
  }

  lemma Stay(s: System)
    ensures Reaches(s, s)
  {
    assert Path(s, [], s);
  }

  lemma {:induction false} PathsJoin(s: System, first: seq<Step>, s': System, second: seq<Step>, s'': System)
    requires Path(s, first, s') && Path(s', second, s'')
    ensures Path(s, first + second, s'')
    decreases |first|
  {
    hide Enabled, Next;
    if first == [] {
      assert first + second == second;
    } else {
      PathsJoin(Next(s, first[0]), first[1..], s', second, s'');
      assert (first + second)[1..] == first[1..] + second;
    }
  }

  lemma Then(s: System, s': System, s'': System)
    requires Reaches(s, s') && Reaches(s', s'')
    ensures Reaches(s, s'')
  {
    hide Path;
    var first :| Path(s, first, s');
    var second :| Path(s', second, s'');
    PathsJoin(s, first, s', second, s'');
  }

  lemma One(s: System, step: Step)
    requires Enabled(s, step)
    ensures Reaches(s, Next(s, step))
  {
    hide Enabled, Next;
    assert [step][1..] == [];
    assert Path(Next(s, step), [], Next(s, step));
    assert Path(s, [step], Next(s, step));
  }

  lemma {:induction false} PathKeeps(s: System, steps: seq<Step>, s': System)
    requires Inv(s) && Path(s, steps, s')
    ensures Inv(s')
    decreases |steps|
  {
    hide Inv, Enabled, Next, Onward;
    if steps != [] {
      StepKeepsInv(s, steps[0]);
      PathKeeps(Next(s, steps[0]), steps[1..], s');
    }
  }

  lemma ReachesKeeps(s: System, s': System)
    requires Inv(s) && Reaches(s, s')
    ensures Inv(s')
  {
    hide Inv, Path;
    var steps :| Path(s, steps, s');
    PathKeeps(s, steps, s');
  }

  // ------------------------------------------------------------------
  // Reading and rewriting
  // ------------------------------------------------------------------

  predicate Flushing(s: System, t: nat, owner: Owner) {
    OwnerCurrent(s, t) && FlushOf(s, t).login.owner == owner
  }

  function SetOf(batch: seq<Stored>): set<Stored> {
    set st | st in batch
  }

  /** The flush has seen these rows too. */
  function WithSeen(s: System, t: nat, batch: seq<Stored>): System
    requires HasFlush(s, t)
  {
    WithFlush(s, t, FlushOf(s, t).(seen := FlushOf(s, t).seen + SetOf(batch)))
  }

  lemma FlushTwice(s: System, t: nat, f: Flush, g: Flush)
    requires t < |s.tabs|
    ensures WithFlush(WithFlush(s, t, f), t, g) == WithFlush(s, t, g)
  {
  }

  lemma ReadNext(s: System, t: nat, owner: Owner, batch: seq<Stored>, n: nat)
    requires Flushing(s, t, owner) && SyncEngine.Current(s.base.rows, batch, owner) && n < |batch|
    ensures Reaches(WithSeen(s, t, batch[..n]), WithSeen(s, t, batch[..n + 1]))
  {
    var k, f := batch[n].action.clientId, FlushOf(s, t);
    var mid := WithSeen(s, t, batch[..n]);
    assert s.base.rows[k] == batch[n];
    One(mid, ReadRow(t, k));
    assert batch[..n + 1] == batch[..n] + [batch[n]];
    assert f.seen + SetOf(batch[..n]) + {batch[n]} == f.seen + SetOf(batch[..n + 1]);
    FlushTwice(s, t, FlushOf(mid, t), f.(seen := f.seen + SetOf(batch[..n + 1])));
  }

  lemma {:induction false} ReadAll(s: System, t: nat, owner: Owner, batch: seq<Stored>, n: nat)
    requires Flushing(s, t, owner) && SyncEngine.Current(s.base.rows, batch, owner) && n <= |batch|
    ensures Reaches(s, WithSeen(s, t, batch[..n]))
  {
    if n == 0 {
      Stay(s);
      assert FlushOf(s, t).seen + SetOf(batch[..0]) == FlushOf(s, t).seen;
      assert WithSeen(s, t, batch[..0]) == s;
    } else {
      hide Reaches, WithSeen, Flushing, SyncEngine.Current;
      ReadAll(s, t, owner, batch, n - 1);
      ReadNext(s, t, owner, batch, n - 1);
      Then(s, WithSeen(s, t, batch[..n - 1]), WithSeen(s, t, batch[..n]));
    }
  }

  function PlayersDone(s: System, t: nat, owner: Owner, pending: seq<Stored>, n: nat): System
    requires HasFlush(s, t) && n <= |pending|
  {
    WithRows(s,
             SyncEngine.PartlyPlayerResolved(s.base.rows, SyncEngine.IdsBefore(pending, n), owner,
                                             FlushOf(s, t).players.ids))
  }

  lemma RewritePlayerNext(s: System, t: nat, owner: Owner, pending: seq<Stored>, n: nat)
    requires Flushing(s, t, owner) && Keyed(s.base.rows) && n < |pending|
    requires SyncEngine.DistinctIds(pending) && SyncEngine.Current(s.base.rows, pending, owner)
    requires pending[n] in FlushOf(s, t).seen
    ensures Reaches(PlayersDone(s, t, owner, pending, n), PlayersDone(s, t, owner, pending, n + 1))
  {
    hide WithKnownPlayer, PlayerKnown, Replaced, GuardHolds, SyncEngine.DistinctIds, SyncEngine.PartlyPlayerResolved,
         SyncEngine.IdsOf;
    var ids, done, st := FlushOf(s, t).players.ids, SyncEngine.IdsBefore(pending, n), pending[n];
    var mid := PlayersDone(s, t, owner, pending, n);
    SyncEngine.DistinctAt(pending, n);
    SyncEngine.IdsAdvance(pending, n);
    SyncEngine.ResolvePlayerOf(s.base.rows, done, st, owner, ids);
    if PlayerKnown(st.action.body, ids) {
      One(mid, RewritePlayer(t, st));
    } else {
      Stay(mid);
    }
  }

  lemma {:induction false} RewriteAllPlayers(s: System, t: nat, owner: Owner, pending: seq<Stored>, n: nat)
    requires Flushing(s, t, owner) && Keyed(s.base.rows) && n <= |pending|
    requires SyncEngine.DistinctIds(pending) && SyncEngine.Current(s.base.rows, pending, owner)
    requires forall st :: st in pending ==> st in FlushOf(s, t).seen
    ensures Reaches(s, PlayersDone(s, t, owner, pending, n))
  {
    hide Reaches, SyncEngine.DistinctIds, SyncEngine.Current, PlayerKnown;
    if n == 0 {
      Stay(s);
      assert SyncEngine.PartlyPlayerResolved(s.base.rows, SyncEngine.IdsBefore(pending, 0), owner,
                                             FlushOf(s, t).players.ids)
             == s.base.rows;
    } else {
      hide PlayersDone;
      RewriteAllPlayers(s, t, owner, pending, n - 1);
      RewritePlayerNext(s, t, owner, pending, n - 1);
      Then(s, PlayersDone(s, t, owner, pending, n - 1), PlayersDone(s, t, owner, pending, n));
    }
  }

  function SessionsDone(s: System, t: nat, owner: Owner, pending: seq<Stored>, n: nat): System
    requires HasFlush(s, t) && n <= |pending|
  {
    WithRows(s,
             SyncEngine.PartlySessionResolved(s.base.rows, SyncEngine.IdsBefore(pending, n), owner,
                                              FlushOf(s, t).sessions.ids))
  }

  lemma RewriteSessionNext(s: System, t: nat, owner: Owner, pending: seq<Stored>, n: nat)
    requires Flushing(s, t, owner) && Keyed(s.base.rows) && n < |pending|
    requires SyncEngine.DistinctIds(pending) && SyncEngine.Current(s.base.rows, pending, owner)
    requires pending[n] in FlushOf(s, t).seen
    ensures Reaches(SessionsDone(s, t, owner, pending, n), SessionsDone(s, t, owner, pending, n + 1))
  {
    hide WithKnownSession, SessionKnown, Replaced, GuardHolds, SyncEngine.DistinctIds,
         SyncEngine.PartlySessionResolved, SyncEngine.IdsOf;
    var ids, done, st := FlushOf(s, t).sessions.ids, SyncEngine.IdsBefore(pending, n), pending[n];
    var mid := SessionsDone(s, t, owner, pending, n);
    SyncEngine.DistinctAt(pending, n);
    SyncEngine.IdsAdvance(pending, n);
    SyncEngine.ResolveSessionOf(s.base.rows, done, st, owner, ids);
    if SessionKnown(st.action.body, ids) {
      One(mid, RewriteSession(t, st));
    } else {
      Stay(mid);
    }
  }

  lemma {:induction false} RewriteAllSessions(s: System, t: nat, owner: Owner, pending: seq<Stored>, n: nat)
    requires Flushing(s, t, owner) && Keyed(s.base.rows) && n <= |pending|
    requires SyncEngine.DistinctIds(pending) && SyncEngine.Current(s.base.rows, pending, owner)
    requires forall st :: st in pending ==> st in FlushOf(s, t).seen
    ensures Reaches(s, SessionsDone(s, t, owner, pending, n))
  {
    hide Reaches, SyncEngine.DistinctIds, SyncEngine.Current, SessionKnown;
    if n == 0 {
      Stay(s);
      assert SyncEngine.PartlySessionResolved(s.base.rows, SyncEngine.IdsBefore(pending, 0), owner,
                                              FlushOf(s, t).sessions.ids)
             == s.base.rows;
    } else {
      hide SessionsDone;
      RewriteAllSessions(s, t, owner, pending, n - 1);
      RewriteSessionNext(s, t, owner, pending, n - 1);
      Then(s, SessionsDone(s, t, owner, pending, n - 1), SessionsDone(s, t, owner, pending, n));
    }
  }

  /** Only queue rows and what the flush has read may differ. */
  predicate Quiet(s: System, s': System, t: nat) {
    && HasFlush(s, t) && HasFlush(s', t)
    && s' == s.(base := s.base.(rows := s'.base.rows), tabs := s'.tabs)
    && |s'.tabs| == |s.tabs| && s'.tabs[t].login == s.tabs[t].login
    && var f, g := FlushOf(s, t), FlushOf(s', t);
       g == f.(seen := g.seen, players := g.players, sessions := g.sessions)
  }

  function DeviceOf(s: System, order: seq<Id>, owner: Owner): SyncEngine.Device {
    SyncEngine.Device(order, s.base.rows, MapOf(s.players, owner).ids, MapOf(s.sessions, owner).ids)
  }

  /** Read the maps and the pending rows. */
  lemma ReadEverything(s: System, t: nat, owner: Owner, order: seq<Id>) returns (s': System)
    requires Flushing(s, t, owner) && Keyed(s.base.rows) && Listed(order, s.base.rows.Keys)
    ensures Reaches(s, s') && Quiet(s, s', t) && Flushing(s', t, owner) && s'.base == s.base
    ensures FlushOf(s', t).players == MapOf(s.players, owner) && FlushOf(s', t).sessions == MapOf(s.sessions, owner)
    ensures forall st :: st in SyncEngine.PendingRows(DeviceOf(s, order, owner), owner) ==> st in FlushOf(s', t).seen
  {
    hide SyncEngine.PendingRows, SyncEngine.IsPending, Listed;
    var pending := SyncEngine.PendingRows(DeviceOf(s, order, owner), owner);
    SyncEngine.PendingIsSnapshot(DeviceOf(s, order, owner), owner);
    var mid := Next(s, ReadMaps(t));
    One(s, ReadMaps(t));
    assert SyncEngine.Current(mid.base.rows, pending, owner);
    ReadAll(mid, t, owner, pending, |pending|);
    assert pending[..|pending|] == pending;
    s' := WithSeen(mid, t, pending);
    Then(s, mid, s');
  }

  lemma ApplyPlayers(s: System, t: nat, owner: Owner, order: seq<Id>) returns (s': System)
    requires Flushing(s, t, owner) && Keyed(s.base.rows) && Listed(order, s.base.rows.Keys)
    ensures Reaches(s, s') && Quiet(s, s', t) && Flushing(s', t, owner)
    ensures s'.base.rows == SyncEngine.AllPlayersResolved(s.base.rows, owner, MapOf(s.players, owner).ids)
  {
    hide SyncEngine.PendingRows, SyncEngine.IsPending, Listed, SyncEngine.AllPlayersResolved,
         SyncEngine.PartlyPlayerResolved, SyncEngine.DistinctIds, SyncEngine.InCaptureOrder;
    var d := DeviceOf(s, order, owner);
    var pending := SyncEngine.PendingRows(d, owner);
    SyncEngine.PendingIsSnapshot(d, owner);
    SyncEngine.PendingRowsOrdered(d, owner);
    var mid := ReadEverything(s, t, owner, order);
    RewriteAllPlayers(mid, t, owner, pending, |pending|);
    assert pending[..|pending|] == pending;
    SyncEngine.AllPlayerDone(s.base.rows, pending, owner, MapOf(s.players, owner).ids);
    s' := WithRows(mid, SyncEngine.AllPlayersResolved(s.base.rows, owner, MapOf(s.players, owner).ids));
    Then(s, mid, s');
  }

  lemma ApplySessions(s: System, t: nat, owner: Owner, order: seq<Id>) returns (s': System)
    requires Flushing(s, t, owner) && Keyed(s.base.rows) && Listed(order, s.base.rows.Keys)
    ensures Reaches(s, s') && Quiet(s, s', t) && Flushing(s', t, owner)
    ensures s'.base.rows == SyncEngine.AllSessionsResolved(s.base.rows, owner, MapOf(s.sessions, owner).ids)
  {
    hide SyncEngine.PendingRows, SyncEngine.IsPending, Listed, SyncEngine.AllSessionsResolved,
         SyncEngine.PartlySessionResolved, SyncEngine.DistinctIds, SyncEngine.InCaptureOrder;
    var d := DeviceOf(s, order, owner);
    var pending := SyncEngine.PendingRows(d, owner);
    SyncEngine.PendingIsSnapshot(d, owner);
    SyncEngine.PendingRowsOrdered(d, owner);
    var mid := ReadEverything(s, t, owner, order);
    RewriteAllSessions(mid, t, owner, pending, |pending|);
    assert pending[..|pending|] == pending;
    SyncEngine.AllSessionDone(s.base.rows, pending, owner, MapOf(s.sessions, owner).ids);
    s' := WithRows(mid, SyncEngine.AllSessionsResolved(s.base.rows, owner, MapOf(s.sessions, owner).ids));
    Then(s, mid, s');
  }

  // ------------------------------------------------------------------
  // One exchange with the server
  // ------------------------------------------------------------------

  function Actions(batch: seq<Stored>): (actions: seq<Action>)
    ensures |actions| == |batch|
    ensures forall i :: 0 <= i < |batch| ==> actions[i] == batch[i].action
  {
    if batch == [] then [] else Actions(batch[..|batch| - 1]) + [batch[|batch| - 1].action]
  }

  /** What `apply_batch` makes of the batch under the owner's scope. */
  ghost function Answers(db: Db, owner: Owner, batch: seq<Stored>, user: Id, audits: seq<Audit>)
    : (Db, seq<ActionResult>)
    requires ServerScope(owner).Some? && |audits| == |batch|
  {
    Service.BatchApplied(db, ServerScope(owner).value, Actions(batch), user, audits)
  }

  lemma AnswersNext(db: Db, owner: Owner, batch: seq<Stored>, user: Id, audits: seq<Audit>, n: nat)
    requires ServerScope(owner).Some? && |audits| == |batch| && n < |batch|
    ensures |Answers(db, owner, batch[..n], user, audits[..n]).1| == n
    ensures var before := Answers(db, owner, batch[..n], user, audits[..n]);
            var last := Service.Served(before.0, ServerScope(owner).value, batch[n].action, user, audits[n]);
            Answers(db, owner, batch[..n + 1], user, audits[..n + 1]) == (last.0, before.1 + [last.1])
  {
    hide Service.Served;
    assert Actions(batch[..n + 1])[..n] == Actions(batch[..n]);
    assert audits[..n + 1][..n] == audits[..n];
    Accounting.BatchAccounted(db, ServerScope(owner).value, Actions(batch[..n]), user, audits[..n]);
  }

  /** Request `q` with its first `n` rows served. */
  ghost function ServedSome(s: System, q: nat, user: Id, audits: seq<Audit>, n: nat, drawn: seq<Id>): System
    requires q in s.requests && ServerScope(s.requests[q].token).Some?
    requires |audits| == |s.requests[q].batch| && n <= |audits|
  {
    var request := s.requests[q];
    var answers := Answers(s.base.db, request.token, request.batch[..n], user, audits[..n]);
    s.(base := s.base.(db := answers.0), requests := s.requests[q := request.(results := answers.1)], drawn := drawn)
  }

  lemma ServeNext(s: System, q: nat, user: Id, audits: seq<Audit>, n: nat, drawn: seq<Id>) returns (more: seq<Id>)
    requires q in s.requests && ServerScope(s.requests[q].token).Some?
    requires |audits| == |s.requests[q].batch| && n < |audits|
    ensures Reaches(ServedSome(s, q, user, audits, n, drawn), ServedSome(s, q, user, audits, n + 1, more))
  {
    hide Service.Served, Reaches, Answers, DrawnBy;
    var request := s.requests[q];
    var mid := ServedSome(s, q, user, audits, n, drawn);
    AnswersNext(s.base.db, request.token, request.batch, user, audits, n);
    One(mid, Serve(q, user, audits[n]));
    var after := Next(mid, Serve(q, user, audits[n]));
    more := after.drawn;
    assert mid.requests[q].batch == request.batch && |mid.requests[q].results| == n;
    assert after.requests == s.requests[q := after.requests[q]];
  }

  lemma {:induction false} ServeAll(s: System, q: nat, user: Id, audits: seq<Audit>, n: nat) returns (drawn: seq<Id>)
    requires q in s.requests && s.requests[q].results == [] && ServerScope(s.requests[q].token).Some?
    requires |audits| == |s.requests[q].batch| && n <= |audits|
    ensures Reaches(s, ServedSome(s, q, user, audits, n, drawn))
  {
    hide Service.Served, Reaches;
    if n == 0 {
      drawn := s.drawn;
      Stay(s);
      assert s.requests[q := s.requests[q]] == s.requests;
    } else {
      hide ServedSome;
      var before := ServeAll(s, q, user, audits, n - 1);
      drawn := ServeNext(s, q, user, audits, n - 1, before);
      Then(s, ServedSome(s, q, user, audits, n - 1, before), ServedSome(s, q, user, audits, n, drawn));
    }
  }

  /** The response body as the client indexes it. */
  function ById(batch: seq<Stored>, results: seq<ActionResult>): map<Id, ActionResult>
    requires |results| == |batch|
  {
    if batch == [] then map[]
    else
      var n := |batch| - 1;
      ById(batch[..n], results[..n])[batch[n].action.clientId := results[n]]
  }

  lemma {:induction false} ByIdAt(batch: seq<Stored>, results: seq<ActionResult>, i: nat)
    requires |results| == |batch| && SyncEngine.DistinctIds(batch) && i < |batch|
    ensures batch[i].action.clientId in ById(batch, results)
    ensures ById(batch, results)[batch[i].action.clientId] == results[i]
    decreases |batch|
  {
    var n := |batch| - 1;
    if i < n {
      SyncEngine.DistinctPrefix(batch, n);
      SyncEngine.DistinctAt(batch, n);
      hide SyncEngine.DistinctIds;
      ByIdAt(batch[..n], results[..n], i);
      assert batch[..n][i] == batch[i];
      assert batch[i].action.clientId in SyncEngine.IdsOf(batch[..n]);
    }
  }

  /** The flush and the queue once the first `n` answers have been reconciled. */
  function ReconciledSome(s: System, t: nat, batch: seq<Stored>, r: SyncEngine.Response, n: nat): System
    requires HasFlush(s, t) && n <= |batch|
  {
    var f := FlushOf(s, t);
    WithRows(WithFlush(s, t, f.(newPlayers := f.newPlayers + SyncEngine.Learned(batch[..n], r, PlayerEntity),
                                newSessions := f.newSessions + SyncEngine.Learned(batch[..n], r, SessionEntity))),
             SyncEngine.PartlySent(s.base.rows, SyncEngine.IdsBefore(batch, n), r))
  }

  lemma LearnsAlike(f: Flush, batch: seq<Stored>, r: SyncEngine.Response, n: nat, result: ActionResult)
    requires n < |batch| && r.Answered? && batch[n].action.clientId in r.results
    requires r.results[batch[n].action.clientId] == result
    ensures var g := f.(newPlayers := f.newPlayers + SyncEngine.Learned(batch[..n], r, PlayerEntity),
                        newSessions := f.newSessions + SyncEngine.Learned(batch[..n], r, SessionEntity));
            LearnedFrom(g, batch[n], result) ==
            f.(newPlayers := f.newPlayers + SyncEngine.Learned(batch[..n + 1], r, PlayerEntity),
               newSessions := f.newSessions + SyncEngine.Learned(batch[..n + 1], r, SessionEntity))
  {
    SyncEngine.LearnedAdvance(batch, n, r, PlayerEntity);
    SyncEngine.LearnedAdvance(batch, n, r, SessionEntity);
    OfKind(batch[n].action.body);
    var k := batch[n].action.clientId;
    assert SyncEngine.IssuesId(r, k) <==> !result.status.Rejected? && result.recordId.Some?;
    hide SyncEngine.Learned, SyncEngine.IssuesId;
    if result.recordId.Some? {
      PlusUpdate(f.newPlayers, SyncEngine.Learned(batch[..n], r, PlayerEntity), k, result.recordId.value);
      PlusUpdate(f.newSessions, SyncEngine.Learned(batch[..n], r, SessionEntity), k, result.recordId.value);
    }
  }

  lemma OfKind(b: Body)
    ensures (b.EntityName() == PlayerEntity <==> b.PlayerBody?) && (b.EntityName() == SessionEntity <==> b.SessionBody?)
  {
  }

  lemma PlusUpdate(m: IdMap, n: IdMap, k: Id, id: nat)
    ensures m + n[k := id] == (m + n)[k := id]
  {
  }

  lemma ReconcileNext(s: System, t: nat, owner: Owner, batch: seq<Stored>, r: SyncEngine.Response, n: nat,
                      result: ActionResult)
    requires Flushing(s, t, owner) && Keyed(s.base.rows) && n < |batch|
    requires SyncEngine.DistinctIds(batch) && SyncEngine.Current(s.base.rows, batch, owner)
    requires r.Answered? && batch[n].action.clientId in r.results && r.results[batch[n].action.clientId] == result
    requires (batch[n], result) in FlushOf(s, t).answers
    ensures Reaches(ReconciledSome(s, t, batch, r, n), ReconciledSome(s, t, batch, r, n + 1))
  {
    hide Reaches, SyncEngine.DistinctIds, SyncEngine.Learned, SyncEngine.PartlySent, SyncEngine.IdsOf, LearnedFrom;
    var mid, st := ReconciledSome(s, t, batch, r, n), batch[n];
    SyncEngine.DistinctAt(batch, n);
    SyncEngine.IdsAdvance(batch, n);
    SyncEngine.SentNext(s.base.rows, SyncEngine.IdsBefore(batch, n), st, r);
    LearnsAlike(FlushOf(s, t), batch, r, n, result);
    assert GuardHolds(mid.base.rows, st, owner);
    One(mid, Reconcile(t, st, result));
    FlushTwice(s, t, FlushOf(mid, t), LearnedFrom(FlushOf(mid, t), st, result));
  }

  lemma {:induction false} ReconcileAll(s: System, t: nat, owner: Owner, batch: seq<Stored>,
                                        results: seq<ActionResult>, n: nat)
    requires Flushing(s, t, owner) && Keyed(s.base.rows) && n <= |batch| && |results| == |batch|
    requires SyncEngine.DistinctIds(batch) && SyncEngine.Current(s.base.rows, batch, owner)
    requires forall i :: 0 <= i < |batch| ==> (batch[i], results[i]) in FlushOf(s, t).answers
    ensures Reaches(s, ReconciledSome(s, t, batch, SyncEngine.Answered(ById(batch, results)), n))
  {
    hide Reaches, SyncEngine.DistinctIds, SyncEngine.Current, ById;
    var r := SyncEngine.Answered(ById(batch, results));
    if n == 0 {
      Stay(s);
      NothingReconciled(s, t, batch, r);
    } else {
      ReconcileAll(s, t, owner, batch, results, n - 1);
      ByIdAt(batch, results, n - 1);
      ReconcileNext(s, t, owner, batch, r, n - 1, results[n - 1]);
      hide ReconciledSome;
      Then(s, ReconciledSome(s, t, batch, r, n - 1), ReconciledSome(s, t, batch, r, n));
    }
  }

  lemma NothingReconciled(s: System, t: nat, batch: seq<Stored>, r: SyncEngine.Response)
    requires HasFlush(s, t)
    ensures ReconciledSome(s, t, batch, r, 0) == s
  {
    SyncEngine.SentNone(s.base.rows, batch, r);
    SyncEngine.LearnedNothing(batch[..0], r, PlayerEntity);
    SyncEngine.LearnedNothing(batch[..0], r, SessionEntity);
    var f := FlushOf(s, t);
    assert f.newPlayers + map[] == f.newPlayers && f.newSessions + map[] == f.newSessions;
    assert s.tabs[t := s.tabs[t]] == s.tabs;
  }

  lemma AnswersCount(db: Db, owner: Owner, batch: seq<Stored>, user: Id, audits: seq<Audit>)
    requires ServerScope(owner).Some? && |audits| == |batch|
    ensures |Answers(db, owner, batch, user, audits).1| == |batch|
  {
    Accounting.BatchAccounted(db, ServerScope(owner).value, Actions(batch), user, audits);
  }

  /** The response to a batch that reached the server and came back. */
  ghost function ResponseTo(db: Db, owner: Owner, batch: seq<Stored>, user: Id, audits: seq<Audit>): SyncEngine.Response
    requires ServerScope(owner).Some? && |audits| == |batch|
  {
    AnswersCount(db, owner, batch, user, audits);
    SyncEngine.Answered(ById(batch, Answers(db, owner, batch, user, audits).1))
  }

  lemma KeyedOf(s: System)
    requires Inv(s)
    ensures Keyed(s.base.rows)
  {
    BaseOfInv(s);
    hide Inv, RowsSettled, RowsFaithful;
  }

  lemma SendBatch(s: System, t: nat, owner: Owner, batch: seq<Stored>) returns (s': System)
    requires Flushing(s, t, owner) && SyncEngine.Current(s.base.rows, batch, owner)
    ensures Reaches(s, s') && Flushing(s', t, owner) && s'.base == s.base && s'.players == s.players
    ensures s'.sessions == s.sessions
    ensures s.clock in s'.requests && s'.requests[s.clock] == Request(t, FlushOf(s', t).run, owner, batch, [])
    ensures FlushOf(s', t) == FlushOf(s, t).(seen := FlushOf(s', t).seen)
    ensures forall st :: st in batch ==> st in FlushOf(s', t).seen
  {
    hide Reaches;
    ReadAll(s, t, owner, batch, |batch|);
    assert batch[..|batch|] == batch;
    var read := WithSeen(s, t, batch);
    assert forall st :: st in batch ==> st.status.Unsynced? by {
      forall st | st in batch ensures st.status.Unsynced? {
        var i :| 0 <= i < |batch| && batch[i] == st;
      }
    }
    One(read, Send(t, batch));
    s' := Next(read, Send(t, batch));
    Then(s, read, s');
  }

  lemma HearBack(s: System, t: nat, owner: Owner, q: nat, batch: seq<Stored>, results: seq<ActionResult>)
    requires Flushing(s, t, owner) && |results| == |batch|
    requires q in s.requests && s.requests[q] == Request(t, FlushOf(s, t).run, owner, batch, results)
    ensures Enabled(s, Receive(q))
    ensures var s' := Next(s, Receive(q));
            && Reaches(s, s') && Flushing(s', t, owner) && s'.base == s.base && s'.players == s.players
            && s'.sessions == s.sessions
            && FlushOf(s', t) == FlushOf(s, t).(answers := FlushOf(s', t).answers)
            && forall i :: 0 <= i < |batch| ==> (batch[i], results[i]) in FlushOf(s', t).answers
  {
    One(s, Receive(q));
    hide Reaches;
  }

  /** Send a batch, have it served, and hear the answers. */
  lemma SendAndHear(s: System, t: nat, owner: Owner, batch: seq<Stored>, user: Id, audits: seq<Audit>)
    returns (s': System, results: seq<ActionResult>)
    requires Flushing(s, t, owner) && ServerScope(owner).Some?
    requires |audits| == |batch| && SyncEngine.Current(s.base.rows, batch, owner)
    ensures Reaches(s, s') && Flushing(s', t, owner)
    ensures (s'.base.db, results) == Answers(s.base.db, owner, batch, user, audits) && |results| == |batch|
    ensures s'.base.rows == s.base.rows && s'.players == s.players && s'.sessions == s.sessions
    ensures FlushOf(s', t).newPlayers == FlushOf(s, t).newPlayers
    ensures FlushOf(s', t).newSessions == FlushOf(s, t).newSessions
    ensures forall i :: 0 <= i < |batch| ==> (batch[i], results[i]) in FlushOf(s', t).answers
  {
    hide Reaches, Answers, SyncEngine.Current, Next, Enabled;
    AnswersCount(s.base.db, owner, batch, user, audits);
    assert batch[..|batch|] == batch && audits[..|audits|] == audits;
    var q := s.clock;
    var sent := SendBatch(s, t, owner, batch);
    var drawn := ServeAll(sent, q, user, audits, |batch|);
    var served := ServedSome(sent, q, user, audits, |batch|, drawn);
    Then(s, sent, served);
    results := Answers(s.base.db, owner, batch, user, audits).1;
    HearBack(served, t, owner, q, batch, results);
    s' := Next(served, Receive(q));
    Then(s, served, s');
  }

  lemma Exchange(s: System, t: nat, owner: Owner, batch: seq<Stored>, user: Id, audits: seq<Audit>) returns (s': System)
    requires Flushing(s, t, owner) && Keyed(s.base.rows) && ServerScope(owner).Some? && |audits| == |batch|
    requires SyncEngine.DistinctIds(batch) && SyncEngine.Current(s.base.rows, batch, owner)
    ensures Reaches(s, s') && Flushing(s', t, owner) && s'.players == s.players && s'.sessions == s.sessions
    ensures var r := ResponseTo(s.base.db, owner, batch, user, audits);
            && s'.base.rows == SyncEngine.AfterTransmit(s.base.rows, batch, r)
            && s'.base.db == Answers(s.base.db, owner, batch, user, audits).0
            && FlushOf(s', t).newPlayers == FlushOf(s, t).newPlayers + SyncEngine.Learned(batch, r, PlayerEntity)
            && FlushOf(s', t).newSessions == FlushOf(s, t).newSessions + SyncEngine.Learned(batch, r, SessionEntity)
  {
    hide Reaches, Answers, ById, SyncEngine.DistinctIds, SyncEngine.Learned, SyncEngine.PartlySent,
         SyncEngine.AfterTransmit;
    var heard, results := SendAndHear(s, t, owner, batch, user, audits);
    ReconcileAll(heard, t, owner, batch, results, |batch|);
    var r := SyncEngine.Answered(ById(batch, results));
    s' := ReconciledSome(heard, t, batch, r, |batch|);
    Then(s, heard, s');
    assert batch[..|batch|] == batch;
    SyncEngine.AllSent(s.base.rows, batch, r);
  }

  // ------------------------------------------------------------------
  // An exchange that fails
  // ------------------------------------------------------------------

  /** The queue once the first `n` rows of a batch have been given an attempt. */
  function BumpedSome(s: System, batch: seq<Stored>, failure: SyncEngine.Response, n: nat): System
    requires n <= |batch|
  {
    WithRows(s, SyncEngine.PartlySent(s.base.rows, SyncEngine.IdsBefore(batch, n), failure))
  }

  lemma BumpNext(s: System, t: nat, owner: Owner, batch: seq<Stored>, failure: SyncEngine.Response, n: nat)
    requires Flushing(s, t, owner) && Keyed(s.base.rows) && n < |batch| && !failure.Answered?
    requires SyncEngine.DistinctIds(batch) && SyncEngine.Current(s.base.rows, batch, owner)
    requires batch[n] in FlushOf(s, t).seen
    ensures Reaches(BumpedSome(s, batch, failure, n), BumpedSome(s, batch, failure, n + 1))
  {
    hide Reaches, SyncEngine.DistinctIds, SyncEngine.PartlySent, SyncEngine.IdsOf;
    var mid, st := BumpedSome(s, batch, failure, n), batch[n];
    SyncEngine.DistinctAt(batch, n);
    SyncEngine.IdsAdvance(batch, n);
    SyncEngine.SentNext(s.base.rows, SyncEngine.IdsBefore(batch, n), st, failure);
    assert GuardHolds(mid.base.rows, st, owner);
    One(mid, Bump(t, st));
  }

  lemma {:induction false} BumpAll(s: System, t: nat, owner: Owner, batch: seq<Stored>, failure: SyncEngine.Response,
                                   n: nat)
    requires Flushing(s, t, owner) && Keyed(s.base.rows) && n <= |batch| && !failure.Answered?
    requires SyncEngine.DistinctIds(batch) && SyncEngine.Current(s.base.rows, batch, owner)
    requires forall st :: st in batch ==> st in FlushOf(s, t).seen
    ensures Reaches(s, BumpedSome(s, batch, failure, n))
  {
    hide Reaches, SyncEngine.DistinctIds, SyncEngine.Current;
    if n == 0 {
      Stay(s);
      SyncEngine.SentNone(s.base.rows, batch, failure);
    } else {
      BumpAll(s, t, owner, batch, failure, n - 1);
      assert batch[n - 1] in batch;
      BumpNext(s, t, owner, batch, failure, n - 1);
      hide BumpedSome;
      Then(s, BumpedSome(s, batch, failure, n - 1), BumpedSome(s, batch, failure, n));
    }
  }

  /** Send a batch of which the server serves the first `n` rows, and hear nothing. */
  lemma SendAndLose(s: System, t: nat, owner: Owner, batch: seq<Stored>, user: Id, audits: seq<Audit>, n: nat)
    returns (s': System)
    requires Flushing(s, t, owner) && ServerScope(owner).Some?
    requires |audits| == |batch| && n <= |batch| && SyncEngine.Current(s.base.rows, batch, owner)
    ensures Reaches(s, s') && Flushing(s', t, owner)
    ensures s'.base.db == Answers(s.base.db, owner, batch[..n], user, audits[..n]).0
    ensures s'.base.rows == s.base.rows && s'.players == s.players && s'.sessions == s.sessions
    ensures FlushOf(s', t).newPlayers == FlushOf(s, t).newPlayers
    ensures FlushOf(s', t).newSessions == FlushOf(s, t).newSessions
    ensures forall st :: st in batch ==> st in FlushOf(s', t).seen
  {
    hide Reaches, Answers, SyncEngine.Current;
    var q := s.clock;
    var sent := SendBatch(s, t, owner, batch);
    var drawn := ServeAll(sent, q, user, audits, n);
    var served := ServedSome(sent, q, user, audits, n, drawn);
    Then(s, sent, served);
    One(served, Lose(q));
    s' := Next(served, Lose(q));
    Then(s, served, s');
  }

  lemma LostExchange(s: System, t: nat, owner: Owner, batch: seq<Stored>, user: Id, audits: seq<Audit>, n: nat,
                     failure: SyncEngine.Response) returns (s': System)
    requires Flushing(s, t, owner) && Keyed(s.base.rows) && ServerScope(owner).Some? && |audits| == |batch|
    requires SyncEngine.DistinctIds(batch) && SyncEngine.Current(s.base.rows, batch, owner)
    requires n <= |batch| && !failure.Answered?
    ensures Reaches(s, s') && Flushing(s', t, owner) && s'.players == s.players && s'.sessions == s.sessions
    ensures s'.base.rows == SyncEngine.AfterTransmit(s.base.rows, batch, failure)
    ensures s'.base.db == Answers(s.base.db, owner, batch[..n], user, audits[..n]).0
  {
    hide Reaches, Answers, SyncEngine.DistinctIds, SyncEngine.PartlySent, SyncEngine.AfterTransmit;
    var lost := SendAndLose(s, t, owner, batch, user, audits, n);
    BumpAll(lost, t, owner, batch, failure, |batch|);
    s' := BumpedSome(lost, batch, failure, |batch|);
    Then(s, lost, s');
    SyncEngine.AllSent(s.base.rows, batch, failure);
  }

  // ------------------------------------------------------------------
  // Saving what was learned
  // ------------------------------------------------------------------

  lemma SaveLearned(s: System, t: nat, owner: Owner) returns (s': System)
    requires Flushing(s, t, owner)
    ensures Reaches(s, s') && Flushing(s', t, owner) && s'.base == s.base
    ensures MapOf(s'.players, owner).ids == MapOf(s.players, owner).ids + FlushOf(s, t).newPlayers
    ensures MapOf(s'.sessions, owner).ids == MapOf(s.sessions, owner).ids + FlushOf(s, t).newSessions
    ensures FlushOf(s', t).newPlayers == FlushOf(s, t).newPlayers
    ensures FlushOf(s', t).newSessions == FlushOf(s, t).newSessions
  {
    hide Reaches;
    One(s, ReadMaps(t));
    var s1 := Next(s, ReadMaps(t));
    One(s1, SavePlayers(t));
    var s2 := Next(s1, SavePlayers(t));
    Then(s, s1, s2);
    One(s2, SaveSessions(t));
    s' := Next(s2, SaveSessions(t));
    Then(s, s2, s');
  }

  // ------------------------------------------------------------------
  // The whole flush
  // ------------------------------------------------------------------

  lemma SameKeys(rows: Rows, owner: Owner, ids: IdMap, batch: seq<Stored>, r: SyncEngine.Response)
    ensures SyncEngine.AllPlayersResolved(rows, owner, ids).Keys == rows.Keys
    ensures SyncEngine.AllSessionsResolved(rows, owner, ids).Keys == rows.Keys
    ensures SyncEngine.AfterTransmit(rows, batch, r).Keys == rows.Keys
  {
  }

  /** References rewritten once new ids are saved, as the engine does it. */
  lemma ApplyLearned(s: System, t: nat, owner: Owner, order: seq<Id>, players: bool, sessions: bool)
    returns (s': System)
    requires Inv(s) && Flushing(s, t, owner) && Listed(order, s.base.rows.Keys)
    ensures Reaches(s, s') && Flushing(s', t, owner) && s'.players == s.players && s'.sessions == s.sessions
    ensures s'.base.db == s.base.db && s'.base.rows.Keys == s.base.rows.Keys
    ensures FlushOf(s', t).newPlayers == FlushOf(s, t).newPlayers
    ensures FlushOf(s', t).newSessions == FlushOf(s, t).newSessions
    ensures var rows := if players then SyncEngine.AllPlayersResolved(s.base.rows, owner, MapOf(s.players, owner).ids)
                        else s.base.rows;
            s'.base.rows == if sessions then SyncEngine.AllSessionsResolved(rows, owner, MapOf(s.sessions, owner).ids)
                            else rows
  {
    hide Reaches, Inv, Listed, SyncEngine.AllPlayersResolved, SyncEngine.AllSessionsResolved;
    KeyedOf(s);
    SameKeys(s.base.rows, owner, MapOf(s.players, owner).ids, [], SyncEngine.NetworkError);
    var mid := s;
    Stay(s);
    if players {
      mid := ApplyPlayers(s, t, owner, order);
    }
    ReachesKeeps(s, mid);
    KeyedOf(mid);
    SameKeys(mid.base.rows, owner, MapOf(s.sessions, owner).ids, [], SyncEngine.NetworkError);
    s' := mid;
    Stay(mid);
    if sessions {
      s' := ApplySessions(mid, t, owner, order);
    }
    Then(s, mid, s');
  }

  predicate Sub(m: IdMap, n: IdMap) {
    forall k :: k in m ==> k in n && n[k] == m[k]
  }

  /** One phase: exchange, save, rewrite. */
  lemma Phase(s: System, t: nat, owner: Owner, order: seq<Id>, batch: seq<Stored>, user: Id, audits: seq<Audit>,
              first: bool)
    returns (s': System)
    requires Inv(s) && Flushing(s, t, owner) && Listed(order, s.base.rows.Keys)
    requires ServerScope(owner).Some? && |audits| == |batch|
    requires SyncEngine.DistinctIds(batch) && SyncEngine.Current(s.base.rows, batch, owner)
    requires Sub(FlushOf(s, t).newPlayers, MapOf(s.players, owner).ids)
    requires Sub(FlushOf(s, t).newSessions, MapOf(s.sessions, owner).ids)
    ensures Reaches(s, s') && Flushing(s', t, owner)
    ensures s'.base.db == Answers(s.base.db, owner, batch, user, audits).0 && s'.base.rows.Keys == s.base.rows.Keys
    ensures Sub(FlushOf(s', t).newPlayers, MapOf(s'.players, owner).ids)
    ensures Sub(FlushOf(s', t).newSessions, MapOf(s'.sessions, owner).ids)
    ensures var d, r := DeviceOf(s, order, owner), ResponseTo(s.base.db, owner, batch, user, audits);
            DeviceOf(s', order, owner) ==
            if first then SyncEngine.AfterFirst(d, owner, batch, r) else SyncEngine.AfterSecond(d, owner, batch, r)
  {
    hide Reaches, Inv, Listed, Answers, SyncEngine.DistinctIds, SyncEngine.Learned, SyncEngine.AfterTransmit,
         SyncEngine.AllPlayersResolved, SyncEngine.AllSessionsResolved, ById, SyncEngine.Current;
    KeyedOf(s);
    var r := ResponseTo(s.base.db, owner, batch, user, audits);
    SameKeys(s.base.rows, owner, map[], batch, r);
    var sent := Exchange(s, t, owner, batch, user, audits);
    ReachesKeeps(s, sent);
    var saved := SaveLearned(sent, t, owner);
    Then(s, sent, saved);
    ReachesKeeps(s, saved);
    var players, sessions := SyncEngine.Learned(batch, r, PlayerEntity), SyncEngine.Learned(batch, r, SessionEntity);
    MergeAgain(MapOf(s.players, owner).ids, FlushOf(s, t).newPlayers, players);
    MergeAgain(MapOf(s.sessions, owner).ids, FlushOf(s, t).newSessions, sessions);
    s' := ApplyLearned(saved, t, owner, order, first && players.Keys != {}, sessions.Keys != {});
    Then(s, saved, s');
  }

  lemma MergeAgain(m: IdMap, known: IdMap, more: IdMap)
    requires Sub(known, m)
    ensures m + (known + more) == m + more && Sub(known + more, m + more)
  {
  }

  /** What becomes of a request: its answers are heard, or it fails after the server
      has served some of its rows (none, if it was refused). */
  datatype Fate = Heard | Unheard(rows: nat, failure: SyncEngine.Response)

  predicate Possible(fate: Fate) {
    fate.Unheard? ==> !fate.failure.Answered?
  }

  function RowsServed(n: nat, fate: Fate): (served: nat)
    ensures served <= n
  {
    if fate.Heard? || n < fate.rows then n else fate.rows
  }

  /** A flush that sends nothing hears of nothing. */
  const NO_REPLY := SyncEngine.Answered(map[])

  /** What the device gets back for a batch... */
  ghost function Reply(db: Db, owner: Owner, batch: seq<Stored>, user: Id, audit: nat -> Audit, fate: Fate)
    : SyncEngine.Response
    requires ServerScope(owner).Some?
  {
    if fate.Heard? then ResponseTo(db, owner, batch, user, Behaviours(|batch|, audit)) else fate.failure
  }

  /** ...and the server's tables afterwards. */
  ghost function Left(db: Db, owner: Owner, batch: seq<Stored>, user: Id, audit: nat -> Audit, fate: Fate): Db
    requires ServerScope(owner).Some?
  {
    var n := RowsServed(|batch|, fate);
    Answers(db, owner, batch[..n], user, Behaviours(|batch|, audit)[..n]).0
  }

  lemma NothingLeft(db: Db, owner: Owner, user: Id, audit: nat -> Audit, fate: Fate)
    requires ServerScope(owner).Some?
    ensures Left(db, owner, [], user, audit, fate) == db
  {
  }

  function Behaviours(n: nat, audit: nat -> Audit): (audits: seq<Audit>)
    ensures |audits| == n
  {
    seq(n, audit)
  }

  /** A flush that has just started and applied every resolution it knows. */
  lemma Prepare(s: System, t: nat, owner: Owner, order: seq<Id>) returns (s': System)
    requires Inv(s) && t < |s.tabs| && s.tabs[t].login.Some? && s.tabs[t].login.value.owner == owner
    requires Listed(order, s.base.rows.Keys)
    ensures Reaches(s, s') && Flushing(s', t, owner) && s'.base.db == s.base.db && s'.base.rows.Keys == s.base.rows.Keys
    ensures FlushOf(s', t).newPlayers == map[] && FlushOf(s', t).newSessions == map[]
    ensures DeviceOf(s', order, owner) == SyncEngine.Prepared(DeviceOf(s, order, owner), owner)
  {
    hide Reaches, Inv, Listed, SyncEngine.AllPlayersResolved, SyncEngine.AllSessionsResolved;
    One(s, StartFlush(t));
    var started := Next(s, StartFlush(t));
    ReachesKeeps(s, started);
    s' := ApplyLearned(started, t, owner, order, true, true);
    Then(s, started, s');
  }

  /** One request of a flush, heard or not. */
  lemma OneRequest(s: System, t: nat, owner: Owner, order: seq<Id>, batch: seq<Stored>, user: Id, audit: nat -> Audit,
                   fate: Fate, first: bool)
    returns (s': System)
    requires Inv(s) && Flushing(s, t, owner) && Listed(order, s.base.rows.Keys)
    requires ServerScope(owner).Some? && Possible(fate)
    requires SyncEngine.DistinctIds(batch) && SyncEngine.Current(s.base.rows, batch, owner)
    requires Sub(FlushOf(s, t).newPlayers, MapOf(s.players, owner).ids)
    requires Sub(FlushOf(s, t).newSessions, MapOf(s.sessions, owner).ids)
    ensures Reaches(s, s') && s'.base.db == Left(s.base.db, owner, batch, user, audit, fate)
    ensures Flushing(s', t, owner) && s'.base.rows.Keys == s.base.rows.Keys
    ensures var d, r := DeviceOf(s, order, owner), Reply(s.base.db, owner, batch, user, audit, fate);
            && (r.Answered? <==> fate.Heard?)
            && DeviceOf(s', order, owner) ==
               if !r.Answered? then d.(rows := SyncEngine.AfterTransmit(d.rows, batch, r))
               else if first then SyncEngine.AfterFirst(d, owner, batch, r)
               else SyncEngine.AfterSecond(d, owner, batch, r)
    ensures fate.Heard? ==>
              && Sub(FlushOf(s', t).newPlayers, MapOf(s'.players, owner).ids)
              && Sub(FlushOf(s', t).newSessions, MapOf(s'.sessions, owner).ids)
  {
    hide Reaches, Inv, Listed, Answers, SyncEngine.DistinctIds, SyncEngine.AfterTransmit, SyncEngine.AfterFirst,
         SyncEngine.AfterSecond, SyncEngine.Current, Sub;
    KeyedOf(s);
    var audits := Behaviours(|batch|, audit);
    if fate.Heard? {
      assert batch[..|batch|] == batch && audits[..|batch|] == audits;
      s' := Phase(s, t, owner, order, batch, user, audits, first);
    } else {
      SameKeys(s.base.rows, owner, map[], batch, fate.failure);
      s' := LostExchange(s, t, owner, batch, user, audits, RowsServed(|batch|, fate), fate.failure);
    }
  }

  /** The two requests of a flush, each skipped when it has nothing to send, the
      second when the first fails. */
  lemma TwoPhases(s: System, t: nat, owner: Owner, order: seq<Id>, pending: seq<Stored>, user: Id,
                  first: nat -> Audit, second: nat -> Audit, fate1: Fate, fate2: Fate)
    returns (s': System, r1: SyncEngine.Response, r2: SyncEngine.Response)
    requires Inv(s) && Flushing(s, t, owner) && Listed(order, s.base.rows.Keys) && ServerScope(owner).Some?
    requires FlushOf(s, t).newPlayers == map[] && FlushOf(s, t).newSessions == map[] && Possible(fate1)
    requires Possible(fate2)
    requires SyncEngine.DistinctIds(pending) && SyncEngine.Snapshot(s.base.rows, pending, owner)
    ensures Reaches(s, s') && Flushing(s', t, owner) && s'.base.rows.Keys == s.base.rows.Keys
    ensures DeviceOf(s', order, owner) == SyncEngine.FlushedPending(DeviceOf(s, order, owner), pending, owner, r1, r2).0
    ensures var report := SyncEngine.FlushedPending(DeviceOf(s, order, owner), pending, owner, r1, r2).1;
            var mid := Left(s.base.db, owner, report.first, user, first, fate1);
            && r1 == (if report.first == [] then NO_REPLY
                      else Reply(s.base.db, owner, report.first, user, first, fate1))
            && r2 == (if report.second == [] then NO_REPLY else Reply(mid, owner, report.second, user, second, fate2))
            && s'.base.db == Left(mid, owner, report.second, user, second, fate2)
  {
    hide Reaches, Inv, Listed, Answers, SyncEngine.DistinctIds, SyncEngine.AfterTransmit, ById, SyncEngine.Current,
         SyncEngine.AfterFirst, SyncEngine.AfterSecond, SyncEngine.Independent, SyncEngine.Deferred,
         SyncEngine.Released, SyncEngine.Snapshot, SyncEngine.LocalPlayers, SyncEngine.LocalSessions, Left, Reply;
    KeyedOf(s);
    var players, sessions := SyncEngine.LocalPlayers(pending), SyncEngine.LocalSessions(pending);
    SyncEngine.PartsOfSnapshot(s.base.rows, pending, owner, players, sessions);
    var phase1 := SyncEngine.Independent(pending, players, sessions);
    r1, r2 := NO_REPLY, NO_REPLY;
    var mid := s;
    Stay(s);
    NothingLeft(s.base.db, owner, user, first, fate1);
    if phase1 != [] {
      r1 := Reply(s.base.db, owner, phase1, user, first, fate1);
      mid := OneRequest(s, t, owner, order, phase1, user, first, fate1, true);
    }
    ReachesKeeps(s, mid);
    NothingLeft(mid.base.db, owner, user, second, fate2);
    s' := mid;
    if r1.Answered? {
      KeyedOf(mid);
      var deferred := SyncEngine.Deferred(pending, players, sessions);
      SyncEngine.ReleasedDistinct(deferred, mid.base.rows, owner, players, sessions);
      var phase2 := SyncEngine.Released(deferred, mid.base.rows, owner, players, sessions);
      if phase2 != [] {
        r2 := Reply(mid.base.db, owner, phase2, user, second, fate2);
        s' := OneRequest(mid, t, owner, order, phase2, user, second, fate2, false);
        Then(s, mid, s');
      }
    }
  }

  /** What a whole flush makes of device and server: the device is left as the engine
      leaves it for these two responses, and each request that was made met the
      server's tables as they stood, was answered as `apply_batch` answers it, or
      failed after some of its rows were served. */
  ghost predicate IsFlush(s: System, s': System, owner: Owner, order: seq<Id>, user: Id, first: nat -> Audit,
                          second: nat -> Audit,
                          fate1: Fate, fate2: Fate, r1: SyncEngine.Response, r2: SyncEngine.Response)
    requires ServerScope(owner).Some? && Listed(order, s.base.rows.Keys)
  {
    var (device, report) := SyncEngine.Flushed(DeviceOf(s, order, owner), owner, r1, r2);
    var mid := Left(s.base.db, owner, report.first, user, first, fate1);
    && DeviceOf(s', order, owner) == device
    && r1 == (if report.first == [] then NO_REPLY else Reply(s.base.db, owner, report.first, user, first, fate1))
    && r2 == (if report.second == [] then NO_REPLY else Reply(mid, owner, report.second, user, second, fate2))
    && s'.base.db == Left(mid, owner, report.second, user, second, fate2)
  }

  /** From any moment at which the invariant holds a signed-in tab may run a whole
      flush undisturbed: what the engine then leaves is what the protocol's steps
      lead to, whether its requests are heard or fail and however the audit log
      behaves. */
  lemma FlushIsARun(s: System, t: nat, order: seq<Id>, user: Id, first: nat -> Audit, second: nat -> Audit,
                    fate1: Fate, fate2: Fate)
    returns (s': System, r1: SyncEngine.Response, r2: SyncEngine.Response)
    requires Inv(s) && t < |s.tabs| && s.tabs[t].login.Some? && Listed(order, s.base.rows.Keys)
    requires ServerScope(s.tabs[t].login.value.owner).Some? && Possible(fate1) && Possible(fate2)
    ensures Reaches(s, s') && Flushing(s', t, s.tabs[t].login.value.owner) && s'.base.rows.Keys == s.base.rows.Keys
    ensures IsFlush(s, s', s.tabs[t].login.value.owner, order, user, first, second, fate1, fate2, r1, r2)
  {
    var owner := s.tabs[t].login.value.owner;
    hide Reaches, Inv, Listed, SyncEngine.DistinctIds, SyncEngine.Snapshot, SyncEngine.PendingRows,
         SyncEngine.FlushedPending, SyncEngine.Prepared, Left, Reply;
    var prepared := Prepare(s, t, owner, order);
    ReachesKeeps(s, prepared);
    KeyedOf(prepared);
    var p := DeviceOf(prepared, order, owner);
    var pending := SyncEngine.PendingRows(p, owner);
    if pending == [] {
      s', r1, r2 := prepared, NO_REPLY, NO_REPLY;
      NothingLeft(s.base.db, owner, user, first, fate1);
      NothingLeft(s.base.db, owner, user, second, fate2);
    } else {
      SyncEngine.PendingRowsOrdered(p, owner);
      SyncEngine.PendingIsSnapshot(p, owner);
      s', r1, r2 := TwoPhases(prepared, t, owner, order, pending, user, first, second, fate1, fate2);
      Then(s, prepared, s');
    }
  }

  // ------------------------------------------------------------------
  // A server that rejects nothing empties the queue
  // ------------------------------------------------------------------

  /** Every acknowledgement in a batch's answers carries a record id. */
  lemma {:induction false} AcknowledgedHaveIds(db: Db, scope: Scope, actions: seq<Action>, user: Id, audits: seq<Audit>)
    requires Replay.Sound(db) && WellDerived(scope) && |audits| == |actions|
    ensures var r := Service.BatchApplied(db, scope, actions, user, audits);
            && Replay.Sound(r.0) && |r.1| == |actions|
            && forall i :: 0 <= i < |r.1| ==> r.1[i].status.Rejected? || r.1[i].recordId.Some?
    decreases |actions|
  {
    hide Service.Served, Replay.Sound, Replay.Extends, Idempotence.TraceOf;
    if actions != [] {
      var n := |actions| - 1;
      AcknowledgedHaveIds(db, scope, actions[..n], user, audits[..n]);
      var before := Service.BatchApplied(db, scope, actions[..n], user, audits[..n]).0;
      Replay.ActionStep(before, scope, actions[n], user, audits[n]);
      if !Service.Served(before, scope, actions[n], user, audits[n]).1.status.Rejected? {
        Idempotence.AnswerNamesTrace(before, scope, actions[n], user, audits[n]);
      }
    }
  }

  ghost predicate NoneRejected(r: SyncEngine.Response) {
    r.Answered? && forall k :: k in r.results ==> !r.results[k].status.Rejected?
  }

  lemma ServerAnswersBatch(db: Db, owner: Owner, batch: seq<Stored>, user: Id, audit: nat -> Audit)
    requires Replay.Sound(db) && ServerScope(owner).Some? && WellDerived(ServerScope(owner).value)
    requires SyncEngine.DistinctIds(batch) && NoneRejected(Reply(db, owner, batch, user, audit, Heard))
    ensures Drain.AnswersBatch(Reply(db, owner, batch, user, audit, Heard), batch)
    ensures Replay.Sound(Left(db, owner, batch, user, audit, Heard))
  {
    hide SyncEngine.DistinctIds, Replay.Sound, ById;
    var audits := Behaviours(|batch|, audit);
    assert batch[..|batch|] == batch && audits[..|batch|] == audits;
    AcknowledgedHaveIds(db, ServerScope(owner).value, Actions(batch), user, audits);
    var results := Answers(db, owner, batch, user, audits).1;
    forall st | st in batch
      ensures SyncEngine.IssuesId(Reply(db, owner, batch, user, audit, Heard), st.action.clientId)
    {
      var i :| 0 <= i < |batch| && batch[i] == st;
      ByIdAt(batch, results, i);
    }
  }

  /** No client id is in a batch twice. */
  lemma BatchesDistinct(d: SyncEngine.Device, owner: Owner, r1: SyncEngine.Response, r2: SyncEngine.Response)
    requires Keyed(d.rows) && Listed(d.order, d.rows.Keys)
    ensures var report := SyncEngine.Flushed(d, owner, r1, r2).1;
            SyncEngine.DistinctIds(report.first) && SyncEngine.DistinctIds(report.second)
  {
    hide SyncEngine.PendingRows, SyncEngine.FlushedPending, SyncEngine.Prepared, SyncEngine.Snapshot,
         SyncEngine.DistinctIds;
    var p := SyncEngine.Prepared(d, owner);
    Drain.PreparedKeyed(d, owner);
    var pending := SyncEngine.PendingRows(p, owner);
    SyncEngine.PendingRowsOrdered(p, owner);
    SyncEngine.PendingIsSnapshot(p, owner);
    if pending == [] {
      assert SyncEngine.DistinctIds([]) by { NoneTwice(); }
    } else {
      PendingDistinct(p, pending, owner, r1, r2);
    }
  }

  lemma NoneTwice()
    ensures SyncEngine.DistinctIds([])
  {
  }

  lemma PendingDistinct(p: SyncEngine.Device, pending: seq<Stored>, owner: Owner, r1: SyncEngine.Response,
                        r2: SyncEngine.Response)
    requires Keyed(p.rows) && SyncEngine.DistinctIds(pending) && SyncEngine.Snapshot(p.rows, pending, owner)
    ensures var report := SyncEngine.FlushedPending(p, pending, owner, r1, r2).1;
            SyncEngine.DistinctIds(report.first) && SyncEngine.DistinctIds(report.second)
  {
    hide SyncEngine.DistinctIds, SyncEngine.Snapshot, SyncEngine.FlushedPending, SyncEngine.Released,
         SyncEngine.Independent, SyncEngine.Deferred, SyncEngine.LocalPlayers, SyncEngine.LocalSessions,
         SyncEngine.AfterFirst;
    var players, sessions := SyncEngine.LocalPlayers(pending), SyncEngine.LocalSessions(pending);
    SyncEngine.PartsOfSnapshot(p.rows, pending, owner, players, sessions);
    Drain.ReportShape(p, pending, owner, r1, r2);
    NoneTwice();
    var phase1 := SyncEngine.Independent(pending, players, sessions);
    var mid := Drain.Between(p, pending, owner, r1);
    if phase1 != [] {
      Drain.BetweenKeyed(p, owner, phase1, r1);
    }
    SyncEngine.ReleasedDistinct(SyncEngine.Deferred(pending, players, sessions), mid.rows, owner, players, sessions);
  }

  /** A heard flush without a rejection has every row it sent acknowledged. */
  lemma HeardIsAcknowledged(s: System, s': System, owner: Owner, order: seq<Id>, user: Id, first: nat -> Audit,
                            second: nat -> Audit,
                            r1: SyncEngine.Response, r2: SyncEngine.Response)
    requires ServerScope(owner).Some? && Listed(order, s.base.rows.Keys) && Keyed(s.base.rows)
    requires Replay.Sound(s.base.db)
    requires IsFlush(s, s', owner, order, user, first, second, Heard, Heard, r1, r2) && NoneRejected(r1)
    requires NoneRejected(r2)
    ensures Drain.Acknowledged(DeviceOf(s, order, owner), owner, r1, r2)
  {
    hide SyncEngine.Flushed, Replay.Sound, SyncEngine.DistinctIds, Reply, Left, NoneRejected, Drain.AnswersBatch;
    var report := SyncEngine.Flushed(DeviceOf(s, order, owner), owner, r1, r2).1;
    BatchesDistinct(DeviceOf(s, order, owner), owner, r1, r2);
    NothingToAnswer(r1);
    NothingToAnswer(r2);
    NothingLeft(s.base.db, owner, user, first, Heard);
    if report.first != [] {
      ServerAnswersBatch(s.base.db, owner, report.first, user, first);
    }
    if report.second != [] {
      ServerAnswersBatch(Left(s.base.db, owner, report.first, user, first, Heard), owner, report.second, user, second);
    }
  }

  lemma NothingToAnswer(r: SyncEngine.Response)
    ensures Drain.AnswersBatch(r, [])
  {
  }

  /** Two undisturbed flushes against the modelled server: if none of its answers is
      a rejection, every row of the owner that was unsynced is applied or skipped. */
  lemma ServerDrains(s: System, t: nat, order: seq<Id>, user: Id, a: nat -> Audit, b: nat -> Audit, c: nat -> Audit,
                     d: nat -> Audit)
    returns (mid: System, s': System, r1: SyncEngine.Response, r2: SyncEngine.Response,
             r3: SyncEngine.Response, r4: SyncEngine.Response)
    requires Inv(s) && t < |s.tabs| && s.tabs[t].login.Some? && Listed(order, s.base.rows.Keys)
    requires ServerScope(s.tabs[t].login.value.owner).Some?
    ensures Reaches(s, mid) && Reaches(mid, s') && Listed(order, mid.base.rows.Keys)
    ensures var owner := s.tabs[t].login.value.owner;
            && IsFlush(s, mid, owner, order, user, a, b, Heard, Heard, r1, r2)
            && IsFlush(mid, s', owner, order, user, c, d, Heard, Heard, r3, r4)
            && (NoneRejected(r1) && NoneRejected(r2) && NoneRejected(r3) && NoneRejected(r4) ==>
                  forall k :: k in s.base.rows && SyncEngine.IsPending(s.base.rows[k], owner) ==>
                    k in s'.base.rows && (s'.base.rows[k].status.SyncApplied? || s'.base.rows[k].status.SyncSkipped?))
  {
    var owner := s.tabs[t].login.value.owner;
    hide Reaches, Inv, Listed, SyncEngine.Flushed, NoneRejected, Reply, Left, Drain.Acknowledged;
    mid, r1, r2 := FlushIsARun(s, t, order, user, a, b, Heard, Heard);
    ReachesKeeps(s, mid);
    s', r3, r4 := FlushIsARun(mid, t, order, user, c, d, Heard, Heard);
    if NoneRejected(r1) && NoneRejected(r2) && NoneRejected(r3) && NoneRejected(r4) {
      KeyedOf(s);
      KeyedOf(mid);
      SoundOf(s);
      SoundOf(mid);
      HeardIsAcknowledged(s, mid, owner, order, user, a, b, r1, r2);
      HeardIsAcknowledged(mid, s', owner, order, user, c, d, r3, r4);
      Drain.TwoFlushesDrain(DeviceOf(s, order, owner), owner, r1, r2, r3, r4);
    }
  }

  lemma SoundOf(s: System)
    requires Inv(s)
    ensures Replay.Sound(s.base.db)
  {
    BaseOfInv(s);
    hide Inv, RowsSettled, RowsFaithful, Replay.Sound;
  }

  // ------------------------------------------------------------------
  // Which answered rows can still be referred to
  // ------------------------------------------------------------------

  /** Some stored map has the row's id. */
  ghost predicate Mapped(s: System, k: Id) {
    (exists o :: o in s.players && k in s.players[o].ids) || (exists o :: o in s.sessions && k in s.sessions[o].ids)
  }

  lemma {:induction false} OrphanOnPath(s: System, steps: seq<Step>, s': System, k: Id)
    requires Inv(s) && Path(s, steps, s') && Orphaned(s, k)
    ensures Orphaned(s', k)
    decreases |steps|
  {
    hide Inv, Enabled, Next, Onward, Orphaned;
    if steps != [] {
      StepKeepsInv(s, steps[0]);
      OrphanStays(s, steps[0], k);
      OrphanOnPath(Next(s, steps[0]), steps[1..], s', k);
    }
  }

  lemma FlushMapsStored(s: System, t: nat, k: Id)
    requires Inv(s) && HasFlush(s, t)
    ensures var f := FlushOf(s, t);
            && (k in f.players.ids ==> k in MapOf(s.players, f.login.owner).ids)
            && (k in f.sessions.ids ==> k in MapOf(s.sessions, f.login.owner).ids)
  {
    hide BaseOk, MapsOk, RequestOk, RunsPast, DrawnOnce, SentOk, TrueMap, TrueAnswer;
  }

  /** The id of an answered row gets into a stored map in some continuation exactly
      when the row is not an orphan. */
  lemma OrphanIffNeverMapped(s: System, k: Id)
    requires Inv(s) && k in s.base.rows && !s.base.rows[k].status.Unsynced?
    ensures Orphaned(s, k) <==> !exists s' :: Reaches(s, s') && Mapped(s', k)
  {
    hide Inv, Reaches, Unlearned;
    if Orphaned(s, k) {
      forall s' | Reaches(s, s') ensures !Mapped(s', k) {
        OrphanReached(s, s', k);
      }
    } else if Mapped(s, k) {
      Stay(s);
    } else {
      var t :| 0 <= t < |s.tabs| && OwnerCurrent(s, t) && !Unlearned(s.tabs[t].flush.value, k);
      FlushMapsStored(s, t, k);
      var f := FlushOf(s, t);
      var s' := SaveLearned(s, t, f.login.owner);
      InNew(s, f, k);
      MapHas(s'.players, f.login.owner, k);
      MapHas(s'.sessions, f.login.owner, k);
      assert Mapped(s', k);
    }
  }

  lemma MapHas(maps: map<Owner, Versioned>, o: Owner, k: Id)
    ensures k in MapOf(maps, o).ids ==> o in maps && k in maps[o].ids
  {
  }

  lemma InNew(s: System, f: Flush, k: Id)
    requires !Unlearned(f, k) && !Mapped(s, k)
    requires k in f.players.ids ==> k in MapOf(s.players, f.login.owner).ids
    requires k in f.sessions.ids ==> k in MapOf(s.sessions, f.login.owner).ids
    ensures k in f.newPlayers || k in f.newSessions
  {
  }

  lemma OrphanReached(s: System, s': System, k: Id)
    requires Inv(s) && Reaches(s, s') && Orphaned(s, k)
    ensures !Mapped(s', k)
  {
    hide Inv, Path;
    var steps :| Path(s, steps, s');
    OrphanOnPath(s, steps, s', k);
  }
}
