/** What a flush may send, and that an answering server empties the queue in two
    completed flushes. */
module Drain {
  import opened Basics
  import opened Schema
  import opened LocalStore
  import opened SyncEngine

  // ------------------------------------------------------------------
  // What is sent
  // ------------------------------------------------------------------

  lemma {:induction false} ReleasedMembers(deferred: seq<Stored>, rows: Rows, owner: Owner, players: set<Id>,
                                           sessions: set<Id>)
    ensures forall x :: x in Released(deferred, rows, owner, players, sessions) ==>
              && IsPending(x, owner) && !Waits(x, players, sessions)
              && exists k :: k in rows && rows[k] == x
    ensures forall st :: st in deferred && st.action.clientId in rows ==>
              var x := rows[st.action.clientId];
              IsPending(x, owner) && !Waits(x, players, sessions) ==>
                x in Released(deferred, rows, owner, players, sessions)
    decreases |deferred|
  {
    hide Waits;
    if deferred != [] {
      var n := |deferred| - 1;
      ReleasedMembers(deferred[..n], rows, owner, players, sessions);
      assert deferred == deferred[..n] + [deferred[n]];
    }
  }

  /** A batch row as the server may see it: the owner's, unsynced, and not
      referring to a player or session that was still queued at the snapshot. */
  ghost predicate MaySend(st: Stored, owner: Owner, pending: seq<Stored>) {
    && IsPending(st, owner)
    && (forall p :: LocalPlayer(st.action.body) == Some(p) ==>
          !exists x :: x in pending && x.action.body.PlayerBody? && x.action.clientId == p)
    && (forall s :: LocalSession(st.action.body) == Some(s) ==>
          !exists x :: x in pending && x.action.body.SessionBody? && x.action.clientId == s)
  }

  lemma NotWaitingMaySend(st: Stored, owner: Owner, pending: seq<Stored>)
    requires IsPending(st, owner) && !Waits(st, LocalPlayers(pending), LocalSessions(pending))
    ensures MaySend(st, owner, pending)
  {
  }

  /** The device between the two requests. */
  function Between(p: Device, pending: seq<Stored>, owner: Owner, first: Response): Device {
    var phase1 := Independent(pending, LocalPlayers(pending), LocalSessions(pending));
    if phase1 == [] then p else AfterFirst(p, owner, phase1, first)
  }

  lemma ReportShape(p: Device, pending: seq<Stored>, owner: Owner, first: Response, second: Response)
    ensures var report := FlushedPending(p, pending, owner, first, second).1;
            var players, sessions := LocalPlayers(pending), LocalSessions(pending);
            && report.first == Independent(pending, players, sessions)
            && (report.second == []
                || report.second == Released(Deferred(pending, players, sessions),
                                             Between(p, pending, owner, first).rows, owner, players, sessions))
  {
    hide Released, AfterFirst, AfterSecond, AfterTransmit, Independent, Deferred, LocalPlayers, LocalSessions;
  }

  lemma FirstBatchMaySend(rows: Rows, pending: seq<Stored>, owner: Owner)
    requires Snapshot(rows, pending, owner)
    ensures forall st :: st in Independent(pending, LocalPlayers(pending), LocalSessions(pending)) ==>
              MaySend(st, owner, pending)
  {
    var players, sessions := LocalPlayers(pending), LocalSessions(pending);
    PartsMeaning(pending, players, sessions);
    hide Waits, MaySend, LocalPlayers, LocalSessions, Independent;
    forall st | st in Independent(pending, players, sessions) ensures MaySend(st, owner, pending) {
      var i :| 0 <= i < |pending| && pending[i] == st;
      NotWaitingMaySend(st, owner, pending);
    }
  }

  lemma SecondBatchMaySend(deferred: seq<Stored>, rows: Rows, pending: seq<Stored>, owner: Owner)
    ensures forall st :: st in Released(deferred, rows, owner, LocalPlayers(pending), LocalSessions(pending)) ==>
              MaySend(st, owner, pending)
  {
    var players, sessions := LocalPlayers(pending), LocalSessions(pending);
    ReleasedMembers(deferred, rows, owner, players, sessions);
    hide Waits, MaySend, LocalPlayers, LocalSessions, Released;
    forall st | st in Released(deferred, rows, owner, players, sessions) ensures MaySend(st, owner, pending) {
      NotWaitingMaySend(st, owner, pending);
    }
  }

  /** No batch of a flush carries a reference to a player or session that is still
      unsynced in that flush's snapshot. */
  lemma NothingWaitingIsSent(d: Device, owner: Owner, first: Response, second: Response)
    requires Keyed(d.rows) && Listed(d.order, d.rows.Keys)
    ensures var report := Flushed(d, owner, first, second).1;
            var pending := PendingRows(Prepared(d, owner), owner);
            forall st :: st in report.first || st in report.second ==> MaySend(st, owner, pending)
  {
    hide FlushedPending, PendingRows, Snapshot, MaySend, Prepared, Released, Independent, Deferred, LocalPlayers,
         LocalSessions, Between;
    var p := Prepared(d, owner);
    PreparedKeyed(d, owner);
    var pending := PendingRows(p, owner);
    PendingIsSnapshot(p, owner);
    ReportShape(p, pending, owner, first, second);
    FirstBatchMaySend(p.rows, pending, owner);
    SecondBatchMaySend(Deferred(pending, LocalPlayers(pending), LocalSessions(pending)),
                       Between(p, pending, owner, first).rows, pending, owner);
  }

  lemma PreparedKeyed(d: Device, owner: Owner)
    requires Keyed(d.rows)
    ensures Keyed(Prepared(d, owner).rows) && Prepared(d, owner).rows.Keys == d.rows.Keys
    ensures Prepared(d, owner).order == d.order
  {
  }

  // ------------------------------------------------------------------
  // An answering server drains the queue
  // ------------------------------------------------------------------

  /** A response that acknowledges every queued action and gives each an id. */
  ghost predicate AnswersAll(r: Response, keys: set<Id>) {
    forall k :: k in keys ==> IssuesId(r, k)
  }

  lemma {:induction false} LearnsEveryNewId(batch: seq<Stored>, r: Response, e: Entity)
    requires forall st :: st in batch ==> IssuesId(r, st.action.clientId)
    ensures forall st :: st in batch && st.action.body.EntityName() == e ==> st.action.clientId in Learned(batch, r, e)
    decreases |batch|
  {
    if batch != [] {
      LearnsEveryNewId(batch[..|batch| - 1], r, e);
      assert batch == batch[..|batch| - 1] + [batch[|batch| - 1]];
    }
  }

  /** A pending row stays pending or is applied or skipped; any other is left. */
  predicate Settles(x: Stored, y: Stored, owner: Owner) {
    && y.owner == x.owner
    && if IsPending(x, owner) then IsPending(y, owner) || y.status.SyncApplied? || y.status.SyncSkipped?
       else y.status == x.status
  }

  /** Resolving and reconciling never turn a row into another kind of action, and
      never make a settled row pending again. */
  lemma RowsKeepKind(st: Stored, owner: Owner, ids: IdMap, r: Response)
    ensures PlayerResolved(st, owner, ids).action.body.EntityName() == st.action.body.EntityName()
    ensures SessionResolved(st, owner, ids).action.body.EntityName() == st.action.body.EntityName()
    ensures RowAfter(st, r).action == st.action
    ensures IsPending(PlayerResolved(st, owner, ids), owner) <==> IsPending(st, owner)
    ensures IsPending(SessionResolved(st, owner, ids), owner) <==> IsPending(st, owner)
    ensures PlayerResolved(st, owner, ids).action.clientId == st.action.clientId
    ensures SessionResolved(st, owner, ids).action.clientId == st.action.clientId
    ensures PlayerResolved(st, owner, ids).status == st.status && PlayerResolved(st, owner, ids).owner == st.owner
    ensures SessionResolved(st, owner, ids).status == st.status && SessionResolved(st, owner, ids).owner == st.owner
    ensures RowAfter(st, r).owner == st.owner
    ensures Acknowledges(r, st.action.clientId) ==>
              RowAfter(st, r).status.SyncApplied? || RowAfter(st, r).status.SyncSkipped?
  {
  }

  lemma ResolvedReferences(st: Stored, owner: Owner, ids: IdMap)
    ensures var b, c := st.action.body, PlayerResolved(st, owner, ids).action.body;
            && LocalSession(c) == LocalSession(b)
            && (IsPending(st, owner) && PlayerKnown(b, ids) ==> LocalPlayer(c).None?)
            && (LocalPlayer(b).None? ==> LocalPlayer(c).None?)
    ensures var b, c := st.action.body, SessionResolved(st, owner, ids).action.body;
            && LocalPlayer(c) == LocalPlayer(b)
            && (LocalSession(b).None? ==> LocalSession(c).None?)
  {
  }

  /** One row between the requests. */
  function BetweenRow(st: Stored, p: Device, phase1: seq<Stored>, owner: Owner, first: Response): Stored {
    var sent := if st.action.clientId in IdsOf(phase1) then RowAfter(st, first) else st;
    var players, sessions := Learned(phase1, first, PlayerEntity), Learned(phase1, first, SessionEntity);
    var known := if players.Keys == {} then sent else PlayerResolved(sent, owner, p.players + players);
    if sessions.Keys == {} then known else SessionResolved(known, owner, p.sessions + sessions)
  }

  lemma BetweenByRow(p: Device, pending: seq<Stored>, owner: Owner, first: Response)
    requires Keyed(p.rows)
    ensures var phase1 := Independent(pending, LocalPlayers(pending), LocalSessions(pending));
            var mid := Between(p, pending, owner, first);
            && mid.rows.Keys == p.rows.Keys
            && (phase1 != [] ==> forall k :: k in p.rows ==>
                  mid.rows[k] == BetweenRow(p.rows[k], p, phase1, owner, first))
            && (phase1 == [] ==> mid == p)
  {
    hide Independent, Learned, LocalPlayers, LocalSessions, RowAfter, PlayerResolved, SessionResolved, IdsOf;
  }

  /** Between the requests: what was sent is settled, and what was not is the row
      it was with its now-known references rewritten. */
  lemma BetweenMeaning(st: Stored, p: Device, phase1: seq<Stored>, owner: Owner, first: Response)
    requires IssuesId(first, st.action.clientId)
    ensures var x := BetweenRow(st, p, phase1, owner, first);
            && x.action.clientId == st.action.clientId && x.action.body.EntityName() == st.action.body.EntityName()
            && (IsPending(x, owner) <==> IsPending(st, owner) && st.action.clientId !in IdsOf(phase1))
            && (IsPending(x, owner) && LocalPlayer(st.action.body).Some?
                && LocalPlayer(st.action.body).value in Learned(phase1, first, PlayerEntity) ==>
                  LocalPlayer(x.action.body).None?)
            && (LocalSession(st.action.body).None? ==> LocalSession(x.action.body).None?)
            && ((st.action.clientId in IdsOf(phase1) ==> IsPending(st, owner)) ==> Settles(st, x, owner))
  {
    hide Learned, IdsOf, PlayerResolved, SessionResolved, RowAfter, LocalPlayer, LocalSession;
    var sent := if st.action.clientId in IdsOf(phase1) then RowAfter(st, first) else st;
    var players, sessions := Learned(phase1, first, PlayerEntity), Learned(phase1, first, SessionEntity);
    var known := if players.Keys == {} then sent else PlayerResolved(sent, owner, p.players + players);
    RowsKeepKind(st, owner, p.players, first);
    RowsKeepKind(sent, owner, p.players + players, first);
    RowsKeepKind(known, owner, p.sessions + sessions, first);
    ResolvedReferences(sent, owner, p.players + players);
    ResolvedReferences(known, owner, p.sessions + sessions);
  }

  /** A player in the snapshot is sent in the first request. */
  lemma PlayersGoFirst(pending: seq<Stored>, x: Stored)
    requires x in pending && x.action.body.PlayerBody?
    ensures x in Independent(pending, LocalPlayers(pending), LocalSessions(pending))
  {
    PartsMeaning(pending, LocalPlayers(pending), LocalSessions(pending));
    assert LocalPlayer(x.action.body).None? && LocalSession(x.action.body).None?;
  }

  /** Whatever a completed first flush leaves pending is attendance. */
  ghost predicate OnlyAttendancePends(rows: Rows, owner: Owner) {
    forall k :: k in rows && IsPending(rows[k], owner) ==> rows[k].action.body.AttendanceBody?
  }

  /** A row held back although it is no attendance waits for a player, whose id
      the first answer supplies, so the second request takes it. */
  lemma HeldBackIsReleased(p: Device, pending: seq<Stored>, owner: Owner, first: Response, st: Stored)
    requires Keyed(p.rows) && Snapshot(p.rows, pending, owner) && AnswersAll(first, p.rows.Keys)
    requires st in pending && !st.action.body.AttendanceBody?
    requires Waits(st, LocalPlayers(pending), LocalSessions(pending))
    ensures st.action.clientId in p.rows
    ensures var mid := Between(p, pending, owner, first);
            var players, sessions := LocalPlayers(pending), LocalSessions(pending);
            var k := st.action.clientId;
            && k in mid.rows && !Waits(mid.rows[k], players, sessions)
            && mid.rows[k] == BetweenRow(st, p, Independent(pending, players, sessions), owner, first)
  {
    var players, sessions := LocalPlayers(pending), LocalSessions(pending);
    var phase1 := Independent(pending, players, sessions);
    var i :| 0 <= i < |pending| && pending[i] == st;
    var local := LocalPlayer(st.action.body).value;
    var x :| x in pending && x.action.body.PlayerBody? && x.action.clientId == local;
    PlayersGoFirst(pending, x);
    PartsMeaning(pending, players, sessions);
    forall y | y in phase1 ensures IssuesId(first, y.action.clientId) {
      var j :| 0 <= j < |pending| && pending[j] == y;
    }
    LearnsEveryNewId(phase1, first, PlayerEntity);
    BetweenByRow(p, pending, owner, first);
    hide Independent, Learned, BetweenRow, Snapshot, Between;
    BetweenMeaning(st, p, phase1, owner, first);
  }

  /** A non-empty snapshot always has something to send first. */
  lemma SomethingGoesFirst(pending: seq<Stored>)
    requires pending != []
    ensures Independent(pending, LocalPlayers(pending), LocalSessions(pending)) != []
  {
    var players, sessions := LocalPlayers(pending), LocalSessions(pending);
    PartsMeaning(pending, players, sessions);
    hide Independent;
    if x :| x in pending && x.action.body.PlayerBody? {
      PlayersGoFirst(pending, x);
    } else if x :| x in pending && x.action.body.SessionBody? {
      assert players == {};
      assert !Waits(x, players, sessions);
    } else {
      assert players == {} && sessions == {};
      assert !Waits(pending[0], players, sessions);
    }
  }

  /** Answered requests leave the device after the second one. */
  lemma BothAnswered(p: Device, pending: seq<Stored>, owner: Owner, first: Response, second: Response)
    requires first.Answered? && second.Answered?
    ensures var players, sessions := LocalPlayers(pending), LocalSessions(pending);
            var mid := Between(p, pending, owner, first);
            var phase2 := Released(Deferred(pending, players, sessions), mid.rows, owner, players, sessions);
            FlushedPending(p, pending, owner, first, second).0 ==
            if phase2 == [] then mid else AfterSecond(mid, owner, phase2, second)
  {
    hide Independent, Deferred, Released, AfterFirst, AfterSecond, LocalPlayers, LocalSessions;
  }

  lemma SecondByRow(mid: Device, owner: Owner, phase2: seq<Stored>, second: Response, k: Id)
    requires Keyed(mid.rows) && k in mid.rows && AnswersAll(second, mid.rows.Keys)
    ensures var after := AfterSecond(mid, owner, phase2, second);
            && after.rows.Keys == mid.rows.Keys && after.order == mid.order
            && after.rows[k].action.clientId == k
            && after.rows[k].action.body.EntityName() == mid.rows[k].action.body.EntityName()
            && (IsPending(after.rows[k], owner) ==> IsPending(mid.rows[k], owner) && k !in IdsOf(phase2))
            && ((k in IdsOf(phase2) ==> IsPending(mid.rows[k], owner)) ==> Settles(mid.rows[k], after.rows[k], owner))
  {
    hide Learned, IdsOf, PlayerResolved, SessionResolved, RowAfter;
    var st := mid.rows[k];
    var sent := if k in IdsOf(phase2) then RowAfter(st, second) else st;
    RowsKeepKind(st, owner, mid.sessions, second);
    RowsKeepKind(sent, owner, mid.sessions + Learned(phase2, second, SessionEntity), second);
  }

  /** A row still pending after both requests was held back and not released. */
  lemma RestIsAttendance(p: Device, pending: seq<Stored>, owner: Owner, first: Response, k: Id)
    requires Keyed(p.rows) && Snapshot(p.rows, pending, owner) && AnswersAll(first, p.rows.Keys) && k in p.rows
    requires k in Between(p, pending, owner, first).rows
    requires var players, sessions := LocalPlayers(pending), LocalSessions(pending);
             var mid := Between(p, pending, owner, first);
             && IsPending(mid.rows[k], owner)
             && k !in IdsOf(Released(Deferred(pending, players, sessions), mid.rows, owner, players, sessions))
    ensures p.rows[k].action.body.AttendanceBody?
  {
    var players, sessions := LocalPlayers(pending), LocalSessions(pending);
    var phase1, deferred := Independent(pending, players, sessions), Deferred(pending, players, sessions);
    var mid := Between(p, pending, owner, first);
    var st := p.rows[k];
    PartsMeaning(pending, players, sessions);
    ReleasedMembers(deferred, mid.rows, owner, players, sessions);
    hide Independent, Deferred, Released, Waits, LocalPlayers, LocalSessions, Between, BetweenRow;
    BetweenByRow(p, pending, owner, first);
    BetweenMeaning(st, p, phase1, owner, first);
    if pending != [] {
      SomethingGoesFirst(pending);
    }
    assert IsPending(st, owner) && k in IdsOf(pending);
    assert st in pending;
    assert st !in phase1;
    if !st.action.body.AttendanceBody? {
      HeldBackIsReleased(p, pending, owner, first, st);
      assert false;
    }
  }

  lemma FirstFlushLeavesAttendance(p: Device, pending: seq<Stored>, owner: Owner, first: Response, second: Response)
    requires Keyed(p.rows) && Snapshot(p.rows, pending, owner) && pending != []
    requires AnswersAll(first, p.rows.Keys) && AnswersAll(second, p.rows.Keys)
    ensures var after := FlushedPending(p, pending, owner, first, second).0;
            && after.rows.Keys == p.rows.Keys && Keyed(after.rows) && after.order == p.order
            && OnlyAttendancePends(after.rows, owner)
  {
    hide Independent, Deferred, Released, Waits, LocalPlayers, LocalSessions, BetweenRow, FlushedPending, AfterSecond,
         AfterFirst;
    var players, sessions := LocalPlayers(pending), LocalSessions(pending);
    var phase1, deferred := Independent(pending, players, sessions), Deferred(pending, players, sessions);
    var mid := Between(p, pending, owner, first);
    var phase2 := Released(deferred, mid.rows, owner, players, sessions);
    var after := FlushedPending(p, pending, owner, first, second).0;
    assert pending[0].action.clientId in p.rows;
    BothAnswered(p, pending, owner, first, second);
    BetweenByRow(p, pending, owner, first);
    BetweenOrder(p, pending, owner, first);
    forall k | k in p.rows
      ensures mid.rows[k].action.clientId == k
      ensures mid.rows[k].action.body.EntityName() == p.rows[k].action.body.EntityName()
    {
      BetweenMeaning(p.rows[k], p, phase1, owner, first);
    }
    if phase2 != [] {
      var any := pending[0].action.clientId;
      SecondByRow(mid, owner, phase2, second, any);
    }
    forall k | k in after.rows
      ensures after.rows[k].action.clientId == k
      ensures IsPending(after.rows[k], owner) ==> after.rows[k].action.body.AttendanceBody?
    {
      if phase2 != [] {
        SecondByRow(mid, owner, phase2, second, k);
      }
      if IsPending(after.rows[k], owner) {
        RestIsAttendance(p, pending, owner, first, k);
      }
    }
  }

  lemma BetweenOrder(p: Device, pending: seq<Stored>, owner: Owner, first: Response)
    ensures Between(p, pending, owner, first).order == p.order
  {
  }

  /** If only attendance pends, nothing waits and one answered request takes all. */
  lemma AttendanceGoesAtOnce(p: Device, pending: seq<Stored>, owner: Owner, first: Response, second: Response)
    requires Keyed(p.rows) && Snapshot(p.rows, pending, owner) && OnlyAttendancePends(p.rows, owner)
    requires AnswersAll(first, p.rows.Keys) && AnswersAll(second, p.rows.Keys) && pending != []
    ensures var after := FlushedPending(p, pending, owner, first, second).0;
            && after.rows.Keys == p.rows.Keys
            && forall k :: k in after.rows ==> !IsPending(after.rows[k], owner)
  {
    var players, sessions := LocalPlayers(pending), LocalSessions(pending);
    var phase1, deferred := Independent(pending, players, sessions), Deferred(pending, players, sessions);
    assert players == {} && sessions == {} by {
      forall x | x in pending ensures x.action.body.AttendanceBody? {
        var i :| 0 <= i < |pending| && pending[i] == x;
      }
    }
    PartsMeaning(pending, players, sessions);
    assert forall x :: x in pending ==> x in phase1;
    hide Independent, Deferred, Released, Waits, LocalPlayers, LocalSessions, BetweenRow, FlushedPending, AfterSecond,
         AfterFirst;
    var mid := Between(p, pending, owner, first);
    var phase2 := Released(deferred, mid.rows, owner, players, sessions);
    var after := FlushedPending(p, pending, owner, first, second).0;
    assert pending[0].action.clientId in p.rows && pending[0] in phase1;
    BothAnswered(p, pending, owner, first, second);
    BetweenByRow(p, pending, owner, first);
    forall k | k in p.rows ensures mid.rows[k].action.clientId == k && !IsPending(mid.rows[k], owner) {
      BetweenMeaning(p.rows[k], p, phase1, owner, first);
      if IsPending(p.rows[k], owner) {
        var x :| x in pending && x.action.clientId == k;
        assert x in phase1;
      }
    }
    if phase2 != [] {
      SecondByRow(mid, owner, phase2, second, pending[0].action.clientId);
      forall k | k in after.rows ensures !IsPending(after.rows[k], owner) {
        SecondByRow(mid, owner, phase2, second, k);
      }
    }
  }

  lemma SettlesTransitive(x: Stored, y: Stored, z: Stored, owner: Owner)
    requires Settles(x, y, owner) && Settles(y, z, owner)
    ensures Settles(x, z, owner)
  {
  }

  lemma SnapshotPends(rows: Rows, pending: seq<Stored>, owner: Owner, k: Id)
    requires Snapshot(rows, pending, owner)
    requires k in IdsOf(Independent(pending, LocalPlayers(pending), LocalSessions(pending)))
    ensures k in rows && IsPending(rows[k], owner)
  {
    PartsMeaning(pending, LocalPlayers(pending), LocalSessions(pending));
    hide Independent, LocalPlayers, LocalSessions;
    var x :| x in Independent(pending, LocalPlayers(pending), LocalSessions(pending)) && x.action.clientId == k;
    var i :| 0 <= i < |pending| && pending[i] == x;
  }

  lemma ReleasedPends(deferred: seq<Stored>, rows: Rows, owner: Owner, players: set<Id>, sessions: set<Id>, k: Id)
    requires Keyed(rows) && k in IdsOf(Released(deferred, rows, owner, players, sessions))
    ensures k in rows && IsPending(rows[k], owner)
  {
    ReleasedMembers(deferred, rows, owner, players, sessions);
    hide Released, Waits;
  }

  /** Whatever a flush does not leave pending it has marked applied or skipped. */
  lemma EveryRowSettles(p: Device, pending: seq<Stored>, owner: Owner, first: Response, second: Response)
    requires Keyed(p.rows) && Snapshot(p.rows, pending, owner) && pending != []
    requires AnswersAll(first, p.rows.Keys) && AnswersAll(second, p.rows.Keys)
    ensures var after := FlushedPending(p, pending, owner, first, second).0;
            after.rows.Keys == p.rows.Keys && forall k :: k in p.rows ==> Settles(p.rows[k], after.rows[k], owner)
  {
    hide Independent, Deferred, Released, LocalPlayers, LocalSessions, BetweenRow, FlushedPending, AfterSecond,
         AfterFirst, IdsOf, Settles;
    var players, sessions := LocalPlayers(pending), LocalSessions(pending);
    var phase1 := Independent(pending, players, sessions);
    var mid := Between(p, pending, owner, first);
    var phase2 := Released(Deferred(pending, players, sessions), mid.rows, owner, players, sessions);
    var after := FlushedPending(p, pending, owner, first, second).0;
    var any := pending[0].action.clientId;
    BothAnswered(p, pending, owner, first, second);
    BetweenByRow(p, pending, owner, first);
    SomethingGoesFirst(pending);
    forall k | k in p.rows
      ensures mid.rows[k].action.clientId == k && Settles(p.rows[k], mid.rows[k], owner)
    {
      if k in IdsOf(phase1) {
        SnapshotPends(p.rows, pending, owner, k);
      }
      BetweenMeaning(p.rows[k], p, phase1, owner, first);
    }
    if phase2 != [] {
      SecondByRow(mid, owner, phase2, second, any);
      forall k | k in p.rows ensures Settles(p.rows[k], after.rows[k], owner) {
        if k in IdsOf(phase2) {
          ReleasedPends(Deferred(pending, players, sessions), mid.rows, owner, players, sessions, k);
        }
        SecondByRow(mid, owner, phase2, second, k);
        SettlesTransitive(p.rows[k], mid.rows[k], after.rows[k], owner);
      }
    }
  }

  lemma PreparedKeepsKinds(d: Device, owner: Owner)
    ensures forall k :: k in d.rows ==>
              var x := Prepared(d, owner).rows[k];
              && x.action.body.EntityName() == d.rows[k].action.body.EntityName()
              && (IsPending(x, owner) <==> IsPending(d.rows[k], owner)) && Settles(d.rows[k], x, owner)
  {
    hide PlayerResolved, SessionResolved;
    forall k | k in d.rows
      ensures var x := Prepared(d, owner).rows[k];
              && x.action.body.EntityName() == d.rows[k].action.body.EntityName()
              && (IsPending(x, owner) <==> IsPending(d.rows[k], owner)) && Settles(d.rows[k], x, owner)
    {
      RowsKeepKind(d.rows[k], owner, d.players, NetworkError);
      RowsKeepKind(PlayerResolved(d.rows[k], owner, d.players), owner, d.sessions, NetworkError);
    }
  }

  lemma TwoFullFlushes(d: Device, owner: Owner, r1: Response, r2: Response, r3: Response, r4: Response)
    requires Keyed(d.rows) && Listed(d.order, d.rows.Keys)
    requires AnswersAll(r1, d.rows.Keys) && AnswersAll(r2, d.rows.Keys)
    requires AnswersAll(r3, d.rows.Keys) && AnswersAll(r4, d.rows.Keys)
    ensures var once := Flushed(d, owner, r1, r2).0;
            && Listed(once.order, once.rows.Keys)
            && var twice := Flushed(once, owner, r3, r4).0;
               && twice.rows.Keys == d.rows.Keys
               && forall k :: k in twice.rows ==>
                    !IsPending(twice.rows[k], owner) && Settles(d.rows[k], twice.rows[k], owner)
  {
    hide PendingRows, FlushedPending, Snapshot, Prepared, Settles;
    var once := Flushed(d, owner, r1, r2).0;
    OneFlush(d, owner, r1, r2);
    var p := Prepared(once, owner);
    PreparedKeyed(once, owner);
    PreparedKeepsKinds(once, owner);
    PendingIsSnapshot(p, owner);
    var pending := PendingRows(p, owner);
    var twice := Flushed(once, owner, r3, r4).0;
    if pending == [] {
      NothingPends(p, owner);
    } else {
      AttendanceGoesAtOnce(p, pending, owner, r3, r4);
      EveryRowSettles(p, pending, owner, r3, r4);
    }
    forall k | k in twice.rows ensures Settles(d.rows[k], twice.rows[k], owner) {
      SettlesTransitive(d.rows[k], once.rows[k], p.rows[k], owner);
      if pending != [] {
        SettlesTransitive(d.rows[k], p.rows[k], twice.rows[k], owner);
      }
    }
  }

  lemma NothingPends(p: Device, owner: Owner)
    requires Keyed(p.rows) && Listed(p.order, p.rows.Keys) && PendingRows(p, owner) == []
    ensures forall k :: k in p.rows ==> !IsPending(p.rows[k], owner)
  {
    PendingIsSnapshot(p, owner);
  }

  lemma OneFlush(d: Device, owner: Owner, first: Response, second: Response)
    requires Keyed(d.rows) && Listed(d.order, d.rows.Keys)
    requires AnswersAll(first, d.rows.Keys) && AnswersAll(second, d.rows.Keys)
    ensures var after := Flushed(d, owner, first, second).0;
            && after.rows.Keys == d.rows.Keys && after.order == d.order && Keyed(after.rows)
            && OnlyAttendancePends(after.rows, owner)
            && forall k :: k in d.rows ==> Settles(d.rows[k], after.rows[k], owner)
  {
    hide PendingRows, FlushedPending, Snapshot, Prepared, Settles;
    var p := Prepared(d, owner);
    PreparedKeyed(d, owner);
    PreparedKeepsKinds(d, owner);
    PendingIsSnapshot(p, owner);
    var pending := PendingRows(p, owner);
    if pending == [] {
      NothingPends(p, owner);
    } else {
      FirstFlushLeavesAttendance(p, pending, owner, first, second);
      EveryRowSettles(p, pending, owner, first, second);
      forall k | k in d.rows ensures Settles(d.rows[k], Flushed(d, owner, first, second).0.rows[k], owner) {
        SettlesTransitive(d.rows[k], p.rows[k], Flushed(d, owner, first, second).0.rows[k], owner);
      }
    }
  }

  // ------------------------------------------------------------------
  // Only the batch matters
  // ------------------------------------------------------------------

  /** A response that acknowledges every row of the batch and gives each an id. */
  ghost predicate AnswersBatch(r: Response, batch: seq<Stored>) {
    forall st :: st in batch ==> IssuesId(r, st.action.clientId)
  }

  const GRANTED := ActionResult("", UnknownEntity(""), Applied, Some(0), "")

  /** The response as if it answered every key. */
  function Padded(r: Response, keys: set<Id>): Response {
    Answered(map k | k in keys :: if IssuesId(r, k) then r.results[k] else GRANTED)
  }

  lemma PaddedAnswers(r: Response, keys: set<Id>)
    ensures AnswersAll(Padded(r, keys), keys)
  {
  }

  lemma {:induction false} LearnsTheSame(batch: seq<Stored>, r: Response, keys: set<Id>, e: Entity)
    requires AnswersBatch(r, batch) && IdsOf(batch) <= keys
    ensures Learned(batch, Padded(r, keys), e) == Learned(batch, r, e)
    decreases |batch|
  {
    if batch != [] {
      var n := |batch| - 1;
      assert batch[n].action.clientId in IdsOf(batch);
      assert forall st :: st in batch[..n] ==> st in batch;
      assert IdsOf(batch[..n]) <= IdsOf(batch);
      LearnsTheSame(batch[..n], r, keys, e);
    }
  }

  lemma SendsTheSame(rows: Rows, batch: seq<Stored>, r: Response)
    requires Keyed(rows) && AnswersBatch(r, batch)
    ensures AfterTransmit(rows, batch, Padded(r, rows.Keys)) == AfterTransmit(rows, batch, r)
  {
    var r' := Padded(r, rows.Keys);
    forall k | k in rows && k in IdsOf(batch) ensures RowAfter(rows[k], r') == RowAfter(rows[k], r) {
      var st :| st in batch && st.action.clientId == k;
      assert IssuesId(r, k);
    }
  }

  lemma FlushesTheSame(p: Device, pending: seq<Stored>, owner: Owner, r1: Response, r2: Response)
    requires Keyed(p.rows) && Snapshot(p.rows, pending, owner) && pending != []
    requires var report := FlushedPending(p, pending, owner, r1, r2).1;
             AnswersBatch(r1, report.first) && AnswersBatch(r2, report.second)
    ensures FlushedPending(p, pending, owner, Padded(r1, p.rows.Keys), Padded(r2, p.rows.Keys)) ==
            FlushedPending(p, pending, owner, r1, r2)
  {
    hide Independent, Deferred, Released, LocalPlayers, LocalSessions, Snapshot, AfterTransmit, Learned, IdsOf,
         Padded, AnswersBatch, AllPlayersResolved, AllSessionsResolved;
    var players, sessions := LocalPlayers(pending), LocalSessions(pending);
    var phase1 := Independent(pending, players, sessions);
    var keys := p.rows.Keys;
    SomethingGoesFirst(pending);
    PadsAnswered(r1, phase1, keys);
    FirstIdsKnown(p.rows, pending, owner);
    SendsTheSame(p.rows, phase1, r1);
    LearnsTheSame(phase1, r1, keys, PlayerEntity);
    LearnsTheSame(phase1, r1, keys, SessionEntity);
    var mid := AfterFirst(p, owner, phase1, r1);
    assert AfterFirst(p, owner, phase1, Padded(r1, keys)) == mid;
    BetweenKeyed(p, owner, phase1, r1);
    var phase2 := Released(Deferred(pending, players, sessions), mid.rows, owner, players, sessions);
    if phase2 != [] {
      SecondAnswered(p, pending, owner, r1, r2);
      PadsAnswered(r2, phase2, keys);
      SecondIdsKnown(Deferred(pending, players, sessions), mid.rows, owner, players, sessions);
      SendsTheSame(mid.rows, phase2, r2);
      LearnsTheSame(phase2, r2, keys, PlayerEntity);
      LearnsTheSame(phase2, r2, keys, SessionEntity);
    } else {
      PadsAnswered(r2, [], keys);
    }
  }

  lemma PadsAnswered(r: Response, batch: seq<Stored>, keys: set<Id>)
    ensures Padded(r, keys).Answered? && (AnswersBatch(r, batch) && batch != [] ==> r.Answered?)
  {
    if batch != [] {
      assert batch[0] in batch;
    }
  }

  lemma FirstIdsKnown(rows: Rows, pending: seq<Stored>, owner: Owner)
    requires Snapshot(rows, pending, owner)
    ensures IdsOf(Independent(pending, LocalPlayers(pending), LocalSessions(pending))) <= rows.Keys
  {
    forall k | k in IdsOf(Independent(pending, LocalPlayers(pending), LocalSessions(pending))) ensures k in rows {
      SnapshotPends(rows, pending, owner, k);
    }
  }

  lemma SecondIdsKnown(deferred: seq<Stored>, rows: Rows, owner: Owner, players: set<Id>, sessions: set<Id>)
    requires Keyed(rows)
    ensures IdsOf(Released(deferred, rows, owner, players, sessions)) <= rows.Keys
  {
    forall k | k in IdsOf(Released(deferred, rows, owner, players, sessions)) ensures k in rows {
      ReleasedPends(deferred, rows, owner, players, sessions, k);
    }
  }

  lemma BetweenKeyed(p: Device, owner: Owner, batch: seq<Stored>, r: Response)
    requires Keyed(p.rows)
    ensures Keyed(AfterFirst(p, owner, batch, r).rows) && AfterFirst(p, owner, batch, r).rows.Keys == p.rows.Keys
  {
    hide IdsOf, Learned;
  }

  lemma SecondAnswered(p: Device, pending: seq<Stored>, owner: Owner, r1: Response, r2: Response)
    requires r1.Answered?
    ensures var players, sessions := LocalPlayers(pending), LocalSessions(pending);
            FlushedPending(p, pending, owner, r1, r2).1.second ==
            Released(Deferred(pending, players, sessions), Between(p, pending, owner, r1).rows, owner, players,
                     sessions)
  {
    hide Independent, Deferred, Released, AfterFirst, AfterSecond, AfterTransmit, LocalPlayers, LocalSessions;
  }

  lemma TransmitKeepsKeys(rows: Rows, batch: seq<Stored>, r: Response, owner: Owner, ids: IdMap)
    ensures AfterTransmit(rows, batch, r).Keys == rows.Keys
    ensures AllPlayersResolved(rows, owner, ids).Keys == rows.Keys
    ensures AllSessionsResolved(rows, owner, ids).Keys == rows.Keys
  {
  }

  lemma PhasesKeepKeys(p: Device, owner: Owner, batch: seq<Stored>, r: Response)
    ensures AfterFirst(p, owner, batch, r).order == p.order && AfterFirst(p, owner, batch, r).rows.Keys == p.rows.Keys
    ensures AfterSecond(p, owner, batch, r).order == p.order && AfterSecond(p, owner, batch, r).rows.Keys == p.rows.Keys
  {
    hide AllPlayersResolved, AllSessionsResolved, AfterTransmit, Learned;
    var sent := AfterTransmit(p.rows, batch, r);
    var players, sessions := p.players + Learned(batch, r, PlayerEntity), p.sessions + Learned(batch, r, SessionEntity);
    TransmitKeepsKeys(p.rows, batch, r, owner, players);
    TransmitKeepsKeys(sent, batch, r, owner, players);
    TransmitKeepsKeys(sent, batch, r, owner, sessions);
    TransmitKeepsKeys(AllPlayersResolved(sent, owner, players), batch, r, owner, sessions);
  }

  lemma PendingKeepsKeys(p: Device, pending: seq<Stored>, owner: Owner, r1: Response, r2: Response)
    ensures FlushedPending(p, pending, owner, r1, r2).0.order == p.order
    ensures FlushedPending(p, pending, owner, r1, r2).0.rows.Keys == p.rows.Keys
  {
    hide Independent, Deferred, Released, LocalPlayers, LocalSessions, AfterFirst, AfterSecond, AfterTransmit;
    var players, sessions := LocalPlayers(pending), LocalSessions(pending);
    var phase1 := Independent(pending, players, sessions);
    TransmitKeepsKeys(p.rows, phase1, r1, owner, map[]);
    PhasesKeepKeys(p, owner, phase1, r1);
    var mid := if phase1 == [] then p else AfterFirst(p, owner, phase1, r1);
    var phase2 := Released(Deferred(pending, players, sessions), mid.rows, owner, players, sessions);
    TransmitKeepsKeys(mid.rows, phase2, r2, owner, map[]);
    PhasesKeepKeys(mid, owner, phase2, r2);
  }

  lemma FlushKeepsKeys(d: Device, owner: Owner, r1: Response, r2: Response)
    requires Listed(d.order, d.rows.Keys)
    ensures Flushed(d, owner, r1, r2).0.order == d.order && Flushed(d, owner, r1, r2).0.rows.Keys == d.rows.Keys
  {
    hide PendingRows, FlushedPending;
    TransmitKeepsKeys(d.rows, [], r1, owner, d.players);
    TransmitKeepsKeys(AllPlayersResolved(d.rows, owner, d.players), [], r1, owner, d.sessions);
    var p := Prepared(d, owner);
    PendingKeepsKeys(p, PendingRows(p, owner), owner, r1, r2);
  }

  /** One flush; the queue stays listed whatever comes back. */
  ghost function Once(d: Device, owner: Owner, r1: Response, r2: Response): (once: Device)
    requires Listed(d.order, d.rows.Keys)
    ensures Listed(once.order, once.rows.Keys)
  {
    FlushKeepsKeys(d, owner, r1, r2);
    Flushed(d, owner, r1, r2).0
  }

  /** Both requests of the flush come back with every row they carried acknowledged. */
  ghost predicate Acknowledged(d: Device, owner: Owner, r1: Response, r2: Response)
    requires Listed(d.order, d.rows.Keys)
  {
    AnswersBatch(r1, Flushed(d, owner, r1, r2).1.first) && AnswersBatch(r2, Flushed(d, owner, r1, r2).1.second)
  }

  /** With a server that acknowledges everything it is sent and no new captures, two
      flushes leave no unsynced row of the owner, whatever chain of players, sessions
      and attendance was queued: every one of them is still in the queue, applied or
      skipped. */
  lemma TwoFlushesDrain(d: Device, owner: Owner, r1: Response, r2: Response, r3: Response, r4: Response)
    requires Keyed(d.rows) && Listed(d.order, d.rows.Keys)
    requires Acknowledged(d, owner, r1, r2) && Acknowledged(Once(d, owner, r1, r2), owner, r3, r4)
    ensures var twice := Once(Once(d, owner, r1, r2), owner, r3, r4);
            && twice.rows.Keys == d.rows.Keys
            && forall k :: k in d.rows ==>
                 && twice.rows[k].owner == d.rows[k].owner
                 && if IsPending(d.rows[k], owner) then twice.rows[k].status.SyncApplied?
                 || twice.rows[k].status.SyncSkipped?
                    else twice.rows[k].status == d.rows[k].status
  {
    hide Flushed, AnswersBatch, Padded;
    var keys := d.rows.Keys;
    var once := Once(d, owner, r1, r2);
    PaddedAnswers(r1, keys);
    PaddedAnswers(r2, keys);
    PaddedAnswers(r3, keys);
    PaddedAnswers(r4, keys);
    PaddedFlush(d, owner, r1, r2);
    OneFlush(d, owner, Padded(r1, keys), Padded(r2, keys));
    PaddedFlush(once, owner, r3, r4);
    TwoFullFlushes(d, owner, Padded(r1, keys), Padded(r2, keys), Padded(r3, keys), Padded(r4, keys));
  }

  lemma PaddedFlush(d: Device, owner: Owner, r1: Response, r2: Response)
    requires Keyed(d.rows) && Listed(d.order, d.rows.Keys)
    requires AnswersBatch(r1, Flushed(d, owner, r1, r2).1.first) && AnswersBatch(r2, Flushed(d, owner, r1, r2).1.second)
    ensures Flushed(d, owner, Padded(r1, d.rows.Keys), Padded(r2, d.rows.Keys)) == Flushed(d, owner, r1, r2)
  {
    hide PendingRows, FlushedPending, Snapshot, Prepared, AnswersBatch, Padded;
    var p := Prepared(d, owner);
    PreparedKeyed(d, owner);
    PendingIsSnapshot(p, owner);
    var pending := PendingRows(p, owner);
    if pending != [] {
      FlushesTheSame(p, pending, owner, r1, r2);
    }
  }
}
