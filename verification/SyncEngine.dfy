/** One flush of the device queue: rewrite resolved references, send what is
    independent, learn the ids of new players and sessions, send what waited. */
module SyncEngine {
  import opened Basics
  import opened Schema
  import opened LocalStore

  /** What comes back from `POST /sync`. */
  datatype Response = NetworkError | Unauthorized | Answered(results: map<Id, ActionResult>)

  datatype FlushOutcome = FlushOk | FlushEmpty | FlushNetworkError | FlushUnauthorized

  // ------------------------------------------------------------------
  // Specification
  // ------------------------------------------------------------------

  /** The store as one flush sees it. */
  datatype Device = Device(order: seq<Id>, rows: Rows, players: IdMap, sessions: IdMap)

  predicate IsPending(st: Stored, owner: Owner) {
    st.owner == owner && st.status.Unsynced?
  }

  function PendingIn(order: seq<Id>, rows: Rows, owner: Owner): (r: seq<Stored>)
    requires forall k :: k in order ==> k in rows
    ensures forall st :: st in r <==> exists k :: k in order && rows[k] == st && IsPending(st, owner)
  {
    if order == [] then []
    else
      var rest := PendingIn(order[1..], rows, owner);
      if IsPending(rows[order[0]], owner) then [rows[order[0]]] + rest else rest
  }

  predicate CapturedBefore(a: Stored, b: Stored) {
    a.action.at.ts < b.action.at.ts
    || (a.action.at.ts == b.action.at.ts && !StrLess(b.action.clientId, a.action.clientId))
  }

  function InsertByCapture(st: Stored, sorted: seq<Stored>): (r: seq<Stored>)
    ensures forall x :: x in r <==> x == st || x in sorted
    ensures |r| == |sorted| + 1
  {
    if sorted == [] || CapturedBefore(st, sorted[0]) then [st] + sorted
    else [sorted[0]] + InsertByCapture(st, sorted[1..])
  }

  function SortByCapture(rows: seq<Stored>): (r: seq<Stored>)
    ensures forall x :: x in r <==> x in rows
    ensures |r| == |rows|
  {
    if rows == [] then [] else InsertByCapture(rows[0], SortByCapture(rows[1..]))
  }

  /** `getUnsyncedActions`: the owner's pending rows in capture order. */
  function PendingRows(d: Device, owner: Owner): (r: seq<Stored>)
    requires Listed(d.order, d.rows.Keys)
    ensures forall st :: st in r <==> exists k :: k in d.rows && d.rows[k] == st && IsPending(st, owner)
  {
    SortByCapture(PendingIn(d.order, d.rows, owner))
  }

  function IdsOf(rows: seq<Stored>): set<Id> {
    set st | st in rows :: st.action.clientId
  }

  predicate DistinctIds(rows: seq<Stored>) {
    rows == [] || (rows[0].action.clientId !in IdsOf(rows[1..]) && DistinctIds(rows[1..]))
  }

  lemma {:induction false} PendingDistinct(order: seq<Id>, rows: Rows, owner: Owner)
    requires Keyed(rows) && (forall k :: k in order ==> k in rows)
    requires forall i, j :: 0 <= i < j < |order| ==> order[i] != order[j]
    ensures DistinctIds(PendingIn(order, rows, owner))
  {
    if order != [] {
      PendingDistinct(order[1..], rows, owner);
    }
  }

  lemma {:induction false} InsertDistinct(st: Stored, sorted: seq<Stored>)
    requires DistinctIds(sorted) && st.action.clientId !in IdsOf(sorted)
    ensures DistinctIds(InsertByCapture(st, sorted))
  {
    if sorted == [] || CapturedBefore(st, sorted[0]) {
      assert ([st] + sorted)[1..] == sorted;
    } else {
      InsertDistinct(st, sorted[1..]);
      assert InsertByCapture(st, sorted)[1..] == InsertByCapture(st, sorted[1..]);
    }
  }

  lemma {:induction false} SortDistinct(rows: seq<Stored>)
    requires DistinctIds(rows)
    ensures DistinctIds(SortByCapture(rows))
  {
    if rows != [] {
      SortDistinct(rows[1..]);
      InsertDistinct(rows[0], SortByCapture(rows[1..]));
    }
  }

  /** The batch order: by capture time, then by client id. */
  predicate InCaptureOrder(rows: seq<Stored>) {
    |rows| <= 1 || (CapturedBefore(rows[0], rows[1]) && InCaptureOrder(rows[1..]))
  }

  lemma {:induction false} InsertOrdered(st: Stored, sorted: seq<Stored>)
    requires InCaptureOrder(sorted)
    ensures InCaptureOrder(InsertByCapture(st, sorted))
  {
    if sorted == [] {
    } else if CapturedBefore(st, sorted[0]) {
      assert ([st] + sorted)[1..] == sorted;
    } else {
      StrTrichotomy(st.action.clientId, sorted[0].action.clientId);
      InsertOrdered(st, sorted[1..]);
      assert InsertByCapture(st, sorted)[1..] == InsertByCapture(st, sorted[1..]);
    }
  }

  lemma {:induction false} SortInOrder(rows: seq<Stored>)
    ensures InCaptureOrder(SortByCapture(rows))
  {
    if rows != [] {
      SortInOrder(rows[1..]);
      InsertOrdered(rows[0], SortByCapture(rows[1..]));
    }
  }

  lemma CapturedBeforeTransitive(a: Stored, b: Stored, c: Stored)
    requires CapturedBefore(a, b) && CapturedBefore(b, c)
    ensures CapturedBefore(a, c)
  {
    var x, y, z := a.action.clientId, b.action.clientId, c.action.clientId;
    StrTrichotomy(x, y);
    StrTrichotomy(y, z);
    StrTrichotomy(x, z);
    if StrLess(x, y) && StrLess(y, z) {
      StrLessTransitive(x, y, z);
    }
  }

  lemma {:induction false} OrderedThroughout(rows: seq<Stored>, i: nat, j: nat)
    requires InCaptureOrder(rows) && i < j < |rows|
    ensures CapturedBefore(rows[i], rows[j])
    decreases |rows|, j
  {
    if i > 0 {
      OrderedThroughout(rows[1..], i - 1, j - 1);
    } else if j > 1 {
      OrderedThroughout(rows, 0, j - 1);
      OrderedThroughout(rows[1..], j - 2, j - 1);
      CapturedBeforeTransitive(rows[0], rows[j - 1], rows[j]);
    }
  }

  /** What was captured earlier comes earlier; at one instant the client ids decide. */
  lemma SortOrdered(rows: seq<Stored>)
    ensures var r := SortByCapture(rows);
            && InCaptureOrder(r)
            && forall i, j :: 0 <= i < j < |r| ==>
                 || r[i].action.at.ts < r[j].action.at.ts
                 || (&& r[i].action.at.ts == r[j].action.at.ts
                     && (r[i].action.clientId == r[j].action.clientId
                         || StrLess(r[i].action.clientId, r[j].action.clientId)))
  {
    var r := SortByCapture(rows);
    SortInOrder(rows);
    forall i, j | 0 <= i < j < |r|
      ensures || r[i].action.at.ts < r[j].action.at.ts
              || (&& r[i].action.at.ts == r[j].action.at.ts
                  && (r[i].action.clientId == r[j].action.clientId
                      || StrLess(r[i].action.clientId, r[j].action.clientId)))
    {
      OrderedThroughout(r, i, j);
      StrTrichotomy(r[i].action.clientId, r[j].action.clientId);
    }
  }

  /** The pending rows, each once, in capture order. */
  lemma PendingRowsOrdered(d: Device, owner: Owner)
    requires Keyed(d.rows) && Listed(d.order, d.rows.Keys)
    ensures DistinctIds(PendingRows(d, owner)) && InCaptureOrder(PendingRows(d, owner))
  {
    PendingDistinct(d.order, d.rows, owner);
    SortDistinct(PendingIn(d.order, d.rows, owner));
    SortInOrder(PendingIn(d.order, d.rows, owner));
  }

  lemma {:induction false} DistinctAt(rows: seq<Stored>, i: nat)
    requires DistinctIds(rows) && i < |rows|
    ensures rows[i].action.clientId !in IdsOf(rows[..i])
  {
    if i > 0 {
      DistinctAt(rows[1..], i - 1);
      assert rows[..i] == [rows[0]] + rows[1..][..i - 1];
      assert rows[i] in rows[1..];
    }
  }

  function LocalPlayers(rows: seq<Stored>): set<Id> {
    set st | st in rows && st.action.body.PlayerBody? :: st.action.clientId
  }

  function LocalSessions(rows: seq<Stored>): set<Id> {
    set st | st in rows && st.action.body.SessionBody? :: st.action.clientId
  }

  /** The row refers to a player or session that is itself still queued. */
  predicate Waits(st: Stored, players: set<Id>, sessions: set<Id>) {
    || (LocalPlayer(st.action.body).Some? && LocalPlayer(st.action.body).value in players)
    || (LocalSession(st.action.body).Some? && LocalSession(st.action.body).value in sessions)
  }

  /** One row after `applyStoredResolutions`. */
  function PlayerResolved(st: Stored, owner: Owner, players: IdMap): Stored {
    if IsPending(st, owner) && PlayerKnown(st.action.body, players)
    then WithKnownPlayer(st, players).(revision := st.revision + 1) else st
  }

  /** One row after `applyStoredSessionResolutions`. */
  function SessionResolved(st: Stored, owner: Owner, sessions: IdMap): Stored {
    if IsPending(st, owner) && SessionKnown(st.action.body, sessions)
    then WithKnownSession(st, sessions).(revision := st.revision + 1) else st
  }

  function AllPlayersResolved(rows: Rows, owner: Owner, players: IdMap): Rows {
    map k | k in rows :: PlayerResolved(rows[k], owner, players)
  }

  function AllSessionsResolved(rows: Rows, owner: Owner, sessions: IdMap): Rows {
    map k | k in rows :: SessionResolved(rows[k], owner, sessions)
  }

  /** One transmitted row after the response is reconciled. */
  function RowAfter(st: Stored, r: Response): Stored {
    (if r.Answered? && st.action.clientId in r.results then Reconciled(st, r.results[st.action.clientId])
     else Bumped(st))
    .(revision := st.revision + 1)
  }

  function AfterTransmit(rows: Rows, batch: seq<Stored>, r: Response): Rows {
    map k | k in rows :: if k in IdsOf(batch) then RowAfter(rows[k], r) else rows[k]
  }

  predicate Acknowledges(r: Response, clientId: Id) {
    r.Answered? && clientId in r.results && !r.results[clientId].status.Rejected?
  }

  predicate IssuesId(r: Response, clientId: Id) {
    Acknowledges(r, clientId) && r.results[clientId].recordId.Some?
  }

  /** The server ids a response gives the new players (or sessions) of a batch. */
  function Learned(batch: seq<Stored>, r: Response, e: Entity): IdMap {
    if batch == [] then map[]
    else
      var n := |batch| - 1;
      var k := batch[n].action.clientId;
      var front := Learned(batch[..n], r, e);
      if IssuesId(r, k) && batch[n].action.body.EntityName() == e then front[k := r.results[k].recordId.value]
      else front
  }

  function Independent(rows: seq<Stored>, players: set<Id>, sessions: set<Id>): seq<Stored> {
    FilterSeq(rows, (st: Stored) => !Waits(st, players, sessions))
  }

  function Deferred(rows: seq<Stored>, players: set<Id>, sessions: set<Id>): seq<Stored> {
    FilterSeq(rows, (st: Stored) => Waits(st, players, sessions))
  }

  /** The deferred rows that can go in the second request, as they are now. */
  function Released(deferred: seq<Stored>, rows: Rows, owner: Owner, players: set<Id>, sessions: set<Id>): seq<Stored> {
    if deferred == [] then []
    else
      var n := |deferred| - 1;
      var front := Released(deferred[..n], rows, owner, players, sessions);
      var k := deferred[n].action.clientId;
      if k in rows && IsPending(rows[k], owner) && !Waits(rows[k], players, sessions) then front + [rows[k]] else front
  }

  datatype FlushReport = FlushReport(outcome: FlushOutcome, first: seq<Stored>, second: seq<Stored>)

  /** The device with every resolution it already knows applied. */
  function Prepared(d: Device, owner: Owner): Device {
    var rows := AllPlayersResolved(d.rows, owner, d.players);
    d.(rows := AllSessionsResolved(rows, owner, d.sessions))
  }

  function FailureOf(r: Response): FlushOutcome {
    if r.Unauthorized? then FlushUnauthorized else FlushNetworkError
  }

  /** After the first request: reconciled, new ids learned, references rewritten. */
  function AfterFirst(p: Device, owner: Owner, batch: seq<Stored>, r: Response): Device {
    var sent := AfterTransmit(p.rows, batch, r);
    var players := Learned(batch, r, PlayerEntity);
    var sessions := Learned(batch, r, SessionEntity);
    var allPlayers := p.players + players;
    var allSessions := p.sessions + sessions;
    var rows := if players.Keys == {} then sent else AllPlayersResolved(sent, owner, allPlayers);
    Device(p.order, if sessions.Keys == {} then rows else AllSessionsResolved(rows, owner, allSessions),
           allPlayers, allSessions)
  }

  /** After the second request; only session references are rewritten here. */
  function AfterSecond(p: Device, owner: Owner, batch: seq<Stored>, r: Response): Device {
    var sent := AfterTransmit(p.rows, batch, r);
    var sessions := Learned(batch, r, SessionEntity);
    var allSessions := p.sessions + sessions;
    Device(p.order, if sessions.Keys == {} then sent else AllSessionsResolved(sent, owner, allSessions),
           p.players + Learned(batch, r, PlayerEntity), allSessions)
  }

  /** The two requests of a flush that found `pending` rows. */
  function FlushedPending(p: Device, pending: seq<Stored>, owner: Owner, first: Response, second: Response)
    : (Device, FlushReport)
  {
    var players, sessions := LocalPlayers(pending), LocalSessions(pending);
    var phase1 := Independent(pending, players, sessions);
    if phase1 != [] && !first.Answered? then
      (p.(rows := AfterTransmit(p.rows, phase1, first)), FlushReport(FailureOf(first), phase1, []))
    else
      var mid := if phase1 == [] then p else AfterFirst(p, owner, phase1, first);
      var phase2 := Released(Deferred(pending, players, sessions), mid.rows, owner, players, sessions);
      if phase2 == [] then (mid, FlushReport(FlushOk, phase1, []))
      else if !second.Answered? then
        (mid.(rows := AfterTransmit(mid.rows, phase2, second)), FlushReport(FailureOf(second), phase1, phase2))
      else (AfterSecond(mid, owner, phase2, second), FlushReport(FlushOk, phase1, phase2))
  }

  /** `doFlush`, undisturbed: the device it leaves, and what it sent. */
  function Flushed(d: Device, owner: Owner, first: Response, second: Response): (Device, FlushReport)
    requires Listed(d.order, d.rows.Keys)
  {
    var p := Prepared(d, owner);
    var pending := PendingRows(p, owner);
    if pending == [] then (p, FlushReport(FlushEmpty, [], []))
    else FlushedPending(p, pending, owner, first, second)
  }

  // ------------------------------------------------------------------
  // The engine
  // ------------------------------------------------------------------

  /** `pending` holds the owner's pending rows, as they are, and only those. */
  ghost predicate Snapshot(rows: Rows, pending: seq<Stored>, owner: Owner) {
    && (forall i :: 0 <= i < |pending| ==>
          var k := pending[i].action.clientId;
          k in rows && rows[k] == pending[i] && IsPending(pending[i], owner))
    && (forall k :: k in rows && IsPending(rows[k], owner) ==> k in IdsOf(pending))
  }

  lemma PendingIsSnapshot(d: Device, owner: Owner)
    requires Keyed(d.rows) && Listed(d.order, d.rows.Keys)
    ensures Snapshot(d.rows, PendingRows(d, owner), owner)
  {
    var pending := PendingRows(d, owner);
    forall i | 0 <= i < |pending|
      ensures var k := pending[i].action.clientId;
              k in d.rows && d.rows[k] == pending[i] && IsPending(pending[i], owner)
    {
      assert pending[i] in pending;
    }
    forall k | k in d.rows && IsPending(d.rows[k], owner) ensures k in IdsOf(pending) {
      assert d.rows[k] in pending;
    }
  }

  function IdsBefore(rows: seq<Stored>, i: nat): set<Id>
    requires i <= |rows|
  {
    IdsOf(rows[..i])
  }

  lemma IdsAdvance(rows: seq<Stored>, i: nat)
    requires i < |rows|
    ensures IdsBefore(rows, i + 1) == IdsBefore(rows, i) + {rows[i].action.clientId}
  {
    assert rows[..i + 1] == rows[..i] + [rows[i]];
  }

  function PartlyPlayerResolved(rows: Rows, done: set<Id>, owner: Owner, ids: IdMap): Rows {
    map k | k in rows :: if k in done then PlayerResolved(rows[k], owner, ids) else rows[k]
  }

  lemma PartlyPlayerKeyed(rows: Rows, done: set<Id>, owner: Owner, ids: IdMap)
    requires Keyed(rows)
    ensures Keyed(PartlyPlayerResolved(rows, done, owner, ids))
    ensures PartlyPlayerResolved(rows, done, owner, ids).Keys == rows.Keys
  {
  }

  lemma NonePlayerResolved(rows: Rows, pending: seq<Stored>, owner: Owner, ids: IdMap)
    ensures PartlyPlayerResolved(rows, IdsBefore(pending, 0), owner, ids) == rows
  {
  }

  lemma ResolvePlayerOf(rows: Rows, done: set<Id>, st: Stored, owner: Owner, ids: IdMap)
    requires Keyed(rows) && st.action.clientId in rows && rows[st.action.clientId] == st
    requires IsPending(st, owner) && st.action.clientId !in done
    ensures var now, next := PartlyPlayerResolved(rows, done, owner, ids),
                             PartlyPlayerResolved(rows, done + {st.action.clientId}, owner, ids);
            if PlayerKnown(st.action.body, ids)
            then GuardHolds(now, WithKnownPlayer(st, ids), owner)
            && Replaced(now, WithKnownPlayer(st, ids), owner) == next
            else now == next
  {
  }

  lemma AllPlayerDone(rows: Rows, pending: seq<Stored>, owner: Owner, ids: IdMap)
    requires Snapshot(rows, pending, owner)
    ensures PartlyPlayerResolved(rows, IdsOf(pending), owner, ids) == AllPlayersResolved(rows, owner, ids)
  {
  }

  function PartlySessionResolved(rows: Rows, done: set<Id>, owner: Owner, ids: IdMap): Rows {
    map k | k in rows :: if k in done then SessionResolved(rows[k], owner, ids) else rows[k]
  }

  lemma PartlySessionKeyed(rows: Rows, done: set<Id>, owner: Owner, ids: IdMap)
    requires Keyed(rows)
    ensures Keyed(PartlySessionResolved(rows, done, owner, ids))
    ensures PartlySessionResolved(rows, done, owner, ids).Keys == rows.Keys
  {
  }

  lemma NoneSessionResolved(rows: Rows, pending: seq<Stored>, owner: Owner, ids: IdMap)
    ensures PartlySessionResolved(rows, IdsBefore(pending, 0), owner, ids) == rows
  {
  }

  lemma ResolveSessionOf(rows: Rows, done: set<Id>, st: Stored, owner: Owner, ids: IdMap)
    requires Keyed(rows) && st.action.clientId in rows && rows[st.action.clientId] == st
    requires IsPending(st, owner) && st.action.clientId !in done
    ensures var now, next := PartlySessionResolved(rows, done, owner, ids),
                             PartlySessionResolved(rows, done + {st.action.clientId}, owner, ids);
            if SessionKnown(st.action.body, ids)
            then GuardHolds(now, WithKnownSession(st, ids), owner)
            && Replaced(now, WithKnownSession(st, ids), owner) == next
            else now == next
  {
  }

  lemma AllSessionDone(rows: Rows, pending: seq<Stored>, owner: Owner, ids: IdMap)
    requires Snapshot(rows, pending, owner)
    ensures PartlySessionResolved(rows, IdsOf(pending), owner, ids) == AllSessionsResolved(rows, owner, ids)
  {
  }

  function PartlySent(rows: Rows, done: set<Id>, r: Response): Rows {
    map k | k in rows :: if k in done then RowAfter(rows[k], r) else rows[k]
  }

  /** Every row of the batch is pending and as it is in the store. */
  ghost predicate Current(rows: Rows, batch: seq<Stored>, owner: Owner) {
    forall i :: 0 <= i < |batch| ==>
      var k := batch[i].action.clientId;
      k in rows && rows[k] == batch[i] && IsPending(batch[i], owner)
  }

  /** How many rows of a batch were answered with `status`. */
  function Tally(batch: seq<Stored>, r: Response, status: ActionStatus): nat {
    if batch == [] then 0
    else
      var n := |batch| - 1;
      var k := batch[n].action.clientId;
      Tally(batch[..n], r, status) + (if r.Answered? && k in r.results && r.results[k].status == status then 1 else 0)
  }

  lemma LearnedAdvance(batch: seq<Stored>, i: nat, r: Response, e: Entity)
    requires i < |batch|
    ensures var st := batch[i];
            Learned(batch[..i + 1], r, e) ==
            if IssuesId(r, st.action.clientId) && st.action.body.EntityName() == e
            then Learned(batch[..i], r, e)[st.action.clientId := r.results[st.action.clientId].recordId.value]
            else Learned(batch[..i], r, e)
  {
    assert batch[..i + 1][..i] == batch[..i];
  }

  lemma TalliesBounds(batch: seq<Stored>, r: Response)
    ensures TalliesOf([], r) == Tallies(0, 0, 0, 0)
    ensures r.Answered? ==> TalliesOf(batch, r).attempted == |batch|
  {
  }

  /** Rows of the batch the response does not mention. */
  function Unanswered(batch: seq<Stored>, r: Response): nat {
    if batch == [] then 0
    else
      var n := |batch| - 1;
      Unanswered(batch[..n], r) + (if r.Answered? && batch[n].action.clientId !in r.results then 1 else 0)
  }

  /** Every row attempted is counted once: applied, skipped, rejected, or left for
      a retry because the response does not mention it. */
  lemma {:induction false} TalliesAddUp(batch: seq<Stored>, r: Response)
    requires r.Answered?
    ensures var t := TalliesOf(batch, r);
            t.attempted == |batch| && t.applied + t.skipped + t.rejected + Unanswered(batch, r) == |batch|
  {
    if batch != [] {
      TalliesAddUp(batch[..|batch| - 1], r);
    }
  }

  lemma TalliesAdvance(batch: seq<Stored>, i: nat, r: Response)
    requires i < |batch| && r.Answered?
    ensures var k := batch[i].action.clientId;
            var now, next := TalliesOf(batch[..i], r), TalliesOf(batch[..i + 1], r);
            next == if k !in r.results then now.(attempted := i + 1)
                    else match r.results[k].status
                         case Applied => now.(attempted := i + 1, applied := now.applied + 1)
                         case Skipped => now.(attempted := i + 1, skipped := now.skipped + 1)
                         case Rejected => now.(attempted := i + 1, rejected := now.rejected + 1)
  {
    assert batch[..i + 1][..i] == batch[..i];
  }

  /** One request, row by row: a row that was sent says what the answer said of it,
      or has one more attempt if there was none, and nothing else of it changes; a
      row that was not sent is as it was. */
  lemma TransmitMeaning(rows: Rows, batch: seq<Stored>, r: Response, owner: Owner, k: Id)
    requires Keyed(rows) && Current(rows, batch, owner) && k in rows
    ensures var after := AfterTransmit(rows, batch, r);
            && after.Keys == rows.Keys
            && after[k].action == rows[k].action && after[k].owner == rows[k].owner
            && if k !in IdsOf(batch) then after[k] == rows[k]
               else
                 && after[k].revision == rows[k].revision + 1
                 && if r.Answered? && k in r.results
                    then AnsweredBy(after[k], r.results[k]) && after[k].attempts == rows[k].attempts
                    else after[k].status.Unsynced? && after[k].attempts == rows[k].attempts + 1
  {
    if k in IdsOf(batch) {
      var st :| st in batch && st.action.clientId == k;
      var i :| 0 <= i < |batch| && batch[i] == st;
    }
  }

  /** The sent rows that end with this status. */
  function Ended(rows: Rows, batch: seq<Stored>, status: Status): set<Id> {
    set k | k in rows && k in IdsOf(batch) && rows[k].status == status
  }

  function Marked(s: ActionStatus): Status {
    if s == Applied then SyncApplied else if s == Skipped then SyncSkipped else SyncRejected
  }

  function GivenStatus(batch: seq<Stored>, r: Response, status: ActionStatus): set<Id> {
    set st | st in batch && r.Answered? && st.action.clientId in r.results
             && r.results[st.action.clientId].status == status :: st.action.clientId
  }

  lemma GivenNext(batch: seq<Stored>, r: Response, status: ActionStatus)
    requires batch != []
    ensures var n := |batch| - 1;
            var k := batch[n].action.clientId;
            GivenStatus(batch, r, status) ==
            GivenStatus(batch[..n], r, status)
            + (if r.Answered? && k in r.results && r.results[k].status == status then {k} else {})
  {
    assert batch == batch[..|batch| - 1] + [batch[|batch| - 1]];
  }

  lemma GivenAreSent(batch: seq<Stored>, r: Response, status: ActionStatus)
    ensures GivenStatus(batch, r, status) <= IdsOf(batch)
  {
  }

  lemma {:induction false} TallyCounts(batch: seq<Stored>, r: Response, status: ActionStatus)
    requires DistinctIds(batch)
    ensures Tally(batch, r, status) == |GivenStatus(batch, r, status)|
    decreases |batch|
  {
    hide DistinctIds, IdsOf, GivenStatus;
    if batch == [] {
      NoneGiven(r, status);
    } else {
      var n := |batch| - 1;
      DistinctAt(batch, n);
      DistinctPrefix(batch, n);
      TallyCounts(batch[..n], r, status);
      GivenNext(batch, r, status);
      GivenAreSent(batch[..n], r, status);
    }
  }

  lemma NoneGiven(r: Response, status: ActionStatus)
    ensures GivenStatus([], r, status) == {}
  {
  }

  /** The tallies count the very rows that were marked. */
  lemma TalliesCountRows(rows: Rows, batch: seq<Stored>, r: Response, owner: Owner)
    requires Keyed(rows) && Current(rows, batch, owner) && DistinctIds(batch) && r.Answered?
    ensures var after, t := AfterTransmit(rows, batch, r), TalliesOf(batch, r);
            && t.applied == |Ended(after, batch, SyncApplied)|
            && t.skipped == |Ended(after, batch, SyncSkipped)|
            && t.rejected == |Ended(after, batch, SyncRejected)|
  {
    hide AfterTransmit, Tally, DistinctIds;
    EndedAsGiven(rows, batch, r, owner, Applied);
    EndedAsGiven(rows, batch, r, owner, Skipped);
    EndedAsGiven(rows, batch, r, owner, Rejected);
    TallyCounts(batch, r, Applied);
    TallyCounts(batch, r, Skipped);
    TallyCounts(batch, r, Rejected);
  }

  lemma EndedAsGiven(rows: Rows, batch: seq<Stored>, r: Response, owner: Owner, status: ActionStatus)
    requires Keyed(rows) && Current(rows, batch, owner) && r.Answered?
    ensures Ended(AfterTransmit(rows, batch, r), batch, Marked(status)) == GivenStatus(batch, r, status)
  {
    hide AfterTransmit;
    var after := AfterTransmit(rows, batch, r);
    forall k | k in rows
      ensures k in after && (k in Ended(after, batch, Marked(status)) <==> k in GivenStatus(batch, r, status))
    {
      TransmitMeaning(rows, batch, r, owner, k);
    }
    forall st | st in batch ensures st.action.clientId in rows {
      var i :| 0 <= i < |batch| && batch[i] == st;
    }
    TransmitKeys(rows, batch, r);
  }

  lemma TransmitKeys(rows: Rows, batch: seq<Stored>, r: Response)
    ensures AfterTransmit(rows, batch, r).Keys == rows.Keys
  {
  }

  /** The answer to this row of the batch issues an id for `k`. */
  predicate Issued(st: Stored, r: Response, e: Entity, k: Id) {
    && st.action.clientId == k && st.action.body.EntityName() == e
    && r.Answered? && k in r.results && !r.results[k].status.Rejected? && r.results[k].recordId.Some?
  }

  /** The ids learned of one kind are those the answers issue for its rows. */
  lemma {:induction false} LearnedMeaning(batch: seq<Stored>, r: Response, e: Entity)
    ensures forall k :: k in Learned(batch, r, e) <==> exists st :: st in batch && Issued(st, r, e, k)
    ensures forall k :: k in Learned(batch, r, e) ==> r.Answered? && k in r.results
                                                      && Some(Learned(batch, r, e)[k]) == r.results[k].recordId
    decreases |batch|
  {
    if batch != [] {
      var n := |batch| - 1;
      var front, last := batch[..n], batch[n];
      LearnedMeaning(front, r, e);
      assert batch == front + [last];
      forall k ensures k in Learned(batch, r, e) <==> exists st :: st in batch && Issued(st, r, e, k) {
        assert Issued(last, r, e, k) ==> k == last.action.clientId;
        if k in Learned(front, r, e) {
          var st :| st in front && Issued(st, r, e, k);
          assert st in batch;
        }
      }
    }
  }

  /** How a flush reports itself: unauthorized or cut off exactly if one of its
      requests was, empty exactly if nothing was pending. */
  lemma ReportMeaning(d: Device, owner: Owner, first: Response, second: Response)
    requires Listed(d.order, d.rows.Keys)
    ensures var report := Flushed(d, owner, first, second).1;
            var failed := if report.second != [] then second else first;
            var made := report.first != [] || report.second != [];
            && (report.outcome.FlushUnauthorized? <==> made && failed.Unauthorized?)
            && (report.outcome.FlushNetworkError? <==> made && failed.NetworkError?)
            && (report.outcome.FlushEmpty? <==> PendingRows(Prepared(d, owner), owner) == [])
            && (report.second != [] && report.first != [] ==> first.Answered?)
  {
    hide PendingRows, Prepared, AfterTransmit, AfterFirst, AfterSecond, Independent, Deferred, Released, LocalPlayers,
         LocalSessions;
  }

  lemma SentNone(rows: Rows, batch: seq<Stored>, r: Response)
    ensures PartlySent(rows, IdsBefore(batch, 0), r) == rows
    ensures AfterTransmit(rows, [], r) == rows
  {
  }

  lemma AllSent(rows: Rows, batch: seq<Stored>, r: Response)
    ensures PartlySent(rows, IdsBefore(batch, |batch|), r) == AfterTransmit(rows, batch, r)
  {
    assert batch[..|batch|] == batch;
  }

  lemma MergeNothing(m: IdMap, n: IdMap)
    ensures n.Keys == {} ==> m + n == m
  {
  }

  lemma SentNext(rows: Rows, done: set<Id>, st: Stored, r: Response)
    requires Keyed(rows) && st.action.clientId in rows && rows[st.action.clientId] == st && st.action.clientId !in done
    ensures var k := st.action.clientId;
            var now, next := PartlySent(rows, done, r), PartlySent(rows, done + {k}, r);
            k in now && now[k] == st && next == now[k := RowAfter(st, r)]
  {
  }

  lemma {:induction false} LearnedNothing(batch: seq<Stored>, r: Response, e: Entity)
    ensures batch == [] || !r.Answered? ==> Learned(batch, r, e) == map[]
    decreases |batch|
  {
    if batch != [] {
      LearnedNothing(batch[..|batch| - 1], r, e);
    }
  }

  lemma {:induction false} DistinctAppend(rows: seq<Stored>, st: Stored)
    requires DistinctIds(rows) && st.action.clientId !in IdsOf(rows)
    ensures DistinctIds(rows + [st])
  {
    if rows == [] {
      assert (rows + [st])[1..] == [];
    } else {
      DistinctAppend(rows[1..], st);
      assert (rows + [st])[1..] == rows[1..] + [st];
    }
  }

  lemma {:induction false} DistinctPrefix(rows: seq<Stored>, n: nat)
    requires DistinctIds(rows) && n <= |rows|
    ensures DistinctIds(rows[..n])
  {
    if n > 0 {
      DistinctPrefix(rows[1..], n - 1);
      assert rows[..n][1..] == rows[1..][..n - 1];
    }
  }

  lemma {:induction false} FilterDistinct(rows: seq<Stored>, p: Stored -> bool)
    requires DistinctIds(rows)
    ensures DistinctIds(FilterSeq(rows, p))
  {
    if rows != [] {
      FilterDistinct(rows[1..], p);
    }
  }

  lemma OneMoreCurrent(rows: Rows, front: seq<Stored>, x: Stored, owner: Owner)
    requires DistinctIds(front) && Current(rows, front, owner) && x.action.clientId !in IdsOf(front)
    requires x.action.clientId in rows && rows[x.action.clientId] == x && IsPending(x, owner)
    ensures DistinctIds(front + [x]) && Current(rows, front + [x], owner)
    ensures IdsOf(front + [x]) == IdsOf(front) + {x.action.clientId}
  {
    DistinctAppend(front, x);
  }

  lemma NoneReleased(rows: Rows, owner: Owner)
    ensures DistinctIds([]) && Current(rows, [], owner) && IdsOf([]) == {}
  {
  }

  lemma {:induction false} ReleasedDistinct(deferred: seq<Stored>, rows: Rows, owner: Owner, players: set<Id>,
                                            sessions: set<Id>)
    requires DistinctIds(deferred) && Keyed(rows)
    ensures var r := Released(deferred, rows, owner, players, sessions);
            DistinctIds(r) && Current(rows, r, owner) && IdsOf(r) <= IdsOf(deferred)
    decreases |deferred|
  {
    hide Waits, IsPending, DistinctIds, IdsOf, Current;
    NoneReleased(rows, owner);
    if deferred != [] {
      var n := |deferred| - 1;
      DistinctAt(deferred, n);
      DistinctPrefix(deferred, n);
      ReleasedDistinct(deferred[..n], rows, owner, players, sessions);
      IdsAdvance(deferred, n);
      assert deferred[..n + 1] == deferred;
      var front := Released(deferred[..n], rows, owner, players, sessions);
      var k := deferred[n].action.clientId;
      if k in rows && IsPending(rows[k], owner) && !Waits(rows[k], players, sessions) {
        OneMoreCurrent(rows, front, rows[k], owner);
      }
    }
  }

  lemma PartsMeaning(rows: seq<Stored>, players: set<Id>, sessions: set<Id>)
    ensures forall st :: st in Independent(rows, players, sessions) <==> st in rows && !Waits(st, players, sessions)
    ensures forall st :: st in Deferred(rows, players, sessions) <==> st in rows && Waits(st, players, sessions)
  {
  }

  lemma PartsOfNothing(rows: seq<Stored>, players: set<Id>, sessions: set<Id>)
    ensures Independent(rows[..0], players, sessions) == [] && Deferred(rows[..0], players, sessions) == []
  {
  }

  lemma PartsAppend(rows: seq<Stored>, i: nat, players: set<Id>, sessions: set<Id>)
    requires i < |rows|
    ensures var waits := Waits(rows[i], players, sessions);
            && Independent(rows[..i + 1], players, sessions)
               == Independent(rows[..i], players, sessions) + (if waits then [] else [rows[i]])
            && Deferred(rows[..i + 1], players, sessions)
               == Deferred(rows[..i], players, sessions) + (if waits then [rows[i]] else [])
  {
    hide Waits;
    FilterAppend(rows[..i], rows[i], (st: Stored) => !Waits(st, players, sessions));
    FilterAppend(rows[..i], rows[i], (st: Stored) => Waits(st, players, sessions));
    assert rows[..i + 1] == rows[..i] + [rows[i]];
  }

  /** Both parts of a snapshot are distinct and current. */
  lemma PartsOfSnapshot(rows: Rows, pending: seq<Stored>, owner: Owner, players: set<Id>, sessions: set<Id>)
    requires DistinctIds(pending) && Snapshot(rows, pending, owner)
    ensures DistinctIds(Independent(pending, players, sessions)) && DistinctIds(Deferred(pending, players, sessions))
    ensures Current(rows, Independent(pending, players, sessions), owner)
  {
    FilterDistinct(pending, (st: Stored) => !Waits(st, players, sessions));
    FilterDistinct(pending, (st: Stored) => Waits(st, players, sessions));
    var phase1 := Independent(pending, players, sessions);
    PartsMeaning(pending, players, sessions);
    forall i | 0 <= i < |phase1|
      ensures var k := phase1[i].action.clientId;
              k in rows && rows[k] == phase1[i] && IsPending(phase1[i], owner)
    {
      assert phase1[i] in phase1;
    }
  }

  function TalliesOf(batch: seq<Stored>, r: Response): Tallies {
    if r.Answered?
    then Tallies(|batch|, Tally(batch, r, Applied), Tally(batch, r, Skipped), Tally(batch, r, Rejected))
    else Tallies(0, 0, 0, 0)
  }

  function Plus(a: Tallies, b: Tallies): Tallies {
    Tallies(a.attempted + b.attempted, a.applied + b.applied, a.skipped + b.skipped, a.rejected + b.rejected)
  }

  datatype Tallies = Tallies(attempted: nat, applied: nat, skipped: nat, rejected: nat)

  class Engine {
    const store: Store

    constructor (s: Store)
      ensures store == s
    {
      store := s;
    }

    ghost predicate Valid()
      reads this, store
    {
      Keyed(store.rows) && Listed(store.order, store.rows.Keys)
    }

    function View(): Device
      reads this, store
    {
      Device(store.order, store.rows, store.players.ids, store.sessions.ids)
    }

    /** `getUnsyncedActions`, as a snapshot of the rows. */
    method ReadPending(owner: Owner) returns (pending: seq<Stored>)
      requires Valid()
      ensures pending == PendingRows(View(), owner)
      ensures DistinctIds(pending) && Snapshot(store.rows, pending, owner)
      ensures forall st :: st in pending <==>
                exists k :: k in store.rows && store.rows[k] == st && st.owner == owner && st.status.Unsynced?
    {
      pending := PendingRows(View(), owner);
      PendingRowsOrdered(View(), owner);
      PendingIsSnapshot(View(), owner);
    }

    method ApplyStoredResolutions(owner: Owner)
      requires Valid()
      modifies store`rows
      ensures Valid()
      ensures store.rows == AllPlayersResolved(old(store.rows), owner, store.players.ids)
    {
      hide PlayerResolved, WithKnownPlayer, PlayerKnown, PendingRows, Listed, PartlyPlayerResolved,
           AllPlayersResolved, DistinctIds;
      hide InCaptureOrder;
      var ids := store.players.ids;
      ghost var was := store.rows;
      var pending := ReadPending(owner);
      var i := 0;
      assert store.rows == PartlyPlayerResolved(was, IdsBefore(pending, 0), owner, ids) by {
        NonePlayerResolved(was, pending, owner, ids);
      }
      while i < |pending|
        invariant 0 <= i <= |pending| && Valid()
        invariant store.rows == PartlyPlayerResolved(was, IdsBefore(pending, i), owner, ids)
      {
        var st := pending[i];
        DistinctAt(pending, i);
        IdsAdvance(pending, i);
        ResolvePlayerOf(was, IdsBefore(pending, i), st, owner, ids);
        PartlyPlayerKeyed(was, IdsBefore(pending, i + 1), owner, ids);
        if PlayerKnown(st.action.body, ids) {
          var ok := store.PutAction(WithKnownPlayer(st, ids), owner);
          assert ok;
        }
        i := i + 1;
      }
      assert pending[..i] == pending;
      AllPlayerDone(was, pending, owner, ids);
    }

    method ApplyStoredSessionResolutions(owner: Owner)
      requires Valid()
      modifies store`rows
      ensures Valid()
      ensures store.rows == AllSessionsResolved(old(store.rows), owner, store.sessions.ids)
    {
      hide SessionResolved, WithKnownSession, SessionKnown, PendingRows, Listed, PartlySessionResolved,
           AllSessionsResolved, DistinctIds;
      hide InCaptureOrder;
      var ids := store.sessions.ids;
      ghost var was := store.rows;
      var pending := ReadPending(owner);
      var i := 0;
      assert store.rows == PartlySessionResolved(was, IdsBefore(pending, 0), owner, ids) by {
        NoneSessionResolved(was, pending, owner, ids);
      }
      while i < |pending|
        invariant 0 <= i <= |pending| && Valid()
        invariant store.rows == PartlySessionResolved(was, IdsBefore(pending, i), owner, ids)
      {
        var st := pending[i];
        DistinctAt(pending, i);
        IdsAdvance(pending, i);
        ResolveSessionOf(was, IdsBefore(pending, i), st, owner, ids);
        PartlySessionKeyed(was, IdsBefore(pending, i + 1), owner, ids);
        if SessionKnown(st.action.body, ids) {
          var ok := store.PutAction(WithKnownSession(st, ids), owner);
          assert ok;
        }
        i := i + 1;
      }
      assert pending[..i] == pending;
      AllSessionDone(was, pending, owner, ids);
    }

    /** `retainAll`: every row stays queued, with one more attempt counted. */
    method RetainAll(batch: seq<Stored>, r: Response, owner: Owner)
      requires Valid() && DistinctIds(batch) && Current(store.rows, batch, owner) && !r.Answered?
      modifies store`rows
      ensures Valid()
      ensures store.rows == AfterTransmit(old(store.rows), batch, r)
    {
      hide Listed;
      ghost var was := store.rows;
      var i := 0;
      while i < |batch|
        invariant 0 <= i <= |batch| && Valid()
        invariant store.rows == PartlySent(was, IdsBefore(batch, i), r)
      {
        DistinctAt(batch, i);
        IdsAdvance(batch, i);
        SentNext(was, IdsBefore(batch, i), batch[i], r);
        var ok := store.BumpActionAttempt(batch[i].action.clientId, batch[i].revision, owner);
        assert ok;
        i := i + 1;
      }
      assert batch[..i] == batch;
    }

    /** `transmit`: reconcile one response, or keep every row for a retry. */
    method Transmit(batch: seq<Stored>, r: Response, owner: Owner)
      returns (outcome: FlushOutcome, players: IdMap, sessions: IdMap, t: Tallies)
      requires Valid() && DistinctIds(batch) && Current(store.rows, batch, owner)
      modifies store`rows
      ensures Valid()
      ensures store.rows == AfterTransmit(old(store.rows), batch, r)
      ensures outcome == if batch == [] || r.Answered? then FlushOk else FailureOf(r)
      ensures outcome.FlushUnauthorized? <==> batch != [] && r.Unauthorized?
      ensures outcome.FlushNetworkError? <==> batch != [] && r.NetworkError?
      ensures players == Learned(batch, r, PlayerEntity) && sessions == Learned(batch, r, SessionEntity)
      ensures t == TalliesOf(batch, r)
    {
      players, sessions, t := map[], map[], Tallies(0, 0, 0, 0);
      LearnedNothing(batch, r, PlayerEntity);
      LearnedNothing(batch, r, SessionEntity);
      if batch == [] {
        return FlushOk, players, sessions, t;
      }
      if !r.Answered? {
        RetainAll(batch, r, owner);
        return FailureOf(r), players, sessions, t;
      }
      outcome := FlushOk;
      players, sessions, t := Reconcile(batch, r, owner);
    }

    /** Reconcile one transmitted row with the answer it got, if any. */
    method ReconcileOne(st: Stored, r: Response, owner: Owner)
      requires Valid() && r.Answered?
      requires st.action.clientId in store.rows && store.rows[st.action.clientId] == st && IsPending(st, owner)
      modifies store`rows
      ensures Valid()
      ensures store.rows == old(store.rows)[st.action.clientId := RowAfter(st, r)]
    {
      var k := st.action.clientId;
      if k !in r.results {
        var ok := store.BumpActionAttempt(k, st.revision, owner);
        assert ok;
      } else {
        var transitioned := store.UpdateActionStatus(k, st.revision, r.results[k], owner);
        assert transitioned;
      }
    }

    method Reconcile(batch: seq<Stored>, r: Response, owner: Owner)
      returns (players: IdMap, sessions: IdMap, t: Tallies)
      requires Valid() && DistinctIds(batch) && Current(store.rows, batch, owner) && r.Answered?
      modifies store`rows
      ensures Valid()
      ensures store.rows == AfterTransmit(old(store.rows), batch, r)
      ensures players == Learned(batch, r, PlayerEntity) && sessions == Learned(batch, r, SessionEntity)
      ensures t == TalliesOf(batch, r)
    {
      hide Listed, Learned, TalliesOf, IdsOf, RowAfter, PartlySent;
      ghost var was := store.rows;
      TalliesBounds(batch, r);
      SentNone(was, batch, r);
      players, sessions, t := map[], map[], Tallies(0, 0, 0, 0);
      LearnedNothing(batch[..0], r, PlayerEntity);
      LearnedNothing(batch[..0], r, SessionEntity);
      var i := 0;
      while i < |batch|
        invariant 0 <= i <= |batch| && Valid()
        invariant store.rows == PartlySent(was, IdsBefore(batch, i), r)
        invariant players == Learned(batch[..i], r, PlayerEntity) && sessions == Learned(batch[..i], r, SessionEntity)
        invariant t == TalliesOf(batch[..i], r)
      {
        var st := batch[i];
        var k := st.action.clientId;
        DistinctAt(batch, i);
        IdsAdvance(batch, i);
        SentNext(was, IdsBefore(batch, i), st, r);
        LearnedAdvance(batch, i, r, PlayerEntity);
        LearnedAdvance(batch, i, r, SessionEntity);
        TalliesAdvance(batch, i, r);
        ReconcileOne(st, r, owner);
        t := t.(attempted := i + 1);
        if k in r.results {
          match r.results[k].status {
            case Applied => t := t.(applied := t.applied + 1);
            case Skipped => t := t.(skipped := t.skipped + 1);
            case Rejected => t := t.(rejected := t.rejected + 1);
          }
        }
        if IssuesId(r, k) && st.action.body.PlayerBody? {
          players := players[k := r.results[k].recordId.value];
        }
        if IssuesId(r, k) && st.action.body.SessionBody? {
          sessions := sessions[k := r.results[k].recordId.value];
        }
        i := i + 1;
      }
      assert batch[..i] == batch;
      AllSent(was, batch, r);
    }

    /** The first request, and what its answer unlocks. */
    method FirstRequest(phase1: seq<Stored>, r: Response, owner: Owner) returns (outcome: FlushOutcome, t: Tallies)
      requires Valid() && DistinctIds(phase1) && Current(store.rows, phase1, owner)
      modifies store
      ensures Valid()
      ensures outcome == (if phase1 == [] || r.Answered? then FlushOk else FailureOf(r)) && t == TalliesOf(phase1, r)
      ensures View() == if phase1 == [] then old(View())
                        else if r.Answered? then AfterFirst(old(View()), owner, phase1, r)
                        else old(View()).(rows := AfterTransmit(old(store.rows), phase1, r))
    {
      hide Listed, AllPlayersResolved, AllSessionsResolved, AfterTransmit, TalliesOf, Current, Learned;
      ghost var p := View();
      LearnedNothing(phase1, r, PlayerEntity);
      LearnedNothing(phase1, r, SessionEntity);
      SentNone(p.rows, [], r);
      var players, sessions;
      outcome, players, sessions, t := Transmit(phase1, r, owner);
      if outcome != FlushOk {
        return;
      }
      if players.Keys != {} {
        store.MergePlayers(players, []);
        ApplyStoredResolutions(owner);
      }
      if sessions.Keys != {} {
        store.MergeSessions(sessions, []);
        ApplyStoredSessionResolutions(owner);
      }
      MergeNothing(p.players, players);
      MergeNothing(p.sessions, sessions);
    }

    /** The second request; its new players unlock nothing in this flush. */
    method SecondRequest(phase2: seq<Stored>, r: Response, owner: Owner) returns (outcome: FlushOutcome, t: Tallies)
      requires Valid() && DistinctIds(phase2) && Current(store.rows, phase2, owner)
      modifies store
      ensures Valid()
      ensures outcome == (if phase2 == [] || r.Answered? then FlushOk else FailureOf(r)) && t == TalliesOf(phase2, r)
      ensures View() == if phase2 == [] then old(View())
                        else if r.Answered? then AfterSecond(old(View()), owner, phase2, r)
                        else old(View()).(rows := AfterTransmit(old(store.rows), phase2, r))
    {
      hide Listed, AllPlayersResolved, AllSessionsResolved, AfterTransmit, TalliesOf, Current, Learned;
      ghost var p := View();
      LearnedNothing(phase2, r, PlayerEntity);
      LearnedNothing(phase2, r, SessionEntity);
      SentNone(p.rows, [], r);
      var players, sessions;
      outcome, players, sessions, t := Transmit(phase2, r, owner);
      if outcome != FlushOk {
        return;
      }
      if players.Keys != {} {
        store.MergePlayers(players, []);
      }
      if sessions.Keys != {} {
        store.MergeSessions(sessions, []);
        ApplyStoredSessionResolutions(owner);
      }
      MergeNothing(p.players, players);
      MergeNothing(p.sessions, sessions);
    }

    method FlushPending(pending: seq<Stored>, owner: Owner, first: Response, second: Response)
      returns (report: FlushReport, t: Tallies)
      requires Valid() && DistinctIds(pending) && Snapshot(store.rows, pending, owner)
      modifies store
      ensures Valid()
      ensures (View(), report) == FlushedPending(old(View()), pending, owner, first, second)
      ensures t == Plus(TalliesOf(report.first, first), TalliesOf(report.second, second))
    {
      hide Listed, AfterTransmit, TalliesOf, Waits, Released, Snapshot, Current, AfterFirst, AfterSecond, Independent,
           Deferred, LocalPlayers, LocalSessions, DistinctIds;
      TalliesBounds([], first);
      TalliesBounds([], second);
      var players, sessions := LocalPlayers(pending), LocalSessions(pending);
      var phase1, deferred := Partition(pending, players, sessions);
      PartsOfSnapshot(store.rows, pending, owner, players, sessions);
      var outcome;
      outcome, t := FirstRequest(phase1, first, owner);
      if outcome != FlushOk {
        return FlushReport(outcome, phase1, []), t;
      }
      var phase2 := CollectReleased(deferred, owner, players, sessions);
      var t2;
      outcome, t2 := SecondRequest(phase2, second, owner);
      report, t := FlushReport(outcome, phase1, phase2), Plus(t, t2);
    }

    /** `doFlush`, with the two responses the network will give. */
    method Flush(owner: Owner, first: Response, second: Response) returns (report: FlushReport, t: Tallies,
                                                                           remaining: nat)
      requires Valid()
      modifies store
      ensures Valid()
      ensures (View(), report) == Flushed(old(View()), owner, first, second)
      ensures report.outcome != FlushEmpty ==>
                t == Plus(TalliesOf(report.first, first), TalliesOf(report.second, second))
      ensures report.outcome != FlushEmpty ==> remaining == |PendingRows(View(), owner)|
    {
      hide Listed, AllPlayersResolved, AllSessionsResolved, TalliesOf, PendingRows, FlushedPending, Snapshot,
           DistinctIds;
      ApplyStoredResolutions(owner);
      ApplyStoredSessionResolutions(owner);
      var pending := ReadPending(owner);
      if pending == [] {
        return FlushReport(FlushEmpty, [], []), Tallies(0, 0, 0, 0), 0;
      }
      report, t := FlushPending(pending, owner, first, second);
      remaining := CountUnsynced(owner);
    }

    method CountUnsynced(owner: Owner) returns (n: nat)
      requires Valid()
      ensures n == |PendingRows(View(), owner)|
    {
      n := |PendingRows(View(), owner)|;
    }

    method Partition(pending: seq<Stored>, players: set<Id>, sessions: set<Id>)
      returns (phase1: seq<Stored>, deferred: seq<Stored>)
      ensures phase1 == Independent(pending, players, sessions)
      ensures deferred == Deferred(pending, players, sessions)
    {
      hide Waits, Independent, Deferred;
      phase1, deferred := [], [];
      PartsOfNothing(pending, players, sessions);
      var i := 0;
      while i < |pending|
        invariant 0 <= i <= |pending|
        invariant phase1 == Independent(pending[..i], players, sessions)
        invariant deferred == Deferred(pending[..i], players, sessions)
      {
        PartsAppend(pending, i, players, sessions);
        if Waits(pending[i], players, sessions) {
          deferred := deferred + [pending[i]];
        } else {
          phase1 := phase1 + [pending[i]];
        }
        i := i + 1;
      }
      assert pending[..i] == pending;
    }

    /** Re-read what was deferred and keep what nothing holds back any more. */
    method CollectReleased(deferred: seq<Stored>, owner: Owner, players: set<Id>, sessions: set<Id>)
      returns (phase2: seq<Stored>)
      requires Valid() && DistinctIds(deferred)
      ensures phase2 == Released(deferred, store.rows, owner, players, sessions)
      ensures DistinctIds(phase2) && Current(store.rows, phase2, owner)
    {
      phase2 := [];
      var i := 0;
      while i < |deferred|
        invariant 0 <= i <= |deferred|
        invariant phase2 == Released(deferred[..i], store.rows, owner, players, sessions)
      {
        var k := deferred[i].action.clientId;
        assert deferred[..i + 1][..i] == deferred[..i];
        if k in store.rows {
          var current := store.rows[k];
          if IsPending(current, owner) && !Waits(current, players, sessions) {
            phase2 := phase2 + [current];
          }
        }
        i := i + 1;
      }
      assert deferred[..i] == deferred;
      ReleasedDistinct(deferred, store.rows, owner, players, sessions);
    }
  }
}
