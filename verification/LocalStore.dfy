/** The durable queue on the device: encrypted rows that are only ever replaced
    under a revision guard, and the local-to-server id maps. */
module LocalStore {
  import opened Basics
  import opened Schema
  import Rbac

  /** The exact authorisation claims a local row is bound to; the opaque scope
      stored on the row is an injective digest of them. */
  datatype Owner = Owner(subject: Id, role: string, location: Option<Id>, school: Option<Id>)

  function ServerScope(o: Owner): Option<Rbac.Scope> {
    Rbac.Derive(Rbac.Principal(o.role, o.location, o.school))
  }

  datatype Status = Unsynced | SyncApplied | SyncSkipped | SyncRejected | Blocked

  datatype Stored = Stored(
    owner: Owner,
    action: Action,
    status: Status,
    attempts: nat,
    reason: string,
    revision: nat)

  type Rows = map<Id, Stored>

  /** Every row is stored under its own client id. */
  ghost predicate Keyed(rows: Rows) {
    forall k :: k in rows ==> rows[k].action.clientId == k
  }

  /** `order` enumerates the rows, each once. */
  ghost predicate Listed(order: seq<Id>, keys: set<Id>) {
    && (forall k :: k in order <==> k in keys)
    && (forall i, j :: 0 <= i < j < |order| ==> order[i] != order[j])
  }

  // ------------------------------------------------------------------
  // Guarded replacement
  // ------------------------------------------------------------------

  predicate GuardHolds(rows: Rows, st: Stored, owner: Owner) {
    && st.owner == owner
    && st.action.clientId in rows
    && rows[st.action.clientId].owner == owner
    && rows[st.action.clientId].revision == st.revision
  }

  /** `putActionUnlocked`: replace the row if nobody has since it was read. */
  function Replaced(rows: Rows, st: Stored, owner: Owner): Rows {
    if GuardHolds(rows, st, owner) then rows[st.action.clientId := st.(revision := st.revision + 1)] else rows
  }

  /** What the server's answer turns a row into. */
  function StatusOf(s: ActionStatus): Status {
    match s
    case Applied => SyncApplied
    case Skipped => SyncSkipped
    case Rejected => SyncRejected
  }

  function Reconciled(st: Stored, r: ActionResult): Stored {
    st.(status := StatusOf(r.status), reason := if r.status.Rejected? then r.reason else st.reason)
  }

  /** The row says what the server said of it. */
  predicate AnsweredBy(st: Stored, r: ActionResult) {
    && (st.status.SyncApplied? <==> r.status.Applied?)
    && (st.status.SyncSkipped? <==> r.status.Skipped?)
    && (st.status.SyncRejected? <==> r.status.Rejected?)
    && !st.status.Unsynced? && !st.status.Blocked?
    && (r.status.Rejected? ==> st.reason == r.reason)
  }

  function Bumped(st: Stored): Stored {
    st.(attempts := st.attempts + 1)
  }

  // ------------------------------------------------------------------
  // Resolving local ids
  // ------------------------------------------------------------------

  type IdMap = map<Id, nat>

  /** The local player an action still refers to. */
  function LocalPlayer(b: Body): Option<Id> {
    var r := b.PlayerRef();
    if r.Some? && r.value.Local? then Some(r.value.clientId) else None
  }

  function LocalSession(b: Body): Option<Id> {
    var r := b.SessionRef();
    if r.Some? && r.value.Local? then Some(r.value.clientId) else None
  }

  predicate PlayerKnown(b: Body, players: IdMap) {
    LocalPlayer(b).Some? && LocalPlayer(b).value in players
  }

  predicate SessionKnown(b: Body, sessions: IdMap) {
    LocalSession(b).Some? && LocalSession(b).value in sessions
  }

  function WithKnownPlayer(st: Stored, players: IdMap): Stored {
    if PlayerKnown(st.action.body, players)
    then st.(action := st.action.(body := st.action.body.WithPlayer(players[LocalPlayer(st.action.body).value])))
    else st
  }

  function WithKnownSession(st: Stored, sessions: IdMap): Stored {
    if SessionKnown(st.action.body, sessions)
    then st.(action := st.action.(body := st.action.body.WithSession(sessions[LocalSession(st.action.body).value])))
    else st
  }

  /** The action but for which row its references name. */
  function Blurred(a: Action): Action {
    var b := a.body;
    var withoutPlayer := if b.PlayerRef().Some? then b.WithPlayer(0) else b;
    var withoutSession := if withoutPlayer.SessionRef().Some? then withoutPlayer.WithSession(0) else withoutPlayer;
    a.(body := withoutSession)
  }

  lemma ResolvingKeepsTheRest(st: Stored, m: IdMap)
    ensures Blurred(WithKnownPlayer(st, m).action) == Blurred(st.action)
    ensures Blurred(WithKnownSession(st, m).action) == Blurred(st.action)
  {
  }

  // ------------------------------------------------------------------
  // The store
  // ------------------------------------------------------------------

  /** A map sealed together with its revision; revision 0 is an absent entry. */
  datatype Versioned = Versioned(ids: IdMap, revision: nat)

  /** A sealed record of one of the local stores. */
  datatype LocalRecord = LocalRecord(owner: Owner, content: string)

  type Records = map<(Id, Id), LocalRecord>

  /** The queue once a batch of captures is in it. */
  function Captured(rows: Rows, actions: seq<Action>, owner: Owner): Rows {
    if actions == [] then rows
    else
      var last := actions[|actions| - 1];
      Captured(rows, actions[..|actions| - 1], owner)[last.clientId := Stored(owner, last, Unsynced, 0, "", 1)]
  }

  function Recorded(records: Records, writes: seq<((Id, Id), LocalRecord)>): Records {
    if writes == [] then records
    else Recorded(records, writes[..|writes| - 1])[writes[|writes| - 1].0 := writes[|writes| - 1].1]
  }

  function ClientIds(actions: seq<Action>): (ids: seq<Id>)
    ensures |ids| == |actions|
    ensures forall i :: 0 <= i < |actions| ==> ids[i] == actions[i].clientId
  {
    if actions == [] then [] else ClientIds(actions[..|actions| - 1]) + [actions[|actions| - 1].clientId]
  }

  function IdSet(actions: seq<Action>): set<Id> {
    set i | 0 <= i < |actions| :: actions[i].clientId
  }

  ghost predicate FreshCaptures(rows: Rows, actions: seq<Action>) {
    && (forall i :: 0 <= i < |actions| ==> actions[i].clientId !in rows)
    && (forall i, j :: 0 <= i < j < |actions| ==> actions[i].clientId != actions[j].clientId)
  }

  lemma IdSetOneMore(actions: seq<Action>)
    requires actions != []
    ensures IdSet(actions) == IdSet(actions[..|actions| - 1]) + {actions[|actions| - 1].clientId}
  {
    var n := |actions| - 1;
    var front := actions[..n];
    forall k | k in IdSet(actions) ensures k in IdSet(front) + {actions[n].clientId} {
      var i :| 0 <= i < |actions| && actions[i].clientId == k;
      assert i < n ==> front[i].clientId == k;
    }
    forall k | k in IdSet(front) ensures k in IdSet(actions) {
      var i :| 0 <= i < n && front[i].clientId == k;
      assert actions[i].clientId == k;
    }
  }

  ghost predicate Queued(after: Rows, actions: seq<Action>, owner: Owner) {
    forall i :: 0 <= i < |actions| ==>
      var k := actions[i].clientId;
      k in after && after[k] == Stored(owner, actions[i], Unsynced, 0, "", 1)
  }

  lemma QueuedOneMore(before: Rows, actions: seq<Action>, owner: Owner)
    requires actions != [] && Queued(before, actions[..|actions| - 1], owner)
    requires forall i :: 0 <= i < |actions| - 1 ==> actions[i].clientId != actions[|actions| - 1].clientId
    ensures var last := actions[|actions| - 1];
            Queued(before[last.clientId := Stored(owner, last, Unsynced, 0, "", 1)], actions, owner)
  {
    var front := actions[..|actions| - 1];
    assert forall i :: 0 <= i < |front| ==> front[i] == actions[i];
  }

  lemma FreshFront(rows: Rows, actions: seq<Action>)
    requires actions != [] && FreshCaptures(rows, actions)
    ensures FreshCaptures(rows, actions[..|actions| - 1])
    ensures forall i :: 0 <= i < |actions| - 1 ==> actions[i].clientId != actions[|actions| - 1].clientId
    ensures actions[|actions| - 1].clientId !in rows
  {
  }

  /** Each capture is queued once, as it was made, and no other row is touched. */
  lemma {:induction false} CapturedMeaning(rows: Rows, actions: seq<Action>, owner: Owner)
    requires FreshCaptures(rows, actions)
    ensures var after := Captured(rows, actions, owner);
            && after.Keys == rows.Keys + IdSet(actions) && Queued(after, actions, owner)
            && (forall k :: k in rows ==> k in after && after[k] == rows[k])
  {
    if actions != [] {
      var n := |actions| - 1;
      FreshFront(rows, actions);
      CapturedMeaning(rows, actions[..n], owner);
      IdSetOneMore(actions);
      QueuedOneMore(Captured(rows, actions[..n], owner), actions, owner);
      hide IdSet, FreshCaptures, Queued;
    }
  }

  lemma ListedOneMore(order: seq<Id>, keys: set<Id>, k: Id)
    requires Listed(order, keys) && k !in keys
    ensures Listed(order + [k], keys + {k})
  {
  }

  lemma {:induction false} ListedCaptures(order: seq<Id>, rows: Rows, actions: seq<Action>)
    requires Listed(order, rows.Keys) && FreshCaptures(rows, actions)
    ensures Listed(order + ClientIds(actions), rows.Keys + IdSet(actions))
  {
    hide Listed;
    if actions == [] {
      assert order + ClientIds(actions) == order;
      assert rows.Keys + IdSet(actions) == rows.Keys;
    } else {
      var n := |actions| - 1;
      var front, last := actions[..n], actions[n].clientId;
      FreshFront(rows, actions);
      hide FreshCaptures;
      ListedCaptures(order, rows, front);
      var keys := rows.Keys + IdSet(front);
      ListedOneMore(order + ClientIds(front), keys, last);
      assert order + ClientIds(front) + [last] == order + (ClientIds(front) + [last]);
      IdSetOneMore(actions);
      assert keys + {last} == rows.Keys + IdSet(actions);
    }
  }

  class Store {
    var order: seq<Id>
    var rows: Rows
    var records: Records
    var players: Versioned
    var sessions: Versioned

    constructor ()
      ensures order == [] && rows == map[] && records == map[] && players == sessions == Versioned(map[], 0)
    {
      order, records := [], map[];
      rows, players, sessions := map[], Versioned(map[], 0), Versioned(map[], 0);
    }

    /** `enqueueAction`: a capture under a fresh client id. */
    method EnqueueAction(action: Action, owner: Owner)
      requires Keyed(rows) && Listed(order, rows.Keys) && action.clientId !in rows
      modifies this`rows, this`order
      ensures Keyed(rows) && Listed(order, rows.Keys)
      ensures order == old(order) + [action.clientId]
      ensures rows == old(rows)[action.clientId := Stored(owner, action, Unsynced, 0, "", 1)]
    {
      order := order + [action.clientId];
      rows := rows[action.clientId := Stored(owner, action, Unsynced, 0, "", 1)];
    }

    /** `commitPreparedCapture`: local records and their queue rows in one
        transaction. The owner is checked before the first write, after each and
        before the commit; `lostAt` is the check that finds it replaced. */
    method CommitPreparedCapture(writes: seq<((Id, Id), LocalRecord)>, actions: seq<Action>, owner: Owner,
                                 lostAt: Option<nat>)
      returns (ok: bool)
      requires Keyed(rows) && Listed(order, rows.Keys) && FreshCaptures(rows, actions)
      modifies this`rows, this`records, this`order
      ensures Keyed(rows) && Listed(order, rows.Keys)
      ensures ok <==> lostAt.None? || lostAt.value >= |writes| + |actions| + 2
      ensures ok ==> rows == Captured(old(rows), actions, owner) && records == Recorded(old(records), writes)
                     && order == old(order) + ClientIds(actions)
      ensures !ok ==> rows == old(rows) && records == old(records) && order == old(order)
    {
      hide Listed, FreshCaptures;
      var newRecords, newRows, check := records, rows, 0;
      if lostAt == Some(check) {
        return false;
      }
      check := check + 1;
      for i := 0 to |writes|
        invariant newRecords == Recorded(records, writes[..i])
        invariant check == i + 1 && (lostAt.Some? ==> lostAt.value >= check)
      {
        assert writes[..i + 1][..i] == writes[..i];
        newRecords := newRecords[writes[i].0 := writes[i].1];
        if lostAt == Some(check) {
          return false;
        }
        check := check + 1;
      }
      assert writes[..|writes|] == writes;
      for i := 0 to |actions|
        invariant newRows == Captured(rows, actions[..i], owner)
        invariant check == |writes| + i + 1 && (lostAt.Some? ==> lostAt.value >= check)
      {
        assert actions[..i + 1][..i] == actions[..i];
        newRows := newRows[actions[i].clientId := Stored(owner, actions[i], Unsynced, 0, "", 1)];
        if lostAt == Some(check) {
          return false;
        }
        check := check + 1;
      }
      assert actions[..|actions|] == actions;
      if lostAt == Some(check) {
        return false;
      }
      CapturedMeaning(rows, actions, owner);
      ListedCaptures(order, rows, actions);
      rows, records, order := newRows, newRecords, order + ClientIds(actions);
      ok := true;
    }

    method PutAction(st: Stored, owner: Owner) returns (ok: bool)
      requires Keyed(rows)
      modifies this`rows
      ensures Keyed(rows)
      ensures ok <==> && st.owner == owner && st.action.clientId in old(rows)
                      && old(rows)[st.action.clientId].owner == owner
                      && old(rows)[st.action.clientId].revision == st.revision
      ensures rows == Replaced(old(rows), st, owner)
      ensures rows == if ok then old(rows)[st.action.clientId := st.(revision := st.revision + 1)] else old(rows)
    {
      if !GuardHolds(rows, st, owner) {
        return false;
      }
      rows := rows[st.action.clientId := st.(revision := st.revision + 1)];
      ok := true;
    }

    /** Only an unsynced row at the expected revision counts the attempt. */
    method BumpActionAttempt(clientId: Id, revision: nat, owner: Owner) returns (ok: bool)
      requires Keyed(rows)
      modifies this`rows
      ensures Keyed(rows)
      ensures ok <==> clientId in old(rows) && old(rows)[clientId].owner == owner
                      && old(rows)[clientId].status.Unsynced? && old(rows)[clientId].revision == revision
      ensures rows == if ok then old(rows)[clientId := Bumped(old(rows)[clientId]).(revision := revision + 1)]
                      else old(rows)
      ensures ok ==> rows[clientId] == old(rows)[clientId].(attempts := old(rows)[clientId].attempts + 1,
                                                            revision := revision + 1)
    {
      if clientId !in rows || rows[clientId].owner != owner {
        return false;
      }
      var st := rows[clientId];
      if !st.status.Unsynced? || st.revision != revision {
        return false;
      }
      ok := PutAction(Bumped(st), owner);
    }

    method UpdateActionStatus(clientId: Id, revision: nat, r: ActionResult, owner: Owner) returns (ok: bool)
      requires Keyed(rows)
      modifies this`rows
      ensures Keyed(rows)
      ensures ok <==>
                clientId in old(rows) && old(rows)[clientId].owner == owner && old(rows)[clientId].revision == revision
      ensures rows == if ok then old(rows)[clientId := Reconciled(old(rows)[clientId], r).(revision := revision + 1)]
                      else old(rows)
      ensures ok ==> && AnsweredBy(rows[clientId], r) && rows[clientId].revision == revision + 1
                     && rows[clientId].action == old(rows)[clientId].action
                     && rows[clientId].owner == owner && rows[clientId].attempts == old(rows)[clientId].attempts
                     && (!r.status.Rejected? ==> rows[clientId].reason == old(rows)[clientId].reason)
    {
      if clientId !in rows || rows[clientId].owner != owner || rows[clientId].revision != revision {
        return false;
      }
      ok := PutAction(Reconciled(rows[clientId], r), owner);
    }

    /** `mergeOwnerMetadata` for the player map. `rivals` are the merges other tabs
        commit between this tab's read and its write; each one costs a retry. */
    method MergePlayers(additions: IdMap, rivals: seq<IdMap>)
      modifies this`players
      ensures players.ids == AllMerged(old(players).ids, rivals) + additions
      ensures players.revision == old(players).revision + |rivals| + 1
    {
      var lost := 0;
      while true
        invariant 0 <= lost <= |rivals|
        invariant players.ids == AllMerged(old(players).ids, rivals[..lost])
        invariant players.revision == old(players).revision + lost
        decreases |rivals| - lost
      {
        var snapshot := players;
        if lost < |rivals| {
          players := Versioned(players.ids + rivals[lost], players.revision + 1);
          assert rivals[..lost + 1][..lost] == rivals[..lost];
          lost := lost + 1;
        }
        if players.revision == snapshot.revision {
          players := Versioned(snapshot.ids + additions, snapshot.revision + 1);
          assert rivals[..lost] == rivals;
          return;
        }
      }
    }

    /** The same merge for the session map. */
    method MergeSessions(additions: IdMap, rivals: seq<IdMap>)
      modifies this`sessions
      ensures sessions.ids == AllMerged(old(sessions).ids, rivals) + additions
      ensures sessions.revision == old(sessions).revision + |rivals| + 1
    {
      var lost := 0;
      while true
        invariant 0 <= lost <= |rivals|
        invariant sessions.ids == AllMerged(old(sessions).ids, rivals[..lost])
        invariant sessions.revision == old(sessions).revision + lost
        decreases |rivals| - lost
      {
        var snapshot := sessions;
        if lost < |rivals| {
          sessions := Versioned(sessions.ids + rivals[lost], sessions.revision + 1);
          assert rivals[..lost + 1][..lost] == rivals[..lost];
          lost := lost + 1;
        }
        if sessions.revision == snapshot.revision {
          sessions := Versioned(snapshot.ids + additions, snapshot.revision + 1);
          assert rivals[..lost] == rivals;
          return;
        }
      }
    }
  }

  function AllMerged(ids: IdMap, merges: seq<IdMap>): IdMap {
    if merges == [] then ids else AllMerged(ids, merges[..|merges| - 1]) + merges[|merges| - 1]
  }

  /** No committed mapping is lost, however many merges land in between. */
  lemma {:induction false} MergesKeepEveryMapping(ids: IdMap, merges: seq<IdMap>)
    ensures ids.Keys <= AllMerged(ids, merges).Keys
    ensures forall i :: 0 <= i < |merges| ==> merges[i].Keys <= AllMerged(ids, merges).Keys
    decreases |merges|
  {
    if merges != [] {
      MergesKeepEveryMapping(ids, merges[..|merges| - 1]);
      assert forall i :: 0 <= i < |merges| - 1 ==> merges[i] == merges[..|merges| - 1][i];
    }
  }
}
