/** Rows an older version of the app left in plaintext: moved into an encrypted
    quarantine before the database may be used, and from there into the sealed
    store of the owner they provably belong to. */
module Quarantine {
  import opened Basics
  import opened Schema
  import opened LocalStore

  // ------------------------------------------------------------------
  // State
  // ------------------------------------------------------------------

  datatype MetaKind = PlayerIds | SessionIds | LastSync

  /** Where a legacy row lives: a primary key of one store. */
  datatype Slot = QueueSlot(clientId: Id) | RecordSlot(store: Id, localId: Id) | MetaSlot(kind: MetaKind, scope: Id)

  /** A legacy row. `tag` tells equal rows apart; `usable` says whether its fields
      (and the key its personal part was sealed with) allow a migration, and
      `ids` is a resolution map, or `None` if it is not one. */
  datatype Source =
    | RowSource(tag: nat, scope: Id, usable: bool)
    | MapSource(tag: nat, ids: Option<IdMap>)
    | TimeSource(tag: nat)

  datatype Row = Plain(source: Source) | SealedRow(owner: Owner, source: Source)

  datatype Held = Held(slot: Slot, source: Source)

  /** Where the history of a legacy row has brought it. */
  datatype Place =
    | InTable(slot: Slot)
    | InQuarantine(id: nat)
    | Merged(owner: Owner, kind: MetaKind)
    | Dropped
    | Rewritten
    | Lost

  /** `original` and `whereabouts` are history: each row as it was first written,
      and the place it is in. */
  datatype System = System(
    table: map<Slot, Row>,
    quarantine: map<nat, Held>,
    maps: map<(Owner, MetaKind), Versioned>,
    next: nat,
    original: map<nat, Held>,
    whereabouts: map<nat, Place>)

  predicate Fits(slot: Slot, source: Source) {
    match slot
    case MetaSlot(LastSync, _) => source.TimeSource?
    case MetaSlot(_, _) => source.MapSource?
    case _ => source.RowSource?
  }

  function OpaqueOf(s: System, o: Owner, kind: MetaKind): Versioned {
    if (o, kind) in s.maps then s.maps[(o, kind)] else Versioned(map[], 0)
  }

  // ------------------------------------------------------------------
  // Transactions
  // ------------------------------------------------------------------

  /** Each step is one committed (or aborted) transaction. `observed` is what an
      earlier read found, however long ago. */
  datatype Step =
    | Write(slot: Slot, source: Source)
    | Seal(slot: Slot, found: Source)
    | MigrateRow(id: nat, observed: Held, owner: Owner)
    | MergeMap(id: nat, observed: Held, owner: Owner, read: Versioned)
    | DropTimestamp(id: nat, observed: Held)

  predicate Enabled(s: System, step: Step) {
    match step
    case Write(slot, source) =>
      source.tag !in s.original && Fits(slot, source) && (slot in s.table ==> s.table[slot].Plain?)
    case Seal(_, _) => true
    case MigrateRow(_, observed, _) => observed.source.RowSource? && observed.source.usable
    case MergeMap(_, observed, _, _) => observed.source.MapSource? && observed.source.ids.Some?
                                        && observed.slot.MetaSlot?
    case DropTimestamp(_, observed) => observed.source.TimeSource?
  }

  function Moved(whereabouts: map<nat, Place>, tag: nat, place: Place): map<nat, Place> {
    whereabouts[tag := place]
  }

  /** Whatever occupies `slot` gives way. */
  function Displaced(s: System, slot: Slot, fate: Place): map<nat, Place> {
    if slot in s.table then Moved(s.whereabouts, s.table[slot].source.tag, fate) else s.whereabouts
  }

  function Written(s: System, slot: Slot, source: Source): System {
    s.(table := s.table[slot := Plain(source)], original := s.original[source.tag := Held(slot, source)],
       whereabouts := Moved(Displaced(s, slot, Rewritten), source.tag, InTable(slot)))
  }

  /** One transaction of `quarantineLegacyRows`: compare, add, delete. */
  function SealedAway(s: System, slot: Slot, observed: Source): System {
    if slot in s.table && s.table[slot] == Plain(observed) then
      s.(table := s.table - {slot}, quarantine := s.quarantine[s.next := Held(slot, observed)], next := s.next + 1,
         whereabouts := Moved(s.whereabouts, observed.tag, InQuarantine(s.next)))
    else s
  }

  /** A queue or record row is put under its own key, whatever is there. */
  function Migrated(s: System, id: nat, observed: Held, owner: Owner): System {
    if id in s.quarantine && s.quarantine[id] == observed then
      s.(table := s.table[observed.slot := SealedRow(owner, observed.source)], quarantine := s.quarantine - {id},
         whereabouts := Moved(Displaced(s, observed.slot, Lost), observed.source.tag, InTable(observed.slot)))
    else s
  }

  /** A legacy map is merged into the owner's: existing entries win. */
  function MapMerged(s: System, id: nat, observed: Held, owner: Owner, read: Versioned): System
    requires observed.source.MapSource? && observed.source.ids.Some? && observed.slot.MetaSlot?
  {
    if id in s.quarantine && s.quarantine[id] == observed
       && OpaqueOf(s, owner, observed.slot.kind).revision == read.revision
    then
      s.(maps := s.maps[(owner, observed.slot.kind) :=
                          Versioned(observed.source.ids.value + read.ids, read.revision + 1)],
         quarantine := s.quarantine - {id},
         whereabouts := Moved(s.whereabouts, observed.source.tag, Merged(owner, observed.slot.kind)))
    else s
  }

  function TimestampDropped(s: System, id: nat, observed: Held): System {
    if id in s.quarantine && s.quarantine[id] == observed then
      s.(quarantine := s.quarantine - {id}, whereabouts := Moved(s.whereabouts, observed.source.tag, Dropped))
    else s
  }

  function Next(s: System, step: Step): System
    requires Enabled(s, step)
  {
    match step
    case Write(slot, source) => Written(s, slot, source)
    case Seal(slot, observed) => SealedAway(s, slot, observed)
    case MigrateRow(id, observed, owner) => Migrated(s, id, observed, owner)
    case MergeMap(id, observed, owner, read) => MapMerged(s, id, observed, owner, read)
    case DropTimestamp(id, observed) => TimestampDropped(s, id, observed)
  }

  // ------------------------------------------------------------------
  // Conservation
  // ------------------------------------------------------------------

  /** The row with this tag is at `place`, unaltered. */
  ghost predicate At(s: System, tag: nat, place: Place)
    requires tag in s.original
  {
    var was := s.original[tag];
    match place
    case InTable(slot) => slot == was.slot && slot in s.table && s.table[slot].source == was.source
    case InQuarantine(id) => id in s.quarantine && s.quarantine[id] == was
    case Merged(owner, kind) =>
      && was.source.MapSource? && was.source.ids.Some?
      && was.source.ids.value.Keys <= OpaqueOf(s, owner, kind).ids.Keys
    case Dropped => was.source.TimeSource?
    case Rewritten => true
    case Lost => true
  }

  ghost predicate Tagged(s: System) {
    && s.whereabouts.Keys == s.original.Keys
    && forall tag :: tag in s.original ==>
         s.original[tag].source.tag == tag && Fits(s.original[tag].slot, s.original[tag].source)
  }

  ghost predicate AllAt(s: System) {
    forall tag :: tag in s.original && tag in s.whereabouts ==> At(s, tag, s.whereabouts[tag])
  }

  ghost predicate TableOk(s: System) {
    forall slot :: slot in s.table ==>
      var tag := s.table[slot].source.tag;
      tag in s.original && tag in s.whereabouts && s.whereabouts[tag] == InTable(slot)
  }

  ghost predicate QuarantineOk(s: System) {
    forall id :: id in s.quarantine ==>
      var tag := s.quarantine[id].source.tag;
      id < s.next && tag in s.original && tag in s.whereabouts && s.whereabouts[tag] == InQuarantine(id)
  }

  ghost predicate Inv(s: System) {
    Tagged(s) && AllAt(s) && TableOk(s) && QuarantineOk(s)
  }

  /** A map is read before it is merged: the guard leaves only a current read. */
  predicate ReadsTruly(s: System, step: Step) {
    step.MergeMap? ==>
      step.observed.slot.MetaSlot? && var current := OpaqueOf(s, step.owner, step.observed.slot.kind);
      step.read.revision == current.revision ==> step.read == current
  }

  lemma Fold(s: System)
    requires Tagged(s) && AllAt(s) && TableOk(s) && QuarantineOk(s)
    ensures Inv(s)
  {
  }

  lemma WriteBooks(s: System, slot: Slot, source: Source)
    requires Inv(s) && Enabled(s, Write(slot, source))
    ensures Tagged(Written(s, slot, source)) && TableOk(Written(s, slot, source))
    ensures QuarantineOk(Written(s, slot, source))
  {
    hide AllAt;
    var r := Written(s, slot, source);
    assert Tagged(r) by { hide TableOk, QuarantineOk; }
    hide Fits;
  }

  lemma WritePlaces(s: System, slot: Slot, source: Source)
    requires Inv(s) && Enabled(s, Write(slot, source))
    ensures AllAt(Written(s, slot, source))
  {
    hide Fits;
  }

  lemma WriteKeeps(s: System, slot: Slot, source: Source)
    requires Inv(s) && Enabled(s, Write(slot, source))
    ensures Inv(Written(s, slot, source))
  {
    hide Inv;
    WriteBooks(s, slot, source);
    WritePlaces(s, slot, source);
    Fold(Written(s, slot, source));
  }

  lemma SealBooks(s: System, slot: Slot, observed: Source)
    requires Inv(s)
    ensures Tagged(SealedAway(s, slot, observed)) && TableOk(SealedAway(s, slot, observed))
    ensures QuarantineOk(SealedAway(s, slot, observed))
  {
    hide AllAt;
    var r := SealedAway(s, slot, observed);
    assert Tagged(r) by { hide TableOk, QuarantineOk; }
    hide Fits;
  }

  lemma SealPlaces(s: System, slot: Slot, observed: Source)
    requires Inv(s)
    ensures AllAt(SealedAway(s, slot, observed))
  {
    hide Fits;
  }

  lemma SealKeeps(s: System, slot: Slot, observed: Source)
    requires Inv(s)
    ensures Inv(SealedAway(s, slot, observed))
  {
    hide Inv;
    SealBooks(s, slot, observed);
    SealPlaces(s, slot, observed);
    Fold(SealedAway(s, slot, observed));
  }

  lemma MigrateTables(s: System, id: nat, observed: Held, owner: Owner)
    requires Inv(s) && Enabled(s, MigrateRow(id, observed, owner))
    ensures TableOk(Migrated(s, id, observed, owner)) && QuarantineOk(Migrated(s, id, observed, owner))
  {
    hide AllAt, Fits;
  }

  lemma MigrateBooks(s: System, id: nat, observed: Held, owner: Owner)
    requires Inv(s) && Enabled(s, MigrateRow(id, observed, owner))
    ensures Tagged(Migrated(s, id, observed, owner)) && TableOk(Migrated(s, id, observed, owner))
    ensures QuarantineOk(Migrated(s, id, observed, owner))
  {
    MigrateTables(s, id, observed, owner);
    hide AllAt;
    hide Fits, TableOk;
  }

  lemma MigratePlaces(s: System, id: nat, observed: Held, owner: Owner)
    requires Inv(s) && Enabled(s, MigrateRow(id, observed, owner))
    ensures AllAt(Migrated(s, id, observed, owner))
  {
    hide Fits;
  }

  lemma MigrateKeeps(s: System, id: nat, observed: Held, owner: Owner)
    requires Inv(s) && Enabled(s, MigrateRow(id, observed, owner))
    ensures Inv(Migrated(s, id, observed, owner))
  {
    hide Inv;
    MigrateBooks(s, id, observed, owner);
    MigratePlaces(s, id, observed, owner);
    Fold(Migrated(s, id, observed, owner));
  }

  lemma MergeBooks(s: System, id: nat, observed: Held, owner: Owner, read: Versioned)
    requires Inv(s) && Enabled(s, MergeMap(id, observed, owner, read))
    requires ReadsTruly(s, MergeMap(id, observed, owner, read))
    ensures Tagged(MapMerged(s, id, observed, owner, read)) && TableOk(MapMerged(s, id, observed, owner, read))
    ensures QuarantineOk(MapMerged(s, id, observed, owner, read))
  {
    hide AllAt;
    var r := MapMerged(s, id, observed, owner, read);
    assert Tagged(r) by { hide TableOk, QuarantineOk; }
    hide Fits;
  }

  lemma MergePlaces(s: System, id: nat, observed: Held, owner: Owner, read: Versioned)
    requires Inv(s) && Enabled(s, MergeMap(id, observed, owner, read))
    requires ReadsTruly(s, MergeMap(id, observed, owner, read))
    ensures AllAt(MapMerged(s, id, observed, owner, read))
  {
    hide Fits;
  }

  lemma MergeKeeps(s: System, id: nat, observed: Held, owner: Owner, read: Versioned)
    requires Inv(s) && Enabled(s, MergeMap(id, observed, owner, read))
    requires ReadsTruly(s, MergeMap(id, observed, owner, read))
    ensures Inv(MapMerged(s, id, observed, owner, read))
  {
    hide Inv;
    MergeBooks(s, id, observed, owner, read);
    MergePlaces(s, id, observed, owner, read);
    Fold(MapMerged(s, id, observed, owner, read));
  }

  lemma DropBooks(s: System, id: nat, observed: Held)
    requires Inv(s) && Enabled(s, DropTimestamp(id, observed))
    ensures Tagged(TimestampDropped(s, id, observed)) && TableOk(TimestampDropped(s, id, observed))
    ensures QuarantineOk(TimestampDropped(s, id, observed))
  {
    hide AllAt;
    var r := TimestampDropped(s, id, observed);
    assert Tagged(r) by { hide TableOk, QuarantineOk; }
    hide Fits;
  }

  lemma DropPlaces(s: System, id: nat, observed: Held)
    requires Inv(s) && Enabled(s, DropTimestamp(id, observed))
    ensures AllAt(TimestampDropped(s, id, observed))
  {
    hide Fits;
  }

  lemma DropKeeps(s: System, id: nat, observed: Held)
    requires Inv(s) && Enabled(s, DropTimestamp(id, observed))
    ensures Inv(TimestampDropped(s, id, observed))
  {
    hide Inv;
    DropBooks(s, id, observed);
    DropPlaces(s, id, observed);
    Fold(TimestampDropped(s, id, observed));
  }

  lemma StepKeeps(s: System, step: Step)
    requires Inv(s) && Enabled(s, step) && ReadsTruly(s, step)
    ensures Inv(Next(s, step))
  {
    hide Inv, Fits;
    match step {
      case Write(slot, source) => WriteKeeps(s, slot, source);
      case Seal(slot, observed) => SealKeeps(s, slot, observed);
      case MigrateRow(id, observed, owner) => MigrateKeeps(s, id, observed, owner);
      case MergeMap(id, observed, owner, read) => MergeKeeps(s, id, observed, owner, read);
      case DropTimestamp(id, observed) => DropKeeps(s, id, observed);
    }
  }

  /** At every transaction boundary each legacy row is in exactly one place, with
      the content it was written with; a resolution map that has been merged has
      every key in the owner's map, and nothing but a timestamp is ever dropped. */
  lemma ExactlyOnePlace(s: System, tag: nat)
    requires Inv(s) && tag in s.original
    ensures var was := s.original[tag];
            var inTable := was.slot in s.table && s.table[was.slot].source == was.source;
            var place := s.whereabouts[tag];
            && (inTable <==> place == InTable(was.slot))
            && (forall slot :: slot in s.table && s.table[slot].source.tag == tag ==> slot == was.slot && inTable)
            && (forall id :: id in s.quarantine && s.quarantine[id].source.tag == tag ==>
                  place == InQuarantine(id) && s.quarantine[id] == was)
            && (place.InQuarantine? ==> place.id in s.quarantine && s.quarantine[place.id] == was)
            && (place.Dropped? ==> was.slot.MetaSlot? && was.slot.kind.LastSync?)
            && (place.Merged? ==> was.source.ids.value.Keys <= OpaqueOf(s, place.owner, place.kind).ids.Keys)
  {
    assert At(s, tag, s.whereabouts[tag]);
    if s.whereabouts[tag].Dropped? {
      assert Fits(s.original[tag].slot, s.original[tag].source);
    }
  }

  /** Nothing has been lost. */
  ghost predicate Whole(s: System) {
    forall tag :: tag in s.whereabouts ==> !s.whereabouts[tag].Lost?
  }

  /** A step loses a row exactly when it is a migration that takes effect over an
      occupied key: the code does not look whether the target key is free. */
  lemma LosesIff(s: System, step: Step)
    requires Inv(s) && Enabled(s, step) && Whole(s)
    ensures Whole(Next(s, step)) <==>
              !(step.MigrateRow? && step.id in s.quarantine && s.quarantine[step.id] == step.observed
                && step.observed.slot in s.table)
  {
    if step.MigrateRow? && step.id in s.quarantine && s.quarantine[step.id] == step.observed
       && step.observed.slot in s.table {
      var displaced := s.table[step.observed.slot].source.tag;
      assert s.whereabouts[displaced] == InTable(step.observed.slot);
      assert s.whereabouts[step.observed.source.tag] == InQuarantine(step.id);
      assert Next(s, step).whereabouts[displaced] == Lost;
    }
  }

  const EMPTY := System(map[], map[], map[], 0, map[], map[])
  const LATE_SLOT := QueueSlot("c")
  const FIRST_ROW := RowSource(0, "u", true)
  const SECOND_ROW := RowSource(1, "u", true)

  /** The run on which it happens: an old tab writes a row, a pass seals it away,
      the old tab writes the same key again, and then the first row is migrated. */
  lemma LateWriteIsLost(owner: Owner)
    ensures Inv(EMPTY) && Whole(EMPTY)
    ensures Enabled(EMPTY, Write(LATE_SLOT, FIRST_ROW))
    ensures var sealed := Next(Next(EMPTY, Write(LATE_SLOT, FIRST_ROW)), Seal(LATE_SLOT, FIRST_ROW));
            var migrate := MigrateRow(0, Held(LATE_SLOT, FIRST_ROW), owner);
            && Enabled(sealed, Write(LATE_SLOT, SECOND_ROW))
            && var rewritten := Next(sealed, Write(LATE_SLOT, SECOND_ROW));
               && Enabled(rewritten, migrate) && Whole(rewritten)
               && Next(rewritten, migrate).whereabouts == map[0 := InTable(LATE_SLOT), 1 := Lost]
               && Next(rewritten, migrate).table == map[LATE_SLOT := SealedRow(owner, FIRST_ROW)]
               && Next(rewritten, migrate).quarantine == map[]
  {
    var written := Next(EMPTY, Write(LATE_SLOT, FIRST_ROW));
    assert written.table == map[LATE_SLOT := Plain(FIRST_ROW)] && written.whereabouts == map[0 := InTable(LATE_SLOT)];
    var sealed := Next(written, Seal(LATE_SLOT, FIRST_ROW));
    assert sealed.table == map[] && sealed.quarantine == map[0 := Held(LATE_SLOT, FIRST_ROW)];
    assert sealed.whereabouts == map[0 := InQuarantine(0)];
    var rewritten := Next(sealed, Write(LATE_SLOT, SECOND_ROW));
    assert rewritten.table == map[LATE_SLOT := Plain(SECOND_ROW)];
    assert rewritten.whereabouts == map[0 := InQuarantine(0), 1 := InTable(LATE_SLOT)];
  }

  ghost predicate Execution(states: seq<System>, steps: seq<Step>) {
    && |states| == |steps| + 1
    && forall i :: 0 <= i < |steps| ==>
         Enabled(states[i], steps[i]) && ReadsTruly(states[i], steps[i]) && states[i + 1] == Next(states[i], steps[i])
  }

  predicate LandsFree(s: System, step: Step) {
    step.MigrateRow? ==> step.observed.slot !in s.table
  }

  /** Over every interleaving of old tabs, quarantine passes and migrations whose
      target keys are free, nothing is ever lost. */
  lemma {:induction false} RunConserves(states: seq<System>, steps: seq<Step>, n: nat)
    requires Execution(states, steps) && n <= |steps| && Inv(states[0]) && Whole(states[0])
    requires forall k :: 0 <= k < n ==> LandsFree(states[k], steps[k])
    ensures Inv(states[n]) && Whole(states[n])
  {
    hide Inv, Whole, Next, Enabled, ReadsTruly;
    if n > 0 {
      RunConserves(states, steps, n - 1);
      assert LandsFree(states[n - 1], steps[n - 1]);
      StepKeeps(states[n - 1], steps[n - 1]);
      LosesIff(states[n - 1], steps[n - 1]);
    }
  }

  // ------------------------------------------------------------------
  // The two passes
  // ------------------------------------------------------------------

  ghost predicate NoPlaintext(table: map<Slot, Row>) {
    forall slot :: slot in table ==> table[slot].SealedRow?
  }

  const PASSES := 16

  /** Nobody wrote in the given pass. */
  predicate QuietPass(rivals: seq<seq<Held>>, pass: nat) {
    pass >= |rivals| || rivals[pass] == []
  }

  /** The row provably belongs to the owner whose legacy scope this is. */
  predicate Attributable(held: Held, legacyScope: Id) {
    match held.source
    case RowSource(_, scope, usable) => scope == legacyScope && usable
    case MapSource(_, ids) => held.slot.MetaSlot? && held.slot.scope == legacyScope && ids.Some?
    case TimeSource(_) => held.slot.MetaSlot? && held.slot.scope == legacyScope
  }

  /** The three kinds of legacy data, each with its own proof of origin: a row says its
      scope and can be read, a map and a timestamp stand under a key of the scope. */
  lemma AttributableMeaning(held: Held, legacyScope: Id)
    ensures held.source.RowSource? ==>
              (Attributable(held, legacyScope) <==> held.source.scope == legacyScope && held.source.usable)
    ensures held.source.MapSource? ==>
              (Attributable(held, legacyScope) <==>
                 held.slot.MetaSlot? && held.slot.scope == legacyScope && held.source.ids.Some?)
    ensures held.source.TimeSource? ==>
              (Attributable(held, legacyScope) <==> held.slot.MetaSlot? && held.slot.scope == legacyScope)
  {
  }

  /** A legacy map of this scope. */
  predicate IsScopedMap(held: Held, legacyScope: Id, kind: MetaKind) {
    && held.source.MapSource? && held.source.ids.Some?
    && held.slot.MetaSlot? && held.slot.scope == legacyScope && held.slot.kind == kind
  }

  /** A row of this scope that can be read. */
  predicate IsScopedRow(held: Held, legacyScope: Id) {
    held.source.RowSource? && held.source.scope == legacyScope && held.source.usable
  }

  /** One of the owner's maps, grown by legacy maps of the scope: what was there is
      there as it was, every key of a map that left the quarantine is there, and
      whatever is new comes from such a map. */
  ghost predicate MapGrown(before: IdMap, after: IdMap, was: map<nat, Held>, left: map<nat, Held>, legacyScope: Id,
                           kind: MetaKind)
  {
    && (forall k :: k in before ==> k in after && after[k] == before[k])
    && (forall id :: id in was && id !in left && IsScopedMap(was[id], legacyScope, kind) ==>
          was[id].source.ids.value.Keys <= after.Keys)
    && (forall k :: k in after && k !in before ==>
          exists id :: id in was && id !in left && IsScopedMap(was[id], legacyScope, kind)
                       && k in was[id].source.ids.value && was[id].source.ids.value[k] == after[k])
  }

  lemma MapGrownNext(before: IdMap, between: IdMap, after: IdMap, was: map<nat, Held>, left: map<nat, Held>, id: nat,
                     legacyScope: Id, kind: MetaKind)
    requires MapGrown(before, between, was, left, legacyScope, kind) && id in was && id in left
    requires if IsScopedMap(was[id], legacyScope, kind) then after == was[id].source.ids.value + between
             else after == between
    ensures MapGrown(before, after, was, left - {id}, legacyScope, kind)
  {
    var rest := left - {id};
    forall k | k in after && k !in before
      ensures exists i :: i in was && i !in rest && IsScopedMap(was[i], legacyScope, kind)
                          && k in was[i].source.ids.value && was[i].source.ids.value[k] == after[k]
    {
      if k in between {
        var i :| i in was && i !in left && IsScopedMap(was[i], legacyScope, kind)
                 && k in was[i].source.ids.value && was[i].source.ids.value[k] == between[k];
      }
    }
  }

  /** No migration of this scope would land on an occupied key. */
  ghost predicate TargetsFree(s: System, legacyScope: Id) {
    && (forall id :: id in s.quarantine && s.quarantine[id].source.RowSource?
                     && Attributable(s.quarantine[id], legacyScope) ==>
          s.quarantine[id].slot !in s.table)
    && (forall a, b :: a in s.quarantine && b in s.quarantine && a != b
                       && s.quarantine[a].source.RowSource? && s.quarantine[b].source.RowSource? ==>
          s.quarantine[a].slot != s.quarantine[b].slot)
  }

  /** No other quarantined row has the key of this one. */
  ghost predicate Alone(was: map<nat, Held>, id: nat)
    requires id in was
  {
    forall other :: other in was && other != id ==> was[other].slot != was[id].slot
  }

  /** What is left is as it was: everything but the readable rows, the maps and the
      timestamps of this scope. */
  ghost predicate OnlyScopeLeft(was: map<nat, Held>, left: map<nat, Held>, legacyScope: Id) {
    && (forall id :: id in left ==> id in was && left[id] == was[id])
    && (forall id :: id in was && was[id].source.RowSource? ==>
          (id in left <==> was[id].source.scope != legacyScope || !was[id].source.usable))
    && (forall id :: id in was && was[id].source.MapSource? ==>
          (id in left <==>
             !(was[id].slot.MetaSlot? && was[id].slot.scope == legacyScope && was[id].source.ids.Some?)))
    && (forall id :: id in was && was[id].source.TimeSource? ==>
          (id in left <==> !(was[id].slot.MetaSlot? && was[id].slot.scope == legacyScope)))
  }

  /** A row that is new or changed is a readable one of this scope, sealed for the
      owner under its own key; every such row that has left is there, unless another
      one had its key; and no row has gone. */
  ghost predicate RowsMoved(before: map<Slot, Row>, after: map<Slot, Row>, was: map<nat, Held>, left: map<nat, Held>,
                            owner: Owner, legacyScope: Id)
  {
    && (forall slot :: slot in before ==> slot in after)
    && (forall slot :: slot in after && (slot !in before || after[slot] != before[slot]) ==>
          exists id :: id in was && id !in left && was[id].slot == slot && IsScopedRow(was[id], legacyScope)
                       && after[slot] == SealedRow(owner, was[id].source))
    && (forall id :: id in was && id !in left && IsScopedRow(was[id], legacyScope) ==>
          && was[id].slot in after && after[was[id].slot].SealedRow? && after[was[id].slot].owner == owner
          && (Alone(was, id) ==> after[was[id].slot].source == was[id].source))
  }

  /** The owner's maps have grown by the maps that have left; nobody else's have
      changed. */
  ghost predicate MapsMoved(before: System, after: System, was: map<nat, Held>, left: map<nat, Held>, owner: Owner,
                            legacyScope: Id)
  {
    && (forall kind :: MapGrown(OpaqueOf(before, owner, kind).ids, OpaqueOf(after, owner, kind).ids, was, left,
                                legacyScope, kind))
    && (forall o, kind :: o != owner ==> OpaqueOf(after, o, kind) == OpaqueOf(before, o, kind))
  }

  lemma NothingMoved(s: System, was: map<nat, Held>, owner: Owner, legacyScope: Id)
    ensures RowsMoved(s.table, s.table, was, was, owner, legacyScope)
    ensures MapsMoved(s, s, was, was, owner, legacyScope)
  {
  }

  lemma LeftByScope(was: map<nat, Held>, left: map<nat, Held>, legacyScope: Id)
    requires forall id :: id in left ==> id in was && left[id] == was[id]
    requires forall id :: id in was ==> (id in left <==> !Attributable(was[id], legacyScope))
    ensures OnlyScopeLeft(was, left, legacyScope)
  {
    hide Attributable;
    forall id | id in was
      ensures was[id].source.RowSource? ==>
                (id in left <==> was[id].source.scope != legacyScope || !was[id].source.usable)
      ensures was[id].source.MapSource? ==>
                (id in left <==>
                   !(was[id].slot.MetaSlot? && was[id].slot.scope == legacyScope && was[id].source.ids.Some?))
      ensures was[id].source.TimeSource? ==>
                (id in left <==> !(was[id].slot.MetaSlot? && was[id].slot.scope == legacyScope))
    {
      AttributableMeaning(was[id], legacyScope);
    }
  }

  lemma RowMovedNext(before: map<Slot, Row>, between: map<Slot, Row>, was: map<nat, Held>, left: map<nat, Held>,
                     id: nat,
                     owner: Owner, legacyScope: Id)
    requires RowsMoved(before, between, was, left, owner, legacyScope) && id in was && id in left
    requires IsScopedRow(was[id], legacyScope)
    ensures RowsMoved(before, between[was[id].slot := SealedRow(owner, was[id].source)], was, left - {id}, owner,
                      legacyScope)
  {
    hide IsScopedRow;
    var slot0 := was[id].slot;
    var after, rest := between[slot0 := SealedRow(owner, was[id].source)], left - {id};
    forall slot | slot in after && (slot !in before || after[slot] != before[slot])
      ensures exists i :: i in was && i !in rest && was[i].slot == slot && IsScopedRow(was[i], legacyScope)
                          && after[slot] == SealedRow(owner, was[i].source)
    {
      if slot != slot0 {
        var i :| i in was && i !in left && was[i].slot == slot && IsScopedRow(was[i], legacyScope)
                 && between[slot] == SealedRow(owner, was[i].source);
      }
    }
    forall i | i in was && i !in rest && IsScopedRow(was[i], legacyScope)
      ensures was[i].slot in after && after[was[i].slot].SealedRow? && after[was[i].slot].owner == owner
      ensures Alone(was, i) ==> after[was[i].slot].source == was[i].source
    {
      if i != id && was[i].slot == slot0 {
        assert !Alone(was, i);
      }
    }
  }

  lemma NoRowMovedNext(before: map<Slot, Row>, after: map<Slot, Row>, was: map<nat, Held>, left: map<nat, Held>,
                       id: nat,
                       owner: Owner, legacyScope: Id)
    requires RowsMoved(before, after, was, left, owner, legacyScope) && id in was && id in left
    requires !IsScopedRow(was[id], legacyScope)
    ensures RowsMoved(before, after, was, left - {id}, owner, legacyScope)
  {
    hide IsScopedRow;
    var rest := left - {id};
    forall slot | slot in after && (slot !in before || after[slot] != before[slot])
      ensures exists i :: i in was && i !in rest && was[i].slot == slot && IsScopedRow(was[i], legacyScope)
                          && after[slot] == SealedRow(owner, was[i].source)
    {
      var i :| i in was && i !in left && was[i].slot == slot && IsScopedRow(was[i], legacyScope)
               && after[slot] == SealedRow(owner, was[i].source);
    }
  }

  lemma MapsMovedNext(before: System, s: System, r: System, was: map<nat, Held>, id: nat, owner: Owner, legacyScope: Id)
    requires MapsMoved(before, s, was, s.quarantine, owner, legacyScope) && id in was && id in s.quarantine
    requires forall kind :: OpaqueOf(r, owner, kind).ids ==
               if IsScopedMap(was[id], legacyScope, kind) then was[id].source.ids.value + OpaqueOf(s, owner, kind).ids
               else OpaqueOf(s, owner, kind).ids
    requires forall o, kind :: o != owner ==> OpaqueOf(r, o, kind) == OpaqueOf(s, o, kind)
    ensures MapsMoved(before, r, was, s.quarantine - {id}, owner, legacyScope)
  {
    hide OpaqueOf, IsScopedMap, MapGrown;
    forall kind ensures MapGrown(OpaqueOf(before, owner, kind).ids, OpaqueOf(r, owner, kind).ids, was,
                                 s.quarantine - {id},
                                 legacyScope, kind)
    {
      MapGrownNext(OpaqueOf(before, owner, kind).ids, OpaqueOf(s, owner, kind).ids, OpaqueOf(r, owner, kind).ids, was,
                   s.quarantine, id, legacyScope, kind);
    }
  }

  /** One turn of the migration keeps both. */
  lemma OneMoved(before: System, s: System, r: System, was: map<nat, Held>, id: nat, owner: Owner, legacyScope: Id)
    requires RowsMoved(before.table, s.table, was, s.quarantine, owner, legacyScope)
    requires MapsMoved(before, s, was, s.quarantine, owner, legacyScope)
    requires id in was && id in s.quarantine
    requires r.quarantine == if Attributable(was[id], legacyScope) then s.quarantine - {id} else s.quarantine
    requires r.table == if Attributable(was[id], legacyScope) && was[id].source.RowSource?
                        then s.table[was[id].slot := SealedRow(owner, was[id].source)] else s.table
    requires forall kind :: OpaqueOf(r, owner, kind).ids ==
               if IsScopedMap(was[id], legacyScope, kind) then was[id].source.ids.value + OpaqueOf(s, owner, kind).ids
               else OpaqueOf(s, owner, kind).ids
    requires forall o, kind :: o != owner ==> OpaqueOf(r, o, kind) == OpaqueOf(s, o, kind)
    ensures RowsMoved(before.table, r.table, was, r.quarantine, owner, legacyScope)
    ensures MapsMoved(before, r, was, r.quarantine, owner, legacyScope)
  {
    AttributableMeaning(was[id], legacyScope);
    hide Attributable, RowsMoved, OpaqueOf, MapGrown;
    if Attributable(was[id], legacyScope) {
      MapsMovedNext(before, s, r, was, id, owner, legacyScope);
      if was[id].source.RowSource? {
        RowMovedNext(before.table, s.table, was, s.quarantine, id, owner, legacyScope);
      } else {
        NoRowMovedNext(before.table, s.table, was, s.quarantine, id, owner, legacyScope);
      }
    }
  }

  function Tagging(source: Source, tag: nat): Source {
    source.(tag := tag)
  }

  /** Rows written so far keep their place in history, and none is lost. */
  ghost predicate Carries(s: System, r: System) {
    && (Whole(s) ==> Whole(r))
    && forall tag :: tag in s.original ==> tag in r.original && r.original[tag] == s.original[tag]
  }

  lemma CarriesTransitive(s: System, r: System, q: System)
    requires Carries(s, r) && Carries(r, q)
    ensures Carries(s, q)
  {
    hide Whole;
  }

  lemma CarriesReflexive(s: System)
    ensures Carries(s, s)
  {
    hide Whole;
  }

  lemma QuietMeans(rivals: seq<seq<Held>>, pass: nat)
    ensures QuietPass(rivals, pass) <==> (if pass < |rivals| then rivals[pass] else []) == []
  {
  }

  lemma StillPlain(table: map<Slot, Row>, pending: map<Slot, Source>)
    requires pending != map[] && forall slot :: slot in pending ==> slot in table && table[slot].Plain?
    ensures !NoPlaintext(table)
  {
    var slot :| slot in pending;
  }

  /** On free target keys a migration of the scope loses nothing, and leaves the
      remaining targets free. */
  lemma MigrationSafe(s: System, id: nat, owner: Owner, legacyScope: Id)
    requires Inv(s) && Whole(s) && TargetsFree(s, legacyScope) && id in s.quarantine
    requires s.quarantine[id].source.RowSource? && Attributable(s.quarantine[id], legacyScope)
    ensures var r := Migrated(s, id, s.quarantine[id], owner); Whole(r) && TargetsFree(r, legacyScope)
  {
    hide Inv;
  }

  lemma OtherSafe(s: System, r: System, id: nat, legacyScope: Id, place: Place)
    requires Inv(s) && Whole(s) && TargetsFree(s, legacyScope) && id in s.quarantine && !place.Lost?
    requires r.table == s.table && r.quarantine == s.quarantine - {id}
    requires r.whereabouts == Moved(s.whereabouts, s.quarantine[id].source.tag, place)
    ensures Whole(r) && TargetsFree(r, legacyScope)
  {
    hide Inv;
  }

  lemma StepCarries(s: System, step: Step)
    requires Inv(s) && Enabled(s, step) && !step.MigrateRow?
    ensures Carries(s, Next(s, step))
  {
    hide Inv;
  }

  class LegacyStore {
    var table: map<Slot, Row>
    var quarantine: map<nat, Held>
    var maps: map<(Owner, MetaKind), Versioned>
    var next: nat
    var nextTag: nat
    ghost var original: map<nat, Held>
    ghost var whereabouts: map<nat, Place>

    ghost function View(): System
      reads this
    {
      System(table, quarantine, maps, next, original, whereabouts)
    }

    ghost predicate Valid()
      reads this
    {
      Inv(View()) && forall tag :: tag in original ==> tag < nextTag
    }

    constructor ()
      ensures Valid() && View() == System(map[], map[], map[], 0, map[], map[])
    {
      table, quarantine, maps, next, nextTag := map[], map[], map[], 0, 0;
      original, whereabouts := map[], map[];
    }

    /** A tab that still runs the older version writes a plaintext row; it knows
        nothing of sealed rows and leaves their keys alone. */
    method WritePlaintext(slot: Slot, content: Source)
      requires Valid()
      modifies this
      ensures Valid() && Carries(old(View()), View())
      ensures var source := Tagging(content, old(nextTag));
              View() == if Fits(slot, source) && (slot in old(table) ==> old(table)[slot].Plain?)
                        then Written(old(View()), slot, source) else old(View())
    {
      hide Inv, Whole;
      var source := Tagging(content, nextTag);
      if Fits(slot, source) && (slot in table ==> table[slot].Plain?) {
        WriteKeeps(View(), slot, source);
        StepCarries(View(), Write(slot, source));
        whereabouts := Moved(Displaced(View(), slot, Rewritten), source.tag, InTable(slot));
        original := original[source.tag := Held(slot, source)];
        table := table[slot := Plain(source)];
        nextTag := nextTag + 1;
      }
    }

    /** Compare the source once more and move it, in one transaction. */
    method SealOne(slot: Slot, found: Source)
      requires Valid()
      modifies this
      ensures Valid() && Carries(old(View()), View()) && nextTag == old(nextTag)
      ensures View() == SealedAway(old(View()), slot, found)
    {
      hide Inv, Whole;
      SealKeeps(View(), slot, found);
      StepCarries(View(), Seal(slot, found));
      if slot in table && table[slot] == Plain(found) {
        quarantine := quarantine[next := Held(slot, found)];
        table := table - {slot};
        whereabouts := Moved(whereabouts, found.tag, InQuarantine(next));
        next := next + 1;
      }
    }

    /** One pass over what its scan found, with `writes` landing in between. */
    method SealPending(found: map<Slot, Source>, writes: seq<Held>)
      requires Valid()
      requires forall slot :: slot in table && table[slot].Plain? ==> slot in found && table[slot].source == found[slot]
      modifies this
      ensures Valid() && Carries(old(View()), View())
      ensures writes == [] ==> NoPlaintext(table)
    {
      hide Inv, Carries, Fits;
      ghost var start := View();
      CarriesReflexive(start);
      var pending, i := found, 0;
      while pending != map[]
        invariant 0 <= i && Valid() && Carries(start, View())
        invariant writes == [] ==> forall slot :: slot in table && table[slot].Plain? ==>
                    slot in pending && table[slot].source == pending[slot]
        decreases |pending|
      {
        ghost var before := View();
        if i < |writes| {
          WritePlaintext(writes[i].slot, writes[i].source);
          CarriesTransitive(start, before, View());
        }
        ghost var between := View();
        var slot :| slot in pending;
        SealOne(slot, pending[slot]);
        CarriesTransitive(start, between, View());
        pending := pending - {slot};
        i := i + 1;
      }
    }

    /** `quarantineLegacyRows`. `rivals` are the writes that older tabs commit
        between the transactions of each pass. Normal return leaves no plaintext;
        the error means that somebody wrote in every pass but the last. */
    method QuarantineLegacyRows(rivals: seq<seq<Held>>) returns (ok: bool)
      requires Valid()
      modifies this
      ensures Valid() && Carries(old(View()), View())
      ensures ok ==> NoPlaintext(table)
      ensures !ok ==> forall pass :: 0 <= pass < PASSES - 1 ==> !QuietPass(rivals, pass)
    {
      hide Inv, Carries, QuietPass;
      ghost var start := View();
      CarriesReflexive(start);
      var pass := 0;
      while pass < PASSES
        invariant 0 <= pass <= PASSES
        invariant Valid() && Carries(start, View())
        invariant pass > 0 && QuietPass(rivals, pass - 1) ==> NoPlaintext(table)
        invariant forall q :: 0 <= q < pass - 1 ==> !QuietPass(rivals, q)
      {
        var pending := map slot | slot in table && table[slot].Plain? :: table[slot].source;
        if pending == map[] {
          assert forall slot :: slot in table && table[slot].Plain? ==> slot in pending;
          return true;
        }
        ghost var before := View();
        StillPlain(table, pending);
        var writes := if pass < |rivals| then rivals[pass] else [];
        QuietMeans(rivals, pass);
        SealPending(pending, writes);
        CarriesTransitive(start, before, View());
        pass := pass + 1;
      }
      ok := false;
    }

    /** `migrateScopedLegacyData` under the mutation lock. Readable rows, maps and
        timestamps of this scope leave the quarantine and nothing else does; the
        stores take the rows, the owner's maps grow by the maps, and on free target
        keys nothing is lost. */
    method MigrateScoped(owner: Owner, legacyScope: Id)
      requires Valid()
      modifies this
      ensures Valid()
      ensures OnlyScopeLeft(old(quarantine), quarantine, legacyScope)
      ensures RowsMoved(old(table), table, old(quarantine), quarantine, owner, legacyScope)
      ensures MapsMoved(old(View()), View(), old(quarantine), quarantine, owner, legacyScope)
      ensures old(Whole(View())) && old(TargetsFree(View(), legacyScope)) ==> Whole(View())
      ensures original == old(original)
    {
      hide Inv, Whole, TargetsFree, Attributable, RowsMoved, MapsMoved, IsScopedMap, IsScopedRow;
      ghost var was, before := quarantine, View();
      ghost var safe := Whole(View()) && TargetsFree(View(), legacyScope);
      NothingMoved(before, was, owner, legacyScope);
      var snapshot := quarantine;
      while snapshot != map[]
        invariant Valid() && original == old(original) && was == old(quarantine) && before == old(View())
        invariant forall id :: id in snapshot ==> id in quarantine && id in was && snapshot[id] == was[id]
        invariant forall id :: id in quarantine ==> id in was && quarantine[id] == was[id]
        invariant forall id :: id in was ==>
                    (id in quarantine <==> id in snapshot || !Attributable(was[id], legacyScope))
        invariant RowsMoved(before.table, table, was, quarantine, owner, legacyScope)
        invariant MapsMoved(before, View(), was, quarantine, owner, legacyScope)
        invariant safe ==> Whole(View()) && TargetsFree(View(), legacyScope)
        decreases |snapshot|
      {
        var id :| id in snapshot;
        ghost var s := View();
        MigrateOne(id, owner, legacyScope);
        snapshot := snapshot - {id};
        OneMoved(before, s, View(), was, id, owner, legacyScope);
      }
      LeftByScope(was, quarantine, legacyScope);
    }

    /** One quarantined row. */
    method MigrateOne(id: nat, owner: Owner, legacyScope: Id)
      requires Valid() && id in quarantine
      modifies this
      ensures Valid() && original == old(original)
      ensures quarantine == if Attributable(old(quarantine)[id], legacyScope) then old(quarantine) - {id}
                            else old(quarantine)
      ensures table == if Attributable(old(quarantine)[id], legacyScope) && old(quarantine)[id].source.RowSource?
                       then old(table)[old(quarantine)[id].slot := SealedRow(owner, old(quarantine)[id].source)]
                       else old(table)
      ensures forall kind :: OpaqueOf(View(), owner, kind).ids ==
                if IsScopedMap(old(quarantine)[id], legacyScope, kind)
                then old(quarantine)[id].source.ids.value + OpaqueOf(old(View()), owner, kind).ids
                else OpaqueOf(old(View()), owner, kind).ids
      ensures forall o, kind :: o != owner ==> OpaqueOf(View(), o, kind) == OpaqueOf(old(View()), o, kind)
      ensures old(Whole(View())) && old(TargetsFree(View(), legacyScope)) ==>
                Whole(View()) && TargetsFree(View(), legacyScope)
    {
      hide Inv, Whole, TargetsFree;
      var held := quarantine[id];
      if !Attributable(held, legacyScope) {
        return;
      }
      ghost var s := View();
      if held.source.RowSource? {
        MigrateKeeps(s, id, held, owner);
        if Whole(s) && TargetsFree(s, legacyScope) {
          MigrationSafe(s, id, owner, legacyScope);
        }
        whereabouts := Moved(Displaced(s, held.slot, Lost), held.source.tag, InTable(held.slot));
        table := table[held.slot := SealedRow(owner, held.source)];
        quarantine := quarantine - {id};
        assert View() == Migrated(s, id, held, owner);
      } else if held.source.MapSource? {
        MergeOne(id, owner, legacyScope);
      } else {
        DropKeeps(s, id, held);
        whereabouts := Moved(whereabouts, held.source.tag, Dropped);
        quarantine := quarantine - {id};
        assert View() == TimestampDropped(s, id, held);
        if Whole(s) && TargetsFree(s, legacyScope) {
          OtherSafe(s, View(), id, legacyScope, Dropped);
        }
      }
    }

    /** `migrateQuarantinedLegacyMetadata` for a resolution map. */
    method MergeOne(id: nat, owner: Owner, legacyScope: Id)
      requires Valid() && id in quarantine && quarantine[id].source.MapSource?
      requires Attributable(quarantine[id], legacyScope)
      modifies this
      ensures Valid() && original == old(original) && table == old(table) && quarantine == old(quarantine) - {id}
      ensures var held := old(quarantine)[id];
              var before := OpaqueOf(old(View()), owner, held.slot.kind).ids;
              && OpaqueOf(View(), owner, held.slot.kind).ids == held.source.ids.value + before
              && forall k :: k in before ==> OpaqueOf(View(), owner, held.slot.kind).ids[k] == before[k]
      ensures forall o, kind :: o != owner || kind != old(quarantine)[id].slot.kind ==>
                OpaqueOf(View(), o, kind) == OpaqueOf(old(View()), o, kind)
      ensures old(Whole(View())) && old(TargetsFree(View(), legacyScope)) ==>
                Whole(View()) && TargetsFree(View(), legacyScope)
    {
      hide Inv, Whole, TargetsFree;
      var held := quarantine[id];
      ghost var s := View();
      var kind := held.slot.kind;
      var read := if (owner, kind) in maps then maps[(owner, kind)] else Versioned(map[], 0);
      MergeKeeps(s, id, held, owner, read);
      whereabouts := Moved(whereabouts, held.source.tag, Merged(owner, kind));
      maps := maps[(owner, kind) := Versioned(held.source.ids.value + read.ids, read.revision + 1)];
      quarantine := quarantine - {id};
      assert View() == MapMerged(s, id, held, owner, read);
      if Whole(s) && TargetsFree(s, legacyScope) {
        OtherSafe(s, View(), id, legacyScope, Merged(owner, kind));
      }
    }
  }
}
