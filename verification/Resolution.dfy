/** Resolving a batch of player candidates against the players table. */
module Resolution {
  import opened Basics
  import opened Schema
  import opened Dedup

  datatype FlagReason = AmbiguousMerge | MissingName

  datatype Flag = Flag(identity: Id, key: string, reason: FlagReason)

  datatype Verdict = Ambiguous | MergedInto(id: nat) | Inserted(id: nat)

  datatype ResolutionResult = ResolutionResult(
    resolved: map<Id, nat>,
    created: seq<nat>,
    mergedIntoExisting: map<Id, nat>,
    flagged: seq<Flag>)

  // ------------------------------------------------------------------
  // Specification
  // ------------------------------------------------------------------

  /** One name, more than one identity: within the batch or against the table. */
  predicate IsAmbiguous(players: seq<Player>, name: string, keys: Groups)
    requires keys != []
  {
    |keys| > 1 || exists k :: k in KeysForName(players, name) && k != keys[0].0
  }

  function ResolveGroup(players: seq<Player>, name: string, group: seq<PlayerRecord>, location: Id, known: set<Id>)
    : Outcome<(seq<Player>, Verdict)>
    requires group != []
  {
    var keys := GroupBy(group, KeyOf);
    GroupByGrouped(group, KeyOf);
    assert keys != [] by {
      assert group[0] in multiset(group);
    }
    if IsAmbiguous(players, name, keys) then Returned((players, Ambiguous))
    else
      var attrs := MergedAttributes(keys[0].1);
      var at := FindPlayer(players, keys[0].0);
      if at.Some? then
        var row := GapsClosed(players[at.value], attrs);
        if row.Raised? then Raised(row.message)
        else Returned((players[at.value := row.result], MergedInto(at.value)))
      else
        var row := NewPlayer(attrs, keys[0].0, location, known);
        if row.Raised? then Raised(row.message)
        else Returned((players + [row.result], Inserted(|players|)))
  }

  ghost predicate NonEmptyGroups(groups: Groups) {
    forall i :: 0 <= i < |groups| ==> groups[i].1 != []
  }

  /** The name groups in batch order; the first raise aborts the batch. */
  ghost function ResolveGroups(players: seq<Player>, groups: Groups, location: Id, known: set<Id>)
    : (r: Outcome<(seq<Player>, seq<Verdict>)>)
    requires NonEmptyGroups(groups)
    ensures r.Returned? ==> |r.result.1| == |groups|
    decreases |groups|
  {
    if groups == [] then Returned((players, []))
    else
      var before := ResolveGroups(players, groups[..|groups| - 1], location, known);
      if before.Raised? then before
      else
        var last := groups[|groups| - 1];
        var step := ResolveGroup(before.result.0, last.0, last.1, location, known);
        if step.Raised? then Raised(step.message)
        else Returned((step.result.0, before.result.1 + [step.result.1]))
  }

  function FlagAll(rs: seq<PlayerRecord>, reason: FlagReason): seq<Flag> {
    if rs == [] then []
    else FlagAll(rs[..|rs| - 1], reason) + [Flag(rs[|rs| - 1].identity, KeyOf(rs[|rs| - 1]), reason)]
  }

  function AssignAll(m: map<Id, nat>, rs: seq<PlayerRecord>, id: nat): map<Id, nat> {
    if rs == [] then m else AssignAll(m, rs[..|rs| - 1], id)[rs[|rs| - 1].identity := id]
  }

  /** What one group's verdict adds to the result. */
  function Report(sofar: ResolutionResult, group: seq<PlayerRecord>, v: Verdict): ResolutionResult {
    match v
    case Ambiguous => sofar.(flagged := sofar.flagged + FlagAll(Members(GroupBy(group, KeyOf)), AmbiguousMerge))
    case MergedInto(id) => sofar.(resolved := AssignAll(sofar.resolved, group, id),
                                  mergedIntoExisting := AssignAll(sofar.mergedIntoExisting, group, id))
    case Inserted(id) => sofar.(created := sofar.created + [id], resolved := AssignAll(sofar.resolved, group, id))
  }

  ghost function ReportAll(sofar: ResolutionResult, groups: Groups, verdicts: seq<Verdict>): ResolutionResult
    requires |groups| == |verdicts|
  {
    if groups == [] then sofar
    else
      var n := |groups| - 1;
      Report(ReportAll(sofar, groups[..n], verdicts[..n]), groups[n].1, verdicts[n])
  }

  function Nameless(records: seq<PlayerRecord>): seq<PlayerRecord> {
    FilterSeq(records, r => !HasName(r))
  }

  function Named(records: seq<PlayerRecord>): (named: seq<PlayerRecord>)
    ensures forall r :: r in named <==> r in records && HasName(r)
  {
    FilterSeq(records, r => HasName(r))
  }

  function NameGroups(records: seq<PlayerRecord>): (groups: Groups)
    ensures NonEmptyGroups(groups)
  {
    GroupByGrouped(Named(records), NameOf);
    GroupedNonEmpty(GroupBy(Named(records), NameOf));
    GroupBy(Named(records), NameOf)
  }

  lemma {:induction false} GroupedNonEmpty(groups: Groups)
    requires Grouped(groups, NameOf)
    ensures NonEmptyGroups(groups)
    ensures forall i, r :: 0 <= i < |groups| && r in groups[i].1 ==> NameOf(r) == groups[i].0
    ensures forall i, j :: 0 <= i < j < |groups| ==> groups[i].0 != groups[j].0
    ensures forall i :: 0 <= i < |groups| ==> groups[i].0 in GroupKeys(groups)
  {
    if groups != [] {
      GroupedNonEmpty(groups[1..]);
      assert forall i :: 1 <= i < |groups| ==> groups[i] == groups[1..][i - 1];
    }
  }

  /** `resolve_players`: the new table and the report. */
  ghost function Resolved(players: seq<Player>, records: seq<PlayerRecord>, location: Id, known: set<Id>)
    : Outcome<(seq<Player>, ResolutionResult)>
  {
    var groups := NameGroups(records);
    var run := ResolveGroups(players, groups, location, known);
    if run.Raised? then Raised(run.message)
    else
      var start := ResolutionResult(map[], [], map[], FlagAll(Nameless(records), MissingName));
      Returned((run.result.0, ReportAll(start, groups, run.result.1)))
  }

  // ------------------------------------------------------------------
  // The procedure
  // ------------------------------------------------------------------

  method ResolvePlayers(conn: Connection, records: seq<PlayerRecord>, location: Id)
    returns (r: Outcome<ResolutionResult>)
    modifies conn`work
    ensures var spec := Resolved(old(conn.work.players), records, location, old(conn.work.known));
            && (r.Returned? <==> spec.Returned?)
            && (r.Returned? ==> r.result == spec.result.1 && conn.work == old(conn.work).(players := spec.result.0))
            && (r.Raised? ==> r.message == spec.message)
  {
    var groups := NameGroups(records);
    var result := ResolutionResult(map[], [], map[], FlagAll(Nameless(records), MissingName));
    ghost var start := result;
    ghost var verdicts: seq<Verdict> := [];
    ghost var db := conn.work;
    var i := 0;
    while i < |groups|
      invariant 0 <= i <= |groups|
      invariant ResolveGroups(db.players, groups[..i], location, db.known) == Returned((conn.work.players, verdicts))
      invariant conn.work == db.(players := conn.work.players)
      invariant |verdicts| == i && result == ReportAll(start, groups[..i], verdicts)
    {
      assert groups[..i + 1][..i] == groups[..i];
      var step := ResolveGroup(conn.work.players, groups[i].0, groups[i].1, location, conn.work.known);
      if step.Raised? {
        RaiseSticks(db.players, groups, i + 1, location, db.known);
        return Raised(step.message);
      }
      conn.work := conn.work.(players := step.result.0);
      result := Report(result, groups[i].1, step.result.1);
      verdicts := verdicts + [step.result.1];
      assert verdicts[..i] + [step.result.1] == verdicts;
      i := i + 1;
    }
    assert groups[..i] == groups;
    r := Returned(result);
  }

  lemma {:induction false} RaiseSticks(players: seq<Player>, groups: Groups, n: nat, location: Id, known: set<Id>)
    requires n <= |groups| && NonEmptyGroups(groups)
    requires ResolveGroups(players, groups[..n], location, known).Raised?
    ensures ResolveGroups(players, groups, location, known) == ResolveGroups(players, groups[..n], location, known)
    decreases |groups|
  {
    if n < |groups| {
      assert groups[..|groups| - 1][..n] == groups[..n];
      RaiseSticks(players, groups[..|groups| - 1], n, location, known);
    } else {
      assert groups[..n] == groups;
    }
  }

  // ------------------------------------------------------------------
  // One row per person
  // ------------------------------------------------------------------

  function RowName(p: Player): string {
    NameKey(Some(p.first), p.last)
  }

  /** The stored key is the key of the stored columns, and its names are plain. */
  predicate RowConsistent(p: Player) {
    && p.dedupKey == RowName(p) + "|" + (if p.birth.Some? then p.birth.value else "")
    && PlainName(Some(p.first), p.last)
  }

  /** At most one row per name. */
  ghost predicate OneRowPerName(players: seq<Player>) {
    && (forall i :: 0 <= i < |players| ==> RowConsistent(players[i]))
    && (forall i, j :: 0 <= i < j < |players| ==> RowName(players[i]) != RowName(players[j]))
  }

  ghost predicate PlainRecords(rs: seq<PlayerRecord>) {
    forall r :: r in rs ==> PlainName(r.first, r.last)
  }

  /** Plain names and dates are recovered from the key they make. */
  lemma KeyInjective(f: string, l: string, b: string, g: string, m: string, c: string)
    requires Plain(f) && Plain(l) && Plain(g) && Plain(m)
    ensures f + "|" + l == g + "|" + m <==> f == g && l == m
    ensures f + "|" + l + "|" + b == g + "|" + m + "|" + c <==> f == g && l == m && b == c
  {
    if f + "|" + l == g + "|" + m {
      FirstPart(f, l, g, m);
    }
    if f + "|" + l + "|" + b == g + "|" + m + "|" + c {
      assert f + "|" + l + "|" + b == f + "|" + (l + "|" + b);
      assert g + "|" + m + "|" + c == g + "|" + (m + "|" + c);
      FirstPart(f, l + "|" + b, g, m + "|" + c);
      FirstPart(l, b, m, c);
    }
  }

  /** The prefix lookup finds exactly the rows of that name. */
  lemma LookupExact(players: seq<Player>, first: Option<string>, last: Option<string>)
    requires OneRowPerName(players) && PlainName(first, last)
    ensures forall i :: 0 <= i < |players| ==>
              (NameKey(first, last) + "|" <= players[i].dedupKey <==> RowName(players[i]) == NameKey(first, last))
    ensures KeysForName(players, NameKey(first, last)) ==
            set i | 0 <= i < |players| && RowName(players[i]) == NameKey(first, last) :: players[i].dedupKey
  {
    forall i | 0 <= i < |players|
      ensures NameKey(first, last) + "|" <= players[i].dedupKey <==> RowName(players[i]) == NameKey(first, last)
    {
      var p := players[i];
      var b := if p.birth.Some? then p.birth.value else "";
      NamePrefixExact(Slug(first), Slug(last), Slug(Some(p.first)), Slug(p.last), b);
      KeyInjective(Slug(first), Slug(last), "", Slug(Some(p.first)), Slug(p.last), b);
    }
  }

  /** What every record of one identity agrees on. */
  lemma SameKeySameParts(r: PlayerRecord, s: PlayerRecord)
    requires PlainName(r.first, r.last) && PlainName(s.first, s.last) && KeyOf(r) == KeyOf(s)
    ensures Slug(r.first) == Slug(s.first) && Slug(r.last) == Slug(s.last) && BirthIso(r.birth) == BirthIso(s.birth)
  {
    KeyInjective(Slug(r.first), Slug(r.last), BirthIso(r.birth), Slug(s.first), Slug(s.last), BirthIso(s.birth));
  }

  /** The merged attributes of one identity spell that identity's key. */
  lemma MergedSpellsKey(rs: seq<PlayerRecord>, r: PlayerRecord)
    requires r in rs && PlainRecords(rs) && forall s :: s in rs ==> KeyOf(s) == KeyOf(r)
    ensures var a := MergedAttributes(rs);
            && Slug(a.first) == Slug(r.first) && Slug(a.last) == Slug(r.last)
            && (a.birth.Unparsable? || BirthIso(a.birth) == BirthIso(r.birth))
            && (a.first.Some? ==> IsPresent(a.first)) && (a.last.Some? ==> IsPresent(a.last))
  {
    forall s | s in rs
      ensures Slug(s.first) == Slug(r.first) && Slug(s.last) == Slug(r.last) && BirthIso(s.birth) == BirthIso(r.birth)
    {
      SameKeySameParts(s, r);
    }
    SupplierMeaning(rs, FirstName);
    SupplierMeaning(rs, LastName);
    SupplierMeaning(rs, BirthDay);
    SlugEmptyIffBlank(r.first);
    SlugEmptyIffBlank(r.last);
    assert Slug(None) == "";
  }

  /** The single identity of an unambiguous group. */
  lemma SoleIdentity(group: seq<PlayerRecord>)
    requires group != []
    ensures var keys := GroupBy(group, KeyOf);
            && keys != [] && keys[0].1 != []
            && (forall s :: s in keys[0].1 ==> KeyOf(s) == keys[0].0 && s in group)
            && (|keys| == 1 ==> forall s :: s in group ==> s in keys[0].1)
  {
    var keys := GroupBy(group, KeyOf);
    GroupByGrouped(group, KeyOf);
    assert keys != [] by {
      assert group[0] in multiset(group);
    }
    assert Members(keys) == keys[0].1 + Members(keys[1..]);
    forall s | s in keys[0].1 ensures s in group {
      assert s in Members(keys);
      assert s in multiset(Members(keys));
    }
    if |keys| == 1 {
      assert Members(keys[1..]) == [];
      assert Members(keys) == keys[0].1;
      forall s | s in group ensures s in keys[0].1 {
        assert s in multiset(group);
      }
    }
  }

  ghost predicate NewRowsAreOf(players: seq<Player>, after: seq<Player>, group: seq<PlayerRecord>) {
    |players| <= |after|
    && forall i :: |players| <= i < |after| ==> exists s :: s in group && after[i].dedupKey == KeyOf(s)
  }

  /** A resolved group extends the table by at most one row, of its own key. */
  lemma GroupExtends(players: seq<Player>, name: string, group: seq<PlayerRecord>, location: Id, known: set<Id>)
    requires group != [] && ResolveGroup(players, name, group, location, known).Returned?
    ensures var after := ResolveGroup(players, name, group, location, known).result.0;
            PlayersExtend(players, after) && |after| <= |players| + 1 && NewRowsAreOf(players, after, group)
  {
    SoleIdentity(group);
    var keys := GroupBy(group, KeyOf);
    assert keys[0].1[0] in keys[0].1;
  }

  lemma GroupKeepsOneRowPerName(
    players: seq<Player>, name: string, group: seq<PlayerRecord>, location: Id, known: set<Id>)
    requires group != [] && ResolveGroup(players, name, group, location, known).Returned?
    requires OneRowPerName(players) && PlainRecords(group)
    requires forall r :: r in group ==> NameOf(r) == name
    ensures OneRowPerName(ResolveGroup(players, name, group, location, known).result.0)
  {
    hide Slug, MergedAttributes;
    SoleIdentity(group);
    var keys := GroupBy(group, KeyOf);
    var r := keys[0].1[0];
    assert r in keys[0].1;
    if !IsAmbiguous(players, name, keys) {
      MergedSpellsKey(keys[0].1, r);
      LookupExact(players, r.first, r.last);
      var attrs := MergedAttributes(keys[0].1);
      var at := FindPlayer(players, keys[0].0);
      if at.Some? {
        FillKeepsName(players[at.value], attrs, r);
      } else {
        InsertKeepsName(players, attrs, r, name, location, known);
      }
    }
  }

  lemma FillKeepsName(row: Player, attrs: Attrs, r: PlayerRecord)
    requires RowConsistent(row) && row.dedupKey == KeyOf(r) && PlainName(r.first, r.last)
    requires Slug(attrs.first) == Slug(r.first) && Slug(attrs.last) == Slug(r.last)
    requires attrs.last.Some? ==> IsPresent(attrs.last)
    requires !attrs.birth.Unparsable? && BirthIso(attrs.birth) == BirthIso(r.birth)
    ensures GapsClosed(row, attrs).Returned?
    ensures RowConsistent(GapsClosed(row, attrs).result) && RowName(GapsClosed(row, attrs).result) == RowName(row)
  {
    var b := if row.birth.Some? then row.birth.value else "";
    KeyInjective(Slug(Some(row.first)), Slug(row.last), b, Slug(r.first), Slug(r.last), BirthIso(r.birth));
    SlugEmptyIffBlank(attrs.last);
    assert Slug(None) == "";
  }

  lemma InsertKeepsName(players: seq<Player>, attrs: Attrs, r: PlayerRecord, name: string, location: Id, known: set<Id>)
    requires OneRowPerName(players) && PlainName(r.first, r.last) && NameOf(r) == name
    requires NewPlayer(attrs, KeyOf(r), location, known).Returned?
    requires Slug(attrs.first) == Slug(r.first) && Slug(attrs.last) == Slug(r.last)
    requires BirthIso(attrs.birth) == BirthIso(r.birth)
    requires forall k :: k in KeysForName(players, name) ==> k == KeyOf(r)
    requires FindPlayer(players, KeyOf(r)).None?
    ensures OneRowPerName(players + [NewPlayer(attrs, KeyOf(r), location, known).result])
  {
    var row := NewPlayer(attrs, KeyOf(r), location, known).result;
    assert RowConsistent(row) && RowName(row) == name;
    LookupExact(players, r.first, r.last);
    forall i | 0 <= i < |players| ensures RowName(players[i]) != name {
      var key := players[i].dedupKey;
      assert name + "|" <= key ==> key in KeysForName(players, name);
      assert key != KeyOf(r);
    }
  }

  lemma {:induction false} GroupsKeepOneRowPerName(
    players: seq<Player>, records: seq<PlayerRecord>, groups: Groups, location: Id, known: set<Id>)
    requires PlainGroups(groups, records) && OneRowPerName(players)
    requires ResolveGroups(players, groups, location, known).Returned?
    ensures OneRowPerName(ResolveGroups(players, groups, location, known).result.0)
    decreases |groups|
  {
    hide Slug, NameOf, KeyOf, ResolveGroup, OneRowPerName;
    if groups != [] {
      var n := |groups| - 1;
      GroupsKeepOneRowPerName(players, records, groups[..n], location, known);
      var mid := ResolveGroups(players, groups[..n], location, known).result.0;
      GroupKeepsOneRowPerName(mid, groups[n].0, groups[n].1, location, known);
    }
  }

  /** The name groups partition the named records. */
  lemma NameGroupsOf(records: seq<PlayerRecord>)
    ensures forall i, r :: 0 <= i < |NameGroups(records)| && r in NameGroups(records)[i].1 ==>
              NameOf(r) == NameGroups(records)[i].0 && r in records && HasName(r)
    ensures forall i, j :: 0 <= i < j < |NameGroups(records)| ==> NameGroups(records)[i].0 != NameGroups(records)[j].0
  {
    var named := Named(records);
    GroupByGrouped(named, NameOf);
    GroupsPartition(GroupBy(named, NameOf), named);
    GroupedNonEmpty(GroupBy(named, NameOf));
  }

  lemma GroupsPartition(groups: Groups, rs: seq<PlayerRecord>)
    requires multiset(Members(groups)) == multiset(rs)
    ensures forall i, r :: 0 <= i < |groups| && r in groups[i].1 ==> r in rs
  {
    forall i, r | 0 <= i < |groups| && r in groups[i].1 ensures r in rs {
      GroupInMembers(groups, i, r);
      assert r in multiset(Members(groups));
    }
  }

  lemma {:induction false} GroupInMembers(groups: Groups, i: nat, r: PlayerRecord)
    requires i < |groups| && r in groups[i].1
    ensures r in Members(groups)
  {
    if i > 0 {
      GroupInMembers(groups[1..], i - 1, r);
    }
  }

  /** The name groups of a batch of plain names. */
  ghost predicate PlainGroups(groups: Groups, records: seq<PlayerRecord>) {
    && NonEmptyGroups(groups)
    && (forall i, j :: 0 <= i < j < |groups| ==> groups[i].0 != groups[j].0)
    && (forall i, r :: 0 <= i < |groups| && r in groups[i].1 ==>
          NameOf(r) == groups[i].0 && r in records && PlainName(r.first, r.last))
  }

  lemma NameGroupsPlain(records: seq<PlayerRecord>)
    requires PlainRecords(records)
    ensures PlainGroups(NameGroups(records), records)
  {
    hide Slug;
    NameGroupsOf(records);
  }

  /** Whatever batch is resolved, plain names keep at most one row each. */
  lemma ResolveKeepsOneRowPerName(players: seq<Player>, records: seq<PlayerRecord>, location: Id, known: set<Id>)
    requires OneRowPerName(players) && PlainRecords(records)
    requires Resolved(players, records, location, known).Returned?
    ensures OneRowPerName(Resolved(players, records, location, known).result.0)
  {
    NameGroupsPlain(records);
    GroupsKeepOneRowPerName(players, records, NameGroups(records), location, known);
  }

  // ------------------------------------------------------------------
  // What a batch does to the table, and what it flags
  // ------------------------------------------------------------------

  lemma {:induction false} OneIdentity(group: seq<PlayerRecord>, key: string)
    requires group != [] && forall r :: r in group ==> KeyOf(r) == key
    ensures GroupBy(group, KeyOf) == [(key, group)]
    decreases |group|
  {
    hide KeyOf;
    var n := |group| - 1;
    assert group == group[..n] + [group[n]];
    if n > 0 {
      OneIdentity(group[..n], key);
    } else {
      assert group[..n] == [];
    }
  }

  lemma TwoIdentities(group: seq<PlayerRecord>, r: PlayerRecord, s: PlayerRecord)
    requires r in group && s in group && KeyOf(r) != KeyOf(s)
    ensures |GroupBy(group, KeyOf)| > 1
  {
    SoleIdentity(group);
    hide KeyOf, GroupBy;
  }

  /** A column keeps its value, and takes the offered one if it has none. */
  predicate TakesOver(before: Option<string>, after: Option<string>, offered: Option<string>) {
    (before.Some? ==> after == before) && (before.None? ==> after == offered)
  }

  /** One name of a batch. It is ambiguous exactly if its records, or a stored row of
      that name, have different keys, and then nothing is written. Otherwise the
      merged attributes either fill the empty columns of the row with that key, or
      become the next row, at this location and without a school. */
  lemma GroupEffect(players: seq<Player>, name: string, group: seq<PlayerRecord>, location: Id, known: set<Id>)
    requires group != [] && (forall r :: r in group ==> NameOf(r) == name)
    requires ResolveGroup(players, name, group, location, known).Returned?
    ensures var (after, v) := ResolveGroup(players, name, group, location, known).result;
            var key, m := KeyOf(group[0]), MergedAttributes(group);
            var birth := if m.birth.BirthDate? then Some(m.birth.iso) else None;
            && (v.Ambiguous? <==>
                  || (exists r :: r in group && KeyOf(r) != key)
                  || (exists i ::
                         0 <= i < |players| && name + "|" <= players[i].dedupKey && players[i].dedupKey != key))
            && match v
               case Ambiguous => after == players
               case MergedInto(id) =>
                 && FindPlayer(players, key) == Some(id) && |after| == |players|
                 && (forall i :: 0 <= i < |players| && i != id ==> after[i] == players[i])
                 && TakesOver(players[id].last, after[id].last, m.last)
                 && TakesOver(players[id].birth, after[id].birth, birth)
                 && TakesOver(players[id].grade, after[id].grade, m.grade)
                 && after[id]
                    == players[id].(last := after[id].last, birth := after[id].birth, grade := after[id].grade)
               case Inserted(id) =>
                 && FindPlayer(players, key).None? && id == |players| && m.first.Some?
                 && after == players + [Player(key, m.first.value, m.last, birth, m.grade, m.photo == Some(true), None,
                                               location)]
  {
    hide Slug, NameOf, MergedAttributes;
    var key := KeyOf(group[0]);
    SoleIdentity(group);
    if r :| r in group && KeyOf(r) != key {
      TwoIdentities(group, r, group[0]);
    } else {
      OneIdentity(group, key);
      RivalIffKey(players, name, key);
    }
  }

  lemma RivalIffKey(players: seq<Player>, name: string, key: string)
    ensures (exists k :: k in KeysForName(players, name) && k != key) <==>
              exists i :: 0 <= i < |players| && name + "|" <= players[i].dedupKey && players[i].dedupKey != key
  {
    if i :| 0 <= i < |players| && name + "|" <= players[i].dedupKey && players[i].dedupKey != key {
      assert players[i].dedupKey in KeysForName(players, name);
    }
  }

  lemma {:induction false} FlagAllMeaning(rs: seq<PlayerRecord>, reason: FlagReason)
    ensures forall f :: f in FlagAll(rs, reason) <==> exists r :: r in rs && f == Flag(r.identity, KeyOf(r), reason)
    decreases |rs|
  {
    hide KeyOf;
    if rs != [] {
      var n := |rs| - 1;
      FlagAllMeaning(rs[..n], reason);
      assert rs == rs[..n] + [rs[n]];
    }
  }

  /** Somebody of an ambiguous group. */
  ghost predicate IsFlagged(f: Flag, groups: Groups, verdicts: seq<Verdict>)
    requires |groups| == |verdicts|
  {
    exists i, r :: 0 <= i < |groups| && verdicts[i].Ambiguous? && r in groups[i].1
                   && f == Flag(r.identity, KeyOf(r), AmbiguousMerge)
  }

  lemma IsFlaggedNext(f: Flag, groups: Groups, verdicts: seq<Verdict>)
    requires groups != [] && |groups| == |verdicts|
    ensures var n := |groups| - 1;
            IsFlagged(f, groups, verdicts) <==>
              || IsFlagged(f, groups[..n], verdicts[..n])
              || (verdicts[n].Ambiguous?
                  && exists r :: r in groups[n].1 && f == Flag(r.identity, KeyOf(r), AmbiguousMerge))
  {
    hide KeyOf;
    var n := |groups| - 1;
    var front, vs := groups[..n], verdicts[..n];
    if IsFlagged(f, front, vs) {
      var i, r :| 0 <= i < n && vs[i].Ambiguous? && r in front[i].1 && f == Flag(r.identity, KeyOf(r), AmbiguousMerge);
      assert verdicts[i].Ambiguous? && r in groups[i].1;
    }
    if IsFlagged(f, groups, verdicts) {
      var i, r :| 0 <= i < |groups| && verdicts[i].Ambiguous? && r in groups[i].1
                  && f == Flag(r.identity, KeyOf(r), AmbiguousMerge);
      assert i < n ==> vs[i].Ambiguous? && r in front[i].1;
    }
  }

  lemma SameMembers(group: seq<PlayerRecord>)
    ensures forall r :: r in Members(GroupBy(group, KeyOf)) <==> r in group
  {
    GroupByGrouped(group, KeyOf);
    hide KeyOf, GroupBy, Members;
    assert forall r :: r in Members(GroupBy(group, KeyOf)) <==> r in multiset(group);
  }

  lemma {:induction false} ReportFlags(start: ResolutionResult, groups: Groups, verdicts: seq<Verdict>)
    requires |groups| == |verdicts|
    ensures forall f :: f in ReportAll(start, groups, verdicts).flagged <==>
              f in start.flagged || IsFlagged(f, groups, verdicts)
    decreases |groups|
  {
    hide KeyOf, IsFlagged, FlagAll, AssignAll, Members;
    if groups != [] {
      var n := |groups| - 1;
      ReportFlags(start, groups[..n], verdicts[..n]);
      SameMembers(groups[n].1);
      FlagAllMeaning(Members(GroupBy(groups[n].1, KeyOf)), AmbiguousMerge);
      forall f ensures f in ReportAll(start, groups, verdicts).flagged <==>
        f in start.flagged || IsFlagged(f, groups, verdicts)
      {
        IsFlaggedNext(f, groups, verdicts);
      }
    } else {
      forall f ensures !IsFlagged(f, groups, verdicts) {
        NoneFlagged(f);
      }
    }
  }

  lemma NoneFlagged(f: Flag)
    ensures !IsFlagged(f, [], [])
  {
  }

  /** The flags of a batch: every record without a name, as such, and every record of
      an ambiguous name, with its key; nobody else. */
  lemma FlagsMeaning(players: seq<Player>, records: seq<PlayerRecord>, location: Id, known: set<Id>)
    requires Resolved(players, records, location, known).Returned?
    ensures var groups := NameGroups(records);
            var verdicts := ResolveGroups(players, groups, location, known).result.1;
            forall f :: f in Resolved(players, records, location, known).result.1.flagged <==>
              || (exists r ::
                    && r in records && Slug(r.first) == "" == Slug(r.last)
                    && f == Flag(r.identity, KeyOf(r), MissingName))
              || IsFlagged(f, groups, verdicts)
  {
    var groups := NameGroups(records);
    var verdicts := ResolveGroups(players, groups, location, known).result.1;
    var start := ResolutionResult(map[], [], map[], FlagAll(Nameless(records), MissingName));
    hide KeyOf, Slug;
    FlagAllMeaning(Nameless(records), MissingName);
    assert forall r :: r in Nameless(records) <==> r in records && Slug(r.first) == "" == Slug(r.last);
    hide ResolveGroups, NameGroups, IsFlagged, FlagAll, Nameless;
    ReportFlags(start, groups, verdicts);
  }

  // ------------------------------------------------------------------
  // Resolving again
  // ------------------------------------------------------------------

  /** Nothing the attributes could still fill in. */
  predicate GapsFilled(row: Player, attrs: Attrs) {
    && !attrs.birth.Unparsable?
    && (attrs.last.Some? ==> row.last.Some?)
    && (attrs.birth.BirthDate? ==> row.birth.Some?)
    && (attrs.grade.Some? ==> row.grade.Some?)
  }

  function Again(v: Verdict): Verdict {
    if v.Inserted? then MergedInto(v.id) else v
  }

  ghost predicate NoNewRowOf(players: seq<Player>, q: seq<Player>, name: string)
    requires |players| <= |q|
  {
    forall i :: |players| <= i < |q| ==> !(name + "|" <= q[i].dedupKey)
  }

  lemma ExtendTransitive(p: seq<Player>, q: seq<Player>, r: seq<Player>)
    requires PlayersExtend(p, q) && PlayersExtend(q, r)
    ensures PlayersExtend(p, r)
  {
    forall i | 0 <= i < |p| ensures RowExtends(p[i], r[i]) {
      assert RowExtends(p[i], q[i]) && RowExtends(q[i], r[i]);
    }
  }

  /** No row of this name has another identity than the group's own. */
  ghost predicate Unrivalled(q: seq<Player>, name: string, group: seq<PlayerRecord>) {
    GroupBy(group, KeyOf) != [] && forall k :: k in KeysForName(q, name) ==> k == GroupBy(group, KeyOf)[0].0
  }

  /** A row found by its key is found at the same place in any later table. */
  lemma KeyIndexStays(after: seq<Player>, q: seq<Player>, key: string, id: nat)
    requires PlayersExtend(after, q)
    requires id < |after| && after[id].dedupKey == key && forall i :: 0 <= i < id ==> after[i].dedupKey != key
    ensures FindPlayer(q, key) == Some(id)
  {
    assert forall i :: 0 <= i <= id ==> RowExtends(after[i], q[i]);
  }

  /** Without a further row of its name, a sole identity stays the sole one. */
  lemma SoleKeyStays(after: seq<Player>, q: seq<Player>, name: string, key: string)
    requires PlayersExtend(after, q) && NoNewRowOf(after, q, name)
    requires forall k :: k in KeysForName(after, name) ==> k == key
    ensures forall k :: k in KeysForName(q, name) ==> k == key
  {
    assert forall i :: 0 <= i < |after| ==> RowExtends(after[i], q[i]);
    forall k | k in KeysForName(q, name) ensures k == key {
      var i :| 0 <= i < |q| && name + "|" <= q[i].dedupKey && q[i].dedupKey == k;
      assert k == after[i].dedupKey && k in KeysForName(after, name);
    }
  }

  /** A name that is ambiguous stays so. */
  lemma AmbiguityStays(players: seq<Player>, q: seq<Player>, name: string, keys: Groups)
    requires PlayersExtend(players, q) && keys != [] && IsAmbiguous(players, name, keys)
    ensures IsAmbiguous(q, name, keys)
  {
    if |keys| <= 1 {
      var k :| k in KeysForName(players, name) && k != keys[0].0;
      var i :| 0 <= i < |players| && name + "|" <= players[i].dedupKey && players[i].dedupKey == k;
      assert RowExtends(players[i], q[i]);
      assert k in KeysForName(q, name);
    }
  }

  /** The row a group was resolved to, right after it was. */
  lemma SettledRow(players: seq<Player>, name: string, group: seq<PlayerRecord>, location: Id, known: set<Id>)
    requires group != [] && forall r :: r in group ==> NameOf(r) == name
    requires ResolveGroup(players, name, group, location, known).Returned?
    requires !ResolveGroup(players, name, group, location, known).result.1.Ambiguous?
    ensures var step := ResolveGroup(players, name, group, location, known).result;
            var after, id, key := step.0, step.1.id, GroupBy(group, KeyOf)[0].0;
            && id < |after| && after[id].dedupKey == key
            && (forall i :: 0 <= i < id ==> after[i].dedupKey != key)
            && (forall k :: k in KeysForName(after, name) ==> k == key)
            && GapsFilled(after[id], MergedAttributes(GroupBy(group, KeyOf)[0].1))
    ensures GroupBy(group, KeyOf) != []
  {
    hide Slug, MergedAttributes;
    SoleIdentity(group);
    var key := GroupBy(group, KeyOf)[0].0;
    var after := ResolveGroup(players, name, group, location, known).result.0;
    forall k | k in KeysForName(after, name) ensures k == key {
      var i :| 0 <= i < |after| && name + "|" <= after[i].dedupKey && after[i].dedupKey == k;
      if i < |players| {
        assert players[i].dedupKey == k && k in KeysForName(players, name);
      }
    }
  }

  /** The verdict of a group in a later table: what it was, unless a row with another
      key of its name has appeared. */
  ghost function Later(v: Verdict, q: seq<Player>, name: string, group: seq<PlayerRecord>): Verdict {
    if v.Ambiguous? || Unrivalled(q, name, group) then Again(v) else Ambiguous
  }

  /** Once a name is settled, it is settled for as long as it has no rival: in any
      later table the group changes nothing, and gets the same answer or is flagged. */
  lemma GroupLater(players: seq<Player>, name: string, group: seq<PlayerRecord>, location: Id, known: set<Id>,
                   q: seq<Player>)
    requires group != [] && forall r :: r in group ==> NameOf(r) == name
    requires ResolveGroup(players, name, group, location, known).Returned?
    requires PlayersExtend(ResolveGroup(players, name, group, location, known).result.0, q)
    ensures ResolveGroup(q, name, group, location, known) ==
            Returned((q, Later(ResolveGroup(players, name, group, location, known).result.1, q, name, group)))
    ensures !ResolveGroup(players, name, group, location, known).result.1.Ambiguous? ==> |GroupBy(group, KeyOf)| == 1
  {
    hide Slug, MergedAttributes;
    SoleIdentity(group);
    var keys := GroupBy(group, KeyOf);
    var step := ResolveGroup(players, name, group, location, known).result;
    if step.1.Ambiguous? {
      AmbiguityStays(players, q, name, keys);
    } else if Unrivalled(q, name, group) {
      var id := step.1.id;
      SettledRow(players, name, group, location, known);
      KeyIndexStays(step.0, q, keys[0].0, id);
      assert RowExtends(step.0[id], q[id]);
      assert q[id := q[id]] == q;
    } else {
      var k :| k in KeysForName(q, name) && k != keys[0].0;
      assert IsAmbiguous(q, name, keys);
    }
  }

  /** Each group is ambiguous or without a rival in the later table. */
  ghost predicate AllSettled(groups: Groups, verdicts: seq<Verdict>, q: seq<Player>)
    requires |groups| == |verdicts|
  {
    forall i :: 0 <= i < |groups| ==> verdicts[i].Ambiguous? || Unrivalled(q, groups[i].0, groups[i].1)
  }

  ghost predicate OfTheirNames(groups: Groups) {
    NonEmptyGroups(groups) && forall i, r :: 0 <= i < |groups| && r in groups[i].1 ==> NameOf(r) == groups[i].0
  }

  lemma {:induction false} GroupsLater(players: seq<Player>, groups: Groups, location: Id, known: set<Id>,
                                       q: seq<Player>)
    requires OfTheirNames(groups)
    requires ResolveGroups(players, groups, location, known).Returned?
    requires PlayersExtend(ResolveGroups(players, groups, location, known).result.0, q)
    ensures PlayersExtend(players, q)
    ensures ResolveGroups(q, groups, location, known).Returned?
    ensures var first, second := ResolveGroups(players, groups, location, known).result,
                                 ResolveGroups(q, groups, location, known).result;
            && second.0 == q
            && (forall i :: 0 <= i < |groups| ==>
                  && second.1[i] == Later(first.1[i], q, groups[i].0, groups[i].1)
                  && (!first.1[i].Ambiguous? ==> |GroupBy(groups[i].1, KeyOf)| == 1))
    decreases |groups|
  {
    hide Slug, NameOf, KeyOf, ResolveGroup, RowExtends, Unrivalled, Later;
    if groups != [] {
      var n := |groups| - 1;
      var mid := ResolveGroups(players, groups[..n], location, known).result.0;
      var after := ResolveGroups(players, groups, location, known).result.0;
      GroupExtends(mid, groups[n].0, groups[n].1, location, known);
      ExtendTransitive(mid, after, q);
      GroupsLater(players, groups[..n], location, known, q);
      GroupLater(mid, groups[n].0, groups[n].1, location, known, q);
    }
  }

  /** A resolved batch only adds rows and fills null columns. */
  lemma {:induction false} GroupsExtend(players: seq<Player>, groups: Groups, location: Id, known: set<Id>)
    requires NonEmptyGroups(groups) && ResolveGroups(players, groups, location, known).Returned?
    ensures PlayersExtend(players, ResolveGroups(players, groups, location, known).result.0)
    decreases |groups|
  {
    hide Slug, ResolveGroup, RowExtends, NewRowsAreOf;
    if groups == [] {
      ExtendReflexive(players);
    } else {
      var n := |groups| - 1;
      var mid := ResolveGroups(players, groups[..n], location, known).result.0;
      GroupsExtend(players, groups[..n], location, known);
      GroupExtends(mid, groups[n].0, groups[n].1, location, known);
      ExtendTransitive(players, mid, ResolveGroups(players, groups, location, known).result.0);
    }
  }

  lemma ExtendReflexive(players: seq<Player>)
    ensures PlayersExtend(players, players)
  {
  }

  /** A table in which no further row of the batch's names has appeared. */
  lemma {:induction false} SettledAtOnce(players: seq<Player>, records: seq<PlayerRecord>, groups: Groups,
                                         location: Id, known: set<Id>, q: seq<Player>)
    requires PlainGroups(groups, records)
    requires ResolveGroups(players, groups, location, known).Returned?
    requires var after := ResolveGroups(players, groups, location, known).result.0;
             PlayersExtend(after, q) && forall i :: 0 <= i < |groups| ==> NoNewRowOf(after, q, groups[i].0)
    ensures AllSettled(groups, ResolveGroups(players, groups, location, known).result.1, q)
    decreases |groups|
  {
    hide Slug, NameOf, KeyOf, ResolveGroup, RowExtends, NoNewRowOf, NewRowsAreOf, KeysForName;
    if groups != [] {
      var n := |groups| - 1;
      var mid := ResolveGroups(players, groups[..n], location, known).result.0;
      var after := ResolveGroups(players, groups, location, known).result.0;
      GroupExtends(mid, groups[n].0, groups[n].1, location, known);
      ExtendTransitive(mid, after, q);
      NewRowsOfEarlierNames(mid, after, q, records, groups);
      SettledAtOnce(players, records, groups[..n], location, known, q);
      if !ResolveGroups(players, groups, location, known).result.1[n].Ambiguous? {
        SettledRow(mid, groups[n].0, groups[n].1, location, known);
        SoleKeyStays(after, q, groups[n].0, GroupBy(groups[n].1, KeyOf)[0].0);
      }
    }
  }

  /** One row per name leaves a settled row without a rival. */
  lemma SoleByName(after: seq<Player>, q: seq<Player>, name: string, group: seq<PlayerRecord>, id: nat)
    requires OneRowPerName(q) && PlayersExtend(after, q) && GroupBy(group, KeyOf) != []
    requires group != [] && forall r :: r in group ==> NameOf(r) == name && PlainName(r.first, r.last)
    requires id < |after| && after[id].dedupKey == GroupBy(group, KeyOf)[0].0
    ensures Unrivalled(q, name, group)
  {
    var key, r := GroupBy(group, KeyOf)[0].0, group[0];
    assert r in group;
    SoleIdentity(group);
    LookupExact(q, r.first, r.last);
    assert RowExtends(after[id], q[id]);
    var own := GroupBy(group, KeyOf)[0].1[0];
    assert KeyOf(own) == key && own in group;
    assert name + "|" <= key;
    hide Slug, GroupBy, KeyOf, NameOf, RowConsistent, RowName;
    forall k | k in KeysForName(q, name) ensures k == key {
      var i :| 0 <= i < |q| && name + "|" <= q[i].dedupKey && q[i].dedupKey == k;
      assert RowName(q[i]) == name == RowName(q[id]);
    }
  }

  lemma {:induction false} SettledByName(players: seq<Player>, records: seq<PlayerRecord>, groups: Groups,
                                         location: Id, known: set<Id>, q: seq<Player>)
    requires PlainGroups(groups, records) && OneRowPerName(q)
    requires ResolveGroups(players, groups, location, known).Returned?
    requires PlayersExtend(ResolveGroups(players, groups, location, known).result.0, q)
    ensures AllSettled(groups, ResolveGroups(players, groups, location, known).result.1, q)
    decreases |groups|
  {
    hide Slug, NameOf, KeyOf, ResolveGroup, RowExtends, NewRowsAreOf, KeysForName, Unrivalled, OneRowPerName;
    if groups != [] {
      var n := |groups| - 1;
      var mid := ResolveGroups(players, groups[..n], location, known).result.0;
      var after := ResolveGroups(players, groups, location, known).result.0;
      GroupExtends(mid, groups[n].0, groups[n].1, location, known);
      ExtendTransitive(mid, after, q);
      SettledByName(players, records, groups[..n], location, known, q);
      if !ResolveGroups(players, groups, location, known).result.1[n].Ambiguous? {
        SettledRow(mid, groups[n].0, groups[n].1, location, known);
        SoleByName(after, q, groups[n].0, groups[n].1, ResolveGroups(players, groups, location, known).result.1[n].id);
      }
    }
  }

  lemma NewRowsOfEarlierNames(mid: seq<Player>, after: seq<Player>, q: seq<Player>, records: seq<PlayerRecord>,
                              groups: Groups)
    requires groups != [] && PlainGroups(groups, records)
    requires PlayersExtend(after, q) && NewRowsAreOf(mid, after, groups[|groups| - 1].1)
    requires forall i :: 0 <= i < |groups| ==> NoNewRowOf(after, q, groups[i].0)
    ensures forall i :: 0 <= i < |groups| - 1 ==> NoNewRowOf(mid, q, groups[i].0)
  {
    hide Slug;
    forall i | 0 <= i < |groups| - 1 ensures NoNewRowOf(mid, q, groups[i].0) {
      NewRowsOfOtherNames(mid, after, q, groups[i], groups[|groups| - 1]);
    }
  }

  lemma NewRowsOfOtherNames(mid: seq<Player>, after: seq<Player>, q: seq<Player>,
                            one: (string, seq<PlayerRecord>), other: (string, seq<PlayerRecord>))
    requires NewRowsAreOf(mid, after, other.1) && PlayersExtend(after, q) && NoNewRowOf(after, q, one.0)
    requires one.0 != other.0 && one.1 != []
    requires forall r :: r in one.1 ==> NameOf(r) == one.0 && PlainName(r.first, r.last)
    requires forall r :: r in other.1 ==> NameOf(r) == other.0 && PlainName(r.first, r.last)
    ensures NoNewRowOf(mid, q, one.0)
  {
    var r := one.1[0];
    assert r in one.1;
    forall i | |mid| <= i < |after| ensures !(one.0 + "|" <= q[i].dedupKey) {
      assert RowExtends(after[i], q[i]);
      var s :| s in other.1 && after[i].dedupKey == KeyOf(s);
      NamePrefixExact(Slug(r.first), Slug(r.last), Slug(s.first), Slug(s.last), BirthIso(s.birth));
    }
  }

  lemma {:induction false} ReportAgain(a: ResolutionResult, b: ResolutionResult, groups: Groups,
                                       first: seq<Verdict>, second: seq<Verdict>)
    requires |groups| == |first| == |second|
    requires forall i :: 0 <= i < |groups| ==> second[i] == Again(first[i])
    requires a.resolved == b.resolved == b.mergedIntoExisting && a.flagged == b.flagged && b.created == []
    ensures var x, y := ReportAll(a, groups, first), ReportAll(b, groups, second);
            x.resolved == y.resolved == y.mergedIntoExisting && x.flagged == y.flagged && y.created == []
    decreases |groups|
  {
    if groups != [] {
      var n := |groups| - 1;
      ReportAgain(a, b, groups[..n], first[..n], second[..n]);
    }
  }

  lemma NoNewRowOfGroups(records: seq<PlayerRecord>, groups: Groups, after: seq<Player>, q: seq<Player>)
    requires PlainGroups(groups, records) && |after| <= |q|
    requires forall r :: r in records ==> NoNewRowOf(after, q, NameOf(r))
    ensures forall i :: 0 <= i < |groups| ==> NoNewRowOf(after, q, groups[i].0)
  {
    forall i | 0 <= i < |groups| ensures NoNewRowOf(after, q, groups[i].0) {
      var r := groups[i].1[0];
      assert r in groups[i].1;
      assert NoNewRowOf(after, q, NameOf(r)) && NameOf(r) == groups[i].0;
    }
  }

  /** Resolving `records` against `q` creates nothing, changes no row, and resolves
      and flags exactly what it resolved and flagged against `players`. */
  ghost predicate Repeats(players: seq<Player>, records: seq<PlayerRecord>, location: Id, known: set<Id>,
                          q: seq<Player>)
    requires Resolved(players, records, location, known).Returned?
  {
    && Resolved(q, records, location, known).Returned?
    && var first, second := Resolved(players, records, location, known).result,
                            Resolved(q, records, location, known).result;
       && second.0 == q && second.1.created == []
       && second.1.resolved == first.1.resolved == second.1.mergedIntoExisting
       && second.1.flagged == first.1.flagged
  }

  /** A flagged group adds a flag for each of its records. */
  lemma AmbiguityFlags(sofar: ResolutionResult, group: seq<PlayerRecord>)
    requires group != []
    ensures |Report(sofar, group, Ambiguous).flagged| > |sofar.flagged|
  {
    GroupByGrouped(group, KeyOf);
    assert |multiset(Members(GroupBy(group, KeyOf)))| == |multiset(group)|;
  }

  lemma OneReport(a: ResolutionResult, b: ResolutionResult, group: seq<PlayerRecord>, v: Verdict, w: Verdict)
    requires group != [] && (w == Again(v) || w.Ambiguous?) && |a.flagged| <= |b.flagged| && b.created == []
    ensures Report(b, group, w).created == []
    ensures |Report(a, group, v).flagged| <= |Report(b, group, w).flagged|
    ensures w != Again(v) || |a.flagged| < |b.flagged| ==>
              |Report(a, group, v).flagged| < |Report(b, group, w).flagged|
  {
    AmbiguityFlags(b, group);
    hide Members, FlagAll, AssignAll;
  }

  /** The later report flags more as soon as one group is no longer settled. */
  lemma {:induction false} FlagsGrow(a: ResolutionResult, b: ResolutionResult, groups: Groups,
                                     first: seq<Verdict>, second: seq<Verdict>)
    requires |groups| == |first| == |second| && NonEmptyGroups(groups)
    requires forall i :: 0 <= i < |groups| ==> second[i] == Again(first[i]) || second[i].Ambiguous?
    requires |a.flagged| <= |b.flagged| && b.created == []
    ensures ReportAll(b, groups, second).created == []
    ensures |ReportAll(a, groups, first).flagged| <= |ReportAll(b, groups, second).flagged|
    ensures (exists i :: 0 <= i < |groups| && second[i] != Again(first[i])) ==>
              |ReportAll(a, groups, first).flagged| < |ReportAll(b, groups, second).flagged|
    decreases |groups|
  {
    hide Report, Again;
    if groups != [] {
      var n := |groups| - 1;
      FlagsGrow(a, b, groups[..n], first[..n], second[..n]);
      OneReport(ReportAll(a, groups[..n], first[..n]), ReportAll(b, groups[..n], second[..n]), groups[n].1,
                first[n], second[n]);
    }
  }

  lemma NamedInGroups(records: seq<PlayerRecord>, r: PlayerRecord)
    requires r in records && HasName(r)
    ensures exists i :: 0 <= i < |NameGroups(records)| && r in NameGroups(records)[i].1
  {
    hide Slug, HasName, NameOf, GroupBy;
    var named, groups := Named(records), NameGroups(records);
    GroupByGrouped(named, NameOf);
    assert r in multiset(named);
    assert r in Members(groups);
    MemberInGroup(groups, r);
  }

  lemma NameGroupsNamed(records: seq<PlayerRecord>)
    ensures OfTheirNames(NameGroups(records))
    ensures forall r :: r in records && HasName(r) <==>
              exists i :: 0 <= i < |NameGroups(records)| && r in NameGroups(records)[i].1
  {
    hide Slug, HasName, NameOf;
    NameGroupsOf(records);
    hide NameGroups;
    forall r | r in records && HasName(r)
      ensures exists i :: 0 <= i < |NameGroups(records)| && r in NameGroups(records)[i].1
    {
      NamedInGroups(records, r);
    }
  }

  lemma {:induction false} MemberInGroup(groups: Groups, r: PlayerRecord)
    requires r in Members(groups)
    ensures exists i :: 0 <= i < |groups| && r in groups[i].1
  {
    if r in groups[0].1 {
      assert 0 < |groups|;
    } else {
      MemberInGroup(groups[1..], r);
      var i :| 0 <= i < |groups[1..]| && r in groups[1..][i].1;
      assert groups[i + 1] == groups[1..][i];
    }
  }

  /** Whatever the names are, in any later table a batch creates nothing and changes
      no row; it resolves and flags as it did exactly when every group that was
      resolved is still without a rival. */
  lemma ResolveLater(players: seq<Player>, records: seq<PlayerRecord>, location: Id, known: set<Id>, q: seq<Player>)
    requires Resolved(players, records, location, known).Returned?
    requires PlayersExtend(Resolved(players, records, location, known).result.0, q)
    ensures Resolved(q, records, location, known).Returned?
    ensures var first, second := Resolved(players, records, location, known).result,
                                 Resolved(q, records, location, known).result;
            var verdicts := ResolveGroups(players, NameGroups(records), location, known).result.1;
            && second.0 == q && second.1.created == []
            && (AllSettled(NameGroups(records), verdicts, q) <==> second.1.flagged == first.1.flagged)
            && (AllSettled(NameGroups(records), verdicts, q) <==> Repeats(players, records, location, known, q))
  {
    hide Slug, HasName, NameOf, KeyOf;
    var groups := NameGroups(records);
    NameGroupsNamed(records);
    GroupsLater(players, groups, location, known, q);
    var first, second := ResolveGroups(players, groups, location, known).result.1,
                         ResolveGroups(q, groups, location, known).result.1;
    var start := ResolutionResult(map[], [], map[], FlagAll(Nameless(records), MissingName));
    FlagsGrow(start, start, groups, first, second);
    if AllSettled(groups, first, q) {
      ReportAgain(start, start, groups, first, second);
    } else {
      var i :| 0 <= i < |groups| && !first[i].Ambiguous? && !Unrivalled(q, groups[i].0, groups[i].1);
      assert second[i] != Again(first[i]);
    }
  }

  /** No other key in the table starts with this record's name. */
  ghost predicate AloneUnderName(players: seq<Player>, r: PlayerRecord) {
    forall k :: k in KeysForName(players, NameOf(r)) ==> k == KeyOf(r)
  }

  /** Every record that was resolved is alone under its name. */
  ghost predicate AllAlone(q: seq<Player>, records: seq<PlayerRecord>, resolved: map<Id, nat>) {
    forall r :: r in records && r.identity in resolved ==> AloneUnderName(q, r)
  }

  /** No record id is given to two names. */
  ghost predicate OneNamePerId(records: seq<PlayerRecord>) {
    forall r, s :: r in records && s in records && r.identity == s.identity ==> NameOf(r) == NameOf(s)
  }

  lemma {:induction false} AssignedTo(m: map<Id, nat>, rs: seq<PlayerRecord>, id: nat)
    ensures forall k :: k in AssignAll(m, rs, id) <==> k in m || exists r :: r in rs && r.identity == k
    ensures forall r :: r in rs ==> AssignAll(m, rs, id)[r.identity] == id
    ensures forall k :: k in m && (forall r :: r in rs ==> r.identity != k) ==> AssignAll(m, rs, id)[k] == m[k]
    decreases |rs|
  {
    if rs != [] {
      var front, last := rs[..|rs| - 1], rs[|rs| - 1];
      AssignedTo(m, front, id);
      assert rs == front + [last];
    }
  }

  /** The groups share no record id. */
  ghost predicate Apart(groups: Groups) {
    forall i, j, r, s :: 0 <= i < j < |groups| && r in groups[i].1 && s in groups[j].1 ==> r.identity != s.identity
  }

  ghost predicate HasId(groups: Groups, k: Id) {
    exists i, r :: 0 <= i < |groups| && r in groups[i].1 && r.identity == k
  }

  /** The id the records of one group are resolved to is their verdict's. */
  ghost predicate ReportedOne(resolved: map<Id, nat>, group: seq<PlayerRecord>, v: Verdict) {
    forall r :: r in group ==>
      && (r.identity in resolved <==> !v.Ambiguous?)
      && (r.identity in resolved ==> resolved[r.identity] == v.id)
  }

  ghost predicate Reported(resolved: map<Id, nat>, groups: Groups, verdicts: seq<Verdict>)
    requires |groups| == |verdicts|
  {
    && (forall k :: k in resolved ==> HasId(groups, k))
    && (forall i :: 0 <= i < |groups| ==> ReportedOne(resolved, groups[i].1, verdicts[i]))
  }

  lemma HasIdGrows(groups: Groups, k: Id)
    requires groups != []
    ensures HasId(groups, k) <==>
              HasId(groups[..|groups| - 1], k) || exists r :: r in groups[|groups| - 1].1 && r.identity == k
  {
    var n := |groups| - 1;
    var front := groups[..n];
    if HasId(groups, k) {
      var i, r :| 0 <= i < |groups| && r in groups[i].1 && r.identity == k;
      assert i < n ==> r in front[i].1;
    }
    if HasId(front, k) {
      var i, r :| 0 <= i < n && r in front[i].1 && r.identity == k;
      assert r in groups[i].1;
    }
  }

  lemma NewIds(groups: Groups, r: PlayerRecord)
    requires groups != [] && Apart(groups) && r in groups[|groups| - 1].1
    ensures !HasId(groups[..|groups| - 1], r.identity)
  {
    var front := groups[..|groups| - 1];
    assert forall i, s :: 0 <= i < |front| && s in front[i].1 ==> s in groups[i].1;
  }

  lemma EarlierIds(groups: Groups, i: nat, r: PlayerRecord)
    requires groups != [] && Apart(groups) && i < |groups| - 1 && r in groups[i].1
    ensures forall s :: s in groups[|groups| - 1].1 ==> s.identity != r.identity
  {
  }

  lemma ReportedEarlier(m: map<Id, nat>, n: map<Id, nat>, group: seq<PlayerRecord>, v: Verdict)
    requires ReportedOne(m, group, v)
    requires forall r :: r in group ==>
               (r.identity in m <==> r.identity in n) && (r.identity in m ==> n[r.identity] == m[r.identity])
    ensures ReportedOne(n, group, v)
  {
  }

  lemma ReportNext(resolved: map<Id, nat>, groups: Groups, verdicts: seq<Verdict>)
    requires groups != [] && |groups| == |verdicts| && Apart(groups)
    requires Reported(resolved, groups[..|groups| - 1], verdicts[..|groups| - 1])
    ensures var n := |groups| - 1;
            Reported(if verdicts[n].Ambiguous? then resolved
                     else AssignAll(resolved, groups[n].1, verdicts[n].id), groups, verdicts)
  {
    hide AssignAll, HasId, Apart;
    var n := |groups| - 1;
    var after := if verdicts[n].Ambiguous? then resolved else AssignAll(resolved, groups[n].1, verdicts[n].id);
    AssignedTo(resolved, groups[n].1, if verdicts[n].Ambiguous? then 0 else verdicts[n].id);
    forall k | k in after ensures HasId(groups, k) {
      HasIdGrows(groups, k);
    }
    forall r | r in groups[n].1 ensures r.identity !in resolved {
      NewIds(groups, r);
    }
    assert ReportedOne(after, groups[n].1, verdicts[n]);
    forall i | 0 <= i < n ensures ReportedOne(after, groups[i].1, verdicts[i]) {
      assert groups[..n][i] == groups[i] && verdicts[..n][i] == verdicts[i];
      assert ReportedOne(resolved, groups[i].1, verdicts[i]);
      forall r | r in groups[i].1
        ensures (r.identity in resolved <==> r.identity in after)
                && (r.identity in resolved ==> after[r.identity] == resolved[r.identity])
      {
        EarlierIds(groups, i, r);
      }
      hide ReportedOne;
      ReportedEarlier(resolved, after, groups[i].1, verdicts[i]);
    }
  }

  lemma {:induction false} ReportMeaning(start: ResolutionResult, groups: Groups, verdicts: seq<Verdict>)
    requires |groups| == |verdicts| && Apart(groups) && start.resolved == map[]
    ensures Reported(ReportAll(start, groups, verdicts).resolved, groups, verdicts)
    decreases |groups|
  {
    hide Reported, AssignAll;
    if groups == [] {
      assert Reported(map[], [], []) by { NothingReported(); }
    } else {
      var n := |groups| - 1;
      ApartPrefix(groups);
      ReportMeaning(start, groups[..n], verdicts[..n]);
      ReportNext(ReportAll(start, groups[..n], verdicts[..n]).resolved, groups, verdicts);
    }
  }

  lemma NothingReported()
    ensures Reported(map[], [], [])
  {
  }

  lemma ApartPrefix(groups: Groups)
    requires Apart(groups) && groups != []
    ensures Apart(groups[..|groups| - 1])
  {
  }

  lemma NameGroupsApart(records: seq<PlayerRecord>)
    requires OneNamePerId(records)
    ensures Apart(NameGroups(records))
  {
    hide Slug, NameOf, HasName;
    NameGroupsOf(records);
  }

  lemma GroupAlone(q: seq<Player>, name: string, group: seq<PlayerRecord>)
    requires group != [] && (forall r :: r in group ==> NameOf(r) == name) && |GroupBy(group, KeyOf)| == 1
    ensures forall r :: r in group ==> (AloneUnderName(q, r) <==> Unrivalled(q, name, group))
  {
    SoleIdentity(group);
    hide GroupBy, KeyOf, NameOf, KeysForName;
  }

  /** A name is all it takes to tell the nameless. */
  lemma SameNameSameHasName(r: PlayerRecord, s: PlayerRecord)
    requires NameOf(r) == NameOf(s)
    ensures HasName(r) == HasName(s)
  {
    hide Slug;
    assert !HasName(r) <==> |NameOf(r)| == 1;
    assert !HasName(s) <==> |NameOf(s)| == 1;
  }

  lemma ResolvedHasName(groups: Groups, verdicts: seq<Verdict>, resolved: map<Id, nat>, records: seq<PlayerRecord>,
                        r: PlayerRecord)
    requires |groups| == |verdicts| && Reported(resolved, groups, verdicts) && OneNamePerId(records)
    requires forall x :: x in records && HasName(x) <==> exists i :: 0 <= i < |groups| && x in groups[i].1
    requires r in records && r.identity in resolved
    ensures HasName(r)
  {
    hide NameOf, HasName;
    assert HasId(groups, r.identity);
    var i, s :| 0 <= i < |groups| && s in groups[i].1 && s.identity == r.identity;
    SameNameSameHasName(r, s);
  }

  lemma SettledIffAlone(groups: Groups, verdicts: seq<Verdict>, resolved: map<Id, nat>, records: seq<PlayerRecord>,
                        q: seq<Player>)
    requires OfTheirNames(groups) && |groups| == |verdicts| && Reported(resolved, groups, verdicts)
    requires OneNamePerId(records)
    requires forall r :: r in records && HasName(r) <==> exists i :: 0 <= i < |groups| && r in groups[i].1
    requires forall i :: 0 <= i < |groups| && !verdicts[i].Ambiguous? ==> |GroupBy(groups[i].1, KeyOf)| == 1
    ensures AllSettled(groups, verdicts, q) <==> AllAlone(q, records, resolved)
  {
    hide AloneUnderName, Unrivalled, NameOf, HasName, GroupBy, KeyOf, OneNamePerId;
    forall i | 0 <= i < |groups| && !verdicts[i].Ambiguous?
      ensures forall r :: r in groups[i].1 ==> (AloneUnderName(q, r) <==> Unrivalled(q, groups[i].0, groups[i].1))
    {
      GroupAlone(q, groups[i].0, groups[i].1);
    }
    if AllSettled(groups, verdicts, q) {
      forall r | r in records && r.identity in resolved ensures AloneUnderName(q, r) {
        ResolvedHasName(groups, verdicts, resolved, records, r);
        var i :| 0 <= i < |groups| && r in groups[i].1;
      }
    } else {
      var i :| 0 <= i < |groups| && !verdicts[i].Ambiguous? && !Unrivalled(q, groups[i].0, groups[i].1);
      var r := groups[i].1[0];
      assert r in groups[i].1;
    }
  }

  /** Both reports give each record its group's answer, and the later one no other id. */
  lemma ReportsMatch(players: seq<Player>, records: seq<PlayerRecord>, location: Id, known: set<Id>, q: seq<Player>)
    requires Apart(NameGroups(records)) && OfTheirNames(NameGroups(records))
    requires Resolved(players, records, location, known).Returned?
    requires PlayersExtend(Resolved(players, records, location, known).result.0, q)
    ensures Resolved(q, records, location, known).Returned?
    ensures var groups := NameGroups(records);
            var verdicts := ResolveGroups(players, groups, location, known).result.1;
            var first, second := Resolved(players, records, location, known).result.1.resolved,
                                 Resolved(q, records, location, known).result.1.resolved;
            && Reported(first, groups, verdicts)
            && (forall i :: 0 <= i < |groups| && !verdicts[i].Ambiguous? ==> |GroupBy(groups[i].1, KeyOf)| == 1)
            && (forall k :: k in second ==> k in first && second[k] == first[k])
  {
    hide Slug, HasName, NameOf, KeyOf, Reported, Apart, GroupBy, Unrivalled;
    var groups := NameGroups(records);
    GroupsLater(players, groups, location, known, q);
    var first, second := ResolveGroups(players, groups, location, known).result.1,
                         ResolveGroups(q, groups, location, known).result.1;
    var start := ResolutionResult(map[], [], map[], FlagAll(Nameless(records), MissingName));
    ReportMeaning(start, groups, first);
    ReportMeaning(start, groups, second);
    hide ReportAll;
    FewerReported(ReportAll(start, groups, first).resolved, ReportAll(start, groups, second).resolved, groups, first,
                  second);
  }

  lemma FewerReported(m: map<Id, nat>, n: map<Id, nat>, groups: Groups, first: seq<Verdict>, second: seq<Verdict>)
    requires |groups| == |first| == |second| && Reported(m, groups, first) && Reported(n, groups, second)
    requires forall i :: 0 <= i < |groups| ==> second[i].Ambiguous? || second[i] == Again(first[i])
    ensures forall k :: k in n ==> k in m && n[k] == m[k]
  {
    hide ReportedOne;
    forall k | k in n ensures k in m && n[k] == m[k] {
      assert HasId(groups, k);
      var i, r :| 0 <= i < |groups| && r in groups[i].1 && r.identity == k;
      assert ReportedOne(m, groups[i].1, first[i]) && ReportedOne(n, groups[i].1, second[i]);
      OneFewer(m, n, groups[i].1, first[i], second[i], r);
    }
  }

  lemma OneFewer(m: map<Id, nat>, n: map<Id, nat>, group: seq<PlayerRecord>, v: Verdict, w: Verdict, r: PlayerRecord)
    requires ReportedOne(m, group, v) && ReportedOne(n, group, w) && (w.Ambiguous? || w == Again(v))
    requires r in group && r.identity in n
    ensures r.identity in m && n[r.identity] == m[r.identity]
  {
  }

  /** Resolving a batch again right away, or in any later table: with no id given to
      two names, it resolves and flags as before exactly when no record it resolved
      has got a rival, which is a look at the stored keys that start with its name;
      what it still resolves, it resolves to the same row. */
  lemma ResolveTwice(players: seq<Player>, records: seq<PlayerRecord>, location: Id, known: set<Id>, q: seq<Player>)
    requires OneNamePerId(records)
    requires Resolved(players, records, location, known).Returned?
    requires PlayersExtend(Resolved(players, records, location, known).result.0, q)
    ensures Resolved(q, records, location, known).Returned?
    ensures var first, second := Resolved(players, records, location, known).result.1,
                                 Resolved(q, records, location, known).result.1;
            && (second.flagged == first.flagged <==> AllAlone(q, records, first.resolved))
            && (Repeats(players, records, location, known, q) <==> AllAlone(q, records, first.resolved))
            && (forall k :: k in second.resolved ==> k in first.resolved && second.resolved[k] == first.resolved[k])
  {
    hide Slug, HasName, NameOf, KeyOf, AllSettled, AllAlone, Reported, OneNamePerId, Repeats, Apart;
    var groups := NameGroups(records);
    NameGroupsNamed(records);
    NameGroupsApart(records);
    ResolveLater(players, records, location, known, q);
    ReportsMatch(players, records, location, known, q);
    SettledIffAlone(groups, ResolveGroups(players, groups, location, known).result.1,
                    Resolved(players, records, location, known).result.1.resolved, records, q);
  }

  lemma SettledRepeats(players: seq<Player>, records: seq<PlayerRecord>, location: Id, known: set<Id>, q: seq<Player>)
    requires Resolved(players, records, location, known).Returned?
    requires PlayersExtend(Resolved(players, records, location, known).result.0, q)
    requires AllSettled(NameGroups(records), ResolveGroups(players, NameGroups(records), location, known).result.1, q)
    ensures Repeats(players, records, location, known, q)
  {
    hide Slug, AllSettled, Repeats;
    ResolveLater(players, records, location, known, q);
  }

  /** In any later table that still has at most one row per name a batch resolves
      as it did, whatever else has been resolved in between. */
  lemma ResolveAgain(players: seq<Player>, records: seq<PlayerRecord>, location: Id, known: set<Id>, q: seq<Player>)
    requires PlainRecords(records) && OneRowPerName(q)
    requires Resolved(players, records, location, known).Returned?
    requires PlayersExtend(Resolved(players, records, location, known).result.0, q)
    ensures Repeats(players, records, location, known, q)
  {
    hide Slug, OneRowPerName, AllSettled, Repeats;
    NameGroupsPlain(records);
    SettledByName(players, records, NameGroups(records), location, known, q);
    SettledRepeats(players, records, location, known, q);
  }

  /** So does a batch of plain names resolved once more before anything else, from any
      table. */
  lemma ResolveTwicePlain(players: seq<Player>, records: seq<PlayerRecord>, location: Id, known: set<Id>,
                          q: seq<Player>)
    requires PlainRecords(records)
    requires Resolved(players, records, location, known).Returned?
    requires var after := Resolved(players, records, location, known).result.0;
             PlayersExtend(after, q) && forall r :: r in records ==> NoNewRowOf(after, q, NameOf(r))
    ensures Repeats(players, records, location, known, q)
  {
    hide Slug, AllSettled, Repeats, NoNewRowOf;
    var groups := NameGroups(records);
    NameGroupsPlain(records);
    NoNewRowOfGroups(records, groups, ResolveGroups(players, groups, location, known).result.0, q);
    SettledAtOnce(players, records, groups, location, known, q);
    SettledRepeats(players, records, location, known, q);
  }

  // ------------------------------------------------------------------
  // Runs of batches
  // ------------------------------------------------------------------

  datatype Batch = Batch(records: seq<PlayerRecord>, location: Id)

  /** A batch that raises is rolled back. */
  ghost function AfterBatch(players: seq<Player>, b: Batch, known: set<Id>): seq<Player> {
    var run := Resolved(players, b.records, b.location, known);
    if run.Raised? then players else run.result.0
  }

  ghost function AfterBatches(players: seq<Player>, bs: seq<Batch>, known: set<Id>): seq<Player> {
    if bs == [] then players else AfterBatch(AfterBatches(players, bs[..|bs| - 1], known), bs[|bs| - 1], known)
  }

  lemma BatchKeeps(players: seq<Player>, b: Batch, known: set<Id>)
    requires OneRowPerName(players) && PlainRecords(b.records)
    ensures OneRowPerName(AfterBatch(players, b, known)) && PlayersExtend(players, AfterBatch(players, b, known))
  {
    hide Slug, OneRowPerName, PlainRecords;
    if Resolved(players, b.records, b.location, known).Returned? {
      ResolveKeepsOneRowPerName(players, b.records, b.location, known);
      GroupsExtend(players, NameGroups(b.records), b.location, known);
    } else {
      ExtendReflexive(players);
    }
  }

  lemma {:induction false} BatchesKeep(players: seq<Player>, bs: seq<Batch>, known: set<Id>, i: nat)
    requires OneRowPerName(players) && (forall b :: b in bs ==> PlainRecords(b.records)) && i <= |bs|
    ensures OneRowPerName(AfterBatches(players, bs, known))
    ensures PlayersExtend(AfterBatches(players, bs[..i], known), AfterBatches(players, bs, known))
    decreases |bs|
  {
    hide OneRowPerName, PlainRecords, AfterBatch, PlayersExtend;
    if bs == [] {
      ExtendReflexive(players);
    } else {
      var front, last := bs[..|bs| - 1], bs[|bs| - 1];
      var mid := AfterBatches(players, front, known);
      if i == |bs| {
        BatchesKeep(players, front, known, 0);
        BatchKeeps(mid, last, known);
        ExtendReflexive(AfterBatches(players, bs, known));
        assert bs[..i] == bs;
      } else {
        BatchesKeep(players, front, known, i);
        BatchKeeps(mid, last, known);
        assert front[..i] == bs[..i];
        ExtendTransitive(AfterBatches(players, bs[..i], known), mid, AfterBatches(players, bs, known));
      }
    }
  }

  /** From a table with one row per name, over any run of batches of plain names:
      resolving any batch of the run once more at its end returns the ids and flags
      it returned then, and adds and changes no row. */
  lemma ResolvedForGood(players: seq<Player>, bs: seq<Batch>, i: nat, known: set<Id>)
    requires OneRowPerName(players) && (forall b :: b in bs ==> PlainRecords(b.records)) && i < |bs|
    requires Resolved(AfterBatches(players, bs[..i], known), bs[i].records, bs[i].location, known).Returned?
    ensures Repeats(AfterBatches(players, bs[..i], known), bs[i].records, bs[i].location, known,
                    AfterBatches(players, bs, known))
  {
    hide Slug, OneRowPerName, PlainRecords, Resolved, Repeats;
    BatchesKeep(players, bs, known, i + 1);
    assert bs[..i + 1][..i] == bs[..i] && bs[i] in bs;
    ResolveAgain(AfterBatches(players, bs[..i], known), bs[i].records, bs[i].location, known,
                 AfterBatches(players, bs, known));
  }

  // ------------------------------------------------------------------
  // One record (the sync path)
  // ------------------------------------------------------------------

  function OwnAttributes(r: PlayerRecord): Attrs {
    Attrs(if IsPresent(r.first) then r.first else None,
          if IsPresent(r.last) then r.last else None,
          r.birth,
          if IsPresent(r.grade) then r.grade else None,
          r.photo)
  }

  lemma SingleGroup(r: PlayerRecord, key: PlayerRecord -> string)
    ensures GroupBy([r], key) == [(key(r), [r])]
  {
    assert [r][..0] == [];
  }

  lemma SingleAttributes(r: PlayerRecord)
    ensures MergedAttributes([r]) == OwnAttributes(r)
  {
    assert ByConfidence([r]) == [r];
    forall attr ensures Supplier([r], attr) == if Supplies(r, attr) then Some(r) else None {
      SupplierMeaning([r], attr);
    }
  }

  lemma ReportOne(name: string, r: PlayerRecord, v: Verdict)
    ensures ReportAll(ResolutionResult(map[], [], map[], []), [(name, [r])], [v]) ==
            match v
            case Ambiguous => ResolutionResult(map[], [], map[], [Flag(r.identity, KeyOf(r), AmbiguousMerge)])
            case MergedInto(id) => ResolutionResult(map[r.identity := id], [], map[r.identity := id], [])
            case Inserted(id) => ResolutionResult(map[r.identity := id], [id], map[], [])
  {
    var none := ResolutionResult(map[], [], map[], []);
    assert [(name, [r])][..0] == [] && [v][..0] == [] && [r][..0] == [] && [r][1..] == [];
    assert ReportAll(none, [], []) == none;
    SingleGroup(r, KeyOf);
    assert Members([(KeyOf(r), [r])]) == [r];
    assert FlagAll([r], AmbiguousMerge) == [] + [Flag(r.identity, KeyOf(r), AmbiguousMerge)]
                                        == [Flag(r.identity, KeyOf(r), AmbiguousMerge)];
    if !v.Ambiguous? {
      assert AssignAll(map[], [r], v.id) == map[r.identity := v.id];
      assert [] + [v.id] == [v.id];
    }
  }

  lemma ResolveOneGroup(players: seq<Player>, name: string, r: PlayerRecord, location: Id, known: set<Id>)
    ensures var step := ResolveGroup(players, name, [r], location, known);
            ResolveGroups(players, [(name, [r])], location, known) ==
            if step.Raised? then Raised(step.message) else Returned((step.result.0, [step.result.1]))
  {
    assert [(name, [r])][..0] == [];
    assert ResolveGroups(players, [], location, known) == Returned((players, []));
    var step := ResolveGroup(players, name, [r], location, known);
    if step.Returned? {
      assert [] + [step.result.1] == [step.result.1];
    }
  }

  /** Resolving one candidate: the four ways it can end. */
  lemma ResolveOne(players: seq<Player>, r: PlayerRecord, location: Id, known: set<Id>)
    ensures var spec := Resolved(players, [r], location, known);
            var key, taken := KeyOf(r), FindPlayer(players, KeyOf(r));
            if !HasName(r) || exists k :: k in KeysForName(players, NameOf(r)) && k != key then
              && spec.Returned? && spec.result.0 == players
              && spec.result.1.resolved == map[] && |spec.result.1.flagged| == 1
            else if taken.Some? then
              var row := GapsClosed(players[taken.value], OwnAttributes(r));
              if row.Raised? then spec.Raised?
              else
                && spec.Returned? && spec.result.0 == players[taken.value := row.result]
                && spec.result.1 ==
                   ResolutionResult(map[r.identity := taken.value], [], map[r.identity := taken.value], [])
            else
              var row := NewPlayer(OwnAttributes(r), key, location, known);
              if row.Raised? then spec.Raised?
              else
                && spec.Returned? && spec.result.0 == players + [row.result]
                && spec.result.1 == ResolutionResult(map[r.identity := |players|], [|players|], map[], [])
  {
    SingleAttributes(r);
    SingleGroup(r, KeyOf);
    SingleGroup(r, NameOf);
    assert [r][1..] == [];
    if HasName(r) {
      assert Named([r]) == [r] && Nameless([r]) == [];
      assert NameGroups([r]) == [(NameOf(r), [r])];
      ResolveOneGroup(players, NameOf(r), r, location, known);
      var step := ResolveGroup(players, NameOf(r), [r], location, known);
      if step.Returned? {
        ReportOne(NameOf(r), r, step.result.1);
      }
    } else {
      assert Named([r]) == [] && Nameless([r]) == [r];
      assert NameGroups([r]) == [];
      assert [r][..0] == [] && FlagAll([r], MissingName) == [] + [Flag(r.identity, KeyOf(r), MissingName)];
    }
  }

  // ------------------------------------------------------------------
  // Two names that are not told apart
  // ------------------------------------------------------------------

  function Candidate(identity: Id, first: string, last: string): PlayerRecord {
    PlayerRecord(identity, Some(first), Some(last), NoBirth, None, None, 1.0)
  }

  /** A person nobody in the table can be confused with becomes the next row. */
  lemma NewcomerInserted(players: seq<Player>, r: PlayerRecord, location: Id, known: set<Id>)
    requires KeysForName(players, NameOf(r)) == {} && FindPlayer(players, KeyOf(r)).None?
    requires IsPresent(r.first) && !r.birth.Unparsable? && location in known
    ensures var step := ResolveGroup(players, NameOf(r), [r], location, known);
            && step.Returned? && step.result.1 == Inserted(|players|)
            && |step.result.0| == |players| + 1 && players <= step.result.0
            && step.result.0[|players|].dedupKey == KeyOf(r)
  {
    assert r.first.Some?;
    hide Slug, NameOf, IsPresent, KeysForName, MergedAttributes;
    SingleAttributes(r);
    SingleGroup(r, KeyOf);
    assert !IsAmbiguous(players, NameOf(r), GroupBy([r], KeyOf));
  }

  lemma TwoNameGroups(r: PlayerRecord, s: PlayerRecord)
    requires HasName(r) && HasName(s) && NameOf(r) != NameOf(s)
    ensures Named([r, s]) == [r, s] && Nameless([r, s]) == []
    ensures NameGroups([r, s]) == [(NameOf(r), [r]), (NameOf(s), [s])]
  {
    hide Slug, HasName;
    assert [r, s][1..] == [s] && [s][1..] == [];
    assert Named([s]) == [s] && Nameless([s]) == [];
    assert Named([r, s]) == [r] + [s] && Nameless([r, s]) == [];
    SingleGroup(r, NameOf);
    assert [r, s][..1] == [r];
    assert Put([(NameOf(r), [r])], NameOf(s), s) == [(NameOf(r), [r])] + Put([], NameOf(s), s);
  }

  lemma TwoGroups(players: seq<Player>, name: string, r: PlayerRecord, other: string, s: PlayerRecord, location: Id,
                  known: set<Id>)
    requires ResolveGroup(players, name, [r], location, known).Returned?
    requires ResolveGroup(ResolveGroup(players, name, [r], location, known).result.0, other, [s], location,
                          known).Returned?
    ensures var one := ResolveGroup(players, name, [r], location, known).result;
            var two := ResolveGroup(one.0, other, [s], location, known).result;
            ResolveGroups(players, [(name, [r]), (other, [s])], location, known) == Returned((two.0, [one.1, two.1]))
  {
    hide ResolveGroup;
    ResolveOneGroup(players, name, r, location, known);
    var groups := [(name, [r]), (other, [s])];
    assert groups[..|groups| - 1] == [(name, [r])] && groups[|groups| - 1] == (other, [s]);
    var one := ResolveGroup(players, name, [r], location, known).result;
    var two := ResolveGroup(one.0, other, [s], location, known).result;
    assert [one.1] + [two.1] == [one.1, two.1];
  }

  lemma KeyIsNotThere(players: seq<Player>, name: string, key: string)
    requires forall i :: 0 <= i < |players| ==> |players[i].dedupKey| <= |name|
    requires |key| > |name|
    ensures KeysForName(players, name) == {} && FindPlayer(players, key).None?
  {
  }

  lemma SeparatorNames()
    ensures var r, s := Candidate("p", "a", "b"), Candidate("q", "a|b", "c");
            && NameOf(r) == "a|b" && KeyOf(r) == "a|b|" && NameOf(s) == "a|b|c" && KeyOf(s) == "a|b|c|"
            && HasName(r) && HasName(s) && IsPresent(r.first) && IsPresent(s.first)
  {
    SeparatorSlugs();
    assert "a"[0] == 'a' && "a|b"[0] == 'a';
    hide Slug;
    assert BirthIso(NoBirth) == "";
  }

  /** `a b` and `a|b c`, resolved into an empty table: both become rows, and then the
      first is no longer alone under its name. */
  lemma SeparatorSplitsBatch()
    ensures var r, s := Candidate("p", "a", "b"), Candidate("q", "a|b", "c");
            var run := Resolved([], [r, s], "here", {"here"});
            && OneNamePerId([r, s]) && run.Returned? && run.result.1.flagged == [] && |run.result.0| == 2
            && "p" in run.result.1.resolved && run.result.0[1].dedupKey == "a|b|c|"
            && !AloneUnderName(run.result.0, r)
  {
    var r, s := Candidate("p", "a", "b"), Candidate("q", "a|b", "c");
    SeparatorNames();
    hide Slug, NameOf, KeyOf, HasName, IsPresent, KeysForName, FindPlayer, ResolveGroup, NameGroups, Nameless;
    KeyIsNotThere([], NameOf(r), KeyOf(r));
    NewcomerInserted([], r, "here", {"here"});
    var one := ResolveGroup([], NameOf(r), [r], "here", {"here"}).result;
    KeyIsNotThere(one.0, NameOf(s), KeyOf(s));
    NewcomerInserted(one.0, s, "here", {"here"});
    var two := ResolveGroup(one.0, NameOf(s), [s], "here", {"here"}).result;
    TwoNameGroups(r, s);
    TwoGroups([], NameOf(r), r, NameOf(s), s, "here", {"here"});
    TwoInserted(r, s);
    RivalKey(two.0, r, 1);
  }

  lemma TwoInserted(r: PlayerRecord, s: PlayerRecord)
    ensures var report := ReportAll(ResolutionResult(map[], [], map[], FlagAll([], MissingName)),
                                    [(NameOf(r), [r]), (NameOf(s), [s])], [Inserted(0), Inserted(1)]);
            report.flagged == [] && r.identity in report.resolved
  {
    hide NameOf;
    var start := ResolutionResult(map[], [], map[], []);
    var groups, verdicts := [(NameOf(r), [r]), (NameOf(s), [s])], [Inserted(0), Inserted(1)];
    assert groups[..1] == [(NameOf(r), [r])] && verdicts[..1] == [Inserted(0)];
    ReportOne(NameOf(r), r, Inserted(0));
    var one := ReportAll(start, groups[..1], verdicts[..1]);
    assert one == ResolutionResult(map[r.identity := 0], [0], map[], []);
    assert ReportAll(start, groups, verdicts) == Report(one, [s], Inserted(1));
    AssignedTo(one.resolved, [s], 1);
  }

  lemma RivalKey(players: seq<Player>, r: PlayerRecord, i: nat)
    requires i < |players| && NameOf(r) + "|" <= players[i].dedupKey && players[i].dedupKey != KeyOf(r)
    ensures !AloneUnderName(players, r)
  {
    hide NameOf, KeyOf;
    assert players[i].dedupKey in KeysForName(players, NameOf(r));
  }
}
