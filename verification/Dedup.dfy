/** Player identity: one row per person, found by a deterministic key. */
module Dedup {
  import opened Basics
  import opened Schema

  datatype PlayerRecord = PlayerRecord(
    identity: Id,
    first: Option<string>,
    last: Option<string>,
    birth: Birth,
    grade: Option<string>,
    photo: Option<bool>,
    confidence: real)

  // ------------------------------------------------------------------
  // Keys
  // ------------------------------------------------------------------

  function NameKey(first: Option<string>, last: Option<string>): string {
    Slug(first) + "|" + Slug(last)
  }

  function BirthIso(birth: Birth): string {
    if birth.BirthDate? then birth.iso else ""
  }

  function DedupKey(first: Option<string>, last: Option<string>, birth: Birth): string {
    NameKey(first, last) + "|" + BirthIso(birth)
  }

  function NameOf(r: PlayerRecord): string {
    NameKey(r.first, r.last)
  }

  function KeyOf(r: PlayerRecord): string {
    DedupKey(r.first, r.last, r.birth)
  }

  predicate HasName(r: PlayerRecord) {
    Slug(r.first) != "" || Slug(r.last) != ""
  }

  /** Neither name part contains the key separator. */
  predicate PlainName(first: Option<string>, last: Option<string>) {
    Plain(Slug(first)) && Plain(Slug(last))
  }

  // ------------------------------------------------------------------
  // Merging the attributes of one person
  // ------------------------------------------------------------------

  datatype Attr = FirstName | LastName | BirthDay | Grade | Photo

  datatype Attrs = Attrs(
    first: Option<string>,
    last: Option<string>,
    birth: Birth,
    grade: Option<string>,
    photo: Option<bool>)

  predicate Supplies(r: PlayerRecord, attr: Attr) {
    match attr
    case FirstName => IsPresent(r.first)
    case LastName => IsPresent(r.last)
    case BirthDay => !r.birth.NoBirth?
    case Grade => IsPresent(r.grade)
    case Photo => r.photo.Some?
  }

  function InsertByConfidence(r: PlayerRecord, ordered: seq<PlayerRecord>): seq<PlayerRecord> {
    if ordered == [] || r.confidence >= ordered[0].confidence then [r] + ordered
    else [ordered[0]] + InsertByConfidence(r, ordered[1..])
  }

  /** The stable sort by falling confidence. */
  function ByConfidence(rs: seq<PlayerRecord>): seq<PlayerRecord> {
    if rs == [] then [] else InsertByConfidence(rs[0], ByConfidence(rs[1..]))
  }

  /** The record an attribute is taken from. */
  function Supplier(rs: seq<PlayerRecord>, attr: Attr): (r: Option<PlayerRecord>)
    ensures r.Some? ==> Supplies(r.value, attr)
  {
    var ordered := ByConfidence(rs);
    var at := Find(ordered, r => Supplies(r, attr));
    if at.None? then None else Some(ordered[at.value])
  }

  function MergedAttributes(rs: seq<PlayerRecord>): Attrs {
    var first, last, birth, grade, photo :=
      Supplier(rs, FirstName), Supplier(rs, LastName), Supplier(rs, BirthDay), Supplier(rs, Grade), Supplier(rs, Photo);
    Attrs(
      if first.Some? then first.value.first else None,
      if last.Some? then last.value.last else None,
      if birth.Some? then birth.value.birth else NoBirth,
      if grade.Some? then grade.value.grade else None,
      if photo.Some? then photo.value.photo else None)
  }

  ghost predicate Falling(ordered: seq<PlayerRecord>) {
    |ordered| <= 1 || (ordered[0].confidence >= ordered[1].confidence && Falling(ordered[1..]))
  }

  function FirstSupplier(ordered: seq<PlayerRecord>, attr: Attr): Option<PlayerRecord> {
    if ordered == [] then None
    else if Supplies(ordered[0], attr) then Some(ordered[0])
    else FirstSupplier(ordered[1..], attr)
  }

  lemma {:induction false} FirstSupplierAt(ordered: seq<PlayerRecord>, attr: Attr, k: nat)
    requires k <= |ordered| && forall i :: 0 <= i < k ==> !Supplies(ordered[i], attr)
    requires k < |ordered| ==> Supplies(ordered[k], attr)
    ensures FirstSupplier(ordered, attr) == if k == |ordered| then None else Some(ordered[k])
  {
    if k > 0 {
      FirstSupplierAt(ordered[1..], attr, k - 1);
    }
  }

  lemma {:induction false} InsertFalling(r: PlayerRecord, ordered: seq<PlayerRecord>)
    requires Falling(ordered)
    ensures Falling(InsertByConfidence(r, ordered))
  {
    if ordered == [] {
    } else if r.confidence >= ordered[0].confidence {
      assert ([r] + ordered)[1..] == ordered;
    } else {
      InsertFalling(r, ordered[1..]);
      assert InsertByConfidence(r, ordered)[1..] == InsertByConfidence(r, ordered[1..]);
    }
  }

  lemma {:induction false} InsertMeaning(r: PlayerRecord, ordered: seq<PlayerRecord>, attr: Attr)
    requires Falling(ordered)
    ensures FirstSupplier(InsertByConfidence(r, ordered), attr) ==
            var was := FirstSupplier(ordered, attr);
            if Supplies(r, attr) && (was.None? || r.confidence >= was.value.confidence) then Some(r) else was
  {
    FirstSupplierConfidence(ordered, attr);
    if ordered == [] {
    } else if r.confidence >= ordered[0].confidence {
      assert ([r] + ordered)[1..] == ordered;
    } else {
      InsertMeaning(r, ordered[1..], attr);
      FirstSupplierConfidence(ordered[1..], attr);
      var tail := InsertByConfidence(r, ordered[1..]);
      assert ([ordered[0]] + tail)[1..] == tail;
    }
  }

  lemma {:induction false} FirstSupplierConfidence(ordered: seq<PlayerRecord>, attr: Attr)
    ensures var r := FirstSupplier(ordered, attr);
            && (r.Some? ==> r.value in ordered && Supplies(r.value, attr))
            && (r.None? ==> forall x :: x in ordered ==> !Supplies(x, attr))
            && (r.Some? && Falling(ordered) ==> r.value.confidence <= ordered[0].confidence)
  {
    if ordered != [] && !Supplies(ordered[0], attr) {
      FirstSupplierConfidence(ordered[1..], attr);
    }
  }

  /** `i` is the most confident record supplying `attr`, the earliest on a tie. */
  ghost predicate IsBest(rs: seq<PlayerRecord>, attr: Attr, i: int) {
    && 0 <= i < |rs| && Supplies(rs[i], attr)
    && forall j :: 0 <= j < |rs| && Supplies(rs[j], attr) ==>
         if j < i then rs[j].confidence < rs[i].confidence else rs[j].confidence <= rs[i].confidence
  }

  lemma BestOfTail(rs: seq<PlayerRecord>, attr: Attr, k: int)
    requires rs != [] && IsBest(rs[1..], attr, k)
    ensures if Supplies(rs[0], attr) && rs[0].confidence >= rs[k + 1].confidence
            then IsBest(rs, attr, 0) else IsBest(rs, attr, k + 1)
  {
    assert forall j :: 0 < j < |rs| ==> rs[j] == rs[1..][j - 1];
  }

  /** Each attribute comes from the best record supplying it, and is missing only
      when no record supplies it. */
  lemma {:induction false} SupplierMeaning(rs: seq<PlayerRecord>, attr: Attr)
    ensures Supplier(rs, attr).None? ==> forall i :: 0 <= i < |rs| ==> !Supplies(rs[i], attr)
    ensures Supplier(rs, attr).Some? ==> exists i :: IsBest(rs, attr, i) && rs[i] == Supplier(rs, attr).value
  {
    var ordered := ByConfidence(rs);
    var at := Find(ordered, r => Supplies(r, attr));
    FirstSupplierAt(ordered, attr, if at.None? then |ordered| else at.value);
    FirstSupplierIsBest(rs, attr);
  }

  lemma {:induction false} FirstSupplierIsBest(rs: seq<PlayerRecord>, attr: Attr)
    ensures Falling(ByConfidence(rs))
    ensures var r := FirstSupplier(ByConfidence(rs), attr);
            if r.None? then forall i :: 0 <= i < |rs| ==> !Supplies(rs[i], attr)
            else exists i :: IsBest(rs, attr, i) && rs[i] == r.value
  {
    if rs != [] {
      FirstSupplierIsBest(rs[1..], attr);
      InsertMeaning(rs[0], ByConfidence(rs[1..]), attr);
      InsertFalling(rs[0], ByConfidence(rs[1..]));
      var was := FirstSupplier(ByConfidence(rs[1..]), attr);
      if was.Some? {
        var k :| IsBest(rs[1..], attr, k) && rs[1..][k] == was.value;
        BestOfTail(rs, attr, k);
        assert rs[k + 1] == was.value;
      } else {
        assert forall j :: 0 < j < |rs| ==> rs[j] == rs[1..][j - 1];
        assert Supplies(rs[0], attr) ==> IsBest(rs, attr, 0);
      }
    }
  }

  /** `i` is the most confident record that has the attribute, the earliest on a tie. */
  ghost predicate MostConfident(rs: seq<PlayerRecord>, has: PlayerRecord -> bool, i: int) {
    && 0 <= i < |rs| && has(rs[i])
    && forall j :: 0 <= j < |rs| && has(rs[j]) ==>
         if j < i then rs[j].confidence < rs[i].confidence else rs[j].confidence <= rs[i].confidence
  }

  lemma BestIsMostConfident(rs: seq<PlayerRecord>, attr: Attr, has: PlayerRecord -> bool)
    requires forall r :: has(r) <==> Supplies(r, attr)
    ensures Supplier(rs, attr).None? ==> forall i :: 0 <= i < |rs| ==> !has(rs[i])
    ensures Supplier(rs, attr).Some? ==> exists i :: MostConfident(rs, has, i) && rs[i] == Supplier(rs, attr).value
  {
    SupplierMeaning(rs, attr);
    if Supplier(rs, attr).Some? {
      var i :| IsBest(rs, attr, i) && rs[i] == Supplier(rs, attr).value;
      assert MostConfident(rs, has, i);
    }
  }

  /** Column by column: each value is the most confident record's that has one, and
      a column is empty only if no record has a value for it. */
  lemma MergedMeaning(rs: seq<PlayerRecord>)
    ensures var m := MergedAttributes(rs);
            && (if m.first.None? then forall i :: 0 <= i < |rs| ==> !IsPresent(rs[i].first)
                else exists i ::
                        MostConfident(rs, (r: PlayerRecord) => IsPresent(r.first), i) && rs[i].first == m.first)
            && (if m.last.None? then forall i :: 0 <= i < |rs| ==> !IsPresent(rs[i].last)
                else exists i :: MostConfident(rs, (r: PlayerRecord) => IsPresent(r.last), i) && rs[i].last == m.last)
            && (if m.birth.NoBirth? then forall i :: 0 <= i < |rs| ==> rs[i].birth.NoBirth?
                else exists i :: MostConfident(rs, (r: PlayerRecord) => !r.birth.NoBirth?, i) && rs[i].birth == m.birth)
            && (if m.grade.None? then forall i :: 0 <= i < |rs| ==> !IsPresent(rs[i].grade)
                else exists i ::
                        MostConfident(rs, (r: PlayerRecord) => IsPresent(r.grade), i) && rs[i].grade == m.grade)
            && (if m.photo.None? then forall i :: 0 <= i < |rs| ==> rs[i].photo.None?
                else exists i :: MostConfident(rs, (r: PlayerRecord) => r.photo.Some?, i) && rs[i].photo == m.photo)
  {
    BestIsMostConfident(rs, FirstName, (r: PlayerRecord) => IsPresent(r.first));
    BestIsMostConfident(rs, LastName, (r: PlayerRecord) => IsPresent(r.last));
    BestIsMostConfident(rs, BirthDay, (r: PlayerRecord) => !r.birth.NoBirth?);
    BestIsMostConfident(rs, Grade, (r: PlayerRecord) => IsPresent(r.grade));
    BestIsMostConfident(rs, Photo, (r: PlayerRecord) => r.photo.Some?);
    hide Supplier, MostConfident;
  }

  // ------------------------------------------------------------------
  // Rows
  // ------------------------------------------------------------------

  /** `_insert_player`: a first name is required and a date must be one. */
  function NewPlayer(attrs: Attrs, key: string, location: Id, known: set<Id>): Outcome<Player> {
    if attrs.first.None? then Raised("first_name is null")
    else if attrs.birth.Unparsable? then Raised("invalid birth_date")
    else if location !in known then Raised("foreign key")
    else
      Returned(Player(key, attrs.first.value, attrs.last,
                      if attrs.birth.NoBirth? then None else Some(attrs.birth.iso),
                      attrs.grade, if attrs.photo.Some? then attrs.photo.value else false, None, location))
  }

  function Coalesce<T>(stored: Option<T>, incoming: Option<T>): Option<T> {
    if stored.Some? then stored else incoming
  }

  /** `_fill_existing_gaps`: only null columns take a value. */
  function GapsClosed(row: Player, attrs: Attrs): Outcome<Player> {
    if attrs.birth.Unparsable? then Raised("invalid birth_date")
    else
      Returned(row.(last := Coalesce(row.last, attrs.last),
                    birth := Coalesce(row.birth, if attrs.birth.BirthDate? then Some(attrs.birth.iso) else None),
                    grade := Coalesce(row.grade, attrs.grade)))
  }

  /** A later state of a row: the key, the names' home and every filled column
      are as they were. */
  predicate RowExtends(p: Player, q: Player) {
    && p.dedupKey == q.dedupKey && p.first == q.first && p.location == q.location
    && p.photoConsent == q.photoConsent
    && (p.last.Some? ==> q.last == p.last)
    && (p.birth.Some? ==> q.birth == p.birth)
    && (p.grade.Some? ==> q.grade == p.grade)
    && (p.school.Some? ==> q.school == p.school)
  }

  ghost predicate PlayersExtend(p: seq<Player>, q: seq<Player>) {
    |p| <= |q| && forall i :: 0 <= i < |p| ==> RowExtends(p[i], q[i])
  }

  function FindPlayer(players: seq<Player>, key: string): Option<nat> {
    Find(players, (p: Player) => p.dedupKey == key)
  }

  /** `_existing_dedup_keys_for_name`: the keys that start with the name key. */
  function KeysForName(players: seq<Player>, name: string): set<string> {
    set i | 0 <= i < |players| && name + "|" <= players[i].dedupKey :: players[i].dedupKey
  }

  // ------------------------------------------------------------------
  // Grouping a batch (insertion-ordered dictionaries)
  // ------------------------------------------------------------------

  type Groups = seq<(string, seq<PlayerRecord>)>

  function Put(groups: Groups, key: string, r: PlayerRecord): Groups {
    if groups == [] then [(key, [r])]
    else if groups[0].0 == key then [(key, groups[0].1 + [r])] + groups[1..]
    else [groups[0]] + Put(groups[1..], key, r)
  }

  function GroupBy(rs: seq<PlayerRecord>, key: PlayerRecord -> string): Groups {
    if rs == [] then []
    else
      var last := rs[|rs| - 1];
      Put(GroupBy(rs[..|rs| - 1], key), key(last), last)
  }

  function GroupKeys(groups: Groups): set<string> {
    if groups == [] then {} else {groups[0].0} + GroupKeys(groups[1..])
  }

  /** One group per key; every group is non-empty and of its own key only. */
  ghost predicate Grouped(groups: Groups, key: PlayerRecord -> string) {
    groups == []
    || (&& groups[0].1 != []
        && (forall r :: r in groups[0].1 ==> key(r) == groups[0].0)
        && groups[0].0 !in GroupKeys(groups[1..])
        && Grouped(groups[1..], key))
  }

  function Members(groups: Groups): seq<PlayerRecord> {
    if groups == [] then [] else groups[0].1 + Members(groups[1..])
  }

  lemma {:induction false} PutKeys(groups: Groups, key: string, r: PlayerRecord)
    ensures GroupKeys(Put(groups, key, r)) == GroupKeys(groups) + {key}
  {
    if groups != [] && groups[0].0 != key {
      PutKeys(groups[1..], key, r);
      assert Put(groups, key, r)[1..] == Put(groups[1..], key, r);
    }
  }

  lemma {:induction false} PutMembers(groups: Groups, key: string, r: PlayerRecord)
    ensures multiset(Members(Put(groups, key, r))) == multiset(Members(groups)) + multiset{r}
  {
    if groups == [] {
      assert Members(Put(groups, key, r)) == [r] + Members([]);
    } else if groups[0].0 == key {
      assert Put(groups, key, r)[1..] == groups[1..];
    } else {
      PutMembers(groups[1..], key, r);
      assert Put(groups, key, r)[1..] == Put(groups[1..], key, r);
    }
  }

  lemma {:induction false} PutGrouped(groups: Groups, key: PlayerRecord -> string, r: PlayerRecord)
    requires Grouped(groups, key)
    ensures Grouped(Put(groups, key(r), r), key)
  {
    var put := Put(groups, key(r), r);
    if groups == [] {
      assert put[1..] == [];
    } else if groups[0].0 == key(r) {
      assert put[1..] == groups[1..];
    } else {
      PutGrouped(groups[1..], key, r);
      PutKeys(groups[1..], key(r), r);
      assert put[1..] == Put(groups[1..], key(r), r);
    }
  }

  lemma {:induction false} GroupByMembers(rs: seq<PlayerRecord>, key: PlayerRecord -> string)
    ensures multiset(Members(GroupBy(rs, key))) == multiset(rs)
  {
    hide Put, Members;
    if rs == [] {
      assert Members([]) == [] by { NoMembers(); }
    } else {
      var front, last := rs[..|rs| - 1], rs[|rs| - 1];
      GroupByMembers(front, key);
      PutMembers(GroupBy(front, key), key(last), last);
      LastInMultiset(rs);
    }
  }

  lemma NoMembers()
    ensures Members([]) == []
  {
  }

  lemma LastInMultiset(rs: seq<PlayerRecord>)
    requires rs != []
    ensures multiset(rs) == multiset(rs[..|rs| - 1]) + multiset{rs[|rs| - 1]}
  {
    assert rs == rs[..|rs| - 1] + [rs[|rs| - 1]];
  }

  lemma {:induction false} GroupByGrouped(rs: seq<PlayerRecord>, key: PlayerRecord -> string)
    ensures Grouped(GroupBy(rs, key), key)
    ensures multiset(Members(GroupBy(rs, key))) == multiset(rs)
  {
    GroupByMembers(rs, key);
    hide Put, Members;
    if rs != [] {
      var front, last := rs[..|rs| - 1], rs[|rs| - 1];
      GroupByGrouped(front, key);
      PutGrouped(GroupBy(front, key), key, last);
    }
  }
}
