/** What a natural key holds after its actions have arrived in some order, and
    exactly when that order, and repetitions, make no difference. */
module Arrivals {
  import opened Basics
  import opened Schema
  import opened Mapping
  import opened Service
  import opened Replay

  /** The winner's pair and the columns a later edit may overwrite. */
  datatype Mark = Mark(ts: Option<int>, clientId: Option<Id>, value: Value)

  /** An action that passes every refusal; `insertable` says that its first insert
      violates no constraint of the table. */
  datatype Offer = Offer(action: Action, insertable: bool)

  predicate Natural(o: Offer) {
    IsNatural(o.action.body.EntityName())
  }

  predicate Over(a: Action, m: Mark) {
    PrefersIncoming(Some(a.at.ts), Some(a.clientId), m.ts, m.clientId)
  }

  predicate Beats(a: Action, b: Action) {
    PrefersIncoming(Some(a.at.ts), Some(a.clientId), Some(b.at.ts), Some(b.clientId))
  }

  predicate IsBy(a: Action, m: Mark) {
    m.ts == Some(a.at.ts) && m.clientId == Some(a.clientId)
  }

  function Inserted(a: Action): Mark
    requires IsNatural(a.body.EntityName())
  {
    Mark(Some(a.at.ts), Some(a.clientId), InsertedValue(a.body))
  }

  function Edited(m: Mark, a: Action): Mark
    requires IsNatural(a.body.EntityName())
  {
    Mark(Some(a.at.ts), Some(a.clientId), EditedValue(m.value, a.body))
  }

  /** One arrival: the first insertable action makes the row, a preferred editable
      one overwrites it, any other leaves it. */
  function Arrived(m: Option<Mark>, o: Offer): Option<Mark>
    requires Natural(o)
  {
    if m.None? then (if o.insertable then Some(Inserted(o.action)) else None)
    else if Over(o.action, m.value) && Editable(o.action.body) then Some(Edited(m.value, o.action))
    else m
  }

  predicate AllNatural(s: seq<Offer>) {
    forall o :: o in s ==> Natural(o)
  }

  function ArrivedAll(m: Option<Mark>, s: seq<Offer>): Option<Mark>
    requires AllNatural(s)
    decreases |s|
  {
    if s == [] then m else Arrived(ArrivedAll(m, s[..|s| - 1]), s[|s| - 1])
  }

  lemma {:induction false} ArrivedInTwo(m: Option<Mark>, s: seq<Offer>, t: seq<Offer>)
    requires AllNatural(s) && AllNatural(t)
    ensures AllNatural(s + t) && ArrivedAll(m, s + t) == ArrivedAll(ArrivedAll(m, s), t)
    decreases |t|
  {
    hide Arrived;
    if t == [] {
      assert s + t == s;
    } else {
      var n := |t| - 1;
      ArrivedInTwo(m, s, t[..n]);
      assert (s + t)[..|s + t| - 1] == s + t[..n];
    }
  }

  /** A sequence of arrivals of exactly these offers, in any order and any number
      of times. */
  ghost predicate Covers(s: seq<Offer>, offers: set<Offer>) {
    forall o :: o in s <==> o in offers
  }

  lemma {:induction false} Listing(offers: set<Offer>) returns (s: seq<Offer>)
    ensures Covers(s, offers)
  {
    if offers == {} {
      s := [];
    } else {
      var o :| o in offers;
      var rest := Listing(offers - {o});
      s := [o] + rest;
    }
  }

  predicate SamePair(a: Action, b: Action) {
    a.at.ts == b.at.ts && a.clientId == b.clientId
  }

  /** Distinct actions on one key carry distinct pairs. */
  ghost predicate PairsDistinct(offers: set<Offer>) {
    && (forall o :: o in offers ==> Natural(o))
    && forall o, p :: o in offers && p in offers && SamePair(o.action, p.action) ==> o == p
  }

  lemma OneBeats(offers: set<Offer>, o: Offer, p: Offer)
    requires PairsDistinct(offers) && o in offers && p in offers && o != p
    ensures Beats(o.action, p.action) <==> !Beats(p.action, o.action)
  {
    StrTrichotomy(o.action.clientId, p.action.clientId);
  }

  // ------------------------------------------------------------------
  // What arrivals keep
  // ------------------------------------------------------------------

  /** Nothing that may edit the row is preferred over it. */
  predicate Settled(m: Mark, s: seq<Offer>) {
    forall o :: o in s ==> !(Over(o.action, m) && Editable(o.action.body))
  }

  lemma {:induction false} SettledStays(m: Mark, s: seq<Offer>)
    requires AllNatural(s) && Settled(m, s)
    ensures ArrivedAll(Some(m), s) == Some(m)
    decreases |s|
  {
    hide Over, Editable;
    if s != [] {
      SettledStays(m, s[..|s| - 1]);
      assert s[|s| - 1] in s;
    }
  }

  lemma {:induction false} NothingInserted(s: seq<Offer>)
    requires AllNatural(s)
    ensures ArrivedAll(None, s).None? <==> forall o :: o in s ==> !o.insertable
    decreases |s|
  {
    if s != [] {
      var n := |s| - 1;
      NothingInserted(s[..n]);
      assert s == s[..n] + [s[n]];
      assert s[n] in s;
    }
  }

  /** A row that does not lose to a pair never does again. */
  lemma {:induction false} NeverBelow(a: Action, m: Mark, s: seq<Offer>)
    requires AllNatural(s) && !Over(a, m)
    ensures ArrivedAll(Some(m), s).Some? && !Over(a, ArrivedAll(Some(m), s).value)
    decreases |s|
  {
    hide PrefersIncoming, EditedValue, Editable;
    if s != [] {
      var n := |s| - 1;
      NeverBelow(a, m, s[..n]);
      var before, o := ArrivedAll(Some(m), s[..n]).value, s[n];
      if Over(o.action, before) {
        PrefersAsymmetric(Some(o.action.at.ts), Some(o.action.clientId), before.ts, before.clientId);
        NotPreferredTransitive(Some(a.at.ts), Some(a.clientId), before.ts, before.clientId,
                               Some(o.action.at.ts), Some(o.action.clientId));
      }
    }
  }

  /** A row is never handed to an action that may not edit. */
  lemma {:induction false} NeverHanded(w: Offer, offers: set<Offer>, m: Mark, s: seq<Offer>)
    requires PairsDistinct(offers) && w in offers && !Editable(w.action.body)
    requires AllNatural(s) && (forall o :: o in s ==> o in offers) && !IsBy(w.action, m)
    ensures ArrivedAll(Some(m), s).Some? && !IsBy(w.action, ArrivedAll(Some(m), s).value)
    decreases |s|
  {
    hide PrefersIncoming, EditedValue, Editable;
    if s != [] {
      var n := |s| - 1;
      NeverHanded(w, offers, m, s[..n]);
      assert s[n] in s && s[n] in offers;
    }
  }

  // ------------------------------------------------------------------
  // A key nobody has written yet
  // ------------------------------------------------------------------

  /** The offer that beats every other one able to make the row. */
  ghost predicate Strongest(w: Offer, offers: set<Offer>) {
    && w in offers && w.insertable
    && forall i :: i in offers && i.insertable && i != w ==> Beats(w.action, i.action)
  }

  function ReferenceOf(v: Value): Option<string> {
    if v.SessionValue? then v.reference else None
  }

  /** A session that leaves the reference to whoever wrote it before. */
  predicate Omits(b: Body) {
    b.SessionBody? && b.reference.Absent?
  }

  predicate Carries(b: Body) {
    b.SessionBody? && b.reference.Given?
  }

  /** `t` can be in the row when `w` arrives: it makes the row itself, or edits
      one that another offer made. */
  ghost predicate MayPrecede(t: Offer, w: Offer, offers: set<Offer>) {
    t.insertable || exists i :: i in offers && i.insertable && i != w && Beats(t.action, i.action)
  }

  /** The strongest insertable offer may edit unless it is alone, beats every offer
      that may edit, and if it omits the reference no other one supplies it
      beforehand. */
  ghost predicate Harmonious(w: Offer, offers: set<Offer>) {
    && (Editable(w.action.body) || forall i :: i in offers && i.insertable ==> i == w)
    && (forall o :: o in offers && o != w && Editable(o.action.body) ==> Beats(w.action, o.action))
    && (Omits(w.action.body) ==>
          forall t :: t in offers && t != w && Carries(t.action.body) ==> !MayPrecede(t, w, offers))
  }

  ghost predicate Agreeable(offers: set<Offer>) {
    forall w :: Strongest(w, offers) ==> Harmonious(w, offers)
  }

  lemma {:induction false} StrongestExists(offers: set<Offer>) returns (w: Offer)
    requires PairsDistinct(offers) && exists o :: o in offers && o.insertable
    ensures Strongest(w, offers)
    decreases |offers|
  {
    hide PrefersIncoming;
    w :| w in offers && w.insertable;
    var rest := offers - {w};
    if exists o :: o in rest && o.insertable {
      var v := StrongestExists(rest);
      OneBeats(offers, v, w);
      if !Beats(w.action, v.action) {
        assert Strongest(v, offers);
        w := v;
      } else {
        forall i | i in offers && i.insertable && i != w ensures Beats(w.action, i.action) {
          if i != v {
            OneBeats(offers, w, i);
            OneBeats(offers, v, i);
            OneBeats(offers, w, v);
            BeatsTransitive(w.action, v.action, i.action);
          }
        }
      }
    }
  }

  lemma BeatsTransitive(a: Action, b: Action, c: Action)
    requires Beats(a, b) && Beats(b, c)
    ensures Beats(a, c)
  {
    if a.at.ts == b.at.ts == c.at.ts {
      StrLessTransitive(c.clientId, b.clientId, a.clientId);
    }
  }

  /** Before the strongest offer has arrived. */
  ghost predicate Waiting(m: Option<Mark>, w: Offer, offers: set<Offer>) {
    m.Some? ==>
      && Over(w.action, m.value)
      && (Omits(w.action.body) ==> ReferenceOf(m.value.value).None?)
      && exists i :: i in offers && i.insertable && i != w && !Over(i.action, m.value)
  }

  lemma {:induction false} HarmonyHolds(w: Offer, offers: set<Offer>, s: seq<Offer>)
    requires PairsDistinct(offers) && Strongest(w, offers) && Harmonious(w, offers)
    requires forall o :: o in s ==> o in offers
    ensures AllNatural(s)
    ensures if w in s then ArrivedAll(None, s) == Some(Inserted(w.action))
            else Waiting(ArrivedAll(None, s), w, offers)
    decreases |s|
  {
    hide PrefersIncoming, EditedValue, InsertedValue, Editable, Harmonious, Waiting, Strongest, Omits;
    if s != [] {
      var n := |s| - 1;
      HarmonyHolds(w, offers, s[..n]);
      assert s == s[..n] + [s[n]];
      if w in s[..n] {
        HarmonyKept(w, offers, s[n]);
      } else if s[n] == w {
        HarmonyReached(w, offers, ArrivedAll(None, s[..n]));
      } else {
        HarmonyAwaited(w, offers, ArrivedAll(None, s[..n]), s[n]);
      }
    } else {
      assert Waiting(None, w, offers) by { WaitingForNothing(w, offers); }
    }
  }

  lemma WaitingForNothing(w: Offer, offers: set<Offer>)
    ensures Waiting(None, w, offers)
  {
  }

  lemma HarmonyKept(w: Offer, offers: set<Offer>, o: Offer)
    requires PairsDistinct(offers) && Strongest(w, offers) && Harmonious(w, offers) && o in offers
    ensures Arrived(Some(Inserted(w.action)), o) == Some(Inserted(w.action))
  {
    hide PrefersIncoming, EditedValue, InsertedValue, Editable;
    PrefersAsymmetric(Some(o.action.at.ts), Some(o.action.clientId), Some(w.action.at.ts), Some(w.action.clientId));
    if o != w && Editable(o.action.body) {
      OneBeats(offers, w, o);
    }
  }

  lemma HarmonyReached(w: Offer, offers: set<Offer>, m: Option<Mark>)
    requires PairsDistinct(offers) && Strongest(w, offers) && Harmonious(w, offers) && Waiting(m, w, offers)
    ensures Arrived(m, w) == Some(Inserted(w.action))
  {
    hide PrefersIncoming;
    if m.Some? {
      var i :| i in offers && i.insertable && i != w && !Over(i.action, m.value);
      assert Editable(w.action.body);
    }
  }

  lemma HarmonyAwaited(w: Offer, offers: set<Offer>, m: Option<Mark>, o: Offer)
    requires PairsDistinct(offers) && Strongest(w, offers) && Harmonious(w, offers) && Waiting(m, w, offers)
    requires o in offers && o != w
    ensures Waiting(Arrived(m, o), w, offers)
  {
    hide PrefersIncoming;
    if m.None? {
      if o.insertable {
        PrefersAsymmetric(Some(o.action.at.ts), Some(o.action.clientId), Some(o.action.at.ts), Some(o.action.clientId));
        assert !Over(o.action, Inserted(o.action));
      }
    } else if Over(o.action, m.value) && Editable(o.action.body) {
      var i :| i in offers && i.insertable && i != w && !Over(i.action, m.value);
      var after := Edited(m.value, o.action);
      PrefersAsymmetric(Some(o.action.at.ts), Some(o.action.clientId), m.value.ts, m.value.clientId);
      NotPreferredTransitive(Some(i.action.at.ts), Some(i.action.clientId), m.value.ts, m.value.clientId,
                             after.ts, after.clientId);
      assert !Over(i.action, after);
      if o != i && !o.insertable {
        OneBeats(offers, o, i);
      }
      assert MayPrecede(o, w, offers);
    }
  }

  /** The offers that make no row, and those that do. */
  function Makers(offers: set<Offer>): set<Offer> {
    set o | o in offers && o.insertable
  }

  /** The strongest offer made the row and the weaker ones came after. */
  lemma StrongestFirst(w: Offer, offers: set<Offer>) returns (s: seq<Offer>)
    requires PairsDistinct(offers) && Strongest(w, offers)
    ensures Covers(s, offers) && AllNatural(s) && ArrivedAll(None, s) == Some(Inserted(w.action))
  {
    hide PrefersIncoming, EditedValue, InsertedValue, Editable;
    var idle := Listing(offers - Makers(offers));
    var makers := Listing(Makers(offers));
    assert AllNatural(idle) && AllNatural([w]) && AllNatural(makers);
    NothingInserted(idle);
    ArrivedInTwo(None, idle, [w]);
    ArrivedInTwo(None, idle + [w], makers);
    assert [w][..0] == [];
    forall o | o in makers ensures !Over(o.action, Inserted(w.action)) {
      PrefersAsymmetric(Some(w.action.at.ts), Some(w.action.clientId), Some(o.action.at.ts), Some(o.action.clientId));
    }
    SettledStays(Inserted(w.action), makers);
    s := idle + [w] + makers;
  }

  lemma FirstThenAll(m: Option<Mark>, first: seq<Offer>, offers: set<Offer>) returns (s: seq<Offer>, rest: seq<Offer>)
    requires (forall o :: o in offers ==> Natural(o)) && forall o :: o in first ==> o in offers
    ensures Covers(s, offers) && AllNatural(s) && AllNatural(first) && AllNatural(rest) && Covers(rest, offers)
    ensures ArrivedAll(m, s) == ArrivedAll(ArrivedAll(m, first), rest)
  {
    rest := Listing(offers);
    s := first + rest;
    ArrivedInTwo(m, first, rest);
  }

  lemma OneArrived(m: Option<Mark>, o: Offer)
    requires Natural(o)
    ensures AllNatural([o]) && ArrivedAll(m, [o]) == Arrived(m, o)
  {
    assert [o][..0] == [];
  }

  lemma TwoArrived(m: Option<Mark>, o: Offer, p: Offer)
    requires Natural(o) && Natural(p)
    ensures AllNatural([o, p]) && ArrivedAll(m, [o, p]) == Arrived(Arrived(m, o), p)
  {
    hide Arrived;
    OneArrived(m, o);
    assert [o, p][..1] == [o];
  }

  /** The strongest insertable offer may not edit, and another one came first. */
  lemma BarredWinner(w: Offer, i: Offer, offers: set<Offer>) returns (s: seq<Offer>)
    requires PairsDistinct(offers) && Strongest(w, offers) && !Editable(w.action.body)
    requires i in offers && i.insertable && i != w
    ensures Covers(s, offers) && AllNatural(s) && ArrivedAll(None, s) != Some(Inserted(w.action))
  {
    hide PrefersIncoming, EditedValue, InsertedValue, Editable;
    var rest;
    s, rest := FirstThenAll(None, [i], offers);
    OneArrived(None, i);
    assert !SamePair(w.action, i.action);
    NeverHanded(w, offers, Inserted(i.action), rest);
  }

  /** An offer that may only edit overtook the strongest insertable one. */
  lemma OvertakenWinner(w: Offer, e: Offer, offers: set<Offer>) returns (s: seq<Offer>)
    requires PairsDistinct(offers) && Strongest(w, offers)
    requires e in offers && e != w && Editable(e.action.body) && !Beats(w.action, e.action)
    ensures Covers(s, offers) && AllNatural(s) && ArrivedAll(None, s) != Some(Inserted(w.action))
  {
    hide PrefersIncoming, EditedValue, InsertedValue, Editable;
    OneBeats(offers, w, e);
    var rest;
    s, rest := FirstThenAll(None, [w, e], offers);
    TwoArrived(None, w, e);
    var m := Edited(Inserted(w.action), e.action);
    PrefersAsymmetric(Some(e.action.at.ts), Some(e.action.clientId), Some(e.action.at.ts), Some(e.action.clientId));
    NeverBelow(e.action, m, rest);
  }

  /** The winner kept the reference of an offer that came before it. */
  lemma ForeignReference(w: Offer, t: Offer, offers: set<Offer>) returns (s: seq<Offer>)
    requires PairsDistinct(offers) && Strongest(w, offers) && Omits(w.action.body)
    requires forall o :: o in offers && o != w && Editable(o.action.body) ==> Beats(w.action, o.action)
    requires t in offers && t != w && Carries(t.action.body) && MayPrecede(t, w, offers)
    ensures Covers(s, offers) && AllNatural(s) && ArrivedAll(None, s) != Some(Inserted(w.action))
  {
    hide PrefersIncoming;
    var first: seq<Offer>;
    ghost var before: Mark;
    if t.insertable {
      first, before := [t], Inserted(t.action);
      OneArrived(None, t);
    } else {
      var i :| i in offers && i.insertable && i != w && Beats(t.action, i.action);
      first, before := [i, t], Edited(Inserted(i.action), t.action);
      TwoArrived(None, i, t);
    }
    assert ArrivedAll(None, first) == Some(before) && ReferenceOf(before.value).Some? && Over(w.action, before);
    ArrivedInTwo(None, first, [w]);
    OneArrived(Some(before), w);
    var rest;
    s, rest := FirstThenAll(None, first + [w], offers);
    var after := Edited(before, w.action);
    WinnerSettles(w, after, offers, rest);
  }

  lemma WinnerSettles(w: Offer, m: Mark, offers: set<Offer>, s: seq<Offer>)
    requires PairsDistinct(offers) && w in offers && IsBy(w.action, m)
    requires forall o :: o in offers && o != w && Editable(o.action.body) ==> Beats(w.action, o.action)
    requires AllNatural(s) && forall o :: o in s ==> o in offers
    ensures ArrivedAll(Some(m), s) == Some(m)
  {
    hide PrefersIncoming, Editable, EditedValue;
    forall o | o in s ensures !(Over(o.action, m) && Editable(o.action.body)) {
      PrefersAsymmetric(Some(w.action.at.ts), Some(w.action.clientId), Some(o.action.at.ts), Some(o.action.clientId));
    }
    SettledStays(m, s);
  }

  lemma Discord(w: Offer, offers: set<Offer>) returns (s: seq<Offer>)
    requires PairsDistinct(offers) && Strongest(w, offers) && !Harmonious(w, offers)
    ensures Covers(s, offers) && AllNatural(s) && ArrivedAll(None, s) != Some(Inserted(w.action))
  {
    hide PrefersIncoming, EditedValue, InsertedValue, Editable, Strongest, MayPrecede, Omits, Carries, Beats;
    if !Editable(w.action.body) && exists i :: i in offers && i.insertable && i != w {
      var i :| i in offers && i.insertable && i != w;
      s := BarredWinner(w, i, offers);
    } else if exists e :: e in offers && e != w && Editable(e.action.body) && !Beats(w.action, e.action) {
      var e :| e in offers && e != w && Editable(e.action.body) && !Beats(w.action, e.action);
      s := OvertakenWinner(w, e, offers);
    } else {
      var t :| t in offers && t != w && Carries(t.action.body) && MayPrecede(t, w, offers);
      s := ForeignReference(w, t, offers);
    }
  }

  /** Every order, with any repetitions, leaves a fresh key alike. */
  ghost predicate AllOrdersAgree(m: Option<Mark>, offers: set<Offer>) {
    forall s, t :: Covers(s, offers) && Covers(t, offers) && AllNatural(s) && AllNatural(t) ==>
      ArrivedAll(m, s) == ArrivedAll(m, t)
  }

  /** On a fresh key the orders agree exactly for the agreeable sets. */
  lemma FreshOrdersAgreeIff(offers: set<Offer>)
    requires PairsDistinct(offers)
    ensures AllOrdersAgree(None, offers) <==> Agreeable(offers)
  {
    hide PrefersIncoming, EditedValue, InsertedValue, Editable, Strongest, Harmonious, ArrivedAll, Inserted;
    forall s | Covers(s, offers) && AllNatural(s)
      ensures ArrivedAll(None, s).None? <==> forall o :: o in offers ==> !o.insertable
    {
      NothingInserted(s);
    }
    if exists o :: o in offers && o.insertable {
      var w := StrongestExists(offers);
      StrongestUnique(w, offers);
      var first := StrongestFirst(w, offers);
      if Harmonious(w, offers) {
        StrongestIsIn(w, offers);
        forall s | Covers(s, offers) && AllNatural(s) ensures ArrivedAll(None, s) == Some(Inserted(w.action)) {
          HarmonyHolds(w, offers, s);
        }
      } else {
        var other := Discord(w, offers);
        assert ArrivedAll(None, first) != ArrivedAll(None, other);
      }
    } else {
      forall w ensures !Strongest(w, offers) {
        StrongestIsIn(w, offers);
      }
    }
  }

  lemma StrongestIsIn(w: Offer, offers: set<Offer>)
    ensures Strongest(w, offers) ==> w in offers && w.insertable
  {
  }

  lemma StrongestUnique(w: Offer, offers: set<Offer>)
    requires PairsDistinct(offers) && Strongest(w, offers)
    ensures forall v :: Strongest(v, offers) ==> v == w
  {
    hide PrefersIncoming;
    forall v | Strongest(v, offers) ensures v == w {
      if v != w {
        OneBeats(offers, v, w);
      }
    }
  }

  // ------------------------------------------------------------------
  // A key that already has a row
  // ------------------------------------------------------------------

  /** The strongest of the offers that may edit the stored row. */
  ghost predicate Editor(w: Offer, m: Mark, offers: set<Offer>) {
    && w in offers && Edits(w, m)
    && forall o :: o in offers && o != w && Edits(o, m) ==> Beats(w.action, o.action)
  }

  predicate Edits(o: Offer, m: Mark) {
    Editable(o.action.body) && Over(o.action, m)
  }

  /** It writes a reference, or an explicit null, other than the stored one. */
  predicate Changes(t: Offer, m: Mark) {
    Natural(t) && !Omits(t.action.body) && ReferenceOf(InsertedValue(t.action.body)) != ReferenceOf(m.value)
  }

  /** The strongest editor supplies the reference, or no other editor changes it. */
  ghost predicate AgreeableOn(m: Mark, offers: set<Offer>) {
    forall w :: Editor(w, m, offers) && Omits(w.action.body) ==>
      forall t :: t in offers && t != w && Edits(t, m) ==> !Changes(t, m)
  }

  lemma {:induction false} EditorExists(m: Mark, offers: set<Offer>) returns (w: Offer)
    requires PairsDistinct(offers) && exists o :: o in offers && Edits(o, m)
    ensures Editor(w, m, offers)
    decreases |offers|
  {
    hide PrefersIncoming, Edits;
    w :| w in offers && Edits(w, m);
    var rest := offers - {w};
    if exists o :: o in rest && Edits(o, m) {
      var v := EditorExists(m, rest);
      OneBeats(offers, v, w);
      if !Beats(w.action, v.action) {
        assert Editor(v, m, offers);
        w := v;
      } else {
        forall i | i in offers && Edits(i, m) && i != w ensures Beats(w.action, i.action) {
          if i != v {
            BeatsTransitive(w.action, v.action, i.action);
          }
        }
      }
    }
  }

  /** Once stored, an action keeps out whatever it beats. */
  lemma {:induction false} EditorWins(w: Offer, m: Mark, offers: set<Offer>, s: seq<Offer>)
    requires PairsDistinct(offers) && Editor(w, m, offers)
    requires forall o :: o in s ==> o in offers
    ensures AllNatural(s) && ArrivedAll(Some(m), s).Some?
    ensures var r := ArrivedAll(Some(m), s).value;
            if w in s then
              && IsBy(w.action, r)
              && (Omits(w.action.body) || r == Inserted(w.action))
            else Over(w.action, r) && !Worse(r, m)
    decreases |s|
  {
    hide PrefersIncoming, EditedValue, InsertedValue, Editable;
    if s == [] {
      PrefersAsymmetric(m.ts, m.clientId, m.ts, m.clientId);
    } else {
      var n := |s| - 1;
      EditorWins(w, m, offers, s[..n]);
      assert s == s[..n] + [s[n]];
      EditorStep(w, m, offers, ArrivedAll(Some(m), s[..n]).value, s[n], w in s[..n]);
    }
  }

  /** The stored pair is preferred over this one. */
  predicate Worse(r: Mark, m: Mark) {
    PrefersIncoming(m.ts, m.clientId, r.ts, r.clientId)
  }

  lemma EditorStep(w: Offer, m: Mark, offers: set<Offer>, r: Mark, o: Offer, arrived: bool)
    requires PairsDistinct(offers) && Editor(w, m, offers) && o in offers
    requires if arrived then IsBy(w.action, r) && (Omits(w.action.body) || r == Inserted(w.action))
             else Over(w.action, r) && !Worse(r, m)
    ensures Arrived(Some(r), o).Some?
    ensures var after := Arrived(Some(r), o).value;
            if arrived || o == w then IsBy(w.action, after) && (Omits(w.action.body) || after == Inserted(w.action))
            else Over(w.action, after) && !Worse(after, m)
  {
    hide PrefersIncoming;
    if arrived {
      EditorSettles(w, m, offers, r, o);
    } else if o != w && Over(o.action, r) {
      NotWorse(o.action, r, m);
      PrefersAsymmetric(Some(o.action.at.ts), Some(o.action.clientId), m.ts, m.clientId);
    }
  }

  lemma EditorSettles(w: Offer, m: Mark, offers: set<Offer>, r: Mark, o: Offer)
    requires PairsDistinct(offers) && Editor(w, m, offers) && o in offers && IsBy(w.action, r)
    ensures !Edits(o, r)
  {
    hide PrefersIncoming, Editable;
    PrefersAsymmetric(Some(o.action.at.ts), Some(o.action.clientId), Some(w.action.at.ts), Some(w.action.clientId));
    if Edits(o, r) {
      NotBelow(o.action, w.action, m);
    }
  }

  /** What beats a pair that is over the row is over the row. */
  lemma NotBelow(a: Action, b: Action, m: Mark)
    requires Beats(a, b) && Over(b, m)
    ensures Over(a, m)
  {
    hide PrefersIncoming;
    if !Over(a, m) {
      PrefersAsymmetric(Some(b.at.ts), Some(b.clientId), m.ts, m.clientId);
      NotPreferredTransitive(Some(a.at.ts), Some(a.clientId), m.ts, m.clientId, Some(b.at.ts), Some(b.clientId));
    }
  }

  lemma NotWorse(a: Action, r: Mark, m: Mark)
    requires Over(a, r) && !Worse(r, m)
    ensures Over(a, m)
  {
    hide PrefersIncoming;
    if !Over(a, m) {
      NotPreferredTransitive(Some(a.at.ts), Some(a.clientId), m.ts, m.clientId, r.ts, r.clientId);
    }
  }

  /** The stored reference under the strongest editor's pair. */
  function Kept(w: Offer, m: Mark): Mark
    requires w.action.body.SessionBody?
  {
    Mark(Some(w.action.at.ts), Some(w.action.clientId), SessionValue(w.action.body.duration, ReferenceOf(m.value)))
  }

  ghost predicate NoneChanges(w: Offer, m: Mark, offers: set<Offer>) {
    forall t :: t in offers && t != w && Edits(t, m) ==> !Changes(t, m)
  }

  /** An omitted reference is still the stored one if no other editor changed it. */
  lemma {:induction false} ReferenceStays(w: Offer, m: Mark, offers: set<Offer>, s: seq<Offer>)
    requires PairsDistinct(offers) && Editor(w, m, offers) && Omits(w.action.body) && NoneChanges(w, m, offers)
    requires forall o :: o in s ==> o in offers
    ensures AllNatural(s) && ArrivedAll(Some(m), s).Some?
    ensures ReferenceOf(ArrivedAll(Some(m), s).value.value) == ReferenceOf(m.value)
    ensures w in s ==> ArrivedAll(Some(m), s) == Some(Kept(w, m))
    decreases |s|
  {
    hide PrefersIncoming, EditedValue, InsertedValue, Editable, Kept, NoneChanges, Omits, Editor;
    if s != [] {
      var n := |s| - 1;
      ReferenceStays(w, m, offers, s[..n]);
      EditorWins(w, m, offers, s[..n]);
      assert s == s[..n] + [s[n]];
      var r := ArrivedAll(Some(m), s[..n]).value;
      if w in s[..n] {
        EditorSettles(w, m, offers, r, s[n]);
      } else {
        ReferenceStep(w, m, offers, r, s[n]);
      }
    }
  }

  lemma ReferenceStep(w: Offer, m: Mark, offers: set<Offer>, r: Mark, o: Offer)
    requires PairsDistinct(offers) && Editor(w, m, offers) && Omits(w.action.body) && NoneChanges(w, m, offers)
    requires o in offers && Over(w.action, r) && !Worse(r, m) && ReferenceOf(r.value) == ReferenceOf(m.value)
    ensures Arrived(Some(r), o).Some?
    ensures ReferenceOf(Arrived(Some(r), o).value.value) == ReferenceOf(m.value)
    ensures o == w ==> Arrived(Some(r), o) == Some(Kept(w, m))
  {
    hide PrefersIncoming;
    if o != w && Over(o.action, r) {
      NotWorse(o.action, r, m);
    }
  }

  /** Two orders that leave different references behind the same winner. */
  lemma EditorDiscord(w: Offer, t: Offer, m: Mark, offers: set<Offer>) returns (x: seq<Offer>, y: seq<Offer>)
    requires PairsDistinct(offers) && Editor(w, m, offers) && Omits(w.action.body)
    requires t in offers && t != w && Edits(t, m) && Changes(t, m)
    ensures Covers(x, offers) && Covers(y, offers) && AllNatural(x) && AllNatural(y)
    ensures ArrivedAll(Some(m), x) != ArrivedAll(Some(m), y)
  {
    hide PrefersIncoming;
    var rest, rest';
    x, rest := FirstThenAll(Some(m), [w], offers);
    y, rest' := FirstThenAll(Some(m), [t, w], offers);
    OneArrived(Some(m), w);
    TwoArrived(Some(m), t, w);
    EditorStays(w, m, offers, Kept(w, m), rest);
    EditorStays(w, m, offers, Edited(Edited(m, t.action), w.action), rest');
  }

  lemma EditorStays(w: Offer, m: Mark, offers: set<Offer>, r: Mark, s: seq<Offer>)
    requires PairsDistinct(offers) && Editor(w, m, offers) && IsBy(w.action, r)
    requires AllNatural(s) && forall o :: o in s ==> o in offers
    ensures ArrivedAll(Some(r), s) == Some(r)
  {
    hide PrefersIncoming, EditedValue, InsertedValue, Editable, Editor;
    forall o | o in s ensures !Edits(o, r) {
      EditorSettles(w, m, offers, r, o);
    }
    SettledStays(r, s);
  }

  lemma EditorUnique(w: Offer, m: Mark, offers: set<Offer>)
    requires PairsDistinct(offers) && Editor(w, m, offers)
    ensures forall v :: Editor(v, m, offers) ==> v == w
  {
    hide PrefersIncoming, Edits;
    forall v | Editor(v, m, offers) ensures v == w {
      if v != w {
        OneBeats(offers, v, w);
      }
    }
  }

  /** On a key that has a row, likewise. */
  lemma StoredOrdersAgreeIff(m: Mark, offers: set<Offer>)
    requires PairsDistinct(offers)
    ensures AllOrdersAgree(Some(m), offers) <==> AgreeableOn(m, offers)
  {
    hide PrefersIncoming, EditedValue, InsertedValue, Editable, ArrivedAll, Inserted, Edits, Changes, Kept;
    if exists o :: o in offers && Edits(o, m) {
      var w := EditorExists(m, offers);
      EditorUnique(w, m, offers);
      EditorOutcome(w, m, offers);
    } else {
      forall s | Covers(s, offers) && AllNatural(s) ensures ArrivedAll(Some(m), s) == Some(m) {
        NoEditor(m, offers, s);
      }
      assert forall w :: !Editor(w, m, offers);
    }
  }

  lemma NoEditor(m: Mark, offers: set<Offer>, s: seq<Offer>)
    requires Covers(s, offers) && AllNatural(s) && forall o :: o in offers ==> !Edits(o, m)
    ensures ArrivedAll(Some(m), s) == Some(m)
  {
    hide PrefersIncoming, EditedValue, InsertedValue, Editable;
    assert forall o :: o in s ==> !Edits(o, m);
    SettledStays(m, s);
  }

  lemma EditorOutcome(w: Offer, m: Mark, offers: set<Offer>)
    requires PairsDistinct(offers) && Editor(w, m, offers)
    ensures AllOrdersAgree(Some(m), offers) <==> (Omits(w.action.body) ==> NoneChanges(w, m, offers))
  {
    hide PrefersIncoming, EditedValue, InsertedValue, Editable, ArrivedAll, Inserted, Edits, Changes, Kept, Omits;
    assert w in offers;
    if !Omits(w.action.body) {
      forall s | Covers(s, offers) && AllNatural(s) ensures ArrivedAll(Some(m), s) == Some(Inserted(w.action)) {
        EditorWins(w, m, offers, s);
      }
    } else if NoneChanges(w, m, offers) {
      OmitsSession(w.action.body);
      forall s | Covers(s, offers) && AllNatural(s) ensures ArrivedAll(Some(m), s) == Some(Kept(w, m)) {
        ReferenceStays(w, m, offers, s);
      }
    } else {
      var t :| t in offers && t != w && Edits(t, m) && Changes(t, m);
      var x, y := EditorDiscord(w, t, m, offers);
    }
  }

  lemma OmitsSession(b: Body)
    ensures Omits(b) ==> b.SessionBody?
  {
  }
}
