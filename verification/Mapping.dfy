/** The natural keys of sync actions. SHA-256 is taken to be injective, so a key
    is the text that would be hashed. */
module Mapping {
  import opened Basics
  import opened Schema

  const METRIC_TYPES := {"typing_wpm", "typing_accuracy", "homework_done", "quiz_score", "observation"}

  function TableName(e: Entity): string {
    match e
    case PlayerEntity => "players"
    case ConsentEntity => "consents"
    case SessionEntity => "sessions"
    case AttendanceEntity => "attendance"
    case PaymentEntity => "payments"
    case EntitlementEntity => "entitlements"
    case MetricsEntity => "student_metrics"
    case UnknownEntity(name) => name
  }

  predicate IsNatural(e: Entity) {
    e.SessionEntity? || e.AttendanceEntity? || e.PaymentEntity? || e.MetricsEntity?
  }

  function NatText(n: nat): string {
    if n < 10 then [('0' as int + n) as char] else NatText(n / 10) + [('0' as int + n % 10) as char]
  }

  function IntText(n: int): string {
    if n < 0 then "-" + NatText(-n) else NatText(n)
  }

  function IdText(id: Option<nat>): Option<string> {
    if id.None? then None else Some(NatText(id.value))
  }

  lemma {:induction false} NumbersAreVerbatim(n: nat)
    ensures Verbatim(NatText(n)) && Plain(NatText(n)) && NatText(n) != ""
  {
    if n >= 10 {
      NumbersAreVerbatim(n / 10);
    }
  }

  lemma NumberIsItsSlug(n: nat)
    ensures Slug(Some(NatText(n))) == NatText(n) && Plain(NatText(n))
  {
    NumbersAreVerbatim(n);
    VerbatimSlug(NatText(n));
  }

  lemma NumberLength(n: nat)
    ensures |NatText(n)| == 1 <==> n < 10
  {
    if n >= 10 {
      NumbersAreVerbatim(n / 10);
    }
  }

  lemma {:induction false} NumbersDiffer(m: nat, n: nat)
    requires NatText(m) == NatText(n)
    ensures m == n
  {
    var x, y := NatText(m), NatText(n);
    assert x[|x| - 1] == ('0' as int + m % 10) as char && y[|y| - 1] == ('0' as int + n % 10) as char;
    NumberLength(m);
    NumberLength(n);
    if m >= 10 {
      assert x[..|x| - 1] == NatText(m / 10) && y[..|y| - 1] == NatText(n / 10);
      NumbersDiffer(m / 10, n / 10);
    }
  }

  /** The identifying fields, in key order; values a device may edit later are
      not among them. */
  function IdentityOf(body: Body, player: nat, session: Option<nat>): seq<Option<string>>
    requires IsNatural(body.EntityName())
  {
    match body
    case SessionBody(_, sessionType, startedAt, endedAt, _, _, _) =>
      [IdText(Some(player)), sessionType, startedAt, endedAt]
    case AttendanceBody(_, _, date, _, _) => [IdText(Some(player)), date, IdText(session)]
    case PaymentBody(_, product, amountCents, _, paidAt) =>
      [IdText(Some(player)), product, if amountCents.None? then None else Some(IntText(amountCents.value)), paidAt]
    case MetricsBody(_, metricType, _, measuredAt, _) => [IdText(Some(player)), metricType, measuredAt]
  }

  function NormalizedFields(fields: seq<Option<string>>): (r: seq<string>)
    ensures |r| == |fields|
    ensures forall i :: 0 <= i < |fields| ==> r[i] == Slug(fields[i])
  {
    if fields == [] then [] else [Slug(fields[0])] + NormalizedFields(fields[1..])
  }

  function NaturalKey(e: Entity, identity: seq<Option<string>>): string {
    JoinWith("|", [TableName(e)] + NormalizedFields(identity) + ["sync"])
  }

  lemma {:induction false} SeparatorIffMany(a: seq<string>)
    requires a != [] && forall p :: p in a ==> Plain(p)
    ensures Plain(JoinWith("|", a)) <==> |a| == 1
  {
    assert a[0] in a;
    if |a| > 1 {
      assert JoinWith("|", a)[|a[0]|] == '|';
    }
  }

  lemma {:induction false} JoinInjective(a: seq<string>, b: seq<string>)
    requires a != [] && b != []
    requires (forall p :: p in a ==> Plain(p)) && (forall p :: p in b ==> Plain(p))
    requires JoinWith("|", a) == JoinWith("|", b)
    ensures a == b
  {
    SeparatorIffMany(a);
    SeparatorIffMany(b);
    if |a| > 1 && |b| > 1 {
      assert a[0] in a && b[0] in b;
      FirstPart(a[0], JoinWith("|", a[1..]), b[0], JoinWith("|", b[1..]));
      JoinInjective(a[1..], b[1..]);
      assert a == [a[0]] + a[1..] && b == [b[0]] + b[1..];
    }
  }

  lemma NormalizedEqual(x: seq<Option<string>>, y: seq<Option<string>>)
    ensures NormalizedFields(x) == NormalizedFields(y) <==>
            |x| == |y| && forall i :: 0 <= i < |x| ==> Slug(x[i]) == Slug(y[i])
  {
    hide Slug;
    var a, b := NormalizedFields(x), NormalizedFields(y);
    assert forall i :: 0 <= i < |x| ==> a[i] == Slug(x[i]);
    assert forall i :: 0 <= i < |y| ==> b[i] == Slug(y[i]);
  }

  ghost predicate PlainFields(fields: seq<Option<string>>) {
    forall i :: 0 <= i < |fields| ==> Plain(Slug(fields[i]))
  }

  /** How many identifying fields a table has. */
  function FieldCount(e: Entity): nat
    requires IsNatural(e)
  {
    if e.SessionEntity? || e.PaymentEntity? then 4 else 3
  }

  lemma IdentityHasAllFields(body: Body, player: nat, session: Option<nat>)
    requires IsNatural(body.EntityName())
    ensures |IdentityOf(body, player, session)| == FieldCount(body.EntityName())
  {
  }

  /** Separators in a text, and in the parts of one. */
  function Bars(s: string): nat {
    multiset(s)['|']
  }

  function BarsIn(parts: seq<string>): nat {
    if parts == [] then 0 else Bars(parts[0]) + BarsIn(parts[1..])
  }

  lemma PlainIffNoBars(s: string)
    ensures Plain(s) <==> Bars(s) == 0
  {
    assert '|' in s <==> '|' in multiset(s);
  }

  lemma {:induction false} JoinBars(parts: seq<string>)
    requires parts != []
    ensures Bars(JoinWith("|", parts)) == |parts| - 1 + BarsIn(parts)
  {
    if |parts| == 1 {
      assert BarsIn(parts[1..]) == 0;
    } else {
      JoinBars(parts[1..]);
      assert multiset(parts[0] + "|" + JoinWith("|", parts[1..]))
             == multiset(parts[0]) + multiset("|") + multiset(JoinWith("|", parts[1..]));
    }
  }

  lemma {:induction false} NoBarsIffPlain(parts: seq<string>)
    ensures BarsIn(parts) == 0 <==> forall p :: p in parts ==> Plain(p)
  {
    if parts != [] {
      PlainIffNoBars(parts[0]);
      NoBarsIffPlain(parts[1..]);
      assert parts == [parts[0]] + parts[1..];
    }
  }

  /** Of two joined texts with equally many parts it is enough that one is plain. */
  lemma JoinInjectiveOneSided(a: seq<string>, b: seq<string>)
    requires a != [] && |a| == |b| && forall p :: p in a ==> Plain(p)
    requires JoinWith("|", a) == JoinWith("|", b)
    ensures a == b
  {
    JoinBars(a);
    JoinBars(b);
    NoBarsIffPlain(a);
    NoBarsIffPlain(b);
    JoinInjective(a, b);
  }

  lemma TablesDiffer(e: Entity, f: Entity)
    requires IsNatural(e) && IsNatural(f)
    ensures Plain(TableName(e)) && (TableName(e) == TableName(f) <==> e == f)
  {
    assert "sessions"[1] != "student_metrics"[1];
  }

  lemma KeyNamesTable(e: Entity, x: seq<Option<string>>, f: Entity, y: seq<Option<string>>)
    requires IsNatural(e) && IsNatural(f) && NaturalKey(e, x) == NaturalKey(f, y)
    ensures e == f
  {
    hide Slug, TableName, JoinWith;
    TablesDiffer(e, f);
    TablesDiffer(f, e);
    var a, b := NormalizedFields(x) + ["sync"], NormalizedFields(y) + ["sync"];
    KeyStartsWithTable(e, x);
    KeyStartsWithTable(f, y);
    FirstPart(TableName(e), JoinWith("|", a), TableName(f), JoinWith("|", b));
  }

  lemma KeyStartsWithTable(e: Entity, x: seq<Option<string>>)
    ensures NaturalKey(e, x) == TableName(e) + "|" + JoinWith("|", NormalizedFields(x) + ["sync"])
  {
    hide Slug, TableName;
    assert ([TableName(e)] + NormalizedFields(x) + ["sync"])[1..] == NormalizedFields(x) + ["sync"];
  }

  /** Two captures collide on one key exactly when they are of the same table and
      agree, up to case and spacing, on every identifying field, as soon as the
      fields of one of them are free of the separator. */
  lemma KeysCollideIff(e: Entity, x: seq<Option<string>>, f: Entity, y: seq<Option<string>>)
    requires IsNatural(e) && IsNatural(f) && |x| == FieldCount(e) && |y| == FieldCount(f)
    requires PlainFields(x) || PlainFields(y)
    ensures NaturalKey(e, x) == NaturalKey(f, y) <==>
            e == f && forall i :: 0 <= i < |x| ==> Slug(x[i]) == Slug(y[i])
  {
    hide Slug;
    NormalizedEqual(x, y);
    if NaturalKey(e, x) == NaturalKey(f, y) {
      KeyNamesTable(e, x, f, y);
      if PlainFields(x) {
        SameFields(e, x, y);
      } else {
        SameFields(e, y, x);
      }
    }
  }

  lemma SameFields(e: Entity, x: seq<Option<string>>, y: seq<Option<string>>)
    requires IsNatural(e) && |x| == |y| && PlainFields(x) && NaturalKey(e, x) == NaturalKey(e, y)
    ensures NormalizedFields(x) == NormalizedFields(y)
  {
    hide Slug;
    var a, b := [TableName(e)] + NormalizedFields(x) + ["sync"], [TableName(e)] + NormalizedFields(y) + ["sync"];
    JoinInjectiveOneSided(a, b);
    assert a[1..|a| - 1] == NormalizedFields(x) && b[1..|b| - 1] == NormalizedFields(y);
  }

  lemma JoinThree(a: string, b: string, rest: seq<string>)
    requires rest != []
    ensures JoinWith("|", [a, b] + rest) == a + "|" + (b + "|" + JoinWith("|", rest))
  {
    var all, tail := [a, b] + rest, [b] + rest;
    assert all[1..] == tail && tail[1..] == rest;
    assert JoinWith("|", tail) == b + "|" + JoinWith("|", rest);
  }

  /** Two neighbouring parts may be cut differently. */
  lemma {:induction false} CutMoves(before: seq<string>, u: string, v: string, w: string, z: string, rest: seq<string>)
    requires rest != [] && u + "|" + v == w + "|" + z
    ensures JoinWith("|", before + [u, v] + rest) == JoinWith("|", before + [w, z] + rest)
    decreases |before|
  {
    if before == [] {
      assert before + [u, v] + rest == [u, v] + rest && before + [w, z] + rest == [w, z] + rest;
      JoinThree(u, v, rest);
      JoinThree(w, z, rest);
      assert u + "|" + (v + "|" + JoinWith("|", rest)) == (u + "|" + v) + ("|" + JoinWith("|", rest));
      assert w + "|" + (z + "|" + JoinWith("|", rest)) == (w + "|" + z) + ("|" + JoinWith("|", rest));
    } else {
      CutMoves(before[1..], u, v, w, z, rest);
      assert (before + [u, v] + rest)[1..] == before[1..] + [u, v] + rest;
      assert (before + [w, z] + rest)[1..] == before[1..] + [w, z] + rest;
    }
  }

  /** When both carry it, two different sessions can share a key: the separator may
      move from the end of one field to the start of the next. */
  lemma SeparatorMovesBetweenFields(player: Option<string>, sessionType: Option<string>)
    ensures var x := [player, sessionType, Some("a|b"), Some("c")];
            var y := [player, sessionType, Some("a"), Some("b|c")];
            && Slug(x[2]) != Slug(y[2]) && Slug(x[3]) != Slug(y[3])
            && NaturalKey(SessionEntity, x) == NaturalKey(SessionEntity, y)
  {
    SeparatorSlugs();
    hide Slug, JoinWith;
    var x := [player, sessionType, Some("a|b"), Some("c")];
    var y := [player, sessionType, Some("a"), Some("b|c")];
    var before := [TableName(SessionEntity), Slug(player), Slug(sessionType)];
    assert [TableName(SessionEntity)] + NormalizedFields(x) + ["sync"] == before + ["a|b", "c"] + ["sync"];
    assert [TableName(SessionEntity)] + NormalizedFields(y) + ["sync"] == before + ["a", "b|c"] + ["sync"];
    assert "a|b" + "|" + "c" == "a" + "|" + "b|c";
    CutMoves(before, "a|b", "c", "a", "b|c", ["sync"]);
  }

  // ------------------------------------------------------------------
  // Which captures are the same thing
  // ------------------------------------------------------------------

  lemma IntTextMeaning(m: int, n: int)
    ensures Verbatim(IntText(m)) && Plain(IntText(m)) && IntText(m) != ""
    ensures IntText(m) == IntText(n) <==> m == n
  {
    NumbersAreVerbatim(if m < 0 then -m else m);
    NumbersAreVerbatim(if n < 0 then -n else n);
    SignShows(m);
    SignShows(n);
    if IntText(m) == IntText(n) {
      if m < 0 {
        assert IntText(m)[1..] == NatText(-m) && IntText(n)[1..] == NatText(-n);
        NumbersDiffer(-m, -n);
      } else {
        NumbersDiffer(m, n);
      }
    }
  }

  lemma SignShows(n: int)
    ensures IntText(n) != "" && (n < 0 <==> IntText(n)[0] == '-')
  {
    DigitsOnly(if n < 0 then -n else n);
  }

  lemma {:induction false} DigitsOnly(n: nat)
    ensures NatText(n) != "" && forall i :: 0 <= i < |NatText(n)| ==> '0' <= NatText(n)[i] <= '9'
  {
    if n >= 10 {
      DigitsOnly(n / 10);
    }
  }

  lemma NumberSlugs(m: nat, n: nat)
    ensures Slug(Some(NatText(m))) == Slug(Some(NatText(n))) <==> m == n
    ensures Slug(Some(NatText(m))) != ""
  {
    NumbersAreVerbatim(m);
    NumbersAreVerbatim(n);
    VerbatimSlug(NatText(m));
    VerbatimSlug(NatText(n));
    hide Slug;
    if NatText(m) == NatText(n) {
      NumbersDiffer(m, n);
    }
  }

  lemma CentsSlugs(m: int, n: int)
    ensures Slug(Some(IntText(m))) == Slug(Some(IntText(n))) <==> m == n
    ensures Slug(Some(IntText(m))) != ""
  {
    IntTextMeaning(m, n);
    IntTextMeaning(n, m);
    VerbatimSlug(IntText(m));
    VerbatimSlug(IntText(n));
  }

  /** The same thing twice: a session of one type and time, the attendance of one day
      and session, a payment of one amount for one product at one time, a metric of
      one type at one time, each of one player. */
  predicate SameThing(a: Body, player: nat, session: Option<nat>, b: Body, player': nat, session': Option<nat>) {
    && player == player'
    && match a
       case SessionBody(_, kind, start, end, _, _, _) =>
         && b.SessionBody? && Slug(kind) == Slug(b.sessionType) && Slug(start) == Slug(b.startedAt)
         && Slug(end) == Slug(b.endedAt)
       case AttendanceBody(_, _, date, _, _) => b.AttendanceBody? && Slug(date) == Slug(b.date) && session == session'
       case PaymentBody(_, product, cents, _, paid) =>
         b.PaymentBody? && Slug(product) == Slug(b.product) && cents == b.amountCents && Slug(paid) == Slug(b.paidAt)
       case MetricsBody(_, kind, _, measured, _) =>
         b.MetricsBody? && Slug(kind) == Slug(b.metricType) && Slug(measured) == Slug(b.measuredAt)
       case _ => false
  }

  /** Two captures share a key exactly when they are the same thing, up to case and
      spacing, as soon as the fields of one are free of the separator. */
  lemma SameKeyIffSameThing(a: Body, player: nat, session: Option<nat>, b: Body, player': nat, session': Option<nat>)
    requires IsNatural(a.EntityName()) && IsNatural(b.EntityName())
    requires PlainFields(IdentityOf(a, player, session)) || PlainFields(IdentityOf(b, player', session'))
    ensures NaturalKey(a.EntityName(), IdentityOf(a, player, session))
            == NaturalKey(b.EntityName(), IdentityOf(b, player', session'))
            <==> SameThing(a, player, session, b, player', session')
  {
    var x, y := IdentityOf(a, player, session), IdentityOf(b, player', session');
    IdentityHasAllFields(a, player, session);
    IdentityHasAllFields(b, player', session');
    KeysCollideIff(a.EntityName(), x, b.EntityName(), y);
    NumberSlugs(player, player');
    if session.Some? {
      NumberSlugs(session.value, if session'.Some? then session'.value else 0);
    }
    if session'.Some? {
      NumberSlugs(session'.value, if session.Some? then session.value else 0);
    }
    if a.PaymentBody? && a.amountCents.Some? {
      CentsSlugs(a.amountCents.value, if b.PaymentBody? && b.amountCents.Some? then b.amountCents.value else 0);
    }
    if b.PaymentBody? && b.amountCents.Some? {
      CentsSlugs(b.amountCents.value, if a.PaymentBody? && a.amountCents.Some? then a.amountCents.value else 0);
    }
    assert Slug(None) == "";
    hide Slug, NatText, IntText, NaturalKey;
    if a.EntityName() == b.EntityName() {
      FieldsAlike(x, y);
    }
  }

  lemma FieldsAlike(x: seq<Option<string>>, y: seq<Option<string>>)
    requires |x| == |y| && 3 <= |x| <= 4
    ensures (forall i :: 0 <= i < |x| ==> Slug(x[i]) == Slug(y[i])) <==>
              && Slug(x[0]) == Slug(y[0]) && Slug(x[1]) == Slug(y[1]) && Slug(x[2]) == Slug(y[2])
              && (|x| == 4 ==> Slug(x[3]) == Slug(y[3]))
  {
    hide Slug;
  }

  // ------------------------------------------------------------------
  // The text of a key
  // ------------------------------------------------------------------

  /** The number that digits spell. */
  function Spelled(digits: string): int {
    if digits == [] then 0
    else 10 * Spelled(digits[..|digits| - 1]) + (digits[|digits| - 1] as int - '0' as int)
  }

  /** Numbers are written in decimal. */
  lemma {:induction false} NatTextSpells(n: nat)
    ensures Spelled(NatText(n)) == n
  {
    if n >= 10 {
      NatTextSpells(n / 10);
      assert NatText(n)[..|NatText(n)| - 1] == NatText(n / 10);
    } else {
      assert NatText(n)[..0] == [];
    }
  }

  lemma JoinMeaning(part: string, rest: seq<string>)
    ensures JoinWith("|", [part]) == part
    ensures rest != [] ==> JoinWith("|", [part] + rest) == part + "|" + JoinWith("|", rest)
  {
    assert ([part] + rest)[1..] == rest;
  }

  /** The key, spelled out: the table, the identifying fields in their order, the
      source. */
  lemma KeyText(body: Body, player: nat, session: Option<nat>)
    requires IsNatural(body.EntityName())
    ensures var key, id := NaturalKey(body.EntityName(), IdentityOf(body, player, session)), NatText(player);
            match body
            case SessionBody(_, kind, start, end, _, _, _) =>
              key == JoinWith("|", ["sessions"] + [id, Slug(kind), Slug(start), Slug(end)] + ["sync"])
            case AttendanceBody(_, _, date, _, _) =>
              key == JoinWith("|", ["attendance"]
                                   + [id, Slug(date), if session.Some? then NatText(session.value) else ""] + ["sync"])
            case PaymentBody(_, product, cents, _, paid) =>
              key == JoinWith("|", ["payments"]
                                   + [id, Slug(product), if cents.Some? then IntText(cents.value) else "", Slug(paid)]
                                   + ["sync"])
            case MetricsBody(_, kind, _, measured, _) =>
              key == JoinWith("|", ["student_metrics"] + [id, Slug(kind), Slug(measured)] + ["sync"])
  {
    NumberIsItsSlug(player);
    if session.Some? {
      NumberIsItsSlug(session.value);
    }
    if body.PaymentBody? && body.amountCents.Some? {
      IntTextMeaning(body.amountCents.value, 0);
      VerbatimSlug(IntText(body.amountCents.value));
    }
    assert Slug(None) == "";
    var x := IdentityOf(body, player, session);
    NormalizedParts(x);
    hide Slug, NatText, IntText, JoinWith, NormalizedFields;
    assert NaturalKey(body.EntityName(), x)
        == JoinWith("|", [TableName(body.EntityName())] + NormalizedFields(x) + ["sync"]);
  }

  lemma NormalizedParts(x: seq<Option<string>>)
    ensures |x| == 3 ==> NormalizedFields(x) == [Slug(x[0]), Slug(x[1]), Slug(x[2])]
    ensures |x| == 4 ==> NormalizedFields(x) == [Slug(x[0]), Slug(x[1]), Slug(x[2]), Slug(x[3])]
  {
    var r := NormalizedFields(x);
    assert |r| == |x| && forall i :: 0 <= i < |x| ==> r[i] == Slug(x[i]);
    hide Slug, NormalizedFields;
  }
}
