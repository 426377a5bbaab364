/** What a loaded row says: column by column against the record it was made from, and
    when two records are one row. */
module LoadedRows {
  import opened Basics
  import opened Schema
  import opened Dedup
  import opened Loader
  import Mapping

  // ------------------------------------------------------------------
  // Text
  // ------------------------------------------------------------------

  /** `t` is `s` in lower case without the blanks around it. */
  ghost predicate IsTrimmed(s: string, t: string, blank: char -> bool) {
    exists i, j :: 0 <= i <= j <= |s| && IsTrimmedAt(s, t, blank, i, j)
  }

  predicate IsTrimmedAt(s: string, t: string, blank: char -> bool, i: int, j: int)
    requires 0 <= i <= j <= |s|
  {
    && (forall k :: 0 <= k < i ==> blank(s[k])) && (forall k :: j <= k < |s| ==> blank(s[k]))
    && (i < j ==> !blank(s[i]) && !blank(s[j - 1]))
    && |t| == j - i && forall k :: 0 <= k < |t| ==> t[k] == Lower(s[i + k])
  }

  lemma {:induction false} TrimLeftMeaning(s: string, blank: char -> bool) returns (i: nat)
    ensures i <= |s| && TrimLeft(s, blank) == s[i..]
    ensures (forall k :: 0 <= k < i ==> blank(s[k])) && (i < |s| ==> !blank(s[i]))
  {
    if s != [] && blank(s[0]) {
      var n := TrimLeftMeaning(s[1..], blank);
      i := n + 1;
      assert s[1..][n..] == s[i..];
      assert forall k :: 0 < k < i ==> s[k] == s[1..][k - 1];
    } else {
      i := 0;
    }
  }

  lemma {:induction false} TrimRightMeaning(s: string, blank: char -> bool) returns (j: nat)
    ensures j <= |s| && TrimRight(s, blank) == s[..j]
    ensures (forall k :: j <= k < |s| ==> blank(s[k])) && (j > 0 ==> !blank(s[j - 1]))
  {
    if s != [] && blank(s[|s| - 1]) {
      j := TrimRightMeaning(s[..|s| - 1], blank);
      assert s[..|s| - 1][..j] == s[..j];
    } else {
      j := |s|;
      assert s[..j] == s;
    }
  }

  lemma {:induction false} LowerAllMeaning(s: string)
    ensures |LowerAll(s)| == |s| && forall k :: 0 <= k < |s| ==> LowerAll(s)[k] == Lower(s[k])
  {
    if s != [] {
      LowerAllMeaning(s[1..]);
    }
  }

  lemma TrimmedMeaning(s: string, blank: char -> bool)
    ensures IsTrimmed(s, TrimmedLower(s, blank), blank)
  {
    var i := TrimLeftMeaning(s, blank);
    var rest := s[i..];
    var j := TrimRightMeaning(rest, blank);
    LowerAllMeaning(rest[..j]);
    assert rest[..j] == s[i..i + j];
    assert forall k :: i + j <= k < |s| ==> s[k] == rest[k - i];
    assert IsTrimmedAt(s, TrimmedLower(s, blank), blank, i, i + j);
  }

  // ------------------------------------------------------------------
  // Columns
  // ------------------------------------------------------------------

  /** Text that says nothing is not stored. */
  predicate Stored(column: Option<string>, given: Option<string>) {
    column == if given.Some? && !Blank(given.value) then given else None
  }

  /** The lesson of that title, its case and the blanks around it aside, or none. */
  ghost predicate OfLesson(rows: seq<Row>, title: Option<string>, lesson: Option<nat>) {
    if !IsPresent(title) then lesson.None?
    else if lesson.Some? then lesson.value < |rows| && Titled(rows[lesson.value], title.value)
    else forall i :: 0 <= i < |rows| ==> !Titled(rows[i], title.value)
  }

  predicate Titled(row: Row, title: string) {
    row.columns.LessonRow? && TitleKey(row.columns.title) == Stripped(title)
  }

  /** The columns are those of the record: each from the field it belongs to, names
      replaced by the one row that answers to them. */
  ghost predicate ColumnsOf(db: Tables, r: LoadRecord, c: Columns) {
    match r.payload
    case SessionLoad(name, kind, started, ended, duration, school) =>
      && c.SessionRow? && OnlyNamed(PlayerNames(db.players), name, c.player)
      && kind.Some? && IsTrimmed(kind.value, c.sessionType, IsSpace)
      && c.sessionType in {"lesson", "kit", "esports", "lounge"}
      && Stored(c.startedAt, started) && Stored(c.endedAt, ended) && c.duration == duration
      && Referenced(db.schools, school, c.school)
    case PaymentLoad(name, product, _, cents, how, paid) =>
      && c.PaymentRow? && OnlyNamed(PlayerNames(db.players), name, c.player)
      && Referenced(db.products, product, c.product) && cents == Some(c.cents)
      && Stored(c.how, how) && Stored(c.paidAt, paid)
    case LessonLoad(title, topic, phenomenon, content) =>
      && c.LessonRow? && c.title == (if title.Some? && !Blank(title.value) then title.value else r.source)
      && Stored(c.topic, topic) && Stored(c.phenomenon, phenomenon) && Stored(c.content, content) && c.file == r.source
    case MetricLoad(name, lesson, kind, value, measured) =>
      && c.MetricRow? && OnlyNamed(PlayerNames(db.players), name, c.player) && OfLesson(db.rows, lesson, c.lesson)
      && Stored(c.metricType, kind) && c.value == value && Stored(c.measuredAt, measured)
      && kind.Some? && value.Some?
      && kind.value in {"typing_wpm", "typing_accuracy", "homework_done", "quiz_score", "observation"}
    case _ => false
  }

  lemma PresentIffNotBlank(value: Option<string>)
    ensures IsPresent(value) <==> value.Some? && !Blank(value.value)
  {
  }

  lemma BlankToNoneMeaning(value: Option<string>)
    ensures Stored(BlankToNone(value), value)
  {
    PresentIffNotBlank(value);
  }

  /** A record that is inserted gets the columns its fields give. */
  lemma FreshColumns(db: Tables, r: LoadRecord, env: Env)
    requires Insertable(r.payload) && EnvFor(env, db) && FateOf(db, r, env).Fresh?
    ensures ColumnsOf(db, r, FateOf(db, r, env).columns)
  {
    NeverGuesses(db, r, env);
    match r.payload {
      case SessionLoad(_, kind, started, ended, _, _) =>
        FreshSession(db, r, env);
      case PaymentLoad(_, _, _, _, how, paid) =>
        FreshPayment(db, r, env);
      case LessonLoad(_, _, _, _) =>
        FreshLesson(db, r, env);
      case MetricLoad(_, _, _, _, _) =>
        FreshMetric(db, r, env);
    }
  }

  lemma FreshSession(db: Tables, r: LoadRecord, env: Env)
    requires r.payload.SessionLoad? && EnvFor(env, db) && FateOf(db, r, env).Fresh?
    ensures ColumnsOf(db, r, FateOf(db, r, env).columns)
  {
    NeverGuesses(db, r, env);
    BlankToNoneMeaning(r.payload.startedAt);
    BlankToNoneMeaning(r.payload.endedAt);
    if r.payload.sessionType.Some? {
      TrimmedMeaning(r.payload.sessionType.value, IsSpace);
    }
    hide Slug, Lookup, OnlyNamed, Referenced, IndexOf, PlayerNames, NaturalKey, IsTrimmed, BlankToNone, Stored, FindRow;
  }

  lemma FreshPayment(db: Tables, r: LoadRecord, env: Env)
    requires r.payload.PaymentLoad? && EnvFor(env, db) && FateOf(db, r, env).Fresh?
    ensures ColumnsOf(db, r, FateOf(db, r, env).columns)
  {
    NeverGuesses(db, r, env);
    BlankToNoneMeaning(r.payload.how);
    BlankToNoneMeaning(r.payload.paidAt);
    hide Slug, Lookup, IsPresent, OnlyNamed, Referenced, IndexOf, PlayerNames, NaturalKey, BlankToNone, Stored, FindRow;
  }

  lemma FreshLesson(db: Tables, r: LoadRecord, env: Env)
    requires r.payload.LessonLoad? && FateOf(db, r, env).Fresh?
    ensures ColumnsOf(db, r, FateOf(db, r, env).columns)
  {
    PresentIffNotBlank(r.payload.title);
    BlankToNoneMeaning(r.payload.topic);
    BlankToNoneMeaning(r.payload.phenomenon);
    BlankToNoneMeaning(r.payload.content);
    hide Slug, IsPresent, Blank, NaturalKey, BlankToNone, Stored, FindRow;
  }

  lemma FreshMetric(db: Tables, r: LoadRecord, env: Env)
    requires r.payload.MetricLoad? && EnvFor(env, db) && FateOf(db, r, env).Fresh?
    ensures ColumnsOf(db, r, FateOf(db, r, env).columns)
  {
    NeverGuesses(db, r, env);
    BlankToNoneMeaning(r.payload.metricType);
    BlankToNoneMeaning(r.payload.measuredAt);
    LessonForMeaning(db.rows, r.payload.lesson);
    assert BlankToNone(r.payload.metricType).Some? ==> BlankToNone(r.payload.metricType) == r.payload.metricType;
    hide Slug, Lookup, IsPresent, OnlyNamed, IndexOf, PlayerNames, NaturalKey, BlankToNone, Stored, FindRow, LessonFor,
         OfLesson;
  }

  lemma LessonForMeaning(rows: seq<Row>, title: Option<string>)
    ensures OfLesson(rows, title, LessonFor(rows, title))
  {
    hide IsPresent, Stripped, TitleKey;
  }

  // ------------------------------------------------------------------
  // When a record is inserted
  // ------------------------------------------------------------------

  /** Several rows answer to the name. */
  ghost predicate ManyNamed<T(!new)>(names: seq<(string, T)>, name: Option<string>) {
    exists a, b :: a != b && Named(names, Slug(name), a) && Named(names, Slug(name), b)
  }

  /** One row alone answers to the name, and the name says something. */
  ghost predicate Resolves<T(!new)>(names: seq<(string, T)>, name: Option<string>) {
    Slug(name) != "" && exists id :: OnlyNamed(names, name, id)
  }

  lemma LookupMeaning<T(!new)>(names: seq<(string, T)>, name: Option<string>)
    ensures var target := Lookup<T>(IndexOf(names), name);
            && (target.Some? && target.value.Unique? <==> Resolves(names, name))
            && (target.Some? && target.value.Shared? <==> Slug(name) != "" && ManyNamed(names, name))
  {
    var key := Slug(name);
    if key != "" {
      IndexMeaning(names, key);
      hide Slug, Named;
      var target := Lookup<T>(IndexOf(names), name);
      if target.Some? && target.value.Unique? {
        assert OnlyNamed(names, name, target.value.id);
      } else if target.Some? {
        assert ManyNamed(names, name);
      }
    }
  }

  /** A record without an own table entry yet can be inserted: its player is known and
      only one, its school or product, if it names one, too, its session type or metric
      type is an allowed one, its amount is a number. */
  ghost predicate Clear(db: Tables, p: Payload) {
    match p
    case SessionLoad(name, kind, _, _, _, school) =>
      && Resolves(PlayerNames(db.players), name) && (IsPresent(school) ==> Resolves(db.schools, school))
      && kind.Some? && !Blank(kind.value) && Stripped(kind.value) in {"lesson", "kit", "esports", "lounge"}
    case PaymentLoad(name, product, _, cents, _, _) =>
      && Resolves(PlayerNames(db.players), name) && (IsPresent(product) ==> Resolves(db.products, product))
      && cents.Some?
    case LessonLoad(_, _, _, _) => true
    case MetricLoad(name, _, kind, value, _) =>
      && Resolves(PlayerNames(db.players), name) && value.Some? && kind.Some?
      && kind.value in {"typing_wpm", "typing_accuracy", "homework_done", "quiz_score", "observation"}
    case _ => false
  }

  /** Under the key of the record there is a row. */
  predicate HasRow(rows: seq<Row>, key: string) {
    exists i :: 0 <= i < |rows| && rows[i].key == key
  }

  lemma ClearIff(db: Tables, r: LoadRecord, env: Env)
    requires Insertable(r.payload) && EnvFor(env, db)
    ensures Clear(db, r.payload) <==>
            BuildColumns(db.rows, r, env).Returned? && WellFormed(BuildColumns(db.rows, r, env).result)
  {
    match r.payload {
      case SessionLoad(name, kind, _, _, _, school) =>
        LookupMeaning(PlayerNames(db.players), name);
        LookupMeaning(db.schools, school);
        PresentIffNotBlank(kind);
      case PaymentLoad(name, product, _, _, _, _) =>
        LookupMeaning(PlayerNames(db.players), name);
        LookupMeaning(db.products, product);
      case LessonLoad(_, _, _, _) =>
      case MetricLoad(name, _, kind, _, _) =>
        LookupMeaning(PlayerNames(db.players), name);
        MetricTypesSaySomething(kind);
    }
    hide Slug, Lookup, IsPresent, Blank, Resolves, ManyNamed, IndexOf, PlayerNames, Stripped, LessonFor;
  }

  lemma MetricTypesSaySomething(kind: Option<string>)
    ensures kind.Some? && kind.value in METRIC_TYPES ==> IsPresent(kind)
  {
    if kind.Some? && kind.value in METRIC_TYPES {
      assert !IsSpace(kind.value[0]);
    }
  }

  /** The record is flagged, and nothing else happens. */
  predicate WithFlag(run: Run, after: Run, id: Id) {
    var flags := after.result.flagged;
    && |flags| == |run.result.flagged| + 1 && flags[..|run.result.flagged|] == run.result.flagged
    && flags[|run.result.flagged|].0 == id && after == run.(result := run.result.(flagged := flags))
  }

  /** A record is inserted exactly if it is clear, no row has its key and the location
      is known; the row then has the columns of the record and its key, and is logged as
      an insert. A clear record whose key is there is skipped and logged as a skip of
      that row. Every other record is flagged, and changes nothing. */
  lemma LoadedRowMeaning(run: Run, r: LoadRecord, env: Env)
    requires Insertable(r.payload) && EnvFor(env, run.db)
    ensures var after, db, key := LoadedOne(run, r, env), run.db, NaturalKey(r);
            var entry := (id: nat, action: LogAction) =>
              LogEntry(UnknownEntity(TableOf(r.payload)), id, action, env.location, env.user, None, None, false);
            if Clear(db, r.payload) && !HasRow(db.rows, key) && env.location in db.known then
              && |after.db.rows| == |db.rows| + 1 && after.db.rows[..|db.rows|] == db.rows
              && after.db.rows[|db.rows|].key == key && ColumnsOf(db, r, after.db.rows[|db.rows|].columns)
              && after.db == db.(rows := after.db.rows, log := db.log + [entry(|db.rows|, Insert)])
              && after.result == run.result.(loaded := run.result.loaded + [r.id])
            else if Clear(db, r.payload) && HasRow(db.rows, key) then
              exists i: nat ::
                && i < |db.rows| && db.rows[i].key == key
                && after.db == db.(log := db.log + [entry(i, Skip)])
                && after.result == run.result.(skipped := run.result.skipped + [r.id])
            else WithFlag(run, after, r.id)
  {
    var db, key := run.db, NaturalKey(r);
    ClearIff(db, r, env);
    var fate := FateOf(db, r, env);
    assert HasRow(db.rows, key) <==> FindRow(db.rows, key).Some?;
    hide BuildColumns, WellFormed, NaturalKey, Clear, EnvFor;
    if fate.Fresh? {
      FreshColumns(db, r, env);
    }
    hide ColumnsOf;
  }

  /** The reason a record is flagged for. */
  lemma FlagReason(db: Tables, r: LoadRecord, env: Env)
    requires Insertable(r.payload) && EnvFor(env, db) && !Clear(db, r.payload)
    ensures FateOf(db, r, env).Withheld?
    ensures var reason, p := FateOf(db, r, env).reason, r.payload;
            p.LessonLoad? || reason ==
            if !Resolves(PlayerNames(db.players), p.player_name) then
              if Slug(p.player_name) != "" && ManyNamed(PlayerNames(db.players), p.player_name)
              then "AMBIGUOUS_PLAYER" else "UNRESOLVED_PLAYER"
            else if p.PaymentLoad? then if p.cents.None? then "BAD_AMOUNT" else "UNRESOLVED_PRODUCT"
            else if p.MetricLoad? then "INSERT_ERROR"
            else if p.sessionType.Some? && !Blank(p.sessionType.value)
                    && Stripped(p.sessionType.value) in {"lesson", "kit", "esports", "lounge"} then "UNRESOLVED_SCHOOL"
            else "BAD_SESSION_TYPE"
  {
    ClearIff(db, r, env);
    if r.payload.SessionLoad? {
      PresentIffNotBlank(r.payload.sessionType);
    }
    if !r.payload.LessonLoad? {
      LookupMeaning(PlayerNames(db.players), r.payload.player_name);
    }
    hide Slug, Lookup, IsPresent, Blank, Resolves, ManyNamed, IndexOf, PlayerNames, Stripped, LessonFor, Clear, FindRow,
         NaturalKey;
  }

  // ------------------------------------------------------------------
  // When two records are one row
  // ------------------------------------------------------------------

  /** The same record from the same file, up to case and spacing: session, payment,
      metric and lesson each by what identifies it. */
  predicate SameRecord(r: LoadRecord, q: LoadRecord) {
    && Slug(Some(r.source)) == Slug(Some(q.source))
    && match r.payload
       case SessionLoad(name, kind, started, ended, _, _) =>
         && q.payload.SessionLoad? && Slug(name) == Slug(q.payload.player_name)
         && Slug(kind) == Slug(q.payload.sessionType)
         && Slug(started) == Slug(q.payload.startedAt) && Slug(ended) == Slug(q.payload.endedAt)
       case PaymentLoad(name, product, amount, _, _, paid) =>
         && q.payload.PaymentLoad? && Slug(name) == Slug(q.payload.player_name)
         && Slug(product) == Slug(q.payload.product)
         && Slug(amount) == Slug(q.payload.amount) && Slug(paid) == Slug(q.payload.paidAt)
       case LessonLoad(title, _, _, _) => q.payload.LessonLoad? && Slug(title) == Slug(q.payload.title)
       case MetricLoad(name, _, kind, value, measured) =>
         && q.payload.MetricLoad? && Slug(name) == Slug(q.payload.player_name)
         && Slug(kind) == Slug(q.payload.metricType)
         && Slug(value) == Slug(q.payload.value) && Slug(measured) == Slug(q.payload.measuredAt)
       case _ => false
  }

  /** No identifying field of the record carries the separator. */
  ghost predicate PlainRecord(r: LoadRecord) {
    Mapping.PlainFields(KeyFields(r.payload)) && Plain(Slug(Some(r.source)))
  }

  lemma KeyParts(r: LoadRecord)
    requires Insertable(r.payload)
    ensures NaturalKey(r) == TableOf(r.payload) + "|"
                             + JoinWith("|", Mapping.NormalizedFields(KeyFields(r.payload)) + [Slug(Some(r.source))])
    ensures Plain(TableOf(r.payload))
  {
    hide Slug;
    var rest := Mapping.NormalizedFields(KeyFields(r.payload)) + [Slug(Some(r.source))];
    assert ([TableOf(r.payload)] + rest)[1..] == rest;
    assert [TableOf(r.payload)] + Mapping.NormalizedFields(KeyFields(r.payload)) + [Slug(Some(r.source))]
        == [TableOf(r.payload)] + rest;
  }

  lemma SameTable(r: LoadRecord, q: LoadRecord)
    requires Insertable(r.payload) && Insertable(q.payload) && TableOf(r.payload) == TableOf(q.payload)
    ensures r.payload.SessionLoad? <==> q.payload.SessionLoad?
    ensures r.payload.PaymentLoad? <==> q.payload.PaymentLoad?
    ensures r.payload.LessonLoad? <==> q.payload.LessonLoad?
    ensures r.payload.MetricLoad? <==> q.payload.MetricLoad?
    ensures |KeyFields(r.payload)| == |KeyFields(q.payload)|
  {
    assert "sessions"[1] != "student_metrics"[1] && "sessions"[0] != "payments"[0];
    assert "sessions"[0] != "lessons"[0] && "payments"[0] != "lessons"[0];
    assert "student_metrics"[0] != "lessons"[0] && "student_metrics"[0] != "payments"[0];
  }

  lemma SameFieldsIff(r: LoadRecord, q: LoadRecord)
    requires Insertable(r.payload) && Insertable(q.payload) && TableOf(r.payload) == TableOf(q.payload)
    ensures SameRecord(r, q) <==>
            && Mapping.NormalizedFields(KeyFields(r.payload)) == Mapping.NormalizedFields(KeyFields(q.payload))
            && Slug(Some(r.source)) == Slug(Some(q.source))
  {
    SameTable(r, q);
    var x, y := KeyFields(r.payload), KeyFields(q.payload);
    Mapping.NormalizedEqual(x, y);
    hide Slug;
    assert |x| == 1 || |x| == 4;
    assert (forall i :: 0 <= i < |x| ==> Slug(x[i]) == Slug(y[i])) <==>
           && Slug(x[0]) == Slug(y[0])
           && (|x| == 4 ==> Slug(x[1]) == Slug(y[1]) && Slug(x[2]) == Slug(y[2]) && Slug(x[3]) == Slug(y[3]));
  }

  /** Two records share a key, and the second one is skipped, exactly when they are the
      same record, as soon as the fields of one are free of the separator. */
  lemma SameKeyIffSameRecord(r: LoadRecord, q: LoadRecord)
    requires Insertable(r.payload) && Insertable(q.payload) && (PlainRecord(r) || PlainRecord(q))
    ensures NaturalKey(r) == NaturalKey(q) <==> SameRecord(r, q)
  {
    var a, b := Mapping.NormalizedFields(KeyFields(r.payload)), Mapping.NormalizedFields(KeyFields(q.payload));
    var s, t := Slug(Some(r.source)), Slug(Some(q.source));
    hide Slug;
    KeyParts(r);
    KeyParts(q);
    if TableOf(r.payload) == TableOf(q.payload) {
      SameFieldsIff(r, q);
      SameTable(r, q);
      if NaturalKey(r) == NaturalKey(q) {
        assert JoinWith("|", a + [s]) == JoinWith("|", b + [t]) by {
          FirstPart(TableOf(r.payload), JoinWith("|", a + [s]), TableOf(q.payload), JoinWith("|", b + [t]));
        }
        if PlainRecord(r) {
          Mapping.JoinInjectiveOneSided(a + [s], b + [t]);
        } else {
          Mapping.JoinInjectiveOneSided(b + [t], a + [s]);
        }
        assert (a + [s])[..|a|] == a && (b + [t])[..|b|] == b;
        assert (a + [s])[|a|] == s && (b + [t])[|b|] == t;
      }
    } else {
      assert !SameRecord(r, q);
      if NaturalKey(r) == NaturalKey(q) {
        FirstPart(TableOf(r.payload), JoinWith("|", a + [s]), TableOf(q.payload), JoinWith("|", b + [t]));
      }
    }
  }

  // ------------------------------------------------------------------
  // Every record of a batch
  // ------------------------------------------------------------------

  function OneIf(r: LoadRecord, taken: bool): multiset<LoadRecord> {
    if taken then multiset{r} else multiset{}
  }

  lemma FirstRecord(batch: seq<LoadRecord>)
    requires batch != []
    ensures multiset(PlayersOf(batch))
            == OneIf(batch[0], batch[0].payload.PlayerLoad?) + multiset(PlayersOf(batch[1..]))
    ensures multiset(OthersOf(batch)) == OneIf(batch[0], Insertable(batch[0].payload)) + multiset(OthersOf(batch[1..]))
    ensures multiset(ConsentsOf(batch))
            == OneIf(batch[0], batch[0].payload.ConsentLoad?) + multiset(ConsentsOf(batch[1..]))
  {
  }

  lemma OneKindEach(r: LoadRecord)
    ensures OneIf(r, r.payload.PlayerLoad?) + OneIf(r, Insertable(r.payload)) + OneIf(r, r.payload.ConsentLoad?)
            == multiset{r}
  {
  }

  lemma Regrouped<T>(a: multiset<T>, b: multiset<T>, c: multiset<T>, x: multiset<T>, y: multiset<T>, z: multiset<T>)
    ensures (a + x) + (b + y) + (c + z) == (a + b + c) + (x + y + z)
  {
  }

  /** Every record of a batch is loaded as what it is: as a player, as a row of one of
      the four tables, or as a consent; none is left out or taken twice. */
  lemma {:induction false} EveryRecordOnce(batch: seq<LoadRecord>)
    ensures multiset(PlayersOf(batch)) + multiset(OthersOf(batch)) + multiset(ConsentsOf(batch)) == multiset(batch)
  {
    if batch != [] {
      var r, rest := batch[0], batch[1..];
      EveryRecordOnce(rest);
      FirstRecord(batch);
      Regrouped(OneIf(r, r.payload.PlayerLoad?), OneIf(r, Insertable(r.payload)), OneIf(r, r.payload.ConsentLoad?),
                multiset(PlayersOf(rest)), multiset(OthersOf(rest)), multiset(ConsentsOf(rest)));
      OneKindEach(r);
      hide PlayersOf, OthersOf, ConsentsOf, OneIf, Insertable;
      assert batch == [r] + rest && multiset([r] + rest) == multiset{r} + multiset(rest);
    }
  }

  /** The merges a load logs are those of its own candidates, each row once. */
  lemma {:induction false} MergedIdsMeaning(cs: seq<PlayerRecord>, merged: map<Id, nat>)
    ensures forall id :: id in MergedIds(cs, merged) <==> exists c :: c in cs && MergedTo(c, merged, id)
    ensures forall i, j :: 0 <= i < j < |MergedIds(cs, merged)| ==> MergedIds(cs, merged)[i] != MergedIds(cs, merged)[j]
  {
    if cs != [] {
      var front, last := cs[..|cs| - 1], cs[|cs| - 1];
      MergedIdsMeaning(front, merged);
      assert cs == front + [last];
      forall id ensures id in MergedIds(cs, merged) <==> exists c :: c in cs && MergedTo(c, merged, id) {
        if c :| c in front && MergedTo(c, merged, id) {
          assert c in cs;
        }
        assert MergedTo(last, merged, id) ==> last in cs && id in MergedIds(cs, merged);
      }
    }
  }

  predicate MergedTo(c: PlayerRecord, merged: map<Id, nat>, id: nat) {
    c.identity in merged && merged[c.identity] == id
  }

  // ------------------------------------------------------------------
  // Consents and schools
  // ------------------------------------------------------------------

  lemma {:induction false} NamesInRange(players: seq<Player>, key: string, id: nat)
    requires Named(PlayerNames(players), key, id)
    ensures id < |players|
  {
    hide Slug;
    var n := |players| - 1;
    if players != [] && id != n {
      var names, mine, all := PlayerNames(players[..n]), NamesOf(players[n], n), PlayerNames(players);
      var i :| 0 <= i < |all| && Slug(Some(all[i].0)) == key && all[i].1 == id;
      assert all == names + mine && forall k :: 0 <= k < |mine| ==> mine[k].1 == n;
      assert i < |names| && names[i] == all[i];
      NamesInRange(players[..n], key, id);
    }
  }

  /** A consent record appends one grant, of the one player who answers to its name and
      in its own words, with its log entry, or it is set aside with the reason. */
  lemma ConsentRecordMeaning(run: Run, r: LoadRecord, env: Env)
    requires r.payload.ConsentLoad? && EnvFor(env, run.db)
    ensures var after, db, p := ConsentGiven(run, r, env), run.db, r.payload;
            var names := PlayerNames(db.players);
            if IsPresent(p.player_name) && Resolves(names, p.player_name) && IsPresent(p.consentType)
               && env.location in db.known then
              exists player ::
                && OnlyNamed(names, p.player_name, player)
                && after.db == db.(consents := db.consents + [Grant(player, p.consentType.value, p.granted)],
                                   log := db.log + [LogEntry(UnknownEntity("consents"), |db.consents|, Insert,
                                                             env.location, env.user, None, None, false)])
                && after.result == run.result.(appended := run.result.appended + [r.id])
            else
              && ConsentRefusal(db, r, env).Some? && after.db == db
              && after.result == run.result.(unappended := run.result.unappended
                                                           + [(r.id, ConsentRefusal(db, r, env).value)])
  {
    var names := PlayerNames(run.db.players);
    LookupMeaning(names, r.payload.player_name);
    var target := Lookup<nat>(env.players, r.payload.player_name);
    if target.Some? && target.value.Unique? {
      LookupNames(names, r.payload.player_name);
      NamesInRange(run.db.players, Slug(r.payload.player_name), target.value.id);
    }
    hide Slug, Lookup, IsPresent, Named, IndexOf, PlayerNames, Resolves, ManyNamed;
  }

  /** A player's school is filled in where it was null, by the one school that answers to
      the name, and the update is logged; a name that no school or several answer to is
      flagged; a record without one, or whose player was not resolved, does nothing. */
  lemma SchoolRecordMeaning(run: Run, r: LoadRecord, env: Env)
    requires r.payload.PlayerLoad? && env.schools == IndexOf(run.db.schools)
    requires r.id in env.resolved ==> env.resolved[r.id] < |run.db.players|
    ensures var after, db, name := SchoolGiven(run, r, env), run.db, r.payload.school;
            if !IsPresent(name) || r.id !in env.resolved then after == run
            else if !Resolves(db.schools, name) then
              after == run.(result := run.result.(flagged := run.result.flagged + [(r.id, "UNRESOLVED_SCHOOL")]))
            else
              var id := env.resolved[r.id];
              exists school ::
                && OnlyNamed(db.schools, name, school) && after.result == run.result
                && after.db == db.(players := db.players[id := db.players[id].(school :=
                                     if db.players[id].school.Some? then db.players[id].school else Some(school))],
                                   log := db.log + [LogEntry(UnknownEntity("players"), id, Update, env.location,
                                                             env.user, None, None, false)])
  {
    LookupMeaning(run.db.schools, r.payload.school);
    var target := Lookup(env.schools, r.payload.school);
    if target.Some? && target.value.Unique? {
      LookupNames(run.db.schools, r.payload.school);
    }
    hide Slug, Lookup, IsPresent, OnlyNamed, IndexOf, Resolves, ManyNamed;
  }
}
