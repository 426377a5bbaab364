/** Loading a batch of clean records: players are resolved first, every other
    record is inserted under a natural key or skipped, and doubt is flagged. */
module Loader {
  import opened Basics
  import opened Schema
  import opened Dedup
  import opened Resolution
  import Mapping

  // ------------------------------------------------------------------
  // Name indexes
  // ------------------------------------------------------------------

  datatype Target<T> = Unique(id: T) | Shared

  type Index<T> = map<string, Target<T>>

  /** `_NameIndex.add`. */
  function Added<T(==)>(index: Index<T>, name: string, id: T): Index<T> {
    var key := Slug(Some(name));
    if key == "" then index
    else if key !in index then index[key := Unique(id)]
    else if index[key] == Unique(id) then index
    else index[key := Shared]
  }

  function IndexOf<T(==)>(names: seq<(string, T)>): Index<T> {
    if names == [] then map[]
    else
      var last := names[|names| - 1];
      Added(IndexOf(names[..|names| - 1]), last.0, last.1)
  }

  function Lookup<T>(index: Index<T>, name: Option<string>): Option<Target<T>> {
    var key := Slug(name);
    if key == "" || key !in index then None else Some(index[key])
  }

  class NameIndex<T(==)> {
    var byName: Index<T>

    constructor ()
      ensures byName == map[]
    {
      byName := map[];
    }

    method Add(name: string, id: T)
      modifies this
      ensures byName == Added(old(byName), name, id)
    {
      var key := Slug(Some(name));
      if key == "" {
        return;
      }
      if key !in byName {
        byName := byName[key := Unique(id)];
      } else if byName[key] == Shared || byName[key] == Unique(id) {
        byName := byName[key := if byName[key] == Unique(id) then byName[key] else Shared];
      } else {
        byName := byName[key := Shared];
      }
    }
  }

  ghost predicate Named<T>(names: seq<(string, T)>, key: string, id: T) {
    exists i :: 0 <= i < |names| && Slug(Some(names[i].0)) == key && names[i].1 == id
  }

  /** What the index holds under a key, in terms of everything that was added. */
  ghost predicate Reflects<T(!new)>(index: Index<T>, names: seq<(string, T)>, key: string) {
    && (key !in index <==> forall id :: !Named(names, key, id))
    && (forall id :: key in index && index[key] == Unique(id) ==>
          Named(names, key, id) && forall other :: Named(names, key, other) ==> other == id)
    && (key in index && index[key] == Shared ==>
          exists a, b :: a != b && Named(names, key, a) && Named(names, key, b))
  }

  lemma NamedAppend<T>(names: seq<(string, T)>, key: string, id: T)
    requires names != []
    ensures var last := names[|names| - 1];
            Named(names, key, id) <==>
              Named(names[..|names| - 1], key, id) || (Slug(Some(last.0)) == key && last.1 == id)
  {
    hide Slug;
    var front, last := names[..|names| - 1], names[|names| - 1];
    if Named(front, key, id) {
      var i :| 0 <= i < |front| && Slug(Some(front[i].0)) == key && front[i].1 == id;
      assert names[i] == front[i];
    }
    if Named(names, key, id) {
      var i :| 0 <= i < |names| && Slug(Some(names[i].0)) == key && names[i].1 == id;
      assert i < |front| ==> front[i] == names[i];
    }
  }

  /** A name resolves exactly when one row alone answers to it: the index never
      guesses among several, and never misses the only one. */
  lemma {:induction false} IndexMeaning<T(!new)>(names: seq<(string, T)>, key: string)
    requires key != ""
    ensures Reflects(IndexOf(names), names, key)
  {
    hide Slug;
    if names != [] {
      var front, last := names[..|names| - 1], names[|names| - 1];
      IndexMeaning(front, key);
      forall id
        ensures Named(names, key, id) <==> Named(front, key, id) || (Slug(Some(last.0)) == key && last.1 == id)
      {
        NamedAppend(names, key, id);
      }
      hide Named;
      var index, grown := IndexOf(front), IndexOf(names);
      if Slug(Some(last.0)) != key {
        assert key in grown <==> key in index;
      } else {
        assert Named(names, key, last.1);
        assert key in grown;
        if key in index && index[key].Shared? {
          var a, b :| a != b && Named(front, key, a) && Named(front, key, b);
          assert a != b && Named(names, key, a) && Named(names, key, b);
        } else if key in index && index[key] != Unique(last.1) {
          assert index[key].id != last.1 && Named(names, key, index[key].id);
        }
      }
    }
  }

  /** The names one row answers to: the full name and the bare first name. */
  function NamesOf(p: Player, id: nat): seq<(string, nat)> {
    [(p.first + " " + (if p.last.Some? then p.last.value else ""), id)]
    + (if p.first != "" then [(p.first, id)] else [])
  }

  function PlayerNames(players: seq<Player>): seq<(string, nat)> {
    if players == [] then []
    else
      var n := |players| - 1;
      PlayerNames(players[..n]) + NamesOf(players[n], n)
  }

  lemma {:induction false} IndexAppend<T(!new)>(names: seq<(string, T)>, name: string, id: T)
    ensures IndexOf(names + [(name, id)]) == Added(IndexOf(names), name, id)
  {
    assert (names + [(name, id)])[..|names|] == names;
  }

  lemma IndexAppendRow(names: seq<(string, nat)>, p: Player, id: nat)
    ensures var full := Added(IndexOf(names), NamesOf(p, id)[0].0, id);
            IndexOf(names + NamesOf(p, id)) == if p.first == "" then full else Added(full, p.first, id)
  {
    hide Added;
    var full := NamesOf(p, id)[0].0;
    IndexAppend(names, full, id);
    IndexAppend(names + [(full, id)], p.first, id);
    assert names + [(full, id)] + [(p.first, id)] == names + ([(full, id)] + [(p.first, id)]);
    assert names + [(full, id)] + [] == names + ([(full, id)] + []);
  }

  method BuildPlayersIndex(players: seq<Player>) returns (index: NameIndex<nat>)
    ensures fresh(index) && index.byName == IndexOf(PlayerNames(players))
  {
    hide Slug, Added, IndexOf, NamesOf;
    index := new NameIndex<nat>();
    assert IndexOf(PlayerNames([])) == map[] by { EmptyIndex(); }
    for i := 0 to |players|
      invariant fresh(index) && index.byName == IndexOf(PlayerNames(players[..i]))
    {
      assert players[..i + 1][..i] == players[..i];
      var p := players[i];
      IndexAppendRow(PlayerNames(players[..i]), p, i);
      FullName(p, i);
      index.Add(p.first + " " + (if p.last.Some? then p.last.value else ""), i);
      if p.first != "" {
        index.Add(p.first, i);
      }
    }
    assert players[..|players|] == players;
  }

  lemma EmptyIndex()
    ensures IndexOf(PlayerNames([])) == map[]
  {
  }

  lemma FullName(p: Player, id: nat)
    ensures NamesOf(p, id) != [] && NamesOf(p, id)[0].0 == p.first + " " + (if p.last.Some? then p.last.value else "")
  {
  }

  // ------------------------------------------------------------------
  // Records and rows
  // ------------------------------------------------------------------

  /** The payload of a clean record. An amount carries its text and, when it can
      be parsed, its cents. */
  datatype Payload =
    | PlayerLoad(player: PlayerRecord, school: Option<string>)
    | SessionLoad(player_name: Option<string>, sessionType: Option<string>, startedAt: Option<string>,
                  endedAt: Option<string>, duration: Option<int>, school: Option<string>)
    | PaymentLoad(player_name: Option<string>, product: Option<string>, amount: Option<string>, cents: Option<int>,
                  how: Option<string>, paidAt: Option<string>)
    | LessonLoad(title: Option<string>, topic: Option<string>, phenomenon: Option<string>, content: Option<string>)
    | MetricLoad(player_name: Option<string>, lesson: Option<string>, metricType: Option<string>, value: Option<string>,
                 measuredAt: Option<string>)
    | ConsentLoad(player_name: Option<string>, consentType: Option<string>, granted: bool)

  datatype LoadRecord = LoadRecord(id: Id, source: string, payload: Payload)

  datatype Columns =
    | SessionRow(player: nat, sessionType: string, startedAt: Option<string>, endedAt: Option<string>,
                 duration: Option<int>, school: Option<Id>)
    | PaymentRow(player: nat, product: Option<Id>, cents: int, how: Option<string>, paidAt: Option<string>)
    | LessonRow(title: string, topic: Option<string>, phenomenon: Option<string>, content: Option<string>, file: string)
    | MetricRow(player: nat, lesson: Option<nat>, metricType: Option<string>, value: Option<string>,
                measuredAt: Option<string>)

  /** A row of one of the four insertable tables under its natural key. */
  datatype Row = Row(key: string, columns: Columns)

  datatype Grant = Grant(player: nat, consentType: string, granted: bool)

  datatype Tables = Tables(
    players: seq<Player>,
    rows: seq<Row>,
    consents: seq<Grant>,
    log: seq<LogEntry>,
    schools: seq<(string, Id)>,
    products: seq<(string, Id)>,
    known: set<Id>)
  {
    function Business(): Tables {
      this.(log := [])
    }
  }

  datatype LoadResult = LoadResult(
    loaded: seq<Id>,
    skipped: seq<Id>,
    flagged: seq<(Id, string)>,
    appended: seq<Id>,
    unappended: seq<(Id, string)>)

  const NOTHING := LoadResult([], [], [], [], [])

  datatype Run = Run(db: Tables, result: LoadResult)

  /** What is fixed once the players are resolved. */
  datatype Env = Env(location: Id, user: Id, resolved: map<Id, nat>, players: Index<nat>, schools: Index<Id>,
                     products: Index<Id>)

  function BlankToNone(value: Option<string>): Option<string> {
    if IsPresent(value) then value else None
  }

  function TrimLeft(s: string, blank: char -> bool): string {
    if s != [] && blank(s[0]) then TrimLeft(s[1..], blank) else s
  }

  function TrimRight(s: string, blank: char -> bool): string {
    if s != [] && blank(s[|s| - 1]) then TrimRight(s[..|s| - 1], blank) else s
  }

  function LowerAll(s: string): string {
    if s == [] then [] else [Lower(s[0])] + LowerAll(s[1..])
  }

  function TrimmedLower(s: string, blank: char -> bool): string {
    LowerAll(TrimRight(TrimLeft(s, blank), blank))
  }

  /** `strip().lower()`. */
  function Stripped(s: string): string {
    TrimmedLower(s, IsSpace)
  }

  /** `lower(btrim(title))`, which strips blanks and no other whitespace. */
  function TitleKey(s: string): string {
    TrimmedLower(s, (c: char) => c == ' ')
  }

  function TableOf(p: Payload): string {
    match p
    case PlayerLoad(_, _) => "players"
    case SessionLoad(_, _, _, _, _, _) => "sessions"
    case PaymentLoad(_, _, _, _, _, _) => "payments"
    case LessonLoad(_, _, _, _) => "lessons"
    case MetricLoad(_, _, _, _, _) => "student_metrics"
    case ConsentLoad(_, _, _) => "consents"
  }

  predicate Insertable(p: Payload) {
    p.SessionLoad? || p.PaymentLoad? || p.LessonLoad? || p.MetricLoad?
  }

  /** `_NATURAL_KEY_FIELDS`: the payload values, not the resolved columns. */
  function KeyFields(p: Payload): seq<Option<string>> {
    match p
    case SessionLoad(name, sessionType, startedAt, endedAt, _, _) => [name, sessionType, startedAt, endedAt]
    case PaymentLoad(name, product, amount, _, _, paidAt) => [name, product, amount, paidAt]
    case LessonLoad(title, _, _, _) => [title]
    case MetricLoad(name, _, metricType, value, measuredAt) => [name, metricType, measuredAt, value]
    case _ => []
  }

  /** `compute_natural_key`: SHA-256 is taken to be injective. */
  function NaturalKey(r: LoadRecord): string {
    JoinWith("|", [TableOf(r.payload)] + Mapping.NormalizedFields(KeyFields(r.payload)) + [Slug(Some(r.source))])
  }

  const SESSION_TYPES := {"lesson", "kit", "esports", "lounge"}

  const METRIC_TYPES := {"typing_wpm", "typing_accuracy", "homework_done", "quiz_score", "observation"}

  /** A required player: unknown and ambiguous names are flagged, not guessed. */
  function RequiredPlayer(env: Env, name: Option<string>): Outcome<nat> {
    var target := Lookup<nat>(env.players, name);
    if target.None? then Raised("UNRESOLVED_PLAYER")
    else if target.value.Shared? then Raised("AMBIGUOUS_PLAYER")
    else Returned(target.value.id)
  }

  /** A nullable reference: an absent name is null, an unresolvable one flags. */
  function OptionalReference(index: Index<Id>, name: Option<string>, reason: string): Outcome<Option<Id>> {
    if !IsPresent(name) then Returned(None)
    else
      var target := Lookup(index, name);
      if target.Some? && target.value.Unique? then Returned(Some(target.value.id)) else Raised(reason)
  }

  /** `_resolve_lesson_id` never flags. */
  function LessonFor(rows: seq<Row>, title: Option<string>): Option<nat> {
    if !IsPresent(title) then None
    else Find(rows, (r: Row) => r.columns.LessonRow? && TitleKey(r.columns.title) == Stripped(title.value))
  }

  /** `_build_columns`: the reason when a reference or value cannot be resolved. */
  function BuildColumns(rows: seq<Row>, r: LoadRecord, env: Env): Outcome<Columns>
    requires Insertable(r.payload)
  {
    match r.payload
    case SessionLoad(name, sessionType, startedAt, endedAt, duration, school) =>
      var player := RequiredPlayer(env, name);
      var schoolId := OptionalReference(env.schools, school, "UNRESOLVED_SCHOOL");
      if player.Raised? then Raised(player.message)
      else if !IsPresent(sessionType) || Stripped(sessionType.value) !in SESSION_TYPES then Raised("BAD_SESSION_TYPE")
      else if schoolId.Raised? then Raised(schoolId.message)
      else Returned(SessionRow(player.result, Stripped(sessionType.value), BlankToNone(startedAt), BlankToNone(endedAt),
                               duration, schoolId.result))
    case PaymentLoad(name, product, _, cents, how, paidAt) =>
      var player := RequiredPlayer(env, name);
      var productId := OptionalReference(env.products, product, "UNRESOLVED_PRODUCT");
      if player.Raised? then Raised(player.message)
      else if cents.None? then Raised("BAD_AMOUNT")
      else if productId.Raised? then Raised(productId.message)
      else Returned(PaymentRow(player.result, productId.result, cents.value, BlankToNone(how), BlankToNone(paidAt)))
    case LessonLoad(title, topic, phenomenon, content) =>
      Returned(LessonRow(if IsPresent(title) then title.value else r.source, BlankToNone(topic),
                         BlankToNone(phenomenon), BlankToNone(content), r.source))
    case MetricLoad(name, lesson, metricType, value, measuredAt) =>
      var player := RequiredPlayer(env, name);
      if player.Raised? then Raised(player.message)
      else Returned(MetricRow(player.result, LessonFor(rows, lesson), BlankToNone(metricType), value,
                              BlankToNone(measuredAt)))
  }

  /** NOT NULL and CHECK constraints, which are tested before any conflict. */
  predicate WellFormed(c: Columns) {
    c.MetricRow? ==> c.metricType.Some? && c.metricType.value in METRIC_TYPES && c.value.Some?
  }

  function FindRow(rows: seq<Row>, key: string): Option<nat> {
    Find(rows, (r: Row) => r.key == key)
  }

  function AuditOf(table: string, id: nat, action: LogAction, env: Env): LogEntry {
    LogEntry(UnknownEntity(table), id, action, env.location, env.user, None, None, false)
  }

  /** What becomes of one record. */
  datatype Fate = Withheld(reason: string) | Duplicate(id: nat) | Fresh(columns: Columns)

  function FateOf(db: Tables, r: LoadRecord, env: Env): Fate
    requires Insertable(r.payload)
  {
    var columns := BuildColumns(db.rows, r, env);
    var existing := FindRow(db.rows, NaturalKey(r));
    if columns.Raised? then Withheld(columns.message)
    else if !WellFormed(columns.result) then Withheld("INSERT_ERROR")
    else if existing.Some? then Duplicate(existing.value)
    else if env.location !in db.known then Withheld("INSERT_ERROR")
    else Fresh(columns.result)
  }

  /** `_load_one`. */
  function LoadedOne(run: Run, r: LoadRecord, env: Env): Run
    requires Insertable(r.payload)
  {
    var db, result := run.db, run.result;
    match FateOf(db, r, env)
    case Withheld(reason) => Run(db, result.(flagged := result.flagged + [(r.id, reason)]))
    case Duplicate(id) =>
      Run(db.(log := db.log + [AuditOf(TableOf(r.payload), id, Skip, env)]),
          result.(skipped := result.skipped + [r.id]))
    case Fresh(columns) =>
      Run(db.(rows := db.rows + [Row(NaturalKey(r), columns)],
              log := db.log + [AuditOf(TableOf(r.payload), |db.rows|, Insert, env)]),
          result.(loaded := result.loaded + [r.id]))
  }

  ghost predicate AllInsertable(rs: seq<LoadRecord>) {
    forall r :: r in rs ==> Insertable(r.payload)
  }

  ghost function LoadedAll(run: Run, rs: seq<LoadRecord>, env: Env): Run
    requires AllInsertable(rs)
    decreases |rs|
  {
    if rs == [] then run
    else
      assert forall r :: r in rs[..|rs| - 1] ==> r in rs;
      LoadedOne(LoadedAll(run, rs[..|rs| - 1], env), rs[|rs| - 1], env)
  }

  // ------------------------------------------------------------------
  // Schools and consents
  // ------------------------------------------------------------------

  ghost predicate AllPlayers(rs: seq<LoadRecord>) {
    forall r :: r in rs ==> r.payload.PlayerLoad?
  }

  /** One player's school: fill the column if it is null, or flag the name. */
  function SchoolGiven(run: Run, r: LoadRecord, env: Env): Run
    requires r.payload.PlayerLoad?
  {
    var db, result := run.db, run.result;
    if !IsPresent(r.payload.school) || r.id !in env.resolved then run
    else
      var target := Lookup(env.schools, r.payload.school);
      if target.None? || target.value.Shared? then
        Run(db, result.(flagged := result.flagged + [(r.id, "UNRESOLVED_SCHOOL")]))
      else
        var id := env.resolved[r.id];
        Run(db.(players := WithSchoolAt(db.players, id, target.value.id),
                log := db.log + [AuditOf("players", id, Update, env)]), result)
  }

  function WithSchoolAt(players: seq<Player>, id: nat, school: Id): seq<Player> {
    if id < |players| then players[id := players[id].(school := Coalesce(players[id].school, Some(school)))]
    else players
  }

  ghost function SchoolsGiven(run: Run, rs: seq<LoadRecord>, env: Env): Run
    requires AllPlayers(rs)
    decreases |rs|
  {
    if rs == [] then run
    else
      assert forall r :: r in rs[..|rs| - 1] ==> r in rs;
      SchoolGiven(SchoolsGiven(run, rs[..|rs| - 1], env), rs[|rs| - 1], env)
  }

  ghost predicate AllConsents(rs: seq<LoadRecord>) {
    forall r :: r in rs ==> r.payload.ConsentLoad?
  }

  /** Why a consent record is not appended; `None` means that it is. */
  function ConsentRefusal(db: Tables, r: LoadRecord, env: Env): Option<string>
    requires r.payload.ConsentLoad?
  {
    var target := Lookup<nat>(env.players, r.payload.player_name);
    if !IsPresent(r.payload.player_name) then Some("MISSING_PLAYER")
    else if target.None? then Some("UNRESOLVED_PLAYER")
    else if target.value.Shared? then Some("AMBIGUOUS_PLAYER")
    else if !IsPresent(r.payload.consentType) then Some("MISSING_CONSENT_TYPE")
    else if env.location !in db.known || target.value.id >= |db.players| then Some("APPEND_ERROR")
    else None
  }

  /** `append_consent`: one more row of the append-only ledger. */
  function ConsentGiven(run: Run, r: LoadRecord, env: Env): Run
    requires r.payload.ConsentLoad?
  {
    var db, result := run.db, run.result;
    var refusal := ConsentRefusal(db, r, env);
    if refusal.Some? then Run(db, result.(unappended := result.unappended + [(r.id, refusal.value)]))
    else
      var player := Lookup<nat>(env.players, r.payload.player_name).value.id;
      Run(db.(consents := db.consents + [Grant(player, r.payload.consentType.value, r.payload.granted)],
              log := db.log + [AuditOf("consents", |db.consents|, Insert, env)]),
          result.(appended := result.appended + [r.id]))
  }

  ghost function ConsentsGiven(run: Run, rs: seq<LoadRecord>, env: Env): Run
    requires AllConsents(rs)
    decreases |rs|
  {
    if rs == [] then run
    else
      assert forall r :: r in rs[..|rs| - 1] ==> r in rs;
      ConsentGiven(ConsentsGiven(run, rs[..|rs| - 1], env), rs[|rs| - 1], env)
  }

  // ------------------------------------------------------------------
  // The whole load
  // ------------------------------------------------------------------

  function PlayersOf(batch: seq<LoadRecord>): (rs: seq<LoadRecord>)
    ensures AllPlayers(rs) && forall r :: r in rs ==> r in batch
  {
    FilterSeq(batch, (r: LoadRecord) => r.payload.PlayerLoad?)
  }

  function OthersOf(batch: seq<LoadRecord>): (rs: seq<LoadRecord>)
    ensures AllInsertable(rs)
  {
    FilterSeq(batch, (r: LoadRecord) => Insertable(r.payload))
  }

  function ConsentsOf(batch: seq<LoadRecord>): (rs: seq<LoadRecord>)
    ensures AllConsents(rs)
  {
    FilterSeq(batch, (r: LoadRecord) => r.payload.ConsentLoad?)
  }

  /** The player candidates, each under its record id. */
  function Candidates(rs: seq<LoadRecord>): (cs: seq<PlayerRecord>)
    requires AllPlayers(rs)
    ensures |cs| == |rs|
    ensures forall i :: 0 <= i < |rs| ==> cs[i] == rs[i].payload.player.(identity := rs[i].id)
  {
    if rs == [] then []
    else
      assert forall r :: r in rs[..|rs| - 1] ==> r in rs;
      Candidates(rs[..|rs| - 1]) + [rs[|rs| - 1].payload.player.(identity := rs[|rs| - 1].id)]
  }

  /** One entry per row created, then one per row merged into, in batch order. */
  function CreatedEntries(ids: seq<nat>, location: Id, user: Id): seq<LogEntry> {
    if ids == [] then []
    else
      CreatedEntries(ids[..|ids| - 1], location, user)
      + [LogEntry(UnknownEntity("players"), ids[|ids| - 1], Insert, location, user, None, None, false)]
  }

  function MergedIds(cs: seq<PlayerRecord>, merged: map<Id, nat>): seq<nat> {
    if cs == [] then []
    else
      var before, last := MergedIds(cs[..|cs| - 1], merged), cs[|cs| - 1].identity;
      if last in merged && merged[last] !in before then before + [merged[last]] else before
  }

  function MergedEntries(ids: seq<nat>, location: Id, user: Id): seq<LogEntry> {
    if ids == [] then []
    else
      MergedEntries(ids[..|ids| - 1], location, user)
      + [LogEntry(UnknownEntity("players"), ids[|ids| - 1], Update, location, user, None, None, false)]
  }

  function PlayersLogged(db: Tables, players: seq<Player>, cs: seq<PlayerRecord>, r: ResolutionResult, location: Id,
                         user: Id)
    : Tables
  {
    db.(players := players,
        log := db.log + CreatedEntries(r.created, location, user)
               + MergedEntries(MergedIds(cs, r.mergedIntoExisting), location, user))
  }

  function EnvOf(db: Tables, resolved: map<Id, nat>, location: Id, user: Id): Env {
    Env(location, user, resolved, IndexOf(PlayerNames(db.players)), IndexOf(db.schools), IndexOf(db.products))
  }

  /** `load_clean_records`. */
  ghost function Loaded(db: Tables, batch: seq<LoadRecord>, location: Id, user: Id): Outcome<(Run, ResolutionResult)> {
    var cs := Candidates(PlayersOf(batch));
    var resolution := Resolved(db.players, cs, location, db.known);
    if resolution.Raised? then Raised(resolution.message)
    else
      var start := PlayersLogged(db, resolution.result.0, cs, resolution.result.1, location, user);
      var env := EnvOf(start, resolution.result.1.resolved, location, user);
      var schools := SchoolsGiven(Run(start, NOTHING), PlayersOf(batch), env);
      var others := LoadedAll(schools, OthersOf(batch), env);
      Returned((ConsentsGiven(others, ConsentsOf(batch), env), resolution.result.1))
  }

  class Loading {
    var db: Tables
    var result: LoadResult

    ghost function View(): Run
      reads this
    {
      Run(db, result)
    }

    constructor (tables: Tables)
      ensures View() == Run(tables, NOTHING)
    {
      db, result := tables, NOTHING;
    }

    /** One record in its own transaction: insert, or skip on a key conflict. */
    method LoadOne(r: LoadRecord, env: Env)
      requires Insertable(r.payload)
      modifies this
      ensures View() == LoadedOne(old(View()), r, env)
    {
      hide BuildColumns, NaturalKey, WellFormed;
      var columns := BuildColumns(db.rows, r, env);
      if columns.Raised? {
        result := result.(flagged := result.flagged + [(r.id, columns.message)]);
        return;
      }
      var key := NaturalKey(r);
      if !WellFormed(columns.result) {
        result := result.(flagged := result.flagged + [(r.id, "INSERT_ERROR")]);
        return;
      }
      var existing := FindRow(db.rows, key);
      if existing.None? && env.location !in db.known {
        result := result.(flagged := result.flagged + [(r.id, "INSERT_ERROR")]);
        return;
      }
      var id := if existing.Some? then existing.value else |db.rows|;
      if existing.None? {
        db := db.(rows := db.rows + [Row(key, columns.result)]);
      }
      db := db.(log := db.log + [AuditOf(TableOf(r.payload), id, if existing.Some? then Skip else Insert, env)]);
      if existing.Some? {
        result := result.(skipped := result.skipped + [r.id]);
      } else {
        result := result.(loaded := result.loaded + [r.id]);
      }
    }

    method ResolvePlayerSchools(rs: seq<LoadRecord>, env: Env)
      requires AllPlayers(rs)
      modifies this
      ensures View() == SchoolsGiven(old(View()), rs, env)
    {
      hide Slug, IsPresent, Lookup;
      ghost var start := View();
      for i := 0 to |rs|
        invariant AllPlayers(rs[..i]) && View() == SchoolsGiven(start, rs[..i], env)
      {
        assert rs[..i + 1][..i] == rs[..i];
        var r := rs[i];
        if !IsPresent(r.payload.school) || r.id !in env.resolved {
          continue;
        }
        var target := Lookup(env.schools, r.payload.school);
        if target.None? || target.value.Shared? {
          result := result.(flagged := result.flagged + [(r.id, "UNRESOLVED_SCHOOL")]);
        } else {
          var id := env.resolved[r.id];
          db := db.(players := WithSchoolAt(db.players, id, target.value.id),
                    log := db.log + [AuditOf("players", id, Update, env)]);
        }
      }
      assert rs[..|rs|] == rs;
    }

    /** `load_consent_records`. */
    method LoadConsentRecords(rs: seq<LoadRecord>, env: Env)
      requires AllConsents(rs)
      modifies this
      ensures View() == ConsentsGiven(old(View()), rs, env)
    {
      hide Slug, Lookup;
      ghost var start := View();
      for i := 0 to |rs|
        invariant AllConsents(rs[..i]) && View() == ConsentsGiven(start, rs[..i], env)
      {
        assert rs[..i + 1][..i] == rs[..i];
        var r := rs[i];
        var refusal := ConsentRefusal(db, r, env);
        if refusal.Some? {
          result := result.(unappended := result.unappended + [(r.id, refusal.value)]);
        } else {
          var player := Lookup<nat>(env.players, r.payload.player_name).value.id;
          db := db.(consents := db.consents + [Grant(player, r.payload.consentType.value, r.payload.granted)],
                    log := db.log + [AuditOf("consents", |db.consents|, Insert, env)]);
          result := result.(appended := result.appended + [r.id]);
        }
      }
      assert rs[..|rs|] == rs;
    }

    /** Resolve the batch's players and audit what that wrote, in one transaction. */
    method ResolveAndAudit(cs: seq<PlayerRecord>, location: Id, user: Id) returns (r: Outcome<ResolutionResult>)
      modifies this
      ensures var spec := Resolved(old(db).players, cs, location, old(db).known);
              && (r.Raised? <==> spec.Raised?) && (r.Raised? ==> r.message == spec.message && db == old(db))
              && (r.Returned? ==> r.result == spec.result.1
                                  && db == PlayersLogged(old(db), spec.result.0, cs, spec.result.1, location, user))
      ensures result == old(result)
    {
      hide Resolved, MergedIds;
      var conn := new Connection(Db(db.players, [], [], [], [], map[], db.known));
      var resolution := ResolvePlayers(conn, cs, location);
      if resolution.Raised? {
        return Raised(resolution.message);
      }
      var log := db.log;
      var created := resolution.result.created;
      for i := 0 to |created|
        invariant log == db.log + CreatedEntries(created[..i], location, user)
      {
        assert created[..i + 1][..i] == created[..i];
        log := log + [LogEntry(UnknownEntity("players"), created[i], Insert, location, user, None, None, false)];
      }
      assert created[..|created|] == created;
      var merged := MergedIds(cs, resolution.result.mergedIntoExisting);
      for i := 0 to |merged|
        invariant log == db.log + CreatedEntries(created, location, user) + MergedEntries(merged[..i], location, user)
      {
        assert merged[..i + 1][..i] == merged[..i];
        log := log + [LogEntry(UnknownEntity("players"), merged[i], Update, location, user, None, None, false)];
      }
      assert merged[..|merged|] == merged;
      db := db.(players := conn.work.players, log := log);
      r := resolution;
    }

    method LoadCleanRecords(batch: seq<LoadRecord>, location: Id, user: Id) returns (r: Outcome<ResolutionResult>)
      requires result == NOTHING
      modifies this
      ensures var spec := Loaded(old(db), batch, location, user);
              && (r.Raised? <==> spec.Raised?)
              && (r.Raised? ==> r.message == spec.message && db == old(db))
              && (r.Returned? ==> (View(), r.result) == spec.result)
    {
      hide Resolved, LoadedOne, SchoolsGiven, ConsentsGiven, PlayersLogged, PlayerNames, IndexOf;
      r := ResolveAndAudit(Candidates(PlayersOf(batch)), location, user);
      if r.Raised? {
        return;
      }
      var index := BuildPlayersIndex(db.players);
      var env := Env(location, user, r.result.resolved, index.byName, IndexOf(db.schools), IndexOf(db.products));
      ResolvePlayerSchools(PlayersOf(batch), env);
      var others := OthersOf(batch);
      ghost var start := View();
      for i := 0 to |others|
        invariant AllInsertable(others[..i]) && View() == LoadedAll(start, others[..i], env)
      {
        assert others[..i + 1][..i] == others[..i];
        LoadOne(others[i], env);
      }
      assert others[..|others|] == others;
      LoadConsentRecords(ConsentsOf(batch), env);
    }
  }

  // ------------------------------------------------------------------
  // Loading again: schools
  // ------------------------------------------------------------------

  /** The same rows, but for schools that have been filled in. */
  ghost predicate SameButSchools(p: seq<Player>, q: seq<Player>) {
    && |p| == |q|
    && forall i :: 0 <= i < |p| ==>
         q[i] == p[i].(school := q[i].school) && (p[i].school.Some? ==> q[i].school == p[i].school)
  }

  predicate Schooled(players: seq<Player>, r: LoadRecord, env: Env) {
    r.payload.PlayerLoad? && IsPresent(r.payload.school) && r.id in env.resolved && env.resolved[r.id] < |players|
    && Lookup(env.schools, r.payload.school).Some? && Lookup(env.schools, r.payload.school).value.Unique? ==>
      players[env.resolved[r.id]].school.Some?
  }

  function SchoolFlags(rs: seq<LoadRecord>, env: Env): seq<(Id, string)> {
    if rs == [] then []
    else
      var r := rs[|rs| - 1];
      SchoolFlags(rs[..|rs| - 1], env)
      + if !r.payload.PlayerLoad? || !IsPresent(r.payload.school) || r.id !in env.resolved then []
        else
          var target := Lookup(env.schools, r.payload.school);
          if target.None? || target.value.Shared? then [(r.id, "UNRESOLVED_SCHOOL")] else []
  }

  lemma {:induction false} SchoolsMeaning(run: Run, rs: seq<LoadRecord>, env: Env)
    requires AllPlayers(rs)
    ensures var after := SchoolsGiven(run, rs, env);
            && SameButSchools(run.db.players, after.db.players)
            && after.db == run.db.(players := after.db.players, log := after.db.log)
            && after.result == run.result.(flagged := run.result.flagged + SchoolFlags(rs, env))
            && forall r :: r in rs ==> Schooled(after.db.players, r, env)
    decreases |rs|
  {
    hide Slug, IsPresent, Lookup;
    if rs != [] {
      var front, last := rs[..|rs| - 1], rs[|rs| - 1];
      assert forall r :: r in front ==> r in rs;
      SchoolsMeaning(run, front, env);
      SchoolStep(SchoolsGiven(run, front, env), last, env, front);
      assert last in rs;
    }
  }

  lemma SchoolStep(run: Run, r: LoadRecord, env: Env, before: seq<LoadRecord>)
    requires r.payload.PlayerLoad? && forall x :: x in before ==> Schooled(run.db.players, x, env)
    ensures var after := SchoolGiven(run, r, env);
            && SameButSchools(run.db.players, after.db.players)
            && after.db == run.db.(players := after.db.players, log := after.db.log)
            && Schooled(after.db.players, r, env)
            && forall x :: x in before ==> Schooled(after.db.players, x, env)
  {
    hide Slug, IsPresent, Lookup;
  }

  /** Once every school that can be filled in is filled in, giving them again
      changes no row. */
  lemma {:induction false} SchoolsAgain(run: Run, rs: seq<LoadRecord>, env: Env)
    requires AllPlayers(rs) && forall r :: r in rs ==> Schooled(run.db.players, r, env)
    ensures SchoolsGiven(run, rs, env).db.players == run.db.players
    decreases |rs|
  {
    hide Slug, IsPresent, Lookup;
    if rs != [] {
      var front, last := rs[..|rs| - 1], rs[|rs| - 1];
      assert forall r :: r in front ==> r in rs;
      SchoolsAgain(run, front, env);
      assert last in rs && Schooled(run.db.players, last, env);
    }
  }

  lemma {:induction false} SameNames(p: seq<Player>, q: seq<Player>)
    requires SameButSchools(p, q)
    ensures PlayerNames(p) == PlayerNames(q)
  {
    if p != [] {
      SameNames(p[..|p| - 1], q[..|q| - 1]);
    }
  }

  // ------------------------------------------------------------------
  // Loading again: the other records
  // ------------------------------------------------------------------

  /** The two environments resolve every name alike. */
  predicate Alike(env: Env, again: Env) {
    && env.location == again.location
    && env.players == again.players && env.schools == again.schools && env.products == again.products
  }

  lemma {:induction false} RowsGrow(run: Run, rs: seq<LoadRecord>, env: Env)
    requires AllInsertable(rs)
    ensures var after := LoadedAll(run, rs, env);
            && run.db.rows <= after.db.rows
            && after.db == run.db.(rows := after.db.rows, log := after.db.log)
            && (env.location !in run.db.known ==> after.db.rows == run.db.rows)
    decreases |rs|
  {
    hide BuildColumns, NaturalKey, WellFormed;
    if rs != [] {
      assert forall r :: r in rs[..|rs| - 1] ==> r in rs;
      RowsGrow(run, rs[..|rs| - 1], env);
    }
  }

  ghost predicate UniqueRowKeys(rows: seq<Row>) {
    forall i, j :: 0 <= i < j < |rows| ==> rows[i].key != rows[j].key
  }

  /** Each natural key has at most one row, whatever is loaded. */
  lemma {:induction false} LoadKeepsKeysUnique(run: Run, rs: seq<LoadRecord>, env: Env)
    requires AllInsertable(rs) && UniqueRowKeys(run.db.rows)
    ensures UniqueRowKeys(LoadedAll(run, rs, env).db.rows)
    decreases |rs|
  {
    hide BuildColumns, NaturalKey, WellFormed;
    if rs != [] {
      assert forall r :: r in rs[..|rs| - 1] ==> r in rs;
      LoadKeepsKeysUnique(run, rs[..|rs| - 1], env);
    }
  }

  lemma KeyStays(rows: seq<Row>, later: seq<Row>, key: string)
    requires rows <= later && FindRow(rows, key).Some?
    ensures FindRow(later, key).Some?
  {
    var i := FindRow(rows, key).value;
    assert later[i] == rows[i];
  }

  /** The environment's indexes are those of the tables. */
  ghost predicate EnvFor(env: Env, db: Tables) {
    && env.players == IndexOf(PlayerNames(db.players))
    && env.schools == IndexOf(db.schools) && env.products == IndexOf(db.products)
  }

  /** `id` is the one row that answers to the name. */
  ghost predicate OnlyNamed<T(!new)>(names: seq<(string, T)>, name: Option<string>, id: T) {
    Named(names, Slug(name), id) && forall other :: Named(names, Slug(name), other) ==> other == id
  }

  /** A nullable reference is null exactly when no name was given, and otherwise
      the one row that answers to it. */
  ghost predicate Referenced(names: seq<(string, Id)>, name: Option<string>, reference: Option<Id>) {
    if IsPresent(name) then reference.Some? && OnlyNamed(names, name, reference.value) else reference.None?
  }

  lemma LookupNames<T(!new)>(names: seq<(string, T)>, name: Option<string>)
    requires Lookup<T>(IndexOf(names), name).Some? && Lookup<T>(IndexOf(names), name).value.Unique?
    ensures OnlyNamed(names, name, Lookup<T>(IndexOf(names), name).value.id)
  {
    IndexMeaning(names, Slug(name));
    hide Slug, Named;
  }

  /** No reference is ever guessed: the player, school and product of an inserted
      row are each the only row that answers to the name in the record. */
  lemma NeverGuesses(db: Tables, r: LoadRecord, env: Env)
    requires Insertable(r.payload) && EnvFor(env, db) && FateOf(db, r, env).Fresh?
    ensures match FateOf(db, r, env).columns
            case SessionRow(player, _, _, _, _, school) =>
              && r.payload.SessionLoad? && OnlyNamed(PlayerNames(db.players), r.payload.player_name, player)
              && Referenced(db.schools, r.payload.school, school)
            case PaymentRow(player, product, cents, _, _) =>
              && r.payload.PaymentLoad? && OnlyNamed(PlayerNames(db.players), r.payload.player_name, player)
              && Referenced(db.products, r.payload.product, product) && r.payload.cents == Some(cents)
            case LessonRow(_, _, _, _, file) => r.payload.LessonLoad? && file == r.source
            case MetricRow(player, lesson, _, _, _) =>
              && r.payload.MetricLoad? && OnlyNamed(PlayerNames(db.players), r.payload.player_name, player)
              && (lesson.Some? ==> lesson.value < |db.rows| && db.rows[lesson.value].columns.LessonRow?)
  {
    hide Slug, Lookup, IsPresent, Stripped, OnlyNamed, IndexOf, PlayerNames, NaturalKey;
    match r.payload {
      case SessionLoad(name, _, _, _, _, school) =>
        LookupNames(PlayerNames(db.players), name);
        if IsPresent(school) {
          LookupNames(db.schools, school);
        }
      case PaymentLoad(name, product, _, _, _, _) =>
        LookupNames(PlayerNames(db.players), name);
        if IsPresent(product) {
          LookupNames(db.products, product);
        }
      case MetricLoad(name, _, _, _, _) =>
        LookupNames(PlayerNames(db.players), name);
      case LessonLoad(_, _, _, _) =>
    }
  }

  /** Whether a record is flagged while its columns are built depends on the names
      alone: the only thing looked up in the tables is a lesson, which may be
      missing. */
  lemma BuildAlike(rows: seq<Row>, later: seq<Row>, r: LoadRecord, env: Env, again: Env)
    requires Insertable(r.payload) && Alike(env, again)
    ensures var a, b := BuildColumns(rows, r, env), BuildColumns(later, r, again);
            && (a.Raised? <==> b.Raised?)
            && (a.Raised? ==> a.message == b.message)
            && (a.Returned? ==> (WellFormed(a.result) <==> WellFormed(b.result)))
  {
    hide Slug, IsPresent, Lookup, LessonFor, Stripped;
  }

  /** The second time, a flagged record is flagged alike and any other is a
      duplicate. */
  lemma FateAgain(db: Tables, later: Tables, r: LoadRecord, env: Env, again: Env)
    requires Insertable(r.payload) && Alike(env, again) && db.known == later.known
    requires db.rows <= later.rows && (env.location !in db.known ==> later.rows == db.rows)
    requires FateOf(db, r, env).Fresh? ==> FindRow(later.rows, NaturalKey(r)).Some?
    ensures var was, now := FateOf(db, r, env), FateOf(later, r, again);
            if was.Withheld? then now == was else now.Duplicate?
  {
    BuildAlike(db.rows, later.rows, r, env, again);
    hide BuildColumns, NaturalKey, WellFormed, FindRow;
    if FindRow(db.rows, NaturalKey(r)).Some? {
      KeyStays(db.rows, later.rows, NaturalKey(r));
    }
  }

  /** Everything the first load loaded or skipped the second skips; the flags agree
      from `f` and `g` on. */
  ghost predicate Echoes(first: LoadResult, f: nat, second: LoadResult, g: nat) {
    && second.loaded == []
    && f <= |first.flagged| && g <= |second.flagged| && first.flagged[f..] == second.flagged[g..]
    && multiset(second.skipped) == multiset(first.loaded) + multiset(first.skipped)
    && first.appended == second.appended == [] && first.unappended == second.unappended == []
  }

  lemma {:induction false} OthersAgain(run: Run, f: nat, second: Run, g: nat, rs: seq<LoadRecord>, env: Env, again: Env)
    requires AllInsertable(rs) && Alike(env, again) && run.db.known == second.db.known
    requires LoadedAll(run, rs, env).db.rows <= second.db.rows
    requires env.location !in run.db.known ==> second.db.rows == run.db.rows
    requires Echoes(run.result, f, second.result, g)
    ensures LoadedAll(second, rs, again).db.rows == second.db.rows
    ensures Echoes(LoadedAll(run, rs, env).result, f, LoadedAll(second, rs, again).result, g)
    decreases |rs|
  {
    hide FateOf, Echoes;
    if rs != [] {
      var front, r := rs[..|rs| - 1], rs[|rs| - 1];
      assert forall x :: x in front ==> x in rs;
      var before := LoadedAll(run, front, env);
      LastRow(before, r, env);
      OthersAgain(run, f, second, g, front, env, again);
      RowsGrow(run, front, env);
      RowsGrow(second, front, again);
      FreshIsThere(before, r, env, second.db.rows);
      FateAgain(before.db, LoadedAll(second, front, again).db, r, env, again);
      RepeatsOne(before, f, LoadedAll(second, front, again), g, r, env, again);
    }
  }

  lemma LastRow(run: Run, r: LoadRecord, env: Env)
    requires Insertable(r.payload)
    ensures run.db.rows <= LoadedOne(run, r, env).db.rows
  {
    hide FateOf, NaturalKey;
  }

  lemma FreshIsThere(run: Run, r: LoadRecord, env: Env, later: seq<Row>)
    requires Insertable(r.payload) && LoadedOne(run, r, env).db.rows <= later
    ensures FateOf(run.db, r, env).Fresh? ==> FindRow(later, NaturalKey(r)).Some?
  {
    hide FateOf, NaturalKey;
    if FateOf(run.db, r, env).Fresh? {
      assert later[|run.db.rows|].key == NaturalKey(r);
    }
  }

  lemma RepeatsOne(run: Run, f: nat, second: Run, g: nat, r: LoadRecord, env: Env, again: Env)
    requires Insertable(r.payload) && Echoes(run.result, f, second.result, g)
    requires var was, now := FateOf(run.db, r, env), FateOf(second.db, r, again);
             if was.Withheld? then now == was else now.Duplicate?
    ensures LoadedOne(second, r, again).db.rows == second.db.rows
    ensures Echoes(LoadedOne(run, r, env).result, f, LoadedOne(second, r, again).result, g)
  {
    hide FateOf, NaturalKey;
  }

  // ------------------------------------------------------------------
  // Loading again: consents
  // ------------------------------------------------------------------

  /** The consents of the batch that are appended, whatever the ledger holds. */
  ghost function Grants(rs: seq<LoadRecord>, db: Tables, env: Env): seq<Grant>
    requires AllConsents(rs)
    decreases |rs|
  {
    if rs == [] then []
    else
      var front, r := rs[..|rs| - 1], rs[|rs| - 1];
      assert forall x :: x in front ==> x in rs;
      Grants(front, db, env)
      + if ConsentRefusal(db, r, env).Some? then []
        else [Grant(Lookup<nat>(env.players, r.payload.player_name).value.id, r.payload.consentType.value,
                    r.payload.granted)]
  }

  lemma {:induction false} ConsentsMeaning(run: Run, rs: seq<LoadRecord>, env: Env)
    requires AllConsents(rs)
    ensures var after, grants := ConsentsGiven(run, rs, env), Grants(rs, run.db, env);
            && after.db == run.db.(consents := run.db.consents + grants, log := after.db.log)
            && after.result == run.result.(appended := after.result.appended, unappended := after.result.unappended)
            && |after.result.appended| == |run.result.appended| + |grants|
    decreases |rs|
  {
    hide Slug, Lookup, IsPresent;
    if rs != [] {
      assert forall x :: x in rs[..|rs| - 1] ==> x in rs;
      ConsentsMeaning(run, rs[..|rs| - 1], env);
    }
  }

  /** Every consent of the batch is refused, for one reason or another. */
  ghost predicate ConsentsRefused(db: Tables, rs: seq<LoadRecord>, env: Env) {
    forall r :: r in rs && r.payload.ConsentLoad? ==> ConsentRefusal(db, r, env).Some?
  }

  lemma {:induction false} NoGrantsIff(rs: seq<LoadRecord>, db: Tables, env: Env)
    requires AllConsents(rs)
    ensures Grants(rs, db, env) == [] <==> ConsentsRefused(db, rs, env)
    decreases |rs|
  {
    hide Slug, Lookup, IsPresent, ConsentRefusal;
    if rs != [] {
      var front, r := rs[..|rs| - 1], rs[|rs| - 1];
      assert forall x :: x in front ==> x in rs;
      assert rs == front + [r];
      NoGrantsIff(front, db, env);
    }
  }

  lemma {:induction false} GrantsAlike(rs: seq<LoadRecord>, db: Tables, later: Tables, env: Env, again: Env)
    requires AllConsents(rs) && Alike(env, again) && |db.players| == |later.players| && db.known == later.known
    ensures Grants(rs, db, env) == Grants(rs, later, again)
    decreases |rs|
  {
    hide Slug, Lookup, IsPresent;
    if rs != [] {
      assert forall x :: x in rs[..|rs| - 1] ==> x in rs;
      GrantsAlike(rs[..|rs| - 1], db, later, env, again);
    }
  }

  // ------------------------------------------------------------------
  // Loading again
  // ------------------------------------------------------------------

  /** Loading the same batch a second time, whatever names are in it: nothing is
      loaded, what was loaded or skipped before is skipped, and no row of the players
      table or of the record tables is added or changed; the batch's consents are
      appended once more. With no record id given to two names, the second load
      resolves and flags as the first did exactly when every player it resolved is
      alone under its name in the table, which is a look at the stored keys. */
  lemma LoadAgain(db: Tables, batch: seq<LoadRecord>, location: Id, user: Id)
    requires Loaded(db, batch, location, user).Returned?
    ensures var (first, resolution) := Loaded(db, batch, location, user).result;
            var again := Loaded(first.db, batch, location, user);
            var cs := Candidates(PlayersOf(batch));
            && again.Returned?
            && var (second, resolution') := again.result;
               && second.db.rows == first.db.rows && second.result.loaded == [] && resolution'.created == []
               && |second.db.players| == |first.db.players|
               && multiset(second.result.skipped) == multiset(first.result.loaded) + multiset(first.result.skipped)
               && |second.db.consents| == |first.db.consents| + |first.result.appended|
               && (resolution'.flagged == resolution.flagged ==>
                     && resolution'.resolved == resolution.resolved && second.result.flagged == first.result.flagged
                     && second.db.players == first.db.players)
               && (OneNamePerId(cs) ==>
                     && second.db.players == first.db.players
                     && (resolution'.flagged == resolution.flagged <==>
                           AllAlone(first.db.players, cs, resolution.resolved)))
               && (second.db.Business() == first.db.Business() <==>
                     && second.db.players == first.db.players
                     && ConsentsRefused(first.db, batch, EnvOf(first.db, resolution.resolved, location, user)))
  {
    hide Slug, Lookup, Resolved, BuildColumns, PlayerNames, IndexOf, FateOf, SchoolFlags, OneNamePerId, AllAlone;
    hide SchoolsGiven, LoadedAll, ConsentsGiven, ConsentsRefused, Candidates, Schooled, Grants;
    var players, others, consents := PlayersOf(batch), OthersOf(batch), ConsentsOf(batch);
    var cs := Candidates(players);
    var resolution := Resolved(db.players, cs, location, db.known).result;
    var start := PlayersLogged(db, resolution.0, cs, resolution.1, location, user);
    var env := EnvOf(start, resolution.1.resolved, location, user);
    var s1 := SchoolsGiven(Run(start, NOTHING), players, env);
    var o1 := LoadedAll(s1, others, env);
    var first := ConsentsGiven(o1, consents, env);
    SchoolsMeaning(Run(start, NOTHING), players, env);
    RowsGrow(s1, others, env);
    ConsentsMeaning(o1, consents, env);

    ResolvedOnceMore(db, cs, location, first.db.players);
    var resolution' := Resolved(first.db.players, cs, location, db.known).result;
    var start' := PlayersLogged(first.db, resolution'.0, cs, resolution'.1, location, user);
    var env' := EnvOf(start', resolution'.1.resolved, location, user);
    SameNames(start.players, start'.players);
    var s2 := SchoolsGiven(Run(start', NOTHING), players, env');
    SchoolsMeaning(Run(start', NOTHING), players, env');
    if forall k :: k in env'.resolved ==> k in env.resolved && env'.resolved[k] == env.resolved[k] {
      AllSchooled(start'.players, players, env, env');
      SchoolsAgain(Run(start', NOTHING), players, env');
    }
    if env'.resolved == env.resolved {
      FlagsAlike(players, env, env');
    }
    OthersAgain(s1, |s1.result.flagged|, s2, |s2.result.flagged|, others, env, env');
    var o2 := LoadedAll(s2, others, env');
    FlagsOfOthers(s1, others, env);
    FlagsOfOthers(s2, others, env');
    RowsGrow(s2, others, env');
    ConsentsMeaning(o2, consents, env');
    GrantsAlike(consents, o1.db, o2.db, env, env');
    SameNames(start.players, first.db.players);
    GrantsAlike(consents, o1.db, first.db, env, EnvOf(first.db, resolution.1.resolved, location, user));
    NoGrantsIff(consents, first.db, EnvOf(first.db, resolution.1.resolved, location, user));
    SameConsents(first.db, batch, EnvOf(first.db, resolution.1.resolved, location, user));
  }

  lemma SameConsents(db: Tables, batch: seq<LoadRecord>, env: Env)
    ensures ConsentsRefused(db, ConsentsOf(batch), env) <==> ConsentsRefused(db, batch, env)
  {
    hide ConsentRefusal;
  }

  lemma {:induction false} FlagsOfOthers(run: Run, rs: seq<LoadRecord>, env: Env)
    requires AllInsertable(rs)
    ensures run.result.flagged <= LoadedAll(run, rs, env).result.flagged
    decreases |rs|
  {
    hide FateOf, NaturalKey;
    if rs != [] {
      assert forall r :: r in rs[..|rs| - 1] ==> r in rs;
      FlagsOfOthers(run, rs[..|rs| - 1], env);
    }
  }

  /** A batch of plain names is simply loaded once: the second load flags the same
      records for the same reasons, resolves them alike, and leaves every table as
      it was exactly when every consent of the batch is refused. */
  lemma LoadPlainAgain(db: Tables, batch: seq<LoadRecord>, location: Id, user: Id)
    requires PlainRecords(Candidates(PlayersOf(batch)))
    requires Loaded(db, batch, location, user).Returned?
    ensures var (first, resolution) := Loaded(db, batch, location, user).result;
            var again := Loaded(first.db, batch, location, user);
            && again.Returned?
            && var (second, resolution') := again.result;
               && second.db.players == first.db.players && second.result.flagged == first.result.flagged
               && resolution'.resolved == resolution.resolved && resolution'.flagged == resolution.flagged
               && (second.db.Business() == first.db.Business() <==>
                     ConsentsRefused(first.db, batch, EnvOf(first.db, resolution.resolved, location, user)))
  {
    hide Slug, Resolved, PlainRecords, ConsentsRefused, LoadedAll, ConsentsGiven, SchoolsGiven, AllAlone, OneNamePerId;
    LoadAgain(db, batch, location, user);
    var cs := Candidates(PlayersOf(batch));
    var first := Loaded(db, batch, location, user).result.0;
    LoadedPlayers(db, batch, location, user);
    PlainOnceMore(db, cs, location, first.db.players);
  }

  /** A load leaves the players as they were resolved, but for schools filled in. */
  lemma LoadedPlayers(db: Tables, batch: seq<LoadRecord>, location: Id, user: Id)
    requires Loaded(db, batch, location, user).Returned?
    ensures var cs, first := Candidates(PlayersOf(batch)), Loaded(db, batch, location, user).result.0;
            && Resolved(db.players, cs, location, db.known).Returned? && first.db.known == db.known
            && SameButSchools(Resolved(db.players, cs, location, db.known).result.0, first.db.players)
            && Loaded(db, batch, location, user).result.1 == Resolved(db.players, cs, location, db.known).result.1
  {
    hide Slug, Lookup, Resolved, BuildColumns, PlayerNames, IndexOf, FateOf, SchoolFlags, SameButSchools;
    var players, others, consents := PlayersOf(batch), OthersOf(batch), ConsentsOf(batch);
    var cs := Candidates(players);
    var resolution := Resolved(db.players, cs, location, db.known).result;
    var start := PlayersLogged(db, resolution.0, cs, resolution.1, location, user);
    var env := EnvOf(start, resolution.1.resolved, location, user);
    var s1 := SchoolsGiven(Run(start, NOTHING), players, env);
    SchoolsMeaning(Run(start, NOTHING), players, env);
    RowsGrow(s1, others, env);
    ConsentsMeaning(LoadedAll(s1, others, env), consents, env);
  }

  /** One player who has only a first name, and one consent in that name. */
  const ONE_NAMED := Tables([Player("ann||", "Ann", None, None, None, false, None, "here")], [], [], [], [], [],
                            {"here"})
  const ONE_CONSENT := LoadRecord("c", "consents.csv", ConsentLoad(Some("Ann"), Some("photo"), true))

  lemma OneNamedIsFound(resolved: map<Id, nat>, user: Id)
    ensures ConsentRefusal(ONE_NAMED, ONE_CONSENT, EnvOf(ONE_NAMED, resolved, "here", user)).None?
  {
    hide Slug;
    var names, key := PlayerNames(ONE_NAMED.players), Slug(Some("Ann"));
    assert "Ann"[0] == 'A' && "photo"[0] == 'p';
    SlugEmptyIffBlank(Some("Ann"));
    assert ONE_NAMED.players[..0] == [];
    assert names == [("Ann" + " " + "", 0), ("Ann", 0)];
    IndexMeaning(names, key);
    assert names[1] == ("Ann", 0);
    assert Named(names, key, 0);
  }

  lemma NobodyResolved(players: seq<Player>, location: Id, known: set<Id>)
    ensures Resolved(players, [], location, known) == Returned((players, ResolutionResult(map[], [], map[], [])))
    ensures PlainRecords([])
  {
    assert NameGroups([]) == [];
  }

  /** A batch of that consent alone appends it to whatever ledger there is. */
  lemma OneGiven(run: Run, env: Env)
    requires AllPlayers([]) && AllInsertable([]) && AllConsents([ONE_CONSENT])
    requires ConsentRefusal(run.db, ONE_CONSENT, env).None?
    ensures ConsentsGiven(LoadedAll(SchoolsGiven(run, [], env), [], env), [ONE_CONSENT], env) ==
            ConsentGiven(run, ONE_CONSENT, env)
    ensures ConsentGiven(run, ONE_CONSENT, env).result.appended == run.result.appended + ["c"]
    ensures |ConsentGiven(run, ONE_CONSENT, env).db.consents| == |run.db.consents| + 1
  {
    hide ConsentRefusal, Lookup;
    assert [ONE_CONSENT][..0] == [];
  }

  lemma OneKind()
    ensures PlayersOf([ONE_CONSENT]) == [] && OthersOf([ONE_CONSENT]) == []
    ensures ConsentsOf([ONE_CONSENT]) == [ONE_CONSENT]
    ensures Candidates(PlayersOf([ONE_CONSENT])) == []
  {
    assert [ONE_CONSENT][1..] == [];
  }

  /** Loading that batch twice records the consent twice. */
  lemma ConsentLoadedTwice(user: Id)
    ensures Loaded(ONE_NAMED, [ONE_CONSENT], "here", user).Returned?
    ensures var first := Loaded(ONE_NAMED, [ONE_CONSENT], "here", user).result.0;
            && |first.db.consents| == 1
            && Loaded(first.db, [ONE_CONSENT], "here", user).Returned?
            && var second := Loaded(first.db, [ONE_CONSENT], "here", user).result.0;
               |second.db.consents| == 2 && second.db.Business() != first.db.Business()
  {
    hide Slug, Lookup, IsPresent, ConsentRefusal, PlainRecords, IndexOf, Resolved, ConsentsGiven, LoadedAll,
         SchoolsGiven, ConsentGiven;
    OneKind();
    NobodyResolved(ONE_NAMED.players, "here", ONE_NAMED.known);
    var start := PlayersLogged(ONE_NAMED, ONE_NAMED.players, [], ResolutionResult(map[], [], map[], []), "here", user);
    var env := EnvOf(start, map[], "here", user);
    OneNamedIsFound(map[], user);
    SameRefusal(start, env, user);
    OneGiven(Run(start, NOTHING), env);
    LoadAgain(ONE_NAMED, [ONE_CONSENT], "here", user);
  }

  lemma SameRefusal(start: Tables, env: Env, user: Id)
    requires start == ONE_NAMED.(log := start.log) && env == EnvOf(start, map[], "here", user)
    ensures ConsentRefusal(start, ONE_CONSENT, env) ==
            ConsentRefusal(ONE_NAMED, ONE_CONSENT, EnvOf(ONE_NAMED, map[], "here", user))
  {
    hide Slug, Lookup, IsPresent, IndexOf;
  }

  /** Two people, the second of whom has the separator in the first name. */
  const TWO_PEOPLE := [LoadRecord("p", "players.csv", PlayerLoad(Candidate("p", "a", "b"), None)),
                       LoadRecord("q", "players.csv", PlayerLoad(Candidate("q", "a|b", "c"), None))]
  const EMPTY := Tables([], [], [], [], [], [], {"here"})

  lemma TwoCandidates()
    ensures Candidates(PlayersOf(TWO_PEOPLE)) == [Candidate("p", "a", "b"), Candidate("q", "a|b", "c")]
  {
    var p, q := TWO_PEOPLE[0], TWO_PEOPLE[1];
    assert TWO_PEOPLE[1..] == [q] && [q][1..] == [];
    assert PlayersOf([q]) == [q];
    assert PlayersOf(TWO_PEOPLE) == [p] + [q];
    assert AllPlayers([p]) && AllPlayers([p, q]);
    assert [p, q][..1] == [p] && [p][..0] == [];
    assert Candidates([]) == [] && Candidates([p]) == [Candidate("p", "a", "b")];
    assert Candidates([p, q]) == Candidates([p]) + [Candidate("q", "a|b", "c")];
  }

  lemma SchoolsKeepRivals(p: seq<Player>, q: seq<Player>, r: PlayerRecord)
    requires SameButSchools(p, q) && !AloneUnderName(p, r)
    ensures !AloneUnderName(q, r)
  {
    hide NameOf, KeyOf;
    var k :| k in KeysForName(p, NameOf(r)) && k != KeyOf(r);
    var i :| 0 <= i < |p| && NameOf(r) + "|" <= p[i].dedupKey && p[i].dedupKey == k;
    RivalKey(q, r, i);
  }

  /** Loaded twice into an empty database: the first load flags neither, the second
      flags what it had resolved before. */
  lemma SeparatorLoadedTwice(user: Id)
    ensures Loaded(EMPTY, TWO_PEOPLE, "here", user).Returned?
    ensures var (first, resolution) := Loaded(EMPTY, TWO_PEOPLE, "here", user).result;
            && resolution.flagged == [] && |first.db.players| == 2
            && Loaded(first.db, TWO_PEOPLE, "here", user).Returned?
            && var (second, resolution') := Loaded(first.db, TWO_PEOPLE, "here", user).result;
               resolution'.flagged != [] && second.db.players == first.db.players
  {
    hide Slug, Resolved, LoadedAll, ConsentsGiven, SchoolsGiven, AloneUnderName, OneNamePerId, SameButSchools;
    TwoCandidates();
    SeparatorSplitsBatch();
    LoadedPlayers(EMPTY, TWO_PEOPLE, "here", user);
    var first := Loaded(EMPTY, TWO_PEOPLE, "here", user).result.0;
    var r := Candidate("p", "a", "b");
    var table := Resolved([], [r, Candidate("q", "a|b", "c")], "here", {"here"}).result.0;
    SchoolsKeepRivals(table, first.db.players, r);
    SchoolsExtend(table, first.db.players);
    SameCount(table, first.db.players);
    LoadAgain(EMPTY, TWO_PEOPLE, "here", user);
    assert r in [r, Candidate("q", "a|b", "c")];
  }

  lemma SameCount(p: seq<Player>, q: seq<Player>)
    requires SameButSchools(p, q)
    ensures |p| == |q|
  {
  }

  lemma SchoolsExtend(p: seq<Player>, q: seq<Player>)
    requires SameButSchools(p, q)
    ensures PlayersExtend(p, q)
  {
  }

  /** Resolving the batch again over what its load has left. */
  lemma ResolvedOnceMore(db: Tables, cs: seq<PlayerRecord>, location: Id, q: seq<Player>)
    requires Resolved(db.players, cs, location, db.known).Returned?
    requires SameButSchools(Resolved(db.players, cs, location, db.known).result.0, q)
    ensures Resolved(q, cs, location, db.known).Returned?
    ensures var first, second := Resolved(db.players, cs, location, db.known).result,
                                 Resolved(q, cs, location, db.known).result;
            && second.0 == q && second.1.created == []
            && (second.1.flagged == first.1.flagged ==> second.1.resolved == first.1.resolved)
            && (OneNamePerId(cs) ==>
                  && (second.1.flagged == first.1.flagged <==> AllAlone(q, cs, first.1.resolved))
                  && forall k :: k in second.1.resolved ==>
                       k in first.1.resolved && second.1.resolved[k] == first.1.resolved[k])
  {
    hide Slug, Resolved, OneNamePerId, AllAlone, AllSettled, PlayersExtend;
    SchoolsExtend(Resolved(db.players, cs, location, db.known).result.0, q);
    ResolveLater(db.players, cs, location, db.known, q);
    if OneNamePerId(cs) {
      ResolveTwice(db.players, cs, location, db.known, q);
    }
  }

  lemma PlainOnceMore(db: Tables, cs: seq<PlayerRecord>, location: Id, q: seq<Player>)
    requires PlainRecords(cs) && Resolved(db.players, cs, location, db.known).Returned?
    requires SameButSchools(Resolved(db.players, cs, location, db.known).result.0, q)
    ensures Resolved(q, cs, location, db.known).Returned?
    ensures Resolved(q, cs, location, db.known).result.1.flagged ==
            Resolved(db.players, cs, location, db.known).result.1.flagged
  {
    hide Slug, Resolved, PlainRecords;
    ResolveTwicePlain(db.players, cs, location, db.known, q);
  }

  lemma AllSchooled(players: seq<Player>, rs: seq<LoadRecord>, env: Env, again: Env)
    requires Alike(env, again) && forall r :: r in rs ==> Schooled(players, r, env)
    requires forall k :: k in again.resolved ==> k in env.resolved && again.resolved[k] == env.resolved[k]
    ensures forall r :: r in rs ==> Schooled(players, r, again)
  {
    hide Slug, IsPresent, Lookup;
  }

  lemma {:induction false} FlagsAlike(rs: seq<LoadRecord>, env: Env, again: Env)
    requires Alike(env, again) && env.resolved == again.resolved
    ensures SchoolFlags(rs, env) == SchoolFlags(rs, again)
  {
    hide Slug, IsPresent, Lookup;
    if rs != [] {
      FlagsAlike(rs[..|rs| - 1], env, again);
    }
  }
}
