/** The helpers both revisions share line for line: input dispatch, the
    coordinate and time normalisers, the name resolvers, and the column checks
    pandas performs when a get_* operation indexes a column directly. */
module Normalize {
  import opened Feed

  // ---------------------------------------------------------------------------
  // Input dispatch (_match_input_validation)
  // ---------------------------------------------------------------------------

  /** Python's `isinstance(v, int)`, which also holds for a bool. */
  predicate IsInt(v: PyValue) {
    v.PyInt? || v.PyBool?
  }

  /** A list of exactly a string and an int. */
  predicate IsLeagueAndMatch(items: seq<PyValue>) {
    |items| == 2 && items[0].PyStr? && IsInt(items[1])
  }

  /** A dict is the document itself; `[league, match_id]` is fetched; every other
      input is refused before anything is processed. */
  function ValidateInput(input: MatchInput, fetch: Fetch): (r: Result<Document>)
    ensures input.DictInput? ==> r == Success(input.doc)
    ensures input.ListInput? && IsLeagueAndMatch(input.items) ==>
              r == fetch(input.items[0].s, input.items[1])
    ensures input.OtherInput? || (input.ListInput? && !IsLeagueAndMatch(input.items)) ==>
              r == Failure(InvalidMatchInput)
  {
    match input
    case ListInput(items) =>
      if IsLeagueAndMatch(items) then fetch(items[0].s, items[1]) else Failure(InvalidMatchInput)
    case DictInput(doc) => Success(doc)
    case OtherInput => Failure(InvalidMatchInput)
  }

  // ---------------------------------------------------------------------------
  // Coordinate normaliser (_process_coordinates)
  // ---------------------------------------------------------------------------

  /** `(v + 1) * 50`: [-1, 1] onto [0, 100]. */
  function Rescale(v: real): real {
    (v + 1.0) * 50.0
  }

  /** The x column: rescaled, then reflected through 100 on a second-half row.
      A null stays null (NaN arithmetic). */
  function NormalizeX(v: Option<real>, half: int): Option<real> {
    match v
    case None => None
    case Some(x) => Some(if half == 2 then 100.0 - Rescale(x) else Rescale(x))
  }

  /** The y column: the same as x, then reflected through 100 once more whatever
      the half. */
  function NormalizeY(v: Option<real>, half: int): Option<real> {
    match v
    case None => None
    case Some(y) => Some(100.0 - (if half == 2 then 100.0 - Rescale(y) else Rescale(y)))
  }

  predicate Within(v: Option<real>, lo: real, hi: real) {
    v.Some? ==> lo <= v.value <= hi
  }

  predicate InBox(p: Point, lo: real, hi: real) {
    Within(p.x, lo, hi) && Within(p.y, lo, hi)
  }

  /** The point reflected through the centre of the raw [-1, 1] square. */
  function Reflected(p: Point): Point {
    Point(
      match p.x case None => None case Some(x) => Some(-x),
      match p.y case None => None case Some(y) => Some(-y))
  }

  /** One point of a row, normalised: a raw point inside [-1, 1] lands inside
      [0, 100], and exactly the present components stay present. */
  function NormalizePoint(p: Point, half: int): (q: Point)
    ensures InBox(p, -1.0, 1.0) ==> InBox(q, 0.0, 100.0)
    ensures q.x.Some? <==> p.x.Some?
    ensures q.y.Some? <==> p.y.Some?
  {
    Point(NormalizeX(p.x, half), NormalizeY(p.y, half))
  }

  /** The inverse of NormalizePoint, used to show that normalising loses nothing. */
  function DenormalizePoint(q: Point, half: int): Point {
    Point(
      match q.x case None => None
        case Some(x) => Some((if half == 2 then 100.0 - x else x) / 50.0 - 1.0),
      match q.y case None => None
        case Some(y) => Some((if half == 2 then y else 100.0 - y) / 50.0 - 1.0))
  }

  /** Normalising is injective: the raw point can be recovered from its output. */
  lemma NormalizeRoundTrip(p: Point, half: int)
    ensures DenormalizePoint(NormalizePoint(p, half), half) == p
  {
  }

  /** A second-half row normalises to what a first-half row with the point
      reflected through the centre does. */
  lemma HalfTwoMirrorsHalfOne(p: Point)
    ensures NormalizePoint(p, 2) == NormalizePoint(Reflected(p), 1)
  {
  }

  /** A first-half point goes through the rescale and the y flip only. */
  lemma FirstHalfFormula(x: real, y: real, half: int)
    requires half != 2
    ensures NormalizePoint(Point(Some(x), Some(y)), half) ==
              Point(Some((x + 1.0) * 50.0), Some(100.0 - (y + 1.0) * 50.0))
  {
  }

  /** One frame row as the pipeline builds it: the raw record, the coordinate
      columns once _process_coordinates has written them, and the minute and
      second columns once _process_time has. */
  datatype Row = Row(
    rec: Record,
    x: Option<real>,
    y: Option<real>,
    endX: Option<real>,
    endY: Option<real>,
    minute: int,
    seconds: int)

  /** `pd.DataFrame.from_dict(...)`: one row per record, no derived column yet. */
  function Load(rec: Record): Row {
    Row(rec, None, None, None, None, 0, 0)
  }

  function RecordsOf(rows: seq<Row>): (recs: seq<Record>)
    ensures |recs| == |rows| && forall i | 0 <= i < |rows| :: recs[i] == rows[i].rec
  {
    seq(|rows|, i requires 0 <= i < |rows| => rows[i].rec)
  }

  predicate EndPointsPresent(records: seq<Record>) {
    forall i | 0 <= i < |records| :: records[i].coord.second.Some?
  }

  /** How _process_coordinates fails: a frame built from no records has no
      `coord` column at all, and with `has_end` every record needs key "2". */
  function CoordinateError(records: seq<Record>, hasEnd: bool): (e: Option<Error>)
    ensures e.None? <==> |records| > 0 && (hasEnd ==> EndPointsPresent(records))
  {
    if |records| == 0 then Some(KeyError("coord"))
    else if hasEnd && !EndPointsPresent(records) then Some(KeyError("2"))
    else None
  }

  /** A row with its coordinate columns written. The end columns are written
      only with `has_end`; CoordinateError has ruled out a missing end point
      whenever this is used. */
  function Placed(r: Row, hasEnd: bool): Row {
    var half := r.rec.t.half;
    var start := NormalizePoint(r.rec.coord.first, half);
    if hasEnd then
      var end := NormalizePoint(r.rec.coord.second.GetOr(Point(None, None)), half);
      r.(x := start.x, y := start.y, endX := end.x, endY := end.y)
    else
      r.(x := start.x, y := start.y)
  }

  /** _process_coordinates on the frame `a`, in place. On failure nothing is
      written (the exception discards the frame anyway). */
  method ProcessCoordinates(a: array<Row>, hasEnd: bool) returns (err: Option<Error>)
    modifies a
    ensures err == CoordinateError(RecordsOf(old(a[..])), hasEnd)
    ensures err.None? ==> forall i | 0 <= i < a.Length :: a[i] == Placed(old(a[i]), hasEnd)
    ensures err.Some? ==> a[..] == old(a[..])
  {
    err := CoordinateError(RecordsOf(a[..]), hasEnd);
    if err.Some? {
      return;
    }
    for i := 0 to a.Length
      invariant forall j | 0 <= j < i :: a[j] == Placed(old(a[j]), hasEnd)
      invariant forall j | i <= j < a.Length :: a[j] == old(a[j])
    {
      a[i] := Placed(a[i], hasEnd);
    }
  }

  // ---------------------------------------------------------------------------
  // Time normaliser (_process_time)
  // ---------------------------------------------------------------------------

  /** `minute = t.m` and `seconds = t.s`, verbatim. */
  function Clocked(r: Row): Row {
    r.(minute := r.rec.t.m, seconds := r.rec.t.s)
  }

  /** The order of `sort_values(by=['minute', 'seconds'])`. */
  predicate NotAfter(a: Row, b: Row) {
    a.minute < b.minute || (a.minute == b.minute && a.seconds <= b.seconds)
  }

  predicate Chronological(s: seq<Row>) {
    forall i, j | 0 <= i < j < |s| :: NotAfter(s[i], s[j])
  }

  /** `t` holds exactly the rows of `rows`, in chronological order; how ties are
      ordered is left open. Positions are the re-indexed 0..n-1 index. */
  predicate IsTimeline(t: seq<Row>, rows: seq<Row>) {
    Chronological(t) && multiset(t) == multiset(rows)
  }

  lemma TimelineLength(t: seq<Row>, rows: seq<Row>)
    requires IsTimeline(t, rows)
    ensures |t| == |rows|
  {
    assert |multiset(t)| == |multiset(rows)|;
  }

  /** In a chronological sequence, every row from the first one strictly
      later than `row` onwards is not before `row`. */
  lemma LaterSuffix(sorted: seq<Row>, k: nat, row: Row)
    requires Chronological(sorted)
    requires k < |sorted| && !NotAfter(sorted[k], row)
    ensures forall j | k <= j < |sorted| :: NotAfter(row, sorted[j])
  {
  }

  /** Inserting `row` between the rows not after it and the rows not before it
      keeps a sequence chronological. */
  lemma InsertChronological(sorted: seq<Row>, k: nat, row: Row)
    requires Chronological(sorted) && k <= |sorted|
    requires forall j | 0 <= j < k :: NotAfter(sorted[j], row)
    requires forall j | k <= j < |sorted| :: NotAfter(row, sorted[j])
    ensures Chronological(sorted[..k] + [row] + sorted[k..])
  {
  }

  /** The sort of _process_time followed by `reset_index(drop=True)`. */
  method SortChronologically(rows: seq<Row>) returns (sorted: seq<Row>)
    ensures IsTimeline(sorted, rows)
  {
    sorted := [];
    for i := 0 to |rows|
      invariant Chronological(sorted)
      invariant multiset(sorted) == multiset(rows[..i])
    {
      var row := rows[i];
      var k := 0;
      while k < |sorted| && NotAfter(sorted[k], row)
        invariant 0 <= k <= |sorted|
        invariant forall j | 0 <= j < k :: NotAfter(sorted[j], row)
      {
        k := k + 1;
      }
      if k < |sorted| {
        LaterSuffix(sorted, k, row);
      }
      InsertChronological(sorted, k, row);
      assert sorted == sorted[..k] + sorted[k..];
      assert rows[..i + 1] == rows[..i] + [row];
      sorted := sorted[..k] + [row] + sorted[k..];
    }
    assert rows[..|rows|] == rows;
  }

  /** _process_time on the frame `a`: the minute and second columns are written
      in place, and the sorted, re-indexed frame is returned. */
  method ProcessTime(a: array<Row>) returns (table: seq<Row>)
    modifies a
    ensures forall i | 0 <= i < a.Length :: a[i] == Clocked(old(a[i]))
    ensures IsTimeline(table, a[..])
  {
    for i := 0 to a.Length
      invariant forall j | 0 <= j < i :: a[j] == Clocked(old(a[j]))
      invariant forall j | i <= j < a.Length :: a[j] == old(a[j])
    {
      a[i] := Clocked(a[i]);
    }
    table := SortChronologically(a[..]);
  }

  /** The rows of the records once both normalisers have run, in record order. */
  function Prepared(records: seq<Record>, hasEnd: bool): (rows: seq<Row>)
    ensures |rows| == |records|
    ensures forall i | 0 <= i < |records| :: rows[i].rec == records[i]
    ensures forall i | 0 <= i < |records| ::
              Point(rows[i].x, rows[i].y) == NormalizePoint(records[i].coord.first, records[i].t.half) &&
              rows[i].minute == records[i].t.m && rows[i].seconds == records[i].t.s
    ensures forall i | 0 <= i < |records| ::
              if hasEnd && records[i].coord.second.Some? then
                Point(rows[i].endX, rows[i].endY) == NormalizePoint(records[i].coord.second.value, records[i].t.half)
              else !hasEnd ==> rows[i].endX.None? && rows[i].endY.None?
  {
    seq(|records|, i requires 0 <= i < |records| => Clocked(Placed(Load(records[i]), hasEnd)))
  }

  /** A second-half record yields the same columns as the first-half record
      whose start and end points are reflected through the centre. */
  lemma PreparedMirror(rec: Record, hasEnd: bool)
    requires rec.t.half == 2
    ensures var mirrored := rec.(coord := Coord(Reflected(rec.coord.first),
                                                 match rec.coord.second
                                                 case None => None
                                                 case Some(p) => Some(Reflected(p))),
                                 t := rec.t.(half := 1));
            var a, b := Prepared([rec], hasEnd)[0], Prepared([mirrored], hasEnd)[0];
            a.x == b.x && a.y == b.y && a.endX == b.endX && a.endY == b.endY &&
            a.minute == b.minute && a.seconds == b.seconds
  {
  }

  /** The raw points of a record lie in [-1, 1]. */
  predicate RawInRange(rec: Record) {
    InBox(rec.coord.first, -1.0, 1.0) &&
    (rec.coord.second.Some? ==> InBox(rec.coord.second.value, -1.0, 1.0))
  }

  /** Every row of a timeline has its start columns, and with has_end its end
      columns, in [0, 100] when the records' raw points lie in [-1, 1]. */
  lemma TimelineInPitch(records: seq<Record>, hasEnd: bool, t: seq<Row>)
    requires CoordinateError(records, hasEnd).None?
    requires forall i | 0 <= i < |records| :: RawInRange(records[i])
    requires IsTimeline(t, Prepared(records, hasEnd))
    ensures forall i | 0 <= i < |t| ::
              InBox(Point(t[i].x, t[i].y), 0.0, 100.0) &&
              (hasEnd ==> InBox(Point(t[i].endX, t[i].endY), 0.0, 100.0))
  {
    var rows := Prepared(records, hasEnd);
    forall i | 0 <= i < |t|
      ensures InBox(Point(t[i].x, t[i].y), 0.0, 100.0)
      ensures hasEnd ==> InBox(Point(t[i].endX, t[i].endY), 0.0, 100.0)
    {
      assert t[i] in multiset(rows);
      var j :| 0 <= j < |rows| && rows[j] == t[i];
      assert RawInRange(records[j]);
      assert t[i] == Clocked(Placed(Load(records[j]), hasEnd));
    }
  }

  /** `from_dict`, then _process_coordinates, then _process_time: the frame
      every get_* operation starts from, or the error that stops it. */
  method Prepare(records: seq<Record>, hasEnd: bool) returns (r: Result<seq<Row>>)
    ensures CoordinateError(records, hasEnd).Some? ==>
              r == Failure(CoordinateError(records, hasEnd).value)
    ensures CoordinateError(records, hasEnd).None? ==>
              r.Success? && IsTimeline(r.value, Prepared(records, hasEnd))
  {
    var a := new Row[|records|](i requires 0 <= i < |records| => Load(records[i]));
    assert RecordsOf(a[..]) == records;
    var err := ProcessCoordinates(a, hasEnd);
    if err.Some? {
      return Failure(err.value);
    }
    var table := ProcessTime(a);
    assert a[..] == Prepared(records, hasEnd);
    return Success(table);
  }

  // ---------------------------------------------------------------------------
  // Identity resolver (_get_player_name, _get_team_name)
  // ---------------------------------------------------------------------------

  function DigitChar(d: nat): (c: char)
    requires d < 10
    ensures '0' <= c <= '9'
  {
    ('0' as int + d) as char
  }

  /** The decimal digits of `n`, most significant first. */
  function Digits(n: nat): (s: string)
    ensures |s| > 0 && (n >= 10 <==> |s| >= 2)
    ensures s[|s| - 1] == DigitChar(n % 10)
    ensures forall i | 0 <= i < |s| :: '0' <= s[i] <= '9'
    decreases n
  {
    if n < 10 then [DigitChar(n)] else Digits(n / 10) + [DigitChar(n % 10)]
  }

  /** Python's `str(n)` for an int. */
  function DecimalString(n: int): string {
    if n < 0 then "-" + Digits(-n) else Digits(n)
  }

  /** `int(s)` for the strings DecimalString produces. */
  function ParseDigits(s: string): int
    decreases |s|
  {
    if |s| == 0 then 0 else ParseDigits(s[..|s| - 1]) * 10 + (s[|s| - 1] as int - '0' as int)
  }

  function ParseDecimal(s: string): int {
    if |s| > 0 && s[0] == '-' then -ParseDigits(s[1..]) else ParseDigits(s)
  }

  lemma {:induction false} DigitsRoundTrip(n: nat)
    ensures ParseDigits(Digits(n)) == n
    decreases n
  {
    var s := Digits(n);
    if n >= 10 {
      assert s[..|s| - 1] == Digits(n / 10);
      DigitsRoundTrip(n / 10);
    } else {
      assert s[..|s| - 1] == [];
    }
  }

  /** Reading the key back gives the id: `str` loses nothing. */
  lemma DecimalRoundTrip(n: int)
    ensures ParseDecimal(DecimalString(n)) == n
  {
    if n < 0 {
      SignDropped(Digits(-n));
      DigitsRoundTrip(-n);
    } else {
      assert '0' <= Digits(n)[0] <= '9';
      DigitsRoundTrip(n);
    }
  }

  lemma SignDropped(d: string)
    ensures ("-" + d)[0] == '-' && ("-" + d)[1..] == d
  {
  }

  /** Distinct player ids are looked up under distinct keys. */
  lemma DecimalStringInjective(a: int, b: int)
    requires DecimalString(a) == DecimalString(b)
    ensures a == b
  {
    DecimalRoundTrip(a);
    DecimalRoundTrip(b);
  }

  /** `players.get(str(id), {}).get('name', {}).get('shortName')`: a short
      name exactly when every level of the lookup is there, null otherwise,
      and never a failure. */
  function PlayerName(id: Option<int>, players: map<string, Player>): (r: Option<string>)
    ensures id.None? ==> r.None?
    ensures r.Some? <==>
              id.Some? && DecimalString(id.value) in players &&
              players[DecimalString(id.value)].name.Some? &&
              players[DecimalString(id.value)].name.value.shortName.Some?
    ensures r.Some? ==> r == players[DecimalString(id.value)].name.value.shortName
  {
    match id
    case None => None
    case Some(n) =>
      var key := DecimalString(n);
      if key in players && players[key].name.Some? then players[key].name.value.shortName else None
  }

  /** The home name for the home id (checked first), else the away name for
      the away id, else null. */
  function TeamName(teamId: int, m: MatchInfo): (r: Option<string>)
    ensures teamId == m.homeTeamId ==> r == Some(m.homeTeamName)
    ensures teamId != m.homeTeamId && teamId == m.awayTeamId ==> r == Some(m.awayTeamName)
    ensures r.None? <==> teamId != m.homeTeamId && teamId != m.awayTeamId
  {
    if teamId == m.homeTeamId then Some(m.homeTeamName)
    else if teamId == m.awayTeamId then Some(m.awayTeamName)
    else None
  }

  // ---------------------------------------------------------------------------
  // Category extraction and direct column access
  // ---------------------------------------------------------------------------

  /** `data['incidences'][key]`: a missing category is a KeyError. */
  function Incidences(doc: Document, key: string): (r: Result<seq<Record>>)
    ensures r.Failure? <==> key !in doc.incidences
    ensures r.Failure? ==> r.error == KeyError(key)
    ensures r.Success? ==> r.value == doc.incidences[key]
  {
    if key in doc.incidences then Success(doc.incidences[key]) else Failure(KeyError(key))
  }

  /** `data['incidences'].get(key, {})`: a missing category reads as empty. */
  function IncidencesOrEmpty(doc: Document, key: string): (r: seq<Record>)
    ensures key !in doc.incidences ==> r == []
    ensures key in doc.incidences ==> r == doc.incidences[key]
  {
    if key in doc.incidences then doc.incidences[key] else []
  }

  /** The raw columns a get_* operation reads with `df[name]`. */
  datatype Column = PlyrId | RecvId | AssBy | CtchBy | Type {
    function Name(): string {
      match this
      case PlyrId => "plyrId"
      case RecvId => "recvId"
      case AssBy => "assBy"
      case CtchBy => "ctchBy"
      case Type => "type"
    }
  }

  function FieldOf(rec: Record, c: Column): Cell {
    match c
    case PlyrId => rec.plyrId
    case RecvId => rec.recvId
    case AssBy => rec.assBy
    case CtchBy => rec.ctchBy
    case Type => rec.shotType
  }

  /** The frame has column `c` when some record carries the key, even as null. */
  predicate HasColumn(records: seq<Record>, c: Column) {
    exists i | 0 <= i < |records| :: FieldOf(records[i], c) != Absent
  }

  /** The first of `columns`, in the order the operation reads them, that the
      frame lacks. */
  function MissingColumn(records: seq<Record>, columns: seq<Column>): (r: Option<Column>)
    ensures r.None? <==> forall k | 0 <= k < |columns| :: HasColumn(records, columns[k])
    ensures r.Some? ==>
              exists k | 0 <= k < |columns| ::
                columns[k] == r.value && !HasColumn(records, columns[k]) &&
                forall l | 0 <= l < k :: HasColumn(records, columns[l])
  {
    if columns == [] then None
    else if !HasColumn(records, columns[0]) then Some(columns[0])
    else
      var rest := MissingColumn(records, columns[1..]);
      assert forall k | 1 <= k < |columns| :: columns[k] == columns[1..][k - 1];
      rest
  }

  /** The records survive everything a get_* operation checks before it builds
      its rows: the coordinate normaliser and the columns it reads directly. */
  function Admit(records: seq<Record>, hasEnd: bool, columns: seq<Column>): (r: Result<seq<Record>>)
    ensures r.Success? <==>
              CoordinateError(records, hasEnd).None? && MissingColumn(records, columns).None?
    ensures r.Success? ==> r.value == records
    ensures CoordinateError(records, hasEnd).Some? ==>
              r == Failure(CoordinateError(records, hasEnd).value)
  {
    match CoordinateError(records, hasEnd)
    case Some(e) => Failure(e)
    case None =>
      match MissingColumn(records, columns)
      case Some(c) => Failure(KeyError(c.Name()))
      case None => Success(records)
  }
}
