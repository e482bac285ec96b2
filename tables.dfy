/** The output tables: one record per row of the fixed column projection each
    get_* operation ends with (the same in both revisions), the functions that
    fill a row from a normalised frame row, and the distance test behind the
    progressive-pass flag. */
module Tables {
  import opened Feed
  import opened Normalize

  datatype PassRow = PassRow(
    teamId: int, teamName: Option<string>, minute: int, seconds: int,
    playerId: Option<int>, playerName: Option<string>,
    receiverId: Option<int>, receiverName: Option<string>,
    x: Option<real>, y: Option<real>, endX: Option<real>, endY: Option<real>,
    isProgressive: bool)

  /** The classes of `np.select(conditions, ['Goal', 'On Target'], default='Missed')`. */
  datatype Outcome = Goal | OnTarget | Missed {
    function Label(): string {
      match this
      case Goal => "Goal"
      case OnTarget => "On Target"
      case Missed => "Missed"
    }
  }

  datatype ShotRow = ShotRow(
    teamId: int, teamName: Option<string>, minute: int, seconds: int,
    playerId: Option<int>, playerName: Option<string>,
    x: Option<real>, y: Option<real>, endX: Option<real>, endY: Option<real>,
    outcome: Outcome,
    assistId: Option<int>, assistName: Option<string>,
    catchId: Option<int>, catchName: Option<string>)

  datatype FoulRow = FoulRow(
    teamId: int, teamName: Option<string>, minute: int, seconds: int,
    playerId: Option<int>, playerName: Option<string>,
    fouledId: Option<int>, fouledName: Option<string>,
    x: Option<real>, y: Option<real>)

  /** A throw-in or a corner kick. */
  datatype SetPieceRow = SetPieceRow(
    teamId: int, teamName: Option<string>, minute: int, seconds: int,
    playerId: Option<int>, playerName: Option<string>,
    x: Option<real>, y: Option<real>, endX: Option<real>, endY: Option<real>)

  // ---------------------------------------------------------------------------
  // The distance test of the progressive-pass flag
  // ---------------------------------------------------------------------------

  /** The square of `np.hypot(100 - x, 50 - y)`, the distance to the middle of
      the goal line being attacked. */
  function GoalDistanceSquared(x: real, y: real): (d: real)
    ensures d >= 0.0
  {
    (100.0 - x) * (100.0 - x) + (50.0 - y) * (50.0 - y)
  }

  /** `end / beginning < 0.75`, restated without a square root: the end point is
      less than three quarters as far from goal as the start. A null coordinate
      makes a NaN distance and so a false comparison. */
  predicate MovesTowardGoal(x: Option<real>, y: Option<real>, endX: Option<real>, endY: Option<real>) {
    x.Some? && y.Some? && endX.Some? && endY.Some? &&
    GoalDistanceSquared(endX.value, endY.value) < 0.5625 * GoalDistanceSquared(x.value, y.value)
  }

  /** For distances `beginning` and `end` (the hypotenuses), the restated test is
      numpy's ratio test, including a start on (100, 50): there `end / 0` is
      inf or NaN and the comparison is false. */
  lemma RatioTest(beginning: real, end: real, x: real, y: real, endX: real, endY: real)
    requires beginning >= 0.0 && end >= 0.0
    requires beginning * beginning == GoalDistanceSquared(x, y)
    requires end * end == GoalDistanceSquared(endX, endY)
    ensures MovesTowardGoal(Some(x), Some(y), Some(endX), Some(endY)) <==>
              beginning > 0.0 && end / beginning < 0.75
  {
    if beginning > 0.0 {
      SquaresCompareAsRatio(beginning, end);
    }
  }

  /** Squaring two non-negative lengths keeps the order of their ratio to 0.75. */
  lemma SquaresCompareAsRatio(b: real, e: real)
    requires b > 0.0 && e >= 0.0
    ensures e * e < 0.5625 * (b * b) <==> e / b < 0.75
  {
    var m := 0.75 * b;
    var q := e / b;
    assert e == q * b;
    if q < 0.75 {
      ScaleStrict(q, 0.75, b);
      assert e < m;
      SquareStrict(e, m);
    } else {
      ScaleWeak(0.75, q, b);
      assert m <= e;
      ScaleWeak(m, e, e);
      ScaleWeak(m, e, m);
      assert m * m <= e * e;
    }
    assert m * m == 0.5625 * (b * b);
  }

  lemma SquareStrict(a: real, b: real)
    requires 0.0 <= a < b
    ensures a * a < b * b
  {
    calc {
      a * a;
    <= { ScaleWeak(a, b, a); }
      b * a;
    <  { ScaleStrict(a, b, b); }
      b * b;
    }
  }

  lemma ScaleStrict(a: real, b: real, c: real)
    requires a < b && c > 0.0
    ensures a * c < b * c
  {
  }

  lemma ScaleWeak(a: real, b: real, c: real)
    requires a <= b && c >= 0.0
    ensures a * c <= b * c
  {
  }

  // ---------------------------------------------------------------------------
  // Row builders: the name lookups, the renames and the final projection
  // ---------------------------------------------------------------------------

  /** A pass row, given the flag the revision computes for it. */
  function PassRowOf(doc: Document, r: Row, progressive: bool): PassRow {
    PassRow(
      r.rec.team, TeamName(r.rec.team, doc.matchInfo), r.minute, r.seconds,
      r.rec.plyrId.Nullable(), PlayerName(r.rec.plyrId.Nullable(), doc.players),
      r.rec.recvId.Nullable(), PlayerName(r.rec.recvId.Nullable(), doc.players),
      r.x, r.y, r.endX, r.endY,
      progressive)
  }

  /** A shot row, given the outcome the revision computes for it. An absent
      `assBy` or `ctchBy` reads as null whether or not the frame has the column. */
  function ShotRowOf(doc: Document, r: Row, outcome: Outcome): ShotRow {
    ShotRow(
      r.rec.team, TeamName(r.rec.team, doc.matchInfo), r.minute, r.seconds,
      r.rec.plyrId.Nullable(), PlayerName(r.rec.plyrId.Nullable(), doc.players),
      r.x, r.y, r.endX, r.endY,
      outcome,
      r.rec.assBy.Nullable(), PlayerName(r.rec.assBy.Nullable(), doc.players),
      r.rec.ctchBy.Nullable(), PlayerName(r.rec.ctchBy.Nullable(), doc.players))
  }

  function FoulRowOf(doc: Document, r: Row): FoulRow {
    FoulRow(
      r.rec.team, TeamName(r.rec.team, doc.matchInfo), r.minute, r.seconds,
      r.rec.plyrId.Nullable(), PlayerName(r.rec.plyrId.Nullable(), doc.players),
      r.rec.recvId.Nullable(), PlayerName(r.rec.recvId.Nullable(), doc.players),
      r.x, r.y)
  }

  function SetPieceRowOf(doc: Document, r: Row): SetPieceRow {
    SetPieceRow(
      r.rec.team, TeamName(r.rec.team, doc.matchInfo), r.minute, r.seconds,
      r.rec.plyrId.Nullable(), PlayerName(r.rec.plyrId.Nullable(), doc.players),
      r.x, r.y, r.endX, r.endY)
  }

  function FoulRows(doc: Document, t: seq<Row>): (rows: seq<FoulRow>)
    ensures |rows| == |t| && forall i | 0 <= i < |t| :: rows[i] == FoulRowOf(doc, t[i])
  {
    seq(|t|, i requires 0 <= i < |t| => FoulRowOf(doc, t[i]))
  }

  function SetPieceRows(doc: Document, t: seq<Row>): (rows: seq<SetPieceRow>)
    ensures |rows| == |t| && forall i | 0 <= i < |t| :: rows[i] == SetPieceRowOf(doc, t[i])
  {
    seq(|t|, i requires 0 <= i < |t| => SetPieceRowOf(doc, t[i]))
  }
}
