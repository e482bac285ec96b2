/** The newer revision, datafactoryfc/functions.py: the five get_* operations,
    the shot outcome rule, the progressive-pass flag that needs a receiver, and
    the optional expected-threat stage on passes, throw-ins and corners. */
module DataFactoryFC {
  import opened Feed
  import opened Normalize
  import opened Tables
  import opened Threat
  import opened Categories

  // ---------------------------------------------------------------------------
  // Derived metrics
  // ---------------------------------------------------------------------------

  /** `np.select([type.isin(range(9, 14)), type == 33], ['Goal', 'On Target'],
      default='Missed')`; a null type matches neither condition. */
  function ShotOutcome(shotType: Option<int>): (o: Outcome)
    ensures o == Goal <==> shotType.Some? && 9 <= shotType.value <= 13
    ensures o == OnTarget <==> shotType == Some(33)
    ensures o == Missed <==> shotType.None? || !(9 <= shotType.value <= 13 || shotType.value == 33)
  {
    match shotType
    case None => Missed
    case Some(code) =>
      if 9 <= code < 14 then Goal
      else if code == 33 then OnTarget
      else Missed
  }

  /** The flag of get_passes: the pass moves towards goal and has a receiver. */
  predicate IsProgressive(r: Row) {
    r.rec.recvId.Val? && MovesTowardGoal(r.x, r.y, r.endX, r.endY)
  }

  /** Stated with the two hypotenuses the source computes, the flag is the
      ratio test `end / beginning < 0.75` together with a non-null receiver. */
  lemma ProgressiveByRatio(r: Row, beginning: real, end: real)
    requires r.x.Some? && r.y.Some? && r.endX.Some? && r.endY.Some?
    requires beginning >= 0.0 && end >= 0.0
    requires beginning * beginning == GoalDistanceSquared(r.x.value, r.y.value)
    requires end * end == GoalDistanceSquared(r.endX.value, r.endY.value)
    ensures IsProgressive(r) <==> r.rec.recvId.Val? && beginning > 0.0 && end / beginning < 0.75
  {
    RatioTest(beginning, end, r.x.value, r.y.value, r.endX.value, r.endY.value);
  }

  // ---------------------------------------------------------------------------
  // Output rows
  // ---------------------------------------------------------------------------

  function PassRows(doc: Document, t: seq<Row>): (rows: seq<PassRow>)
    ensures |rows| == |t|
    ensures forall i | 0 <= i < |t| :: rows[i] == PassRowOf(doc, t[i], IsProgressive(t[i]))
  {
    seq(|t|, i requires 0 <= i < |t| => PassRowOf(doc, t[i], IsProgressive(t[i])))
  }

  function ShotRows(doc: Document, t: seq<Row>): (rows: seq<ShotRow>)
    ensures |rows| == |t|
    ensures forall i | 0 <= i < |t| ::
              rows[i] == ShotRowOf(doc, t[i], ShotOutcome(t[i].rec.shotType.Nullable()))
  {
    seq(|t|, i requires 0 <= i < |t| => ShotRowOf(doc, t[i], ShotOutcome(t[i].rec.shotType.Nullable())))
  }

  /** The columns xT reads from a pass row, and its receiver column. */
  function PassSpan(p: PassRow): Span {
    Span(p.x, p.y, p.endX, p.endY)
  }

  function PassReceiver(p: PassRow): Option<int> {
    p.receiverId
  }

  /** A throw-in or corner frame has no receiver column. */
  function SetPieceSpan(p: SetPieceRow): Span {
    Span(p.x, p.y, p.endX, p.endY)
  }

  // ---------------------------------------------------------------------------
  // Operations
  // ---------------------------------------------------------------------------

  /** get_passes. `grid` is the packaged threat grid and `cut` pandas' binning. */
  method GetPasses(input: MatchInput, fetch: Fetch, allPasses: bool, withXT: bool,
                   grid: seq<seq<real>>, cut: Cut) returns (r: Result<Frame<PassRow>>)
    requires Rectangular(grid) && LabelsInRange(cut)
    ensures PassesInput(input, fetch, allPasses).Failure? ==>
              r == Failure(PassesInput(input, fetch, allPasses).error)
    ensures PassesInput(input, fetch, allPasses).Success? ==>
              var loaded := PassesInput(input, fetch, allPasses).value;
              exists t :: IsTimeline(t, Prepared(loaded.records, true)) &&
                r == Framed(PassRows(loaded.doc, t), withXT, PassSpan, Some(PassReceiver), grid, cut)
  {
    var timed :- PassTimeline(input, fetch, allPasses);
    var rows := PassRows(timed.doc, timed.t);
    if !withXT {
      return Success(Plain(rows));
    }
    var valued :- XT(rows, PassSpan, Some(PassReceiver), grid, cut);
    return Success(WithXT(valued));
  }

  /** get_shots: `assBy` and `ctchBy` may be missing, `type` may not. */
  method GetShots(input: MatchInput, fetch: Fetch) returns (r: Result<seq<ShotRow>>)
    ensures CategoryInput(input, fetch, "shots", true, [PlyrId, Type]).Failure? ==>
              r == Failure(CategoryInput(input, fetch, "shots", true, [PlyrId, Type]).error)
    ensures CategoryInput(input, fetch, "shots", true, [PlyrId, Type]).Success? ==>
              var loaded := CategoryInput(input, fetch, "shots", true, [PlyrId, Type]).value;
              exists t :: IsTimeline(t, Prepared(loaded.records, true)) &&
                r == Success(ShotRows(loaded.doc, t))
  {
    var timed :- CategoryTimeline(input, fetch, "shots", true, [PlyrId, Type]);
    return Success(ShotRows(timed.doc, timed.t));
  }

  /** get_fouls: start points only. */
  method GetFouls(input: MatchInput, fetch: Fetch) returns (r: Result<seq<FoulRow>>)
    ensures CategoryInput(input, fetch, "fouls", false, [PlyrId, RecvId]).Failure? ==>
              r == Failure(CategoryInput(input, fetch, "fouls", false, [PlyrId, RecvId]).error)
    ensures CategoryInput(input, fetch, "fouls", false, [PlyrId, RecvId]).Success? ==>
              var loaded := CategoryInput(input, fetch, "fouls", false, [PlyrId, RecvId]).value;
              exists t :: IsTimeline(t, Prepared(loaded.records, false)) &&
                r == Success(FoulRows(loaded.doc, t))
  {
    var timed :- CategoryTimeline(input, fetch, "fouls", false, [PlyrId, RecvId]);
    return Success(FoulRows(timed.doc, timed.t));
  }

  /** get_throwins and get_corners, which differ only in the category key. */
  method GetSetPieces(key: string, input: MatchInput, fetch: Fetch, withXT: bool,
                      grid: seq<seq<real>>, cut: Cut) returns (r: Result<Frame<SetPieceRow>>)
    requires Rectangular(grid) && LabelsInRange(cut)
    ensures CategoryInput(input, fetch, key, true, [PlyrId]).Failure? ==>
              r == Failure(CategoryInput(input, fetch, key, true, [PlyrId]).error)
    ensures CategoryInput(input, fetch, key, true, [PlyrId]).Success? ==>
              var loaded := CategoryInput(input, fetch, key, true, [PlyrId]).value;
              exists t :: IsTimeline(t, Prepared(loaded.records, true)) &&
                r == Framed(SetPieceRows(loaded.doc, t), withXT, SetPieceSpan, None, grid, cut)
  {
    var timed :- CategoryTimeline(input, fetch, key, true, [PlyrId]);
    var rows := SetPieceRows(timed.doc, timed.t);
    if !withXT {
      return Success(Plain(rows));
    }
    var valued :- XT(rows, SetPieceSpan, None, grid, cut);
    return Success(WithXT(valued));
  }

  method GetThrowIns(input: MatchInput, fetch: Fetch, withXT: bool,
                     grid: seq<seq<real>>, cut: Cut) returns (r: Result<Frame<SetPieceRow>>)
    requires Rectangular(grid) && LabelsInRange(cut)
    ensures CategoryInput(input, fetch, "throwIn", true, [PlyrId]).Failure? ==>
              r == Failure(CategoryInput(input, fetch, "throwIn", true, [PlyrId]).error)
    ensures CategoryInput(input, fetch, "throwIn", true, [PlyrId]).Success? ==>
              var loaded := CategoryInput(input, fetch, "throwIn", true, [PlyrId]).value;
              exists t :: IsTimeline(t, Prepared(loaded.records, true)) &&
                r == Framed(SetPieceRows(loaded.doc, t), withXT, SetPieceSpan, None, grid, cut)
  {
    r := GetSetPieces("throwIn", input, fetch, withXT, grid, cut);
  }

  method GetCorners(input: MatchInput, fetch: Fetch, withXT: bool,
                    grid: seq<seq<real>>, cut: Cut) returns (r: Result<Frame<SetPieceRow>>)
    requires Rectangular(grid) && LabelsInRange(cut)
    ensures CategoryInput(input, fetch, "cornerKicks", true, [PlyrId]).Failure? ==>
              r == Failure(CategoryInput(input, fetch, "cornerKicks", true, [PlyrId]).error)
    ensures CategoryInput(input, fetch, "cornerKicks", true, [PlyrId]).Success? ==>
              var loaded := CategoryInput(input, fetch, "cornerKicks", true, [PlyrId]).value;
              exists t :: IsTimeline(t, Prepared(loaded.records, true)) &&
                r == Framed(SetPieceRows(loaded.doc, t), withXT, SetPieceSpan, None, grid, cut)
  {
    r := GetSetPieces("cornerKicks", input, fetch, withXT, grid, cut);
  }

  // ---------------------------------------------------------------------------
  // Properties of the pass table
  // ---------------------------------------------------------------------------

  /** With `all_passes` the table has one row per correct and per incorrect
      pass, otherwise one per correct pass. */
  lemma PassCount(input: MatchInput, fetch: Fetch, allPasses: bool, t: seq<Row>)
    requires PassesInput(input, fetch, allPasses).Success?
    requires IsTimeline(t, Prepared(PassesInput(input, fetch, allPasses).value.records, true))
    ensures var doc := PassesInput(input, fetch, allPasses).value.doc;
            |PassRows(doc, t)| ==
              |IncidencesOrEmpty(doc, "correctPasses")| +
              (if allPasses then |IncidencesOrEmpty(doc, "incorrectPasses")| else 0)
  {
    var loaded := PassesInput(input, fetch, allPasses).value;
    TimelineLength(t, Prepared(loaded.records, true));
  }

  /** The pass table is in (minute, seconds) order. */
  lemma PassesInOrder(doc: Document, records: seq<Record>, t: seq<Row>)
    requires IsTimeline(t, Prepared(records, true))
    ensures var rows := PassRows(doc, t);
            forall i, j | 0 <= i < j < |rows| ::
              rows[i].minute < rows[j].minute ||
              (rows[i].minute == rows[j].minute && rows[i].seconds <= rows[j].seconds)
  {
  }

  /** A flagged pass always has a receiver, and a start and end point. */
  lemma ProgressiveNeedsReceiver(doc: Document, t: seq<Row>)
    ensures forall p | p in PassRows(doc, t) && p.isProgressive ::
              p.receiverId.Some? && p.x.Some? && p.y.Some? && p.endX.Some? && p.endY.Some?
  {
  }

  /** On raw points in [-1, 1] every pass row lies on the [0, 100] pitch. */
  lemma PassesOnPitch(doc: Document, records: seq<Record>, t: seq<Row>)
    requires CoordinateError(records, true).None?
    requires forall i | 0 <= i < |records| :: RawInRange(records[i])
    requires IsTimeline(t, Prepared(records, true))
    ensures forall p | p in PassRows(doc, t) ::
              InBox(Point(p.x, p.y), 0.0, 100.0) && InBox(Point(p.endX, p.endY), 0.0, 100.0)
  {
    TimelineInPitch(records, true, t);
    var rows := PassRows(doc, t);
    forall p | p in rows
      ensures InBox(Point(p.x, p.y), 0.0, 100.0) && InBox(Point(p.endX, p.endY), 0.0, 100.0)
    {
      var i :| 0 <= i < |rows| && rows[i] == p;
      assert InBox(Point(t[i].x, t[i].y), 0.0, 100.0);
    }
  }

  /** In a pass frame with xT, the k-th kept pass is worth 0 when it has no
      receiver, and otherwise the threat of its end cell minus that of its
      start cell. */
  lemma PassThreat(rows: seq<PassRow>, grid: seq<seq<real>>, cut: Cut)
    requires Rectangular(grid) && LabelsInRange(cut)
    requires Framed(rows, true, PassSpan, Some(PassReceiver), grid, cut).Success?
    ensures var valued := Framed(rows, true, PassSpan, Some(PassReceiver), grid, cut).value.valued;
            var kept := Kept(rows, PassSpan);
            |valued| == |kept| &&
            forall k | 0 <= k < |valued| ::
              valued[k].row == rows[kept[k]] && PassSpan(valued[k].row).Complete() &&
              valued[k].xT == if valued[k].row.receiverId.None? then 0.0
                              else ZoneOf(rows, PassSpan, kept, grid, cut, k).Gain(grid)
  {
    XTValues(rows, PassSpan, Some(PassReceiver), grid, cut);
  }

  /** A throw-in or corner frame with at least one complete row has xT, and
      there is no receiver column to force a 0: every kept row is worth the
      threat of its end cell minus that of its start cell. */
  lemma SetPieceThreat(rows: seq<SetPieceRow>, grid: seq<seq<real>>, cut: Cut)
    requires Rectangular(grid) && LabelsInRange(cut)
    requires exists i | 0 <= i < |rows| :: SetPieceSpan(rows[i]).Complete()
    ensures Framed(rows, true, SetPieceSpan, None, grid, cut).Success?
    ensures var valued := Framed(rows, true, SetPieceSpan, None, grid, cut).value.valued;
            var kept := Kept(rows, SetPieceSpan);
            |valued| == |kept| &&
            forall k | 0 <= k < |valued| ::
              valued[k].row == rows[kept[k]] &&
              valued[k].xT == ZoneOf(rows, SetPieceSpan, kept, grid, cut, k).Gain(grid)
  {
    XTValues(rows, SetPieceSpan, None, grid, cut);
  }

  // ---------------------------------------------------------------------------
  // A worked example
  // ---------------------------------------------------------------------------

  /** A pass from the centre spot (raw (0, 0)) to raw (0.8, 0) in the given half,
      from player 11 to player 12 of team 7, at 10:05. */
  function CentrePass(half: int): Record {
    Record(7, Coord(Point(Some(0.0), Some(0.0)), Some(Point(Some(0.8), Some(0.0)))),
           Clock(half, 10, 5), Val(11), Val(12), Absent, Absent, Absent)
  }

  /** In the first half the pass ends at (90, 50), near the goal at (100, 50),
      and is progressive; the same raw pass in the second half is reflected to
      end at (10, 50) and is not, since the test always measures towards x = 100. */
  lemma CentrePassByHalf()
    ensures var first := Prepared([CentrePass(1)], true)[0];
            first.x == Some(50.0) && first.y == Some(50.0) &&
            first.endX == Some(90.0) && first.endY == Some(50.0) &&
            first.minute == 10 && first.seconds == 5 && IsProgressive(first)
    ensures var second := Prepared([CentrePass(2)], true)[0];
            second.endX == Some(10.0) && second.endY == Some(50.0) && !IsProgressive(second)
  {
  }
}
