/** The older revision, datafactory/functions.py: the same pipeline without the
    expected-threat stage, with a narrower goal rule, a progressive flag that
    ignores the receiver, and a shot operation that indexes `assBy` and
    `ctchBy` directly. */
module DataFactory {
  import opened Feed
  import opened Normalize
  import opened Tables
  import opened Categories

  /** `np.select([type.isin([9, 11, 13]), type == 33], ['Goal', 'On Target'],
      default='Missed')`. */
  function ShotOutcome(shotType: Option<int>): (o: Outcome)
    ensures o == Goal <==> shotType in {Some(9), Some(11), Some(13)}
    ensures o == OnTarget <==> shotType == Some(33)
    ensures o == Missed <==> shotType !in {Some(9), Some(11), Some(13), Some(33)}
  {
    match shotType
    case None => Missed
    case Some(code) =>
      if code == 9 || code == 11 || code == 13 then Goal
      else if code == 33 then OnTarget
      else Missed
  }

  /** `end / beginning < 0.75`, whoever received the pass. */
  predicate IsProgressive(r: Row) {
    MovesTowardGoal(r.x, r.y, r.endX, r.endY)
  }

  lemma ProgressiveByRatio(r: Row, beginning: real, end: real)
    requires r.x.Some? && r.y.Some? && r.endX.Some? && r.endY.Some?
    requires beginning >= 0.0 && end >= 0.0
    requires beginning * beginning == GoalDistanceSquared(r.x.value, r.y.value)
    requires end * end == GoalDistanceSquared(r.endX.value, r.endY.value)
    ensures IsProgressive(r) <==> beginning > 0.0 && end / beginning < 0.75
  {
    RatioTest(beginning, end, r.x.value, r.y.value, r.endX.value, r.endY.value);
  }

  function PassRows(doc: Document, t: seq<Row>): (rows: seq<PassRow>)
    ensures |rows| == |t|
    ensures forall i | 0 <= i < |t| :: rows[i] == PassRowOf(doc, t[i], IsProgressive(t[i]))
  {
    seq(|t|, i requires 0 <= i < |t| => PassRowOf(doc, t[i], IsProgressive(t[i])))
  }

  function ShotRows(doc: Document, t: seq<Row>): (rows: seq<ShotRow>)
    ensures |rows| == |t|
    ensures forall i | 0 <= i < |t| ::
              rows[i] == ShotRowOf(doc, t[i], ShotOutcome(t[i].rec.shotType.Nullable()))
  {
    seq(|t|, i requires 0 <= i < |t| => ShotRowOf(doc, t[i], ShotOutcome(t[i].rec.shotType.Nullable())))
  }

  /** The columns get_shotmap indexes, in the order it reads them. */
  const ShotColumns: seq<Column> := [PlyrId, AssBy, CtchBy, Type]

  method GetPasses(input: MatchInput, fetch: Fetch, allPasses: bool) returns (r: Result<seq<PassRow>>)
    ensures PassesInput(input, fetch, allPasses).Failure? ==>
              r == Failure(PassesInput(input, fetch, allPasses).error)
    ensures PassesInput(input, fetch, allPasses).Success? ==>
              var loaded := PassesInput(input, fetch, allPasses).value;
              exists t :: IsTimeline(t, Prepared(loaded.records, true)) &&
                r == Success(PassRows(loaded.doc, t))
  {
    var timed :- PassTimeline(input, fetch, allPasses);
    return Success(PassRows(timed.doc, timed.t));
  }

  method GetShotmap(input: MatchInput, fetch: Fetch) returns (r: Result<seq<ShotRow>>)
    ensures CategoryInput(input, fetch, "shots", true, ShotColumns).Failure? ==>
              r == Failure(CategoryInput(input, fetch, "shots", true, ShotColumns).error)
    ensures CategoryInput(input, fetch, "shots", true, ShotColumns).Success? ==>
              var loaded := CategoryInput(input, fetch, "shots", true, ShotColumns).value;
              exists t :: IsTimeline(t, Prepared(loaded.records, true)) &&
                r == Success(ShotRows(loaded.doc, t))
  {
    var timed :- CategoryTimeline(input, fetch, "shots", true, ShotColumns);
    return Success(ShotRows(timed.doc, timed.t));
  }

  method GetFouls(input: MatchInput, fetch: Fetch) returns (r: Result<seq<FoulRow>>)
    ensures CategoryInput(input, fetch, "fouls", false, [PlyrId, RecvId]).Failure? ==>
              r == Failure(CategoryInput(input, fetch, "fouls", false, [PlyrId, RecvId]).error)
    ensures CategoryInput(input, fetch, "fouls", false, [PlyrId, RecvId]).Success? ==>
              var loaded := CategoryInput(input, fetch, "fouls", false, [PlyrId, RecvId]).value;
              exists t :: IsTimeline(t, Prepared(loaded.records, false)) &&
                r == Success(FoulRows(loaded.doc, t))
  {
    var timed :- CategoryTimeline(input, fetch, "fouls", false, [PlyrId, RecvId]);
    return Success(FoulRows(timed.doc, timed.t));
  }

  method GetThrowin(input: MatchInput, fetch: Fetch) returns (r: Result<seq<SetPieceRow>>)
    ensures CategoryInput(input, fetch, "throwIn", true, [PlyrId]).Failure? ==>
              r == Failure(CategoryInput(input, fetch, "throwIn", true, [PlyrId]).error)
    ensures CategoryInput(input, fetch, "throwIn", true, [PlyrId]).Success? ==>
              var loaded := CategoryInput(input, fetch, "throwIn", true, [PlyrId]).value;
              exists t :: IsTimeline(t, Prepared(loaded.records, true)) &&
                r == Success(SetPieceRows(loaded.doc, t))
  {
    var timed :- CategoryTimeline(input, fetch, "throwIn", true, [PlyrId]);
    return Success(SetPieceRows(timed.doc, timed.t));
  }

  method GetCorners(input: MatchInput, fetch: Fetch) returns (r: Result<seq<SetPieceRow>>)
    ensures CategoryInput(input, fetch, "cornerKicks", true, [PlyrId]).Failure? ==>
              r == Failure(CategoryInput(input, fetch, "cornerKicks", true, [PlyrId]).error)
    ensures CategoryInput(input, fetch, "cornerKicks", true, [PlyrId]).Success? ==>
              var loaded := CategoryInput(input, fetch, "cornerKicks", true, [PlyrId]).value;
              exists t :: IsTimeline(t, Prepared(loaded.records, true)) &&
                r == Success(SetPieceRows(loaded.doc, t))
  {
    var timed :- CategoryTimeline(input, fetch, "cornerKicks", true, [PlyrId]);
    return Success(SetPieceRows(timed.doc, timed.t));
  }

  /** get_shotmap refuses a shot list in which no shot carries `assBy` (or
      `ctchBy`), which the newer get_shots accepts. */
  lemma ShotmapNeedsAssists(input: MatchInput, fetch: Fetch)
    requires ValidateInput(input, fetch).Success?
    requires "shots" in ValidateInput(input, fetch).value.incidences
    requires !HasColumn(ValidateInput(input, fetch).value.incidences["shots"], AssBy)
    ensures CategoryInput(input, fetch, "shots", true, ShotColumns).Failure?
  {
    assert ShotColumns[1] == AssBy;
  }
}
