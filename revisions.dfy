/** How the two revisions relate: the newer one changes the goal rule, makes
    the progressive flag require a receiver, and reads the optional shot
    columns only when present; everything else is computed alike. */
module Revisions {
  import opened Feed
  import opened Normalize
  import opened Tables
  import opened Categories
  import Newer = DataFactoryFC
  import Older = DataFactory

  /** The goal rules disagree on exactly the codes 10 and 12, which the newer
      revision counts as goals and the older as misses. */
  lemma OutcomesDiffer(shotType: Option<int>)
    ensures Newer.ShotOutcome(shotType) != Older.ShotOutcome(shotType) <==>
              shotType == Some(10) || shotType == Some(12)
    ensures Newer.ShotOutcome(shotType) != Older.ShotOutcome(shotType) ==>
              Newer.ShotOutcome(shotType) == Goal && Older.ShotOutcome(shotType) == Missed
  {
  }

  /** The newer flag is the older flag restricted to passes with a receiver. */
  lemma ProgressiveRefines(r: Row)
    ensures Newer.IsProgressive(r) <==> Older.IsProgressive(r) && r.rec.recvId.Val?
  {
  }

  /** Row for row, the newer pass table is the older one with the flag
      cleared on every pass without a receiver. */
  lemma PassTablesAgree(doc: Document, t: seq<Row>)
    ensures var newer := Newer.PassRows(doc, t);
            var older := Older.PassRows(doc, t);
            |newer| == |older| &&
            forall i | 0 <= i < |t| ::
              newer[i] == older[i].(isProgressive := older[i].isProgressive && older[i].receiverId.Some?)
  {
  }

  /** Row for row, the shot tables differ in the outcome only. */
  lemma ShotTablesAgree(doc: Document, t: seq<Row>)
    ensures var newer := Newer.ShotRows(doc, t);
            var older := Older.ShotRows(doc, t);
            |newer| == |older| &&
            forall i | 0 <= i < |t| ::
              newer[i] == older[i].(outcome := Newer.ShotOutcome(t[i].rec.shotType.Nullable()))
  {
  }

  /** Every shot list the older get_shotmap accepts, the newer get_shots
      accepts too, with the same records. */
  lemma ShotInputsWiden(input: MatchInput, fetch: Fetch)
    requires CategoryInput(input, fetch, "shots", true, Older.ShotColumns).Success?
    ensures CategoryInput(input, fetch, "shots", true, [PlyrId, Type]) ==
            CategoryInput(input, fetch, "shots", true, Older.ShotColumns)
  {
    var older := CategoryInput(input, fetch, "shots", true, Older.ShotColumns).value;
    assert HasColumn(older.records, Older.ShotColumns[0]);
    assert HasColumn(older.records, Older.ShotColumns[3]);
    assert Admitted(older.records, true, [PlyrId, Type]);
  }

  /** A pass to nobody from the centre spot towards goal: progressive in the
      older revision only. */
  lemma UnreceivedPass()
    ensures var r := Prepared([Newer.CentrePass(1).(recvId := Null)], true)[0];
            Older.IsProgressive(r) && !Newer.IsProgressive(r)
  {
  }
}
