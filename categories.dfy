/** How each get_* operation obtains its records and which of its checks they
    must pass before any row is built. Both revisions read the categories the
    same way; they differ only in the columns the shot operation indexes, which
    is why the columns are a parameter. */
module Categories {
  import opened Feed
  import opened Normalize

  /** The document an operation works on and the records it turns into rows. */
  datatype Loaded = Loaded(doc: Document, records: seq<Record>)

  /** The pass records: `correctPasses`, which must be present and non-empty,
      followed with `all_passes` by `incorrectPasses`, which may be missing. */
  function PassRecords(doc: Document, allPasses: bool): (r: Result<seq<Record>>)
    ensures r.Failure? <==> IncidencesOrEmpty(doc, "correctPasses") == []
    ensures r.Failure? ==> r.error == MatchDoesntHaveInfo
    ensures r.Success? ==>
              var correct := IncidencesOrEmpty(doc, "correctPasses");
              var incorrect := IncidencesOrEmpty(doc, "incorrectPasses");
              |r.value| == |correct| + (if allPasses then |incorrect| else 0) &&
              r.value[..|correct|] == correct &&
              (allPasses ==> r.value[|correct|..] == incorrect)
  {
    var correct := IncidencesOrEmpty(doc, "correctPasses");
    if correct == [] then Failure(MatchDoesntHaveInfo)
    else if allPasses then
      var all := correct + IncidencesOrEmpty(doc, "incorrectPasses");
      assert all[..|correct|] == correct;
      Success(all)
    else Success(correct)
  }

  /** The records survive the coordinate normaliser and every column the
      operation indexes directly. */
  predicate Admitted(records: seq<Record>, hasEnd: bool, columns: seq<Column>) {
    |records| > 0 && (hasEnd ==> EndPointsPresent(records)) &&
    forall k | 0 <= k < |columns| :: HasColumn(records, columns[k])
  }

  /** get_passes up to its first derived column: the input, the pass records,
      the coordinates and the columns `plyrId` and `recvId`. */
  function PassesInput(input: MatchInput, fetch: Fetch, allPasses: bool): (r: Result<Loaded>)
    ensures ValidateInput(input, fetch).Failure? ==> r == Failure(ValidateInput(input, fetch).error)
    ensures ValidateInput(input, fetch).Success? &&
            IncidencesOrEmpty(ValidateInput(input, fetch).value, "correctPasses") == [] ==>
              r == Failure(MatchDoesntHaveInfo)
    ensures r.Success? ==>
              ValidateInput(input, fetch) == Success(r.value.doc) &&
              PassRecords(r.value.doc, allPasses) == Success(r.value.records) &&
              Admitted(r.value.records, true, [PlyrId, RecvId])
    ensures r.Failure? && ValidateInput(input, fetch).Success? &&
            IncidencesOrEmpty(ValidateInput(input, fetch).value, "correctPasses") != [] ==>
              r.error in {KeyError("2"), KeyError("plyrId"), KeyError("recvId")}
    ensures ValidateInput(input, fetch).Success? &&
            PassRecords(ValidateInput(input, fetch).value, allPasses).Success? ==>
              (r.Success? <==>
                 Admitted(PassRecords(ValidateInput(input, fetch).value, allPasses).value, true, [PlyrId, RecvId]))
  {
    var doc :- ValidateInput(input, fetch);
    var records :- PassRecords(doc, allPasses);
    var admitted :- Admit(records, true, [PlyrId, RecvId]);
    Success(Loaded(doc, admitted))
  }

  /** Every other operation: `data['incidences'][key]`, which must be present,
      then the coordinates and the columns the operation indexes. */
  function CategoryInput(input: MatchInput, fetch: Fetch, key: string, hasEnd: bool, columns: seq<Column>): (r: Result<Loaded>)
    ensures ValidateInput(input, fetch).Failure? ==> r == Failure(ValidateInput(input, fetch).error)
    ensures ValidateInput(input, fetch).Success? && key !in ValidateInput(input, fetch).value.incidences ==>
              r == Failure(KeyError(key))
    ensures r.Success? ==>
              ValidateInput(input, fetch) == Success(r.value.doc) &&
              key in r.value.doc.incidences && r.value.records == r.value.doc.incidences[key] &&
              Admitted(r.value.records, hasEnd, columns)
    ensures ValidateInput(input, fetch).Success? && key in ValidateInput(input, fetch).value.incidences ==>
              var records := ValidateInput(input, fetch).value.incidences[key];
              (r.Success? <==> Admitted(records, hasEnd, columns)) &&
              (|records| == 0 ==> r == Failure(KeyError("coord")))
  {
    var doc :- ValidateInput(input, fetch);
    var records :- Incidences(doc, key);
    var admitted :- Admit(records, hasEnd, columns);
    Success(Loaded(doc, admitted))
  }

  /** A document and the timeline both normalisers have made of its records. */
  datatype Timed = Timed(doc: Document, t: seq<Row>)

  /** get_passes up to its first derived column, in the order it runs:
      input, pass records, the two normalisers, then the columns it indexes. */
  method PassTimeline(input: MatchInput, fetch: Fetch, allPasses: bool) returns (r: Result<Timed>)
    ensures PassesInput(input, fetch, allPasses).Failure? ==>
              r == Failure(PassesInput(input, fetch, allPasses).error)
    ensures PassesInput(input, fetch, allPasses).Success? ==>
              var loaded := PassesInput(input, fetch, allPasses).value;
              r.Success? && r.value.doc == loaded.doc &&
              IsTimeline(r.value.t, Prepared(loaded.records, true))
  {
    var doc :- ValidateInput(input, fetch);
    var records :- PassRecords(doc, allPasses);
    var t :- Prepare(records, true);
    var missing := MissingColumn(records, [PlyrId, RecvId]);
    if missing.Some? {
      return Failure(KeyError(missing.value.Name()));
    }
    return Success(Timed(doc, t));
  }

  /** The same for every other category. */
  method CategoryTimeline(input: MatchInput, fetch: Fetch, key: string, hasEnd: bool, columns: seq<Column>)
    returns (r: Result<Timed>)
    ensures CategoryInput(input, fetch, key, hasEnd, columns).Failure? ==>
              r == Failure(CategoryInput(input, fetch, key, hasEnd, columns).error)
    ensures CategoryInput(input, fetch, key, hasEnd, columns).Success? ==>
              var loaded := CategoryInput(input, fetch, key, hasEnd, columns).value;
              r.Success? && r.value.doc == loaded.doc &&
              IsTimeline(r.value.t, Prepared(loaded.records, hasEnd))
  {
    var doc :- ValidateInput(input, fetch);
    var records :- Incidences(doc, key);
    var t :- Prepare(records, hasEnd);
    var missing := MissingColumn(records, columns);
    if missing.Some? {
      return Failure(KeyError(missing.value.Name()));
    }
    return Success(Timed(doc, t));
  }
}
