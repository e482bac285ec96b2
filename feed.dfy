/** The raw match document as the upstream feed delivers it, and the failure
    values the pipeline can end with. Nothing here computes; every other module
    reads these shapes. */
module Feed {

  datatype Option<+T> = None | Some(value: T) {
    function GetOr(default: T): T {
      if Some? then value else default
    }
  }

  /** The two exceptions of datafactory/exceptions.py, and the Python errors
      the pipeline lets escape to its caller. */
  datatype Error =
    | InvalidMatchInput       // the input is neither a match document nor [league, match id]
    | MatchDoesntHaveInfo     // a pass request on a match without correct passes
    | KeyError(key: string)   // a missing dictionary key or DataFrame column
    | FetchFailed             // the HTTP collaborator could not deliver a document
    | EmptyBinning            // pandas' cut refuses a column with no values

  datatype Result<+T> = Success(value: T) | Failure(error: Error) {
    predicate IsFailure() { Failure? }

    function PropagateFailure<U>(): Result<U>
      requires Failure?
    {
      Failure(error)
    }

    function Extract(): T
      requires Success?
    {
      value
    }
  }

  /** One field of a raw record as pandas reads it into a frame: the key may be
      missing from the record (Absent), present with a JSON null (Null), or
      present with a value. Both Absent (in a column that other records have)
      and Null become NaN in the frame. */
  datatype Cell = Absent | Null | Val(v: int) {
    function Nullable(): Option<int> {
      if Val? then Some(v) else None
    }
  }

  /** A point `{x, y}` of the feed, normalised to [-1, 1]; a null component is None. */
  datatype Point = Point(x: Option<real>, y: Option<real>)

  /** The `coord` field: key "1" is the start of the action, key "2" its end,
      which some records do not carry. */
  datatype Coord = Coord(first: Point, second: Option<Point>)

  /** The `t` field: half, minute and second as the feed gives them. */
  datatype Clock = Clock(half: int, m: int, s: int)

  /** One record of an incidence category. Actor and target ids and the shot
      type code are cells because records differ in which keys they carry. */
  datatype Record = Record(
    team: int,
    coord: Coord,
    t: Clock,
    plyrId: Cell,
    recvId: Cell,
    assBy: Cell,
    ctchBy: Cell,
    shotType: Cell)

  /** `players[id]` and its `name` entry; missing keys are None. */
  datatype NameEntry = NameEntry(shortName: Option<string>)
  datatype Player = Player(name: Option<NameEntry>)

  /** The `match` entry of the document. */
  datatype MatchInfo = MatchInfo(
    homeTeamId: int,
    homeTeamName: string,
    awayTeamId: int,
    awayTeamName: string)

  /** A match document. `players` is keyed by the decimal string of the player
      id; each incidence category holds its records in the document's order
      (their record ids are never used). */
  datatype Document = Document(
    players: map<string, Player>,
    matchInfo: MatchInfo,
    incidences: map<string, seq<Record>>)

  /** The Python values that can stand in a list given as match input. */
  datatype PyValue = PyStr(s: string) | PyInt(i: int) | PyBool(b: bool) | PyOther

  /** What a caller may pass as `match_input`: a list, a dict holding a match
      document, or anything else. */
  datatype MatchInput =
    | ListInput(items: seq<PyValue>)
    | DictInput(doc: Document)
    | OtherInput

  /** The HTTP collaborator: league name and match id to a document or a failure. */
  type Fetch = (string, PyValue) -> Result<Document>
}
