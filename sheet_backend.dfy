/**
 * The spreadsheet behind GoogleSheetService, as far as the service can see it:
 * its sheets in index order (id, title, rows, whether the header is styled),
 * and one scripted outcome per API call. An empty script means every further
 * call succeeds. Each call is logged.
 */
module SheetBackend {
  import opened Wrappers
  import opened Text

  datatype Sheet = Sheet(id: int, title: string, rows: seq<seq<string>>, headerStyled: bool)

  /** What answering one API request gives: success, or an IOException with its message. */
  datatype CallOutcome = Done | Failed(message: string)

  /** One updateSheetProperties request that sets a sheet's index. */
  datatype IndexUpdate = IndexUpdate(sheetId: int, index: int)

  /** The API requests the service issues. */
  datatype Call =
    | GetSpreadsheet
    | AddSheetCall(title: string)
    | UpdateValues(title: string, row: seq<string>)
    | FormatHeader(sheetId: int)
    | GetValues(title: string)
    | AppendValues(title: string, row: seq<string>)
    | ReorderSheets(requests: seq<IndexUpdate>)

  function NextOutcome(script: seq<CallOutcome>): CallOutcome {
    if script == [] then Done else script[0]
  }

  function RestOutcomes(script: seq<CallOutcome>): seq<CallOutcome> {
    if script == [] then [] else script[1..]
  }

  function Titles(sheets: seq<Sheet>): (r: seq<string>)
    ensures |r| == |sheets| && forall i :: 0 <= i < |sheets| ==> r[i] == sheets[i].title
  {
    seq(|sheets|, i requires 0 <= i < |sheets| => sheets[i].title)
  }

  /** Titles are unique within a spreadsheet. */
  predicate DistinctTitles(sheets: seq<Sheet>) {
    forall i, j :: 0 <= i < j < |sheets| ==> sheets[i].title != sheets[j].title
  }

  /** The index of the sheet with this title, if there is one. */
  function FindTitle(sheets: seq<Sheet>, title: string): (r: Option<nat>)
    ensures r.Some? ==> r.value < |sheets| && sheets[r.value].title == title
    ensures r.None? <==> title !in Titles(sheets)
  {
    if sheets == [] then None
    else
      TitlesCons(sheets);
      if sheets[0].title == title then Some(0)
      else
        var r := FindTitle(sheets[1..], title);
        if r.Some? then Some(r.value + 1) else None
  }

  lemma TitlesCons(sheets: seq<Sheet>)
    requires sheets != []
    ensures Titles(sheets) == [sheets[0].title] + Titles(sheets[1..])
  {
    assert Titles(sheets) == [sheets[0].title] + Titles(sheets[1..]);
  }

  /** Row 1 overwritten by `row` (values.update of A1). */
  function WithFirstRow(rows: seq<seq<string>>, row: seq<string>): seq<seq<string>> {
    if rows == [] then [row] else [row] + rows[1..]
  }

  /**
   * values.get of C2:C: from the second row on, the third cell as a one-cell
   * row, or an empty row where it is blank.
   */
  function ColumnC(rows: seq<seq<string>>): (col: seq<seq<string>>)
    ensures |col| == if rows == [] then 0 else |rows| - 1
  {
    if |rows| <= 1 then []
    else seq(|rows| - 1, i requires 0 <= i < |rows| - 1 =>
               if |rows[i + 1]| > 2 && rows[i + 1][2] != "" then [rows[i + 1][2]] else [])
  }

  /** Titles are unique, and ids are unique and below the next id handed out. */
  predicate WellFormed(sheets: seq<Sheet>, nextId: int) {
    && DistinctTitles(sheets)
    && (forall i :: 0 <= i < |sheets| ==> sheets[i].id < nextId)
    && (forall i, j :: 0 <= i < j < |sheets| ==> sheets[i].id != sheets[j].id)
  }

  /** A sheet with a new title and the next id keeps the spreadsheet well formed. */
  lemma WellFormedAdd(sheets: seq<Sheet>, nextId: int, s: Sheet)
    requires WellFormed(sheets, nextId) && s.id == nextId && s.title !in Titles(sheets)
    ensures WellFormed(sheets + [s], nextId + 1)
  {
    var r := sheets + [s];
    forall i, j | 0 <= i < j < |r|
      ensures r[i].title != r[j].title && r[i].id != r[j].id
    {
      if j == |sheets| {
        assert Titles(sheets)[i] == r[i].title;
      }
    }
  }

  /** What the service's calls depend on: the sheets, the next id handed out, and the outcomes still scripted. */
  datatype BackendState = BackendState(sheets: seq<Sheet>, nextId: int, script: seq<CallOutcome>)

  class Spreadsheet {
    var sheets: seq<Sheet>
    var script: seq<CallOutcome>
    var nextId: int
    var log: seq<Call>

    constructor (sheets: seq<Sheet>, script: seq<CallOutcome>, nextId: int)
      ensures this.sheets == sheets && this.script == script && this.nextId == nextId && log == []
    {
      this.sheets := sheets;
      this.script := script;
      this.nextId := nextId;
      log := [];
    }

    predicate Valid()
      reads this
    {
      WellFormed(sheets, nextId)
    }

    function State(): BackendState
      reads this
    {
      BackendState(sheets, nextId, script)
    }

    /** Consume the outcome of one request and log it. */
    method Answer(c: Call) returns (outcome: CallOutcome)
      modifies this
      ensures outcome == NextOutcome(old(script)) && script == RestOutcomes(old(script))
      ensures log == old(log) + [c]
      ensures sheets == old(sheets) && nextId == old(nextId)
    {
      outcome := NextOutcome(script);
      script := RestOutcomes(script);
      log := log + [c];
    }

    /** spreadsheets.get: the sheets and their properties. */
    method GetSheets() returns (r: Result<seq<Sheet>>)
      modifies this
      ensures script == RestOutcomes(old(script)) && log == old(log) + [GetSpreadsheet]
      ensures sheets == old(sheets) && nextId == old(nextId)
      ensures NextOutcome(old(script)).Done? ==> r == Ok(sheets)
      ensures NextOutcome(old(script)).Failed? ==> r == Err(NextOutcome(old(script)).message)
    {
      var outcome := Answer(GetSpreadsheet);
      if outcome.Failed? {
        return Err(outcome.message);
      }
      return Ok(sheets);
    }

    /** batchUpdate with an addSheet request: a new empty sheet at the end, with a fresh id. */
    method AddSheet(title: string) returns (r: Result<int>)
      modifies this
      ensures script == RestOutcomes(old(script)) && log == old(log) + [AddSheetCall(title)]
      ensures var ok := NextOutcome(old(script)).Done? && title !in Titles(old(sheets));
              && (ok ==> r == Ok(old(nextId)) && sheets == old(sheets) + [Sheet(old(nextId), title, [], false)]
                         && nextId == old(nextId) + 1)
              && (!ok ==> r.Err? && sheets == old(sheets) && nextId == old(nextId))
      ensures NextOutcome(old(script)).Failed? ==> r == Err(NextOutcome(old(script)).message)
      ensures old(Valid()) ==> Valid()
    {
      var outcome := Answer(AddSheetCall(title));
      if outcome.Failed? {
        return Err(outcome.message);
      }
      if FindTitle(sheets, title).Some? {
        return Err("400 A sheet with the name already exists");
      }
      r := Ok(nextId);
      sheets := sheets + [Sheet(nextId, title, [], false)];
      nextId := nextId + 1;
    }

    /** values.update of <title>!A1 with one row. */
    method UpdateFirstRow(title: string, row: seq<string>) returns (r: Status)
      modifies this
      ensures script == RestOutcomes(old(script)) && log == old(log) + [UpdateValues(title, row)]
      ensures nextId == old(nextId)
      ensures var k := FindTitle(old(sheets), title);
              var ok := NextOutcome(old(script)).Done? && k.Some?;
              && (ok ==> r.Success? && sheets == old(sheets)[k.value := old(sheets)[k.value].(rows := WithFirstRow(old(sheets)[k.value].rows, row))])
              && (!ok ==> r.Failure? && sheets == old(sheets))
      ensures NextOutcome(old(script)).Failed? ==> r == Failure(NextOutcome(old(script)).message)
      ensures old(Valid()) ==> Valid()
    {
      var outcome := Answer(UpdateValues(title, row));
      if outcome.Failed? {
        return Failure(outcome.message);
      }
      var k := FindTitle(sheets, title);
      if k.None? {
        return Failure("400 Unable to parse range");
      }
      sheets := sheets[k.value := sheets[k.value].(rows := WithFirstRow(sheets[k.value].rows, row))];
      return Success;
    }

    /** batchUpdate with a repeatCell request over row 1 of the sheet with this id. */
    method StyleHeader(sheetId: int) returns (r: Status)
      modifies this
      ensures script == RestOutcomes(old(script)) && log == old(log) + [FormatHeader(sheetId)]
      ensures nextId == old(nextId) && |sheets| == |old(sheets)|
      ensures NextOutcome(old(script)).Failed? ==> r == Failure(NextOutcome(old(script)).message) && sheets == old(sheets)
      ensures NextOutcome(old(script)).Done? ==>
                r.Success? &&
                forall i :: 0 <= i < |sheets| ==>
                  sheets[i] == if old(sheets)[i].id == sheetId then old(sheets)[i].(headerStyled := true) else old(sheets)[i]
    {
      var outcome := Answer(FormatHeader(sheetId));
      if outcome.Failed? {
        return Failure(outcome.message);
      }
      var before := sheets;
      sheets := seq(|before|, i requires 0 <= i < |before| =>
                      if before[i].id == sheetId then before[i].(headerStyled := true) else before[i]);
      return Success;
    }

    /** values.get of <title>!C2:C. */
    method GetUrlColumn(title: string) returns (r: Result<seq<seq<string>>>)
      modifies this
      ensures script == RestOutcomes(old(script)) && log == old(log) + [GetValues(title)]
      ensures sheets == old(sheets) && nextId == old(nextId)
      ensures r == GetOutcome(NextOutcome(old(script)), sheets, title)
    {
      var outcome := Answer(GetValues(title));
      if outcome.Failed? {
        return Err(outcome.message);
      }
      var k := FindTitle(sheets, title);
      if k.None? {
        return Err("400 Unable to parse range");
      }
      return Ok(ColumnC(sheets[k.value].rows));
    }

    /** values.append to <title>!A1: the row goes after the last row. */
    method AppendRow(title: string, row: seq<string>) returns (r: Status)
      modifies this
      ensures script == RestOutcomes(old(script)) && log == old(log) + [AppendValues(title, row)]
      ensures nextId == old(nextId)
      ensures r == AppendOutcome(NextOutcome(old(script)), old(sheets), title)
      ensures sheets == AppendEffect(r, old(sheets), title, row)
      ensures old(Valid()) ==> Valid()
    {
      var outcome := Answer(AppendValues(title, row));
      if outcome.Failed? {
        return Failure(outcome.message);
      }
      var k := FindTitle(sheets, title);
      if k.None? {
        return Failure("400 Unable to parse range");
      }
      sheets := sheets[k.value := sheets[k.value].(rows := sheets[k.value].rows + [row])];
      return Success;
    }

    /** batchUpdate with the index updates; only the request is recorded. */
    method Reorder(requests: seq<IndexUpdate>) returns (r: Status)
      modifies this
      ensures script == RestOutcomes(old(script)) && log == old(log) + [ReorderSheets(requests)]
      ensures sheets == old(sheets) && nextId == old(nextId)
      ensures r.Success? <==> NextOutcome(old(script)).Done?
      ensures r.Failure? ==> r.error == NextOutcome(old(script)).message
    {
      var outcome := Answer(ReorderSheets(requests));
      if outcome.Failed? {
        return Failure(outcome.message);
      }
      return Success;
    }
  }

  /** The answer to values.get: the request's failure, a missing sheet, or the sheet's URL column. */
  function GetOutcome(outcome: CallOutcome, sheets: seq<Sheet>, title: string): Result<seq<seq<string>>> {
    if outcome.Failed? then Err(outcome.message)
    else match FindTitle(sheets, title)
      case None => Err("400 Unable to parse range")
      case Some(k) => Ok(ColumnC(sheets[k].rows))
  }

  /** The answer to values.append. */
  function AppendOutcome(outcome: CallOutcome, sheets: seq<Sheet>, title: string): Status {
    if outcome.Failed? then Failure(outcome.message)
    else if FindTitle(sheets, title).None? then Failure("400 Unable to parse range")
    else Success
  }

  /** The sheets after a row is appended to the sheet with this title. */
  function AppendedTo(sheets: seq<Sheet>, title: string, row: seq<string>): seq<Sheet> {
    match FindTitle(sheets, title)
    case None => sheets
    case Some(k) => sheets[k := sheets[k].(rows := sheets[k].rows + [row])]
  }

  /** The sheets after values.append answered `r`. */
  function AppendEffect(r: Status, sheets: seq<Sheet>, title: string, row: seq<string>): seq<Sheet> {
    if r.Failure? then sheets else AppendedTo(sheets, title, row)
  }
}
