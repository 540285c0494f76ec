/**
 * ExcelReader: the data-driven tests read their rows from a workbook sheet.
 * The workbook is given as a value (a map holding, for each sheet name the
 * tests ask for, the sheet Workbook.getSheet answers with; None when the
 * file cannot be opened); a sheet is a sequence of optional rows and a row a
 * sequence of optional cells, exactly as POI hands out null for a row or a
 * cell that is not there. The first row holds the column headers.
 */
module Excel {
  import opened JavaText

  /** A cell by its POI type. */
  datatype Cell =
    | StringCell(text: string)
    | Numeric(value: int, dateText: Option<string>)   // an integral value; the Date's text when date-formatted
    | BooleanCell(flag: bool)
    | FormulaCell(formula: string, cachedText: Option<string>)  // the cached result when it is a string
    | BlankCell
    | ErrorCell

  /** Row.getCell(j) is cells[j]; None is a cell the row does not have. */
  datatype Row = Row(cells: seq<Option<Cell>>)

  /** Sheet.getRow(i) is rows[i]; None is a row the sheet does not have. */
  datatype Sheet = Sheet(rows: seq<Option<Row>>)

  /** Workbook.getSheet: the sheet found for a queried name; a name not in the map finds none. */
  type Workbook = map<string, Sheet>

  /** The index of the last present element, or -1 when there is none. */
  function LastPresent<T>(s: seq<Option<T>>): (r: int)
    ensures -1 <= r < |s|
    ensures r >= 0 ==> s[r].Some?
    ensures forall k :: r < k < |s| ==> s[k].None?
  {
    if |s| == 0 then -1
    else if s[|s| - 1].Some? then |s| - 1
    else LastPresent(s[..|s| - 1])
  }

  /** Sheet.getLastRowNum: the 0-based index of the last row, -1 for an empty sheet. */
  function LastRowNum(sheet: Sheet): int {
    LastPresent(sheet.rows)
  }

  /** Row.getLastCellNum: one past the index of the last cell, -1 for a row without cells. */
  function LastCellNum(row: Row): int {
    var last := LastPresent(row.cells);
    if last < 0 then -1 else last + 1
  }

  function GetRow(sheet: Sheet, i: int): Option<Row> {
    if 0 <= i < |sheet.rows| then sheet.rows[i] else None
  }

  function GetCell(row: Row, j: int): Option<Cell> {
    if 0 <= j < |row.cells| then row.cells[j] else None
  }

  /** The cell at row i, column j; None when either is missing. */
  function CellAt(sheet: Sheet, i: int, j: int): Option<Cell> {
    match GetRow(sheet, i)
    case None => None
    case Some(row) => GetCell(row, j)
  }

  /**
   * getCellValue: the text of any cell. A missing cell, a blank and an error
   * cell all read as "", a formula as its formula text rather than its
   * value, a date-formatted number as the Date's text; a plain number and a
   * boolean are written so that Integer.parseInt and Boolean.parseBoolean
   * read the value back.
   */
  function CellValue(cell: Option<Cell>): (r: string)
    ensures cell.None? || cell.value.BlankCell? || cell.value.ErrorCell? ==> r == ""
    ensures cell.Some? && cell.value.StringCell? ==> r == cell.value.text
    ensures cell.Some? && cell.value.FormulaCell? ==> r == cell.value.formula
    ensures cell.Some? && cell.value.Numeric? && cell.value.dateText.Some? ==> r == cell.value.dateText.value
    ensures cell.Some? && cell.value.Numeric? && cell.value.dateText.None? ==> r == DecimalString(cell.value.value)
    ensures cell.Some? && cell.value.BooleanCell? ==> r == BoolString(cell.value.flag)
    ensures cell.Some? && cell.value.Numeric? && cell.value.dateText.None? && IsInt32(cell.value.value) ==>
              ParseInt(r) == Ok(cell.value.value)
    ensures cell.Some? && cell.value.BooleanCell? ==> ParseBoolean(r) == cell.value.flag
  {
    match cell
    case None => ""
    case Some(StringCell(text)) => text
    case Some(Numeric(value, dateText)) =>
      (match dateText
       case Some(d) => d
       case None => if IsInt32(value) then ParseIntRoundTrip(value); DecimalString(value) else DecimalString(value))
    case Some(BooleanCell(flag)) => BoolString(flag)
    case Some(FormulaCell(formula, _)) => formula
    case Some(BlankCell) => ""
    case Some(ErrorCell) => ""
  }

  /**
   * Cell.getStringCellValue on a header cell: a missing cell is a null
   * dereference, a blank reads as "", a formula gives its cached string
   * result, and any other type is the wrong type for the call.
   */
  function HeaderKey(cell: Option<Cell>): (r: Result<string, Exception>)
    ensures cell.None? ==> r == Err(NullPointer)
    ensures r.Ok? <==> cell.Some? && (cell.value.StringCell? || cell.value.BlankCell? ||
                                      (cell.value.FormulaCell? && cell.value.cachedText.Some?))
    ensures r.Err? && cell.Some? ==> r.error == IllegalState
    ensures cell.Some? && cell.value.StringCell? ==> r == Ok(cell.value.text)
    ensures cell.Some? && cell.value.BlankCell? ==> r == Ok("")
    ensures cell.Some? && cell.value.FormulaCell? && cell.value.cachedText.Some? ==>
              r == Ok(cell.value.cachedText.value)
  {
    match cell
    case None => Err(NullPointer)
    case Some(StringCell(text)) => Ok(text)
    case Some(BlankCell) => Ok("")
    case Some(FormulaCell(_, cached)) =>
      (match cached
       case Some(text) => Ok(text)
       case None => Err(IllegalState))
    case Some(_) => Err(IllegalState)
  }

  // --------------------------------------------------------- getTestData

  /** A data row 1..rowCount that the sheet does not have. */
  predicate MissingDataRow(sheet: Sheet, rowCount: int) {
    exists i :: 1 <= i <= rowCount && GetRow(sheet, i).None?
  }

  /**
   * What getTestData ends with on an opened sheet: the table's dimensions,
   * or the exception that escapes. A missing header row is a null
   * dereference, a header row without cells a negative array size, and a
   * missing data row a null dereference once there is a column to read.
   */
  function TableShape(sheet: Sheet): (r: Result<(nat, nat), Exception>)
    ensures r.Ok? ==> GetRow(sheet, 0).Some?
    ensures r.Ok? ==> r.value.0 == LastRowNum(sheet) && r.value.1 == LastCellNum(GetRow(sheet, 0).value)
  {
    match GetRow(sheet, 0)
    case None => Err(NullPointer)
    case Some(header) =>
      var rowCount := LastRowNum(sheet);
      var colCount := LastCellNum(header);
      assert sheet.rows[0].Some?;
      if colCount < 0 then Err(NegativeArraySize)
      else if colCount > 0 && MissingDataRow(sheet, rowCount) then Err(NullPointer)
      else Ok((rowCount, colCount))
  }

  /**
   * getTestData: a table of lastRowNum rows by the header row's cell count,
   * whose entry [i, j] is the text of the sheet's cell at row i + 1,
   * column j; the header row is not part of it. An unreadable file gives
   * null (None); a missing sheet and the shapes TableShape rejects throw.
   */
  method GetTestData(file: Option<Workbook>, sheetName: string)
    returns (r: Result<Option<array2<string>>, Exception>)
    ensures file.None? ==> r == Ok(None)
    ensures file.Some? && sheetName !in file.value ==> r == Err(NullPointer)
    ensures file.Some? && sheetName in file.value ==>
              (r.Err? <==> TableShape(file.value[sheetName]).Err?) &&
              (r.Err? ==> r.error == TableShape(file.value[sheetName]).error)
    ensures file.Some? && sheetName in file.value && r.Ok? ==>
              r.value.Some? &&
              r.value.value.Length0 == TableShape(file.value[sheetName]).value.0 &&
              r.value.value.Length1 == TableShape(file.value[sheetName]).value.1 &&
              forall i, j :: 0 <= i < r.value.value.Length0 && 0 <= j < r.value.value.Length1 ==>
                r.value.value[i, j] == CellValue(CellAt(file.value[sheetName], i + 1, j))
  {
    if file.None? {
      return Ok(None);
    }
    if sheetName !in file.value {
      return Err(NullPointer);
    }
    var sheet := file.value[sheetName];
    var rowCount := LastRowNum(sheet);
    var header := GetRow(sheet, 0);
    if header.None? {
      return Err(NullPointer);
    }
    assert sheet.rows[0].Some?;
    var colCount := LastCellNum(header.value);
    if colCount < 0 {
      return Err(NegativeArraySize);
    }
    var data := new string[rowCount, colCount];
    var i := 1;
    while i <= rowCount
      invariant 1 <= i <= rowCount + 1
      invariant colCount > 0 ==> forall k :: 1 <= k < i ==> GetRow(sheet, k).Some?
      invariant forall k, j :: 1 <= k < i && 0 <= j < colCount ==>
                  data[k - 1, j] == CellValue(CellAt(sheet, k, j))
    {
      var row := GetRow(sheet, i);
      if row.None? {
        if colCount > 0 {
          // row.getCell(0) on a missing row, before anything of it is written
          assert MissingDataRow(sheet, rowCount);
          return Err(NullPointer);
        }
      } else {
        FillRow(data, row.value, i);
      }
      i := i + 1;
    }
    assert colCount > 0 ==> !MissingDataRow(sheet, rowCount);
    r := Ok(Some(data));
  }

  /** The inner loop of getTestData: the cells of a row become data[i - 1, ..]; no other row changes. */
  method FillRow(data: array2<string>, row: Row, i: nat)
    requires 1 <= i <= data.Length0
    modifies data
    ensures forall k, c :: 0 <= k < data.Length0 && k != i - 1 && 0 <= c < data.Length1 ==>
              data[k, c] == old(data[k, c])
    ensures forall c :: 0 <= c < data.Length1 ==> data[i - 1, c] == CellValue(GetCell(row, c))
  {
    var j := 0;
    while j < data.Length1
      invariant 0 <= j <= data.Length1
      invariant forall k, c :: 0 <= k < data.Length0 && k != i - 1 && 0 <= c < data.Length1 ==>
                  data[k, c] == old(data[k, c])
      invariant forall c :: 0 <= c < j ==> data[i - 1, c] == CellValue(GetCell(row, c))
    {
      data[i - 1, j] := CellValue(GetCell(row, j));
      j := j + 1;
    }
  }

  // ---------------------------------------------------- getTestDataAsMap

  /** HashMap.put for each pair in turn: a key put again keeps the later value. */
  function ToMap(pairs: seq<(string, string)>): map<string, string> {
    if pairs == [] then map[]
    else ToMap(pairs[..|pairs| - 1])[pairs[|pairs| - 1].0 := pairs[|pairs| - 1].1]
  }

  /** The map has exactly the keys of the pairs. */
  lemma {:induction false} ToMapKeys(pairs: seq<(string, string)>)
    ensures forall k :: k in ToMap(pairs) <==> exists j :: 0 <= j < |pairs| && pairs[j].0 == k
  {
    if pairs != [] {
      var init := pairs[..|pairs| - 1];
      ToMapKeys(init);
      assert ToMap(pairs) == ToMap(init)[pairs[|pairs| - 1].0 := pairs[|pairs| - 1].1];
      forall k | k in ToMap(pairs)
        ensures exists j :: 0 <= j < |pairs| && pairs[j].0 == k
      {
        if k != pairs[|pairs| - 1].0 {
          assert k in ToMap(init);
          var j :| 0 <= j < |init| && init[j].0 == k;
          assert pairs[j].0 == k;
        }
      }
      forall k | exists j :: 0 <= j < |pairs| && pairs[j].0 == k
        ensures k in ToMap(pairs)
      {
        var j :| 0 <= j < |pairs| && pairs[j].0 == k;
        if j < |init| {
          assert init[j].0 == k;
        }
      }
    }
  }

  /** With a repeated key the pair put last wins. */
  lemma {:induction false} LaterPairWins(pairs: seq<(string, string)>, j: nat)
    requires j < |pairs|
    requires forall l :: j < l < |pairs| ==> pairs[l].0 != pairs[j].0
    ensures pairs[j].0 in ToMap(pairs) && ToMap(pairs)[pairs[j].0] == pairs[j].1
  {
    if j < |pairs| - 1 {
      var init := pairs[..|pairs| - 1];
      assert init[j] == pairs[j];
      LaterPairWins(init, j);
    }
  }

  /**
   * The pairs put for columns 0..n-1 of one data row, in column order:
   * the header cell's text and the row cell's text. The first exception
   * stops the row: the header cell is read before the row is touched.
   */
  function RowPairs(header: Row, row: Option<Row>, n: nat): (r: Result<seq<(string, string)>, Exception>)
    ensures r.Ok? ==> |r.value| == n
  {
    if n == 0 then Ok([])
    else
      match RowPairs(header, row, n - 1)
      case Err(e) => Err(e)
      case Ok(pairs) =>
        match HeaderKey(GetCell(header, n - 1))
        case Err(e) => Err(e)
        case Ok(key) =>
          match row
          case None => Err(NullPointer)
          case Some(cells) => Ok(pairs + [(key, CellValue(GetCell(cells, n - 1)))])
  }

  /** Pair j of a row that was read whole comes from header cell j and row cell j. */
  lemma {:induction false} RowPairsAt(header: Row, row: Option<Row>, n: nat, j: nat)
    requires RowPairs(header, row, n).Ok? && j < n
    ensures HeaderKey(GetCell(header, j)) == Ok(RowPairs(header, row, n).value[j].0)
    ensures row.Some? && RowPairs(header, row, n).value[j].1 == CellValue(GetCell(row.value, j))
  {
    if j < n - 1 {
      RowPairsAt(header, row, n - 1, j);
    }
  }

  /** The number of columns the inner loop visits: getLastCellNum, none when it is -1. */
  function ColumnCount(header: Row): nat {
    var n := LastCellNum(header);
    if n < 0 then 0 else n
  }

  /** The maps for data rows 1..count, in row order; a missing header row throws. */
  function RowMaps(sheet: Sheet, count: nat): (r: Result<seq<map<string, string>>, Exception>)
    ensures r.Ok? ==> |r.value| == count
  {
    if count == 0 then Ok([])
    else
      match RowMaps(sheet, count - 1)
      case Err(e) => Err(e)
      case Ok(maps) =>
        match GetRow(sheet, 0)
        case None => Err(NullPointer)
        case Some(header) =>
          match RowPairs(header, GetRow(sheet, count), ColumnCount(header))
          case Err(e) => Err(e)
          case Ok(pairs) => Ok(maps + [ToMap(pairs)])
  }

  /** Once a row throws, the whole row fails with that exception. */
  lemma {:induction false} RowPairsErrorPersists(header: Row, row: Option<Row>, m: nat, n: nat)
    requires m <= n && RowPairs(header, row, m).Err?
    ensures RowPairs(header, row, n) == RowPairs(header, row, m)
    decreases n
  {
    if m < n {
      RowPairsErrorPersists(header, row, m, n - 1);
    }
  }

  /** Once a row throws, the whole read fails with that exception. */
  lemma {:induction false} RowMapsErrorPersists(sheet: Sheet, m: nat, n: nat)
    requires m <= n && RowMaps(sheet, m).Err?
    ensures RowMaps(sheet, n) == RowMaps(sheet, m)
    decreases n
  {
    if m < n {
      RowMapsErrorPersists(sheet, m, n - 1);
    }
  }

  /** The rows getTestDataAsMap visits: 1..lastRowNum. */
  function DataRowCount(sheet: Sheet): nat {
    var last := LastRowNum(sheet);
    if last < 1 then 0 else last
  }

  /** What getTestDataAsMap returns: an unreadable file gives the empty list. */
  function TestDataAsMap(file: Option<Workbook>, sheetName: string): (r: Result<seq<map<string, string>>, Exception>)
    ensures file.None? ==> r == Ok([])
    ensures file.Some? && sheetName !in file.value ==> r == Err(NullPointer)
  {
    match file
    case None => Ok([])
    case Some(book) =>
      if sheetName !in book then Err(NullPointer)
      else RowMaps(book[sheetName], DataRowCount(book[sheetName]))
  }

  /**
   * Each map of RowMaps is the one built from its row: entry i belongs to
   * sheet row i + 1 and holds what that row's pairs put.
   */
  lemma {:induction false} RowMapsAt(sheet: Sheet, count: nat, i: nat)
    requires RowMaps(sheet, count).Ok? && i < count
    ensures GetRow(sheet, 0).Some?
    ensures RowPairs(GetRow(sheet, 0).value, GetRow(sheet, i + 1), ColumnCount(GetRow(sheet, 0).value)).Ok?
    ensures RowMaps(sheet, count).value[i]
         == ToMap(RowPairs(GetRow(sheet, 0).value, GetRow(sheet, i + 1), ColumnCount(GetRow(sheet, 0).value)).value)
  {
    if i < count - 1 {
      RowMapsAt(sheet, count - 1, i);
    }
  }

  /**
   * getTestDataAsMap on a readable sheet: one map per data row, in row
   * order; each map's keys are exactly the header texts, and the value
   * under the header of column j is that row's cell j unless a later
   * column has the same header.
   */
  lemma RowMapContents(sheet: Sheet, i: nat, j: nat)
    requires RowMaps(sheet, DataRowCount(sheet)).Ok? && i < DataRowCount(sheet)
    ensures |RowMaps(sheet, DataRowCount(sheet)).value| == DataRowCount(sheet)
    ensures GetRow(sheet, 0).Some?
    ensures ColumnCount(GetRow(sheet, 0).value) > 0 ==> GetRow(sheet, i + 1).Some?
    ensures forall k :: k in RowMaps(sheet, DataRowCount(sheet)).value[i] <==>
              exists c :: 0 <= c < ColumnCount(GetRow(sheet, 0).value) &&
                          HeaderKey(GetCell(GetRow(sheet, 0).value, c)) == Ok(k)
    ensures j < ColumnCount(GetRow(sheet, 0).value) &&
            (forall l :: j < l < ColumnCount(GetRow(sheet, 0).value) ==>
               HeaderKey(GetCell(GetRow(sheet, 0).value, l)) != HeaderKey(GetCell(GetRow(sheet, 0).value, j)))
            ==>
            HeaderKey(GetCell(GetRow(sheet, 0).value, j)).Ok? &&
            RowMaps(sheet, DataRowCount(sheet)).value[i][HeaderKey(GetCell(GetRow(sheet, 0).value, j)).value]
              == CellValue(CellAt(sheet, i + 1, j))
  {
    var count := DataRowCount(sheet);
    RowMapsAt(sheet, count, i);
    var header := GetRow(sheet, 0).value;
    var n := ColumnCount(header);
    var row := GetRow(sheet, i + 1);
    var pairs := RowPairs(header, row, n).value;
    ToMapKeys(pairs);
    if n > 0 {
      RowPairsAt(header, row, n, 0);
    }
    forall k
      ensures k in ToMap(pairs) <==> exists c :: 0 <= c < n && HeaderKey(GetCell(header, c)) == Ok(k)
    {
      if k in ToMap(pairs) {
        var c :| 0 <= c < |pairs| && pairs[c].0 == k;
        RowPairsAt(header, row, n, c);
      }
      if exists c :: 0 <= c < n && HeaderKey(GetCell(header, c)) == Ok(k) {
        var c :| 0 <= c < n && HeaderKey(GetCell(header, c)) == Ok(k);
        RowPairsAt(header, row, n, c);
      }
    }
    if j < n && forall l :: j < l < n ==> HeaderKey(GetCell(header, l)) != HeaderKey(GetCell(header, j)) {
      forall l | j < l < |pairs|
        ensures pairs[l].0 != pairs[j].0
      {
        RowPairsAt(header, row, n, l);
        RowPairsAt(header, row, n, j);
      }
      RowPairsAt(header, row, n, j);
      LaterPairWins(pairs, j);
    }
  }

  /**
   * The inner loop of getTestDataAsMap: the map for one data row, put
   * column by column, or the first exception met.
   */
  method PutRow(header: Row, row: Option<Row>) returns (r: Result<map<string, string>, Exception>)
    ensures r.Ok? <==> RowPairs(header, row, ColumnCount(header)).Ok?
    ensures r.Ok? ==> r.value == ToMap(RowPairs(header, row, ColumnCount(header)).value)
    ensures r.Err? ==> r.error == RowPairs(header, row, ColumnCount(header)).error
  {
    var dataMap: map<string, string> := map[];
    ghost var pairs: seq<(string, string)> := [];
    var j := 0;
    while j < LastCellNum(header)
      invariant 0 <= j <= ColumnCount(header)
      invariant RowPairs(header, row, j) == Ok(pairs)
      invariant dataMap == ToMap(pairs)
    {
      var key := HeaderKey(GetCell(header, j));
      if key.Err? || row.None? {
        var e := if key.Err? then key.error else NullPointer;
        assert RowPairs(header, row, j + 1) == Err(e);
        RowPairsErrorPersists(header, row, j + 1, ColumnCount(header));
        return Err(e);
      }
      var value := CellValue(GetCell(row.value, j));
      assert RowPairs(header, row, j + 1) == Ok(pairs + [(key.value, value)]);
      assert (pairs + [(key.value, value)])[..|pairs|] == pairs;
      dataMap := dataMap[key.value := value];
      pairs := pairs + [(key.value, value)];
      j := j + 1;
    }
    return Ok(dataMap);
  }

  /**
   * getTestDataAsMap: the maps are built row by row, and the list is
   * exactly TestDataAsMap.
   */
  method GetTestDataAsMap(file: Option<Workbook>, sheetName: string)
    returns (r: Result<seq<map<string, string>>, Exception>)
    ensures r == TestDataAsMap(file, sheetName)
  {
    if file.None? {
      return Ok([]);
    }
    if sheetName !in file.value {
      return Err(NullPointer);
    }
    var sheet := file.value[sheetName];
    var headerRow := GetRow(sheet, 0);
    var dataList: seq<map<string, string>> := [];
    var i := 1;
    while i <= LastRowNum(sheet)
      invariant 1 <= i <= DataRowCount(sheet) + 1
      invariant RowMaps(sheet, i - 1) == Ok(dataList)
    {
      if headerRow.None? {
        assert RowMaps(sheet, i) == Err(NullPointer);
        RowMapsErrorPersists(sheet, i, DataRowCount(sheet));
        return Err(NullPointer);
      }
      var dataMap := PutRow(headerRow.value, GetRow(sheet, i));
      if dataMap.Err? {
        assert RowMaps(sheet, i) == Err(dataMap.error);
        RowMapsErrorPersists(sheet, i, DataRowCount(sheet));
        return Err(dataMap.error);
      }
      dataList := dataList + [dataMap.value];
      i := i + 1;
    }
    r := Ok(dataList);
  }
}
