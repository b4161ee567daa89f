/** The test-data module the specs import: the records of the workbook read once when the
    module loads, the delegating lookups, the first-record helpers and two projections. */
module ExcelTestData {
  import opened Wrappers
  import opened Sheet
  import opened Seqs
  import opened ExcelReader

  /** An element of `loginUser`: the credentials of one Login record. */
  datatype LoginUser = LoginUser(username: Cell, password: Cell)

  /** An element of `searchCondition`: the six search fields of one Search record. */
  datatype SearchCondition = SearchCondition(
    employeeName: Cell, employeeId: Cell, employmentStatus: Cell,
    supervisorName: Cell, subUnit: Cell, jobTitle: Cell)

  function ToLoginUser(d: LoginTestData): LoginUser
  {
    LoginUser(d.username, d.password)
  }

  function ToSearchCondition(d: SearchTestData): SearchCondition
  {
    SearchCondition(d.employeeName, d.employeeId, d.employmentStatus,
                    d.supervisorName, d.subUnit, d.jobTitle)
  }

  /** `loginTestDataFromExcel.map(...)`: one credential pair per Login record, in order. */
  function LoginUsers(records: seq<LoginTestData>): (r: seq<LoginUser>)
    ensures |r| == |records|
    ensures forall i :: 0 <= i < |records| ==>
      r[i].username == records[i].username && r[i].password == records[i].password
  {
    MapSeq(records, ToLoginUser)
  }

  /** `searchTestDataFromExcel.map(...)`: one search condition per Search record, in order,
      without its testCase and rowIndex. */
  function SearchConditions(records: seq<SearchTestData>): (r: seq<SearchCondition>)
    ensures |r| == |records|
    ensures forall i :: 0 <= i < |records| ==>
      r[i].employeeName == records[i].employeeName &&
      r[i].employeeId == records[i].employeeId &&
      r[i].employmentStatus == records[i].employmentStatus &&
      r[i].supervisorName == records[i].supervisorName &&
      r[i].subUnit == records[i].subUnit &&
      r[i].jobTitle == records[i].jobTitle
  {
    MapSeq(records, ToSearchCondition)
  }

  /** The module's exported constants, computed once when it loads. */
  datatype ExcelTestData = ExcelTestData(
    loginTestDataFromExcel: seq<LoginTestData>,
    searchTestDataFromExcel: seq<SearchTestData>,
    groupedTestData: GroupedTestData,
    allTestData: AllTestData,
    loginUser: seq<LoginUser>,
    searchCondition: seq<SearchCondition>)

  /** Loading the module: the Login sheet is read, then the Search sheet, then the grouped
      index and both sheets again; the first missing sheet aborts the load. */
  function LoadExcelTestData(reader: ExcelReader): (r: Result<ExcelTestData, ReadError>)
    ensures r.Success? <==> DefaultLoginSheet in reader.workbook && DefaultSearchSheet in reader.workbook
    ensures DefaultLoginSheet !in reader.workbook ==> r == Failure(SheetNotFound(DefaultLoginSheet))
    ensures DefaultLoginSheet in reader.workbook && DefaultSearchSheet !in reader.workbook ==>
      r == Failure(SheetNotFound(DefaultSearchSheet))
    ensures r.Success? ==>
      var login := ParseLoginRows(reader.workbook[DefaultLoginSheet]);
      var search := ParseSearchRows(reader.workbook[DefaultSearchSheet]);
      r.value.loginTestDataFromExcel == login &&
      r.value.searchTestDataFromExcel == search &&
      r.value.groupedTestData == Grouped(login, search) &&
      r.value.allTestData == AllTestData(login, search) &&
      r.value.loginUser == LoginUsers(login) && r.value.searchCondition == SearchConditions(search)
  {
    match ReadLogin(reader.workbook, DefaultLoginSheet)
    case Failure(e) => Failure(e)
    case Success(login) =>
      match ReadSearch(reader.workbook, DefaultSearchSheet)
      case Failure(e) => Failure(e)
      case Success(search) =>
        match GroupedTestDataOf(reader.workbook)
        case Failure(e) => Failure(e)
        case Success(grouped) =>
          match reader.GetAllTestData()
          case Failure(e) => Failure(e)
          case Success(all) =>
            Success(ExcelTestData(login, search, grouped, all,
                                  LoginUsers(login), SearchConditions(search)))
  }

  /** `getLoginDataByTestCase`: the reader's lookup, unchanged. */
  function GetLoginDataByTestCase(reader: ExcelReader, testCase: string): (r: Result<seq<LoginTestData>, ReadError>)
    ensures r.Failure? <==> DefaultLoginSheet !in reader.workbook
    ensures r.Success? ==> forall i :: 0 <= i < |r.value| ==> r.value[i].testCase == Str(testCase)
  {
    reader.GetLoginDataByTestCase(testCase)
  }

  /** `getSearchDataByTestCase`: the reader's lookup, unchanged. */
  function GetSearchDataByTestCase(reader: ExcelReader, testCase: string): (r: Result<seq<SearchTestData>, ReadError>)
    ensures r.Failure? <==> DefaultSearchSheet !in reader.workbook
    ensures r.Success? ==> forall i :: 0 <= i < |r.value| ==> r.value[i].testCase == Str(testCase)
  {
    reader.GetSearchDataByTestCase(testCase)
  }

  /** `getFirstLoginDataByTestCase`: `undefined` (None) when no Login record has that test
      case, otherwise the matching record that comes first in the sheet. */
  function GetFirstLoginDataByTestCase(reader: ExcelReader, testCase: string): (r: Result<Option<LoginTestData>, ReadError>)
    ensures r.Failure? <==> DefaultLoginSheet !in reader.workbook
    ensures r.Failure? ==> r.error == SheetNotFound(DefaultLoginSheet)
    ensures r.Success? ==>
      var all := ParseLoginRows(reader.workbook[DefaultLoginSheet]);
      (r.value.None? <==> forall i :: 0 <= i < |all| ==> all[i].testCase != Str(testCase)) &&
      (r.value.Some? ==>
        r.value.value.testCase == Str(testCase) && r.value.value in all &&
        forall i :: 0 <= i < |all| && all[i].testCase == Str(testCase) ==> r.value.value.rowIndex <= all[i].rowIndex)
  {
    match GetLoginDataByTestCase(reader, testCase)
    case Failure(e) => Failure(e)
    case Success(data) =>
      if |data| > 0 then
        FirstIsEarliest(data, LoginRowIndex);
        Success(Some(data[0]))
      else Success(None)
  }

  /** `getFirstSearchDataByTestCase`: the same for the Search sheet. */
  function GetFirstSearchDataByTestCase(reader: ExcelReader, testCase: string): (r: Result<Option<SearchTestData>, ReadError>)
    ensures r.Failure? <==> DefaultSearchSheet !in reader.workbook
    ensures r.Failure? ==> r.error == SheetNotFound(DefaultSearchSheet)
    ensures r.Success? ==>
      var all := ParseSearchRows(reader.workbook[DefaultSearchSheet]);
      (r.value.None? <==> forall i :: 0 <= i < |all| ==> all[i].testCase != Str(testCase)) &&
      (r.value.Some? ==>
        r.value.value.testCase == Str(testCase) && r.value.value in all &&
        forall i :: 0 <= i < |all| && all[i].testCase == Str(testCase) ==> r.value.value.rowIndex <= all[i].rowIndex)
  {
    match GetSearchDataByTestCase(reader, testCase)
    case Failure(e) => Failure(e)
    case Success(data) =>
      if |data| > 0 then
        FirstIsEarliest(data, SearchRowIndex);
        Success(Some(data[0]))
      else Success(None)
  }

  /** The lookups re-read the sheets, yet agree with the constants computed at load time:
      each is the filter of the loaded records, and each first-record helper returns the
      head of that filter. */
  lemma LookupsAgreeWithLoadedData(reader: ExcelReader, m: ExcelTestData, testCase: string)
    requires LoadExcelTestData(reader) == Success(m)
    ensures GetLoginDataByTestCase(reader, testCase) ==
      Success(LoginByTestCase(m.loginTestDataFromExcel, testCase))
    ensures GetSearchDataByTestCase(reader, testCase) ==
      Success(SearchByTestCase(m.searchTestDataFromExcel, testCase))
    ensures var d := LoginByTestCase(m.loginTestDataFromExcel, testCase);
      GetFirstLoginDataByTestCase(reader, testCase) == Success(if |d| > 0 then Some(d[0]) else None)
    ensures var d := SearchByTestCase(m.searchTestDataFromExcel, testCase);
      GetFirstSearchDataByTestCase(reader, testCase) == Success(if |d| > 0 then Some(d[0]) else None)
  {
  }
}
