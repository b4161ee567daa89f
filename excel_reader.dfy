/** The spreadsheet reader: turns the "Login" and "Search" sheets of a workbook into
    typed records, groups them by test-case id and answers lookups by test case. */
module ExcelReader {
  import opened Wrappers
  import opened Sheet
  import opened Seqs

  /** A Login row needs cells for testCase, username and password. */
  const LoginWidth: nat := 3
  /** A Search row needs cells for testCase and the six search fields. */
  const SearchWidth: nat := 7

  const DefaultLoginSheet := "Login"
  const DefaultSearchSheet := "Search"

  /** One Login row. Each field holds its cell, or `''` when that cell is falsy. */
  datatype LoginTestData = LoginTestData(
    testCase: Cell, username: Cell, password: Cell, rowIndex: nat)

  /** One Search row. */
  datatype SearchTestData = SearchTestData(
    testCase: Cell, employeeName: Cell, employeeId: Cell, employmentStatus: Cell,
    supervisorName: Cell, subUnit: Cell, jobTitle: Cell, rowIndex: nat)

  /** The one error the readers throw. */
  datatype ReadError = SheetNotFound(sheetName: string)

  /** The result of `getTestDataByTestCase` when it is not `null`. */
  datatype TestData = Login(login: LoginTestData) | Search(search: SearchTestData)

  /** The value of `getAllTestData`. */
  datatype AllTestData = AllTestData(
    loginTestData: seq<LoginTestData>, searchTestData: seq<SearchTestData>)

  /** The entry for one test case in the grouped index: an absent bucket is `undefined`. */
  datatype TestCaseGroup = TestCaseGroup(
    loginData: Option<seq<LoginTestData>>, searchData: Option<seq<SearchTestData>>)

  type GroupedTestData = map<string, TestCaseGroup>

  // Field accessors, passed to the generic filter.

  function LoginTestCase(d: LoginTestData): Cell { d.testCase }
  function SearchTestCase(d: SearchTestData): Cell { d.testCase }
  function LoginKey(d: LoginTestData): string { PropertyKey(d.testCase) }
  function SearchKey(d: SearchTestData): string { PropertyKey(d.testCase) }
  function LoginRowIndex(d: LoginTestData): int { d.rowIndex }
  function SearchRowIndex(d: SearchTestData): int { d.rowIndex }

  // ---------------------------------------------------------------------------------
  // Row parsing

  /** The record built from a kept Login row: no field is ever `undefined`, and the
      record remembers the row it came from. */
  function LoginOf(k: KeptRow): (d: LoginTestData)
    ensures !d.testCase.Missing? && !d.username.Missing? && !d.password.Missing?
    ensures d.rowIndex == k.rowIndex
  {
    LoginTestData(OrEmpty(At(k.cells, 0)), OrEmpty(At(k.cells, 1)), OrEmpty(At(k.cells, 2)),
                  k.rowIndex)
  }

  /** The record built from a kept Search row: no field is ever `undefined`. */
  function SearchOf(k: KeptRow): (d: SearchTestData)
    ensures !d.testCase.Missing? && !d.employeeName.Missing? && !d.employeeId.Missing?
    ensures !d.employmentStatus.Missing? && !d.supervisorName.Missing?
    ensures !d.subUnit.Missing? && !d.jobTitle.Missing?
    ensures d.rowIndex == k.rowIndex
  {
    SearchTestData(OrEmpty(At(k.cells, 0)), OrEmpty(At(k.cells, 1)), OrEmpty(At(k.cells, 2)),
                   OrEmpty(At(k.cells, 3)), OrEmpty(At(k.cells, 4)), OrEmpty(At(k.cells, 5)),
                   OrEmpty(At(k.cells, 6)), k.rowIndex)
  }

  /** `d` is what the Login reader makes of `row`: the row passes the width test and each
      field is the cell at its position, or `''` when that cell is falsy. */
  predicate LoginFrom(row: Row, d: LoginTestData)
  {
    Keeps(row, LoginWidth) &&
    d.testCase == OrEmpty(row.cells[0]) &&
    d.username == OrEmpty(row.cells[1]) &&
    d.password == OrEmpty(row.cells[2])
  }

  /** `d` is what the Search reader makes of `row`. */
  predicate SearchFrom(row: Row, d: SearchTestData)
  {
    Keeps(row, SearchWidth) &&
    d.testCase == OrEmpty(row.cells[0]) &&
    d.employeeName == OrEmpty(row.cells[1]) &&
    d.employeeId == OrEmpty(row.cells[2]) &&
    d.employmentStatus == OrEmpty(row.cells[3]) &&
    d.supervisorName == OrEmpty(row.cells[4]) &&
    d.subUnit == OrEmpty(row.cells[5]) &&
    d.jobTitle == OrEmpty(row.cells[6])
  }

  /** The Login records the reader has pushed once it has looked at the first `n` parsed
      rows: the loop state of `readLoginTestData`. */
  function LoginRecordsUpTo(rows: seq<Row>, n: nat): seq<LoginTestData>
    requires n <= 1 || n <= |rows|
    decreases n
  {
    if n <= 1 then []
    else if Keeps(rows[n - 1], LoginWidth) then
      LoginRecordsUpTo(rows, n - 1) + [LoginOf(KeptRow(n, rows[n - 1].cells))]
    else LoginRecordsUpTo(rows, n - 1)
  }

  /** The Search records pushed after the first `n` parsed rows. */
  function SearchRecordsUpTo(rows: seq<Row>, n: nat): seq<SearchTestData>
    requires n <= 1 || n <= |rows|
    decreases n
  {
    if n <= 1 then []
    else if Keeps(rows[n - 1], SearchWidth) then
      SearchRecordsUpTo(rows, n - 1) + [SearchOf(KeptRow(n, rows[n - 1].cells))]
    else SearchRecordsUpTo(rows, n - 1)
  }

  /** The loop state is the record of every kept row so far, in order. */
  lemma {:induction false} LoginRecordsAreKept(rows: seq<Row>, n: nat)
    requires n <= 1 || n <= |rows|
    ensures LoginRecordsUpTo(rows, n) == MapSeq(KeptRows(rows, n, LoginWidth), LoginOf)
    decreases n
  {
    if n > 1 {
      LoginRecordsAreKept(rows, n - 1);
      if Keeps(rows[n - 1], LoginWidth) {
        MapSeqAppend(KeptRows(rows, n - 1, LoginWidth), [KeptRow(n, rows[n - 1].cells)], LoginOf);
      }
    }
  }

  /** The Search loop state is the record of every kept row so far, in order. */
  lemma {:induction false} SearchRecordsAreKept(rows: seq<Row>, n: nat)
    requires n <= 1 || n <= |rows|
    ensures SearchRecordsUpTo(rows, n) == MapSeq(KeptRows(rows, n, SearchWidth), SearchOf)
    decreases n
  {
    if n > 1 {
      SearchRecordsAreKept(rows, n - 1);
      if Keeps(rows[n - 1], SearchWidth) {
        MapSeqAppend(KeptRows(rows, n - 1, SearchWidth), [KeptRow(n, rows[n - 1].cells)], SearchOf);
      }
    }
  }

  /** The records the Login reader produces from a sheet's rows: at most one per row after
      the header, in source order. */
  function ParseLoginRows(rows: seq<Row>): (r: seq<LoginTestData>)
    ensures |rows| >= 1 ==> |r| <= |rows| - 1
    ensures StrictlyIncreasing(r, LoginRowIndex)
  {
    MapSeq(KeptRows(rows, |rows|, LoginWidth), LoginOf)
  }
  /** Record `k` of the Login list comes from the parsed row at position `rowIndex - 1`,
      which passed the width test, and carries that row's first three cells. */
  lemma ParseLoginRowsSound(rows: seq<Row>, k: nat)
    requires k < |ParseLoginRows(rows)|
    ensures var d := ParseLoginRows(rows)[k];
      2 <= d.rowIndex <= |rows| && LoginFrom(rows[d.rowIndex - 1], d)
  {
    var kept := KeptRows(rows, |rows|, LoginWidth);
    assert ParseLoginRows(rows)[k] == LoginOf(kept[k]);
  }


  /** The records the Search reader produces from a sheet's rows. */
  function ParseSearchRows(rows: seq<Row>): (r: seq<SearchTestData>)
    ensures |rows| >= 1 ==> |r| <= |rows| - 1
    ensures StrictlyIncreasing(r, SearchRowIndex)
  {
    MapSeq(KeptRows(rows, |rows|, SearchWidth), SearchOf)
  }
  /** Record `k` of the Search list comes from the parsed row at position `rowIndex - 1`,
      which passed the width test, and carries that row's first seven cells. */
  lemma ParseSearchRowsSound(rows: seq<Row>, k: nat)
    requires k < |ParseSearchRows(rows)|
    ensures var d := ParseSearchRows(rows)[k];
      2 <= d.rowIndex <= |rows| && SearchFrom(rows[d.rowIndex - 1], d)
  {
    var kept := KeptRows(rows, |rows|, SearchWidth);
    assert ParseSearchRows(rows)[k] == SearchOf(kept[k]);
  }


  /** A row yields a Login record exactly when it is not the header, is present and has at
      least three cells; that record is the one built from the row. */
  lemma ParseLoginRowsExact(rows: seq<Row>, i: nat)
    requires i < |rows|
    ensures (exists k :: 0 <= k < |ParseLoginRows(rows)| && ParseLoginRows(rows)[k].rowIndex == i + 1)
            <==> (i >= 1 && Keeps(rows[i], LoginWidth))
    ensures i >= 1 && Keeps(rows[i], LoginWidth) ==>
            LoginOf(KeptRow(i + 1, rows[i].cells)) in ParseLoginRows(rows)
  {
    var kept := KeptRows(rows, |rows|, LoginWidth);
    KeptRowsExact(rows, |rows|, LoginWidth, i);
    if i >= 1 && Keeps(rows[i], LoginWidth) {
      KeptRowsComplete(rows, |rows|, LoginWidth, i);
      var k :| 0 <= k < |kept| && kept[k] == KeptRow(i + 1, rows[i].cells);
      assert ParseLoginRows(rows)[k] == LoginOf(kept[k]);
    } else {
      forall k | 0 <= k < |ParseLoginRows(rows)| ensures ParseLoginRows(rows)[k].rowIndex != i + 1 {
        assert ParseLoginRows(rows)[k].rowIndex == kept[k].rowIndex;
      }
    }
  }


  /** A row yields a Search record exactly when it is not the header, is present and has
      at least seven cells; that record is the one built from the row. */
  lemma ParseSearchRowsExact(rows: seq<Row>, i: nat)
    requires i < |rows|
    ensures (exists k :: 0 <= k < |ParseSearchRows(rows)| && ParseSearchRows(rows)[k].rowIndex == i + 1)
            <==> (i >= 1 && Keeps(rows[i], SearchWidth))
    ensures i >= 1 && Keeps(rows[i], SearchWidth) ==>
            SearchOf(KeptRow(i + 1, rows[i].cells)) in ParseSearchRows(rows)
  {
    var kept := KeptRows(rows, |rows|, SearchWidth);
    KeptRowsExact(rows, |rows|, SearchWidth, i);
    if i >= 1 && Keeps(rows[i], SearchWidth) {
      KeptRowsComplete(rows, |rows|, SearchWidth, i);
      var k :| 0 <= k < |kept| && kept[k] == KeptRow(i + 1, rows[i].cells);
      assert ParseSearchRows(rows)[k] == SearchOf(kept[k]);
    } else {
      forall k | 0 <= k < |ParseSearchRows(rows)| ensures ParseSearchRows(rows)[k].rowIndex != i + 1 {
        assert ParseSearchRows(rows)[k].rowIndex == kept[k].rowIndex;
      }
    }
  }


  /** Cells after the third are ignored: appending cells to a kept Login row changes no
      record. */
  lemma LoginIgnoresTrailingCells(rows: seq<Row>, i: nat, extra: seq<Cell>)
    requires i < |rows| && Keeps(rows[i], LoginWidth)
    ensures ParseLoginRows(rows[i := Present(rows[i].cells + extra)]) == ParseLoginRows(rows)
  {
    var rows' := rows[i := Present(rows[i].cells + extra)];
    var kept, kept' := KeptRows(rows, |rows|, LoginWidth), KeptRows(rows', |rows'|, LoginWidth);
    KeptRowsExtendRow(rows, |rows|, LoginWidth, i, extra);
    forall k | 0 <= k < |kept| ensures LoginOf(kept'[k]) == LoginOf(kept[k]) {
      assert |kept[k].cells| >= LoginWidth;
    }
  }

  /** Cells after the seventh are ignored: appending cells to a kept Search row changes
      no record. */
  lemma SearchIgnoresTrailingCells(rows: seq<Row>, i: nat, extra: seq<Cell>)
    requires i < |rows| && Keeps(rows[i], SearchWidth)
    ensures ParseSearchRows(rows[i := Present(rows[i].cells + extra)]) == ParseSearchRows(rows)
  {
    var rows' := rows[i := Present(rows[i].cells + extra)];
    var kept, kept' := KeptRows(rows, |rows|, SearchWidth), KeptRows(rows', |rows'|, SearchWidth);
    KeptRowsExtendRow(rows, |rows|, SearchWidth, i, extra);
    forall k | 0 <= k < |kept| ensures SearchOf(kept'[k]) == SearchOf(kept[k]) {
      assert |kept[k].cells| >= SearchWidth;
    }
  }

  /** `readLoginTestData(sheetName)`: fails with "Sheet not found" when the workbook has no
      such sheet, and otherwise gives the records parsed from its rows. */
  function ReadLogin(wb: Workbook, sheetName: string): (r: Result<seq<LoginTestData>, ReadError>)
    ensures r.Failure? <==> sheetName !in wb
    ensures r.Failure? ==> r.error == SheetNotFound(sheetName)
    ensures r.Success? ==> r.value == ParseLoginRows(wb[sheetName])
  {
    if sheetName in wb then Success(ParseLoginRows(wb[sheetName]))
    else Failure(SheetNotFound(sheetName))
  }

  /** `readSearchTestData(sheetName)`. */
  function ReadSearch(wb: Workbook, sheetName: string): (r: Result<seq<SearchTestData>, ReadError>)
    ensures r.Failure? <==> sheetName !in wb
    ensures r.Failure? ==> r.error == SheetNotFound(sheetName)
    ensures r.Success? ==> r.value == ParseSearchRows(wb[sheetName])
  {
    if sheetName in wb then Success(ParseSearchRows(wb[sheetName]))
    else Failure(SheetNotFound(sheetName))
  }

  // ---------------------------------------------------------------------------------
  // Lookups by test case

  /** `loginData.filter(data => data.testCase === testCase)`. */
  function LoginByTestCase(records: seq<LoginTestData>, testCase: string): seq<LoginTestData>
  {
    FilterBy(records, LoginTestCase, Str(testCase))
  }

  /** `searchData.filter(data => data.testCase === testCase)`. */
  function SearchByTestCase(records: seq<SearchTestData>, testCase: string): seq<SearchTestData>
  {
    FilterBy(records, SearchTestCase, Str(testCase))
  }

  /** The Login lookup is an exact-match, order-preserving filter: it returns the records
      whose testCase is the query string, all of them, in source order. */
  lemma LoginLookupIsFilter(records: seq<LoginTestData>, testCase: string)
    requires StrictlyIncreasing(records, LoginRowIndex)
    ensures forall i :: 0 <= i < |LoginByTestCase(records, testCase)| ==>
      LoginByTestCase(records, testCase)[i].testCase == Str(testCase) &&
      LoginByTestCase(records, testCase)[i] in records
    ensures forall i :: 0 <= i < |records| && records[i].testCase == Str(testCase) ==>
      records[i] in LoginByTestCase(records, testCase)
    ensures StrictlyIncreasing(LoginByTestCase(records, testCase), LoginRowIndex)
  {
    FilterByIncreasing(records, LoginTestCase, Str(testCase), LoginRowIndex);
  }

  /** The Search lookup is an exact-match, order-preserving filter. */
  lemma SearchLookupIsFilter(records: seq<SearchTestData>, testCase: string)
    requires StrictlyIncreasing(records, SearchRowIndex)
    ensures forall i :: 0 <= i < |SearchByTestCase(records, testCase)| ==>
      SearchByTestCase(records, testCase)[i].testCase == Str(testCase) &&
      SearchByTestCase(records, testCase)[i] in records
    ensures forall i :: 0 <= i < |records| && records[i].testCase == Str(testCase) ==>
      records[i] in SearchByTestCase(records, testCase)
    ensures StrictlyIncreasing(SearchByTestCase(records, testCase), SearchRowIndex)
  {
    FilterByIncreasing(records, SearchTestCase, Str(testCase), SearchRowIndex);
  }

  /** A Login sheet with a header and two rows of the same test case. */
  const TwoRowSheet: seq<Row> := [
    Present([Str("testCase"), Str("username"), Str("password")]),
    Present([Str("TC_Login_01"), Str("Admin"), Str("admin123")]),
    Present([Str("TC_Login_01"), Str("bad"), Str("bad")])]

  lemma TwoRowSheetKept()
    ensures KeptRows(TwoRowSheet, 3, LoginWidth) ==
      [KeptRow(2, TwoRowSheet[1].cells), KeptRow(3, TwoRowSheet[2].cells)]
  {
    var rows := TwoRowSheet;
    assert KeptRows(rows, 2, LoginWidth) == [KeptRow(2, rows[1].cells)] by {
      assert KeptRows(rows, 1, LoginWidth) == [];
      assert Keeps(rows[1], LoginWidth);
    }
    assert Keeps(rows[2], LoginWidth);
  }

  lemma TwoRowSheetParsed()
    ensures ParseLoginRows(TwoRowSheet) ==
      [LoginTestData(Str("TC_Login_01"), Str("Admin"), Str("admin123"), 2),
       LoginTestData(Str("TC_Login_01"), Str("bad"), Str("bad"), 3)]
  {
    var k1, k2 := KeptRow(2, TwoRowSheet[1].cells), KeptRow(3, TwoRowSheet[2].cells);
    TwoRowSheetKept();
    MapSeqAppend([k1], [k2], LoginOf);
    assert [k1] + [k2] == [k1, k2];
  }

  /** The lookup on that sheet returns both records, in sheet order, with rowIndex 2
      and 3. */
  lemma TwoRowsOfOneTestCase()
    ensures LoginByTestCase(ParseLoginRows(TwoRowSheet), "TC_Login_01") ==
      [LoginTestData(Str("TC_Login_01"), Str("Admin"), Str("admin123"), 2),
       LoginTestData(Str("TC_Login_01"), Str("bad"), Str("bad"), 3)]
  {
    var a := LoginTestData(Str("TC_Login_01"), Str("Admin"), Str("admin123"), 2);
    var b := LoginTestData(Str("TC_Login_01"), Str("bad"), Str("bad"), 3);
    TwoRowSheetParsed();
    FilterByAppend([a], b, LoginTestCase, Str("TC_Login_01"));
    FilterByAppend([], a, LoginTestCase, Str("TC_Login_01"));
    assert [a] + [b] == [a, b];
    assert [] + [a] == [a];
  }

  /** A Search row with five cells yields no record, and raises no error. */
  lemma ShortSearchRowSkipped()
    ensures var rows := [Present([Str("testCase")]),
                         Present([Str("TC_Search_01"), Str("a"), Str("b"), Str("c"), Str("d")])];
      ReadSearch(map[DefaultSearchSheet := rows], DefaultSearchSheet) == Success([])
  {
    var rows := [Present([Str("testCase")]),
                 Present([Str("TC_Search_01"), Str("a"), Str("b"), Str("c"), Str("d")])];
    assert KeptRows(rows, 2, SearchWidth) == [];
  }

  // ---------------------------------------------------------------------------------
  // Grouping

  /** The property keys of the test-case ids of some records. */
  function LoginKeys(login: seq<LoginTestData>): set<string>
  {
    set i | 0 <= i < |login| :: LoginKey(login[i])
  }

  function SearchKeys(search: seq<SearchTestData>): set<string>
  {
    set i | 0 <= i < |search| :: SearchKey(search[i])
  }

  /** The grouped index of `getGroupedTestData` as a value: one entry per test-case id
      that occurs in either list; a kind of record with no row for that id has no bucket,
      otherwise the bucket holds that id's records in source order. */
  function Grouped(login: seq<LoginTestData>, search: seq<SearchTestData>): GroupedTestData
  {
    map k | k in LoginKeys(login) + SearchKeys(search) ::
      TestCaseGroup(
        if k in LoginKeys(login) then Some(FilterBy(login, LoginKey, k)) else None,
        if k in SearchKeys(search) then Some(FilterBy(search, SearchKey, k)) else None)
  }

  /** The keys of the index are exactly the test-case ids (as property keys) that occur
      in either list, and an entry has a bucket of a kind exactly when some record of that
      kind has its id. */
  lemma GroupedKeys(login: seq<LoginTestData>, search: seq<SearchTestData>, k: string)
    ensures k in Grouped(login, search) <==>
      (exists i :: 0 <= i < |login| && LoginKey(login[i]) == k) ||
      (exists j :: 0 <= j < |search| && SearchKey(search[j]) == k)
    ensures k in Grouped(login, search) ==>
      (Grouped(login, search)[k].loginData.Some? <==> exists i :: 0 <= i < |login| && LoginKey(login[i]) == k) &&
      (Grouped(login, search)[k].searchData.Some? <==> exists j :: 0 <= j < |search| && SearchKey(search[j]) == k)
  {
  }

  /** Every bucket of the index holds exactly the records of its key, not one lost, in
      source order, and is never empty. */
  lemma GroupedBuckets(login: seq<LoginTestData>, search: seq<SearchTestData>, k: string)
    requires StrictlyIncreasing(login, LoginRowIndex) && StrictlyIncreasing(search, SearchRowIndex)
    requires k in Grouped(login, search)
    ensures var b := Grouped(login, search)[k].loginData;
      b.Some? ==>
        |b.value| >= 1 && StrictlyIncreasing(b.value, LoginRowIndex) &&
        (forall i :: 0 <= i < |b.value| ==> LoginKey(b.value[i]) == k && b.value[i] in login) &&
        (forall i :: 0 <= i < |login| && LoginKey(login[i]) == k ==> login[i] in b.value)
    ensures var b := Grouped(login, search)[k].searchData;
      b.Some? ==>
        |b.value| >= 1 && StrictlyIncreasing(b.value, SearchRowIndex) &&
        (forall i :: 0 <= i < |b.value| ==> SearchKey(b.value[i]) == k && b.value[i] in search) &&
        (forall i :: 0 <= i < |search| && SearchKey(search[i]) == k ==> search[i] in b.value)
  {
    LoginBucket(login, k);
    SearchBucket(search, k);
  }

  /** The Login bucket of a key that occurs is non-empty and in source order. */
  lemma LoginBucket(login: seq<LoginTestData>, k: string)
    requires StrictlyIncreasing(login, LoginRowIndex)
    ensures k in LoginKeys(login) ==> |FilterBy(login, LoginKey, k)| >= 1
    ensures StrictlyIncreasing(FilterBy(login, LoginKey, k), LoginRowIndex)
  {
    FilterByIncreasing(login, LoginKey, k, LoginRowIndex);
    if k in LoginKeys(login) {
      var i :| 0 <= i < |login| && LoginKey(login[i]) == k;
      assert login[i] in FilterBy(login, LoginKey, k);
    }
  }

  /** The Search bucket of a key that occurs is non-empty and in source order. */
  lemma SearchBucket(search: seq<SearchTestData>, k: string)
    requires StrictlyIncreasing(search, SearchRowIndex)
    ensures k in SearchKeys(search) ==> |FilterBy(search, SearchKey, k)| >= 1
    ensures StrictlyIncreasing(FilterBy(search, SearchKey, k), SearchRowIndex)
  {
    FilterByIncreasing(search, SearchKey, k, SearchRowIndex);
    if k in SearchKeys(search) {
      var i :| 0 <= i < |search| && SearchKey(search[i]) == k;
      assert search[i] in FilterBy(search, SearchKey, k);
    }
  }

  /** The number of records, of both kinds, in the entry for `k` (0 when there is none). */
  function BucketSize(g: GroupedTestData, k: string): nat
  {
    if k !in g then 0
    else
      (if g[k].loginData.Some? then |g[k].loginData.value| else 0) +
      (if g[k].searchData.Some? then |g[k].searchData.value| else 0)
  }

  /** The grouping is a lossless partition: summed over the keys of the index, listed
      once each, the bucket sizes give the total number of records. */
  lemma GroupedIsPartition(login: seq<LoginTestData>, search: seq<SearchTestData>, ks: seq<string>)
    requires Distinct(ks)
    requires forall k :: k in ks <==> k in Grouped(login, search)
    ensures SumOver(ks, k => BucketSize(Grouped(login, search), k)) == |login| + |search|
  {
    var g := Grouped(login, search);
    forall k | k in ks
      ensures BucketSize(g, k) == CountKey(login, LoginKey, k) + CountKey(search, SearchKey, k)
    {
      if k !in LoginKeys(login) { FilterByAbsent(login, LoginKey, k); }
      if k !in SearchKeys(search) { FilterByAbsent(search, SearchKey, k); }
    }
    SumOverAdd(ks, k => CountKey(login, LoginKey, k), k => CountKey(search, SearchKey, k),
               k => BucketSize(g, k));
    forall i | 0 <= i < |login| ensures LoginKey(login[i]) in ks {
      assert LoginKey(login[i]) in LoginKeys(login);
    }
    forall i | 0 <= i < |search| ensures SearchKey(search[i]) in ks {
      assert SearchKey(search[i]) in SearchKeys(search);
    }
    SumOfCounts(login, LoginKey, ks);
    SumOfCounts(search, SearchKey, ks);
  }

  /** When every test-case id is a string cell, the bucket for `tc` is exactly what the
      lookup by `tc` returns, and an id with no bucket gets an empty lookup. */
  lemma GroupedAgreesWithLookup(login: seq<LoginTestData>, search: seq<SearchTestData>, tc: string)
    requires forall i :: 0 <= i < |login| ==> login[i].testCase.Str?
    requires forall i :: 0 <= i < |search| ==> search[i].testCase.Str?
    ensures var g := Grouped(login, search);
      (if tc in g && g[tc].loginData.Some? then g[tc].loginData.value else []) ==
      LoginByTestCase(login, tc)
    ensures var g := Grouped(login, search);
      (if tc in g && g[tc].searchData.Some? then g[tc].searchData.value else []) ==
      SearchByTestCase(search, tc)
  {
    FilterByCongruent(login, LoginKey, tc, LoginTestCase, Str(tc));
    FilterByCongruent(search, SearchKey, tc, SearchTestCase, Str(tc));
    if tc !in LoginKeys(login) { FilterByAbsent(login, LoginKey, tc); }
    if tc !in SearchKeys(search) { FilterByAbsent(search, SearchKey, tc); }
  }

  /** A numeric test-case id is grouped under its decimal string, which the lookup by
      that string does not find, since the lookup compares with `===`. */
  lemma NumericIdGroupedButNotLookedUp()
    ensures var login := [LoginTestData(Num(1), Str("Admin"), Str("admin123"), 2)];
      "1" in Grouped(login, []) &&
      Grouped(login, [])["1"].loginData == Some(login) &&
      LoginByTestCase(login, "1") == []
  {
    var login := [LoginTestData(Num(1), Str("Admin"), Str("admin123"), 2)];
    assert LoginKey(login[0]) == "1";
    assert "1" in LoginKeys(login);
    assert FilterBy(login, LoginKey, "1") == login by {
      assert login == [] + [login[0]];
    }
  }

  lemma LoginKeysAppend(login: seq<LoginTestData>, d: LoginTestData)
    ensures LoginKeys(login + [d]) == LoginKeys(login) + {LoginKey(d)}
  {
    var s' := login + [d];
    assert forall i :: 0 <= i < |login| ==> s'[i] == login[i];
    assert s'[|login|] == d;
    forall x | x in LoginKeys(s') ensures x in LoginKeys(login) + {LoginKey(d)} {
      var i :| 0 <= i < |s'| && LoginKey(s'[i]) == x;
      if i < |login| { assert LoginKey(login[i]) == x; }
    }
  }

  /** One pass of the Login `forEach` on the dictionary: the record's entry is created
      when missing, its Login bucket when missing, and the record is appended to it. */
  function AddLogin(g: GroupedTestData, d: LoginTestData): GroupedTestData
  {
    var k := LoginKey(d);
    g[k := TestCaseGroup(
             Some((if k in g && g[k].loginData.Some? then g[k].loginData.value else []) + [d]),
             if k in g then g[k].searchData else None)]
  }

  /** One pass of the Search `forEach` on the dictionary. */
  function AddSearch(g: GroupedTestData, d: SearchTestData): GroupedTestData
  {
    var k := SearchKey(d);
    g[k := TestCaseGroup(
             if k in g then g[k].loginData else None,
             Some((if k in g && g[k].searchData.Some? then g[k].searchData.value else []) + [d]))]
  }

  /** The dictionary after the Login `forEach` has run over `s`, starting from `g`. */
  function AddLogins(g: GroupedTestData, s: seq<LoginTestData>): GroupedTestData
    decreases |s|
  {
    if |s| == 0 then g else AddLogin(AddLogins(g, s[..|s| - 1]), s[|s| - 1])
  }

  /** The dictionary after the Search `forEach` has run over `s`, starting from `g`. */
  function AddSearches(g: GroupedTestData, s: seq<SearchTestData>): GroupedTestData
    decreases |s|
  {
    if |s| == 0 then g else AddSearch(AddSearches(g, s[..|s| - 1]), s[|s| - 1])
  }

  /** The index after one more Login record: the record is appended to its key's Login
      bucket, which is created (with its entry) when missing. */
  lemma GroupedAddLogin(login: seq<LoginTestData>, search: seq<SearchTestData>, d: LoginTestData)
    ensures Grouped(login + [d], search) == AddLogin(Grouped(login, search), d)
  {
    var g, g' := Grouped(login, search), Grouped(login + [d], search);
    var k := LoginKey(d);
    var h := AddLogin(g, d);
    LoginKeysAppend(login, d);
    forall x | x in g'
      ensures x in h && g'[x] == h[x]
    {
      FilterByAppend(login, d, LoginKey, x);
      if x == k && k !in LoginKeys(login) { FilterByAbsent(login, LoginKey, k); }
    }
    assert g'.Keys == h.Keys;
  }

  lemma SearchKeysAppend(search: seq<SearchTestData>, d: SearchTestData)
    ensures SearchKeys(search + [d]) == SearchKeys(search) + {SearchKey(d)}
  {
    var s' := search + [d];
    assert forall i :: 0 <= i < |search| ==> s'[i] == search[i];
    assert s'[|search|] == d;
    forall x | x in SearchKeys(s') ensures x in SearchKeys(search) + {SearchKey(d)} {
      var i :| 0 <= i < |s'| && SearchKey(s'[i]) == x;
      if i < |search| { assert SearchKey(search[i]) == x; }
    }
  }

  /** The index after one more Search record. */
  lemma GroupedAddSearch(login: seq<LoginTestData>, search: seq<SearchTestData>, d: SearchTestData)
    ensures Grouped(login, search + [d]) == AddSearch(Grouped(login, search), d)
  {
    var g, g' := Grouped(login, search), Grouped(login, search + [d]);
    var k := SearchKey(d);
    var h := AddSearch(g, d);
    SearchKeysAppend(search, d);
    forall x | x in g'
      ensures x in h && g'[x] == h[x]
    {
      FilterByAppend(search, d, SearchKey, x);
      if x == k && k !in SearchKeys(search) { FilterByAbsent(search, SearchKey, k); }
    }
    assert g'.Keys == h.Keys;
  }

  /** The Login fold over one more record of `s`. */
  lemma AddLoginsStep(g: GroupedTestData, s: seq<LoginTestData>, i: nat)
    requires i < |s|
    ensures AddLogins(g, s[..i + 1]) == AddLogin(AddLogins(g, s[..i]), s[i])
  {
    assert s[..i + 1][..i] == s[..i];
  }

  /** The Search fold over one more record of `s`. */
  lemma AddSearchesStep(g: GroupedTestData, s: seq<SearchTestData>, j: nat)
    requires j < |s|
    ensures AddSearches(g, s[..j + 1]) == AddSearch(AddSearches(g, s[..j]), s[j])
  {
    assert s[..j + 1][..j] == s[..j];
  }

  /** Folding the Login records into an empty dictionary one at a time builds the index
      of the Login records. */
  lemma {:induction false} AddLoginsGroups(login: seq<LoginTestData>)
    ensures AddLogins(map[], login) == Grouped(login, [])
    decreases |login|
  {
    if |login| == 0 {
      assert Grouped(login, []).Keys == {};
    } else {
      var front, d := login[..|login| - 1], login[|login| - 1];
      AddLoginsGroups(front);
      GroupedAddLogin(front, [], d);
      assert front + [d] == login;
    }
  }

  /** Folding the Search records, one at a time, into the index of the Login records
      builds the index of both. */
  lemma {:induction false} AddSearchesGroups(login: seq<LoginTestData>, search: seq<SearchTestData>)
    ensures AddSearches(Grouped(login, []), search) == Grouped(login, search)
    decreases |search|
  {
    if |search| > 0 {
      var front, d := search[..|search| - 1], search[|search| - 1];
      AddSearchesGroups(login, front);
      GroupedAddSearch(login, front, d);
      assert front + [d] == search;
    }
  }

  /** The first `forEach` of `getGroupedTestData`: starting from an empty dictionary,
      each Login record is added to the entry of its test-case id, creating the entry and
      its Login bucket on first use. */
  method GroupLoginData(loginData: seq<LoginTestData>) returns (groupedData: GroupedTestData)
    ensures groupedData == Grouped(loginData, [])
  {
    groupedData := map[];
    var i := 0;
    while i < |loginData|
      invariant 0 <= i <= |loginData|
      invariant groupedData == AddLogins(map[], loginData[..i])
    {
      var data := loginData[i];
      var key := PropertyKey(data.testCase);
      // The entry is created when missing, then its bucket, then the record is pushed.
      var entry := if key in groupedData then groupedData[key] else TestCaseGroup(None, None);
      if entry.loginData.None? {
        entry := entry.(loginData := Some([]));
      }
      entry := entry.(loginData := Some(entry.loginData.value + [data]));
      AddLoginsStep(map[], loginData, i);
      groupedData := groupedData[key := entry];
      i := i + 1;
    }
    assert loginData[..i] == loginData;
    AddLoginsGroups(loginData);
  }

  /** The second `forEach` of `getGroupedTestData`: each Search record is added to the
      entry of its test-case id in the dictionary the Login records built. */
  method GroupSearchData(groupedLogin: GroupedTestData, loginData: seq<LoginTestData>,
                         searchData: seq<SearchTestData>)
    returns (groupedData: GroupedTestData)
    requires groupedLogin == Grouped(loginData, [])
    ensures groupedData == Grouped(loginData, searchData)
  {
    groupedData := groupedLogin;
    var j := 0;
    while j < |searchData|
      invariant 0 <= j <= |searchData|
      invariant groupedData == AddSearches(groupedLogin, searchData[..j])
    {
      var data := searchData[j];
      var key := PropertyKey(data.testCase);
      // The entry is created when missing, then its bucket, then the record is pushed.
      var entry := if key in groupedData then groupedData[key] else TestCaseGroup(None, None);
      if entry.searchData.None? {
        entry := entry.(searchData := Some([]));
      }
      entry := entry.(searchData := Some(entry.searchData.value + [data]));
      AddSearchesStep(groupedLogin, searchData, j);
      groupedData := groupedData[key := entry];
      j := j + 1;
    }
    assert searchData[..j] == searchData;
    AddSearchesGroups(loginData, searchData);
  }


  /** `getGroupedTestData()` as a value: read both default sheets (Login first) and group. */
  function GroupedTestDataOf(wb: Workbook): (r: Result<GroupedTestData, ReadError>)
    ensures r.Success? <==> DefaultLoginSheet in wb && DefaultSearchSheet in wb
    ensures DefaultLoginSheet !in wb ==> r == Failure(SheetNotFound(DefaultLoginSheet))
    ensures DefaultLoginSheet in wb && DefaultSearchSheet !in wb ==>
      r == Failure(SheetNotFound(DefaultSearchSheet))
    ensures r.Success? ==>
      r.value == Grouped(ParseLoginRows(wb[DefaultLoginSheet]), ParseSearchRows(wb[DefaultSearchSheet]))
  {
    match ReadLogin(wb, DefaultLoginSheet)
    case Failure(e) => Failure(e)
    case Success(login) =>
      match ReadSearch(wb, DefaultSearchSheet)
      case Failure(e) => Failure(e)
      case Success(search) => Success(Grouped(login, search))
  }

  // ---------------------------------------------------------------------------------
  // The reader object

  /** An `ExcelReader` over a workbook that has already been read from its file. The
      workbook is fixed at construction; every operation re-reads the sheets from it. */
  class ExcelReader {
    const workbook: Workbook

    constructor (workbook: Workbook)
      ensures this.workbook == workbook
    {
      this.workbook := workbook;
    }

    /** `readLoginTestData`: the header is skipped, a row is kept when it is present and
        has at least three cells, and each kept row is pushed as a record. */
    method ReadLoginTestData(sheetName: string) returns (r: Result<seq<LoginTestData>, ReadError>)
      ensures r == ReadLogin(workbook, sheetName)
    {
      if sheetName !in workbook {
        return Failure(SheetNotFound(sheetName));
      }
      var jsonData := workbook[sheetName];
      var testData: seq<LoginTestData> := [];
      var i := 1;
      while i < |jsonData|
        invariant 1 <= i <= |jsonData| || (i == 1 && |jsonData| == 0)
        invariant testData == LoginRecordsUpTo(jsonData, i)
      {
        var row := jsonData[i];
        if row.Present? && |row.cells| >= LoginWidth {
          var record := LoginTestData(OrEmpty(At(row.cells, 0)), OrEmpty(At(row.cells, 1)),
                                      OrEmpty(At(row.cells, 2)), i + 1);
          assert record == LoginOf(KeptRow(i + 1, row.cells));
          testData := testData + [record];
        }
        i := i + 1;
      }
      LoginRecordsAreKept(jsonData, |jsonData|);
      return Success(testData);
    }

    /** `readSearchTestData`: as the Login reader, with seven cells required. */
    method ReadSearchTestData(sheetName: string) returns (r: Result<seq<SearchTestData>, ReadError>)
      ensures r == ReadSearch(workbook, sheetName)
    {
      if sheetName !in workbook {
        return Failure(SheetNotFound(sheetName));
      }
      var jsonData := workbook[sheetName];
      var testData: seq<SearchTestData> := [];
      var i := 1;
      while i < |jsonData|
        invariant 1 <= i <= |jsonData| || (i == 1 && |jsonData| == 0)
        invariant testData == SearchRecordsUpTo(jsonData, i)
      {
        var row := jsonData[i];
        if row.Present? && |row.cells| >= SearchWidth {
          var record := SearchTestData(
            OrEmpty(At(row.cells, 0)), OrEmpty(At(row.cells, 1)), OrEmpty(At(row.cells, 2)),
            OrEmpty(At(row.cells, 3)), OrEmpty(At(row.cells, 4)), OrEmpty(At(row.cells, 5)),
            OrEmpty(At(row.cells, 6)), i + 1);
          assert record == SearchOf(KeptRow(i + 1, row.cells));
          testData := testData + [record];
        }
        i := i + 1;
      }
      SearchRecordsAreKept(jsonData, |jsonData|);
      return Success(testData);
    }

    /** `getGroupedTestData`: folds the Login records, then the Search records, into a
        dictionary keyed by test-case id, creating the entry and the bucket on first use. */
    method GetGroupedTestData() returns (r: Result<GroupedTestData, ReadError>)
      ensures r == GroupedTestDataOf(workbook)
    {
      var loginResult := ReadLoginTestData(DefaultLoginSheet);
      if loginResult.Failure? {
        return Failure(loginResult.error);
      }
      var searchResult := ReadSearchTestData(DefaultSearchSheet);
      if searchResult.Failure? {
        return Failure(searchResult.error);
      }
      var groupedData := GroupLoginData(loginResult.value);
      groupedData := GroupSearchData(groupedData, loginResult.value, searchResult.value);
      return Success(groupedData);
    }

    /** `getLoginDataByTestCase`: fails only when the Login sheet is missing; otherwise
        returns every Login record whose testCase is the query string, and only those, in
        source order (an unknown test case gives an empty sequence). */
    function GetLoginDataByTestCase(testCase: string): (r: Result<seq<LoginTestData>, ReadError>)
      ensures r.Failure? <==> DefaultLoginSheet !in workbook
      ensures r.Failure? ==> r.error == SheetNotFound(DefaultLoginSheet)
      ensures r.Success? ==>
        var all := ParseLoginRows(workbook[DefaultLoginSheet]);
        StrictlyIncreasing(r.value, LoginRowIndex) &&
        (forall i :: 0 <= i < |r.value| ==> r.value[i].testCase == Str(testCase) && r.value[i] in all) &&
        (forall i :: 0 <= i < |all| && all[i].testCase == Str(testCase) ==> all[i] in r.value)
    {
      match ReadLogin(workbook, DefaultLoginSheet)
      case Failure(e) => Failure(e)
      case Success(loginData) =>
        LoginLookupIsFilter(loginData, testCase);
        Success(LoginByTestCase(loginData, testCase))
    }

    /** `getSearchDataByTestCase`: the same for the Search sheet. */
    function GetSearchDataByTestCase(testCase: string): (r: Result<seq<SearchTestData>, ReadError>)
      ensures r.Failure? <==> DefaultSearchSheet !in workbook
      ensures r.Failure? ==> r.error == SheetNotFound(DefaultSearchSheet)
      ensures r.Success? ==>
        var all := ParseSearchRows(workbook[DefaultSearchSheet]);
        StrictlyIncreasing(r.value, SearchRowIndex) &&
        (forall i :: 0 <= i < |r.value| ==> r.value[i].testCase == Str(testCase) && r.value[i] in all) &&
        (forall i :: 0 <= i < |all| && all[i].testCase == Str(testCase) ==> all[i] in r.value)
    {
      match ReadSearch(workbook, DefaultSearchSheet)
      case Failure(e) => Failure(e)
      case Success(searchData) =>
        SearchLookupIsFilter(searchData, testCase);
        Success(SearchByTestCase(searchData, testCase))
    }

    /** `getTestDataByTestCase`: the first Login match if there is one, else the first
        Search match, else `null`. The Search sheet is only read when no Login record
        matches, so a missing Search sheet is an error only then. */
    function GetTestDataByTestCase(testCase: string): (r: Result<Option<TestData>, ReadError>)
      ensures DefaultLoginSheet !in workbook ==> r == Failure(SheetNotFound(DefaultLoginSheet))
      ensures GetLoginDataByTestCase(testCase).Success? && |GetLoginDataByTestCase(testCase).value| > 0 ==>
        r == Success(Some(Login(GetLoginDataByTestCase(testCase).value[0])))
      ensures GetLoginDataByTestCase(testCase) == Success([]) ==>
        (DefaultSearchSheet !in workbook ==> r == Failure(SheetNotFound(DefaultSearchSheet))) &&
        (GetSearchDataByTestCase(testCase).Success? && |GetSearchDataByTestCase(testCase).value| > 0 ==>
          r == Success(Some(Search(GetSearchDataByTestCase(testCase).value[0])))) &&
        (GetSearchDataByTestCase(testCase) == Success([]) ==> r == Success(None))
      ensures r.Success? && r.value.Some? ==>
        match r.value.value
        case Login(d) => d.testCase == Str(testCase)
        case Search(d) => d.testCase == Str(testCase)
    {
      match GetLoginDataByTestCase(testCase)
      case Failure(e) => Failure(e)
      case Success(loginData) =>
        if |loginData| > 0 then Success(Some(Login(loginData[0])))
        else
          match GetSearchDataByTestCase(testCase)
          case Failure(e) => Failure(e)
          case Success(searchData) =>
            if |searchData| > 0 then Success(Some(Search(searchData[0]))) else Success(None)
    }

    /** `getAllTestData`: both default sheets, parsed; Login is read first. */
    function GetAllTestData(): (r: Result<AllTestData, ReadError>)
      ensures r.Success? <==> DefaultLoginSheet in workbook && DefaultSearchSheet in workbook
      ensures DefaultLoginSheet !in workbook ==> r == Failure(SheetNotFound(DefaultLoginSheet))
      ensures DefaultLoginSheet in workbook && DefaultSearchSheet !in workbook ==>
        r == Failure(SheetNotFound(DefaultSearchSheet))
      ensures r.Success? ==>
        r.value.loginTestData == ParseLoginRows(workbook[DefaultLoginSheet]) &&
        r.value.searchTestData == ParseSearchRows(workbook[DefaultSearchSheet])
    {
      match ReadLogin(workbook, DefaultLoginSheet)
      case Failure(e) => Failure(e)
      case Success(login) =>
        match ReadSearch(workbook, DefaultSearchSheet)
        case Failure(e) => Failure(e)
        case Success(search) => Success(AllTestData(login, search))
    }
  }
}
