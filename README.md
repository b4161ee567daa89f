# Spreadsheet test-data layer, modelled in Dafny

This project models the part of a Playwright end-to-end test suite that prepares its test
data from an Excel workbook. The model covers:

- the `ExcelReader` class (`utils/excelReader.ts`). It reads the "Login" and "Search" sheets into typed records, groups the records by test-case id, and answers lookups by test case;
- the module `utils/excelTestData.ts`. It holds the constants computed once when the module loads, the delegating lookups, the first-record helpers and the two projections `loginUser` and `searchCondition`;
- the credential fallback of `loginAndNavigateToPIM` (`utils/testHelpers.ts:48-49`).

A workbook is the value the spreadsheet library gives back: a map from sheet name to rows.
Each row is either absent or a sequence of raw cells. A cell is `Missing`, a string, an
integer or a boolean (`Sheet.Cell`), with JavaScript falsiness (`Sheet.IsFalsy`).

A record field holds `cell || ''`. That is the cell itself, or the empty string when the
cell is falsy, so a numeric or boolean cell stays as it is. Record fields are therefore
cells, not strings. The lookups compare `testCase` with `===` against a string. The grouped
dictionary, however, indexes a plain object, and that turns the id into a property key
(`Sheet.PropertyKey`).

Modules:

- `Wrappers`: `Option` and `Result`.
- `Seqs`: an order-preserving filter by key, a map over sequences, sums and counts.
- `Sheet`: cells, rows and the width test the readers apply.
- `ExcelReader`: the records and the spec functions of the readers and the grouping. It also holds the `ExcelReader` class. Its reader methods run the source's loops and are proved equal to their spec functions. Its grouping method runs the source's two `forEach` loops on a dictionary without a prototype: it tests whether the key is present, where the source tests whether `groupedData[id]` is truthy. So it builds the corrected index `ExcelReader.Grouped` (see "## Findings").
- `GroupingAsWritten`: the plain JavaScript object the grouping code builds as written, with what it inherits from `Object.prototype`. Its lemmas say when it agrees with the corrected index and show the inputs where it does not.
- `ExcelTestData`: the module constants as one value, the lookups and the projections.
- `TestHelpers`: credential resolution, with the environment value passed in as a parameter.

The readers keep a row when it is present and has at least 3 (Login) or 7 (Search) cells.
They check nothing else. A kept row can therefore have an empty test-case id or empty
fields. The model follows the code.

## Model

| member | source | states |
|---|---|---|
| Sheet.OrEmpty | utils/excelReader.ts:67-69 | `cell \|\| ''` is the empty string exactly when the cell is falsy (JavaScript falsiness, Sheet.IsFalsy), is the cell itself otherwise, and is never `undefined`; the cell read is `row[j]`, `undefined` past the row's end (Sheet.At) |
| Sheet.PropertyKey | utils/excelReader.ts:123-124 | a string id indexes the dictionary under itself; a number under its decimal spelling, a boolean under "true" or "false", `undefined` under "undefined"; the spelling of a number is Sheet.DecimalString, an optional minus sign then its decimal digits |
| Sheet.NumericKeyIsItsSpelling | utils/excelReader.ts:123-124 | a numeric id and the string of its decimal digits index the same entry |
| Sheet.NatDigitsInjective | utils/excelReader.ts:123-124 | different natural numbers have different decimal digits |
| Sheet.DecimalSign | utils/excelReader.ts:123-124 | an integer's spelling starts with a minus sign exactly when it is negative |
| Sheet.DistinctNumericKeys | utils/excelReader.ts:123-124 | distinct numeric ids never share a key, so they never share an entry of the grouped dictionary |
| Sheet.KeptRows | utils/excelReader.ts:63-65 | the rows the loop keeps after looking at `n` rows: the header is never kept, each kept row is present, has enough cells, has rowIndex = its position + 1, and they come in strictly increasing row order, at most `n - 1` of them; a row passes the test `row && row.length >= width` (Sheet.Keeps) |
| Sheet.KeptRowsComplete | utils/excelReader.ts:63-65 | every present row after the header with enough cells is kept, with its cells |
| Sheet.KeptRowsExact | utils/excelReader.ts:63-65 | a row yields an entry exactly when it is not the header, is present and has enough cells |
| Sheet.KeptRowsExtendRow | utils/excelReader.ts:65 | adding cells to a kept row keeps the same rows with the same indices |
| Seqs.FilterBy | utils/excelReader.ts:152 | the filter returns only elements with the key, all of them, and never more than its input |
| ExcelReader.LoginOf | utils/excelReader.ts:66-71 | the record built from a kept Login row has no `undefined` field and carries the row's index |
| ExcelReader.SearchOf | utils/excelReader.ts:95-104 | the record built from a kept Search row has no `undefined` field and carries the row's index |
| ExcelReader.LoginRecordsUpTo | utils/excelReader.ts:62-73 | the Login loop's array after `n` rows, defined row by row; ExcelReader.LoginRecordsAreKept states what it holds |
| ExcelReader.SearchRecordsUpTo | utils/excelReader.ts:91-106 | the Search loop's array after `n` rows, defined row by row; ExcelReader.SearchRecordsAreKept states what it holds |
| ExcelReader.LoginRecordsAreKept | utils/excelReader.ts:62-73 | the Login loop's array after `n` rows is the record of each kept row, in order |
| ExcelReader.SearchRecordsAreKept | utils/excelReader.ts:91-106 | the Search loop's array after `n` rows is the record of each kept row, in order |
| ExcelReader.ParseLoginRows | utils/excelReader.ts:62-75 | at most one Login record per row after the header, in strictly increasing rowIndex |
| ExcelReader.ParseLoginRowsSound | utils/excelReader.ts:63-71 | each Login record comes from a row at position rowIndex - 1 ≥ 1 that has at least 3 cells, and its fields are that row's first three cells, each `\|\| ''` |
| ExcelReader.ParseSearchRows | utils/excelReader.ts:91-108 | at most one Search record per row after the header, in strictly increasing rowIndex |
| ExcelReader.ParseSearchRowsSound | utils/excelReader.ts:92-104 | each Search record comes from a row at position rowIndex - 1 ≥ 1 that has at least 7 cells, and its fields are that row's first seven cells, each `\|\| ''` |
| ExcelReader.ParseLoginRowsExact | utils/excelReader.ts:63-71 | some Login record has rowIndex i + 1 exactly when row i is not the header, is present and has at least 3 cells; that record is the one built from row i |
| ExcelReader.ParseSearchRowsExact | utils/excelReader.ts:92-104 | the same for Search rows and 7 cells |
| ExcelReader.LoginIgnoresTrailingCells | utils/excelReader.ts:66-71 | cells after the third do not change the Login records |
| ExcelReader.SearchIgnoresTrailingCells | utils/excelReader.ts:95-104 | cells after the seventh do not change the Search records |
| ExcelReader.ReadLogin | utils/excelReader.ts:53-58 | the Login reader fails with "sheet not found" exactly when the sheet is absent, and otherwise returns the parsed records |
| ExcelReader.ReadSearch | utils/excelReader.ts:82-87 | the Search reader fails with "sheet not found" exactly when the sheet is absent, and otherwise returns the parsed records |
| ExcelReader.LoginByTestCase | utils/excelReader.ts:152 | the `===` filter of the Login records by a string id; ExcelReader.LoginLookupIsFilter states its properties |
| ExcelReader.SearchByTestCase | utils/excelReader.ts:162 | the `===` filter of the Search records by a string id; ExcelReader.SearchLookupIsFilter states its properties |
| ExcelReader.LoginLookupIsFilter | utils/excelReader.ts:149-152 | the Login lookup returns only records whose testCase is the query, loses none, and keeps source order |
| ExcelReader.SearchLookupIsFilter | utils/excelReader.ts:159-162 | the Search lookup returns only records whose testCase is the query, loses none, and keeps source order |
| ExcelReader.TwoRowSheetKept | utils/excelReader.ts:63-65 | on a header plus two rows, both rows are kept as rows 2 and 3 |
| ExcelReader.TwoRowSheetParsed | utils/excelReader.ts:63-71 | on that sheet the Login reader returns the two records with rowIndex 2 and 3 |
| ExcelReader.TwoRowsOfOneTestCase | utils/excelReader.ts:149-152 | a lookup returns both records of a test case that has two rows, in sheet order |
| ExcelReader.ShortSearchRowSkipped | utils/excelReader.ts:93-94 | a Search row with five cells yields no record and no error |
| ExcelReader.Grouped | utils/excelReader.ts:120-140 | the corrected grouped index as a value: one entry per id, one bucket per kind of record that has the id; its properties are stated by ExcelReader.GroupedKeys, ExcelReader.GroupedBuckets and ExcelReader.GroupedIsPartition |
| ExcelReader.GroupedKeys | utils/excelReader.ts:120-140 | the dictionary's keys are exactly the ids in either list; an entry has a bucket of a kind exactly when a record of that kind has its id |
| ExcelReader.GroupedBuckets | utils/excelReader.ts:122-140 | every bucket is non-empty, holds only records with its id, loses none of them, and is in source order |
| ExcelReader.GroupedIsPartition | utils/excelReader.ts:120-140 | over the keys, each listed once, the bucket sizes add up to the number of Login plus Search records |
| ExcelReader.GroupedAgreesWithLookup | utils/excelReader.ts:120-162 | when every id is a string cell, the bucket for an id is exactly what the lookup for it returns, and an id without a bucket gets an empty lookup |
| ExcelReader.NumericIdGroupedButNotLookedUp | utils/excelReader.ts:123-152 | a numeric id 1 is grouped under "1", which the `===` lookup for "1" does not find |
| ExcelReader.AddLogin | utils/excelReader.ts:123-129 | one pass of the Login callback on the corrected dictionary; ExcelReader.GroupedAddLogin states its effect on the index |
| ExcelReader.AddSearch | utils/excelReader.ts:133-139 | one pass of the Search callback on the corrected dictionary; ExcelReader.GroupedAddSearch states its effect |
| ExcelReader.AddLogins | utils/excelReader.ts:122-130 | the Login `forEach` as a fold of ExcelReader.AddLogin; ExcelReader.AddLoginsGroups states its result |
| ExcelReader.AddSearches | utils/excelReader.ts:132-140 | the Search `forEach` as a fold of ExcelReader.AddSearch; ExcelReader.AddSearchesGroups states its result |
| ExcelReader.GroupedAddLogin | utils/excelReader.ts:122-130 | the index of one more Login record is the old index with that record's entry created if needed, its Login bucket created if needed, and the record appended |
| ExcelReader.GroupedAddSearch | utils/excelReader.ts:132-140 | the same for one more Search record |
| ExcelReader.AddLoginsGroups | utils/excelReader.ts:120-130 | running the Login `forEach` over the records, starting from `{}`, builds the index of the Login records |
| ExcelReader.AddSearchesGroups | utils/excelReader.ts:132-140 | running the Search `forEach` over the index of the Login records builds the index of both |
| ExcelReader.GroupLoginData | utils/excelReader.ts:120-130 | the Login loop, on a mutable dictionary, ends with the index of the Login records |
| ExcelReader.GroupSearchData | utils/excelReader.ts:132-140 | the Search loop, started from that index, ends with the index of both lists |
| ExcelReader.GroupedTestDataOf | utils/excelReader.ts:115-142 | grouping succeeds exactly when both default sheets exist; the Login sheet's absence is reported first; on success the result is the index of the two sheets' records |
| GroupingAsWritten.Lookup | utils/excelReader.ts:123 | `groupedData[id]` on the plain object: an own entry, else `Object.prototype` for `__proto__`, an inherited function for another inherited name, an array the loops hung on `Object.prototype` for `loginData` or `searchData`, else `undefined` |
| GroupingAsWritten.LoginHolder | utils/excelReader.ts:126-129 | `o.loginData` reads an array held by `o` itself or by `Object.prototype`, and only an array that exists |
| GroupingAsWritten.SearchHolder | utils/excelReader.ts:136-139 | the same for `o.searchData` |
| GroupingAsWritten.LoginStep | utils/excelReader.ts:123-129 | one pass of the Login callback as written; its effect is stated by the lemmas below |
| GroupingAsWritten.SearchStep | utils/excelReader.ts:133-139 | one pass of the Search callback as written |
| GroupingAsWritten.LoginsAsWritten | utils/excelReader.ts:122-130 | the Login `forEach` as written, as a fold of GroupingAsWritten.LoginStep |
| GroupingAsWritten.SearchesAsWritten | utils/excelReader.ts:132-140 | the Search `forEach` as written, as a fold of GroupingAsWritten.SearchStep |
| GroupingAsWritten.GroupedAsWritten | utils/excelReader.ts:120-140 | the object graph after both loops, starting from `{}` |
| GroupingAsWritten.Observed | utils/excelReader.ts:142 | what a caller sees in the returned object: one entry per own key, and under it what its `loginData` and `searchData` read |
| GroupingAsWritten.LoginStepOwn | utils/excelReader.ts:123-124 | a Login step adds the record's id to the own keys exactly when `groupedData[id]` was falsy, which never happens for an inherited name |
| GroupingAsWritten.SearchStepOwn | utils/excelReader.ts:133-134 | the same for a Search step |
| GroupingAsWritten.OwnKeysWithin | utils/excelReader.ts:120-140 | as written, every own key of the returned object is an id of the corrected index and no inherited name |
| GroupingAsWritten.OwnKeysWithoutProtoId | utils/excelReader.ts:120-140 | when no id is `__proto__`, the own keys as written are exactly the corrected index's ids less the inherited names |
| GroupingAsWritten.LoginStepPlain | utils/excelReader.ts:123-129 | while `Object.prototype` holds no array, a Login step for an id that is not inherited makes the id an own key and appends the record to that entry's own bucket, created when missing |
| GroupingAsWritten.SearchStepPlain | utils/excelReader.ts:133-139 | the same for a Search step |
| GroupingAsWritten.AsWrittenAgrees | utils/excelReader.ts:120-142 | when no id names a member of `Object.prototype`, the object as written has the corrected index's keys and a caller sees exactly its buckets |
| GroupingAsWritten.ProtoStepOnEmpty | utils/excelReader.ts:123-129 | a first Login record with id `__proto__` creates `Object.prototype.loginData` holding that record |
| GroupingAsWritten.SharedBucketStep | utils/excelReader.ts:126-129 | once `Object.prototype` holds a Login array, a record whose entry has no array of its own is pushed onto that shared array |
| GroupingAsWritten.ConstructorIdLostAsWritten | utils/excelReader.ts:122-130 | a Login record with id `constructor` leaves the returned object without keys and its bucket on the `Object` function, while the corrected index holds it |
| GroupingAsWritten.ProtoIdCapturesLaterIdAsWritten | utils/excelReader.ts:122-130 | Login ids `__proto__` then `loginData` leave the returned object without keys and both records on `Object.prototype.loginData`, while the corrected index has two keys |
| GroupingAsWritten.ProtoIdSharesBucketAsWritten | utils/excelReader.ts:122-130 | after a `__proto__` record, an id `TC_Login_01` gets an own entry whose `loginData` shows both records, while its corrected bucket holds only its own |
| ExcelReader.ExcelReader.constructor | utils/excelReader.ts:40-47 | the reader holds the workbook it was given |
| ExcelReader.ExcelReader.ReadLoginTestData | utils/excelReader.ts:53-80 | the method, with its loop and pushes, returns what the Login reader specifies |
| ExcelReader.ExcelReader.ReadSearchTestData | utils/excelReader.ts:82-113 | the method, with its loop and pushes, returns what the Search reader specifies |
| ExcelReader.ExcelReader.GetGroupedTestData | utils/excelReader.ts:115-147 | the method reads both sheets, then folds the records into the dictionary, and returns the grouped index or the first read error |
| ExcelReader.ExcelReader.GetLoginDataByTestCase | utils/excelReader.ts:149-157 | fails only when the Login sheet is absent; otherwise returns exactly the records whose testCase is the query, in source order (an unknown id gives an empty list) |
| ExcelReader.ExcelReader.GetSearchDataByTestCase | utils/excelReader.ts:159-167 | fails only when the Search sheet is absent; otherwise returns exactly the records whose testCase is the query, in source order |
| ExcelReader.ExcelReader.GetTestDataByTestCase | utils/excelReader.ts:169-182 | the first Login match wins; with no Login match the first Search match, else null; the Search sheet matters only when no Login record matches; any result has the queried testCase |
| ExcelReader.ExcelReader.GetAllTestData | utils/excelReader.ts:184-189 | both sheets' records, or the first missing sheet, Login first |
| ExcelTestData.ToLoginUser | utils/excelTestData.ts:39-42 | the `{ username, password }` object of one Login record; ExcelTestData.LoginUsers states the projection of the list |
| ExcelTestData.ToSearchCondition | utils/excelTestData.ts:44-51 | the six search fields of one Search record; ExcelTestData.SearchConditions states the projection of the list |
| ExcelTestData.LoginUsers | utils/excelTestData.ts:39-42 | same length and order as the Login records; element i carries record i's username and password |
| ExcelTestData.SearchConditions | utils/excelTestData.ts:44-51 | same length and order as the Search records; element i carries record i's six search fields |
| ExcelTestData.LoadExcelTestData | utils/excelTestData.ts:4-51 | loading the module succeeds exactly when both sheets exist (Login is checked first), and yields the parsed records, their index, both lists, and the two projections |
| ExcelTestData.GetLoginDataByTestCase | utils/excelTestData.ts:14-16 | the reader's Login lookup, failing only on a missing sheet, every result with the queried testCase |
| ExcelTestData.GetSearchDataByTestCase | utils/excelTestData.ts:23-25 | the reader's Search lookup, failing only on a missing sheet, every result with the queried testCase |
| ExcelTestData.GetFirstLoginDataByTestCase | utils/excelTestData.ts:27-30 | undefined exactly when no Login record has the queried testCase; otherwise a record with that testCase, from the sheet, whose rowIndex is the smallest of them |
| ExcelTestData.GetFirstSearchDataByTestCase | utils/excelTestData.ts:32-35 | undefined exactly when no Search record has the queried testCase; otherwise the earliest such record |
| ExcelTestData.LookupsAgreeWithLoadedData | utils/excelTestData.ts:5-35 | the re-reading lookups equal the filters of the records loaded once, and the first-record helpers return element 0 of that filter, or undefined |
| TestHelpers.ResolveCredential | utils/testHelpers.ts:48-49 | a non-empty argument is used; else a non-empty environment value; else the default; never empty when the default is not |
| TestHelpers.ResolveUsername | utils/testHelpers.ts:48 | the resolved username is never empty (default "Admin") |
| TestHelpers.ResolvePassword | utils/testHelpers.ts:49 | the resolved password is never empty (default "admin123") |
| TestHelpers.ResolveIsStable | utils/testHelpers.ts:48-49 | resolving an already resolved credential again gives it back |

## Left out

- Reading the file (`XLSX.readFile`) and turning a sheet into rows (`sheet_to_json`) belong to a foreign library. The workbook is taken as already parsed, so the constructor's read error and the file path constant in `utils/excelTestData.ts` are not modelled.
- Cell values are limited to integers, strings and booleans. Fractional numbers, `NaN`, dates, and the exponent form that large numbers print as are not modelled.
- `getSheetNames`, `getTestDataWithRowInfo`, `debugTestData` and every `console` call only report diagnostics. They are not modelled.
- The `catch`/rethrow blocks only log and rethrow the same error. The error is the `Failure` of a `Result`.
- The fixture factories `createLoginTestDataFixture` and `createSearchTestDataFixture` do asynchronous file I/O. They are not modelled.
- The page objects, the test specs, the runner configuration, and the browser steps of `loginAndNavigateToPIM` are not part of this model.
- JavaScript's enumeration order of the dictionary's keys is not modelled. The index is a map.
- ExcelReader.GroupLoginData: tests whether the key is present, where the source tests whether `groupedData[id]` and `.loginData` are truthy, so it builds the corrected index. GroupingAsWritten.AsWrittenAgrees shows that both coincide when no id names a member of `Object.prototype`; GroupingAsWritten models the source's object otherwise.
- ExcelReader.GroupSearchData: the same for the Search loop.
- ExcelReader.ExcelReader.GetGroupedTestData: returns the corrected index, for the same reason.
- ExcelReader.GroupedTestDataOf: is the corrected index, for the same reason.
- ExcelTestData.LoadExcelTestData: its grouped index is the corrected one, for the same reason.
- ExcelReader.ReadLogin: treats every sheet name outside the workbook as a missing sheet. In the source, a name inherited by the `Sheets` object (such as `toString`) passes the `!worksheet` test and hands a function to the foreign `sheet_to_json`, which is not modelled. The same holds for ExcelReader.ExcelReader.ReadLoginTestData.
- ExcelReader.ReadSearch: the same for the Search sheet and ExcelReader.ExcelReader.ReadSearchTestData.
- GroupingAsWritten.Lookup: knows only the standard names of `Object.prototype`. Properties that other code adds to `Object.prototype` are not modelled.
- ExcelReader.ParseLoginRows: the per-record facts are stated by ExcelReader.ParseLoginRowsSound, one index at a time, not as a quantified postcondition of the function.
- ExcelReader.ParseSearchRows: the per-record facts are stated by ExcelReader.ParseSearchRowsSound, one index at a time.

## Findings

| source | as written | input that shows it | evidently intended | confidence | as-written member | corrected member |
|---|---|---|---|---|---|---|
| utils/excelReader.ts:122-140 | `groupedData` is a plain object literal, so `!groupedData[id]` is false for names inherited from `Object.prototype`: no own entry is created and the records are attached to the inherited object; after an id `__proto__`, `Object.prototype.loginData` exists, and later records whose entry has no `loginData` array of its own (a new id, or an inherited name) are pushed onto it | one Login row whose test-case id is `constructor`: the returned object has no key for it; Login ids `__proto__` then `loginData`: no key at all; `__proto__` then `TC_Login_01`: that entry shows both records | every id that occurs is a key of the index with only its own records, however it is spelled (a dictionary without a prototype, or a `Map`) | not executed | GroupingAsWritten.ConstructorIdLostAsWritten | ExcelReader.GroupedKeys |
