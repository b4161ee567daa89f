/** The dictionary `getGroupedTestData` builds, as the code is written. `groupedData` is
    a plain object literal, so reading `groupedData[id]` or `entry.loginData` also finds
    what the object inherits from `Object.prototype`, and writing through such a read
    changes the inherited object. This module models that object graph step by step; the
    rest of the model uses the corrected index `ExcelReader.Grouped`, and the lemmas here
    say where the two agree and where they part. */
module GroupingAsWritten {
  import opened Wrappers
  import opened Sheet
  import opened ExcelReader

  /** The names every plain object inherits from `Object.prototype`. */
  const ObjectPrototypeNames: set<string> := {
    "constructor", "__proto__", "__defineGetter__", "__defineSetter__", "__lookupGetter__",
    "__lookupSetter__", "hasOwnProperty", "isPrototypeOf", "propertyIsEnumerable",
    "toString", "toLocaleString", "valueOf"}

  /** The objects the loops can reach from `groupedData`: `Object.prototype` itself, an
      inherited member (a function), the entry created for an own key, and the arrays
      held in the `loginData` or `searchData` property of an object. */
  datatype JsObject =
    | ObjectPrototype
    | Builtin(name: string)
    | Entry(key: string)
    | LoginArray(owner: JsObject)
    | SearchArray(owner: JsObject)

  /** What the loops change: the own keys of `groupedData`, and for every object with an
      own `loginData` (`searchData`) property, the array it holds. */
  datatype Heap = Heap(
    own: set<string>,
    loginData: map<JsObject, seq<LoginTestData>>,
    searchData: map<JsObject, seq<SearchTestData>>)

  const EmptyHeap := Heap({}, map[], map[])

  /** `groupedData[key]`, `None` for `undefined`. Every object is truthy, so `None` is
      also exactly when `!groupedData[key]` holds. The prototype chain of `groupedData`
      ends at `Object.prototype`, whose `__proto__` getter returns `Object.prototype`
      itself and whose other names are functions; the only properties the loops add to
      it are `loginData` and `searchData`. */
  function Lookup(h: Heap, key: string): Option<JsObject>
  {
    if key in h.own then Some(Entry(key))
    else if key == "__proto__" then Some(ObjectPrototype)
    else if key in ObjectPrototypeNames then Some(Builtin(key))
    else if key == "loginData" && ObjectPrototype in h.loginData then Some(LoginArray(ObjectPrototype))
    else if key == "searchData" && ObjectPrototype in h.searchData then Some(SearchArray(ObjectPrototype))
    else None
  }

  /** The object whose own `loginData` property `o.loginData` reads: `o` itself, or else
      `Object.prototype`, which ends the chain of every object here. */
  function LoginHolder(h: Heap, o: JsObject): (r: Option<JsObject>)
    ensures r.Some? ==> r.value in h.loginData
  {
    if o in h.loginData then Some(o)
    else if ObjectPrototype in h.loginData then Some(ObjectPrototype)
    else None
  }

  function SearchHolder(h: Heap, o: JsObject): (r: Option<JsObject>)
    ensures r.Some? ==> r.value in h.searchData
  {
    if o in h.searchData then Some(o)
    else if ObjectPrototype in h.searchData then Some(ObjectPrototype)
    else None
  }

  /** One pass of the Login `forEach` callback: create `groupedData[id] = {}` when the
      read is falsy, then `.loginData = []` on what the read now gives when that is
      falsy, then push onto the array `.loginData` then reads. */
  function LoginStep(h: Heap, d: LoginTestData): Heap
  {
    var key := LoginKey(d);
    var h1 := if Lookup(h, key).None? then h.(own := h.own + {key}) else h;
    var o := Lookup(h1, key).value;
    var h2 := if LoginHolder(h1, o).None? then h1.(loginData := h1.loginData[o := []]) else h1;
    var a := LoginHolder(h2, o).value;
    h2.(loginData := h2.loginData[a := h2.loginData[a] + [d]])
  }

  /** One pass of the Search `forEach` callback. */
  function SearchStep(h: Heap, d: SearchTestData): Heap
  {
    var key := SearchKey(d);
    var h1 := if Lookup(h, key).None? then h.(own := h.own + {key}) else h;
    var o := Lookup(h1, key).value;
    var h2 := if SearchHolder(h1, o).None? then h1.(searchData := h1.searchData[o := []]) else h1;
    var a := SearchHolder(h2, o).value;
    h2.(searchData := h2.searchData[a := h2.searchData[a] + [d]])
  }

  function LoginsAsWritten(h: Heap, s: seq<LoginTestData>): Heap
    decreases |s|
  {
    if |s| == 0 then h else LoginStep(LoginsAsWritten(h, s[..|s| - 1]), s[|s| - 1])
  }

  function SearchesAsWritten(h: Heap, s: seq<SearchTestData>): Heap
    decreases |s|
  {
    if |s| == 0 then h else SearchStep(SearchesAsWritten(h, s[..|s| - 1]), s[|s| - 1])
  }

  /** The object graph after both loops of `getGroupedTestData`. */
  function GroupedAsWritten(login: seq<LoginTestData>, search: seq<SearchTestData>): Heap
  {
    SearchesAsWritten(LoginsAsWritten(EmptyHeap, login), search)
  }

  /** What a caller of the returned object sees: one entry per own key, whose
      `loginData` and `searchData` read what the prototype chain gives. */
  function Observed(h: Heap): GroupedTestData
  {
    map k | k in h.own ::
      TestCaseGroup(
        if LoginHolder(h, Entry(k)).Some? then Some(h.loginData[LoginHolder(h, Entry(k)).value]) else None,
        if SearchHolder(h, Entry(k)).Some? then Some(h.searchData[SearchHolder(h, Entry(k)).value]) else None)
  }

  // ---------------------------------------------------------------------------------
  // Own keys

  /** A step adds the record's key to the own keys exactly when the read was falsy, and
      that never happens for an inherited name. */
  lemma LoginStepOwn(h: Heap, d: LoginTestData)
    ensures LoginStep(h, d).own == if Lookup(h, LoginKey(d)).None? then h.own + {LoginKey(d)} else h.own
    ensures Lookup(h, LoginKey(d)).None? ==> LoginKey(d) !in ObjectPrototypeNames
  {
  }

  lemma SearchStepOwn(h: Heap, d: SearchTestData)
    ensures SearchStep(h, d).own == if Lookup(h, SearchKey(d)).None? then h.own + {SearchKey(d)} else h.own
    ensures Lookup(h, SearchKey(d)).None? ==> SearchKey(d) !in ObjectPrototypeNames
  {
  }

  lemma {:induction false} LoginsOwnWithin(h: Heap, s: seq<LoginTestData>, keys: set<string>)
    requires h.own <= keys - ObjectPrototypeNames
    ensures LoginsAsWritten(h, s).own <= (keys + LoginKeys(s)) - ObjectPrototypeNames
    decreases |s|
  {
    if |s| > 0 {
      var front, d := s[..|s| - 1], s[|s| - 1];
      assert front + [d] == s;
      LoginsOwnWithin(h, front, keys);
      LoginKeysAppend(front, d);
      LoginStepOwn(LoginsAsWritten(h, front), d);
    }
  }

  lemma {:induction false} SearchesOwnWithin(h: Heap, s: seq<SearchTestData>, keys: set<string>)
    requires h.own <= keys - ObjectPrototypeNames
    ensures SearchesAsWritten(h, s).own <= (keys + SearchKeys(s)) - ObjectPrototypeNames
    decreases |s|
  {
    if |s| > 0 {
      var front, d := s[..|s| - 1], s[|s| - 1];
      assert front + [d] == s;
      SearchesOwnWithin(h, front, keys);
      SearchKeysAppend(front, d);
      SearchStepOwn(SearchesAsWritten(h, front), d);
    }
  }

  /** As written, the returned object never has an own key for an id that is not in
      the corrected index, nor for an inherited name. */
  lemma OwnKeysWithin(login: seq<LoginTestData>, search: seq<SearchTestData>)
    ensures GroupedAsWritten(login, search).own <= Grouped(login, search).Keys - ObjectPrototypeNames
  {
    LoginsOwnWithin(EmptyHeap, login, {});
    SearchesOwnWithin(LoginsAsWritten(EmptyHeap, login), search, LoginKeys(login));
    assert Grouped(login, search).Keys == LoginKeys(login) + SearchKeys(search);
  }

  /** Without a record whose id is `__proto__`, `Object.prototype` never gets an array. */
  predicate NoPrototypeArray(h: Heap)
  {
    ObjectPrototype !in h.loginData && ObjectPrototype !in h.searchData
  }

  lemma {:induction false} LoginsOwnExact(h: Heap, s: seq<LoginTestData>, keys: set<string>)
    requires NoPrototypeArray(h) && h.own == keys - ObjectPrototypeNames
    requires "__proto__" !in LoginKeys(s)
    ensures NoPrototypeArray(LoginsAsWritten(h, s))
    ensures LoginsAsWritten(h, s).own == (keys + LoginKeys(s)) - ObjectPrototypeNames
    decreases |s|
  {
    if |s| > 0 {
      var front, d := s[..|s| - 1], s[|s| - 1];
      assert front + [d] == s;
      LoginKeysAppend(front, d);
      LoginsOwnExact(h, front, keys);
      LoginStepOwn(LoginsAsWritten(h, front), d);
    }
  }

  lemma {:induction false} SearchesOwnExact(h: Heap, s: seq<SearchTestData>, keys: set<string>)
    requires NoPrototypeArray(h) && h.own == keys - ObjectPrototypeNames
    requires "__proto__" !in SearchKeys(s)
    ensures NoPrototypeArray(SearchesAsWritten(h, s))
    ensures SearchesAsWritten(h, s).own == (keys + SearchKeys(s)) - ObjectPrototypeNames
    decreases |s|
  {
    if |s| > 0 {
      var front, d := s[..|s| - 1], s[|s| - 1];
      assert front + [d] == s;
      SearchKeysAppend(front, d);
      SearchesOwnExact(h, front, keys);
      SearchStepOwn(SearchesAsWritten(h, front), d);
    }
  }

  /** When no id is `__proto__`, the own keys as written are exactly the ids of the
      corrected index less the inherited names. */
  lemma OwnKeysWithoutProtoId(login: seq<LoginTestData>, search: seq<SearchTestData>)
    requires "__proto__" !in LoginKeys(login) + SearchKeys(search)
    ensures GroupedAsWritten(login, search).own == Grouped(login, search).Keys - ObjectPrototypeNames
  {
    LoginsOwnExact(EmptyHeap, login, {});
    SearchesOwnExact(LoginsAsWritten(EmptyHeap, login), search, LoginKeys(login));
    assert Grouped(login, search).Keys == LoginKeys(login) + SearchKeys(search);
  }

  // ---------------------------------------------------------------------------------
  // Agreement with the corrected index

  /** `h` holds the index `g`: `g`'s keys are the own keys, each entry holds exactly
      the buckets of `g` in its own properties, and `Object.prototype` holds none. */
  ghost predicate Mirrors(h: Heap, g: GroupedTestData)
  {
    h.own == g.Keys && NoPrototypeArray(h) &&
    (forall k :: Entry(k) in h.loginData <==> k in g && g[k].loginData.Some?) &&
    (forall k :: Entry(k) in h.loginData ==> h.loginData[Entry(k)] == g[k].loginData.value) &&
    (forall k :: Entry(k) in h.searchData <==> k in g && g[k].searchData.Some?) &&
    (forall k :: Entry(k) in h.searchData ==> h.searchData[Entry(k)] == g[k].searchData.value)
  }

  lemma MirrorsObserved(h: Heap, g: GroupedTestData)
    requires Mirrors(h, g)
    ensures Observed(h) == g
  {
    var o := Observed(h);
    forall k | k in g ensures o[k] == g[k] { }
  }

  /** While `Object.prototype` holds no array, the step for an id that is not an
      inherited name is an ordinary dictionary update: the id becomes an own key and the
      record is appended to that entry's own bucket, created when missing. */
  lemma LoginStepPlain(h: Heap, d: LoginTestData)
    requires NoPrototypeArray(h) && LoginKey(d) !in ObjectPrototypeNames
    ensures var e := Entry(LoginKey(d));
      LoginStep(h, d) == h.(own := h.own + {LoginKey(d)},
        loginData := h.loginData[e := (if e in h.loginData then h.loginData[e] else []) + [d]])
  {
  }

  lemma SearchStepPlain(h: Heap, d: SearchTestData)
    requires NoPrototypeArray(h) && SearchKey(d) !in ObjectPrototypeNames
    ensures var e := Entry(SearchKey(d));
      SearchStep(h, d) == h.(own := h.own + {SearchKey(d)},
        searchData := h.searchData[e := (if e in h.searchData then h.searchData[e] else []) + [d]])
  {
  }

  lemma LoginStepMirrors(h: Heap, g: GroupedTestData, d: LoginTestData)
    requires Mirrors(h, g) && LoginKey(d) !in ObjectPrototypeNames
    ensures Mirrors(LoginStep(h, d), AddLogin(g, d))
  {
    LoginStepPlain(h, d);
  }

  lemma SearchStepMirrors(h: Heap, g: GroupedTestData, d: SearchTestData)
    requires Mirrors(h, g) && SearchKey(d) !in ObjectPrototypeNames
    ensures Mirrors(SearchStep(h, d), AddSearch(g, d))
  {
    SearchStepPlain(h, d);
  }

  lemma {:induction false} LoginsMirror(s: seq<LoginTestData>)
    requires LoginKeys(s) !! ObjectPrototypeNames
    ensures Mirrors(LoginsAsWritten(EmptyHeap, s), Grouped(s, []))
    decreases |s|
  {
    if |s| == 0 {
      assert Grouped(s, []).Keys == {};
    } else {
      var front, d := s[..|s| - 1], s[|s| - 1];
      assert front + [d] == s;
      LoginKeysAppend(front, d);
      LoginsMirror(front);
      GroupedAddLogin(front, [], d);
      LoginStepMirrors(LoginsAsWritten(EmptyHeap, front), Grouped(front, []), d);
    }
  }

  lemma {:induction false} SearchesMirror(h: Heap, login: seq<LoginTestData>, s: seq<SearchTestData>)
    requires Mirrors(h, Grouped(login, [])) && SearchKeys(s) !! ObjectPrototypeNames
    ensures Mirrors(SearchesAsWritten(h, s), Grouped(login, s))
    decreases |s|
  {
    if |s| > 0 {
      var front, d := s[..|s| - 1], s[|s| - 1];
      assert front + [d] == s;
      SearchKeysAppend(front, d);
      SearchesMirror(h, login, front);
      GroupedAddSearch(login, front, d);
      SearchStepMirrors(SearchesAsWritten(h, front), Grouped(login, front), d);
    }
  }

  /** When no id names a member of `Object.prototype`, the code as written builds
      exactly the corrected index: the same own keys and, under each, the same buckets. */
  lemma AsWrittenAgrees(login: seq<LoginTestData>, search: seq<SearchTestData>)
    requires (LoginKeys(login) + SearchKeys(search)) !! ObjectPrototypeNames
    ensures GroupedAsWritten(login, search).own == Grouped(login, search).Keys
    ensures Observed(GroupedAsWritten(login, search)) == Grouped(login, search)
  {
    LoginsMirror(login);
    SearchesMirror(LoginsAsWritten(EmptyHeap, login), login, search);
    MirrorsObserved(GroupedAsWritten(login, search), Grouped(login, search));
  }

  // ---------------------------------------------------------------------------------
  // Where the code as written parts from the corrected index

  /** A Login row whose id is "constructor": the read finds the inherited `Object`
      function, so no own key is created and the bucket is hung on that function; the
      returned object has no key, while the corrected index holds the record. */
  lemma ConstructorIdLostAsWritten()
    ensures var d := LoginTestData(Str("constructor"), Str("Admin"), Str("admin123"), 2);
      var h := GroupedAsWritten([d], []);
      h.own == {} && h.loginData == map[Builtin("constructor") := [d]] &&
      Grouped([d], []) == map["constructor" := TestCaseGroup(Some([d]), None)]
  {
    var d := LoginTestData(Str("constructor"), Str("Admin"), Str("admin123"), 2);
    var k := "constructor";
    assert [d][..0] == [];
    assert LoginKey(d) == k && k in ObjectPrototypeNames && k != "__proto__";
    assert Lookup(EmptyHeap, k) == Some(Builtin(k));
    var h2 := EmptyHeap.(loginData := map[Builtin(k) := []]);
    assert LoginHolder(h2, Builtin(k)) == Some(Builtin(k));
    assert [] + [d] == [d];
    assert h2.loginData[Builtin(k) := [] + [d]] == map[Builtin(k) := [d]];
    assert LoginStep(EmptyHeap, d) == Heap({}, map[Builtin(k) := [d]], map[]);
    AddLoginsGroups([d]);
    AddLoginsStep(map[], [d], 0);
    assert [d][..1] == [d];
  }

  /** The first record whose id is "__proto__" creates `Object.prototype.loginData`. */
  lemma ProtoStepOnEmpty(d: LoginTestData)
    requires d.testCase == Str("__proto__")
    ensures LoginStep(EmptyHeap, d) == Heap({}, map[ObjectPrototype := [d]], map[])
  {
    assert LoginKey(d) == "__proto__";
    assert Lookup(EmptyHeap, "__proto__") == Some(ObjectPrototype);
    var h2 := EmptyHeap.(loginData := map[ObjectPrototype := []]);
    assert LoginHolder(h2, ObjectPrototype) == Some(ObjectPrototype);
    assert [] + [d] == [d];
    assert h2.loginData[ObjectPrototype := [] + [d]] == map[ObjectPrototype := [d]];
  }

  /** Once `Object.prototype` holds a Login array, a record whose id is no inherited name
      and whose entry has no array of its own is pushed onto that shared array. */
  lemma SharedBucketStep(h: Heap, d: LoginTestData)
    requires ObjectPrototype in h.loginData && LoginKey(d) !in ObjectPrototypeNames
    requires Entry(LoginKey(d)) !in h.loginData
    requires LoginArray(ObjectPrototype) !in h.loginData && SearchArray(ObjectPrototype) !in h.loginData
    ensures LoginStep(h, d).loginData == h.loginData[ObjectPrototype := h.loginData[ObjectPrototype] + [d]]
  {
  }

  /** Login ids "__proto__" then "loginData": the first read gives `Object.prototype`
      itself, so the first record creates `Object.prototype.loginData`; the second id
      then reads that inherited array, and its record is pushed onto it as well. The
      returned object has no own key at all, while the corrected index has two. */
  lemma ProtoIdCapturesLaterIdAsWritten()
    ensures var d1 := LoginTestData(Str("__proto__"), Str("Admin"), Str("admin123"), 2);
      var d2 := LoginTestData(Str("loginData"), Str("Admin"), Str("admin123"), 3);
      var h := GroupedAsWritten([d1, d2], []);
      h.own == {} && h.loginData == map[ObjectPrototype := [d1, d2]] &&
      Grouped([d1, d2], []).Keys == {"__proto__", "loginData"}
  {
    var d1 := LoginTestData(Str("__proto__"), Str("Admin"), Str("admin123"), 2);
    var d2 := LoginTestData(Str("loginData"), Str("Admin"), Str("admin123"), 3);
    ProtoThenLoginDataHeap(d1, d2);
    ProtoIdCapturesLaterIdIndex(d1, d2);
  }

  lemma ProtoThenLoginDataHeap(d1: LoginTestData, d2: LoginTestData)
    requires d1.testCase == Str("__proto__") && d2.testCase == Str("loginData")
    ensures GroupedAsWritten([d1, d2], []) == Heap({}, map[ObjectPrototype := [d1, d2]], map[])
  {
    var h1 := ProtoFirstHeap(d1, d2);
    assert LoginKey(d2) == "loginData" && Lookup(h1, "loginData").Some?;
    LoginStepOwn(h1, d2);
    SharedBucketStep(h1, d2);
    assert [d1] + [d2] == [d1, d2];
  }

  /** The heap after the first of two Login records whose first id is "__proto__", and
      the fold over both as one more step from it. */
  lemma ProtoFirstHeap(d1: LoginTestData, d2: LoginTestData) returns (h1: Heap)
    requires d1.testCase == Str("__proto__")
    ensures h1 == Heap({}, map[ObjectPrototype := [d1]], map[])
    ensures GroupedAsWritten([d1, d2], []) == LoginStep(h1, d2)
  {
    h1 := Heap({}, map[ObjectPrototype := [d1]], map[]);
    assert [d1, d2][..1] == [d1] && [d1][..0] == [];
    ProtoStepOnEmpty(d1);
    assert LoginsAsWritten(EmptyHeap, [d1]) == LoginStep(LoginsAsWritten(EmptyHeap, []), d1);
    assert LoginsAsWritten(EmptyHeap, [d1, d2]) == LoginStep(LoginsAsWritten(EmptyHeap, [d1]), d2);
  }

  lemma ProtoIdCapturesLaterIdIndex(d1: LoginTestData, d2: LoginTestData)
    requires d1.testCase == Str("__proto__") && d2.testCase == Str("loginData")
    ensures Grouped([d1, d2], []).Keys == {"__proto__", "loginData"}
  {
    LoginKeysAppend([d1], d2);
    LoginKeysAppend([], d1);
    assert [] + [d1] == [d1] && [d1] + [d2] == [d1, d2];
    assert LoginKeys([]) == {};
    assert Grouped([d1, d2], []).Keys == LoginKeys([d1, d2]);
  }

  /** Login ids "__proto__" then "TC_Login_01": the second id gets an own entry, but its
      `loginData` is the inherited array of the first, so a caller reading that entry
      sees both records, where the corrected index has only its own. */
  lemma ProtoIdSharesBucketAsWritten()
    ensures var d1 := LoginTestData(Str("__proto__"), Str("Admin"), Str("admin123"), 2);
      var d2 := LoginTestData(Str("TC_Login_01"), Str("Admin"), Str("admin123"), 3);
      var h := GroupedAsWritten([d1, d2], []);
      h.own == {"TC_Login_01"} &&
      Observed(h)["TC_Login_01"].loginData == Some([d1, d2]) &&
      "TC_Login_01" in Grouped([d1, d2], []) &&
      Grouped([d1, d2], [])["TC_Login_01"].loginData == Some([d2])
  {
    var d1 := LoginTestData(Str("__proto__"), Str("Admin"), Str("admin123"), 2);
    var d2 := LoginTestData(Str("TC_Login_01"), Str("Admin"), Str("admin123"), 3);
    ProtoThenOtherIdHeap(d1, d2);
    var h2 := Heap({"TC_Login_01"}, map[ObjectPrototype := [d1, d2]], map[]);
    assert LoginHolder(h2, Entry("TC_Login_01")) == Some(ObjectPrototype);
    ProtoIdSharesBucketIndex(d1, d2);
  }

  lemma ProtoThenOtherIdHeap(d1: LoginTestData, d2: LoginTestData)
    requires d1.testCase == Str("__proto__") && d2.testCase == Str("TC_Login_01")
    ensures GroupedAsWritten([d1, d2], []) == Heap({"TC_Login_01"}, map[ObjectPrototype := [d1, d2]], map[])
  {
    var h1 := ProtoFirstHeap(d1, d2);
    assert LoginKey(d2) == "TC_Login_01" && "TC_Login_01" !in ObjectPrototypeNames;
    assert "TC_Login_01" != "loginData" && "TC_Login_01" != "searchData";
    assert Lookup(h1, "TC_Login_01") == None;
    LoginStepOwn(h1, d2);
    SharedBucketStep(h1, d2);
    assert [d1] + [d2] == [d1, d2];
  }

  lemma ProtoIdSharesBucketIndex(d1: LoginTestData, d2: LoginTestData)
    requires d1.testCase == Str("__proto__") && d2.testCase == Str("TC_Login_01")
    ensures var g := Grouped([d1, d2], []);
      "TC_Login_01" in g && g["TC_Login_01"].loginData == Some([d2])
  {
    var k1, k2 := "__proto__", "TC_Login_01";
    assert LoginKey(d1) == k1 && LoginKey(d2) == k2 && k1 != k2;
    GroupedAddLogin([d1], [], d2);
    GroupedAddLogin([], [], d1);
    AddLoginsGroups([]);
    assert [] + [d1] == [d1] && [d1] + [d2] == [d1, d2] && [] + [d2] == [d2];
    var g1 := map[k1 := TestCaseGroup(Some([d1]), None)];
    assert Grouped([d1], []) == g1;
    assert AddLogin(g1, d2) == g1[k2 := TestCaseGroup(Some([d2]), None)];
  }
}
