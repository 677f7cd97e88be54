/**
 * Normalisation of the `methods` argument of a route registration.
 *
 * `CheckHttpMethods` is the function of both current helper files; the legacy
 * normaliser of `utils.js` is `CheckHttpMethodsLegacy` (as written) and
 * `CheckHttpMethodsLegacyFixed` (with the filter it evidently intends).
 */
module HttpMethods {
  import opened Js
  import opened Sorting

  /** `Object.values(HttpMethods)`: each method keyed by its own name. */
  const All: seq<string> := ["GET", "POST", "PUT", "DELETE", "HEAD", "OPTIONS"]

  predicate IsMethod(m: string) {
    m in All
  }

  function UpperAll(xs: seq<string>): (ys: seq<string>)
    ensures |ys| == |xs| && forall i :: 0 <= i < |xs| ==> ys[i] == ToUpper(xs[i])
  {
    if xs == [] then [] else [ToUpper(xs[0])] + UpperAll(xs[1..])
  }

  ghost predicate Distinct(xs: seq<string>) {
    forall i, j :: 0 <= i < j < |xs| ==> xs[i] != xs[j]
  }

  /** `Array.from(new Set(xs))`: the first occurrence of each element, in order. */
  function Dedup(xs: seq<string>): (ys: seq<string>)
    ensures Distinct(ys)
    ensures forall x :: x in ys <==> x in xs
  {
    if xs == [] then []
    else
      var rest := Dedup(xs[..|xs| - 1]);
      assert forall x :: x in xs <==> x in xs[..|xs| - 1] || x == xs[|xs| - 1];
      if xs[|xs| - 1] in rest then rest else rest + [xs[|xs| - 1]]
  }

  lemma {:induction false} DedupOfDistinct(xs: seq<string>)
    requires Distinct(xs)
    ensures Dedup(xs) == xs
  {
    if xs != [] {
      DedupOfDistinct(xs[..|xs| - 1]);
      assert xs == xs[..|xs| - 1] + [xs[|xs| - 1]];
    }
  }

  /** `xs.filter((method) => method in HttpMethods)` */
  function OnlyMethods(xs: seq<string>): (ys: seq<string>)
    ensures forall x :: x in ys <==> x in xs && IsMethod(x)
    ensures Distinct(xs) ==> Distinct(ys)
  {
    if xs == [] then []
    else
      var rest := OnlyMethods(xs[1..]);
      assert forall x :: x in xs <==> x == xs[0] || x in xs[1..];
      if IsMethod(xs[0]) then [xs[0]] + rest else rest
  }

  /** The list the `methods` argument stands for, before normalisation. */
  function Listed(methods: Arg): Option<seq<string>> {
    match methods
    case AStr(s) => if s == "*" then Some(All) else Some([s])
    case AList(xs) => Some(xs)
    case _ => None
  }

  /** Upper-cased, first occurrences only, recognised methods only. */
  function Normalised(xs: seq<string>): (ms: seq<string>)
    ensures Distinct(ms)
    ensures forall m :: m in ms <==> m in UpperAll(xs) && IsMethod(m)
  {
    OnlyMethods(Dedup(UpperAll(xs)))
  }

  /**
   * `checkHttpMethods`: the recognised methods among the upper-cased names,
   * each once, sorted; throws on a wrong argument type or when none remains.
   */
  function CheckHttpMethods(methods: Arg): Result<seq<string>> {
    match Listed(methods)
    case None => Err("TypeError: Methods must be a string or a list of strings")
    case Some(xs) =>
      var ms := Normalised(xs);
      if ms == [] then Err("TypeError: Methods must contain at least one valid http method")
      else Ok(SortStrings(ms))
  }

  /**
   * `checkHttpMethods` accepts exactly the arguments that name some
   * recognised method (in any case); the result is those methods, each
   * once, in ascending order, and each error has its own message.
   */
  lemma CheckHttpMethodsMeaning(methods: Arg)
    ensures var r := CheckHttpMethods(methods);
      && (r.Ok? <==> Listed(methods).Some? && exists m :: m in UpperAll(Listed(methods).value) && IsMethod(m))
      && (r.Ok? ==>
            && r.value != []
            && StrictlyAscending(r.value)
            && forall m :: m in r.value <==> m in UpperAll(Listed(methods).value) && IsMethod(m))
      && (Listed(methods).None? ==> r == Err("TypeError: Methods must be a string or a list of strings"))
      && (Listed(methods).Some? && r.Err? ==> r == Err("TypeError: Methods must contain at least one valid http method"))
  {
    if Listed(methods).Some? {
      var ms := Normalised(Listed(methods).value);
      if ms != [] {
        assert ms[0] in ms;
        SortStringsMembers(ms);
      }
    }
  }

  /** What a route keeps of a successful check: a non-empty list of methods. */
  lemma CheckHttpMethodsValid(methods: Arg)
    ensures CheckHttpMethods(methods).Ok? ==>
      CheckHttpMethods(methods).value != [] && forall m :: m in CheckHttpMethods(methods).value ==> IsMethod(m)
  {
    CheckHttpMethodsMeaning(methods);
  }

  lemma ToUpperOfUpper(s: string)
    requires forall k :: 0 <= k < |s| ==> !('a' <= s[k] <= 'z')
    ensures ToUpper(s) == s
  {
  }

  lemma {:induction false} OnlyMethodsOfMethods(xs: seq<string>)
    requires forall x :: x in xs ==> IsMethod(x)
    ensures OnlyMethods(xs) == xs
  {
    if xs != [] {
      OnlyMethodsOfMethods(xs[1..]);
    }
  }

  lemma {:induction false} UpperAllOfUpper(xs: seq<string>)
    requires forall x :: x in xs ==> ToUpper(x) == x
    ensures UpperAll(xs) == xs
  {
    forall i | 0 <= i < |xs| ensures UpperAll(xs)[i] == xs[i] {
      assert xs[i] in xs;
    }
  }

  /** The six method names are already upper case. */
  lemma NamesAreUpperCase()
    ensures forall x :: x in All ==> ToUpper(x) == x
  {
    forall x | x in All ensures ToUpper(x) == x {
      assert forall k :: 0 <= k < |x| ==> !('a' <= x[k] <= 'z');
      ToUpperOfUpper(x);
    }
  }

  lemma UpperAllOfAll()
    ensures UpperAll(All) == All
  {
    NamesAreUpperCase();
    UpperAllOfUpper(All);
  }

  lemma DistinctAll()
    ensures Distinct(All)
  {
  }

  lemma NormalisedAll()
    ensures Normalised(All) == All
  {
    UpperAllOfAll();
    DistinctAll();
    DedupOfDistinct(All);
    OnlyMethodsOfMethods(All);
  }

  lemma SortAll()
    ensures SortStrings(All) == ["DELETE", "GET", "HEAD", "OPTIONS", "POST", "PUT"]
  {
    SortLastThree();
    InsertPutPost();
    InsertGet();
    assert All[1..] == ["POST", "PUT", "DELETE", "HEAD", "OPTIONS"];
    assert All[1..][1..] == ["PUT", "DELETE", "HEAD", "OPTIONS"];
    assert All[1..][1..][1..] == ["DELETE", "HEAD", "OPTIONS"];
  }

  lemma SortLastThree()
    ensures SortStrings(["DELETE", "HEAD", "OPTIONS"]) == ["DELETE", "HEAD", "OPTIONS"]
  {
    assert SortStrings(["OPTIONS"]) == ["OPTIONS"];
    assert StrLess("HEAD", "OPTIONS");
    assert SortStrings(["HEAD", "OPTIONS"]) == ["HEAD", "OPTIONS"];
    assert StrLess("DELETE", "HEAD");
  }

  lemma InsertPutPost()
    ensures InsertString(InsertString(["DELETE", "HEAD", "OPTIONS"], "PUT"), "POST")
         == ["DELETE", "HEAD", "OPTIONS", "POST", "PUT"]
  {
    assert !StrLess("PUT", "DELETE") && !StrLess("PUT", "HEAD") && !StrLess("PUT", "OPTIONS");
    assert InsertString(["DELETE", "HEAD", "OPTIONS"], "PUT") == ["DELETE", "HEAD", "OPTIONS", "PUT"];
    assert !StrLess("POST", "DELETE") && !StrLess("POST", "HEAD") && !StrLess("POST", "OPTIONS");
    assert StrLess("POST", "PUT");
  }

  lemma InsertGet()
    ensures InsertString(["DELETE", "HEAD", "OPTIONS", "POST", "PUT"], "GET")
         == ["DELETE", "GET", "HEAD", "OPTIONS", "POST", "PUT"]
  {
    assert !StrLess("GET", "DELETE") && StrLess("GET", "HEAD");
  }

  /** `'*'` stands for all six methods, listed in code-unit order. */
  lemma AllMethodsFromStar()
    ensures CheckHttpMethods(AStr("*")) == Ok(["DELETE", "GET", "HEAD", "OPTIONS", "POST", "PUT"])
  {
    NormalisedAll();
    SortAll();
  }

  /** A single method string gives the one-element list of its upper-case form. */
  lemma SingleMethod(s: string)
    requires s != "*" && IsMethod(ToUpper(s))
    ensures CheckHttpMethods(AStr(s)) == Ok([ToUpper(s)])
  {
    var u := ToUpper(s);
    assert UpperAll([s]) == [u];
    assert [u][..0] == [] && [u][1..] == [];
    assert Dedup([u]) == [u];
    assert OnlyMethods([u]) == [u];
    assert Listed(AStr(s)) == Some([s]);
    assert SortStrings([u]) == [u];
  }

  /** The one-element list `[HttpMethods.X]` a verb helper passes normalises to itself. */
  lemma OneMethodList(v: string)
    requires IsMethod(v)
    ensures CheckHttpMethods(AList([v])) == Ok([v])
    ensures CheckHttpMethodsLegacyFixed(AList([v])) == Ok([v])
  {
    NamesAreUpperCase();
    assert UpperAll([v]) == [v];
    assert [v][..0] == [] && [v][1..] == [];
    assert Dedup([v]) == [v];
    assert OnlyMethods([v]) == [v];
    assert OnlyMethodsOrStar([v]) == [v];
    assert SortStrings([v]) == [v];
  }

  /** The collapse rule of the legacy normaliser. */
  function CollapseStar(ms: seq<string>): seq<string> {
    if ("*" in ms && |ms| > 1) || |ms| == |All| then ["*"] else ms
  }

  /** The list the legacy `methods` argument stands for (no `'*'` expansion). */
  function ListedLegacy(methods: Arg): Option<seq<string>> {
    match methods
    case AStr(s) => Some([s])
    case AList(xs) => Some(xs)
    case _ => None
  }

  /**
   * `checkHttpMethods` of `utils.js`, as written: its filter predicate
   * `HttpMethods[method] || '*'` is always truthy, so every name survives.
   */
  function CheckHttpMethodsLegacy(methods: Arg): Result<seq<string>> {
    match ListedLegacy(methods)
    case None => Err("Error: Passed in methods has to be an array or a string")
    case Some(xs) =>
      var ms := Dedup(UpperAll(xs));
      if ms == [] then Err("Error: Please enter at least one valid method")
      else Ok(SortStrings(CollapseStar(ms)))
  }

  /**
   * The legacy normaliser as written fails only on a wrong argument type or
   * an empty list; otherwise it keeps every upper-cased name, sorted, and
   * collapses to `['*']` when `'*'` is among several names or all six
   * methods are named.
   */
  lemma CheckHttpMethodsLegacyMeaning(methods: Arg)
    ensures var r := CheckHttpMethodsLegacy(methods);
      && (ListedLegacy(methods).None? ==> r == Err("Error: Passed in methods has to be an array or a string"))
      && (ListedLegacy(methods) == Some([]) ==> r == Err("Error: Please enter at least one valid method"))
      && (ListedLegacy(methods).Some? && ListedLegacy(methods).value != [] ==>
            (r.Ok? && StrictlyAscending(r.value)
             && ("*" in UpperAll(ListedLegacy(methods).value) ==> r.value == ["*"])
             && (|Dedup(UpperAll(ListedLegacy(methods).value))| == |All| ==> r.value == ["*"])
             && (r.value != ["*"] ==>
                   forall m :: m in r.value <==> m in UpperAll(ListedLegacy(methods).value))))
  {
    if ListedLegacy(methods).Some? {
      var ms := Dedup(UpperAll(ListedLegacy(methods).value));
      if ms != [] {
        var collapsed := CollapseStar(ms);
        SortStringsMembers(collapsed);
        if collapsed == ["*"] {
          assert SortStrings(collapsed) == ["*"];
        }
      }
    }
  }

  /** Any single name, recognised or not, is accepted by the legacy normaliser. */
  lemma LegacyAcceptsAnyName(s: string)
    ensures CheckHttpMethodsLegacy(AStr(s)) == Ok([ToUpper(s)])
  {
    var u := ToUpper(s);
    assert UpperAll([s]) == [u];
    assert [u][..0] == [] && [u][1..] == [];
    assert Dedup([u]) == [u];
    assert CollapseStar([u]) == [u];
    assert SortStrings([u]) == [u];
  }

  /** The name `"fetch"` is no HTTP method the router knows, yet it is kept. */
  lemma UnknownMethodSurvivesLegacy()
    ensures !IsMethod(ToUpper("fetch"))
    ensures CheckHttpMethodsLegacy(AStr("fetch")) == Ok([ToUpper("fetch")])
  {
    LegacyAcceptsAnyName("fetch");
    assert ToUpper("fetch")[0] == 'F';
  }

  /** The evidently intended filter: recognised methods and the `'*'` marker. */
  function OnlyMethodsOrStar(xs: seq<string>): (ys: seq<string>)
    ensures forall x :: x in ys <==> x in xs && (IsMethod(x) || x == "*")
    ensures Distinct(xs) ==> Distinct(ys)
  {
    if xs == [] then []
    else
      var rest := OnlyMethodsOrStar(xs[1..]);
      assert forall x :: x in xs <==> x == xs[0] || x in xs[1..];
      if IsMethod(xs[0]) || xs[0] == "*" then [xs[0]] + rest else rest
  }

  /**
   * `checkHttpMethods` of `utils.js` with the filter it evidently intends:
   * only recognised methods and `'*'` survive, and none of them is an error.
   */
  function CheckHttpMethodsLegacyFixed(methods: Arg): Result<seq<string>> {
    match ListedLegacy(methods)
    case None => Err("Error: Passed in methods has to be an array or a string")
    case Some(xs) =>
      var ms := OnlyMethodsOrStar(Dedup(UpperAll(xs)));
      if ms == [] then Err("Error: Please enter at least one valid method")
      else Ok(SortStrings(CollapseStar(ms)))
  }

  /**
   * With the intended filter the legacy normaliser accepts exactly the
   * arguments that name a recognised method or `'*'`, keeps only those,
   * sorted, and still collapses to `['*']` when `'*'` is named.
   */
  lemma CheckHttpMethodsLegacyFixedMeaning(methods: Arg)
    ensures var r := CheckHttpMethodsLegacyFixed(methods);
      && (ListedLegacy(methods).None? ==> r == Err("Error: Passed in methods has to be an array or a string"))
      && (r.Ok? <==>
            (ListedLegacy(methods).Some? &&
             exists m :: m in UpperAll(ListedLegacy(methods).value) && (IsMethod(m) || m == "*")))
      && (r.Ok? ==>
            (r.value != [] && StrictlyAscending(r.value)
             && (forall m :: m in r.value ==> IsMethod(m) || m == "*")
             && ("*" in UpperAll(ListedLegacy(methods).value) ==> r.value == ["*"])))
      && (ListedLegacy(methods).Some? && r.Err? ==> r == Err("Error: Please enter at least one valid method"))
  {
    if ListedLegacy(methods).Some? {
      var ms := OnlyMethodsOrStar(Dedup(UpperAll(ListedLegacy(methods).value)));
      if ms == [] {
        forall m | m in UpperAll(ListedLegacy(methods).value) ensures !(IsMethod(m) || m == "*") {
          assert m in Dedup(UpperAll(ListedLegacy(methods).value));
        }
      } else {
        assert ms[0] in ms;
        assert ms[0] in UpperAll(ListedLegacy(methods).value);
        var collapsed := CollapseStar(ms);
        SortStringsMembers(collapsed);
        if collapsed == ["*"] {
          assert SortStrings(collapsed) == ["*"];
        }
      }
    }
  }

  /** With the intended filter an unrecognised name is an error. */
  lemma FixedRejectsUnknownName(s: string)
    requires !IsMethod(ToUpper(s)) && ToUpper(s) != "*"
    ensures CheckHttpMethodsLegacyFixed(AStr(s))
         == Err("Error: Please enter at least one valid method")
  {
    var u := ToUpper(s);
    assert UpperAll([s]) == [u];
    assert [u][..0] == [] && [u][1..] == [];
    assert Dedup([u]) == [u];
    assert OnlyMethodsOrStar([u]) == [];
  }

  /** ... and a recognised one is kept, exactly as the legacy code keeps it. */
  lemma FixedKeepsMethod(s: string)
    requires IsMethod(ToUpper(s))
    ensures CheckHttpMethodsLegacyFixed(AStr(s)) == CheckHttpMethodsLegacy(AStr(s))
    ensures CheckHttpMethodsLegacyFixed(AStr(s)) == Ok([ToUpper(s)])
  {
    assert UpperAll([s]) == [ToUpper(s)];
    assert Dedup([ToUpper(s)]) == [ToUpper(s)];
    assert OnlyMethodsOrStar([ToUpper(s)]) == [ToUpper(s)];
    LegacyAcceptsAnyName(s);
  }
}
