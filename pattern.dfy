/**
 * The route-pattern compilers.
 *
 * `UrlToRegexp` is `urlToRegexp` of both current helper files, pass by pass:
 * prefixing (`^*` before a host-less pattern, then `^`), the `*` rewrite, the
 * `:name` rewrite (whose `...` test reads the unrewritten pattern at an offset
 * taken in the rewritten one), the `(.*)...` rewrite and the `(?:\/$|$)`
 * suffix. `UrlToRegexpFixed` takes the `...` test where it is evidently meant
 * to be taken; the rest of the model compiles with it. `RouteToRegexp` is the
 * unanchored legacy compiler of `utils.js`.
 *
 * Each rewrite is done on tokens: the string after the `*` rewrite is the
 * concatenation of the texts of `Lit` and `AnyRun` tokens, and no parameter
 * or `(.*)...` match can start inside an `(?:.*)` or end inside a group text,
 * so the token passes produce exactly the expression the string passes build.
 */
module Pattern {
  import opened Js
  import opened Regex

  datatype Compiled = Compiled(toks: seq<Tok>, variables: seq<string>)

  const Dots: seq<Tok> := [Lit('.'), Lit('.'), Lit('.')]

  /** The two prefixes of `urlToRegexp`: `^*` for a host-less pattern, then `^`. */
  function Prefixed(url: string): (u: string)
    ensures u != [] && u[0] == '^'
  {
    var u1 := if StartsWith(url, "/") then "^*" + url else url;
    if StartsWith(u1, "^") then u1 else "^" + u1
  }

  /** `replace(/\*\/g, '(?:.*)')`: every `*` becomes an `AnyRun`. */
  function Wildcards(u: string): (ts: seq<Tok>)
    ensures |ts| == |u|
  {
    if u == [] then [] else [WildcardTok(u[0])] + Wildcards(u[1..])
  }

  function WildcardTok(c: char): Tok {
    if c == '*' then AnyRun else Lit(c)
  }

  /** Token by token, `Wildcards` rewrites `*` and keeps every other character. */
  lemma {:induction false} WildcardsAt(u: string)
    ensures forall k :: 0 <= k < |u| ==> Wildcards(u)[k] == WildcardTok(u[k])
  {
    if u != [] {
      WildcardsAt(u[1..]);
      assert Wildcards(u) == [WildcardTok(u[0])] + Wildcards(u[1..]);
    }
  }

  /** The length of a token's text in the string the `:name` rewrite scans. */
  function TextLen(t: Tok): nat {
    if t.AnyRun? then 6 else 1
  }

  /** The number of leading word-character literals: the `\w+` after a `:`. */
  function WordRun(ts: seq<Tok>): (n: nat)
    ensures n <= |ts|
  {
    if ts != [] && ts[0].Lit? && IsWordChar(ts[0].c) then 1 + WordRun(ts[1..]) else 0
  }

  /** `WordRun` is the longest run of word-character literals. */
  lemma {:induction false} WordRunFacts(ts: seq<Tok>)
    ensures forall k :: 0 <= k < WordRun(ts) ==> ts[k].Lit? && IsWordChar(ts[k].c)
    ensures WordRun(ts) < |ts| ==> !(ts[WordRun(ts)].Lit? && IsWordChar(ts[WordRun(ts)].c))
  {
    if ts != [] && ts[0].Lit? && IsWordChar(ts[0].c) {
      WordRunFacts(ts[1..]);
    }
  }

  /** The characters of the leading literals. */
  function Chars(ts: seq<Tok>): string {
    if ts == [] || !ts[0].Lit? then "" else [ts[0].c] + Chars(ts[1..])
  }

  /** `url.slice(k, k + 3) === '...'` (`slice` clamps to the end of the string). */
  predicate DotsAt(u: string, k: nat) {
    k + 3 <= |u| && u[k..k + 3] == "..."
  }

  /**
   * The `:name` rewrite of `urlToRegexp` as written: `pos` is the offset of
   * `ts` in the rewritten string, which is also where the `...` test looks in
   * the unrewritten pattern `u`.
   */
  function ParamsAsWritten(ts: seq<Tok>, u: string, pos: nat): (r: Compiled)
    decreases |ts|
  {
    if ts == [] then Compiled([], [])
    else if ts[0] == Lit(':') && WordRun(ts[1..]) > 0 then
      var n := WordRun(ts[1..]);
      var w := Chars(ts[1..1 + n]);
      var after := pos + 1 + n;
      var r := ParamsAsWritten(ts[1 + n..], u, after);
      Compiled([if DotsAt(u, after) then Rest(w) else Seg(w)] + r.toks, [w] + r.variables)
    else
      var r := ParamsAsWritten(ts[1..], u, pos + TextLen(ts[0]));
      Compiled([ts[0]] + r.toks, r.variables)
  }

  /** The `:name` rewrite with the `...` test taken right after the name. */
  function ParamsFixed(ts: seq<Tok>): (r: Compiled)
    decreases |ts|
  {
    if ts == [] then Compiled([], [])
    else if ts[0] == Lit(':') && WordRun(ts[1..]) > 0 then
      var n := WordRun(ts[1..]);
      var w := Chars(ts[1..1 + n]);
      var r := ParamsFixed(ts[1 + n..]);
      Compiled([if DotsNext(ts[1 + n..]) then Rest(w) else Seg(w)] + r.toks, [w] + r.variables)
    else
      var r := ParamsFixed(ts[1..]);
      Compiled([ts[0]] + r.toks, r.variables)
  }

  /** The next three tokens are literal dots. */
  predicate DotsNext(ts: seq<Tok>) {
    DotsFrom(ts, 0)
  }

  /** Three literal dots stand at `k`. */
  predicate DotsFrom(ts: seq<Tok>, k: nat) {
    k + 3 <= |ts| && ts[k] == Lit('.') && ts[k + 1] == Lit('.') && ts[k + 2] == Lit('.')
  }

  /** `replace(/(?:\(\.\*\))(\.{3})/g, '(.*)')`: the dots after a rest group go. */
  function DropDots(ts: seq<Tok>): seq<Tok> {
    if ts == [] then []
    else if ts[0].Rest? && DotsFrom(ts, 1) then [ts[0]] + DropDots(ts[4..])
    else [ts[0]] + DropDots(ts[1..])
  }

  /** The number of leading word characters of `s`. */
  function WordLen(s: string): (n: nat)
    ensures n <= |s|
    ensures forall k :: 0 <= k < n ==> IsWordChar(s[k])
    ensures n < |s| ==> !IsWordChar(s[n])
  {
    if s != [] && IsWordChar(s[0]) then 1 + WordLen(s[1..]) else 0
  }

  /** The parameter names of a pattern: each `:` followed by a maximal `\w+` run. */
  function ParamNames(u: string): seq<string>
    decreases |u|
  {
    if u == [] then []
    else if u[0] == ':' && WordLen(u[1..]) > 0 then
      [u[1..1 + WordLen(u[1..])]] + ParamNames(u[1 + WordLen(u[1..])..])
    else ParamNames(u[1..])
  }

  /** Only the compiled shape a token pass starts from: literals and `(?:.*)`. */
  ghost predicate Plain(ts: seq<Tok>) {
    forall k :: 0 <= k < |ts| ==> ts[k].Lit? || ts[k].AnyRun?
  }

  /**
   * `urlToRegexp`, as written: anchored at the start, one group per variable
   * in order, the variables being the `:name` tokens of the pattern, a
   * host-less pattern starting with `(?:.*)`, and the optional final slash.
   */
  function UrlToRegexp(url: string): (r: Compiled)
    ensures |r.toks| >= 2 && r.toks[0] == Lit('^') && r.toks[|r.toks| - 1] == OptSlashEnd
    ensures StartsWith(url, "/") ==> r.toks[1] == AnyRun
    ensures GroupNames(r.toks) == r.variables == ParamNames(url)
  {
    var u := Prefixed(url);
    var p := ParamsAsWritten(Wildcards(u), u, 0);
    AsWrittenShape(url);
    Compiled(DropDots(p.toks) + [OptSlashEnd], p.variables)
  }

  /** The token passes of `UrlToRegexpFixed` without the final `(?:\/$|$)`. */
  function Fragment(u: string): Compiled {
    var p := ParamsFixed(Wildcards(u));
    Compiled(DropDots(p.toks), p.variables)
  }

  /** `urlToRegexp` with the `...` test of `ParamsFixed`; same shape as `UrlToRegexp`. */
  function UrlToRegexpFixed(url: string): (r: Compiled)
    ensures |r.toks| >= 2 && r.toks[0] == Lit('^') && r.toks[|r.toks| - 1] == OptSlashEnd
    ensures StartsWith(url, "/") ==> r.toks[1] == AnyRun
    ensures GroupNames(r.toks) == r.variables == ParamNames(url)
  {
    FixedShape(url);
    var f := Fragment(Prefixed(url));
    Compiled(f.toks + [OptSlashEnd], f.variables)
  }

  // ---------------------------------------------------------------------
  // Shape of the compiled expression

  lemma {:induction false} GroupNamesAppend(xs: seq<Tok>, ys: seq<Tok>)
    ensures GroupNames(xs + ys) == GroupNames(xs) + GroupNames(ys)
  {
    if xs == [] {
      assert xs + ys == ys;
    } else {
      var h := if xs[0].IsGroup() then [xs[0].name] else [];
      assert GroupNames(xs + ys) == h + GroupNames(xs[1..] + ys) by {
        assert (xs + ys)[0] == xs[0];
        assert (xs + ys)[1..] == xs[1..] + ys;
      }
      GroupNamesAppend(xs[1..], ys);
    }
  }

  lemma {:induction false} DropDotsKeepsGroups(ts: seq<Tok>)
    ensures GroupNames(DropDots(ts)) == GroupNames(ts)
  {
    if ts != [] {
      if ts[0].Rest? && DotsFrom(ts, 1) {
        DropDotsKeepsGroups(ts[4..]);
        assert ts[1] == Lit('.') && ts[2] == Lit('.') && ts[3] == Lit('.');
        assert GroupNames(ts[3..]) == GroupNames(ts[4..]) by {
          assert ts[3..][1..] == ts[4..];
        }
        assert GroupNames(ts[2..]) == GroupNames(ts[3..]) by {
          assert ts[2..][1..] == ts[3..];
        }
        assert GroupNames(ts[1..]) == GroupNames(ts[2..]) by {
          assert ts[1..][1..] == ts[2..];
        }
      } else {
        DropDotsKeepsGroups(ts[1..]);
      }
    }
  }

  lemma {:induction false} WordRunOfWildcards(v: string)
    ensures WordRun(Wildcards(v)) == WordLen(v)
    ensures Chars(Wildcards(v)[..WordLen(v)]) == v[..WordLen(v)]
  {
    if v != [] {
      var w1 := Wildcards(v[1..]);
      var t := WildcardTok(v[0]);
      assert Wildcards(v) == [t] + w1;
      if IsWordChar(v[0]) {
        var n1 := WordLen(v[1..]);
        WordRunOfWildcards(v[1..]);
        WordRunLitCons(v[0], w1);
        PrefixCons(t, w1, n1);
        CharsLitCons(v[0], w1[..n1]);
        PrefixCons(v[0], v[1..], n1);
        assert v == [v[0]] + v[1..];
      } else {
        WordRunNoWordHead([t] + w1);
      }
    }
  }

  lemma PrefixCons<T>(x: T, a: seq<T>, k: nat)
    requires k <= |a|
    ensures ([x] + a)[..k + 1] == [x] + a[..k]
  {
  }

  lemma WordRunLitCons(c: char, ts: seq<Tok>)
    requires IsWordChar(c)
    ensures WordRun([Lit(c)] + ts) == 1 + WordRun(ts)
  {
    assert ([Lit(c)] + ts)[1..] == ts;
  }

  lemma WordRunNoWordHead(ts: seq<Tok>)
    requires ts != [] && !(ts[0].Lit? && IsWordChar(ts[0].c))
    ensures WordRun(ts) == 0
  {
  }

  lemma CharsLitCons(c: char, ts: seq<Tok>)
    ensures Chars([Lit(c)] + ts) == [c] + Chars(ts)
  {
    assert ([Lit(c)] + ts)[1..] == ts;
  }

  lemma {:induction false} WildcardsSuffix(u: string, k: nat)
    requires k <= |u|
    ensures Wildcards(u)[k..] == Wildcards(u[k..])
    decreases k
  {
    if k == 0 {
      assert u[k..] == u;
    } else {
      WildcardsSuffix(u[1..], k - 1);
      assert u[1..][k - 1..] == u[k..];
      assert Wildcards(u)[k..] == Wildcards(u)[1..][k - 1..];
    }
  }

  /** The fixed `:name` pass finds exactly the pattern's parameters, as its groups. */
  lemma {:induction false} ParamsFixedNames(u: string)
    ensures ParamsFixed(Wildcards(u)).variables == ParamNames(u)
    ensures GroupNames(ParamsFixed(Wildcards(u)).toks) == ParamNames(u)
    decreases |u|, 1
  {
    if u != [] {
      if u[0] == ':' && WordLen(u[1..]) > 0 {
        ParamsFixedNamesParam(u);
      } else {
        WordRunOfWildcards(u[1..]);
        WildcardsSuffix(u, 1);
        ParamsFixedNames(u[1..]);
      }
    }
  }

  lemma {:induction false} ParamsFixedNamesParam(u: string)
    requires u != [] && u[0] == ':' && WordLen(u[1..]) > 0
    ensures ParamsFixed(Wildcards(u)).variables == ParamNames(u)
    ensures GroupNames(ParamsFixed(Wildcards(u)).toks) == ParamNames(u)
    decreases |u|, 0
  {
    var n := WordLen(u[1..]);
    ParamsFixedNames(u[1 + n..]);
    FixedNamesStep(u, n);
  }

  /** A `:name` in front adds its name, given the names of what follows it. */
  lemma FixedNamesStep(u: string, n: nat)
    requires u != [] && u[0] == ':' && n == WordLen(u[1..]) && n > 0
    requires ParamsFixed(Wildcards(u[1 + n..])).variables == ParamNames(u[1 + n..])
    requires GroupNames(ParamsFixed(Wildcards(u[1 + n..])).toks) == ParamNames(u[1 + n..])
    ensures ParamsFixed(Wildcards(u)).variables == ParamNames(u)
    ensures GroupNames(ParamsFixed(Wildcards(u)).toks) == ParamNames(u)
  {
    var ts := Wildcards(u);
    var w := u[1..1 + n];
    WildcardsParam(u, n);
    ParamNamesParam(u, n);
    FixedParamStep(ts);
    var g := if DotsNext(ts[1 + n..]) then Rest(w) else Seg(w);
    GroupNamesCons(g, ParamsFixed(ts[1 + n..]).toks);
  }

  /** The pattern's names when it starts with a `:name` of `n` word characters. */
  lemma ParamNamesParam(u: string, n: nat)
    requires u != [] && u[0] == ':' && n == WordLen(u[1..]) && n > 0
    ensures ParamNames(u) == [u[1..1 + n]] + ParamNames(u[1 + n..])
  {
  }

  /** The tokens of a pattern that starts with a `:name` of `n` word characters. */
  lemma WildcardsParam(u: string, n: nat)
    requires u != [] && u[0] == ':' && n == WordLen(u[1..]) && n > 0
    ensures var ts := Wildcards(u);
      && ts[0] == Lit(':') && WordRun(ts[1..]) == n && Chars(ts[1..1 + n]) == u[1..1 + n]
      && ts[1 + n..] == Wildcards(u[1 + n..])
  {
    var ts := Wildcards(u);
    assert ts[0] == Lit(':');
    WildcardsSuffix(u, 1);
    WordRunOfWildcards(u[1..]);
    assert u[1..][..n] == u[1..1 + n];
    assert ts[1..][..n] == ts[1..1 + n];
    WildcardsSuffix(u, 1 + n);
  }

  /** The group names of a token list with a given head. */
  lemma GroupNamesCons(t: Tok, rest: seq<Tok>)
    ensures GroupNames([t] + rest) == (if t.IsGroup() then [t.name] else []) + GroupNames(rest)
  {
    assert ([t] + rest)[1..] == rest;
  }

  /** The as-written pass differs from the fixed one only in choosing `Rest` or `Seg`. */
  lemma {:induction false} AsWrittenNames(ts: seq<Tok>, u: string, pos: nat)
    ensures ParamsAsWritten(ts, u, pos).variables == ParamsFixed(ts).variables
    ensures GroupNames(ParamsAsWritten(ts, u, pos).toks) == GroupNames(ParamsFixed(ts).toks)
    decreases |ts|, 1
  {
    if ts != [] {
      if ts[0] == Lit(':') && WordRun(ts[1..]) > 0 {
        AsWrittenNamesParam(ts, u, pos);
      } else {
        AsWrittenNamesLit(ts, u, pos);
      }
    }
  }

  lemma {:induction false} AsWrittenNamesParam(ts: seq<Tok>, u: string, pos: nat)
    requires ts != [] && ts[0] == Lit(':') && WordRun(ts[1..]) > 0
    ensures ParamsAsWritten(ts, u, pos).variables == ParamsFixed(ts).variables
    ensures GroupNames(ParamsAsWritten(ts, u, pos).toks) == GroupNames(ParamsFixed(ts).toks)
    decreases |ts|, 0
  {
    var n := WordRun(ts[1..]);
    AsWrittenNames(ts[1 + n..], u, pos + 1 + n);
    ParamNamesStep(ts, u, pos, n);
  }

  lemma {:induction false} AsWrittenNamesLit(ts: seq<Tok>, u: string, pos: nat)
    requires ts != [] && !(ts[0] == Lit(':') && WordRun(ts[1..]) > 0)
    ensures ParamsAsWritten(ts, u, pos).variables == ParamsFixed(ts).variables
    ensures GroupNames(ParamsAsWritten(ts, u, pos).toks) == GroupNames(ParamsFixed(ts).toks)
    decreases |ts|, 0
  {
    AsWrittenNames(ts[1..], u, pos + TextLen(ts[0]));
    LitNamesStep(ts, u, pos);
  }

  /** Both passes give a parameter a group of the same name. */
  lemma ParamNamesStep(ts: seq<Tok>, u: string, pos: nat, n: nat)
    requires ts != [] && ts[0] == Lit(':') && n == WordRun(ts[1..]) && n > 0
    requires ParamsAsWritten(ts[1 + n..], u, pos + 1 + n).variables == ParamsFixed(ts[1 + n..]).variables
    requires GroupNames(ParamsAsWritten(ts[1 + n..], u, pos + 1 + n).toks) == GroupNames(ParamsFixed(ts[1 + n..]).toks)
    ensures ParamsAsWritten(ts, u, pos).variables == ParamsFixed(ts).variables
    ensures GroupNames(ParamsAsWritten(ts, u, pos).toks) == GroupNames(ParamsFixed(ts).toks)
  {
    var after := pos + 1 + n;
    var w := Chars(ts[1..1 + n]);
    AsWrittenParamStep(ts, u, pos);
    FixedParamStep(ts);
    GroupNamesCons(if DotsAt(u, after) then Rest(w) else Seg(w), ParamsAsWritten(ts[1 + n..], u, after).toks);
    GroupNamesCons(if DotsNext(ts[1 + n..]) then Rest(w) else Seg(w), ParamsFixed(ts[1 + n..]).toks);
  }

  /** Both passes keep any other token as it is. */
  lemma LitNamesStep(ts: seq<Tok>, u: string, pos: nat)
    requires ts != [] && !(ts[0] == Lit(':') && WordRun(ts[1..]) > 0)
    requires ParamsAsWritten(ts[1..], u, pos + TextLen(ts[0])).variables == ParamsFixed(ts[1..]).variables
    requires GroupNames(ParamsAsWritten(ts[1..], u, pos + TextLen(ts[0])).toks) == GroupNames(ParamsFixed(ts[1..]).toks)
    ensures ParamsAsWritten(ts, u, pos).variables == ParamsFixed(ts).variables
    ensures GroupNames(ParamsAsWritten(ts, u, pos).toks) == GroupNames(ParamsFixed(ts).toks)
  {
    var next := pos + TextLen(ts[0]);
    AsWrittenLitStep(ts, u, pos);
    FixedLitStep(ts);
    GroupNamesCons(ts[0], ParamsAsWritten(ts[1..], u, next).toks);
    GroupNamesCons(ts[0], ParamsFixed(ts[1..]).toks);
  }

  lemma ParamNamesPrefixed(url: string)
    ensures ParamNames(Prefixed(url)) == ParamNames(url)
  {
    if StartsWith(url, "/") {
      assert ("^*" + url)[1..] == "*" + url;
      assert ("*" + url)[1..] == url;
    } else if !StartsWith(url, "^") {
      assert ("^" + url)[1..] == url;
    }
  }

  /** `Prefixed(url)` as tokens: `^`, then `(?:.*)` for a host-less pattern. */
  lemma PrefixTokens(url: string)
    ensures Wildcards(Prefixed(url))[0] == Lit('^')
    ensures StartsWith(url, "/") ==> |Prefixed(url)| >= 2 && Wildcards(Prefixed(url))[1] == AnyRun
  {
    if StartsWith(url, "/") {
      assert Prefixed(url) == "^*" + url;
    }
  }

  lemma FixedShape(url: string)
    ensures var f := Fragment(Prefixed(url));
      && f.toks != [] && f.toks[0] == Lit('^')
      && (StartsWith(url, "/") ==> |f.toks| >= 2 && f.toks[1] == AnyRun)
      && GroupNames(f.toks + [OptSlashEnd]) == f.variables == ParamNames(url)
  {
    var u := Prefixed(url);
    var ts := Wildcards(u);
    var p := ParamsFixed(ts);
    ParamsFixedNames(u);
    ParamNamesPrefixed(url);
    DropDotsKeepsGroups(p.toks);
    GroupNamesAppend(DropDots(p.toks), [OptSlashEnd]);
    PrefixTokens(url);
    assert p.toks == [Lit('^')] + ParamsFixed(ts[1..]).toks;
    if StartsWith(url, "/") {
      assert ParamsFixed(ts[1..]).toks == [AnyRun] + ParamsFixed(ts[2..]).toks by {
        assert ts[1..][0] == AnyRun && ts[1..][1..] == ts[2..];
      }
      assert p.toks[1] == AnyRun;
    }
  }

  lemma AsWrittenShape(url: string)
    ensures var u := Prefixed(url);
      var p := ParamsAsWritten(Wildcards(u), u, 0);
      && DropDots(p.toks) != [] && DropDots(p.toks)[0] == Lit('^')
      && (StartsWith(url, "/") ==> |DropDots(p.toks)| >= 2 && DropDots(p.toks)[1] == AnyRun)
      && GroupNames(DropDots(p.toks) + [OptSlashEnd]) == p.variables == ParamNames(url)
  {
    var u := Prefixed(url);
    var ts := Wildcards(u);
    var p := ParamsAsWritten(ts, u, 0);
    ParamsFixedNames(u);
    AsWrittenNames(ts, u, 0);
    ParamNamesPrefixed(url);
    DropDotsKeepsGroups(p.toks);
    GroupNamesAppend(DropDots(p.toks), [OptSlashEnd]);
    PrefixTokens(url);
    assert p.toks == [Lit('^')] + ParamsAsWritten(ts[1..], u, 1).toks;
    if StartsWith(url, "/") {
      assert ParamsAsWritten(ts[1..], u, 1).toks == [AnyRun] + ParamsAsWritten(ts[2..], u, 7).toks by {
        assert ts[1..][0] == AnyRun && ts[1..][1..] == ts[2..];
      }
      assert p.toks[1] == AnyRun;
    }
  }

  // ---------------------------------------------------------------------
  // Composition: how a pattern compiles piece by piece

  function Cat(a: Compiled, b: Compiled): Compiled {
    Compiled(a.toks + b.toks, a.variables + b.variables)
  }

  /** `ys` cannot extend a parameter name that ends just before it. */
  predicate NoWordStart(ys: seq<Tok>) {
    ys == [] || !(ys[0].Lit? && IsWordChar(ys[0].c))
  }

  lemma {:induction false} WildcardsAppend(x: string, y: string)
    ensures Wildcards(x + y) == Wildcards(x) + Wildcards(y)
  {
    if x == [] {
      assert x + y == y;
    } else {
      var h := [WildcardTok(x[0])];
      assert Wildcards(x + y) == h + Wildcards(x[1..] + y) by {
        assert (x + y)[0] == x[0];
        assert (x + y)[1..] == x[1..] + y;
      }
      WildcardsAppend(x[1..], y);
      Assoc(h, Wildcards(x[1..]), Wildcards(y));
    }
  }

  lemma {:induction false} WordRunAppend(xs: seq<Tok>, ys: seq<Tok>)
    requires NoWordStart(ys)
    ensures WordRun(xs + ys) == WordRun(xs)
  {
    if xs == [] {
      assert xs + ys == ys;
    } else {
      assert (xs + ys)[0] == xs[0];
      assert (xs + ys)[1..] == xs[1..] + ys;
      WordRunAppend(xs[1..], ys);
    }
  }

  lemma DotsNextAppend(zs: seq<Tok>, ys: seq<Tok>)
    requires ys == [] || ys[0] != Lit('.')
    ensures DotsNext(zs + ys) == DotsNext(zs)
  {
    if |zs| < 3 && |zs + ys| >= 3 {
      assert (zs + ys)[|zs|] == ys[0];
    }
  }

  /** How the head of `xs + ys` splits, for the `:name` passes. */
  lemma ParamHeadAppend(xs: seq<Tok>, ys: seq<Tok>)
    requires xs != [] && NoWordStart(ys)
    ensures (xs + ys)[0] == xs[0]
    ensures (xs + ys)[1..] == xs[1..] + ys
    ensures WordRun((xs + ys)[1..]) == WordRun(xs[1..])
    ensures (xs + ys)[1..1 + WordRun(xs[1..])] == xs[1..1 + WordRun(xs[1..])]
    ensures (xs + ys)[1 + WordRun(xs[1..])..] == xs[1 + WordRun(xs[1..])..] + ys
  {
    assert (xs + ys)[1..] == xs[1..] + ys;
    WordRunAppend(xs[1..], ys);
  }

  // One unfolding of each `:name` pass, stated once so that proofs need not
  // unfold the passes themselves.

  lemma FixedLitStep(ts: seq<Tok>)
    requires ts != [] && !(ts[0] == Lit(':') && WordRun(ts[1..]) > 0)
    ensures ParamsFixed(ts) == Compiled([ts[0]] + ParamsFixed(ts[1..]).toks, ParamsFixed(ts[1..]).variables)
  {
  }

  lemma FixedParamStep(ts: seq<Tok>)
    requires ts != [] && ts[0] == Lit(':') && WordRun(ts[1..]) > 0
    ensures var n := WordRun(ts[1..]);
      var w := Chars(ts[1..1 + n]);
      ParamsFixed(ts) == Compiled([if DotsNext(ts[1 + n..]) then Rest(w) else Seg(w)] + ParamsFixed(ts[1 + n..]).toks,
                                  [w] + ParamsFixed(ts[1 + n..]).variables)
  {
  }

  lemma AsWrittenLitStep(ts: seq<Tok>, u: string, pos: nat)
    requires ts != [] && !(ts[0] == Lit(':') && WordRun(ts[1..]) > 0)
    ensures ParamsAsWritten(ts, u, pos)
         == Compiled([ts[0]] + ParamsAsWritten(ts[1..], u, pos + TextLen(ts[0])).toks,
                     ParamsAsWritten(ts[1..], u, pos + TextLen(ts[0])).variables)
  {
  }

  lemma AsWrittenParamStep(ts: seq<Tok>, u: string, pos: nat)
    requires ts != [] && ts[0] == Lit(':') && WordRun(ts[1..]) > 0
    ensures var n := WordRun(ts[1..]);
      var w := Chars(ts[1..1 + n]);
      var after := pos + 1 + n;
      ParamsAsWritten(ts, u, pos)
        == Compiled([if DotsAt(u, after) then Rest(w) else Seg(w)] + ParamsAsWritten(ts[1 + n..], u, after).toks,
                    [w] + ParamsAsWritten(ts[1 + n..], u, after).variables)
  {
  }

  /** Prepending the same head to both sides of a concatenation. */
  lemma CatCons(hs: seq<Tok>, hv: seq<string>, px: Compiled, r: Compiled, py: Compiled, pxy: Compiled)
    requires px == Compiled(hs + r.toks, hv + r.variables)
    requires pxy == Cat(r, py)
    ensures Compiled(hs + pxy.toks, hv + pxy.variables) == Cat(px, py)
  {
    assert hs + (r.toks + py.toks) == (hs + r.toks) + py.toks;
    assert hv + (r.variables + py.variables) == (hv + r.variables) + py.variables;
  }

  lemma {:induction false} ParamsFixedAppend(xs: seq<Tok>, ys: seq<Tok>)
    requires NoWordStart(ys) && (ys == [] || ys[0] != Lit('.'))
    ensures ParamsFixed(xs + ys) == Cat(ParamsFixed(xs), ParamsFixed(ys))
    decreases |xs|
  {
    if xs == [] {
      assert xs + ys == ys;
    } else if xs[0] == Lit(':') && WordRun(xs[1..]) > 0 {
      ParamsFixedAppend(xs[1 + WordRun(xs[1..])..], ys);
      ParamsFixedAppendParam(xs, ys);
    } else {
      ParamsFixedAppend(xs[1..], ys);
      ParamsFixedAppendLit(xs, ys);
    }
  }

  /** The step of `ParamsFixedAppend` when `xs` starts with a parameter. */
  lemma ParamsFixedAppendParam(xs: seq<Tok>, ys: seq<Tok>)
    requires NoWordStart(ys) && (ys == [] || ys[0] != Lit('.'))
    requires xs != [] && xs[0] == Lit(':') && WordRun(xs[1..]) > 0
    requires var n := WordRun(xs[1..]);
      ParamsFixed(xs[1 + n..] + ys) == Cat(ParamsFixed(xs[1 + n..]), ParamsFixed(ys))
    ensures ParamsFixed(xs + ys) == Cat(ParamsFixed(xs), ParamsFixed(ys))
  {
    var zs := xs + ys;
    ParamHeadAppend(xs, ys);
    var n := WordRun(xs[1..]);
    DotsNextAppend(xs[1 + n..], ys);
    FixedParamStep(xs);
    FixedParamStep(zs);
    var w := Chars(xs[1..1 + n]);
    var g := if DotsNext(xs[1 + n..]) then Rest(w) else Seg(w);
    CatCons([g], [w], ParamsFixed(xs), ParamsFixed(xs[1 + n..]), ParamsFixed(ys), ParamsFixed(xs[1 + n..] + ys));
  }

  /** The step of `ParamsFixedAppend` when `xs` starts with anything else. */
  lemma ParamsFixedAppendLit(xs: seq<Tok>, ys: seq<Tok>)
    requires NoWordStart(ys)
    requires xs != [] && !(xs[0] == Lit(':') && WordRun(xs[1..]) > 0)
    requires ParamsFixed(xs[1..] + ys) == Cat(ParamsFixed(xs[1..]), ParamsFixed(ys))
    ensures ParamsFixed(xs + ys) == Cat(ParamsFixed(xs), ParamsFixed(ys))
  {
    var zs := xs + ys;
    ParamHeadAppend(xs, ys);
    FixedLitStep(xs);
    FixedLitStep(zs);
    CatCons([xs[0]], [], ParamsFixed(xs), ParamsFixed(xs[1..]), ParamsFixed(ys), ParamsFixed(xs[1..] + ys));
  }

  /** A rest group followed by dots is recognised the same way with or without `ys` after it. */
  lemma RestDotsAppend(xs: seq<Tok>, ys: seq<Tok>)
    requires xs != []
    requires ys == [] || ys[0] != Lit('.')
    ensures (xs + ys)[0] == xs[0]
    ensures DotsFrom(xs + ys, 1) == DotsFrom(xs, 1)
  {
    var zs := xs + ys;
    if |xs| < 4 && |zs| >= 4 {
      assert zs[|xs|] == ys[0];
    }
    if |xs| >= 4 {
      assert zs[1] == xs[1] && zs[2] == xs[2] && zs[3] == xs[3];
    }
  }

  lemma {:induction false} DropDotsAppend(xs: seq<Tok>, ys: seq<Tok>)
    requires ys == [] || ys[0] != Lit('.')
    ensures DropDots(xs + ys) == DropDots(xs) + DropDots(ys)
    decreases |xs|
  {
    if xs == [] {
      assert xs + ys == ys;
    } else if xs[0].Rest? && DotsFrom(xs, 1) {
      assert DropDots(xs + ys) == [xs[0]] + DropDots(xs[4..] + ys) by {
        RestDotsAppend(xs, ys);
        assert (xs + ys)[4..] == xs[4..] + ys;
      }
      DropDotsAppend(xs[4..], ys);
      Assoc([xs[0]], DropDots(xs[4..]), DropDots(ys));
    } else {
      assert DropDots(xs + ys) == [xs[0]] + DropDots(xs[1..] + ys) by {
        RestDotsAppend(xs, ys);
        assert (xs + ys)[1..] == xs[1..] + ys;
      }
      DropDotsAppend(xs[1..], ys);
      Assoc([xs[0]], DropDots(xs[1..]), DropDots(ys));
    }
  }

  lemma ParamsFixedLit(c: char, zs: seq<Tok>)
    requires c != ':'
    ensures ParamsFixed([Lit(c)] + zs) == Compiled([Lit(c)] + ParamsFixed(zs).toks, ParamsFixed(zs).variables)
  {
    assert ([Lit(c)] + zs)[1..] == zs;
  }

  lemma ParamsFixedDots(zs: seq<Tok>)
    ensures ParamsFixed(Dots + zs) == Compiled(Dots + ParamsFixed(zs).toks, ParamsFixed(zs).variables)
  {
    var d := Lit('.');
    var z1 := [d] + zs;
    var z2 := [d] + z1;
    ParamsFixedLit('.', zs);
    ParamsFixedLit('.', z1);
    ParamsFixedLit('.', z2);
    Triple(d, zs);
    Triple(d, ParamsFixed(zs).toks);
  }

  lemma Triple<T>(x: T, zs: seq<T>)
    ensures [x, x, x] + zs == [x] + ([x] + ([x] + zs))
    ensures [x] + ([x] + zs) == [x, x] + zs
  {
  }

  /** A name of word characters, as literals, is one whole parameter name. */
  lemma NameRun(name: string, ys: seq<Tok>)
    requires name != [] && forall k :: 0 <= k < |name| ==> IsWordChar(name[k])
    requires NoWordStart(ys)
    ensures WordRun(Wildcards(name) + ys) == |name|
    ensures Chars(Wildcards(name)) == name
  {
    WordRunAppend(Wildcards(name), ys);
    WordRunOfWildcards(name);
    var n := WordLen(name);
    assert name[..n] == name && Wildcards(name)[..n] == Wildcards(name);
  }

  /**
   * With the corrected `...` test, `:name...` becomes one rest group, and
   * the dots disappear, wherever it stands in the pattern.
   */
  /** `:name...` followed by `zs` makes one rest group, the dots kept for `DropDots`. */
  lemma FixedRestGroup(name: string, zs: seq<Tok>)
    requires name != [] && forall k :: 0 <= k < |name| ==> IsWordChar(name[k])
    ensures ParamsFixed([Lit(':')] + Wildcards(name) + Dots + zs)
         == Compiled([Rest(name)] + (Dots + ParamsFixed(zs).toks), [name] + ParamsFixed(zs).variables)
  {
    var ys := [Lit(':')] + Wildcards(name) + Dots + zs;
    ConsSplit3(Lit(':'), Wildcards(name), Dots, zs);
    NameRun(name, Dots + zs);
    FixedParamStep(ys);
    ParamsFixedDots(zs);
  }

  /** `:name` followed by anything but a word character or `...` makes one segment group. */
  lemma FixedSegGroup(name: string, zs: seq<Tok>)
    requires name != [] && forall k :: 0 <= k < |name| ==> IsWordChar(name[k])
    requires NoWordStart(zs) && !DotsNext(zs)
    ensures ParamsFixed([Lit(':')] + Wildcards(name) + zs)
         == Compiled([Seg(name)] + ParamsFixed(zs).toks, [name] + ParamsFixed(zs).variables)
  {
    var ys := [Lit(':')] + Wildcards(name) + zs;
    ConsSplit(Lit(':'), Wildcards(name), zs);
    NameRun(name, zs);
    FixedParamStep(ys);
  }

  lemma DropDotsRest(pre: seq<Tok>, name: string, rest: seq<Tok>)
    ensures DropDots(pre + ([Rest(name)] + (Dots + rest))) == DropDots(pre) + ([Rest(name)] + DropDots(rest))
  {
    var tail := [Rest(name)] + (Dots + rest);
    DropDotsAppend(pre, tail);
    assert tail[1] == Lit('.') && tail[2] == Lit('.') && tail[3] == Lit('.');
    assert tail[4..] == rest;
  }

  lemma DropDotsSeg(pre: seq<Tok>, name: string, rest: seq<Tok>)
    ensures DropDots(pre + ([Seg(name)] + rest)) == DropDots(pre) + ([Seg(name)] + DropDots(rest))
  {
    DropDotsAppend(pre, [Seg(name)] + rest);
    assert ([Seg(name)] + rest)[1..] == rest;
  }

  /** Regrouping the pieces of a fragment. */
  lemma FragmentGlue(pa: Compiled, g: Tok, name: string, pb: Compiled, whole: Compiled)
    requires whole == Compiled(DropDots(pa.toks) + ([g] + DropDots(pb.toks)), pa.variables + ([name] + pb.variables))
    ensures whole == Compiled(DropDots(pa.toks) + [g] + DropDots(pb.toks), pa.variables + [name] + pb.variables)
  {
  }


  /**
   * With the corrected `...` test, `:name...` becomes one rest group, and
   * the dots disappear, wherever it stands in the pattern.
   */
  lemma RestParameter(a: string, name: string, b: string)
    requires name != [] && forall k :: 0 <= k < |name| ==> IsWordChar(name[k])
    ensures Fragment(a + ":" + name + "..." + b)
         == Compiled(Fragment(a).toks + [Rest(name)] + Fragment(b).toks,
                     Fragment(a).variables + [name] + Fragment(b).variables)
  {
    var u := a + ":" + name + "..." + b;
    var pa, pb := ParamsFixed(Wildcards(a)), ParamsFixed(Wildcards(b));
    var ys := [Lit(':')] + Wildcards(name) + Dots + Wildcards(b);
    WildcardsRestThen(a, name, b);
    assert ParamsFixed(Wildcards(u)) == Compiled(pa.toks + ([Rest(name)] + (Dots + pb.toks)),
                                                  pa.variables + ([name] + pb.variables)) by {
      ParamsFixedAppend(Wildcards(a), ys);
      FixedRestGroup(name, Wildcards(b));
    }
    assert DropDots(pa.toks + ([Rest(name)] + (Dots + pb.toks))) == DropDots(pa.toks) + ([Rest(name)] + DropDots(pb.toks)) by {
      DropDotsRest(pa.toks, name, pb.toks);
    }
    FragmentGlue(pa, Rest(name), name, pb, Fragment(u));
  }



  lemma WildcardsParamThen(a: string, name: string, b: string)
    ensures Wildcards(a + ":" + name + b) == Wildcards(a) + ([Lit(':')] + Wildcards(name) + Wildcards(b))
  {
    assert Wildcards(a + ":" + name + b) == Wildcards(a + ":" + name) + Wildcards(b) by {
      WildcardsAppend(a + ":" + name, b);
    }
    assert Wildcards(a + ":" + name) == Wildcards(a + ":") + Wildcards(name) by {
      WildcardsAppend(a + ":", name);
    }
    assert Wildcards(a + ":") == Wildcards(a) + [Lit(':')] by {
      WildcardsAppend(a, ":");
      assert Wildcards(":") == [Lit(':')];
    }
    Regroup(Wildcards(a), [Lit(':')], Wildcards(name), Wildcards(b));
  }

  /** Without `...` after it, `:name` becomes one segment group wherever it stands. */
  lemma SegmentParameter(a: string, name: string, b: string)
    requires name != [] && forall k :: 0 <= k < |name| ==> IsWordChar(name[k])
    requires b == [] || !IsWordChar(b[0])
    requires !StartsWith(b, "...")
    ensures Fragment(a + ":" + name + b)
         == Compiled(Fragment(a).toks + [Seg(name)] + Fragment(b).toks,
                     Fragment(a).variables + [name] + Fragment(b).variables)
  {
    var u := a + ":" + name + b;
    var pa, pb := ParamsFixed(Wildcards(a)), ParamsFixed(Wildcards(b));
    var ys := [Lit(':')] + Wildcards(name) + Wildcards(b);
    WildcardsParamThen(a, name, b);
    assert ParamsFixed(Wildcards(u)) == Compiled(pa.toks + ([Seg(name)] + pb.toks),
                                                  pa.variables + ([name] + pb.variables)) by {
      ParamsFixedAppend(Wildcards(a), ys);
      DotsAtWildcards(b, 0);
      assert b[0..] == b;
      FixedSegGroup(name, Wildcards(b));
    }
    assert DropDots(pa.toks + ([Seg(name)] + pb.toks)) == DropDots(pa.toks) + ([Seg(name)] + DropDots(pb.toks)) by {
      DropDotsSeg(pa.toks, name, pb.toks);
    }
    FragmentGlue(pa, Seg(name), name, pb, Fragment(u));
  }



  // ---------------------------------------------------------------------
  // Where the as-written `...` test goes wrong

  predicate EndsWithToks(t: seq<Tok>, suffix: seq<Tok>) {
    |suffix| <= |t| && t[|t| - |suffix|..] == suffix
  }

  /** The length of the tokens' text in the string after the `*` rewrite. */
  function TextSum(ts: seq<Tok>): (n: nat)
    ensures n >= |ts|
    ensures AnyRun in ts ==> n >= |ts| + 5
  {
    if ts == [] then 0 else TextLen(ts[0]) + TextSum(ts[1..])
  }

  lemma {:induction false} TextSumAppend(xs: seq<Tok>, ys: seq<Tok>)
    ensures TextSum(xs + ys) == TextSum(xs) + TextSum(ys)
  {
    if xs == [] {
      assert xs + ys == ys;
    } else {
      TextSumAppend(xs[1..], ys);
      assert (xs + ys)[1..] == xs[1..] + ys;
    }
  }

  lemma {:induction false} TextSumOfLits(ts: seq<Tok>)
    requires forall k :: 0 <= k < |ts| ==> ts[k].Lit?
    ensures TextSum(ts) == |ts|
  {
    if ts != [] {
      TextSumOfLits(ts[1..]);
    }
  }

  /** One as-written step on `xs + ys`, in terms of the pieces of `xs`. */
  lemma AsWrittenLitCons(xs: seq<Tok>, ys: seq<Tok>, u: string, pos: nat)
    requires xs != [] && NoWordStart(ys)
    requires !(xs[0] == Lit(':') && WordRun(xs[1..]) > 0)
    ensures ParamsAsWritten(xs + ys, u, pos)
         == Compiled([xs[0]] + ParamsAsWritten(xs[1..] + ys, u, pos + TextLen(xs[0])).toks,
                     ParamsAsWritten(xs[1..] + ys, u, pos + TextLen(xs[0])).variables)
  {
    ParamHeadAppend(xs, ys);
    AsWrittenLitStep(xs + ys, u, pos);
  }

  lemma {:induction false} AsWrittenAppend(xs: seq<Tok>, ys: seq<Tok>, u: string, pos: nat, mid: nat)
    requires NoWordStart(ys)
    requires mid == pos + TextSum(xs)
    ensures ParamsAsWritten(xs + ys, u, pos) == Cat(ParamsAsWritten(xs, u, pos), ParamsAsWritten(ys, u, mid))
    decreases |xs|, 1
  {
    if xs == [] {
      assert xs + ys == ys;
    } else if xs[0] == Lit(':') && WordRun(xs[1..]) > 0 {
      AsWrittenAppendParam(xs, ys, u, pos, mid);
    } else {
      AsWrittenAppendLit(xs, ys, u, pos, mid);
    }
  }

  lemma {:induction false} AsWrittenAppendParam(xs: seq<Tok>, ys: seq<Tok>, u: string, pos: nat, mid: nat)
    requires xs != [] && NoWordStart(ys)
    requires xs[0] == Lit(':') && WordRun(xs[1..]) > 0
    requires mid == pos + TextSum(xs)
    ensures ParamsAsWritten(xs + ys, u, pos) == Cat(ParamsAsWritten(xs, u, pos), ParamsAsWritten(ys, u, mid))
    decreases |xs|, 0
  {
    var n := WordRun(xs[1..]);
    TextSumParam(xs, n);
    AsWrittenAppend(xs[1 + n..], ys, u, pos + 1 + n, mid);
    AsWrittenParamAppend(xs, ys, u, pos, mid);
  }

  lemma {:induction false} AsWrittenAppendLit(xs: seq<Tok>, ys: seq<Tok>, u: string, pos: nat, mid: nat)
    requires xs != [] && NoWordStart(ys)
    requires !(xs[0] == Lit(':') && WordRun(xs[1..]) > 0)
    requires mid == pos + TextSum(xs)
    ensures ParamsAsWritten(xs + ys, u, pos) == Cat(ParamsAsWritten(xs, u, pos), ParamsAsWritten(ys, u, mid))
    decreases |xs|, 0
  {
    assert TextSum(xs) == TextLen(xs[0]) + TextSum(xs[1..]);
    AsWrittenAppend(xs[1..], ys, u, pos + TextLen(xs[0]), mid);
    AsWrittenLitAppend(xs, ys, u, pos, mid);
  }

  lemma AsWrittenParamAppend(xs: seq<Tok>, ys: seq<Tok>, u: string, pos: nat, mid: nat)
    requires xs != [] && NoWordStart(ys)
    requires xs[0] == Lit(':') && WordRun(xs[1..]) > 0
    requires ParamsAsWritten(xs[1 + WordRun(xs[1..])..] + ys, u, pos + 1 + WordRun(xs[1..]))
        == Cat(ParamsAsWritten(xs[1 + WordRun(xs[1..])..], u, pos + 1 + WordRun(xs[1..])), ParamsAsWritten(ys, u, mid))
    ensures ParamsAsWritten(xs + ys, u, pos) == Cat(ParamsAsWritten(xs, u, pos), ParamsAsWritten(ys, u, mid))
  {
    var n := WordRun(xs[1..]);
    var w := Chars(xs[1..1 + n]);
    var g := if DotsAt(u, pos + 1 + n) then Rest(w) else Seg(w);
    AsWrittenParamAt(xs, u, pos, n, w, g);
    AsWrittenParamConsAt(xs, ys, u, pos, n, w, g);
    CatCons([g], [w], ParamsAsWritten(xs, u, pos), ParamsAsWritten(xs[1 + n..], u, pos + 1 + n),
            ParamsAsWritten(ys, u, mid), ParamsAsWritten(xs[1 + n..] + ys, u, pos + 1 + n));
  }

  lemma AsWrittenParamAt(xs: seq<Tok>, u: string, pos: nat, n: nat, w: string, g: Tok)
    requires xs != [] && xs[0] == Lit(':') && n == WordRun(xs[1..]) && n > 0
    requires w == Chars(xs[1..1 + n]) && g == if DotsAt(u, pos + 1 + n) then Rest(w) else Seg(w)
    ensures ParamsAsWritten(xs, u, pos)
         == Compiled([g] + ParamsAsWritten(xs[1 + n..], u, pos + 1 + n).toks,
                     [w] + ParamsAsWritten(xs[1 + n..], u, pos + 1 + n).variables)
  {
    AsWrittenParamStep(xs, u, pos);
  }

  lemma AsWrittenParamConsAt(xs: seq<Tok>, ys: seq<Tok>, u: string, pos: nat, n: nat, w: string, g: Tok)
    requires xs != [] && NoWordStart(ys)
    requires xs[0] == Lit(':') && n == WordRun(xs[1..]) && n > 0
    requires w == Chars(xs[1..1 + n]) && g == if DotsAt(u, pos + 1 + n) then Rest(w) else Seg(w)
    ensures ParamsAsWritten(xs + ys, u, pos)
         == Compiled([g] + ParamsAsWritten(xs[1 + n..] + ys, u, pos + 1 + n).toks,
                     [w] + ParamsAsWritten(xs[1 + n..] + ys, u, pos + 1 + n).variables)
  {
    ParamHeadAppend(xs, ys);
    AsWrittenParamAt(xs + ys, u, pos, n, w, g);
  }

  lemma AsWrittenLitAppend(xs: seq<Tok>, ys: seq<Tok>, u: string, pos: nat, mid: nat)
    requires xs != [] && NoWordStart(ys)
    requires !(xs[0] == Lit(':') && WordRun(xs[1..]) > 0)
    requires ParamsAsWritten(xs[1..] + ys, u, pos + TextLen(xs[0]))
          == Cat(ParamsAsWritten(xs[1..], u, pos + TextLen(xs[0])), ParamsAsWritten(ys, u, mid))
    ensures ParamsAsWritten(xs + ys, u, pos) == Cat(ParamsAsWritten(xs, u, pos), ParamsAsWritten(ys, u, mid))
  {
    var next := pos + TextLen(xs[0]);
    var px, r := ParamsAsWritten(xs, u, pos), ParamsAsWritten(xs[1..], u, next);
    var py, pxy := ParamsAsWritten(ys, u, mid), ParamsAsWritten(xs[1..] + ys, u, next);
    assert px == Compiled([xs[0]] + r.toks, [] + r.variables) by {
      AsWrittenLitStep(xs, u, pos);
    }
    assert ParamsAsWritten(xs + ys, u, pos) == Compiled([xs[0]] + pxy.toks, [] + pxy.variables) by {
      AsWrittenLitCons(xs, ys, u, pos);
    }
    CatCons([xs[0]], [], px, r, py, pxy);
  }

  lemma TextSumParam(xs: seq<Tok>, n: nat)
    requires xs != [] && xs[0] == Lit(':') && n == WordRun(xs[1..])
    ensures TextSum(xs) == 1 + n + TextSum(xs[1 + n..])
  {
    WordRunFacts(xs[1..]);
    assert xs[1..] == xs[1..1 + n] + xs[1 + n..];
    TextSumAppend(xs[1..1 + n], xs[1 + n..]);
    TextSumOfLits(xs[1..1 + n]);
  }

  lemma AsWrittenDots(u: string, pos: nat)
    ensures ParamsAsWritten(Dots, u, pos) == Compiled(Dots, [])
  {
    assert Dots[1..] == [Lit('.'), Lit('.')] && Dots[1..][1..] == [Lit('.')];
    assert [Lit('.')][1..] == [];
  }

  /**
   * As written, a rest parameter that ends a host-less pattern is never
   * recognised: the implicit `^*` shifts the `...` test five characters past
   * it, so the parameter compiles to a segment group followed by three
   * any-character dots.
   */
  /** `a:name...` in tokens, after the `*` rewrite. */
  lemma WildcardsRest(a: string, name: string)
    ensures Wildcards(a + ":" + name + "...") == Wildcards(a) + ([Lit(':')] + Wildcards(name) + Dots)
  {
    assert Wildcards("...") == Dots by {
      WildcardsDots();
    }
    assert Wildcards(":") == [Lit(':')];
    assert Wildcards(a + ":" + name + "...") == Wildcards(a + ":" + name) + Dots by {
      WildcardsAppend(a + ":" + name, "...");
    }
    assert Wildcards(a + ":" + name) == Wildcards(a) + [Lit(':')] + Wildcards(name) by {
      WildcardsAppend(a + ":", name);
      WildcardsAppend(a, ":");
    }
    Regroup(Wildcards(a), [Lit(':')], Wildcards(name), Dots);
  }

  lemma Regroup<T>(p: seq<T>, q: seq<T>, r: seq<T>, s: seq<T>)
    ensures p + q + r + s == p + (q + r + s)
  {
  }

  lemma Assoc<T>(p: seq<T>, q: seq<T>, r: seq<T>)
    ensures p + q + r == p + (q + r)
  {
  }

  /** The pieces of `[x] + a + b`. */
  lemma ConsSplit<T>(x: T, a: seq<T>, b: seq<T>)
    ensures ([x] + a + b)[0] == x
    ensures ([x] + a + b)[1..] == a + b
    ensures ([x] + a + b)[1..1 + |a|] == a
    ensures ([x] + a + b)[1 + |a|..] == b
  {
  }

  /** The pieces of `[x] + a + d + z`. */
  lemma ConsSplit3<T>(x: T, a: seq<T>, d: seq<T>, z: seq<T>)
    ensures ([x] + a + d + z)[0] == x
    ensures ([x] + a + d + z)[1..] == a + (d + z)
    ensures ([x] + a + d + z)[1..1 + |a|] == a
    ensures ([x] + a + d + z)[1 + |a|..] == d + z
  {
    assert [x] + a + d + z == [x] + a + (d + z);
    ConsSplit(x, a, d + z);
  }

  lemma WildcardsDots()
    ensures Wildcards("...") == Dots
  {
  }


  lemma WildcardsRestThen(a: string, name: string, b: string)
    ensures Wildcards(a + ":" + name + "..." + b) == Wildcards(a) + ([Lit(':')] + Wildcards(name) + Dots + Wildcards(b))
  {
    WildcardsRest(a, name);
    WildcardsAppend(a + ":" + name + "...", b);
  }

  /**
   * The other side of the offset: in `/:a/bcde...` the `...` test of `:a`
   * lands on the dots of `bcde...`, so as written `:a` becomes a rest group,
   * where the corrected compiler makes it a segment group.
   */
  lemma AsWrittenFalseRest(url: string)
    requires url == "/:a/bcde..."
    ensures |UrlToRegexp(url).toks| > 3 && UrlToRegexp(url).toks[3] == Rest("a")
    ensures |UrlToRegexpFixed(url).toks| > 3 && UrlToRegexpFixed(url).toks[3] == Seg("a")
  {
    var u := Prefixed(url);
    assert u == "^*/:a/bcde...";
    var ts := Wildcards(u);
    ExampleTokens(u, ts);
    ExampleRun(ts);
    FalseRestAsWritten(u, ts);
    FalseRestFixed(ts);
  }

  lemma ExampleTokens(u: string, ts: seq<Tok>)
    requires u == "^*/:a/bcde..." && ts == Wildcards(u)
    ensures |ts| == 13
    ensures ts[0] == Lit('^') && ts[1] == AnyRun && ts[2] == Lit('/') && ts[3] == Lit(':')
    ensures ts[4] == Lit('a') && ts[5] == Lit('/')
  {
    WildcardsAt(u);
  }

  lemma ExampleRun(ts: seq<Tok>)
    requires |ts| == 13 && ts[4] == Lit('a') && ts[5] == Lit('/')
    ensures WordRun(ts[4..]) == 1 && Chars(ts[4..5]) == "a"
  {
    assert ts[4..][1..] == ts[5..];
    assert WordRun(ts[5..]) == 0;
    assert ts[4..5] == [Lit('a')] && ts[4..5][1..] == [];
  }

  /** The prefix `^(?:.*)/` survives `DropDots`, and so does a group after it that is followed by a `/`. */
  lemma DropDotsAfterPrefix(g: Tok, rest: seq<Tok>)
    requires g.Rest? || g.Seg?
    requires rest != [] && rest[0] == Lit('/')
    ensures var t := DropDots([Lit('^'), AnyRun, Lit('/')] + ([g] + rest)); |t| > 3 && t[3] == g
  {
    var pre := [Lit('^'), AnyRun, Lit('/')];
    DropDotsAppend(pre, [g] + rest);
    assert pre[1..] == [AnyRun, Lit('/')] && pre[1..][1..] == [Lit('/')] && [Lit('/')][1..] == [];
    assert DropDots(pre) == pre;
    assert !DotsFrom([g] + rest, 1);
  }

  lemma FalseRestAsWritten(u: string, ts: seq<Tok>)
    requires u == "^*/:a/bcde..." && |ts| == |u|
    requires ts[0] == Lit('^') && ts[1] == AnyRun && ts[2] == Lit('/') && ts[3] == Lit(':') && ts[5] == Lit('/')
    requires WordRun(ts[4..]) == 1 && Chars(ts[4..5]) == "a"
    ensures var t := DropDots(ParamsAsWritten(ts, u, 0).toks); |t| > 3 && t[3] == Rest("a")
  {
    assert DotsAt(u, 10);
    assert ts[3..][1..] == ts[4..] && ts[3..][1..2] == ts[4..5] && ts[3..][2..] == ts[5..];
    var r := ParamsAsWritten(ts[5..], u, 10);
    assert r.toks[0] == Lit('/');
    var q := ParamsAsWritten(ts[3..], u, 8);
    assert q.toks == [Rest("a")] + r.toks;
    assert ParamsAsWritten(ts[2..], u, 7).toks == [Lit('/')] + q.toks by {
      assert ts[2..][1..] == ts[3..];
    }
    assert ParamsAsWritten(ts[1..], u, 1).toks == [AnyRun] + ([Lit('/')] + q.toks) by {
      assert ts[1..][1..] == ts[2..];
    }
    assert ParamsAsWritten(ts, u, 0).toks == [Lit('^'), AnyRun, Lit('/')] + ([Rest("a")] + r.toks);
    DropDotsAfterPrefix(Rest("a"), r.toks);
  }

  lemma FalseRestFixed(ts: seq<Tok>)
    requires |ts| == 13
    requires ts[0] == Lit('^') && ts[1] == AnyRun && ts[2] == Lit('/') && ts[3] == Lit(':') && ts[5] == Lit('/')
    requires WordRun(ts[4..]) == 1 && Chars(ts[4..5]) == "a"
    ensures var t := DropDots(ParamsFixed(ts).toks); |t| > 3 && t[3] == Seg("a")
  {
    assert ts[3..][1..] == ts[4..] && ts[3..][1..2] == ts[4..5] && ts[3..][2..] == ts[5..];
    var r := ParamsFixed(ts[5..]);
    assert r.toks[0] == Lit('/');
    assert !DotsNext(ts[5..]);
    var q := ParamsFixed(ts[3..]);
    assert q.toks == [Seg("a")] + r.toks;
    assert ParamsFixed(ts[2..]).toks == [Lit('/')] + q.toks by {
      assert ts[2..][1..] == ts[3..];
    }
    assert ParamsFixed(ts[1..]).toks == [AnyRun] + ([Lit('/')] + q.toks) by {
      assert ts[1..][1..] == ts[2..];
    }
    assert ParamsFixed(ts).toks == [Lit('^'), AnyRun, Lit('/')] + ([Seg("a")] + r.toks);
    DropDotsAfterPrefix(Seg("a"), r.toks);
  }

  /** Where the `...` test looks past the end of `u`, `:name...` stays a segment and three dots. */
  lemma AsWrittenMissedRest(name: string, u: string, p: nat)
    requires name != [] && forall k :: 0 <= k < |name| ==> IsWordChar(name[k])
    requires p + 1 + |name| + 3 > |u|
    ensures ParamsAsWritten([Lit(':')] + Wildcards(name) + Dots, u, p) == Compiled([Seg(name)] + Dots, [name])
  {
    var ys := [Lit(':')] + Wildcards(name) + Dots;
    ConsSplit(Lit(':'), Wildcards(name), Dots);
    NameRun(name, Dots);
    var n := |name|;
    AsWrittenParamStep(ys, u, p);
    AsWrittenDots(u, p + 1 + n);
  }

  lemma DropDotsSegDots(pre: seq<Tok>, name: string)
    ensures DropDots(pre + ([Seg(name)] + Dots)) == DropDots(pre) + ([Seg(name)] + Dots)
  {
    DropDotsAppend(pre, [Seg(name)] + Dots);
    assert ([Seg(name)] + Dots)[1..] == Dots;
    assert Dots[1..] == [Lit('.'), Lit('.')] && Dots[1..][1..] == [Lit('.')];
    assert [Lit('.')][1..] == [];
  }

  /**
   * As written, a rest parameter that ends a host-less pattern is never
   * recognised: the implicit `^*` shifts the `...` test five characters past
   * it, so the parameter compiles to a segment group followed by three
   * any-character dots.
   */
  lemma HostlessRestAsWritten(c: string, name: string)
    requires name != [] && forall k :: 0 <= k < |name| ==> IsWordChar(name[k])
    ensures EndsWithToks(UrlToRegexp("/" + c + ":" + name + "...").toks, [Seg(name)] + Dots + [OptSlashEnd])
  {
    var url := "/" + c + ":" + name + "...";
    var u := Prefixed(url);
    var xs := Wildcards("^*/" + c);
    var ys := [Lit(':')] + Wildcards(name) + Dots;
    var p := TextSum(xs);
    assert Wildcards(u) == xs + ys by {
      assert u == ("^*/" + c) + ":" + name + "...";
      WildcardsRest("^*/" + c, name);
    }
    assert p + 1 + |name| + 3 > |u| by {
      assert xs[1] == AnyRun by {
        WildcardsAt("^*/" + c);
      }
      assert AnyRun in xs;
    }
    var px := ParamsAsWritten(xs, u, 0);
    assert ParamsAsWritten(xs + ys, u, 0) == Cat(px, Compiled([Seg(name)] + Dots, [name])) by {
      AsWrittenAppend(xs, ys, u, 0, p);
      AsWrittenMissedRest(name, u, p);
    }
    assert DropDots(px.toks + ([Seg(name)] + Dots)) == DropDots(px.toks) + ([Seg(name)] + Dots) by {
      DropDotsSegDots(px.toks, name);
    }
    var t := UrlToRegexp(url).toks;
    assert t == DropDots(px.toks) + ([Seg(name)] + Dots) + [OptSlashEnd];
    Assoc(DropDots(px.toks), [Seg(name)] + Dots, [OptSlashEnd]);
    SuffixOf(DropDots(px.toks), [Seg(name)] + Dots + [OptSlashEnd]);
  }

  lemma SuffixOf<T>(a: seq<T>, b: seq<T>)
    ensures (a + b)[|a|..] == b
  {
  }

  /** With the corrected test the same pattern ends in one rest group. */
  lemma HostlessRestFixed(c: string, name: string)
    requires name != [] && forall k :: 0 <= k < |name| ==> IsWordChar(name[k])
    ensures EndsWithToks(UrlToRegexpFixed("/" + c + ":" + name + "...").toks, [Rest(name), OptSlashEnd])
  {
    var url := "/" + c + ":" + name + "...";
    assert Prefixed(url) == ("^*/" + c) + ":" + name + "..." + "";
    RestParameter("^*/" + c, name, "");
    assert Fragment("") == Compiled([], []);
  }

  lemma {:induction false} GroupsAppend(xs: seq<Tok>, ys: seq<Tok>)
    ensures Groups(xs + ys) == Groups(xs) + Groups(ys)
  {
    if xs == [] {
      assert xs + ys == ys;
    } else {
      var h := if xs[0].IsGroup() then [xs[0]] else [];
      assert Groups(xs + ys) == h + Groups(xs[1..] + ys) by {
        assert (xs + ys)[0] == xs[0];
        assert (xs + ys)[1..] == xs[1..] + ys;
      }
      GroupsAppend(xs[1..], ys);
    }
  }

  lemma GroupsCons(t: Tok, rest: seq<Tok>)
    ensures Groups([t] + rest) == (if t.IsGroup() then [t] else []) + Groups(rest)
  {
    assert ([t] + rest)[1..] == rest;
  }

  /**
   * Consequence: whatever route the as-written expression matches, the value
   * it captures for such a rest parameter holds no `/`, so `/files/:p...`
   * cannot yield `a/b/c`.
   */
  lemma HostlessRestCapturesNoSlash(c: string, name: string, s: string, cs: seq<string>)
    requires name != [] && forall k :: 0 <= k < |name| ==> IsWordChar(name[k])
    requires Search(UrlToRegexp("/" + c + ":" + name + "...").toks, s) == Some(cs)
    ensures cs != [] && '/' !in cs[|cs| - 1]
  {
    var t := UrlToRegexp("/" + c + ":" + name + "...").toks;
    var suffix := [Seg(name)] + Dots + [OptSlashEnd];
    HostlessRestAsWritten(c, name);
    var pre := t[..|t| - |suffix|];
    assert t == pre + suffix by {
      SplitAtSuffix(t, suffix);
    }
    GroupsOfRestTail(pre, name);
    LastCapture(Groups(pre), Seg(name), cs);
    SegCaptureNoSlash(name, cs[|cs| - 1]);
  }

  lemma SplitAtSuffix(t: seq<Tok>, suffix: seq<Tok>)
    requires EndsWithToks(t, suffix)
    ensures t == t[..|t| - |suffix|] + suffix
  {
  }

  lemma GroupsOfRestTail(pre: seq<Tok>, name: string)
    ensures Groups(pre + ([Seg(name)] + Dots + [OptSlashEnd])) == Groups(pre) + [Seg(name)]
  {
    var d := Dots + [OptSlashEnd];
    assert [Seg(name)] + Dots + [OptSlashEnd] == [Seg(name)] + d;
    GroupsAppend(pre, [Seg(name)] + d);
    GroupsCons(Seg(name), d);
    assert d == [Lit('.'), Lit('.'), Lit('.'), OptSlashEnd];
    assert d[1..] == [Lit('.'), Lit('.'), OptSlashEnd];
    assert d[1..][1..] == [Lit('.'), OptSlashEnd];
    assert d[1..][1..][1..] == [OptSlashEnd];
    assert d[1..][1..][1..][1..] == [];
    assert Groups(d[1..][1..][1..]) == [];
    assert Groups(d[1..][1..]) == [];
    assert Groups(d[1..]) == [];
    assert Groups(d) == [];
  }

  /** The last capture belongs to the last group. */
  lemma LastCapture(gs: seq<Tok>, g: Tok, cs: seq<string>)
    requires Fits(gs + [g], cs)
    ensures cs != [] && FitsGroup(g, cs[|cs| - 1])
  {
    assert (gs + [g])[|cs| - 1] == g;
  }

  lemma SegCaptureNoSlash(name: string, v: string)
    requires FitsGroup(Seg(name), v)
    ensures '/' !in v
  {
  }

  /** On the unrewritten pattern, the as-written `...` test is the token test. */
  lemma DotsAtWildcards(u: string, k: nat)
    requires k <= |u|
    ensures DotsAt(u, k) == DotsNext(Wildcards(u[k..]))
  {
    if k + 3 <= |u| {
      assert u[k..k + 3] == [u[k], u[k + 1], u[k + 2]];
      WildcardsAt(u[k..]);
      assert u[k..][0] == u[k] && u[k..][1] == u[k + 1] && u[k..][2] == u[k + 2];
    }
  }

  lemma {:induction false} AsWrittenAgreesWithoutStars(u: string, q: nat)
    requires q <= |u| && forall k :: 0 <= k < |u| ==> u[k] != '*'
    ensures ParamsAsWritten(Wildcards(u[q..]), u, q) == ParamsFixed(Wildcards(u[q..]))
    decreases |u| - q, 1
  {
    if q < |u| {
      var ts := Wildcards(u[q..]);
      if ts[0] == Lit(':') && WordRun(ts[1..]) > 0 {
        AgreeParam(u, q);
      } else {
        WildcardsFrom(u, q, 1);
        AsWrittenAgreesWithoutStars(u, q + 1);
        AgreeLitStep(ts, u, q);
      }
    }
  }

  lemma WildcardsFrom(u: string, q: nat, m: nat)
    requires q + m <= |u|
    ensures Wildcards(u[q..])[m..] == Wildcards(u[q + m..])
  {
    WildcardsSuffix(u[q..], m);
    assert u[q..][m..] == u[q + m..];
  }

  lemma {:induction false} AgreeParam(u: string, q: nat)
    requires q < |u| && forall k :: 0 <= k < |u| ==> u[k] != '*'
    requires var ts := Wildcards(u[q..]); ts[0] == Lit(':') && WordRun(ts[1..]) > 0
    ensures ParamsAsWritten(Wildcards(u[q..]), u, q) == ParamsFixed(Wildcards(u[q..]))
    decreases |u| - q, 0
  {
    var ts := Wildcards(u[q..]);
    var n := WordRun(ts[1..]);
    var rest := Wildcards(u[q + 1 + n..]);
    assert rest == ts[1 + n..] by {
      WildcardsFrom(u, q, 1 + n);
    }
    assert DotsAt(u, q + 1 + n) == DotsNext(rest) by {
      DotsAtWildcards(u, q + 1 + n);
    }
    assert ParamsAsWritten(rest, u, q + 1 + n) == ParamsFixed(rest) by {
      AsWrittenAgreesWithoutStars(u, q + 1 + n);
    }
    AgreeParamStep(ts, u, q, n, rest);
  }

  lemma AgreeParamStep(ts: seq<Tok>, u: string, q: nat, n: nat, rest: seq<Tok>)
    requires ts != [] && ts[0] == Lit(':') && n == WordRun(ts[1..]) && n > 0
    requires rest == ts[1 + n..]
    requires DotsAt(u, q + 1 + n) == DotsNext(rest)
    requires ParamsAsWritten(rest, u, q + 1 + n) == ParamsFixed(rest)
    ensures ParamsAsWritten(ts, u, q) == ParamsFixed(ts)
  {
    AsWrittenParamStep(ts, u, q);
    FixedParamStep(ts);
  }

  lemma AgreeLitStep(ts: seq<Tok>, u: string, q: nat)
    requires ts != [] && !(ts[0] == Lit(':') && WordRun(ts[1..]) > 0) && !ts[0].AnyRun?
    requires ParamsAsWritten(ts[1..], u, q + 1) == ParamsFixed(ts[1..])
    ensures ParamsAsWritten(ts, u, q) == ParamsFixed(ts)
  {
    AsWrittenLitStep(ts, u, q);
    FixedLitStep(ts);
  }



  /** Patterns with no `*` and no leading `/` compile the same either way. */
  lemma NoStarPatternsAgree(url: string)
    requires forall k :: 0 <= k < |url| ==> url[k] != '*'
    requires !StartsWith(url, "/")
    ensures UrlToRegexp(url) == UrlToRegexpFixed(url)
  {
    var u := Prefixed(url);
    assert u == url || u == "^" + url;
    assert forall k :: 0 <= k < |u| ==> u[k] != '*';
    AsWrittenAgreesWithoutStars(u, 0);
    assert u[0..] == u;
  }

  // ---------------------------------------------------------------------
  // The legacy compiler of `utils.js`

  /** `route.split('/').shift()` */
  function FirstSegment(route: string): (f: string)
    ensures |f| <= |route| && f == route[..|f|]
    ensures forall k :: 0 <= k < |f| ==> f[k] != '/'
    ensures |f| < |route| ==> route[|f|] == '/'
  {
    if route == [] || route[0] == '/' then "" else [route[0]] + FirstSegment(route[1..])
  }

  /**
   * The `(?:[:*])(\w+)` rewrite of `routeToRegexp`, then the `*` rewrite of
   * what remains: both `:name` and `*name` are segment groups.
   */
  function LegacyParams(u: string): (r: Compiled)
    ensures GroupNames(r.toks) == r.variables
    ensures forall g :: g in Groups(r.toks) ==> g.Seg?
    decreases |u|
  {
    if u == [] then Compiled([], [])
    else if (u[0] == ':' || u[0] == '*') && WordLen(u[1..]) > 0 then
      var n := WordLen(u[1..]);
      var r := LegacyParams(u[1 + n..]);
      assert ([Seg(u[1..1 + n])] + r.toks)[1..] == r.toks;
      Compiled([Seg(u[1..1 + n])] + r.toks, [u[1..1 + n]] + r.variables)
    else
      var r := LegacyParams(u[1..]);
      var tok := if u[0] == '*' then AnyRun else Lit(u[0]);
      assert ([tok] + r.toks)[1..] == r.toks;
      Compiled([tok] + r.toks, r.variables)
  }

  /**
   * `routeToRegexp`: an empty first segment gets a `*` prefix (so the
   * expression starts with `(?:.*)`), every group is a segment group named by
   * its variable, nothing anchors the start, and the end allows one `/`.
   */
  function RouteToRegexp(route: string): (r: Compiled)
    ensures |r.toks| >= 1 && r.toks[|r.toks| - 1] == OptSlashEnd
    ensures GroupNames(r.toks) == r.variables
    ensures forall g :: g in Groups(r.toks) ==> g.Seg?
    ensures FirstSegment(route) == "" ==> |r.toks| >= 2 && r.toks[0] == AnyRun
    ensures (forall k :: 0 <= k < |route| ==> route[k] != '^') ==> Lit('^') !in r.toks
  {
    var u := if FirstSegment(route) == "" then "*" + route else route;
    var p := LegacyParams(u);
    GroupNamesAppend(p.toks, [OptSlashEnd]);
    GroupsAppend(p.toks, [OptSlashEnd]);
    assert Groups([OptSlashEnd]) == [];
    LegacyNoCaret(u);
    LegacyStarStart(route);
    Compiled(p.toks + [OptSlashEnd], p.variables)
  }

  lemma LegacyStarStart(route: string)
    ensures FirstSegment(route) == "" ==>
      LegacyParams("*" + route).toks != [] && LegacyParams("*" + route).toks[0] == AnyRun
  {
    if FirstSegment(route) == "" {
      var u := "*" + route;
      assert u[1..] == route;
      if route != [] {
        assert route[0] == '/';
      }
      assert WordLen(u[1..]) == 0;
    }
  }

  lemma {:induction false} LegacyNoCaret(u: string)
    ensures (forall k :: 0 <= k < |u| ==> u[k] != '^') ==> Lit('^') !in LegacyParams(u).toks
    decreases |u|
  {
    if u != [] {
      if (u[0] == ':' || u[0] == '*') && WordLen(u[1..]) > 0 {
        LegacyNoCaret(u[1 + WordLen(u[1..])..]);
      } else {
        LegacyNoCaret(u[1..]);
      }
    }
  }

  /** The length of the longest suffix of `f` made of word characters. */
  function TrailingWordLen(f: string): (n: nat)
    ensures n <= |f|
    ensures forall k :: |f| - n <= k < |f| ==> IsWordChar(f[k])
    ensures n < |f| ==> !IsWordChar(f[|f| - n - 1])
  {
    if f != [] && IsWordChar(f[|f| - 1]) then 1 + TrailingWordLen(f[..|f| - 1]) else 0
  }

  /** `/(\w+\.\w+)$/` matches `f`: it ends in word characters, a dot and word characters. */
  ghost predicate EndsInDomain(f: string) {
    exists d :: 0 < d < |f| - 1 && f[d] == '.' && IsWordChar(f[d - 1]) && WordsFrom(f, d + 1)
  }

  predicate WordsFrom(f: string, i: nat) {
    forall k :: i <= k < |f| ==> IsWordChar(f[k])
  }

  /** `routeHasDomain`: whether the first segment of the route names a domain. */
  function RouteHasDomain(route: string): (b: bool)
    ensures b <==> EndsInDomain(FirstSegment(route))
  {
    DomainSuffix(FirstSegment(route));
    DomainAt(FirstSegment(route), TrailingWordLen(FirstSegment(route)))
  }

  /** The character before the trailing `n` word characters is a dot preceded by a word character. */
  predicate DomainAt(f: string, n: nat) {
    n > 0 && |f| >= n + 2 && f[|f| - n - 1] == '.' && IsWordChar(f[|f| - n - 2])
  }

  lemma DomainSuffix(f: string)
    ensures EndsInDomain(f) <==> DomainAt(f, TrailingWordLen(f))
  {
    var n := TrailingWordLen(f);
    if DomainAt(f, n) {
      var d := |f| - n - 1;
      assert 0 < d < |f| - 1 && f[d] == '.' && IsWordChar(f[d - 1]) && WordsFrom(f, d + 1);
    }
    if EndsInDomain(f) {
      var d :| 0 < d < |f| - 1 && f[d] == '.' && IsWordChar(f[d - 1]) && WordsFrom(f, d + 1);
      assert n == |f| - d - 1;
    }
  }
}
