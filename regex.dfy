/**
 * The regular expressions the pattern compilers emit, as token sequences.
 *
 * `Lit(c)` is one pattern character: `^` and `$` are the (non-multiline) start
 * and end anchors, `.` matches any character but a line terminator, and every
 * other character matches itself. `AnyRun` is `(?:.*)`, `Seg(name)` is the
 * group `([^\/]+)`, `Rest(name)` is the group `(.*)` and `OptSlashEnd` is
 * `(?:\/$|$)`. `Captures` is the backtracking matcher with the priorities of
 * a JavaScript regular expression (greedy runs try their longest length
 * first); `Accepts` is the declarative language of a token sequence.
 */
module Regex {
  import opened Js

  datatype Tok = Lit(c: char) | AnyRun | Seg(name: string) | Rest(name: string) | OptSlashEnd {
    predicate IsRun() {
      AnyRun? || Seg? || Rest?
    }

    predicate IsGroup() {
      Seg? || Rest?
    }

    /** The fewest characters a run token consumes. */
    function MinLen(): nat {
      if Seg? then 1 else 0
    }

    /** Whether a run token may consume the character `ch`. */
    predicate Allows(ch: char) {
      if Seg? then ch != '/' else !IsLineTerminator(ch)
    }
  }

  predicate IsLineTerminator(ch: char) {
    ch == '\n' || ch == '\r' || ch == '\U{2028}' || ch == '\U{2029}'
  }

  /** Whether the pattern character `c` (not an anchor) matches `ch`. */
  predicate LitMatches(c: char, ch: char) {
    if c == '.' then !IsLineTerminator(ch) else ch == c
  }

  /** The capturing groups of a token sequence, left to right. */
  function Groups(toks: seq<Tok>): seq<Tok> {
    if toks == [] then []
    else (if toks[0].IsGroup() then [toks[0]] else []) + Groups(toks[1..])
  }

  function GroupNames(toks: seq<Tok>): seq<string> {
    if toks == [] then []
    else (if toks[0].IsGroup() then [toks[0].name] else []) + GroupNames(toks[1..])
  }

  /** What a group may capture: a segment is non-empty and has no `/`. */
  ghost predicate FitsGroup(g: Tok, v: string) {
    g.IsGroup() && |v| >= g.MinLen() && forall k :: 0 <= k < |v| ==> g.Allows(v[k])
  }

  /** One captured value per group, each of the shape its group allows. */
  ghost predicate Fits(groups: seq<Tok>, cs: seq<string>) {
    |cs| == |groups| && forall g :: 0 <= g < |cs| ==> FitsGroup(groups[g], cs[g])
  }

  /** The longest run of characters from `i` that the run token `t` may consume. */
  function Run(t: Tok, s: string, i: nat): (n: nat)
    requires i <= |s|
    ensures i + n <= |s|
    ensures forall p :: i <= p < i + n ==> t.Allows(s[p])
    ensures i + n == |s| || !t.Allows(s[i + n])
    decreases |s| - i
  {
    if i < |s| && t.Allows(s[i]) then 1 + Run(t, s, i + 1) else 0
  }

  /**
   * The captures of the first way, in JavaScript's priority order, that
   * `toks` matches `s` from position `i`; the match may end anywhere.
   */
  function Captures(toks: seq<Tok>, s: string, i: nat): (r: Option<seq<string>>)
    requires i <= |s|
    ensures r.Some? ==> Fits(Groups(toks), r.value)
    decreases |toks|, 0, 0
  {
    if toks == [] then Some([])
    else
      var t, rest := toks[0], toks[1..];
      match t
      case Lit(c) =>
        if c == '^' then (if i == 0 then Captures(rest, s, i) else None)
        else if c == '$' then (if i == |s| then Captures(rest, s, i) else None)
        else if i < |s| && LitMatches(c, s[i]) then Captures(rest, s, i + 1)
        else None
      case OptSlashEnd =>
        if i + 1 == |s| && s[i] == '/' then Captures(rest, s, i + 1)
        else if i == |s| then Captures(rest, s, i)
        else None
      case _ => TryLengths(t, rest, s, i, Run(t, s, i))
  }

  /** Backtracking over the length of a run: `k`, then `k - 1`, ... down to its minimum. */
  function TryLengths(t: Tok, rest: seq<Tok>, s: string, i: nat, k: nat): (r: Option<seq<string>>)
    requires t.IsRun()
    requires i + k <= |s| && forall p :: i <= p < i + k ==> t.Allows(s[p])
    ensures r.Some? ==> Fits(Groups([t] + rest), r.value)
    decreases |rest|, 1, k
  {
    assert Groups([t] + rest) == (if t.IsGroup() then [t] else []) + Groups(rest) by {
      assert ([t] + rest)[1..] == rest;
    }
    if k < t.MinLen() then None
    else
      match Captures(rest, s, i + k)
      case Some(cs) =>
        if t.IsGroup() then
          assert FitsGroup(t, s[i..i + k]);
          Some([s[i..i + k]] + cs)
        else Some(cs)
      case None => if k == 0 then None else TryLengths(t, rest, s, i, k - 1)
  }

  /** The language of a token sequence from position `i`, without priorities. */
  ghost predicate Accepts(toks: seq<Tok>, s: string, i: nat)
    requires i <= |s|
    decreases |toks|
  {
    if toks == [] then true
    else
      var t, rest := toks[0], toks[1..];
      match t
      case Lit(c) =>
        if c == '^' then i == 0 && Accepts(rest, s, i)
        else if c == '$' then i == |s| && Accepts(rest, s, i)
        else i < |s| && LitMatches(c, s[i]) && Accepts(rest, s, i + 1)
      case OptSlashEnd =>
        (i + 1 == |s| && s[i] == '/' && Accepts(rest, s, i + 1)) || (i == |s| && Accepts(rest, s, i))
      case _ =>
        exists j :: i + t.MinLen() <= j <= |s| && (forall p :: i <= p < j ==> t.Allows(s[p]))
                    && Accepts(rest, s, j)
  }

  /** Some end position in `lo..hi` from which `toks` is accepted. */
  ghost predicate AcceptsBetween(toks: seq<Tok>, s: string, lo: nat, hi: nat)
    requires hi <= |s|
  {
    exists j :: lo <= j <= hi && Accepts(toks, s, j)
  }

  lemma AcceptsBetweenStep(toks: seq<Tok>, s: string, lo: nat, hi: nat)
    requires lo < hi <= |s|
    ensures AcceptsBetween(toks, s, lo, hi) <==> AcceptsBetween(toks, s, lo, hi - 1) || Accepts(toks, s, hi)
  {
  }

  /** One backtracking step: the longest remaining length first, then shorter ones. */
  lemma TryLengthsStep(t: Tok, rest: seq<Tok>, s: string, i: nat, k: nat)
    requires t.IsRun()
    requires i + k <= |s| && forall p :: i <= p < i + k ==> t.Allows(s[p])
    ensures k < t.MinLen() ==> TryLengths(t, rest, s, i, k).None?
    ensures k >= t.MinLen() && Captures(rest, s, i + k).Some? ==> TryLengths(t, rest, s, i, k).Some?
    ensures k >= t.MinLen() && Captures(rest, s, i + k).None? && k == 0 ==> TryLengths(t, rest, s, i, k).None?
    ensures k >= t.MinLen() && Captures(rest, s, i + k).None? && k > 0 ==>
      TryLengths(t, rest, s, i, k) == TryLengths(t, rest, s, i, k - 1)
  {
  }

  lemma {:induction false} TryLengthsAgree(t: Tok, rest: seq<Tok>, s: string, i: nat, k: nat)
    requires t.IsRun()
    requires i + k <= |s| && forall p :: i <= p < i + k ==> t.Allows(s[p])
    requires forall j :: i <= j <= |s| ==> (Captures(rest, s, j).Some? <==> Accepts(rest, s, j))
    ensures TryLengths(t, rest, s, i, k).Some? <==> AcceptsBetween(rest, s, i + t.MinLen(), i + k)
    decreases k
  {
    assert Captures(rest, s, i + k).Some? <==> Accepts(rest, s, i + k);
    if k >= t.MinLen() && Captures(rest, s, i + k).None? && k > 0 {
      TryLengthsAgree(t, rest, s, i, k - 1);
    }
    TryLengthsAgreeStep(t, rest, s, i, k);
  }

  /** One length of `TryLengthsAgree`, given the claim for the next shorter one. */
  lemma TryLengthsAgreeStep(t: Tok, rest: seq<Tok>, s: string, i: nat, k: nat)
    requires t.IsRun()
    requires i + k <= |s| && forall p :: i <= p < i + k ==> t.Allows(s[p])
    requires Captures(rest, s, i + k).Some? <==> Accepts(rest, s, i + k)
    requires k >= t.MinLen() && Captures(rest, s, i + k).None? && k > 0 ==>
      (TryLengths(t, rest, s, i, k - 1).Some? <==> AcceptsBetween(rest, s, i + t.MinLen(), i + k - 1))
    ensures TryLengths(t, rest, s, i, k).Some? <==> AcceptsBetween(rest, s, i + t.MinLen(), i + k)
  {
    var lo := i + t.MinLen();
    TryLengthsStep(t, rest, s, i, k);
    if lo < i + k {
      AcceptsBetweenStep(rest, s, lo, i + k);
    }
  }

  /** The run case of `CapturesAgree`, given the claim for the tail. */
  lemma RunAgrees(toks: seq<Tok>, s: string, i: nat)
    requires i <= |s| && toks != [] && toks[0].IsRun()
    requires forall j :: i <= j <= |s| ==> (Captures(toks[1..], s, j).Some? <==> Accepts(toks[1..], s, j))
    ensures Captures(toks, s, i).Some? <==> Accepts(toks, s, i)
  {
    var t, rest := toks[0], toks[1..];
    var n := Run(t, s, i);
    TryLengthsAgree(t, rest, s, i, n);
    assert Captures(toks, s, i) == TryLengths(t, rest, s, i, n) by {
      assert t.AnyRun? || t.Seg? || t.Rest?;
    }
    assert Accepts(toks, s, i) <==>
      exists j :: i + t.MinLen() <= j <= |s| && (forall p :: i <= p < j ==> t.Allows(s[p]))
                  && Accepts(rest, s, j) by {
      assert t.AnyRun? || t.Seg? || t.Rest?;
    }
    if Accepts(toks, s, i) {
      var j :| i + t.MinLen() <= j <= |s| && (forall p :: i <= p < j ==> t.Allows(s[p]))
               && Accepts(rest, s, j);
      assert i + t.MinLen() <= j <= i + n && Accepts(rest, s, j);
    }
    if TryLengths(t, rest, s, i, n).Some? {
      var j :| i + t.MinLen() <= j <= i + n && Accepts(rest, s, j);
      assert forall p :: i <= p < j ==> t.Allows(s[p]);
    }
  }

  /** The backtracking matcher succeeds exactly on the declarative language. */
  lemma {:induction false} CapturesAgree(toks: seq<Tok>, s: string, i: nat)
    requires i <= |s|
    ensures Captures(toks, s, i).Some? <==> Accepts(toks, s, i)
    decreases |toks|
  {
    if toks != [] {
      var rest := toks[1..];
      forall j | i <= j <= |s| ensures Captures(rest, s, j).Some? <==> Accepts(rest, s, j) {
        CapturesAgree(rest, s, j);
      }
      if toks[0].IsRun() {
        RunAgrees(toks, s, i);
      }
    }
  }

  /**
   * `s.match(regexp)` without the `g` flag: the captures (`match.slice(1)`)
   * of the leftmost position from which the expression matches.
   */
  function Search(toks: seq<Tok>, s: string): (r: Option<seq<string>>)
    ensures r.Some? ==> Fits(Groups(toks), r.value)
  {
    SearchFrom(toks, s, 0)
  }

  function SearchFrom(toks: seq<Tok>, s: string, i: nat): (r: Option<seq<string>>)
    requires i <= |s|
    ensures r.Some? ==> Fits(Groups(toks), r.value)
    decreases |s| - i
  {
    var m := Captures(toks, s, i);
    if m.Some? then m else if i == |s| then None else SearchFrom(toks, s, i + 1)
  }

  lemma {:induction false} SearchFromFinds(toks: seq<Tok>, s: string, i: nat)
    requires i <= |s|
    ensures SearchFrom(toks, s, i).Some? <==> exists j :: i <= j <= |s| && Accepts(toks, s, j)
    decreases |s| - i
  {
    CapturesAgree(toks, s, i);
    if Captures(toks, s, i).None? && i < |s| {
      SearchFromFinds(toks, s, i + 1);
    }
  }

  /** A match is found exactly when the language accepts from some position. */
  lemma SearchFinds(toks: seq<Tok>, s: string)
    ensures Search(toks, s).Some? <==> exists j :: 0 <= j <= |s| && Accepts(toks, s, j)
  {
    SearchFromFinds(toks, s, 0);
  }

  lemma {:induction false} AnchoredFrom(toks: seq<Tok>, s: string, i: nat)
    requires toks != [] && toks[0] == Lit('^') && 0 < i <= |s|
    ensures SearchFrom(toks, s, i) == None
    decreases |s| - i
  {
    if i < |s| {
      AnchoredFrom(toks, s, i + 1);
    }
  }

  /** A `^`-anchored expression can only match from the start. */
  lemma AnchoredSearch(toks: seq<Tok>, s: string)
    requires toks != [] && toks[0] == Lit('^')
    ensures Search(toks, s) == Captures(toks, s, 0)
  {
    if Captures(toks, s, 0).None? && |s| > 0 {
      AnchoredFrom(toks, s, 1);
    }
  }

  /**
   * The text of one token in `regexp.source`: the engine writes `/` outside a
   * character class as `\/` and line terminators as escapes.
   */
  function TokSource(t: Tok): string {
    match t
    case Lit(c) =>
      if c == '/' then "\\/"
      else if c == '\n' then "\\n"
      else if c == '\r' then "\\r"
      else if c == '\U{2028}' then "\\u2028"
      else if c == '\U{2029}' then "\\u2029"
      else [c]
    case AnyRun => "(?:.*)"
    case Seg(_) => "([^/]+)"
    case Rest(_) => "(.*)"
    case OptSlashEnd => "(?:\\/$|$)"
  }

  function Source(toks: seq<Tok>): string {
    if toks == [] then "" else TokSource(toks[0]) + Source(toks[1..])
  }

  /** `String(regexp)`: the source between slashes (no flags are ever set). */
  function RegexString(toks: seq<Tok>): (r: string)
    ensures |r| == |Source(toks)| + 2 && r[0] == '/' && r[|r| - 1] == '/'
  {
    "/" + Source(toks) + "/"
  }
}
