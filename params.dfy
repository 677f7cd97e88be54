/**
 * `extractParameters` (helpers.ts, helpers.js, utils.js): the captures of a
 * match, URL-decoded, written into the event's `parameters` object under the
 * route's variable names, in order.
 *
 * `decodeURIComponent` is a parameter: `None` stands for the `URIError` it
 * throws on a malformed escape. The reduction writes into the holder as it
 * goes, so a failure part-way leaves the earlier names written.
 */
module Parameters {
  import opened Js

  /** The `parameters` object of a router event or request. */
  class Holder {
    var values: map<string, string>

    constructor()
      ensures values == map[]
    {
      values := map[];
    }
  }

  const MalformedUri: string := "URIError: URI malformed"

  /**
   * The holder after writing `decode(values[i])` under `names[i]` for
   * `i = 0, 1, ...`, and whether every value decoded; writing stops at the
   * first value that does not.
   */
  function Written(h: map<string, string>, names: seq<string>, values: seq<string>,
                   decode: string -> Option<string>): (r: (map<string, string>, bool))
    requires |names| == |values|
    decreases |values|
  {
    if values == [] then (h, true)
    else
      match decode(values[0])
      case None => (h, false)
      case Some(v) => Written(h[names[0] := v], names[1..], values[1..], decode)
  }

  /** Every value decodes. */
  predicate AllDecode(values: seq<string>, decode: string -> Option<string>) {
    forall i :: 0 <= i < |values| ==> decode(values[i]).Some?
  }

  /** `names[i]` is not written again after position `i`. */
  predicate LastWrite(names: seq<string>, i: nat)
    requires i < |names|
  {
    forall j :: i < j < |names| ==> names[j] != names[i]
  }

  /**
   * Writing succeeds exactly when every value decodes; keys outside `names`
   * keep their value, and on success each name holds the decoded value of
   * its last occurrence.
   */
  lemma {:induction false} WrittenMeaning(h: map<string, string>, names: seq<string>, values: seq<string>,
                                          decode: string -> Option<string>)
    requires |names| == |values|
    ensures Written(h, names, values, decode).1 <==> AllDecode(values, decode)
    ensures forall k :: k !in names ==>
      (k in Written(h, names, values, decode).0 <==> k in h) &&
      (k in h ==> Written(h, names, values, decode).0[k] == h[k])
    ensures Written(h, names, values, decode).1 ==>
      forall k :: k in Written(h, names, values, decode).0 <==> k in h || k in names
    ensures Written(h, names, values, decode).1 ==>
      forall i :: 0 <= i < |names| && LastWrite(names, i) ==>
        Written(h, names, values, decode).0[names[i]] == decode(values[i]).value
    decreases |values|
  {
    if values != [] {
      match decode(values[0])
      case None =>
        assert !AllDecode(values, decode);
      case Some(v) =>
        var h' := h[names[0] := v];
        WrittenMeaning(h', names[1..], values[1..], decode);
        var r := Written(h', names[1..], values[1..], decode);
        assert AllDecode(values, decode) <==> AllDecode(values[1..], decode) by {
          if AllDecode(values[1..], decode) {
            forall i | 0 <= i < |values| ensures decode(values[i]).Some? {
              if i > 0 {
                assert values[i] == values[1..][i - 1];
              }
            }
          }
        }
        forall k | k !in names
          ensures (k in r.0 <==> k in h) && (k in h ==> r.0[k] == h[k])
        {
          assert k !in names[1..];
        }
        if r.1 {
          forall k ensures k in r.0 <==> k in h || k in names {
            assert k in names <==> k == names[0] || k in names[1..];
          }
          forall i | 0 <= i < |names| && LastWrite(names, i)
            ensures r.0[names[i]] == decode(values[i]).value
          {
            if i == 0 {
              assert names[0] !in names[1..];
            } else {
              assert LastWrite(names[1..], i - 1);
              assert names[1..][i - 1] == names[i] && values[1..][i - 1] == values[i];
            }
          }
        }
    }
  }

  /**
   * `extractParameters(match, variables, holder)`: `found` is the captures
   * (`match.slice(1)`), absent when the expression did not match. With no
   * match or a count that differs from the variables it returns false
   * (`null` / `undefined`) and writes nothing; otherwise it writes the
   * decoded captures and returns true (the holder), or throws `URIError`
   * after writing the names before the malformed one.
   */
  method ExtractParameters(found: Option<seq<string>>, variables: seq<string>, holder: Holder,
                           decode: string -> Option<string>) returns (r: Result<bool>)
    modifies holder
    ensures found.None? || |found.value| != |variables| ==>
      r == Ok(false) && holder.values == old(holder.values)
    ensures found.Some? && |found.value| == |variables| ==>
      var w := Written(old(holder.values), variables, found.value, decode);
      holder.values == w.0 && r == (if w.1 then Ok(true) else Err(MalformedUri))
  {
    if found.None? || |found.value| != |variables| {
      return Ok(false);
    }
    var captures := found.value;
    var i := 0;
    while i < |captures|
      invariant 0 <= i <= |captures|
      invariant Written(old(holder.values), variables, captures, decode)
             == Written(holder.values, variables[i..], captures[i..], decode)
    {
      var decoded := decode(captures[i]);
      if decoded.None? {
        return Err(MalformedUri);
      }
      holder.values := holder.values[variables[i] := decoded.value];
      i := i + 1;
    }
    return Ok(true);
  }
}
