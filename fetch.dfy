/**
 * What the data hooks share: a query string built by successive `append`
 * calls on a `URLSearchParams`, the URL it is attached to, the `data || []`
 * fallback, and the rule that a request throws on a non-ok response and
 * revalidates the cached listing only on success.
 */
module Fetch {
  import opened Js

  /** `name=value`; percent-encoding is not modelled. */
  function Pair(p: (string, string)): string {
    p.0 + "=" + p.1
  }

  /** URLSearchParams.prototype.toString: the pairs joined with `&`, in insertion order. */
  function Serialize(pairs: seq<(string, string)>): (q: string)
    ensures q == "" <==> pairs == []
  {
    if pairs == [] then ""
    else if |pairs| == 1 then Pair(pairs[0])
    else Pair(pairs[0]) + "&" + Serialize(pairs[1..])
  }

  /** The parameters of a `new URLSearchParams()`, appended one by one. */
  class SearchParams {
    var pairs: seq<(string, string)>

    constructor()
      ensures pairs == []
    {
      pairs := [];
    }

    method Append(name: string, value: string)
      modifies this
      ensures pairs == old(pairs) + [(name, value)]
    {
      pairs := pairs + [(name, value)];
    }

    function ToString(): string
      reads this
    {
      Serialize(pairs)
    }
  }

  /** `` `${base}${query ? `?${query}` : ""}` ``. */
  function Url(base: string, query: string): (u: string)
    ensures query == "" ==> u == base
    ensures query != "" ==> u == base + "?" + query
  {
    if query != "" then base + "?" + query else base
  }

  /** The pairs `if (value) params.append(name, value)` leaves, for each candidate in turn. */
  function Kept(candidates: seq<(string, Option<string>)>): seq<(string, string)> {
    if candidates == [] then []
    else
      var c := candidates[0];
      (if TruthyText(c.1) then [(c.0, c.1.value)] else []) + Kept(candidates[1..])
  }

  /** Keeping works candidate by candidate: the kept pairs come in the candidates' order. */
  lemma {:induction false} KeptAppend(a: seq<(string, Option<string>)>, b: seq<(string, Option<string>)>)
    ensures Kept(a + b) == Kept(a) + Kept(b)
  {
    if a == [] {
      assert a + b == b;
    } else {
      assert (a + b)[0] == a[0];
      assert (a + b)[1..] == a[1..] + b;
      KeptAppend(a[1..], b);
      var h := if TruthyText(a[0].1) then [(a[0].0, a[0].1.value)] else [];
      assert Kept(a + b) == h + (Kept(a[1..]) + Kept(b));
      assert h + (Kept(a[1..]) + Kept(b)) == (h + Kept(a[1..])) + Kept(b);
    }
  }

  /** One candidate is kept exactly when its value is a non-empty text. */
  lemma KeptOne(name: string, value: Option<string>)
    ensures Kept([(name, value)]) == if TruthyText(value) then [(name, value.value)] else []
  {
    assert [(name, value)][1..] == [];
  }

  /** Two candidates are kept in their order, each exactly when its value is a non-empty text. */
  lemma KeptTwo(a: (string, Option<string>), b: (string, Option<string>))
    ensures Kept([a, b]) ==
            (if TruthyText(a.1) then [(a.0, a.1.value)] else []) +
            (if TruthyText(b.1) then [(b.0, b.1.value)] else [])
  {
    KeptAppend([a], [b]);
    assert [a] + [b] == [a, b];
    KeptOne(a.0, a.1);
    KeptOne(b.0, b.1);
  }

  /** Three candidates are kept in their order, each exactly when its value is a non-empty text. */
  lemma KeptThree(a: (string, Option<string>), b: (string, Option<string>), c: (string, Option<string>))
    ensures Kept([a, b, c]) ==
            (if TruthyText(a.1) then [(a.0, a.1.value)] else []) +
            (if TruthyText(b.1) then [(b.0, b.1.value)] else []) +
            (if TruthyText(c.1) then [(c.0, c.1.value)] else [])
  {
    KeptAppend([a, b], [c]);
    assert [a, b] + [c] == [a, b, c];
    KeptTwo(a, b);
    KeptOne(c.0, c.1);
  }

  /** URLSearchParams.prototype.get on the server: the first value under `name`, or null. */
  function Lookup(pairs: seq<(string, string)>, name: string): (r: Option<string>)
    ensures r.Some? ==> (name, r.value) in pairs
    ensures r.None? <==> forall i :: 0 <= i < |pairs| ==> pairs[i].0 != name
    ensures r.Some? ==>
              exists k :: 0 <= k < |pairs| && pairs[k] == (name, r.value) && forall j :: 0 <= j < k ==> pairs[j].0 != name
  {
    if pairs == [] then None
    else if pairs[0].0 == name then
      assert pairs[0] == (name, pairs[0].1);
      Some(pairs[0].1)
    else
      var r := Lookup(pairs[1..], name);
      if r.Some? then
        var k :| 0 <= k < |pairs[1..]| && pairs[1..][k] == (name, r.value) && forall j :: 0 <= j < k ==> pairs[1..][j].0 != name;
        assert pairs[k + 1] == (name, r.value) && forall j :: 0 <= j < k + 1 ==> pairs[j].0 != name;
        r
      else
        r
  }

  /** `data || []`: an array, even an empty one, is truthy, so only missing data falls back. */
  function OrEmpty<T>(data: Option<seq<T>>): (r: seq<T>)
    ensures data.None? ==> r == []
    ensures data.Some? ==> r == data.value
  {
    if data.Some? then data.value else []
  }

  /** How a mutation request settles. */
  datatype Outcome<T> = Resolved(value: T) | Rejected(message: string)

  /** The settled call and whether the listing was revalidated (`mutate()`). */
  datatype Settled<T> = Settled(outcome: Outcome<T>, revalidated: bool)

  /**
   * `if (!response.ok) throw new Error(failure)`, then `mutate()` and the
   * response body: the listing is revalidated exactly when the call resolves.
   */
  function Settle<T>(ok: bool, body: T, failure: string): (r: Settled<T>)
    ensures r.revalidated <==> r.outcome.Resolved?
    ensures r.outcome.Resolved? <==> ok
    ensures ok ==> r.outcome == Resolved(body)
    ensures !ok ==> r.outcome == Rejected(failure)
  {
    if !ok then Settled(Rejected(failure), false) else Settled(Resolved(body), true)
  }
}
