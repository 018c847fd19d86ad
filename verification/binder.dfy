/** Writing validated parameter values over the stored query, key by key. */
module QueryBinder {

  import opened Documents

  /** The filter after `filter[key] = value` has run for every parameter:
      every parameter key holds its parameter value (last write wins), every
      other key keeps its value, and no key is lost or invented. */
  function Overlay(filter: Document, params: Document): (r: Document)
    ensures r.Keys == filter.Keys + params.Keys
    ensures forall k :: k in params ==> r[k] == params[k]
    ensures forall k :: k in filter && k !in params ==> r[k] == filter[k]
  {
    filter + params
  }

  /** The set of keys an iteration order visits. */
  function Visited(order: seq<string>): set<string>
  {
    set i | 0 <= i < |order| :: order[i]
  }

  /** The Go `range` loop over the parameter map, for one particular order in
      which the runtime happens to visit the keys. */
  function VisitInOrder(filter: Document, params: Document, order: seq<string>): Document
    requires Visited(order) <= params.Keys
    decreases |order|
  {
    if |order| == 0 then filter
    else
      assert order[0] in Visited(order);
      assert Visited(order[1..]) <= Visited(order);
      VisitInOrder(filter[order[0] := params[order[0]]], params, order[1..])
  }

  /** The parameters restricted to a set of keys. */
  function Restrict(params: Document, keys: set<string>): Document
  {
    map k | k in params && k in keys :: params[k]
  }

  /** Visiting a prefix of the keys writes exactly the visited parameters. */
  lemma {:induction false} VisitWritesVisited(filter: Document, params: Document, order: seq<string>)
    requires Visited(order) <= params.Keys
    ensures VisitInOrder(filter, params, order) == filter + Restrict(params, Visited(order))
    decreases |order|
  {
    if |order| == 0 {
      assert Restrict(params, Visited(order)) == map[];
    } else {
      var k := order[0];
      assert k in Visited(order);
      var rest := order[1..];
      assert Visited(order) == {k} + Visited(rest) by {
        forall x | x in Visited(order) ensures x in {k} + Visited(rest) {
          var i :| 0 <= i < |order| && order[i] == x;
          if i > 0 { assert rest[i - 1] == x; }
        }
        forall x | x in Visited(rest) ensures x in Visited(order) {
          var i :| 0 <= i < |rest| && rest[i] == x;
          assert order[i + 1] == x;
        }
      }
      VisitWritesVisited(filter[k := params[k]], params, rest);
      var lhs := filter[k := params[k]] + Restrict(params, Visited(rest));
      var rhs := filter + Restrict(params, Visited(order));
      assert lhs.Keys == rhs.Keys;
      forall x | x in lhs ensures lhs[x] == rhs[x] {
        if x == k || x in Visited(rest) {
          assert x in Restrict(params, Visited(order));
        }
      }
    }
  }

  /** Whatever order the runtime visits the parameter keys in, the loop ends
      with the same filter, the overlay. */
  lemma VisitOrderIrrelevant(filter: Document, params: Document, order: seq<string>)
    requires Visited(order) == params.Keys
    ensures VisitInOrder(filter, params, order) == Overlay(filter, params)
  {
    VisitWritesVisited(filter, params, order);
    assert Restrict(params, Visited(order)) == params;
  }
}
