/**
 * The join of node records onto country statistics (`preprocessData`):
 * node counts are summed per country code into a dictionary, then every
 * country record is copied with its total attached, 0 when absent.
 */
module Joiner {
  import opened Wrappers
  import opened Records

  /** The total node count of `code`: the reference the dictionary is proved against. */
  function NodeTotal(nodes: seq<NodeRecord>, code: string): nat
  {
    if |nodes| == 0 then 0
    else
      var last := nodes[|nodes| - 1];
      NodeTotal(nodes[..|nodes| - 1], code) + (if last.countryCode == code then last.count else 0)
  }

  /** Some node record carries `code`. */
  predicate Observed(nodes: seq<NodeRecord>, code: string)
  {
    exists i :: 0 <= i < |nodes| && nodes[i].countryCode == code
  }

  /**
   * One step of the dictionary update `nodeCount[code] + n.Count || n.Count`:
   * an absent key reads as `undefined`, and `undefined + Count` is NaN, which
   * is falsy, so the right operand wins; a present total is incremented (a sum
   * of zero is falsy too, but then `Count` is that same zero).
   */
  function AddCount(prev: Option<nat>, count: nat): (r: nat)
    ensures prev.None? ==> r == count
    ensures prev.Some? ==> r == prev.value + count
  {
    match prev
    case None => count
    case Some(total) => if total + count != 0 then total + count else count
  }

  /** A country code that no node record carries totals zero. */
  lemma {:induction false} NodeTotalUnobserved(nodes: seq<NodeRecord>, code: string)
    requires !Observed(nodes, code)
    ensures NodeTotal(nodes, code) == 0
  {
    if |nodes| > 0 {
      var init := nodes[..|nodes| - 1];
      assert !Observed(init, code) by {
        forall i | 0 <= i < |init| ensures init[i].countryCode != code {
          assert init[i] == nodes[i];
        }
      }
      NodeTotalUnobserved(init, code);
    }
  }

  /** Totals add up over a concatenation of node lists. */
  lemma {:induction false} NodeTotalAppend(a: seq<NodeRecord>, b: seq<NodeRecord>, code: string)
    ensures NodeTotal(a + b, code) == NodeTotal(a, code) + NodeTotal(b, code)
  {
    if |b| > 0 {
      var init := b[..|b| - 1];
      assert (a + b)[..|a + b| - 1] == a + init;
      NodeTotalAppend(a, init, code);
    } else {
      assert a + b == a;
    }
  }

  /**
   * Builds the `nodeCount` dictionary: its keys are exactly the observed
   * codes, and each maps to that code's total.
   */
  method CountNodes(nodes: seq<NodeRecord>) returns (nodeCount: map<string, nat>)
    ensures forall code :: code in nodeCount <==> Observed(nodes, code)
    ensures forall code :: code in nodeCount ==> nodeCount[code] == NodeTotal(nodes, code)
  {
    nodeCount := map[];
    for i := 0 to |nodes|
      invariant forall code :: code in nodeCount <==> Observed(nodes[..i], code)
      invariant forall code :: code in nodeCount ==> nodeCount[code] == NodeTotal(nodes[..i], code)
    {
      var n := nodes[i];
      var prev := if n.countryCode in nodeCount then Some(nodeCount[n.countryCode]) else None;
      if prev.None? {
        NodeTotalUnobserved(nodes[..i], n.countryCode);
      }
      nodeCount := nodeCount[n.countryCode := AddCount(prev, n.count)];
      assert nodes[..i + 1][..i] == nodes[..i];
      assert nodes[..i + 1][i] == n;
      forall code
        ensures NodeTotal(nodes[..i + 1], code)
             == NodeTotal(nodes[..i], code) + (if n.countryCode == code then n.count else 0)
      {
      }
      forall code | Observed(nodes[..i + 1], code) && code != n.countryCode
        ensures Observed(nodes[..i], code)
      {
        var j :| 0 <= j < i + 1 && nodes[..i + 1][j].countryCode == code;
        assert nodes[..i][j] == nodes[j];
      }
    }
    assert nodes[..|nodes|] == nodes;
  }

  /** The joined table: each country record in order, with its total attached. */
  function Join(nodes: seq<NodeRecord>, countries: seq<CountryStat>): seq<Enriched>
  {
    seq(|countries|, i requires 0 <= i < |countries| =>
      Enriched(countries[i], NodeTotal(nodes, countries[i].countryCode)))
  }

  /**
   * `preprocessData`: one output record per country record, in the same order,
   * carrying that record unchanged plus `nodes`, the node total of its code or
   * 0 when no node record has that code.
   */
  method PreprocessData(nodes: seq<NodeRecord>, countries: seq<CountryStat>) returns (output: seq<Enriched>)
    ensures output == Join(nodes, countries)
    ensures |output| == |countries|
    ensures forall i :: 0 <= i < |countries| ==>
      output[i].stat == countries[i] && output[i].nodes == NodeTotal(nodes, countries[i].countryCode)
    ensures forall i :: 0 <= i < |countries| && !Observed(nodes, countries[i].countryCode) ==>
      output[i].nodes == 0
  {
    var nodeCount := CountNodes(nodes);
    forall code | code !in nodeCount ensures NodeTotal(nodes, code) == 0 {
      NodeTotalUnobserved(nodes, code);
    }
    output := seq(|countries|, i requires 0 <= i < |countries| =>
      Enriched(countries[i], if countries[i].countryCode in nodeCount then nodeCount[countries[i].countryCode] else 0));
  }

  /**
   * Node records whose code matches no country record change nothing in the
   * join: their counts reach no output record.
   */
  lemma JoinIgnoresUnmatched(nodes: seq<NodeRecord>, extra: seq<NodeRecord>, countries: seq<CountryStat>)
    requires forall i, j :: 0 <= i < |extra| && 0 <= j < |countries| ==> extra[i].countryCode != countries[j].countryCode
    ensures Join(nodes + extra, countries) == Join(nodes, countries)
  {
    forall j | 0 <= j < |countries|
      ensures NodeTotal(nodes + extra, countries[j].countryCode) == NodeTotal(nodes, countries[j].countryCode)
    {
      NodeTotalAppend(nodes, extra, countries[j].countryCode);
      NodeTotalUnobserved(extra, countries[j].countryCode);
    }
  }

  /** A further node record for a listed country raises that country's total by its count, and no other. */
  lemma JoinAddsToMatching(nodes: seq<NodeRecord>, n: NodeRecord, countries: seq<CountryStat>, j: int)
    requires 0 <= j < |countries|
    ensures Join(nodes + [n], countries)[j].nodes
         == Join(nodes, countries)[j].nodes + (if countries[j].countryCode == n.countryCode then n.count else 0)
  {
    assert (nodes + [n])[..|nodes|] == nodes;
  }

  /**
   * Three countries and three node records (USA 10, USA 5, DEU 3): USA totals
   * 15, DEU 3, and FRA, with no record, 0.
   */
  lemma JoinExample()
    ensures
      var usa := CountryStat("USA", "United States", 25000.0, 330000000, 9834000.0);
      var deu := CountryStat("DEU", "Germany", 4000.0, 83000000, 357000.0);
      var fra := CountryStat("FRA", "France", 2800.0, 67000000, 549000.0);
      Join([NodeRecord("USA", 10), NodeRecord("USA", 5), NodeRecord("DEU", 3)], [usa, deu, fra])
        == [Enriched(usa, 15), Enriched(deu, 3), Enriched(fra, 0)]
  {
    var a, b, c := NodeRecord("USA", 10), NodeRecord("USA", 5), NodeRecord("DEU", 3);
    assert [a, b, c] == [a, b] + [c];
    assert [a, b] == [a] + [b];
    forall code: string, n: NodeRecord | n in [a, b, c]
      ensures NodeTotal([n], code) == if n.countryCode == code then n.count else 0
    {
      assert [n][..0] == [];
    }
    forall code: string
      ensures NodeTotal([a, b, c], code) == NodeTotal([a], code) + NodeTotal([b], code) + NodeTotal([c], code)
    {
      NodeTotalAppend([a, b], [c], code);
      NodeTotalAppend([a], [b], code);
    }
    assert "USA" != "DEU" && "USA" != "FRA" && "DEU" != "FRA";
  }
}
