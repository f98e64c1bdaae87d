/** The loop of the collection phase, step by step: facts engine.dfy uses. */
module CollectLoop {
  import opened Tally
  import opened GameTypes
  import opened Rules

  function NearTest(c: Config, bots: seq<Bot>, node: EnergyNode): int -> bool
    requires c.rows > 0 && c.cols > 0
  {
    i => c.rows > 0 && c.cols > 0 && Near(c, bots, node, i)
  }

  /** The living bots on or beside a node, in index order. */
  function Adjacent(c: Config, bots: seq<Bot>, node: EnergyNode): seq<nat>
    requires c.rows > 0 && c.cols > 0
  {
    Select(|bots|, NearTest(c, bots, node))
  }

  lemma AdjacentStep(c: Config, bots: seq<Bot>, node: EnergyNode, n: nat)
    requires c.rows > 0 && c.cols > 0
    ensures Select(0, NearTest(c, bots, node)) == []
    ensures Select(n + 1, NearTest(c, bots, node))
            == Select(n, NearTest(c, bots, node)) + (if Near(c, bots, node, n) then [n] else [])
  {
    hide Near;
  }

  /** Bots of two players stand around. */
  ghost predicate Mixed(bots: seq<Bot>, adj: seq<nat>)
    requires adj != [] && forall k :: 0 <= k < |adj| ==> adj[k] < |bots|
  {
    exists k :: 0 <= k < |adj| && bots[adj[k]].owner != bots[adj[0]].owner
  }

  /** What the adjacency list and the set of owners in it say about the harvest. */
  lemma HarvestIsUnique(c: Config, bots: seq<Bot>, node: EnergyNode, h: Harvest)
    requires c.rows > 0 && c.cols > 0 && HarvestIs(c, bots, node, h)
    ensures HarvestOf(c, bots, node) == h
  {
  }

  lemma AdjacentMembers(c: Config, bots: seq<Bot>, node: EnergyNode)
    requires c.rows > 0 && c.cols > 0
    ensures forall i :: i in Adjacent(c, bots, node) <==> 0 <= i < |bots| && Near(c, bots, node, i)
    ensures forall i :: Near(c, bots, node, i) ==> 0 <= i < |bots|
  {
    NearIsBot(c, bots, node);
    SelectMembers(|bots|, NearTest(c, bots, node));
    hide Near;
  }

  /** The list of bots around a charged node decides its fate. */
  lemma {:induction false} HarvestFromAdjacent(c: Config, bots: seq<Bot>, node: EnergyNode)
    requires c.rows > 0 && c.cols > 0 && node.hasEnergy
    ensures var adj := Adjacent(c, bots, node);
            && (adj == [] ==> HarvestOf(c, bots, node) == Untouched)
            && (adj != [] && Mixed(bots, adj) ==> HarvestOf(c, bots, node) == Contested)
            && (adj != [] && !Mixed(bots, adj) ==> HarvestOf(c, bots, node) == Taken(bots[adj[0]].owner))
  {
    var adj := Adjacent(c, bots, node);
    AdjacentMembers(c, bots, node);
    hide Near, HarvestOf, Adjacent;
    assert forall k :: 0 <= k < |adj| ==> adj[k] in adj;
    if adj == [] {
      HarvestIsUnique(c, bots, node, Untouched);
    } else if Mixed(bots, adj) {
      HarvestIsUnique(c, bots, node, Contested);
    } else {
      HarvestIsUnique(c, bots, node, Taken(bots[adj[0]].owner));
    }
  }

  lemma NearIsBot(c: Config, bots: seq<Bot>, node: EnergyNode)
    requires c.rows > 0 && c.cols > 0
    ensures forall i :: Near(c, bots, node, i) ==> 0 <= i < |bots|
  {
  }

  lemma SetOfOwners(bots: seq<Bot>, adj: seq<nat>, owners: set<nat>)
    requires adj != [] && forall k :: 0 <= k < |adj| ==> adj[k] < |bots|
    requires forall k :: 0 <= k < |adj| ==> bots[adj[k]].owner in owners
    requires forall o :: o in owners ==> exists k :: 0 <= k < |adj| && bots[adj[k]].owner == o
    ensures |owners| > 1 <==> Mixed(bots, adj)
  {
    var o := bots[adj[0]].owner;
    if exists k :: 0 <= k < |adj| && bots[adj[k]].owner != o {
      var k :| 0 <= k < |adj| && bots[adj[k]].owner != o;
      assert {o, bots[adj[k]].owner} <= owners;
      SubsetSize({o, bots[adj[k]].owner}, owners);
    } else {
      assert owners == {o};
    }
  }

  // ----- The node loop, halfway ---------------------------------------------------

  ghost predicate GatheredBelow(c: Config, s: State, n: nat, nodes: seq<EnergyNode>, players: seq<Player>,
                                events: seq<Event>)
  {
    && c.rows > 0 && c.cols > 0 && n <= |s.nodes|
    && nodes == HarvestedNodes(c, s.bots, s.nodes, n)
    && players == Enriched(s.players, CollectNotices(c, s.bots, s.nodes, n))
    && events == s.events + CollectNotices(c, s.bots, s.nodes, n)
  }

  lemma GatherBegins(c: Config, s: State)
    requires c.rows > 0 && c.cols > 0
    ensures GatheredBelow(c, s, 0, s.nodes, s.players, s.events)
  {
    assert HarvestedNodes(c, s.bots, s.nodes, 0) == s.nodes;
    assert Enriched(s.players, []) == s.players;
  }

  lemma GatherFacts(c: Config, s: State, n: nat, nodes: seq<EnergyNode>, players: seq<Player>, events: seq<Event>)
    requires GatheredBelow(c, s, n, nodes, players, events) && n < |s.nodes|
    ensures |nodes| == |s.nodes| && |players| == |s.players| && nodes[n] == s.nodes[n]
  {
  }

  lemma GatherSkips(c: Config, s: State, n: nat, nodes: seq<EnergyNode>, players: seq<Player>, events: seq<Event>)
    requires GatheredBelow(c, s, n, nodes, players, events) && n < |s.nodes|
    requires HarvestOf(c, s.bots, s.nodes[n]) == Untouched
    ensures GatheredBelow(c, s, n + 1, nodes, players, events)
  {
    hide HarvestOf;
    assert HarvestedNodes(c, s.bots, s.nodes, n + 1) == HarvestedNodes(c, s.bots, s.nodes, n);
    assert CollectNotices(c, s.bots, s.nodes, n + 1) == CollectNotices(c, s.bots, s.nodes, n);
  }

  lemma GatherBurns(c: Config, s: State, n: nat, nodes: seq<EnergyNode>, players: seq<Player>, events: seq<Event>)
    requires GatheredBelow(c, s, n, nodes, players, events) && n < |s.nodes|
    requires HarvestOf(c, s.bots, s.nodes[n]) == Contested
    ensures n < |nodes|
    ensures GatheredBelow(c, s, n + 1, nodes[n := nodes[n].(hasEnergy := false, tick := 0)], players, events)
  {
    hide HarvestOf;
    assert HarvestedNodes(c, s.bots, s.nodes, n + 1) == nodes[n := nodes[n].(hasEnergy := false, tick := 0)];
    assert CollectNotices(c, s.bots, s.nodes, n + 1) == CollectNotices(c, s.bots, s.nodes, n);
  }

  lemma GatherTakes(c: Config, s: State, n: nat, nodes: seq<EnergyNode>, players: seq<Player>, events: seq<Event>,
                    p: nat)
    requires GatheredBelow(c, s, n, nodes, players, events) && n < |s.nodes| && p < |s.players|
    requires HarvestOf(c, s.bots, s.nodes[n]) == Taken(p)
    ensures n < |nodes| && p < |players|
    ensures GatheredBelow(c, s, n + 1, nodes[n := nodes[n].(hasEnergy := false, tick := 0)],
                          players[p := players[p].(energy := players[p].energy + 1)], events + [EnergyCollected(n, p)])
  {
    hide HarvestOf;
    var notices := CollectNotices(c, s.bots, s.nodes, n);
    var notice := EnergyCollected(n, p);
    assert HarvestedNodes(c, s.bots, s.nodes, n + 1) == nodes[n := nodes[n].(hasEnergy := false, tick := 0)];
    assert CollectNotices(c, s.bots, s.nodes, n + 1) == notices + [notice];
    forall q
      ensures Sum(notices + [notice], CollectedBy(q)) == Sum(notices, CollectedBy(q)) + (if q == p then 1 else 0)
    {
      SumAppend(notices, notice, CollectedBy(q));
    }
    assert Enriched(s.players, notices + [notice]) == players[p := players[p].(energy := players[p].energy + 1)];
    assert events + [notice] == s.events + (notices + [notice]);
  }

  lemma GatherEnds(c: Config, s: State, nodes: seq<EnergyNode>, players: seq<Player>, events: seq<Event>)
    requires GatheredBelow(c, s, |s.nodes|, nodes, players, events)
    ensures CollectStep(c, s, s.(nodes := nodes, players := players, events := events))
  {
  }

  lemma {:induction false} CollectNoticesAre(c: Config, bots: seq<Bot>, nodes: seq<EnergyNode>, n: nat)
    requires c.rows > 0 && c.cols > 0 && n <= |nodes|
    ensures forall k :: 0 <= k < |CollectNotices(c, bots, nodes, n)| ==>
            CollectNotices(c, bots, nodes, n)[k].EnergyCollected?
  {
    hide HarvestOf;
    if n == 0 {
    } else {
      CollectNoticesAre(c, bots, nodes, n - 1);
    }
  }
}
