/**
 * The decay-chain resolver of the dumper: `IsInOutGoing`, the pass-through test,
 * and `GetFirstChainLink`, which walks back from a particle through production
 * vertices to the first link of its chain of same-species copies.
 */
module ChainResolver {
  import opened Wrappers
  import opened TruthEdm

  /** The early-return search loop: does `p` occur among `links[n..]`? */
  function Scan(links: seq<Option<ParticleId>>, p: Option<ParticleId>, n: nat): (found: bool)
    requires n <= |links|
    ensures found <==> exists k :: n <= k < |links| && links[k] == p
    decreases |links| - n
  {
    if n == |links| then false
    else if links[n] == p then true
    else Scan(links, p, n + 1)
  }

  /** Reference definition: the particle is listed among its own production vertex's
      incoming particles or among its own decay vertex's outgoing particles. */
  ghost predicate PassThrough(g: Graph, id: ParticleId)
    requires WellFormed(g) && id in g.particles
  {
    var P := g.particles[id];
    || (P.prodVtx.Some? && Some(id) in g.vertices[P.prodVtx.value].incoming)
    || (P.decayVtx.Some? && Some(id) in g.vertices[P.decayVtx.value].outgoing)
  }

  function IsInOutGoing(g: Graph, p: Option<ParticleId>): (r: bool)
    requires WellFormed(g) && (p.Some? ==> p.value in g.particles)
    ensures r <==> p.Some? && PassThrough(g, p.value)
  {
    if p.None? then false
    else
      var P := g.particles[p.value];
      if P.prodVtx.Some? && Scan(g.vertices[P.prodVtx.value].incoming, p, 0) then true
      else if P.decayVtx.Some? && Scan(g.vertices[P.decayVtx.value].outgoing, p, 0) then true
      else false
  }

  /** The test an incoming particle `q` of `cur`'s production vertex must pass to be
      followed: non-null, not `cur` itself, same species, and not pass-through. */
  predicate Qualifies(g: Graph, cur: ParticleId, q: Option<ParticleId>)
    requires WellFormed(g) && cur in g.particles && (q.Some? ==> q.value in g.particles)
  {
    q.Some? && q != Some(cur) && PdgId(g, q.value) == PdgId(g, cur) && !IsInOutGoing(g, q)
  }

  /** `q` is a particle the walk may take one step back to from `cur`. */
  ghost predicate Follows(g: Graph, cur: ParticleId, q: ParticleId)
    requires WellFormed(g) && cur in g.particles
  {
    var P := g.particles[cur];
    && P.prodVtx.Some?
    && q in g.particles
    && Some(q) in g.vertices[P.prodVtx.value].incoming
    && Qualifies(g, cur, Some(q))
  }

  /** The search over the incoming particles `links[n..]`: the first one that qualifies. */
  function FirstQualifying(g: Graph, cur: ParticleId, links: seq<Option<ParticleId>>, n: nat): (r: Option<ParticleId>)
    requires WellFormed(g) && cur in g.particles && LinksKnown(g, links) && n <= |links|
    ensures r.None? ==> forall k | n <= k < |links| :: !Qualifies(g, cur, links[k])
    ensures r.Some? ==> exists k | n <= k < |links| :: links[k] == r && Qualifies(g, cur, r)
                          && forall j | n <= j < k :: !Qualifies(g, cur, links[j])
    decreases |links| - n
  {
    if n == |links| then None
    else if Qualifies(g, cur, links[n]) then links[n]
    else FirstQualifying(g, cur, links, n + 1)
  }

  /** One step of the walk: the first qualifying incoming particle of `cur`'s production
      vertex, or `None` when there is no production vertex or nothing qualifies. */
  function Step(g: Graph, cur: ParticleId): (next: Option<ParticleId>)
    requires WellFormed(g) && cur in g.particles
    ensures next.Some? ==> Follows(g, cur, next.value)
    ensures next.None? ==> forall q: ParticleId :: !Follows(g, cur, q)
  {
    var P := g.particles[cur];
    if P.prodVtx.None? then None
    else
      var links := g.vertices[P.prodVtx.value].incoming;
      FirstQualifying(g, cur, links, 0)
  }

  /** The walk terminates from every ranked particle: the ranked particles are closed
      under a step and every step strictly decreases the rank. Particles the walk never
      starts from or reaches need no rank. The dumper itself has no cycle detection; a
      particle on or leading into a step cycle has no rank (see `TwoCycleHasNoRank`). */
  ghost predicate ChainRanked(g: Graph, rank: map<ParticleId, nat>) {
    && WellFormed(g)
    && rank.Keys <= g.particles.Keys
    && forall id | id in rank && Step(g, id).Some? ::
         Step(g, id).value in rank && rank[Step(g, id).value] < rank[id]
  }

  /** A rank that decreases along every same-species, non-pass-through production edge
      (acyclic same-species chains) is enough for the walk. */
  lemma AcyclicChainsAreRanked(g: Graph, rank: map<ParticleId, nat>)
    requires WellFormed(g) && rank.Keys <= g.particles.Keys
    requires forall p, q | p in rank && Follows(g, p, q) :: q in rank && rank[q] < rank[p]
    ensures ChainRanked(g, rank)
  {
  }

  /** Conversely, a walk that ends can be ranked: the rank precondition of
      `GetFirstChainLink` excludes only the particles whose walk never ends. */
  lemma {:induction false} EndingWalkIsRanked(g: Graph, path: seq<ParticleId>) returns (rank: map<ParticleId, nat>)
    requires WellFormed(g) && |path| >= 1
    requires forall k | 0 <= k < |path| :: path[k] in g.particles
    requires forall k | 0 <= k < |path| - 1 :: Step(g, path[k]) == Some(path[k + 1])
    requires Step(g, path[|path| - 1]).None?
    ensures ChainRanked(g, rank) && path[0] in rank
    decreases |path|
  {
    if |path| == 1 {
      rank := map[path[0] := 0];
    } else {
      var rest := EndingWalkIsRanked(g, path[1..]);
      if path[0] in rest {
        rank := rest;
      } else {
        rank := rest[path[0] := rest[path[1]] + 1];
      }
    }
  }

  function GetFirstChainLink(g: Graph, rank: map<ParticleId, nat>, p: Option<ParticleId>): (r: Option<ParticleId>)
    requires ChainRanked(g, rank) && (p.Some? ==> p.value in rank)
    ensures r.Some? <==> p.Some?
    ensures r.Some? ==> r.value in rank && PdgId(g, r.value) == PdgId(g, p.value)
    ensures r.Some? ==> Step(g, r.value).None?
    ensures r == p || !IsInOutGoing(g, r)
    ensures p.Some? && Step(g, p.value).None? ==> r == p
    decreases if p.Some? then rank[p.value] else 0
  {
    if p.None? then None
    else
      match Step(g, p.value)
      case None => p
      case Some(q) => GetFirstChainLink(g, rank, Some(q))
  }

  /** The particles the walk visits, from `id` to the chain link it returns. */
  function ChainPath(g: Graph, rank: map<ParticleId, nat>, id: ParticleId): (path: seq<ParticleId>)
    requires ChainRanked(g, rank) && id in rank
    ensures |path| >= 1 && path[0] == id
    ensures forall k | 0 <= k < |path| :: path[k] in rank
    ensures forall k | 0 <= k < |path| - 1 :: Step(g, path[k]) == Some(path[k + 1])
    ensures Step(g, path[|path| - 1]).None?
    ensures forall i, j | 0 <= i < j < |path| :: rank[path[j]] < rank[path[i]]
    decreases rank[id]
  {
    match Step(g, id)
    case None => [id]
    case Some(q) => [id] + ChainPath(g, rank, q)
  }

  /** The walk returns the last particle on its path, reached after |path| - 1 steps,
      and never visits a particle twice. */
  lemma {:induction false} ResolvesToEndOfPath(g: Graph, rank: map<ParticleId, nat>, id: ParticleId)
    requires ChainRanked(g, rank) && id in rank
    ensures var path := ChainPath(g, rank, id);
      && GetFirstChainLink(g, rank, Some(id)) == Some(path[|path| - 1])
      && forall i, j | 0 <= i < j < |path| :: path[i] != path[j]
    decreases rank[id]
  {
    match Step(g, id)
    case None =>
    case Some(q) =>
      ResolvesToEndOfPath(g, rank, q);
  }

  /** Resolving an already resolved particle changes nothing. */
  lemma GetFirstChainLinkIdempotent(g: Graph, rank: map<ParticleId, nat>, p: Option<ParticleId>)
    requires ChainRanked(g, rank) && (p.Some? ==> p.value in rank)
    ensures GetFirstChainLink(g, rank, GetFirstChainLink(g, rank, p)) == GetFirstChainLink(g, rank, p)
  {
  }

  /** Among several qualifying incoming particles the walk takes the first in index order. */
  lemma TakesFirstQualifying(g: Graph, rank: map<ParticleId, nat>, id: ParticleId, k: nat)
    requires ChainRanked(g, rank) && id in rank
    requires g.particles[id].prodVtx.Some?
    requires var links := g.vertices[g.particles[id].prodVtx.value].incoming;
      && k < |links| && Qualifies(g, id, links[k])
      && forall j | 0 <= j < k :: !Qualifies(g, id, links[j])
    ensures var links := g.vertices[g.particles[id].prodVtx.value].incoming;
      GetFirstChainLink(g, rank, Some(id)) == GetFirstChainLink(g, rank, links[k])
  {
  }

  // ----- Worked records -----

  /** C <- B <- A, all W+ (pdgId 24); C's production vertex also lists a null link and a gluon. */
  function ThreeLinkChain(): Graph {
    Graph(
      map[0 := TruthParticle(24, 1.0, 0.0, 0.0, 80.0, Some(0), Some(1)),   // A
          1 := TruthParticle(24, 2.0, 0.0, 0.0, 80.0, Some(1), Some(2)),   // B
          2 := TruthParticle(24, 3.0, 0.0, 0.0, 80.0, Some(2), None),      // C
          3 := TruthParticle(21, 4.0, 0.0, 0.0, 0.0, None, Some(2))],      // gluon
      map[0 := TruthVertex([], [Some(0)]),
          1 := TruthVertex([Some(0)], [Some(1)]),
          2 := TruthVertex([None, Some(3), Some(1)], [Some(2)])])
  }

  lemma ThreeLinkChainSteps()
    ensures WellFormed(ThreeLinkChain())
    ensures Step(ThreeLinkChain(), 0) == None && Step(ThreeLinkChain(), 3) == None
    ensures Step(ThreeLinkChain(), 1) == Some(0)
    ensures Step(ThreeLinkChain(), 2) == Some(1)
  {
  }

  lemma ThreeLinkChainRanked()
    ensures ChainRanked(ThreeLinkChain(), map[0 := 0, 1 := 1, 2 := 2, 3 := 0])
  {
    ThreeLinkChainSteps();
    var g, rank := ThreeLinkChain(), map[0 := 0, 1 := 1, 2 := 2, 3 := 0];
    forall id | id in rank && Step(g, id).Some?
      ensures Step(g, id).value in rank && rank[Step(g, id).value] < rank[id]
    {
      assert id == 1 || id == 2;
    }
  }

  lemma ThreeLinkChainResolvesToRoot()
    ensures ChainRanked(ThreeLinkChain(), map[0 := 0, 1 := 1, 2 := 2, 3 := 0])
    ensures GetFirstChainLink(ThreeLinkChain(), map[0 := 0, 1 := 1, 2 := 2, 3 := 0], Some(2)) == Some(0)
  {
    ThreeLinkChainSteps();
    ThreeLinkChainRanked();
    var g, rank := ThreeLinkChain(), map[0 := 0, 1 := 1, 2 := 2, 3 := 0];
    assert GetFirstChainLink(g, rank, Some(1)) == Some(0);
  }


  /** D lists itself among its production vertex's incoming particles; E is produced from D. */
  function SelfListed(): Graph {
    Graph(
      map[0 := TruthParticle(55, 1.0, 0.0, 0.0, 500.0, Some(0), Some(1)),   // D
          1 := TruthParticle(55, 2.0, 0.0, 0.0, 500.0, Some(1), None)],     // E
      map[0 := TruthVertex([Some(0)], [Some(0)]),
          1 := TruthVertex([Some(0)], [Some(1)])])
  }

  lemma SelfListedIsNeverAnAncestor()
    ensures ChainRanked(SelfListed(), map[0 := 0, 1 := 0])
    ensures IsInOutGoing(SelfListed(), Some(0))
    ensures GetFirstChainLink(SelfListed(), map[0 := 0, 1 := 0], Some(0)) == Some(0)
    ensures GetFirstChainLink(SelfListed(), map[0 := 0, 1 := 0], Some(1)) == Some(1)
  {
  }

  /** A -> B -> A: two W+ copies, each produced from the other, neither self-listed. */
  function TwoCycle(): Graph {
    Graph(
      map[0 := TruthParticle(24, 1.0, 0.0, 0.0, 80.0, Some(0), Some(1)),   // A
          1 := TruthParticle(24, 2.0, 0.0, 0.0, 80.0, Some(1), Some(0))],  // B
      map[0 := TruthVertex([Some(1)], [Some(0)]),
          1 := TruthVertex([Some(0)], [Some(1)])])
  }

  /** The pass-through guard does not break a longer cycle: no rank covers either
      particle, so the walk from either one never ends. */
  lemma TwoCycleHasNoRank(rank: map<ParticleId, nat>)
    requires ChainRanked(TwoCycle(), rank)
    ensures 0 !in rank && 1 !in rank
  {
    TwoCycleSteps();
  }

  lemma TwoCycleSteps()
    ensures WellFormed(TwoCycle())
    ensures Step(TwoCycle(), 0) == Some(1) && Step(TwoCycle(), 1) == Some(0)
  {
  }

  /** Two gluons (pdgId 21), each produced from the other, and a W+ without a production
      vertex. The gluon cycle is never entered from the W+, so the W+ resolves to itself. */
  function GluonLoopPlusW(): Graph {
    Graph(
      map[0 := TruthParticle(21, 1.0, 0.0, 0.0, 0.0, Some(0), Some(1)),     // gluon A
          1 := TruthParticle(21, 2.0, 0.0, 0.0, 0.0, Some(1), Some(0)),     // gluon B
          2 := TruthParticle(24, 3.0, 0.0, 0.0, 80.0, None, None)],         // W+
      map[0 := TruthVertex([Some(1)], [Some(0)]),
          1 := TruthVertex([Some(0)], [Some(1)])])
  }

  lemma GluonLoopLeavesWResolvable()
    ensures ChainRanked(GluonLoopPlusW(), map[2 := 0])
    ensures GetFirstChainLink(GluonLoopPlusW(), map[2 := 0], Some(2)) == Some(2)
  {
    assert Step(GluonLoopPlusW(), 2).None?;
  }
}
