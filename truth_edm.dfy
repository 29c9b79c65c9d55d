/**
 * The read-only view of one event's truth record that the dumper works on:
 * truth particles and truth vertices, linked to each other by identifiers.
 * A null pointer is `None`.
 */
module TruthEdm {
  import opened Wrappers

  type ParticleId = nat
  type VertexId = nat

  /** A 32-bit float column value, with NaN kept apart as the "missing" sentinel. */
  datatype Float = NaN | Num(value: real)

  /** A truth particle: its species code, its kinematics and its two optional vertex links. */
  datatype TruthParticle = TruthParticle(
    pdgId: int,
    pt: real,
    eta: real,
    phi: real,
    m: real,
    prodVtx: Option<VertexId>,
    decayVtx: Option<VertexId>)

  /** A truth vertex: its incoming and outgoing particle links, in index order; any link may be null. */
  datatype TruthVertex = TruthVertex(incoming: seq<Option<ParticleId>>, outgoing: seq<Option<ParticleId>>)

  datatype Graph = Graph(particles: map<ParticleId, TruthParticle>, vertices: map<VertexId, TruthVertex>)

  predicate VertexKnown(g: Graph, v: Option<VertexId>) {
    v.Some? ==> v.value in g.vertices
  }

  /** Every non-null link in `links` names a particle of the record. */
  predicate LinksKnown(g: Graph, links: seq<Option<ParticleId>>) {
    forall n | 0 <= n < |links| && links[n].Some? :: links[n].value in g.particles
  }

  /** Every pointer the record hands out can be dereferenced. */
  predicate WellFormed(g: Graph) {
    && (forall id | id in g.particles ::
          VertexKnown(g, g.particles[id].prodVtx) && VertexKnown(g, g.particles[id].decayVtx))
    && (forall v | v in g.vertices ::
          LinksKnown(g, g.vertices[v].incoming) && LinksKnown(g, g.vertices[v].outgoing))
  }

  function PdgId(g: Graph, id: ParticleId): int
    requires id in g.particles
  {
    g.particles[id].pdgId
  }

  /** Every element of a particle container is a particle of the record. */
  predicate InRecord(g: Graph, s: seq<ParticleId>) {
    forall i | 0 <= i < |s| :: s[i] in g.particles
  }
}
