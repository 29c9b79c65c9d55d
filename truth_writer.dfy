/**
 * `TruthWriter`: stages one event's selected particles and two event scalars and
 * writes them as one row block to each of two tables, "truthparticles"
 * (4 slots per event: pt, eta, phi, m, pdgId) and "eventvariables"
 * (1 slot per event: truthmet, truthdRWW).
 */
module TruthWriting {
  import opened Wrappers
  import opened TruthEdm
  import opened Hdf5Tables

  datatype ParticleRow = ParticleRow(pt: Float, eta: Float, phi: Float, m: Float, pdgId: int)
  datatype EventRow = EventRow(truthMet: Float, truthDRWW: Float)

  /** What one `write` call staged. */
  datatype Staged = Staged(particles: seq<Option<TruthParticle>>, met: Float, dRWW: Float)

  const ParticleSlots: nat := 4
  const EventSlots: nat := 1

  /** The row a slot gets when no particle is there. */
  const MissingRow := ParticleRow(NaN, NaN, NaN, NaN, 0)

  /** The particle the column fillers see at slot `idx`: none past the end or for a null entry. */
  function StagedAt(staged: seq<Option<TruthParticle>>, idx: nat): Option<TruthParticle> {
    if |staged| <= idx then None else staged[idx]
  }

  function PtFiller(staged: seq<Option<TruthParticle>>, idx: nat): (r: Float)
    ensures r.NaN? <==> |staged| <= idx || staged[idx].None?
    ensures r.Num? ==> r.value == staged[idx].value.pt
  {
    match StagedAt(staged, idx)
    case None => NaN
    case Some(p) => Num(p.pt)
  }

  function EtaFiller(staged: seq<Option<TruthParticle>>, idx: nat): (r: Float)
    ensures r.NaN? <==> |staged| <= idx || staged[idx].None?
    ensures r.Num? ==> r.value == staged[idx].value.eta
  {
    match StagedAt(staged, idx)
    case None => NaN
    case Some(p) => Num(p.eta)
  }

  function PhiFiller(staged: seq<Option<TruthParticle>>, idx: nat): (r: Float)
    ensures r.NaN? <==> |staged| <= idx || staged[idx].None?
    ensures r.Num? ==> r.value == staged[idx].value.phi
  {
    match StagedAt(staged, idx)
    case None => NaN
    case Some(p) => Num(p.phi)
  }

  function MFiller(staged: seq<Option<TruthParticle>>, idx: nat): (r: Float)
    ensures r.NaN? <==> |staged| <= idx || staged[idx].None?
    ensures r.Num? ==> r.value == staged[idx].value.m
  {
    match StagedAt(staged, idx)
    case None => NaN
    case Some(p) => Num(p.m)
  }

  function PdgIdFiller(staged: seq<Option<TruthParticle>>, idx: nat): (r: int)
    ensures |staged| <= idx || staged[idx].None? ==> r == 0
    ensures idx < |staged| && staged[idx].Some? ==> r == staged[idx].value.pdgId
  {
    match StagedAt(staged, idx)
    case None => 0
    case Some(p) => p.pdgId
  }

  function ParticleRowAt(staged: seq<Option<TruthParticle>>, idx: nat): ParticleRow {
    ParticleRow(PtFiller(staged, idx), EtaFiller(staged, idx), PhiFiller(staged, idx),
                MFiller(staged, idx), PdgIdFiller(staged, idx))
  }

  /** The row block one fill of the particle table appends. */
  function ParticleBlock(staged: seq<Option<TruthParticle>>): (block: seq<ParticleRow>)
    ensures |block| == ParticleSlots
  {
    seq(ParticleSlots, slot requires 0 <= slot => ParticleRowAt(staged, slot))
  }

  /** The row block one fill of the event-variable table appends. */
  function EventBlock(met: Float, dRWW: Float): (block: seq<EventRow>)
    ensures |block| == EventSlots
  {
    [EventRow(met, dRWW)]
  }

  /** A slot past the end of the staged vector, or holding null, is written as the sentinel row. */
  lemma MissingSlotIsSentinel(staged: seq<Option<TruthParticle>>, j: nat)
    requires j < ParticleSlots && (|staged| <= j || staged[j].None?)
    ensures ParticleBlock(staged)[j] == MissingRow
  {
  }

  /** A slot holding a particle is written as that particle's fields. */
  lemma PresentSlotIsParticle(staged: seq<Option<TruthParticle>>, j: nat)
    requires j < ParticleSlots && j < |staged| && staged[j].Some?
    ensures var p := staged[j].value;
      ParticleBlock(staged)[j] == ParticleRow(Num(p.pt), Num(p.eta), Num(p.phi), Num(p.m), p.pdgId)
  {
  }

  /** The pt column tells a present slot from a missing one (pdgId alone does not: a
      particle may carry code 0). This rests on kinematics being reals here: a present
      particle's pt is assumed never to be NaN, which the program does not check. */
  lemma PresenceReadableFromPt(staged: seq<Option<TruthParticle>>, j: nat)
    requires j < ParticleSlots
    ensures ParticleBlock(staged)[j].pt.NaN? <==> StagedAt(staged, j).None?
  {
  }

  /** Entries past the fourth are never written. */
  lemma ExtraEntriesIgnored(staged: seq<Option<TruthParticle>>)
    requires |staged| >= ParticleSlots
    ensures ParticleBlock(staged) == ParticleBlock(staged[..ParticleSlots])
  {
  }

  /** A short vector is written as if padded with nulls. */
  lemma NullPaddingInvisible(staged: seq<Option<TruthParticle>>)
    ensures ParticleBlock(staged + [None]) == ParticleBlock(staged)
  {
  }

  /** One Z' with pt 10, eta 1, phi 0, m 5 and three empty slots; met 20, dRWW NaN. */
  lemma OneParticleEvent()
    ensures var z := TruthParticle(55, 10.0, 1.0, 0.0, 5.0, None, None);
      && ParticleBlock([Some(z), None, None, None])
           == [ParticleRow(Num(10.0), Num(1.0), Num(0.0), Num(5.0), 55), MissingRow, MissingRow, MissingRow]
      && EventBlock(Num(20.0), NaN) == [EventRow(Num(20.0), NaN)]
  {
  }

  class TruthWriter {
    var truthParticles: seq<Option<TruthParticle>>
    var truthMet: Float
    var truthDRWW: Float
    /** The one-element index vectors the fillers read their slot from (TruthWriter.h:39-40).
        The table library writes the slot being filled into them; here the fillers take the
        slot as an argument instead, so these fields only record the constructor's state. */
    var truthParticlesIdx: seq<nat>
    var eventVariablesIdx: seq<nat>
    /** Created by the constructor and released by `Close`; never reassigned. */
    const particleWriter: Table<ParticleRow>
    const eventWriter: Table<EventRow>
    /** What each `Write` staged, in call order. */
    ghost var history: seq<Staged>

    ghost predicate Valid()
      reads this, particleWriter, eventWriter
    {
      && (particleWriter as object) != (eventWriter as object)
      && particleWriter.Valid() && eventWriter.Valid()
      && particleWriter.open && eventWriter.open
      && particleWriter.name == "truthparticles" && particleWriter.shape == [ParticleSlots]
      && eventWriter.name == "eventvariables" && eventWriter.shape == [EventSlots]
      && |truthParticlesIdx| == 1 && |eventVariablesIdx| == 1
      // row alignment: block i of both tables comes from the i-th write
      && |particleWriter.blocks| == |history| && |eventWriter.blocks| == |history|
      && forall i | 0 <= i < |history| ::
           && particleWriter.blocks[i] == ParticleBlock(history[i].particles)
           && eventWriter.blocks[i] == EventBlock(history[i].met, history[i].dRWW)
    }

    constructor ()
      ensures Valid() && fresh(particleWriter) && fresh(eventWriter)
      ensures truthParticles == [] && truthMet == Num(-1.0) && truthDRWW == Num(-1.0)
      ensures truthParticlesIdx == [0] && eventVariablesIdx == [0]
      ensures history == [] && particleWriter.persisted == 0 && eventWriter.persisted == 0
    {
      truthParticles := [];
      truthMet := Num(-1.0);
      truthDRWW := Num(-1.0);
      truthParticlesIdx := [0];
      eventVariablesIdx := [0];
      particleWriter := new Table<ParticleRow>("truthparticles", [ParticleSlots]);
      eventWriter := new Table<EventRow>("eventvariables", [EventSlots]);
      history := [];
    }

    method Write(particles: seq<Option<TruthParticle>>, met: Float, dRWW: Float)
      requires Valid()
      modifies this, particleWriter, eventWriter
      ensures Valid()
      ensures truthParticles == particles && truthMet == met && truthDRWW == dRWW
      // A modelling choice: the library's writes into the index vectors are not modelled.
      ensures truthParticlesIdx == old(truthParticlesIdx) && eventVariablesIdx == old(eventVariablesIdx)
      ensures history == old(history) + [Staged(particles, met, dRWW)]
      ensures particleWriter.blocks == old(particleWriter.blocks) + [ParticleBlock(particles)]
      ensures eventWriter.blocks == old(eventWriter.blocks) + [EventBlock(met, dRWW)]
      ensures old(particleWriter.persisted) <= particleWriter.persisted
      ensures old(eventWriter.persisted) <= eventWriter.persisted
    {
      truthParticles := [];
      for i := 0 to |particles|
        invariant truthParticles == particles[..i]
        modifies this`truthParticles
      {
        truthParticles := truthParticles + [particles[i]];
      }
      assert particles[..|particles|] == particles;
      truthMet := met;
      truthDRWW := dRWW;
      // Library assumption: a fill appends the rows the column fillers return, the
      // row at slot j being the fillers' values with the slot index set to j.
      particleWriter.FillWhileIncrementing(ParticleBlock(truthParticles));
      eventWriter.FillWhileIncrementing(EventBlock(truthMet, truthDRWW));
      history := history + [Staged(particles, met, dRWW)];
    }

    /** The destructor: flush both tables, then release both. */
    method Close()
      requires Valid()
      modifies particleWriter, eventWriter
      ensures !particleWriter.open && !eventWriter.open
      ensures particleWriter.blocks == old(particleWriter.blocks)
      ensures eventWriter.blocks == old(eventWriter.blocks)
      ensures particleWriter.persisted == |particleWriter.blocks|
      ensures eventWriter.persisted == |eventWriter.blocks|
    {
      particleWriter.Flush();
      eventWriter.Flush();
      particleWriter.Release();
      eventWriter.Release();
    }
  }
}
