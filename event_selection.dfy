/**
 * The per-event body of the dumper's main loop: fill the four slots Z', scalar,
 * W+ and W- from the "TruthParticles" container (first particle of the slot's
 * species, resolved to its first chain link), fall back to the optional
 * "TruthBoson" container for W slots still empty, compute dR(WW) only when both
 * W slots are filled, and hand the four slots to the writer.
 */
module EventSelection {
  import opened Wrappers
  import opened TruthEdm
  import opened ChainResolver
  import opened TruthWriting

  const PdgIdZp: int := 55
  const PdgIdScalar: int := 54
  const PdgIdWpos: int := 24
  const PdgIdWneg: int := -24

  /** The species each output slot holds, in output order. */
  const SlotPdgIds: seq<int> := [PdgIdZp, PdgIdScalar, PdgIdWpos, PdgIdWneg]

  /** Index of the first particle of species `pdgId` in container order. */
  function FirstWithPdgId(g: Graph, s: seq<ParticleId>, pdgId: int): (k: Option<nat>)
    requires InRecord(g, s)
    ensures k.None? ==> forall j | 0 <= j < |s| :: PdgId(g, s[j]) != pdgId
    ensures k.Some? ==> k.value < |s| && PdgId(g, s[k.value]) == pdgId
                        && forall j | 0 <= j < k.value :: PdgId(g, s[j]) != pdgId
  {
    if s == [] then None
    else if PdgId(g, s[0]) == pdgId then Some(0)
    else
      match FirstWithPdgId(g, s[1..], pdgId)
      case None => None
      case Some(k) => Some(k + 1)
  }

  /** The first particle of species `pdgId` in container `s`, the only one a slot scan
      resolves, has a rank, so its chain walk ends. Other particles need none. */
  ghost predicate SpeciesRanked(g: Graph, rank: map<ParticleId, nat>, s: seq<ParticleId>, pdgId: int)
    requires InRecord(g, s)
  {
    var k := FirstWithPdgId(g, s, pdgId);
    k.Some? ==> s[k.value] in rank
  }

  /** A container scanned only up to `i` still has its first particle of the species ranked. */
  lemma SpeciesRankedPrefix(g: Graph, rank: map<ParticleId, nat>, s: seq<ParticleId>, pdgId: int, i: nat)
    requires InRecord(g, s) && SpeciesRanked(g, rank, s, pdgId) && i <= |s|
    ensures InRecord(g, s[..i]) && SpeciesRanked(g, rank, s[..i], pdgId)
  {
    var t := s[..i];
    assert forall j | 0 <= j < |t| :: t[j] == s[j];
    var k := FirstWithPdgId(g, t, pdgId);
    if k.Some? {
      var m := FirstWithPdgId(g, s, pdgId);
      assert m.Some? && m.value <= k.value;
    }
  }

  /** What a slot of species `pdgId` holds after scanning container `s`. */
  function FirstMatch(g: Graph, rank: map<ParticleId, nat>, s: seq<ParticleId>, pdgId: int): (r: Option<ParticleId>)
    requires ChainRanked(g, rank) && InRecord(g, s) && SpeciesRanked(g, rank, s, pdgId)
    ensures r.Some? <==> exists j | 0 <= j < |s| :: PdgId(g, s[j]) == pdgId
    ensures r.Some? ==> r.value in g.particles && PdgId(g, r.value) == pdgId
  {
    match FirstWithPdgId(g, s, pdgId)
    case None => None
    case Some(k) => GetFirstChainLink(g, rank, Some(s[k]))
  }

  /** The slot is decided by the first particle of its species, whatever follows it. */
  lemma FirstMatchIsFirst(g: Graph, rank: map<ParticleId, nat>, s: seq<ParticleId>, pdgId: int, k: nat)
    requires ChainRanked(g, rank) && InRecord(g, s) && SpeciesRanked(g, rank, s, pdgId)
    requires k < |s| && PdgId(g, s[k]) == pdgId && forall j | 0 <= j < k :: PdgId(g, s[j]) != pdgId
    ensures FirstMatch(g, rank, s, pdgId) == GetFirstChainLink(g, rank, Some(s[k]))
  {
  }

  /** Scanning one more particle: a filled slot stays as it is; an empty slot takes the
      particle, resolved, when it has the slot's species. */
  lemma FirstMatchSticky(g: Graph, rank: map<ParticleId, nat>, s: seq<ParticleId>, x: ParticleId, pdgId: int)
    requires ChainRanked(g, rank) && x in g.particles && InRecord(g, s + [x])
    requires SpeciesRanked(g, rank, s + [x], pdgId)
    ensures InRecord(g, s) && SpeciesRanked(g, rank, s, pdgId)
    ensures FirstMatch(g, rank, s, pdgId).None? && PdgId(g, x) == pdgId ==> x in rank
    ensures FirstMatch(g, rank, s + [x], pdgId) ==
              if FirstMatch(g, rank, s, pdgId).Some? then FirstMatch(g, rank, s, pdgId)
              else if PdgId(g, x) == pdgId then GetFirstChainLink(g, rank, Some(x))
              else None
  {
    var t := s + [x];
    assert forall j | 0 <= j < |s| :: t[j] == s[j];
    assert t[..|s|] == s;
    SpeciesRankedPrefix(g, rank, t, pdgId, |s|);
    match FirstWithPdgId(g, s, pdgId)
    case Some(k) =>
      FirstMatchIsFirst(g, rank, t, pdgId, k);
    case None =>
      if PdgId(g, x) == pdgId {
        FirstMatchIsFirst(g, rank, t, pdgId, |s|);
      } else {
        assert forall j | 0 <= j < |t| :: PdgId(g, t[j]) != pdgId;
      }
  }

  /** One loop step over container `s`: the scan up to `i + 1` is the scan up to `i`
      followed by `s[i]`. */
  lemma ScanStep(g: Graph, rank: map<ParticleId, nat>, s: seq<ParticleId>, pdgId: int, i: nat)
    requires ChainRanked(g, rank) && InRecord(g, s) && SpeciesRanked(g, rank, s, pdgId) && i < |s|
    ensures InRecord(g, s[..i]) && SpeciesRanked(g, rank, s[..i], pdgId)
    ensures InRecord(g, s[..i + 1]) && SpeciesRanked(g, rank, s[..i + 1], pdgId)
    ensures FirstMatch(g, rank, s[..i], pdgId).None? && PdgId(g, s[i]) == pdgId ==> s[i] in rank
    ensures FirstMatch(g, rank, s[..i + 1], pdgId) ==
              if FirstMatch(g, rank, s[..i], pdgId).Some? then FirstMatch(g, rank, s[..i], pdgId)
              else if PdgId(g, s[i]) == pdgId then GetFirstChainLink(g, rank, Some(s[i]))
              else None
  {
    assert s[..i + 1] == s[..i] + [s[i]];
    SpeciesRankedPrefix(g, rank, s, pdgId, i + 1);
    FirstMatchSticky(g, rank, s[..i], s[i], pdgId);
  }

  /** A W slot: the "TruthParticles" choice, or else the "TruthBoson" choice when that
      container is in the event. */
  function WSlot(g: Graph, rank: map<ParticleId, nat>, particles: seq<ParticleId>,
                 bosons: Option<seq<ParticleId>>, pdgId: int): (r: Option<ParticleId>)
    requires ChainRanked(g, rank) && InRecord(g, particles) && SpeciesRanked(g, rank, particles, pdgId)
    requires bosons.Some? ==> InRecord(g, bosons.value)
    requires bosons.Some? && FirstWithPdgId(g, particles, pdgId).None? ==> SpeciesRanked(g, rank, bosons.value, pdgId)
    ensures r.Some? <==> (exists j | 0 <= j < |particles| :: PdgId(g, particles[j]) == pdgId)
                         || (bosons.Some? && exists j | 0 <= j < |bosons.value| :: PdgId(g, bosons.value[j]) == pdgId)
    ensures r.Some? ==> r.value in g.particles && PdgId(g, r.value) == pdgId
  {
    var first := FirstMatch(g, rank, particles, pdgId);
    if first.Some? then first
    else if bosons.None? then None
    else FirstMatch(g, rank, bosons.value, pdgId)
  }

  /** The "TruthBoson" container is consulted only for a W slot still empty. */
  lemma BosonsIgnoredOnceFound(g: Graph, rank: map<ParticleId, nat>, particles: seq<ParticleId>,
                               bosons1: Option<seq<ParticleId>>, bosons2: Option<seq<ParticleId>>, pdgId: int)
    requires ChainRanked(g, rank) && InRecord(g, particles) && SpeciesRanked(g, rank, particles, pdgId)
    requires bosons1.Some? ==> InRecord(g, bosons1.value)
    requires bosons2.Some? ==> InRecord(g, bosons2.value)
    requires exists j | 0 <= j < |particles| :: PdgId(g, particles[j]) == pdgId
    ensures WSlot(g, rank, particles, bosons1, pdgId) == WSlot(g, rank, particles, bosons2, pdgId)
  {
  }

  /** The particles the event's selection resolves all have ranks: the first of each slot
      species in "TruthParticles", and the first of each W species in "TruthBoson" when
      "TruthParticles" holds none of it. */
  ghost predicate SelectionRanked(g: Graph, rank: map<ParticleId, nat>, particles: seq<ParticleId>,
                                  bosons: Option<seq<ParticleId>>)
    requires InRecord(g, particles)
    requires bosons.Some? ==> InRecord(g, bosons.value)
  {
    && SpeciesRanked(g, rank, particles, PdgIdZp)
    && SpeciesRanked(g, rank, particles, PdgIdScalar)
    && SpeciesRanked(g, rank, particles, PdgIdWpos)
    && SpeciesRanked(g, rank, particles, PdgIdWneg)
    && (bosons.Some? && FirstWithPdgId(g, particles, PdgIdWpos).None? ==>
          SpeciesRanked(g, rank, bosons.value, PdgIdWpos))
    && (bosons.Some? && FirstWithPdgId(g, particles, PdgIdWneg).None? ==>
          SpeciesRanked(g, rank, bosons.value, PdgIdWneg))
  }

  /** The four output slots, in order Z', scalar, W+, W-. */
  function SelectedSlots(g: Graph, rank: map<ParticleId, nat>, particles: seq<ParticleId>,
                         bosons: Option<seq<ParticleId>>): (slots: seq<Option<ParticleId>>)
    requires ChainRanked(g, rank) && InRecord(g, particles)
    requires bosons.Some? ==> InRecord(g, bosons.value)
    requires SelectionRanked(g, rank, particles, bosons)
    ensures |slots| == |SlotPdgIds|
    ensures forall i | 0 <= i < |slots| && slots[i].Some? ::
              slots[i].value in g.particles && PdgId(g, slots[i].value) == SlotPdgIds[i]
  {
    [FirstMatch(g, rank, particles, PdgIdZp),
     FirstMatch(g, rank, particles, PdgIdScalar),
     WSlot(g, rank, particles, bosons, PdgIdWpos),
     WSlot(g, rank, particles, bosons, PdgIdWneg)]
  }

  /** dR(WW): the external angular-separation value when both W slots are filled, NaN otherwise. */
  function DeltaRWW(slots: seq<Option<ParticleId>>, deltaR: (ParticleId, ParticleId) -> Float): Float
    requires |slots| == |SlotPdgIds|
  {
    if slots[2].Some? && slots[3].Some? then deltaR(slots[2].value, slots[3].value) else NaN
  }

  /** The first loop of the event: the four slots from "TruthParticles". */
  method SearchTruthParticles(g: Graph, rank: map<ParticleId, nat>, particles: seq<ParticleId>)
    returns (tpZp: Option<ParticleId>, tpScalar: Option<ParticleId>, tpWpos: Option<ParticleId>, tpWneg: Option<ParticleId>)
    requires ChainRanked(g, rank) && InRecord(g, particles)
    requires SpeciesRanked(g, rank, particles, PdgIdZp) && SpeciesRanked(g, rank, particles, PdgIdScalar)
    requires SpeciesRanked(g, rank, particles, PdgIdWpos) && SpeciesRanked(g, rank, particles, PdgIdWneg)
    ensures tpZp == FirstMatch(g, rank, particles, PdgIdZp)
    ensures tpScalar == FirstMatch(g, rank, particles, PdgIdScalar)
    ensures tpWpos == FirstMatch(g, rank, particles, PdgIdWpos)
    ensures tpWneg == FirstMatch(g, rank, particles, PdgIdWneg)
  {
    tpZp, tpScalar, tpWpos, tpWneg := None, None, None, None;
    for i := 0 to |particles|
      invariant SpeciesRanked(g, rank, particles[..i], PdgIdZp) && SpeciesRanked(g, rank, particles[..i], PdgIdScalar)
      invariant SpeciesRanked(g, rank, particles[..i], PdgIdWpos) && SpeciesRanked(g, rank, particles[..i], PdgIdWneg)
      invariant tpZp == FirstMatch(g, rank, particles[..i], PdgIdZp)
      invariant tpScalar == FirstMatch(g, rank, particles[..i], PdgIdScalar)
      invariant tpWpos == FirstMatch(g, rank, particles[..i], PdgIdWpos)
      invariant tpWneg == FirstMatch(g, rank, particles[..i], PdgIdWneg)
    {
      var tp := particles[i];
      ScanStep(g, rank, particles, PdgIdZp, i);
      ScanStep(g, rank, particles, PdgIdScalar, i);
      ScanStep(g, rank, particles, PdgIdWpos, i);
      ScanStep(g, rank, particles, PdgIdWneg, i);
      if tpZp.None? && PdgId(g, tp) == PdgIdZp {
        tpZp := GetFirstChainLink(g, rank, Some(tp));
      }
      if tpScalar.None? && PdgId(g, tp) == PdgIdScalar {
        tpScalar := GetFirstChainLink(g, rank, Some(tp));
      }
      if tpWpos.None? && PdgId(g, tp) == PdgIdWpos {
        tpWpos := GetFirstChainLink(g, rank, Some(tp));
      }
      if tpWneg.None? && PdgId(g, tp) == PdgIdWneg {
        tpWneg := GetFirstChainLink(g, rank, Some(tp));
      }
    }
    assert particles[..|particles|] == particles;
  }

  /** The second loop of the event: W slots still empty are filled from "TruthBoson". */
  method SearchTruthBosons(g: Graph, rank: map<ParticleId, nat>, truthBosons: seq<ParticleId>,
                           wpos: Option<ParticleId>, wneg: Option<ParticleId>)
    returns (tpWpos: Option<ParticleId>, tpWneg: Option<ParticleId>)
    requires ChainRanked(g, rank) && InRecord(g, truthBosons)
    requires wpos.None? ==> SpeciesRanked(g, rank, truthBosons, PdgIdWpos)
    requires wneg.None? ==> SpeciesRanked(g, rank, truthBosons, PdgIdWneg)
    ensures tpWpos == if wpos.Some? then wpos else FirstMatch(g, rank, truthBosons, PdgIdWpos)
    ensures tpWneg == if wneg.Some? then wneg else FirstMatch(g, rank, truthBosons, PdgIdWneg)
  {
    tpWpos, tpWneg := wpos, wneg;
    for i := 0 to |truthBosons|
      invariant wpos.None? ==> SpeciesRanked(g, rank, truthBosons[..i], PdgIdWpos)
      invariant wneg.None? ==> SpeciesRanked(g, rank, truthBosons[..i], PdgIdWneg)
      invariant tpWpos == if wpos.Some? then wpos else FirstMatch(g, rank, truthBosons[..i], PdgIdWpos)
      invariant tpWneg == if wneg.Some? then wneg else FirstMatch(g, rank, truthBosons[..i], PdgIdWneg)
    {
      var tp := truthBosons[i];
      if wpos.None? {
        ScanStep(g, rank, truthBosons, PdgIdWpos, i);
      }
      if wneg.None? {
        ScanStep(g, rank, truthBosons, PdgIdWneg, i);
      }
      if tpWpos.None? && PdgId(g, tp) == PdgIdWpos {
        tpWpos := GetFirstChainLink(g, rank, Some(tp));
      }
      if tpWneg.None? && PdgId(g, tp) == PdgIdWneg {
        tpWneg := GetFirstChainLink(g, rank, Some(tp));
      }
    }
    assert truthBosons[..|truthBosons|] == truthBosons;
  }

  method SelectTruthParticles(g: Graph, rank: map<ParticleId, nat>, particles: seq<ParticleId>,
                              bosons: Option<seq<ParticleId>>, deltaR: (ParticleId, ParticleId) -> Float)
    returns (result: seq<Option<ParticleId>>, dRWW: Float)
    requires ChainRanked(g, rank) && InRecord(g, particles)
    requires bosons.Some? ==> InRecord(g, bosons.value)
    requires SelectionRanked(g, rank, particles, bosons)
    ensures result == SelectedSlots(g, rank, particles, bosons)
    ensures dRWW == DeltaRWW(result, deltaR)
  {
    var tpZp, tpScalar, tpWpos, tpWneg := SearchTruthParticles(g, rank, particles);
    if bosons.Some? {
      assert tpWpos.None? ==> FirstWithPdgId(g, particles, PdgIdWpos).None?;
      assert tpWneg.None? ==> FirstWithPdgId(g, particles, PdgIdWneg).None?;
      tpWpos, tpWneg := SearchTruthBosons(g, rank, bosons.value, tpWpos, tpWneg);
    }
    assert tpWpos == WSlot(g, rank, particles, bosons, PdgIdWpos);
    assert tpWneg == WSlot(g, rank, particles, bosons, PdgIdWneg);

    dRWW := NaN;
    if tpWpos.Some? && tpWneg.Some? {
      dRWW := deltaR(tpWpos.value, tpWneg.value);
    }

    result := [];
    result := result + [tpZp];
    result := result + [tpScalar];
    result := result + [tpWpos];
    result := result + [tpWneg];
  }

  /** An event whose record holds a gluon cycle: the selection never resolves a gluon,
      so only the W+ needs a rank and it fills the W+ slot. */
  lemma GluonLoopEventSelectsW()
    ensures ChainRanked(GluonLoopPlusW(), map[2 := 0])
    ensures InRecord(GluonLoopPlusW(), [0, 1, 2])
    ensures SelectionRanked(GluonLoopPlusW(), map[2 := 0], [0, 1, 2], None)
    ensures SelectedSlots(GluonLoopPlusW(), map[2 := 0], [0, 1, 2], None) == [None, None, Some(2), None]
  {
    GluonLoopLeavesWResolvable();
    var g, s := GluonLoopPlusW(), [0, 1, 2];
    assert PdgId(g, 0) == 21 && PdgId(g, 1) == 21 && PdgId(g, 2) == 24;
    assert FirstWithPdgId(g, s, PdgIdWpos) == Some(2);
  }

  /** The bridge from the selected pointers to the records they name: the writer's
      fillers dereference each slot pointer when filling. */
  function Dereference(g: Graph, slots: seq<Option<ParticleId>>): (staged: seq<Option<TruthParticle>>)
    requires forall i | 0 <= i < |slots| && slots[i].Some? :: slots[i].value in g.particles
    ensures |staged| == |slots|
    ensures forall i | 0 <= i < |slots| ::
              staged[i] == if slots[i].Some? then Some(g.particles[slots[i].value]) else None
  {
    seq(|slots|, i requires 0 <= i < |slots| =>
      if slots[i].Some? then Some(g.particles[slots[i].value]) else None)
  }

  /** A selected slot is written as its particle's pt, eta, phi and m with the slot's
      species code; an empty slot as the sentinel row. */
  lemma SlotsWrittenAsSelected(g: Graph, rank: map<ParticleId, nat>, particles: seq<ParticleId>,
                                     bosons: Option<seq<ParticleId>>, j: nat)
    requires ChainRanked(g, rank) && InRecord(g, particles)
    requires bosons.Some? ==> InRecord(g, bosons.value)
    requires SelectionRanked(g, rank, particles, bosons)
    requires j < |SlotPdgIds|
    ensures var slots := SelectedSlots(g, rank, particles, bosons);
      var row := ParticleBlock(Dereference(g, slots))[j];
      && (slots[j].Some? ==>
            var p := g.particles[slots[j].value];
            row == ParticleRow(Num(p.pt), Num(p.eta), Num(p.phi), Num(p.m), SlotPdgIds[j]))
      && (slots[j].None? ==> row == MissingRow)
  {
  }

  /** One pass of the event loop body: select, compute dR(WW), write. */
  method ProcessEvent(writer: TruthWriter, g: Graph, rank: map<ParticleId, nat>, particles: seq<ParticleId>,
                      bosons: Option<seq<ParticleId>>, met: Float, deltaR: (ParticleId, ParticleId) -> Float)
    requires ChainRanked(g, rank) && InRecord(g, particles)
    requires bosons.Some? ==> InRecord(g, bosons.value)
    requires SelectionRanked(g, rank, particles, bosons)
    requires writer.Valid()
    modifies writer, writer.particleWriter, writer.eventWriter
    ensures writer.Valid()
    ensures var slots := SelectedSlots(g, rank, particles, bosons);
      writer.history == old(writer.history) + [Staged(Dereference(g, slots), met, DeltaRWW(slots, deltaR))]
  {
    var result, dRWW := SelectTruthParticles(g, rank, particles, bosons, deltaR);
    writer.Write(Dereference(g, result), met, dRWW);
  }
}
