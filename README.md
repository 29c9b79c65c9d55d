# Truth-record dumper: chain resolver, event selection and truth writer

This project models the core of `dump-xaod`, a tool that reads simulated ATLAS
events and writes a few truth-level quantities per event into two fixed-shape
HDF5 tables, and proves properties of that model in Dafny.

- **Truth record** (`truth_edm.dfy`, module `TruthEdm`): particles and vertices
  as identifiers into two maps; a null pointer is `None`. A particle carries its
  species code (`pdgId`), its kinematics and optional production and decay
  vertices. A vertex carries ordered lists of incoming and outgoing links, any of
  which may be null. `WellFormed` says that every non-null link can be
  dereferenced.
- **Chain resolver** (`chain_resolver.dfy`, module `ChainResolver`):
  `IsInOutGoing` is the pass-through test. `GetFirstChainLink` walks back
  through production vertices. At each step it takes the first incoming particle
  that is non-null, is not the current particle, has the same species and is not
  pass-through. The source has no cycle detection. The model therefore asks for a
  rank on the particles the walk starts from (`ChainRanked`). The ranked
  particles are closed under a step, and every step strictly decreases the rank.
  Particles the walk never visits need no rank. `TwoCycleHasNoRank` shows that
  in an A→B→A record neither particle can be ranked, so the source's recursion
  from either one would not end. `GluonLoopLeavesWResolvable` shows that a cycle
  the walk never enters does not get in the way.
- **Event selection** (`event_selection.dfy`, module `EventSelection`): the body
  of the event loop in `main`. It fills four slots: Z' (55), scalar (54), W+ (24)
  and W- (-24). A slot takes the first particle of its species in
  "TruthParticles", resolved to its first chain link. W slots still empty then
  look in "TruthBoson" when the event has that container. dR(WW) is computed only
  when both W slots are filled. Then the four slots go to the writer.
- **Arguments** (`command_line.dfy`, module `CommandLine`): `get_options`.
  The model takes `argv[1..argc]`. An exit is a `UsageExit(1)` outcome.
- **Writer** (`truth_writer.dfy`, module `TruthWriting`; `hdf5_tables.dfy`,
  module `Hdf5Tables`): the `TruthWriter` class with the fields of
  `TruthWriter.h:35-43`. Its column fillers are functions of (staged particles,
  slot). The library's `WriterXd` is not part of this model. The class
  `Hdf5Tables.Table` states as an assumption what the writer relies on from it.
  A fill appends one row block of `shape[0]` rows. Blocks reach the file in
  order, all of them by the next flush. A table is released only after a flush.
  That the row at slot j is what the fillers return for slot j is assumed in
  `TruthWriter.Write`, which computes the block from the fillers and hands it
  to the table.

A float column value is `Float = NaN | Num(real)`, so the NaN sentinel is an
explicit value. Kinematics are opaque reals.

## Model

| member | source | states |
|---|---|---|
| ChainResolver.Scan | atlas-sw/dumpxAOD/util/dump-xaod.cxx:290-291 | the early-return search finds `p` in `links[n..]` exactly when some entry from index n on equals `p` |
| ChainResolver.IsInOutGoing | atlas-sw/dumpxAOD/util/dump-xaod.cxx:283-299 | false for null; otherwise true exactly when the particle is listed among its own production vertex's incoming or its own decay vertex's outgoing particles |
| ChainResolver.FirstQualifying | atlas-sw/dumpxAOD/util/dump-xaod.cxx:274-278 | returns the first incoming link that is non-null, not the current particle, of the same species and not pass-through, with no earlier link qualifying; or none when no link qualifies |
| ChainResolver.Step | atlas-sw/dumpxAOD/util/dump-xaod.cxx:272-280 | a step goes only to a qualifying incoming particle of the production vertex; no step means no production vertex or no qualifying particle |
| ChainResolver.AcyclicChainsAreRanked | atlas-sw/dumpxAOD/util/dump-xaod.cxx:274-277 | a rank that is closed under, and decreases along, every same-species, non-pass-through production edge from a ranked particle makes the walk terminate |
| ChainResolver.EndingWalkIsRanked | atlas-sw/dumpxAOD/util/dump-xaod.cxx:267-281 | a walk that reaches a particle with no step can be ranked from its start, so the rank requirement excludes only particles whose walk never ends |
| ChainResolver.GetFirstChainLink | atlas-sw/dumpxAOD/util/dump-xaod.cxx:267-281 | null gives null; non-null gives non-null of the same pdgId that has no further step; the result is the input or not pass-through; a particle with no step is returned unchanged |
| ChainResolver.ChainPath | atlas-sw/dumpxAOD/util/dump-xaod.cxx:272-280 | the particles the walk visits start at the input, follow one step each and end where no step exists, with strictly decreasing rank |
| ChainResolver.ResolvesToEndOfPath | atlas-sw/dumpxAOD/util/dump-xaod.cxx:267-281 | the resolved particle is the last one on the walk's path, and the path never visits a particle twice |
| ChainResolver.GetFirstChainLinkIdempotent | atlas-sw/dumpxAOD/util/dump-xaod.cxx:272-280 | resolving a resolved particle returns it unchanged |
| ChainResolver.TakesFirstQualifying | atlas-sw/dumpxAOD/util/dump-xaod.cxx:274-277 | among several qualifying incoming particles the walk continues from the first in index order |
| ChainResolver.ThreeLinkChainSteps | atlas-sw/dumpxAOD/util/dump-xaod.cxx:274-277 | in the chain C←B←A the null link and the other-species link are skipped, and each step goes one link back |
| ChainResolver.ThreeLinkChainRanked | atlas-sw/dumpxAOD/util/dump-xaod.cxx:272-280 | the chain C←B←A is ranked by its position in the chain: every step from a particle goes to a ranked particle of smaller rank |
| ChainResolver.ThreeLinkChainResolvesToRoot | atlas-sw/dumpxAOD/util/dump-xaod.cxx:267-281 | resolving C in the chain C←B←A gives A |
| ChainResolver.SelfListedIsNeverAnAncestor | atlas-sw/dumpxAOD/util/dump-xaod.cxx:276-277 | a particle listed as incoming to its own production vertex is pass-through, is its own first link, and is not taken as the ancestor of a particle it produced |
| ChainResolver.TwoCycleSteps | atlas-sw/dumpxAOD/util/dump-xaod.cxx:276-277 | in the A→B→A record the step from A goes to B and the step from B goes back to A |
| ChainResolver.TwoCycleHasNoRank | atlas-sw/dumpxAOD/util/dump-xaod.cxx:276-277 | no rank of the A→B→A record covers A or B: the pass-through guard breaks no cycle longer than one particle |
| ChainResolver.GluonLoopLeavesWResolvable | atlas-sw/dumpxAOD/util/dump-xaod.cxx:267-281 | in a record where two gluons are produced from each other, a W+ with no production vertex can be ranked on its own and resolves to itself |
| EventSelection.FirstWithPdgId | atlas-sw/dumpxAOD/util/dump-xaod.cxx:113-115 | the index of the first container particle of the species, with none before it; none when the species is absent |
| EventSelection.FirstMatch | atlas-sw/dumpxAOD/util/dump-xaod.cxx:113-126 | a slot is filled exactly when the container holds a particle of its species, and the filled slot has that species |
| EventSelection.FirstMatchIsFirst | atlas-sw/dumpxAOD/util/dump-xaod.cxx:113-116 | the first container particle of the species decides the slot: it is that particle's first chain link |
| EventSelection.GluonLoopEventSelectsW | atlas-sw/dumpxAOD/util/dump-xaod.cxx:113-126 | an event whose record holds a gluon cycle is selected with only the W+ ranked: the slots are empty, empty, the W+, empty |
| EventSelection.FirstMatchSticky | atlas-sw/dumpxAOD/util/dump-xaod.cxx:115-116 | one more particle leaves a filled slot unchanged, and fills an empty slot with the resolved particle when the species matches |
| EventSelection.WSlot | atlas-sw/dumpxAOD/util/dump-xaod.cxx:169-203 | a W slot is filled exactly when "TruthParticles", or a present "TruthBoson", holds a particle of its species; the filled slot has that species |
| EventSelection.BosonsIgnoredOnceFound | atlas-sw/dumpxAOD/util/dump-xaod.cxx:176-177 | when "TruthParticles" fills a W slot, the "TruthBoson" container does not change the slot |
| EventSelection.SelectedSlots | atlas-sw/dumpxAOD/util/dump-xaod.cxx:221-226 | the output has length 4, in order Z', scalar, W+, W-, and every filled slot holds a particle of that slot's species |
| EventSelection.SearchTruthParticles | atlas-sw/dumpxAOD/util/dump-xaod.cxx:107-167 | after the first loop each of the four slots holds the first match in "TruthParticles" |
| EventSelection.SearchTruthBosons | atlas-sw/dumpxAOD/util/dump-xaod.cxx:169-203 | the second loop keeps a filled W slot and fills an empty one with the first match in "TruthBoson" |
| EventSelection.SelectTruthParticles | atlas-sw/dumpxAOD/util/dump-xaod.cxx:107-226 | the result is the four selected slots; dR(WW) is the external value when both W slots are filled and NaN otherwise |
| EventSelection.SlotsWrittenAsSelected | atlas-sw/dumpxAOD/util/dump-xaod.cxx:221-228 | row j of the particle table holds the selected slot's pt, eta, phi and m with the slot's species code when the slot is filled, and the sentinel row (NaN, NaN, NaN, NaN, 0) when it is empty |
| EventSelection.ProcessEvent | atlas-sw/dumpxAOD/util/dump-xaod.cxx:107-228 | one event appends, to the writer's history, the dereferenced selection with the given met and the computed dR(WW) |
| CommandLine.FileArgsAppend | atlas-sw/dumpxAOD/util/dump-xaod.cxx:254-255 | file arguments keep command-line order: the file list of a joined command line is the join of the file lists |
| CommandLine.FileArgsMembers | atlas-sw/dumpxAOD/util/dump-xaod.cxx:249-256 | an argument is in the file list exactly when it is on the command line and is neither `-h` nor `-v` |
| CommandLine.GetOptions | atlas-sw/dumpxAOD/util/dump-xaod.cxx:245-263 | usage and exit status 1 exactly when `-h` is given or no file argument is; otherwise the files in order and verbose exactly when `-v` is given |
| TruthWriting.PtFiller | atlas-sw/dumpxAOD/Root/TruthWriter.cxx:18-23 | NaN exactly when the slot is past the end or null; otherwise that particle's pt |
| TruthWriting.EtaFiller | atlas-sw/dumpxAOD/Root/TruthWriter.cxx:25-30 | NaN exactly when the slot is past the end or null; otherwise that particle's eta |
| TruthWriting.PhiFiller | atlas-sw/dumpxAOD/Root/TruthWriter.cxx:32-37 | NaN exactly when the slot is past the end or null; otherwise that particle's phi |
| TruthWriting.MFiller | atlas-sw/dumpxAOD/Root/TruthWriter.cxx:39-44 | NaN exactly when the slot is past the end or null; otherwise that particle's m |
| TruthWriting.PdgIdFiller | atlas-sw/dumpxAOD/Root/TruthWriter.cxx:46-51 | 0 when the slot is past the end or null; otherwise that particle's pdgId |
| TruthWriting.ParticleBlock | atlas-sw/dumpxAOD/Root/TruthWriter.cxx:63 | one fill of the particle table yields 4 rows, shape {4} |
| TruthWriting.EventBlock | atlas-sw/dumpxAOD/Root/TruthWriter.cxx:64 | one fill of the event-variable table yields 1 row, shape {1} |
| TruthWriting.MissingSlotIsSentinel | atlas-sw/dumpxAOD/Root/TruthWriter.cxx:18-51 | a slot past the end of the staged vector or holding null is written as (NaN, NaN, NaN, NaN, 0) |
| TruthWriting.PresentSlotIsParticle | atlas-sw/dumpxAOD/Root/TruthWriter.cxx:18-51 | a slot holding a particle is written as that particle's pt, eta, phi, m and pdgId |
| TruthWriting.PresenceReadableFromPt | atlas-sw/dumpxAOD/Root/TruthWriter.cxx:18-23 | a written row's pt is NaN exactly when its slot was empty, given that a present particle's pt is never NaN (kinematics are reals in the model) |
| TruthWriting.ExtraEntriesIgnored | atlas-sw/dumpxAOD/Root/TruthWriter.cxx:19-20 | entries of the staged vector past the fourth never reach the table |
| TruthWriting.NullPaddingInvisible | atlas-sw/dumpxAOD/Root/TruthWriter.cxx:20-21 | a short staged vector is written as if padded with nulls |
| TruthWriting.OneParticleEvent | atlas-sw/dumpxAOD/Root/TruthWriter.cxx:18-61 | one Z' and three empty slots, met 20 and dR NaN, are written as the Z' row, three sentinel rows and the row (20, NaN) |
| TruthWriting.TruthWriter.constructor | atlas-sw/dumpxAOD/Root/TruthWriter.cxx:9-65 | both staged scalars are -1, both index vectors are [0], and the two tables are "truthparticles" with shape {4} and "eventvariables" with shape {1}, both empty |
| TruthWriting.TruthWriter.Write | atlas-sw/dumpxAOD/Root/TruthWriter.cxx:75-90 | the staged vector becomes exactly the argument, the staged met and dRWW become the arguments, and each table gets exactly one new row block built from them, keeping the two tables row-aligned with the call history |
| TruthWriting.TruthWriter.Close | atlas-sw/dumpxAOD/Root/TruthWriter.cxx:68-73 | both tables are flushed before either is released, so every block handed over is in the file |
| Hdf5Tables.Table.constructor | atlas-sw/dumpxAOD/Root/TruthWriter.cxx:63-64 | a new table has its name and shape and no blocks (library assumption) |
| Hdf5Tables.Table.FillWhileIncrementing | atlas-sw/dumpxAOD/Root/TruthWriter.cxx:88-89 | a fill appends exactly one block of `shape[0]` rows (library assumption) |
| Hdf5Tables.Table.Flush | atlas-sw/dumpxAOD/Root/TruthWriter.cxx:69-70 | after a flush every block is in the file and no block changes (library assumption) |
| Hdf5Tables.Table.Release | atlas-sw/dumpxAOD/Root/TruthWriter.cxx:71-72 | a table is released only when all its blocks are in the file (library assumption) |

## Left out

- ChainResolver.GetFirstChainLink: requires the input to carry a rank that every step of the walk from it decreases (`ChainRanked`). The source has no such check, and it does not terminate from a particle with no such rank, such as either particle of the A→B→A record in `TwoCycleHasNoRank`. The selection members (`FirstMatch`, `WSlot`, `SelectedSlots`, `SearchTruthParticles`, `SearchTruthBosons`, `SelectTruthParticles`, `ProcessEvent`) require a rank only for the particles the source resolves (`SpeciesRanked`, `SelectionRanked`). These are the first particle of each slot species in "TruthParticles", and the first W+ or W- in "TruthBoson" when "TruthParticles" has none of that species. A cycle elsewhere in the record excludes nothing (`GluonLoopEventSelectsW`). An event is excluded only when the walk from one of those particles has no end (`EndingWalkIsRanked` ranks every walk that ends), which is also when the source's own recursion does not end.
- Hdf5Tables.Table.FillWhileIncrementing: only promises that the persisted count does not shrink, because the library may flush a full batch at any fill. The batch size and the flush points are not modelled.
- TruthWriting.TruthWriter.Write: does not state that the particle table is filled before the event-variable table. The two tables are separate objects in the model, and that order is not visible in either table.
- TruthWriting.TruthWriter.Write: leaves the two index vectors as they were. What the library writes into them while it iterates over the slots is not modelled; the fillers take the slot as an explicit argument instead.
- File and event I/O (`xAOD::Init`, `TEvent`, `TFile::Open`, `readFrom`, `getEntries`, `getEntry`, `retrieve`, `contains`, `RETURN_CHECK`) and the file and event loops of `main`: these are library I/O. The containers are inputs, and a missing "TruthBoson" container is `None`.
- The missing-ET value (`MET_Truth`, `"NonInt"`) is a parameter, and `xAOD::P4Helpers::deltaR` is a function parameter: both are foreign calls on floating point.
- Verbose printing in `main`, the progress messages, the `Error` log lines of the two helpers, and the `usage` text: console output only.
- The output file `output.h5` and the output group given to the `TruthWriter` constructor: HDF5 handles of the library.
- HDF5 on-disk layout, column types (float32, int32), buffering and batch size: library internals. Reals stand for floats, and NaN is an explicit value rather than IEEE NaN.
- The null checks on the two writer pointers in the destructor: the pointers are never null once the constructor has returned, so the model's fields are non-null.
- The deleted copy constructor and copy assignment (`TruthWriter.h:29-30`): a Dafny class is a reference type and is never copied.
- The repeated test `!(P == TruthPart)` in the resolver's condition is the same as `P != TruthPart` and is modelled once.
- `local-sw/reweight.py`: plotting and reweighting on top of external Python libraries.
