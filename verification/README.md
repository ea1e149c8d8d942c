# Relativist, modelled and proved

Relativist reduces interaction combinator nets (constructor, duplicator, eraser) on a grid
of one coordinator and several workers. This project models the parts of it that carry the
hard claims and proves them with the Dafny verifier:
`dafny verify dfyconfig.toml`.

| files | what they hold |
|---|---|
| `Nets`, `NetOps`, `Building` | nets, the operations that change them, growing a net agent by agent |
| `Isomorphism`, `GraphIsomorphism`, `GraphExactness` | the backtracking search, the two isomorphism checkers built on it, and exactly when the second misses nothing |
| `Interaction`, `Confluence`, `Transport`, `Rejoining` | one interaction step as a relation, its exact strong confluence, steps of isomorphic nets, and what happens after a loop is closed |
| `Rules`, `RuleLimits`, `RulesConfluence`, `LoopExamples` | the six coded rules refine that step; exactly when they damage a net; confluence of the code and where it ends |
| `Engine`, `Reducer`, `ReductionStats`, `Recycling` | the redex queue invariant, the reduction loop as an object, what its statistics count, and where freed ids go |
| `Runs`, `Uniqueness`, `NormalForms`, `EraserNets` | runs in any order, and exactly when the normal form and the number of interactions are unique |
| `WireSteps`, `SplitLoop`, `DrainedLoop` | two nets on which one of the two is unique and the other is not |
| `Assembler`, `AssemblerExact`, `AssemblerWires`, `AssemblerResult` | assembling a net from batches with forward references |
| `Chunked`, `TreeNumbering`, `DualTree`, `DualTreeNet`, `DualTreeTheorems`, `DualTreeReduction` | the one-batch stream, the dual-tree stream, and what reducing the dual tree does |
| `Lambda`, `Readback` | lambda terms, beta reduction, Church arithmetic; reading a term back from a net |
| `Church`, `ChurchTerms`, `Gadgets`, `GadgetTerms`, `Builders`, `Arithmetic`, `RootDiscovery` | compiling Church arithmetic to nets |
| `Contraction`, `AddReduction` | annihilations as wires followed through the agents that are gone, and the whole addition pipeline |
| `Decoding`, `SharedDecoding`, `DecodingExact`, `SharedExact` | reading numbers back, and exactly when they are what the net denotes |
| `Coordinator`, `CoordinatorRuns`, `CoordinatorGate`, `Worker`, `WorkerRuns` | the two state machines, and every run of each told from its events alone |
| `Bsp`, `BspLiveness` | the whole grid over channels: safety, what can be lost, and that every round can be completed |
| `Commutation`, `RoundMinting`, `DeltaWorker`, `RoundOrders`, `RoundReports` | mint-then-wire, a whole round of it, the delta-mode worker, and what a round does and reports, told from its orders and requests |
| `Pull` | pull dispatch |

A net is a value: a map of live agents, a map of ports, the number of arena slots, the id
counter, the redex queue, the root and the free list. Objects that the source updates in
place (`NetCell`, the coordinator and worker contexts) are classes whose methods are proved
against functions on such values. Integers are unbounded; 32-bit saturation, the arena cap
and the slot-marker base are written out where they matter.

## Where the code and its documentation disagree

Each of these is a lemma; the code is modelled as it is.

- The bound on the lifetime of forward references given for the dual tree
  (`bench/streaming.rs:228-236`) leaves out the wire from root to root: `DocumentedBoundFails`.
  The exact bound is in `DualTreeAssembled`.
- `interact_anni` and `interact_comm` lose or half-write a wire when the two agents of the
  pair are also joined by certain auxiliary wires, a case the comments rule out:
  `ApplyExact` says exactly when, `AnnihilationDamages` and `CommutationDamages` give nets.
- The number of interactions and the normal form are said not to depend on the order of
  reduction (T6 and T7 of `docs/specs/SPEC-01-invariantes.md`). The self-loop shortcuts of
  the rules break the one-step diamond exactly when an annihilation closes a loop on an agent
  of the other pair (`EitherOrder`). The order that reduces that pair first then needs one
  more interaction per loop, and it rejoins the other order unless the one loop is on a
  duplicator facing a constructor without a loop (`LoopRejoins`, `LoopsRejoin`). So in a
  terminating net whose reachable pairs are clean and whose loops all rejoin, the normal form
  is unique (`OneNormalForm`), and the number of interactions is unique if and only if no
  loop can be closed at all (`SameLengthExactly`; `ErasedRejoins` is an instance with two
  interactions against three). Where a loop of the other kind can be closed, each claim may
  hold or fail on its own: both fail on `COPIED_LOOP` (`CopiedDiffers`), only the normal form
  on `SPLIT_LOOP` (`SplitKeepsCount`), only the count on `DRAINED_LOOP` (`DrainedKeepsForm`).
- `nets_graph_isomorphic` can reject isomorphic nets when an interface label is on more
  than one port, because pass 2 never asks pass 1 for another bijection: `RepeatedNames`.
  `ExactlyTolerant` says for which nets it misses nothing.
- `decode_nat` promises to recognise Church numerals but never looks at the function ports:
  `DecodesStray`, and `DecodeExact` for the exact condition. `decode_shared_chain` returns
  a number from nets that denote no term: `DecodesUndenoted`, and `SharedExact` for the
  exact condition.
- `discover_root` prefers a labelled constructor, but two open ones with smaller ids hide
  it: `HiddenLabel`, and `RootExact` for the exact condition.
- Delta rounds are said to mint fresh consecutive ids. No production path marks a net as
  being in a delta round, so freed ids can be handed out again: `MintConsecutive` and
  `RoundConsecutive` give the exact condition, `RoundBound` the bound on leaving the range.
- `AwaitingFinalResults` is documented as collecting the final results, yet the pull state
  machine rejects every result once it has said there is no more work:
  `NothingAfterNoMoreWork`. A worker counts every completion it is told of after that, not
  just one: `FinalsCounted`, `AtMostOneFinal`, `FinalResultRepeats`.
- A result that comes while partitions are still being dispatched is ignored by the
  coordinator, so the round never gets it: `LossExactly`; without that, and with each worker
  told in time that its result is sent, nothing is lost: `NothingLost`.

## Model

| member | source | states |
|---|---|---|
| NetIsomorphism.NetsIsomorphic | relativist-core/src/bench/isomorphism.rs:18-47 | For all well-formed nets the answer is true exactly when a bijection of agents exists that keeps symbols, every wire and every interface label, although the check on unmapped neighbours is deferred |
| Backtracking.Backtrack | relativist-core/src/bench/isomorphism.rs:53-166 | The explicit-stack loop ends on every input, returns what the plain recursive search returns, and leaves two mutually inverse maps; the branch for a missing symbol group is dead |
| Backtracking.BackUp | relativist-core/src/bench/isomorphism.rs:120-164 | Popping agents until one has another candidate keeps the rest of the search space and strictly lowers the remaining work |
| Backtracking.FirstCandidate | relativist-core/src/bench/isomorphism.rs:170-192 | The scan skips only candidates that cannot be used, so the recursive search from the start equals that from where it stops |
| Backtracking.IsConsistent | relativist-core/src/bench/isomorphism.rs:215-270 | The port loop decides that every port of the two agents agrees under the map extended by the new pair |
| NetIsomorphism.SearchSound | relativist-core/src/bench/isomorphism.rs:200-270 | A map the search returns respects every wire in both directions, by symmetry of wires |
| NetIsomorphism.SearchComplete | relativist-core/src/bench/isomorphism.rs:53-199 | Pruning discards no partial map that some solution extends |
| NetIsomorphism.SearchDecides | relativist-core/src/bench/isomorphism.rs:53-166 | The search finds a map exactly when a full symbol-preserving one that respects all ends exists |
| NetIsomorphism.CountAgents | relativist-core/src/bench/isomorphism.rs:436-442 | The loop counts the live agents of each symbol, with no entry for absent symbols |
| NetIsomorphism.GroupAgents | relativist-core/src/bench/isomorphism.rs:455-461 | Each symbol that occurs has a group, listing exactly its live agents in arena order |
| NetGraphIsomorphism.NetsGraphIsomorphic | relativist-core/src/bench/isomorphism.rs:293-352 | True implies an agent bijection and a relabelling bijection that keep all wires; exact for every second net whenever each label-blind mapping of the first net onto itself keeps equal labels equal and different ones different, and so whenever each label is on one port |
| NetGraphIsomorphism.DeriveNames | relativist-core/src/bench/isomorphism.rs:322-350 | Pass 2 succeeds exactly when the labels of corresponding ports correspond one to one, and then yields the relabelling |
| NetGraphIsomorphism.TwoPasses | relativist-core/src/bench/isomorphism.rs:303-433 | The two passes accept exactly when the first bijection of the relaxed search relates the labels one to one |
| NetGraphIsomorphism.Exact | relativist-core/src/bench/isomorphism.rs:280-352 | For such a first net every isomorphic second net is accepted: not retrying pass 1 loses nothing |
| GraphExactness.ExactlyTolerant | relativist-core/src/bench/isomorphism.rs:280-352 | And only for such nets: a well-formed net has every isomorphic net accepted if and only if all its label-blind mappings onto itself respect the labels |
| NetGraphIsomorphism.RepeatedNames | relativist-core/src/bench/isomorphism.rs:280-352 | Two isomorphic nets of three erasers with repeated labels that the two passes reject |
| Interaction.ReducedSound | relativist-core/src/reduction/rules.rs:52-243 | An interaction step keeps wires symmetric and between live ports |
| Confluence.StrongConfluence | relativist-core/src/reduction/rules.rs:52-243 | Two steps on disjoint pairs commute up to renaming exactly when neither closes a loop on a commuting or erased agent of the other pair |
| Confluence.Diamond | relativist-core/src/reduction/rules.rs:52-243 | The renaming between the two orders, built wire by wire along paths through both pairs |
| Transport.StepTransported | relativist-core/src/reduction/rules.rs:52-243 | Reducing a pair and its image in an isomorphic net gives isomorphic nets, whatever ids the new agents get |
| Rejoining.OneLoop | relativist-core/src/reduction/rules.rs:71-243 | One loop closed: one more step in the slower order gives the net of the faster one if and only if the loop is not on a duplicator facing a constructor without a loop |
| Rejoining.TwoLoops | relativist-core/src/reduction/rules.rs:71-243 | Both loops closed: two more steps always rejoin |
| Rules.ApplyIsStep | relativist-core/src/reduction/rules.rs:24-243 | Each coded rule, with removal, linking, creation and self-loop shortcuts in the source's order, is the abstract step for the ids it allocates |
| RuleLimits.ApplyExact | relativist-core/src/reduction/rules.rs:71-243 | A coded rule keeps a fully wired, symmetric net so exactly when the pair is not wired in one of the damaging ways |
| RuleLimits.AnnihilationDamages | relativist-core/src/reduction/rules.rs:71-135 | An intact net of two constructors and an eraser that the annihilation leaves damaged |
| RuleLimits.CommutationDamages | relativist-core/src/reduction/rules.rs:182-243 | An intact net of a constructor and a duplicator, joined by one auxiliary wire, that the commutation leaves damaged |
| RulesConfluence.EitherOrder | relativist-core/src/reduction/rules.rs:24-243 | After two coded steps on two pairs, clean in the net and clean through each other, the two orders are isomorphic if and only if no annihilation closes a loop on the other pair |
| RulesConfluence.LoopRejoins | relativist-core/src/reduction/rules.rs:24-243 | Where one loop is closed, the coded rules leave one more clean active pair of new agents in the slower order; applying the rule to it gives the net of the faster order if and only if the loop is not on a duplicator facing a constructor without a loop |
| RulesConfluence.LoopsRejoin | relativist-core/src/reduction/rules.rs:24-243 | Where two loops are closed, two more applications rejoin |
| LoopExamples.ErasedRejoins | relativist-core/src/reduction/rules.rs:24-243 | A net with a closed loop whose two orders end in the empty net, after two interactions and after three |
| LoopExamples.CopiedDiffers | relativist-core/src/reduction/rules.rs:24-243 | A net with a closed loop whose two orders end in two normal forms that are not isomorphic |
| Engine.ApplyGood | relativist-core/src/reduction/rules.rs:24-243 | A clean step keeps the loop invariant: symmetric wires, a sound allocator, and every active pair queued |
| Reducer.NetCell.Connect | relativist-core/src/net/core.rs:624-648 | Both slots are written and a principal pair is queued |
| Reducer.NetCell.RemoveAgent | relativist-core/src/net/core.rs:684-749 | All ports are disconnected, the slot is cleared and the id freed |
| Reducer.NetCell.CreateAgent | relativist-core/src/net/core.rs:323-571 | The most recently freed id or the next fresh one is used, with clean slots |
| Reducer.NetCell.Interact | relativist-core/src/reduction/engine.rs:36-102 | The rule for the two symbols is applied with the smaller symbol first |
| Reducer.NetCell.ReduceStep | relativist-core/src/reduction/engine.rs:36-102 | The queue is dropped up to its first valid pair and exactly that pair is reduced |
| Reducer.AdvanceGood | relativist-core/src/reduction/engine.rs:36-102 | Under the invariant a normal form is reported exactly if no two agents face each other |
| Reducer.NetCell.ReduceN | relativist-core/src/reduction/engine.rs:154-184 | At most the budget of steps is taken, each as above, and counted by rule |
| Reducer.AdvanceNDone | relativist-core/src/reduction/engine.rs:154-184 | The counts add up and respect the budget; if each pair met is clean when it is reduced, the loop invariant holds at the end, and a run that stopped early is at a normal form |
| Reducer.StepTakesFirst | relativist-core/src/reduction/engine.rs:36-102 | A step reduces the first queued pair whose agents face each other, drops all before it and keeps all behind it; without one it empties the queue |
| ReductionStats.StatsExact | relativist-core/src/reduction/engine.rs:121-129 | Each count is the number of reduced pairs with those symbols along the run |
| Recycling.LoopKeeps | relativist-core/src/net/core.rs:684-749 | No rule and no run of the loop loses an id: every id handed out belongs to a live agent or waits on the free list |
| Recycling.EachInOnePlace | relativist-core/src/net/core.rs:766-800 | With a sound allocator each is in exactly one of the two, so live agents and free ids add up to the counter |
| Recycling.FreedComesBack | relativist-core/src/net/core.rs:323-571 | Removing an agent and creating one of its symbol gives the same id back, with agents, free list and counter as before and only its own wires gone |
| Uniqueness.Completes | docs/specs/SPEC-01-invariantes.md:128-150 | In a net from which no unclean pair and no loop-closing step can be reached, once one run ends in a normal form every other run can be continued to an isomorphic one with the same total number of interactions, so all runs terminate |
| Uniqueness.UniqueNormalForm | docs/specs/SPEC-01-invariantes.md:128-150 | In such a net, terminating or not, any two runs to normal form have the same length and isomorphic ends |
| NormalForms.OneNormalForm | docs/specs/SPEC-01-invariantes.md:128-150 | In a terminating net from which only clean pairs can be met and only rejoining loops be closed, any two runs to normal form have isomorphic ends |
| NormalForms.SameLengthExactly | docs/specs/SPEC-01-invariantes.md:128-150 | In such a net all runs to normal form have the same length if and only if no loop can be closed |
| NormalForms.LoopFinds | relativist-core/src/reduction/engine.rs:108-184 | On such a net the reduction loop, with a sufficient budget, ends in that normal form |
| EraserNets.ErasingOrderly | relativist-core/src/reduction/rules.rs:141-181 | Nets whose duplicators face only erasers or labels, with no wire between two auxiliary ports of constructors, terminate, meet only clean pairs and close only rejoining loops |
| EraserNets.ErasingUnique | docs/specs/SPEC-01-invariantes.md:128-150 | So they have one normal form |
| SplitLoop.SplitKeepsCount | docs/specs/SPEC-01-invariantes.md:128-150 | A net with a loop that does not rejoin: every run is at a normal form if and only if it has made four interactions, yet two runs end in nets that are not isomorphic |
| DrainedLoop.DrainedKeepsForm | docs/specs/SPEC-01-invariantes.md:128-150 | A net with a loop that does not rejoin: every run to normal form ends in the empty net, one after four interactions and one after seven |
| Uniqueness.LoopComputes | relativist-core/src/reduction/engine.rs:108-184 | On such a net the reduction loop makes exactly as many interactions as any run to normal form has, or as many as its budget allows, and with enough budget ends in that normal form |
| Assembler.AssembleStream | relativist-core/src/bench/suite.rs:217-331 | The assembler's loops compute the batch-by-batch specification, error cases included |
| AssemblerExact.AssembleExact | relativist-core/src/bench/suite.rs:233-317 | For every stream, success holds exactly when each forward reference finds its target in time (no limit at u32::MAX, but it must arrive; the counter saturates) and the arena fits its cap |
| AssemblerExact.OutcomeExact | relativist-core/src/bench/suite.rs:233-317 | The error is exact too: expired if and only if a deadline passed, unresolved if and only if none did and a target never came, too large if and only if all came in time and the arena is over its cap |
| AssemblerResult.AssembledNet | relativist-core/src/bench/suite.rs:233-328 | An accepted stream with distinct ports becomes exactly its agents and its wires, whatever its batches |
| AssemblerResult.AssembledWires | relativist-core/src/bench/suite.rs:233-287 | Every directive is installed at both ends, every installed wire comes from one, and the net is well formed |
| AssemblerResult.CutIndependent | relativist-core/src/bench/suite.rs:233-328 | Two accepted streams with the same agents and wires, cut and ordered in any way, give the same net up to the order of the redex queue |
| AssemblerWires.PortsPermuted | relativist-core/src/net/sparse.rs:185-208 | Plugging the same wires in another order gives the same port table |
| Chunked.DefaultChunked | relativist-core/src/bench/streaming.rs:55-115 | The two walks over the arena produce the one batch of the specification |
| Chunked.ChunkedRoundTrip | relativist-core/src/bench/streaming.rs:55-115 | Assembling the wrapped net gives back every agent, every interface wire and every wire between two agents; only wires joining an agent to itself are lost |
| Chunked.ChunkedExact | relativist-core/src/bench/streaming.rs:55-115 | The round trip is exact exactly on nets without such wires |
| Chunked.ChunkedRedexes | relativist-core/src/bench/streaming.rs:67-90 | Each active pair is queued once, from its lower id |
| TreeNumbering.SortedEmission | relativist-core/src/bench/streaming.rs:291-323 | Sorting by descending level then index gives the closed-form bottom-up order |
| TreeNumbering.PositionBijective | relativist-core/src/bench/streaming.rs:304-323 | The closed form and its inverse number the nodes bijectively |
| TreeNumbering.ParentLater | relativist-core/src/bench/streaming.rs:385-415 | A parent is emitted strictly after its child, at most half a tree later |
| DualTree.BuildDualTreeBatches | relativist-core/src/bench/streaming.rs:286-472 | The builder (sort, inverse table, batches) ends for every positive chunk size and produces the specified stream |
| DualTreeNet.WiringSymmetric | relativist-core/src/bench/streaming.rs:378-460 | The closed-form wiring of the two trees is an involution |
| DualTreeNet.StreamWires | relativist-core/src/bench/streaming.rs:349-472 | The wires listed by the first batches are those of the nodes they hold, independently of the chunk size |
| DualTreeTheorems.DualTreeAssembled | relativist-core/src/bench/streaming.rs:286-472 | For depths 1 to 30 and every chunk size, assembly succeeds exactly when depth is at most 23 and the roots are within the lifetime, and then yields one and the same net, redex queue included |
| DualTreeTheorems.TreeOnTime | relativist-core/src/bench/suite.rs:290-303 | No forward reference expires exactly when the one from root to root does not |
| DualTreeTheorems.TwoTreesShape | relativist-core/src/bench/streaming.rs:417-460 | Node i has its children 2i+1 and 2i+2 on its auxiliary ports, a missing child leaves a label, the roots face each other |
| DualTreeTheorems.TwoTreesWired | relativist-core/src/bench/streaming.rs:358-460 | All 6(2^depth - 1) ports are wired symmetrically; labels are pairwise distinct and above all ids |
| DualTreeTheorems.WholeTreeLifetime | relativist-core/src/bench/streaming.rs:228-236 | A lifetime of ceil((2^depth - 1)/chunk) - 1 is always enough |
| DualTreeTheorems.DocumentedBoundFails | relativist-core/src/bench/streaming.rs:228-236 | At depth 3 and chunk size 1 the documented bound of 4 makes assembly fail |
| DualTreeReduction.DualTreeReduces | relativist-core/src/bench/validate.rs:552-568 | For every depth, chunk size and budget, the stream assembled and then reduced makes 2^depth - 1 interactions, all annihilations, or as many as the budget allows, and each removes two agents, so that nothing is left |
| DualTreeReduction.AnyOrder | relativist-core/src/bench/validate.rs:552-568 | In every order of reduction a run is at a normal form if and only if it has made 2^depth - 1 interactions, and that normal form is the empty net |
| DualTreeReduction.RunRemains | relativist-core/src/bench/benchmarks/dual_tree.rs:10-14 | After any run, what is left is closed under the mirror image, nodes hang where they were, and a node without its parent faces its mirror image |
| DualTreeReduction.TreesTame | docs/specs/SPEC-01-invariantes.md:128-150 | The dual tree never reaches an unclean pair or closes a loop, so the uniqueness theorems apply to it |
| Builders.EncodeChurchInto | relativist-core/src/encoding/church.rs:62-161 | The encoder's loops build the specified numeral on top of the net |
| ChurchTerms.EncodeDenotes | relativist-core/src/encoding/church.rs:62-161 | Read back at its outer lambda, the encoding of k is exactly the Church numeral k |
| ChurchTerms.EncodeKeeps | relativist-core/src/encoding/church.rs:62-161 | Encoding keeps the net well formed, changes no old port, and wires every new port but the outer lambda's |
| Church.EncodeFrame | relativist-core/src/encoding/church.rs:62-161 | Encoding adds the agents of the numeral in order and no redex |
| Builders.WireAddInto | relativist-core/src/encoding/arithmetic.rs:99-190 | The eleven agents and seventeen wires are added in the source's order to the fragment of the specification |
| Builders.WireMulInto | relativist-core/src/encoding/arithmetic.rs:238-289 | Likewise for the seven agents of the mul combinator |
| Builders.WireExpInto | relativist-core/src/encoding/arithmetic.rs:418-455 | Likewise for the five agents of the exp combinator |
| Gadgets.InstallKeeps | relativist-core/src/encoding/arithmetic.rs:99-289 | A fragment keeps wiring symmetric and wires every new port but the result |
| Gadgets.InstallWires | relativist-core/src/encoding/arithmetic.rs:99-289 | Every listed wire is in place at both ends and of the old net only the two operand ports change |
| Gadgets.InstallRedex | relativist-core/src/encoding/arithmetic.rs:99-289 | A fragment creates exactly one redex |
| GadgetTerms.InstallDenotes | relativist-core/src/encoding/arithmetic.rs:99-289 | A fragment on any two operands denotes its combinator applied to what they denote |
| Readback.DenotesUnique | relativist-core/src/encoding/arithmetic.rs:99-190 | At most one term is read at a port |
| Lambda.AddReduces | relativist-core/src/encoding/arithmetic.rs:80-99 | The add combinator applied to two numerals beta-reduces to their sum |
| Lambda.MulReduces | relativist-core/src/encoding/arithmetic.rs:222-238 | The mul combinator applied to two numerals beta-reduces to their product |
| Lambda.ExpReduces | relativist-core/src/encoding/arithmetic.rs:397-403 | For a positive exponent the exp combinator beta-reduces to the power |
| Lambda.ExpOfZero | relativist-core/src/encoding/arithmetic.rs:404-410 | For exponent zero it ends in the identity, a normal form that is no numeral |
| Lambda.ChurchNormal | relativist-core/src/encoding/church.rs:1-8 | Church numerals are normal forms |
| Lambda.SumOfSquaresReduces | relativist-core/src/encoding/arithmetic.rs:313-373 | The right fold of additions over the squares beta-reduces to n(n+1)(2n+1)/6 |
| Arithmetic.BuildAdd | relativist-core/src/encoding/arithmetic.rs:197-220 | The builder produces the specified net |
| Arithmetic.BuildMul | relativist-core/src/encoding/arithmetic.rs:295-314 | The builder produces the specified net |
| Arithmetic.BuildExp | relativist-core/src/encoding/arithmetic.rs:403-467 | The builder produces the specified net, exponent zero directly as the numeral 1 |
| Arithmetic.BinaryMeaning | relativist-core/src/encoding/arithmetic.rs:197-467 | A built net is fully wired with one interface port, has one redex, and denotes exactly the combinator applied to the two numerals |
| Arithmetic.AddComputes | relativist-core/src/encoding/arithmetic.rs:197-220 | What the add net denotes reduces to the numeral a + b |
| AddReduction.ComputeAdd | relativist-core/src/encoding/arithmetic.rs:480-492 | Build, reduce, find the root, decode: the method returns a + b for all operands and every budget above six |
| AddReduction.AddPipeline | relativist-core/src/encoding/arithmetic.rs:480-492 | The reduction loop makes exactly six interactions on the add net; then the root is found, the net decodes to a + b and denotes exactly that numeral |
| AddReduction.AddAnyOrder | relativist-core/src/encoding/arithmetic.rs:197-220 | In every order of reduction the add net is at a normal form if and only if six interactions were made, and there it denotes the numeral a + b |
| Contraction.RunContracts | relativist-core/src/reduction/rules.rs:71-135 | Where only matched constructors face each other, every run leaves the original wires followed through the agents that are gone, two for each interaction |
| Arithmetic.MulComputes | relativist-core/src/encoding/arithmetic.rs:295-314 | What the mul net denotes reduces to the numeral a * b |
| Arithmetic.ExpComputes | relativist-core/src/encoding/arithmetic.rs:403-467 | What the exp net denotes reduces to the power for positive exponents, and to no numeral for exponent zero |
| Arithmetic.PowerComputes | relativist-core/src/encoding/arithmetic.rs:403-411 | With the special case the builder is right for every exponent |
| Arithmetic.BuildSumOfSquares | relativist-core/src/encoding/arithmetic.rs:348-373 | The fold loop produces the specified net |
| Arithmetic.SumComputes | relativist-core/src/encoding/arithmetic.rs:348-373 | For n >= 2 the net is fully wired with one interface port and n - 1 redexes, and denotes n(n+1)(2n+1)/6 |
| RootDiscovery.DiscoverRoot | relativist-core/src/encoding/arithmetic.rs:46-76 | The scan picks the first labelled constructor, else the only open one, and disconnects it; otherwise nothing changes |
| RootDiscovery.RootFound | relativist-core/src/encoding/arithmetic.rs:34-76 | On a closed result net the constructor at the interface is found and denotes there what the net denoted |
| RootDiscovery.RootExact | relativist-core/src/encoding/arithmetic.rs:46-76 | Over every net, for each outcome: a labelled constructor is chosen if and only if it is the first in id order with at most one open one before it, an open one if and only if it is the only one and none is labelled, nobody if and only if there is neither, and the search is ambiguous if and only if two open ones come before any labelled one |
| RootDiscovery.HiddenLabel | relativist-core/src/encoding/arithmetic.rs:59-64 | A net whose labelled constructor is not found |
| Decoding.DecodeNat | relativist-core/src/encoding/church.rs:172-259 | On every well-formed net the walk ends, and returns k exactly when the chain between the two lambdas has k applications |
| Decoding.ChainDistinct | relativist-core/src/encoding/arithmetic.rs:527-548 | On a symmetric net the port-1-in, port-2-out walk never meets an application twice |
| DecodingExact.RoundTrip | relativist-core/src/encoding/church.rs:39-259 | Decoding an encoded number gives it back |
| DecodingExact.DecodeExact | relativist-core/src/encoding/church.rs:163-259 | A net that decodes to k denotes the numeral k exactly when every application applies the outer variable |
| DecodingExact.DecodesStray | relativist-core/src/encoding/church.rs:163-259 | A well-formed net that decodes to 1 and is not the numeral 1 |
| SharedDecoding.DecodeSharedChain | relativist-core/src/encoding/arithmetic.rs:499-549 | On every symmetric net the unbounded loop ends; the result is the chain length at the variable, or length times multiplier at a duplicator, at most 1001 times the number of agents |
| SharedDecoding.FollowThroughDupAux | relativist-core/src/encoding/arithmetic.rs:552-568 | The bounded loop equals the recursive walk through duplicators |
| SharedDecoding.CountDupBoundaryMultiplier | relativist-core/src/encoding/arithmetic.rs:616-640 | The bounded loop returns k exactly if such a path of k - 1 duplicators leads to the variable |
| SharedDecoding.MultiplierBound | relativist-core/src/encoding/arithmetic.rs:616-640 | The multiplier is between 2 and 1001 |
| SharedDecoding.MultiplierExact | relativist-core/src/encoding/arithmetic.rs:611-640 | Told on wires and agents alone: the count is k if and only if a path of k - 1 <= 1000 duplicators leads from the first to one with a branch at the variable, none before it having one, each entered from the one before along its first branch that leads to a duplicator |
| SharedDecoding.SharesExactly | relativist-core/src/encoding/arithmetic.rs:499-568 | The whole decoder, told the same way: it returns k if and only if two lambdas, a path of fewer than 1000 copies and a chain of applications are there, and k is the chain's length, at a boundary times the duplicators of its path plus one |
| SharedDecoding.NoOverflow | relativist-core/src/encoding/arithmetic.rs:540-544 | With 32-bit ids the product fits 64 bits |
| SharedExact.SharedExact | relativist-core/src/encoding/arithmetic.rs:499-568 | A decoded number is the numeral the net denotes if and only if the walk ended at the inner variable and each application applies the outer one; whenever the net denotes a numeral it is the number decoded |
| SharedExact.BoundaryDenotesNothing | relativist-core/src/encoding/arithmetic.rs:536-548 | Whenever the multiplier is used, the net denotes no term at all |
| SharedExact.DecodesUndenoted | relativist-core/src/encoding/arithmetic.rs:499-549 | A well-formed net that decodes to 2 and denotes no term |
| Coordinator.CoordinatorContext.Transition | relativist-core/src/coordinator.rs:468-727 | The object's new state and its actions are those of the step function, arm by arm |
| CoordinatorRuns.CoordinatorRun | relativist-core/src/coordinator.rs:468-727 | Over every event sequence: the logged transitions form an unbroken path, the collect timer runs exactly while results are awaited, received equals buffered, every merge gets one partition per worker, one split per round, at most one output |
| CoordinatorRuns.NothingAfterOutput | relativist-core/src/coordinator.rs:585-600 | After output there is no split, dispatch, merge or output |
| CoordinatorRuns.OutputIsNormalForm | relativist-core/src/coordinator.rs:573-600 | Output is written only for a merge that reported a normal form, and is that merge's net |
| CoordinatorGate.WaitsForWorkers | relativist-core/src/coordinator.rs:474-500 | Over every run without a fatal error in which fewer than max(minWorkers, 1) connections came after the configuration: nothing is split, assigned, merged or output, and state and count are those of the event list |
| CoordinatorGate.QuorumStarts | relativist-core/src/coordinator.rs:483-497 | The max(minWorkers, 1)-th such connection starts round 0 with exactly that many workers and, with a net loaded, asks for exactly its split among them |
| CoordinatorGate.NoEarlyWork | relativist-core/src/coordinator.rs:483-497 | In every run, fatal errors included, any split, assignment, merge or output comes after the configuration and that many connections |
| CoordinatorGate.OverIsAnnounced | relativist-core/src/coordinator.rs:573-627 | Over every run the shutdown was announced if and only if the run is over, and after a fatal error it is |
| CoordinatorGate.StepStops | relativist-core/src/coordinator.rs:573-627 | A step announces the shutdown exactly if it ends the run or hears of a fatal error; a timeout while results are awaited ends it |
| CoordinatorGate.MergeDecides | relativist-core/src/coordinator.rs:573-614 | After every run that is merging, a normal form is output and ends the run; any other net is split again among as many workers, as the next round |
| CoordinatorGate.NewsIgnored | relativist-core/src/coordinator.rs:628-727 | Leaving the membership news out of any run changes neither the context nor the work requested |
| CoordinatorGate.NewsStep | relativist-core/src/coordinator.rs:628-727 | During a round, and only then, such news is queued or logged |
| Worker.WorkerContext.Transition | relativist-core/src/worker.rs:166-268 | The object's new state and its actions are those of the step function |
| WorkerRuns.StateExactly | relativist-core/src/worker.rs:166-268 | After any list of events, the state is that of the last event that was due, and what was done is one result for each due completion, one error for each due failure, one close for a due shutdown and one self-shutdown for each lost connection |
| WorkerRuns.LostIsFinal | relativist-core/src/worker.rs:249-257 | Once the connection is lost the worker has failed for good |
| WorkerRuns.ServesRounds | relativist-core/src/worker.rs:176-223 | A worker serves any number of rounds, sends each result once and in order, and is idle again after each |
| Bsp.OnePlaceEach | relativist-core/src/coordinator.rs:507-614 | In every run of the grid, during a round each worker's partition is in exactly one place and belongs to this round and split; between rounds nothing is in flight |
| Bsp.MergeIsWhole | relativist-core/src/coordinator.rs:543-567 | What is merged is one partition from each of the K workers, each the reduction of the one cut for it, with nothing left over, although the coordinator only counts |
| Bsp.NeverStuck | relativist-core/src/worker.rs:176-223 | While results are awaited and nothing was lost, some worker can still move |
| BspLiveness.NothingLost | relativist-core/src/worker.rs:176-223 | In every run in which each node is told that its result is sent before its next partition arrives, and results are collected once the dispatch is complete, no message is ever lost, in any round |
| BspLiveness.LossExactly | relativist-core/src/worker.rs:166-268 | A step loses a message if and only if it delivers to a node that is not idle, collects while no results are awaited, or a reduction fails |
| BspLiveness.RoundCompletes | relativist-core/src/coordinator.rs:543-567 | From every state of such a run in which results are awaited, if every partition has a reduct, some such continuation collects all results and asks for the merge |
| Commutation.ApplyPendingCommutation | relativist-core/src/worker.rs:338-492 | Net, error and echo are those of the specification; any error leaves the response buffer untouched |
| Commutation.RequestExact | relativist-core/src/worker.rs:354-459 | A request succeeds exactly when it has symbols, distinct in-range sources and legal targets |
| Commutation.FaultBlamed | relativist-core/src/worker.rs:338-459 | A request fails with a given error if and only if that is due: nothing to mint, else the first source named twice, else the first bad hint, for its slot, its port or its target, in that order |
| Commutation.FulfilGood | relativist-core/src/worker.rs:360-459 | Success leaves every named port where its last hint leads and every other port alone |
| Commutation.FulfilBad | relativist-core/src/worker.rs:354-385 | Zero arity changes nothing; a duplicate source changes no wire and queues nothing, with or without recycled ids |
| Commutation.MintAgents | relativist-core/src/worker.rs:360-366 | One new agent per slot with the requested symbol, all different, nothing else changed, with or without recycling |
| Commutation.MintConsecutive | relativist-core/src/worker.rs:360-366 | Minted ids are consecutive from the counter exactly when nothing can be recycled |
| Commutation.MintForRound | relativist-core/src/worker.rs:599-641 | The loop over a round's requests, with its range guard, computes the specification |
| RoundMinting.RoundExact | relativist-core/src/worker.rs:599-641 | With or without recycling, a round is fulfilled if and only if each request is good and finds the counter, moved by the slots asked for before it beyond those served from freed ids, inside the range; the counter then depends on the slots alone |
| RoundMinting.RoundExactFresh | relativist-core/src/worker.rs:599-641 | Without recycling the condition is on the plain sum of slots |
| RoundMinting.RoundBound | relativist-core/src/worker.rs:599-641 | The counter passes the end of the range by less than the largest request, errors and recycling included |
| RoundMinting.RoundConsecutive | relativist-core/src/worker.rs:599-641 | The ids of a round are consecutive from the counter if and only if nothing can be recycled or nothing is minted |
| RoundMinting.RoundDistinct | relativist-core/src/worker.rs:599-641 | All ids of a round are new, live afterwards and pairwise different, with recycling |
| RoundMinting.RoundAnswered | relativist-core/src/worker.rs:461-489 | A fulfilled round answers every slot of every request, in order and with its name, by a live agent of the requested symbol, and answers nothing else |
| RoundMinting.AnsweredOnce | relativist-core/src/worker.rs:461-489 | If the slots asked for have different names, each name is answered once |
| RoundMinting.RoundFulfils | relativist-core/src/worker.rs:599-641 | A round leaves what its requests leave one after the other, up to the first that is bad or finds the range used up; the error blames that request, and a bad one has minted |
| RoundMinting.FailsOnce | relativist-core/src/worker.rs:599-641 | No other request and no other error could have been blamed |
| RoundMinting.SingleSlotsStay | relativist-core/src/worker.rs:599-641 | Single-slot requests never pass the end of the range, recycling included |
| Commutation.OvershootReached | relativist-core/src/worker.rs:599-620 | The overshoot bound is reached |
| RoundMinting.DisjointRanges | relativist-core/src/worker.rs:599-641 | Workers whose ranges and free ids are apart and whose requests fit mint disjoint ids, recycling included |
| DeltaWorker.ComputeOutgoingDeltas | relativist-core/src/merge/helpers.rs:237-263 | The two walks emit exactly one entry per changed, new or vanished border |
| DeltaWorker.DiffReplays | relativist-core/src/merge/helpers.rs:214-263 | Replaying a diff turns the old borders into the new ones |
| DeltaWorker.DeltaContext.HandleInitialPartition | relativist-core/src/worker.rs:283-300 | The partition is stored with its index as the baseline |
| DeltaWorker.DeltaContext.HandleRoundStart | relativist-core/src/worker.rs:530-700 | One round: orders, requests, reduction, scan, diff, report; a failing round reports no result |
| DeltaWorker.DeltaContext.HandleFinalStateRequest | relativist-core/src/worker.rs:724-743 | The partition is handed over and given up |
| DeltaWorker.ReplayTracksWorker | relativist-core/src/worker.rs:530-743 | Over every run, failed rounds included, replaying the reported deltas reproduces the last reported index, and a worker in a delta state holds its partition |
| DeltaWorker.RoundOutcome | relativist-core/src/worker.rs:599-690 | A round reports a result if and only if each request is good and finds the stored partition's counter inside the range; otherwise the baseline stays |
| DeltaWorker.ApplyBorderDeltas | relativist-core/src/merge/helpers.rs:143-217 | The three loops over border orders |
| DeltaWorker.ObeyOrders | relativist-core/src/worker.rs:562-597 | Those loops, then the loop over the reconnections, compute what the next rows are about |
| RoundOrders.BordersAfter | relativist-core/src/merge/helpers.rs:143-217 | Of a round's orders the last one naming a border decides it: a new border, or a delta not followed by a resolution, gives its target; a resolved or disconnected border is absent; an unnamed one keeps its entry |
| RoundOrders.PortsAfter | relativist-core/src/worker.rs:562-597 | Each port in the arena ends where the last order that writes it leads, and a port no order writes keeps its target |
| RoundOrders.EndReleased | relativist-core/src/merge/helpers.rs:143-217 | The old local end of a border that is resolved or moved is disconnected unless a later order writes it |
| RoundOrders.QueueAfter | relativist-core/src/worker.rs:577-597 | The redex queue grows by exactly the principal pairs ordered, in order |
| RoundOrders.BorderEndAfter | relativist-core/src/merge/helpers.rs:186-217 | The border range ends at the least bound above its old end and the new borders |
| RoundReports.RoundReports | relativist-core/src/worker.rs:530-700 | A whole round, told from its orders and requests: if the requests fit, the orders are obeyed, the requests fulfilled, the net reduced and scanned, and the result answers every slot, tells exactly the borders that changed and says whether one is at a principal port; otherwise the first bad request is blamed, what was done stays and the baseline does not move |
| RoundReports.HoldsGiven | relativist-core/src/worker.rs:283-743 | Over every run the worker holds the partition it was given last until that is asked back, with the same id range and first border after any rounds, failed ones included, and unchanged before the first |
| RoundReports.HandsOver | relativist-core/src/worker.rs:724-743 | What it hands over on request is that partition |
| Pull.CoordinatorPullContext.TryTransition | relativist-core/src/coordinator.rs:1056-1134 | The object's new state and verdict are those of the step function |
| Pull.CoordinatorPullContext.TryTransitionRequestWork | relativist-core/src/coordinator.rs:1040-1054 | An identity mismatch is rejected and changes nothing |
| Pull.PullRun | relativist-core/src/coordinator.rs:1056-1134 | Over every run: chunks sent are one plus requests served minus one still generating; at most one merge, consuming exactly the accepted results |
| Pull.RequestAnswered | relativist-core/src/coordinator.rs:1078-1089 | Over every run, a request accepted while results are awaited leads to the next chunk if the stream was not dry before it, and to no more work if it was |
| Pull.WindingExactly | relativist-core/src/coordinator.rs:1078-1089 | The coordinator is winding up if and only if some such request came after the stream was dry |
| Pull.WindingStarts | relativist-core/src/coordinator.rs:1078-1089 | It does so from the first such request on, and not before |
| Pull.ChunkBeforeDry | relativist-core/src/coordinator.rs:1090-1095 | Every chunk sent out after the first answers a request that came before the stream was dry |
| Pull.ResultsBuffered | relativist-core/src/coordinator.rs:1067-1076 | Exactly the results delivered while results were awaited are buffered, in order, and merged in the end |
| Pull.WindingStages | relativist-core/src/coordinator.rs:1096-1111 | From there the stage is that of the deliveries alone: acknowledged once all workers acknowledged, merging once the final results came after that |
| Pull.NothingAfterNoMoreWork | relativist-core/src/coordinator.rs:1086-1112 | Once there is no more work nothing is dispatched or buffered |
| Pull.WorkerPullContext.TryTransition | relativist-core/src/worker.rs:842-912 | The object's new state and verdict are those of the step function |
| Pull.WorkerPullContext.TryTransitionWithNet | relativist-core/src/worker.rs:928-947 | The net's streaming flag follows the worker's; its delta flag is untouched |
| Pull.FlagsAgree | relativist-core/src/worker.rs:928-974 | Over every run the two streaming flags agree and the delta flag never moves |
| Pull.RequestsCounted | relativist-core/src/worker.rs:842-912 | Over every run of a worker the work requests counted are exactly the chunk completions delivered before the no-more-work message |
| Pull.StreamingExactly | relativist-core/src/worker.rs:842-912 | And the streaming flag holds exactly between an assignment and the first final completion |
| Pull.RejectedIgnored | relativist-core/src/coordinator.rs:1040-1134 | Over every run, leaving out the rejected inputs gives the same context and the same log |
| Pull.FinalsCounted | relativist-core/src/worker.rs:842-912 | Over every run the final results counted are exactly the completions delivered after the no-more-work message |
| Pull.AtMostOneFinal | relativist-core/src/worker.rs:883-896 | There is at most one final result if and only if at most one such completion is delivered |
| Pull.FinalResultRepeats | relativist-core/src/worker.rs:883-896 | An instance with two |

## Left out

- Split, merge, the border graph and the border resolver: in the grid model split is any operation that cuts one numbered partition per worker, merge any operation that consumes what it is handed, and local reduction any relation.
- `reduce_all`: it may not terminate; the bounded loop is modelled for every budget, and `LoopComputes` says which budgets reach the normal form.
- `reduce_border_once`: it would repeat the loop with more flags.
- Reducer.NetCell.RemoveAgent: does not model ids protected by a border, which are kept off the free list.
- Reducer.NetCell.CreateAgent: does not model the border-protected recycling strategy.
- Reducer.NetCell.ReduceN: counts the four kinds of rules, not the six pairs of symbols.
- That reducing the product and power nets follows beta reduction of the terms they denote: for sums the whole pipeline is proved (`ComputeAdd`); for the others the builders are proved to denote the right terms and the terms to reduce to the right numerals, but not the interaction net simulation in between.
- Reducer.NetCell.Connect: does not record links between two interface labels (`freeport_redirects`); connecting two labels changes nothing in the model.
- Ports with an index of three or more, which alias the next slot of the flat port array, and the panics when ids or numerals exceed their limits.
- Builders.EncodeChurchInto: does not model recycled ids (nor do the other builders), because the source only ever builds on fresh nets; the ids of the applications and duplicators are taken as consecutive rather than stored in lists.
- Commutation.ApplyPendingCommutation: takes request ids as a pair of commutation and slot and assumes at most 16 slots, because their bit layout is not modelled.
- DeltaWorker.DeltaContext.HandleRoundStart: takes local reduction and the index scan as arbitrary functions (so does `RoundReports`), and requires a delta state as the source's debug assertions do.
- AssemblerResult.AssembledNet: is stated for streams that name each port once and introduce each agent once; streams that overwrite a port depend on the order of their directives.
- The eraser-pair stream and the id-monotonicity wrapper of the streaming module, which would only add easy members.
- Hybrid and elastic coordinator states, timers, sockets, logging, statistics, files and command line.
