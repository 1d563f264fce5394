# Two tape-machine compilers, modelled and proved

This project models the compilers of the repository - PM-1, a Post-style machine with one tape, and
TM-1, a Turing machine with several - in Dafny, and proves what their transformations promise.

Run `dafny verify dfyconfig.toml` in this directory.

How the files go together:

- `Simulation`, `Graphs`, `FiniteSets`, `Options`, `LineEmitter`, `FreshNames`: what the rest share. A
  stuttering simulation with a rank is the tool for every "behaves the same" theorem.
- `PmMachine`, `PmSyntax`, `PmIr`, `PmLowering`, `PmListing`, `PmCodegen`, `PmEmission`, `PmCompiler`:
  PM-1 statements to control-flow graphs to a listing with elided jumps; two simulations and their
  composition. `PmTrace` says which source line every emitted line stands on and what is elided.
- `PmGreen`, `PmGrammar`, `PmParser`: the error-recovering parser and its green sink. `PmGrammar` is
  the walk that stops at its first error; the class in `PmParser` is the parser in both modes.
- `PmLanguage`, `PmTree`, `PmBodies`, `PmAccept`, `PmBlame`: the language itself, as syntax trees with
  their rules, their spelling and their green nodes; the walk accepts exactly the spellings of legal
  programs, builds their trees, and its errors point at what they speak of.
- `PmFlatten`, `PmScopes`, `PmMerge`: name mangling, call resolution and reachability, and what a name
  means where it stands; merging the two build columns.
- `TmRules`, `TmSplice`, `TmStraight`, `TmMaps`, `TmBands`, `TmBandSplice`: TM-1 rules, graft splicing
  through symbol maps and its one exemption, which maps are legal, row bands, and how banding and
  splicing interact.
- `TmAlphabets`, `TmBindings`: alphabet resolution and the check of a graft's arguments, which give
  splicing what it asks for.
- `TmLexer`, `TmLexErrors`: the lexer's cursor and both modes, against a declarative layout of the source;
  where and why it fails.
- `TmRanges`, `TmMeaning`, `TmCalls`, `TmDeadRules`: pattern ranges and write folds, what a written rule
  reads and writes in the language's own terms, call records, and what dropping dead rules does.
- `TmGraftGraph`, `TmGraftKey`, `TmGrafts`, `TmHygiene`, `TmExpand`: the graft-dependency graph,
  instance keys, expansion with and without a memo, and name hygiene.
- `TmSharing`, `TmRuns`, `TmModes`, `TmDeep`, `TmOwnTapes`: whole runs of an expanded world - against
  the machine that keeps its grafts apart (`TmRuns` one level, `TmDeep` all of them), and a graft's run
  against its graph's own.
- `TmMachine`, `TmIr`, `TmListing`, `TmCodegen`, `TmEmission`, `TmProgram`: TM-1 state graphs to match
  tables, dispatch tables, branches and blocks, and the proof that the listing runs as the graphs do.
- `TmInside`, `TmLowering`, `TmCompiler`: rows stay inside the alphabets, expanded worlds lower to the
  intermediate representation, and the compiler from resolved worlds to the listing.
- `TmWritten`, `TmStep`, `TmSource`: what a state's rules mean as they are written, one step of a written
  program, and the compiler end to end from written worlds, its listing behaving as the program means.
- `TmTrace`: the source line of every row, block and line of the listing, its headings, what is elided.
- `LineIndex`, `SourcePaths`: the debugger's address and line index, and lexical paths.

Where the code and its comments differ, the model follows the code. Some results are negative and
exact: between alphabets of one size an accepted map reads back every written symbol if and only if
no one-way pair really renames (`TmMaps.EqualReadsBackExactly`), and on a host with a tape the graph
does not bind, banding keeps the graph's own choice if and only if no partial rule stands before an
exact one it overlaps (`TmBandSplice.WideHostAgrees`), so that over whole runs a graft follows its
graph for all tapes under exactly that condition (`TmOwnTapes.FollowsExactly`); a state without
rules shows its missing match as an unmapped read if and only if its alphabets leave no room for a
sentinel row (`TmEmission.EmptyMatched`); dropping dead rules accepts a world that would not expand
if and only if a dropped rule is what fails (`TmDeadRules.ExpandsIff`); and a stored path leads
elsewhere if and only if its directory goes up below the part it shares with the source, which no
rooted directory does (`SourcePaths.RoundTrip`).

## Model

| member | source | states |
|---|---|---|
| TmSplice.SplicePreservesMeaning | crates/turing-machine/src/expand.rs:288-450 | for every arity, map, tape placement and in-range host tuple, source-order first match over the spliced rows equals reading the tuple through the maps (a hole traps unless the state does not look), taking the graph's first matching rule and carrying its action back (a hole traps) |
| TmSplice.SymbolsPartition | crates/turing-machine/src/expand.rs:222-256 | every host symbol is a read hole or lies in exactly one preimage, and preimages are of graph symbols only |
| TmSplice.InCartesian | crates/turing-machine/src/expand.rs:303-319 | the row product holds exactly the combinations with one alternative for every position |
| TmSplice.RowsMatch | crates/turing-machine/src/expand.rs:343-412 | some host row of a rule matches a tuple exactly when the rule's pattern, read through the maps, does; a cell without preimage leaves no row |
| TmSplice.MapRuleOutcome | crates/turing-machine/src/expand.rs:343-412 | the rows of one rule all act as the rule carried back, or trap together when a write has no host symbol |
| TmSplice.TrapRowsMatch | crates/turing-machine/src/expand.rs:321-341 | the trap rows fire exactly on tuples that hold a read hole on some bound tape |
| TmSplice.MapRulesOutcome | crates/turing-machine/src/expand.rs:414-450 | first match over all mapped rows is the first rule whose pattern reads as the tuple |
| TmSplice.CartesianProduct | crates/turing-machine/src/expand.rs:303-319 | the in-place product loop computes the specified product, last position fastest |
| TmSplice.ProjectAction | crates/turing-machine/src/expand.rs:343-412 | the write and move vectors, and whether some write is a hole, as specified |
| TmSplice.MapRuleRows | crates/turing-machine/src/expand.rs:343-412 | computes exactly the rule's host rows, none when a cell is dead |
| TmSplice.SpliceState | crates/turing-machine/src/expand.rs:414-450 | computes the spliced state, whose rows fire for every tuple as TmSplice.SplicePreservesMeaning and TmStraight say: read traps unless its one rule reads nothing, then mapped rows; lists the rules with no row |
| TmMaps.BuildTapeMap | crates/turing-machine/src/expand.rs:915-1026 | accepts exactly the legal pair lists and builds the read and write maps they describe; otherwise the error is the first faulty pair's, in the order of the checks, or the first collision |
| TmMaps.BlankPinned | crates/turing-machine/src/expand.rs:915-1026 | every accepted map reads and writes blank as blank |
| TmMaps.ReadsExactly | crates/turing-machine/src/expand.rs:915-1026 | what each host symbol reads as, from the pairs alone |
| TmMaps.WritesExactly | crates/turing-machine/src/expand.rs:915-1026 | what each graph symbol writes as, from the pairs alone |
| TmMaps.UnequalReadsBack | crates/turing-machine/src/expand.rs:901-1026 | between alphabets of different sizes a symbol that can be written always reads back as itself |
| TmMaps.EqualReadsBackExactly | crates/turing-machine/src/expand.rs:915-1026 | between alphabets of one size every written symbol reads back as itself if and only if no one-way pair really renames |
| TmMaps.RealOneWayBreaks | crates/turing-machine/src/expand.rs:915-1026 | a renaming one-way pair between equal sizes is an accepted map with a symbol that does not read back |
| TmMaps.EqualBijective | crates/turing-machine/src/expand.rs:915-1026 | with two-way pairs only, the read and write images of equal alphabets are mutually inverse bijections |
| TmMaps.TwoWayBalanced | crates/turing-machine/src/expand.rs:970-1026 | accepted two-way pairs between equal sizes permute the symbols they name |
| TmMaps.OneWayExample | crates/turing-machine/src/expand.rs:915-1026 | a concrete accepted map that reads back a different symbol |
| TmMaps.CloseUnlisted | crates/turing-machine/src/expand.rs:901-913 | closing a map makes every unlisted non-blank source below the cardinality a hole, and nothing else |
| TmMaps.InsertsClash | crates/turing-machine/src/expand.rs:873-893 | inserting a pair fails exactly when an earlier pair gives its source another image, or, written back, its image another source |
| TmMaps.NoPairError | crates/turing-machine/src/expand.rs:943-980 | a pair that passes its checks keeps the whole list consistent and blank pinned |
| TmMaps.FindCollision | crates/turing-machine/src/expand.rs:1003-1016 | names the image the first colliding source shares with an earlier one, exactly when completion by identity is not injective |
| TmBands.ComputeRowOrder | crates/turing-machine/src/codegen.rs:301-316 | computes exact rows sorted, then partial, then catch-all rows in source order |
| TmBands.OrderIsPermutation | crates/turing-machine/src/codegen.rs:301-316 | the emitted order lists every rule exactly once |
| TmBands.OrderDisciplined | crates/turing-machine/src/codegen.rs:301-316 | the emitted table keeps the assembler's discipline: exact rows ascending and pairwise different, partial rows in source order, catch-alls last |
| TmBands.BandOrderSound | crates/turing-machine/src/codegen.rs:301-316 | when the row check accepts, the emitted order picks the unique matching exact row, else the first partial, else the first catch-all |
| TmBands.CheckStateRows | crates/turing-machine/src/expand.rs:1505-1542 | accepts exactly when no two exact rows are equal, and reports exactly the rows an equal earlier wildcard row shadows |
| TmBandSplice.BandedSplice | crates/turing-machine/src/expand.rs:414-450 | banding after splicing picks among the graph's own rules by band when the graph covers the host, and by first non-catch-all rule when it does not |
| TmBandSplice.EmittedSplice | crates/turing-machine/src/codegen.rs:301-316 | the rows of a spliced state in emitted order do that, once the row check accepts them |
| TmBandSplice.WideHostAgrees | crates/turing-machine/src/codegen.rs:301-316 | on a host with an unbound tape the two choices agree on every visible tuple if and only if no partial rule stands before an exact one, the first of its pattern, that it overlaps |
| TmBandSplice.InvertedMisleads | crates/turing-machine/src/codegen.rs:301-316 | such a pair is told apart by the exact rule's own tuple |
| TmBandSplice.PartialFirstInverted | crates/turing-machine/src/codegen.rs:301-316 | rows [1,*] then [1,2] on two of three tapes are such a pair |
| TmBandSplice.WideHostExample | crates/turing-machine/src/codegen.rs:301-316 | rows [1,*] then [1,2] on a wider host: the graph alone takes the exact row, the host the partial one |
| TmRanges.ExpansionExact | crates/turing-machine/src/expand.rs:608-687 | on every tuple of the alphabets at most one expanded row matches, one does iff the source pattern accepts the tuple, and its write is the source write folded over the tuple's own bindings |
| TmRanges.ProductExact | crates/turing-machine/src/expand.rs:621-637 | the rows list every combination of alternatives once, in lexicographic order with the leftmost tape slowest |
| TmRanges.OneAlternative | crates/turing-machine/src/expand.rs:570-603 | of a cell's alternatives exactly one can match a symbol, and one does iff the cell denotes the symbol's glyph; absent members drop |
| TmRanges.FoldExact | crates/turing-machine/src/expand.rs:806-855 | evaluation succeeds if and only if every intermediate fits 64 bits, no modulus is zero and no negative remainder arises, and then returns the integer meaning with Euclidean remainder |
| TmRanges.WrappingDecrement | crates/turing-machine/src/expand.rs:838-850 | the hinted {(v+N-1)%N} is the decrement that wraps at zero, for 0 <= v, N > 0 without overflow |
| TmRanges.ExpandRule | crates/turing-machine/src/expand.rs:608-687 | the rows of the rule or the first error, and warns exactly of no rows and of more than 256 |
| TmRanges.Multiply | crates/turing-machine/src/expand.rs:625-637 | the product loop computes the specified product |
| TmGraftGraph.CheckAcyclicity | crates/turing-machine/src/expand.rs:1115-1155 | the three-colour search accepts exactly the acyclic graft graphs, and then every graph ranks above those it grafts |
| TmGraftGraph.Search | crates/turing-machine/src/expand.rs:1126-1155 | one search: fails only on a real cycle, otherwise blackens the graph after everything it grafts |
| TmGraftGraph.RankedIsAcyclic | crates/turing-machine/src/expand.rs:1108-1155 | a graph with a falling rank has no cycle |
| TmGraftKey.KeyInjective | crates/turing-machine/src/expand.rs:193-277 | equal dedup keys imply equal target, equal binding and equal continuations |
| TmGraftKey.CompositeKeyPrefix | crates/turing-machine/src/expand.rs:264-277 | the binding's byte key determines the binding, whatever follows it |
| TmGraftKey.ContKeyInjective | crates/turing-machine/src/expand.rs:1084-1106 | the continuation key determines the continuations, in any order |
| FreshNames.Fresh | crates/turing-machine/src/expand.rs:1184-1196 | ends, and returns the base or its first free numbered candidate, unused before |
| FreshNames.CandidatesUsed | crates/turing-machine/src/expand.rs:1184-1196 | candidates are distinct, so among one more than the used names one is free |
| TmGrafts.ExpandGraphMemo | crates/turing-machine/src/expand.rs:1404-1435 | the remembered expansion of a graph is the expansion without a memo, and recursion ends along the rank |
| TmGrafts.ExpandGraftsInto | crates/turing-machine/src/expand.rs:1282-1376 | splices every instance in order: identical ones alias the first, a graph with a call is refused |
| TmGrafts.AddInstance | crates/turing-machine/src/expand.rs:1307-1373 | one instance's names, alias or states, dedup entry and entry state |
| TmHygiene.GraphHygienic | crates/turing-machine/src/expand.rs:1404-1478 | every expanded graph has distinct state names, its entry among them, and every target is a present state or a state parameter |
| TmHygiene.GraftsKept | crates/turing-machine/src/expand.rs:1282-1376 | what holds after each instance: names apart, aliases lead to spliced instances, every name accounted for |
| TmHygiene.NamingSound | crates/turing-machine/src/expand.rs:1330-1340 | host names of an instance are pairwise distinct, and all but the instance's own were unused |
| TmHygiene.OneStep | crates/turing-machine/src/expand.rs:1455-1478 | one alias step reaches a spliced state that is itself no alias |
| TmHygiene.FinishHygienic | crates/turing-machine/src/expand.rs:1439-1478 | rewriting targets through the aliases leaves a hygienic world |
| TmHygiene.SplicedFacts | crates/turing-machine/src/expand.rs:1330-1366 | a fresh instance's states are as wide as the host, apart, and closed over their own and the host's names |
| TmExpand.Expand | crates/turing-machine/src/expand.rs:1550-1615 | fails exactly on a cyclic graft graph, or at the first world with a call in a grafted graph or two identical exact rows in a state; otherwise every world comes out as specified and hygienic |
| TmExpand.CheckRows | crates/turing-machine/src/expand.rs:1505-1542 | refuses exactly the expansions with two identical exact rows in a state, and names it |
| TmExpand.InstanceMeaning | crates/turing-machine/src/expand.rs:1350-1366 | each state of an instance does on the host's tapes what the graph's state does through the maps, with its target in host terms, choosing by bands and in source order alike |
| TmSharing.GraftsRealised | crates/turing-machine/src/expand.rs:1284-1365 | after expansion every graft is realised by one splice, its own or an identical earlier graft's, and its name, alias or not, stands for that splice's entry |
| TmSharing.TwinsAlike | crates/turing-machine/src/expand.rs:1308-1327 | grafts with one key graft the same graph through the same maps and continue every state parameter alike |
| TmRuns.TwinsSplice | crates/turing-machine/src/expand.rs:1308-1365 | two grafts with one key splice a state to rows that choose, by bands, and act alike, and go to the same place unless it is another state of the graph, where each goes to its own |
| TmRuns.ExpansionRunsAsLayers | crates/turing-machine/src/expand.rs:1284-1365 | whole runs, states choosing by bands: the expanded world, with identical instances shared, names made up and aliases resolved, ends or diverges exactly as the machine that keeps the world's own grafts apart and walks each one's graph, itself expanded, through its own maps until it leaves by a continuation (one level; TmDeep.DeepRunsAsExpansion is for all) |
| TmDeep.DeepRunsAsExpansion | crates/turing-machine/src/expand.rs:1284-1478 | whole runs through nested grafts: the expanded world ends or diverges exactly as the machine that keeps a stack of grafts, reads the tapes through all their maps in turn, takes what the innermost own state takes - by bands, or widely below a graft that leaves a tape unbound - and carries it back out; no graft is spliced, named or shared at any depth |
| TmDeep.DeepActs | crates/turing-machine/src/expand.rs:1404-1435 | the state that a place at any depth stands for, through the names of every splice on the way, looks at its tapes and acts exactly as the place does, for every tuple of the alphabets |
| TmDeep.NestedLeads | crates/turing-machine/src/expand.rs:1330-1365 | a transition of an own state leads, out through a graft's continuations and the host's instances, to what the renamed and alias-resolved transition of the spliced state leads to |
| TmDeep.WorldEnters | crates/turing-machine/src/expand.rs:1439-1453 | a world's entry, through entry grafts down to an own state, stands for the expanded world's entry |
| TmModes.ModeSplice | crates/turing-machine/src/expand.rs:414-450 | a spliced state's rows, chosen by bands or widely, do what the graph's own choice does - widely as soon as a graft leaves a host tape unbound - carried back and renamed |
| TmModes.SplicePatterns | crates/turing-machine/src/expand.rs:330-450 | whether a spliced state looks at its tapes depends on the graph state's patterns alone |
| TmBandSplice.WideSplice | crates/turing-machine/src/expand.rs:330-450 | splicing keeps the wide choice: where rows are picked by the first that is not a catch-all, so are the graph's rules |
| TmRuns.InsideMatched | crates/turing-machine/src/expand.rs:414-450 | one step inside a graft: the spliced state, choosing by bands, does what the graph's state does through the maps, and goes where the graft says |
| TmRuns.HostArrives | crates/turing-machine/src/expand.rs:1438-1481 | a name of the host leads to the state, instance or state parameter it resolves to |
| TmOwnTapes.GraftRunsAsGraph | crates/turing-machine/src/expand.rs:288-450 | whole runs, both sides choosing by bands: with maps that read back, a graft that covers its host, or whose graph has no inverted pair, does on the host's tapes what its graph does on tapes of its own, step for step, until the graph ends, leaves, or meets a symbol without an image, where the host traps |
| TmOwnTapes.FollowsExactly | crates/turing-machine/src/expand.rs:288-450 | a graft with maps that read back picks its graph's rules for all tapes if and only if it covers its host or no state of the graph has a partial rule before an exact one it overlaps |
| TmOwnTapes.GoesAstray | crates/turing-machine/src/codegen.rs:301-316 | the run that leaves its graph: from the tapes an inverted pair shows, host and graph go to different states where the two rules do |
| TmOwnTapes.ForkGoesAstray | crates/turing-machine/src/codegen.rs:301-316 | a whole world and graft, rows [1,*] then [1,2] on two of three tapes, whose run leaves its graph's |
| TmOwnTapes.InvertedShows | crates/turing-machine/src/codegen.rs:301-316 | an inverted pair on a host with an unbound tape has tapes on which graft and graph pick different rules |
| TmOwnTapes.StepFollows | crates/turing-machine/src/expand.rs:288-450 | one step by bands, where the choice is kept: the host traps exactly on a read or a write without an image, and otherwise follows the graph |
| TmOwnTapes.LegalReadsBack | crates/turing-machine/src/expand.rs:901-1026 | legal maps between different alphabets read back; one between equal sizes does if and only if no one-way pair really renames |
| TmIr.ValidateWorld | crates/turing-machine/src/ir.rs:914-1064 | accepts exactly the valid worlds |
| TmCodegen.BuildWorldPlan | crates/turing-machine/src/codegen.rs:200-267 | plans a world: every state implemented, the entry state first, block labels apart, tables numbered, every destination known |
| TmCodegen.LowerState | crates/turing-machine/src/codegen.rs:216-265 | one state's tables and blocks implement it by its own form |
| TmCodegen.Conditional | crates/turing-machine/src/codegen.rs:322-378 | a table with rows in emitted order and each target leading to its row's rule, threaded through direct rules |
| TmCodegen.BranchState | crates/turing-machine/src/codegen.rs:472-563 | a match-only table, a conditional jump to the selective rule, the catch-all behind the head |
| TmCodegen.ZeroRow | crates/turing-machine/src/codegen.rs:402-460 | a never-matching row when the narrowest alphabet leaves a symbol for one, else a bare trap without a table |
| TmCodegen.CollectPrinted | crates/turing-machine/src/codegen.rs:758-797 | the labels that print |
| TmCodegen.EmitFunc | crates/turing-machine/src/codegen.rs:735-834 | one world's lines: labels, bodies, terminators without jumps to the next block |
| TmCodegen.EmitProgram | crates/turing-machine/src/codegen.rs:158-196 | the whole listing and its line map; worlds planned with table numbers running on |
| TmEmission.CodePreservesBehaviour | crates/turing-machine/src/codegen.rs:200-834 | a world's code ends the same ways with the same data as its state graph, or diverges with it, whatever the called routines do; only a rule-less state may show its missing match as an unmapped read, exactly where no sentinel row fits |
| TmEmission.StepMatched | crates/turing-machine/src/codegen.rs:200-563 | every step of a world is answered by its code; standing still moves to a later block |
| TmEmission.TableSelects | crates/turing-machine/src/codegen.rs:322-378 | the match register selects the row of the rule that band order picks |
| TmEmission.TableMatched | crates/turing-machine/src/codegen.rs:322-378 | read, match and dispatch run the rule that band order picks, or trap without one |
| TmEmission.BranchMatched | crates/turing-machine/src/codegen.rs:472-563 | the branch form runs the same rule |
| TmEmission.EmptyMatched | crates/turing-machine/src/codegen.rs:380-460 | entering a state without rules traps: with a missing match where a sentinel row fits, else as an unmapped read |
| TmEmission.SentinelNeverMatches | crates/turing-machine/src/codegen.rs:380-460 | no tuple of the tapes' alphabets meets the sentinel row |
| TmEmission.StraightMatched | crates/turing-machine/src/codegen.rs:280-290 | a straight-line state runs its rule without matching |
| TmEmission.TransferMatched | crates/turing-machine/src/codegen.rs:624-652 | a rule block's terminator does what the transition does, elided or not |
| TmEmission.LabelAddress | crates/turing-machine/src/codegen.rs:735-834 | a printed label is the address of the one block that has its name |
| TmProgram.DestinationsResolve | crates/turing-machine/src/codegen.rs:735-834 | every jump and every dispatch target goes to a printed label that names exactly one block |
| TmProgram.ListingReads | crates/turing-machine/src/codegen.rs:158-196 | reading the listing back gives all tables and each world's code |
| TmProgram.GeneratorPreservesBehaviour | crates/turing-machine/src/codegen.rs:158-834 | the whole generated listing, from any world's first line, behaves as that world's state graph, up to how a rule-less state's trap shows |
| TmProgram.GeneratorPreservesEndings | crates/turing-machine/src/codegen.rs:158-834 | where every missing match can show as one, the listing ends in exactly the graph's endings |
| TmInside.ExpansionInside | crates/turing-machine/src/expand.rs:330-450 | whatever a grafted graph's rules hold, the expanded rows match and write symbols of the host's tapes only |
| TmInside.OwnInside | crates/turing-machine/src/expand.rs:608-684 | range-expanded rows match and write symbols of their tapes only |
| TmLowering.Lower | crates/turing-machine/src/ir.rs:485-707 | ids, elided vectors, transitions and bindings of a world, or the first target that is no state or call that cannot be bound |
| TmLowering.LoweredGenerable | crates/turing-machine/src/ir.rs:901-1051 | what lowers from an expanded, row-checked world passes the validator and can be generated |
| TmLowering.LoweringPreservesBehaviour | crates/turing-machine/src/ir.rs:485-707 | the lowered world ends the same ways with the same data as the expanded one, or diverges with it |
| TmCompiler.Compile | crates/turing-machine/src/compiler.rs:2242-2274 | from worlds whose own rows are expanded: grafts, lowering, validation, generation; the listing of exactly the specified worlds, or a failure that has its reason; the validator never refuses |
| TmCompiler.CompiledGenerable | crates/turing-machine/src/compiler.rs:2317-2331 | every world that reaches the validator meets all it checks |
| TmCompiler.CompilerPreservesBehaviour | crates/turing-machine/src/compiler.rs:2242-2274 | a world's part of the listing behaves, over whole runs, as the machine that keeps its grafts and theirs apart, for all data inside the alphabets and whatever called routines do; each world has its own call bindings |
| TmWritten.RowsMean | crates/turing-machine/src/expand.rs:608-687 | the rows a state expands to do, chosen by bands or widely, what its rules do as written: the first rule of the band whose pattern denotes the glyphs read, its write folded over what they bind |
| TmWritten.SurvivingRowsMean | crates/turing-machine/src/compiler.rs:1212-1266 | so do the rows of what is left when the rules that can never fire are dropped, against all the rules as written |
| TmSource.CompileProgram | crates/turing-machine/src/compiler.rs:2233-2274 | from written worlds to the listing, dead rules and ranges included: refuses rows exactly when there is no cycle and a needed world's do not expand, and every listing behaves as the program means as it is written |
| TmSource.CompilerPreservesMeaning | crates/turing-machine/src/compiler.rs:2233-2274 | end to end: a world's part of the listing behaves as the machine whose own states, at every depth of grafts, choose among their written rules |
| TmSource.ExpandNeeded | crates/turing-machine/src/expand.rs:1404-1417 | expands the own rows of exactly the graphs that some world grafts, itself or through others; fails exactly when one of them does not expand |
| TmSource.WorldResolved | crates/turing-machine/src/expand.rs:1222-1275 | own states with their rules expanded keep what name resolution established: widths, targets, distinct names |
| TmSource.ProgramChecked | crates/turing-machine/src/compiler.rs:2233-2243 | what name resolution establishes of a written program is all that expansion and lowering ask for |
| PmIr.LowerFunction | crates/post-machine/src/ir.rs:198-423 | lowers a body to the specified graph, failing with the first undeclared label |
| PmIr.FailsExactlyOnUndeclared | crates/post-machine/src/ir.rs:214-240 | lowering fails exactly when some reference names an undeclared label |
| PmIr.LoweredValid | crates/post-machine/src/ir.rs:198-457 | the lowered graph passes validation |
| PmIr.ValidateFunction | crates/post-machine/src/ir.rs:429-457 | accepts exactly graphs with blocks, distinct ids and existing targets |
| PmIr.WarnUnreachable | crates/post-machine/src/ir.rs:384-417 | warns of exactly the blocks no path reaches from the entry |
| PmIr.ReachableIds | crates/post-machine/src/ir.rs:384-417 | the work stack marks exactly the reachable blocks |
| PmIr.FindStarts | crates/post-machine/src/ir.rs:214-245 | marks exactly the statements that start a block |
| PmIr.LowerBody | crates/post-machine/src/ir.rs:246-380 | builds the specified blocks with one shared exit |
| PmLowering.StepMatched | crates/post-machine/src/ir.rs:198-423 | every step of the source statement walk is matched by the graph |
| PmLowering.LoweringPreservesBehaviour | crates/post-machine/src/ir.rs:198-423 | source program and lowered graphs stop, halt, return and leave the module with the same data, and diverge together |
| PmCodegen.CollectReferenced | crates/post-machine/src/codegen.rs:83-119 | the blocks that need a label line |
| PmCodegen.EmitFunction | crates/post-machine/src/codegen.rs:74-169 | one function's lines, with no jump to the next block |
| PmCodegen.EmitProgram | crates/post-machine/src/codegen.rs:49-65 | the listing and its line map |
| LineEmitter.Emitter.Push | crates/post-machine/src/codegen.rs:41-47 | appends a line and, if it has a source, its line-map entry |
| LineEmitter.LineMapExact | crates/post-machine/src/codegen.rs:41-47 | the line map names every generated line with a source, once and in order |
| PmEmission.ReferencedExact | crates/post-machine/src/codegen.rs:83-119 | pass 1 marks exactly the blocks that some emitted jump names |
| PmEmission.LabelAddress | crates/post-machine/src/codegen.rs:121-169 | a jump to a referenced block goes to the block's first label line |
| PmEmission.StepMatched | crates/post-machine/src/codegen.rs:74-169 | every step of the graph is answered by the listing; standing still moves on in the block order |
| PmEmission.ListingSections | crates/post-machine/src/codegen.rs:49-65 | splitting the listing at its function lines gives back each function's code |
| PmEmission.EmissionPreservesBehaviour | crates/post-machine/src/codegen.rs:74-169 | graphs and listing with elided jumps end the same ways and diverge together |
| PmCompiler.Compile | crates/post-machine/src/compiler.rs:593-665 | from source to listing, or the first undeclared label |
| PmCompiler.CompilerPreservesBehaviour | crates/post-machine/src/compiler.rs:593-665 | lowering and emission composed keep every behaviour of the source program |
| PmCompiler.LoweredEmittable | crates/post-machine/src/ir.rs:198-423 | what lowering produces meets what emission needs |
| PmMerge.Demote | crates/post-machine/src/compiler.rs:866-879 | demotion ends with a stable set that holds every stable set |
| PmMerge.DecideKept | crates/post-machine/src/compiler.rs:843-879 | the functions kept once are the largest set with equal records in both columns that is closed under calls in the object |
| PmMerge.LayOut | crates/post-machine/src/compiler.rs:881-935 | blobs, tags, symbols and debug records in order, or the first function the columns disagree on |
| PmMerge.LinkAll | crates/post-machine/src/compiler.rs:937-968 | each blob's calls in offset order, each bound in its own column, external names minted once |
| PmMerge.MergeColumns | crates/post-machine/src/compiler.rs:810-982 | fails exactly on table records, different counts or, at the first, functions the columns do not share by place and name; otherwise keeps once the largest set of shared functions, and merges the rest side by side |
| PmMerge.ProjectionExact | crates/post-machine/src/compiler.rs:785-982 | projecting the merged object onto a column gives back each function's name, visibility, code, debug record and its calls in offset order |
| PmMerge.CallsStayInColumn | crates/post-machine/src/compiler.rs:800-809 | a call inside the object leads from a column's blob to the same column's blob of the callee |
| PmMerge.NoPathCrosses | crates/post-machine/src/compiler.rs:785-809 | no path of calls from a blob of one column reaches a blob that is only the other's |
| PmFlatten.Flatten | crates/post-machine/src/compiler.rs:1053-1363 | names apart, locals emitted, unused imports and functions exact; every emitted call carries what its name means at its site (PmScopes.FlattenMeans) |
| PmFlatten.MangledApart | crates/post-machine/src/compiler.rs:1194-1233 | no two emitted functions have one name |
| PmFlatten.MangledInjective | crates/post-machine/src/compiler.rs:1017-1023 | a mangled name determines its root and its nesting path |
| PmFlatten.FullNameInjective | crates/post-machine/src/compiler.rs:1017-1023 | a full name determines its namespace path and bare name |
| PmFlatten.LocalsEmitted | crates/post-machine/src/compiler.rs:1306-1340 | every call recorded as local names an emitted function, so the missing-definition panic cannot happen |
| PmFlatten.BareCallInnermost | crates/post-machine/src/compiler.rs:1144-1180 | a bare call takes the innermost definition, else the innermost level where a definition outranks an import, and is unresolved exactly when no scope has it |
| PmFlatten.Context.ResolveCall | crates/post-machine/src/compiler.rs:1119-1192 | resolves one call, records it, and returns the name it carries on |
| PmFlatten.Context.Emit | crates/post-machine/src/compiler.rs:1194-1233 | appends a definition and everything nested in it, calls rewritten |
| PmFlatten.Reach | crates/post-machine/src/compiler.rs:1262-1296 | the worklist marks exactly the functions that calls lead to from an export |
| PmParser.ParseGreen | crates/post-machine/src/parser.rs:357-385 | a tree if and only if the tokens spell a legal program: that program's nodes, each around its own tokens, spelling every token once and in order with its trivia; else the first error, at a token it speaks of |
| PmParser.ParseResilient | crates/post-machine/src/parser.rs:396-420 | ends on every token list with a lossless tree; no error if and only if the tokens spell a legal program, and then the program's tree, the fatal parse's; otherwise the fatal error first |
| PmParser.Parser.TopItems | crates/post-machine/src/parser.rs:937-970 | the level's loop follows the grammar exactly until its first error, then recovers and progresses |
| PmParser.Parser.TopItem | crates/post-machine/src/parser.rs:1036-1296 | one item of a level; a terminator always ends the level |
| PmParser.Parser.FunctionBody | crates/post-machine/src/parser.rs:1321-1376 | a function, closing its own node, in either mode |
| PmParser.Parser.BodyItems | crates/post-machine/src/parser.rs:1340-1370 | the body's loop recovers errors and always progresses |
| PmParser.Parser.BodyItem | crates/post-machine/src/parser.rs:1443-1560 | one body item; nothing already read is lost, a closing brace ends the body |
| PmParser.Parser.Labelled | crates/post-machine/src/parser.rs:1510-1557 | labels, then a statement or the end of the body, as the grammar says |
| PmParser.Parser.StatementBody | crates/post-machine/src/parser.rs:1576-1629 | a comma group with its position rules and its semicolon |
| PmParser.Parser.OneItem | crates/post-machine/src/parser.rs:1643-1833 | one command, call, goto or check |
| PmParser.Parser.DocLines | crates/post-machine/src/parser.rs:743-780 | a doc run in order, with its attribute errors |
| PmParser.Parser.NamespaceItem | crates/post-machine/src/parser.rs:1182-1225 | a namespace block and its duplicate-name rule |
| PmParser.Parser.DeclarationItem | crates/post-machine/src/parser.rs:1226-1296 | modifiers, the function, and the checks on its name in their order |
| PmParser.Parser.SkipToSync | crates/post-machine/src/parser.rs:978-1033 | keeps the tree faithful and stops at the first token from here on, past whole braces, that can begin or end an item of the level |
| PmParser.Parser.SkipToStatementSync | crates/post-machine/src/parser.rs:1391-1440 | keeps the tree faithful and stops behind the first semicolon, or at the first token, past whole braces, that can begin a body item or end the body |
| PmParser.Parser.Recover | crates/post-machine/src/parser.rs:937-970 | records the error and leaves exactly the nodes of the seam open, the region in one error node |
| PmParser.Closes | crates/core/src/syntax/sink.rs:255-259 | at the end of the file the build closes on one root that spells the source |
| PmGreen.FinishKeeps | crates/core/src/syntax/builder.rs:40-47 | folding a node keeps what the tree spells and the nodes below it |
| PmGreen.StartAtKeeps | crates/core/src/syntax/builder.rs:68-80 | opening at a checkpoint taken at the seam is accepted and keeps the tree |
| PmGreen.FinishToKeeps | crates/core/src/syntax/sink.rs:245-250 | unwinding to a seam leaves its nodes open and loses nothing |
| TmBindings.CheckBindingArgs | crates/turing-machine/src/compiler.rs:2811-2928 | accepts exactly the argument lists with one fitting argument for every parameter - a host tape, or a state without a map, or an ending - and no two on one tape; else names the first that does not fit and why, or the first parameter without one |
| TmBindings.BuildComposite | crates/turing-machine/src/expand.rs:1032-1081 | an accepted list places each graph tape on the host tape its argument names, through its legal map, on pairwise distinct host tapes, and continues each state parameter where its argument says; fails exactly when some map is not legal |
| TmBindings.ApartOnHost | crates/turing-machine/src/compiler.rs:2800-2809 | the aliasing check keeps two graph tapes off one host tape, which is what splicing needs |
| TmBindings.AcceptedGraftResolved | crates/turing-machine/src/expand.rs:1028-1081 | a graft whose arguments the check accepts is one that expansion is ready for: the later invariants do hold |
| TmBindings.AcceptedGraftFits | crates/turing-machine/src/expand.rs:1032-1081 | its tapes are bound between the sizes of the host's and the graph's alphabets, and only state parameters are continued |
| TmAlphabets.ResolveAlphabet | crates/turing-machine/src/compiler.rs:749-777 | accepts exactly the non-empty element lists whose ranges can be read, whose glyphs differ and number at most 127, and lists what each element lists, one after the other; else names the first fault |
| TmAlphabets.AlphabetMeans | crates/turing-machine/src/compiler.rs:749-848 | the glyphs of elements that can be read are what they list: a literal itself, a range every number or character between its ends, ascending |
| TmAlphabets.LabelsList | crates/turing-machine/src/compiler.rs:779-848 | an element is refused exactly when it is a range that descends or whose ends are neither two numbers nor two single characters, and for that reason |
| TmAlphabets.PushGlyphs | crates/turing-machine/src/compiler.rs:851-865 | stops at the first glyph that repeats an earlier one, and names it |
| TmAlphabets.AcceptedAlphabet | crates/turing-machine/src/compiler.rs:743-777 | blank, symbol 0, is what the first element begins with, and glyph indices fit the splice's symbols |
| TmCalls.World.ResolveCalls | crates/turing-machine/src/compiler.rs:1848-1889 | one record for every rule that calls, in order: a bind of the world, else what the scope finds, else an external routine |
| TmCalls.World.DropUnreachable | crates/turing-machine/src/compiler.rs:1229-1266 | keeps of each state the rules but every later all-wildcard one, keeps the record list aligned with the rules that are left, never reads past it, and warns of exactly the dropped lines |
| TmCalls.World.ExpandOwn | crates/turing-machine/src/expand.rs:1222-1281 | every rule that calls takes its own record off the list, which never runs out |
| TmCalls.RecordAt | crates/turing-machine/src/expand.rs:1244-1246 | the record at a rule's place in the list is the one resolved from that rule |
| TmDeadRules.DroppingKeepsMeaning | crates/turing-machine/src/compiler.rs:1212-1266 | a world that expands still does without its dead rules, and every state picks the same row with the same call on every tuple, by bands and in source order, with at most one catch-all left |
| TmDeadRules.RowsCommute | crates/turing-machine/src/compiler.rs:1212-1266 | expanding the surviving rules gives exactly the expanded rows without the later catch-all rows |
| TmDeadRules.SameChoice | crates/turing-machine/src/compiler.rs:1212-1228 | rows without their later catch-alls pick the same row on every tuple, by bands and in source order |
| TmDeadRules.OneCatchAll | crates/turing-machine/src/compiler.rs:1212-1228 | at most one catch-all row survives, so the assembler's last-row discipline cannot be broken |
| TmDeadRules.ExpandsIff | crates/turing-machine/src/compiler.rs:1229-1266 | a state expands if and only if it does without its dead rules and each dead rule would have expanded by itself: dropping can hide an error, never make one |
| TmDeadRules.RowsShape | crates/turing-machine/src/expand.rs:608-684 | an all-wildcard rule expands to one catch-all row and any other rule to none |
| TmLexer.LexWith | crates/turing-machine/src/lexer.rs:264-594 | the cursor loop computes the token stream, or the first problem and its place, in both modes |
| TmLexer.LexesExactlyLayouts | crates/turing-machine/src/lexer.rs:264-594 | the lexer yields a token list if and only if those tokens lay out the source: each spelled as it stands and as long as it can be, nothing but white space between |
| TmLexer.ModeLaw | crates/turing-machine/src/lexer.rs:264-376 | the two modes fail with the same problem at the same place or both succeed, and the stream without comments is the other one minus its comments |
| TmLexer.SourceLaidOut | crates/turing-machine/src/lexer.rs:264-594 | the stream with comments loses nothing but white space: every token is its own source text, placed by its first character |
| TmLexer.TokensAscend | crates/turing-machine/src/lexer.rs:264-594 | tokens come in strictly ascending line and column, in both modes |
| TmLexer.GlyphRoundTrip | crates/turing-machine/src/lexer.rs:377-440 | a written glyph lexes back to its content wherever it stands |
| TmLexer.GlyphSpelled | crates/turing-machine/src/lexer.rs:377-440 | the text of every accepted glyph literal is the quotation of its content |
| TmLexer.GlyphText | crates/turing-machine/src/fmt/print.rs:994-1005 | the printer's loop writes the quotation of the content |
| TmLexer.ScanFaithful | crates/turing-machine/src/lexer.rs:273-585 | what is scanned at a position is spelled there, begins its line where it must and ends where it must |
| TmLexer.TokenFound | crates/turing-machine/src/lexer.rs:273-585 | a token that fits a position is the one scanned there |
| TmLexer.PositionsIncrease | crates/turing-machine/src/lexer.rs:231-245 | a later character has a later line or a later column |
| TmLexer.Cursor.Bump | crates/turing-machine/src/lexer.rs:231-245 | one step keeps line, column and the line-start flag true of the new position |
| TmLexer.Cursor.CommentOrSlash | crates/turing-machine/src/lexer.rs:312-376 | line and block comments and their text; a block comment must close |
| TmLexer.Cursor.GlyphLiteral | crates/turing-machine/src/lexer.rs:377-440 | a glyph's content with its two escapes resolved, or the problem with it |
| TmLexer.Cursor.Digits | crates/turing-machine/src/lexer.rs:536-565 | digits with their value below two to the 32, not followed by a letter |
| LineIndex.Build | crates/core/src/linemap.rs:82-112 | the two sorted tables hold exactly the map's functions and entries, whatever order ties come in |
| LineIndex.Resolve | crates/core/src/linemap.rs:126-147 | answers as a linear search of the map: a containing function, the line of its greatest offset up to the address and of its least one; none exactly when no function contains the address, provided every function has code and no two overlap (an empty function that starts with another hides it) |
| LineIndex.AddressForLine | crates/core/src/linemap.rs:169-180 | the offset of the least line at or after the wanted one, least offset first, among functions of the wanted source; none exactly when there is none |
| LineIndex.ResolvedOnce | crates/core/src/linemap.rs:119-147 | with disjoint functions and distinct offsets the answer is the only one that fits |
| LineIndex.PlantedOnce | crates/core/src/linemap.rs:169-180 | the offset planted for a line is the only one that fits |
| LineIndex.LastStarts | crates/core/src/linemap.rs:126-135 | only the last function that starts at or before an address can contain it |
| SourcePaths.RoundTrip | crates/core/src/source_path.rs:19-82 | the stored relative path leads back to its source if and only if the directory does not go up below what the two share; for two rooted paths that is whenever they share a root |
| SourcePaths.MovedTree | crates/core/src/source_path.rs:1-12 | what was stored under one root leads to the same place under another: a build tree can be moved |
| SourcePaths.ResolvedFolded | crates/core/src/source_path.rs:19-47 | resolving folds, and folding again changes nothing |
| SourcePaths.NormalizingKeepsTarget | crates/post-machine/src/project.rs:177-206 | a manifest path and its normal form resolve to the same place from every base; one is refused as naming no file exactly when it resolves to every base itself |
| SourcePaths.FoldFirst | crates/core/src/source_path.rs:19-47 | folding a relative path first changes nothing about where it leads |
| SourcePaths.LexicalAbsolute | crates/core/src/source_path.rs:19-47 | joins and folds as specified |
| SourcePaths.RelativeTo | crates/core/src/source_path.rs:53-82 | strips the shared part and goes up and down from it, none without a shared component |
| SourcePaths.NormalizeRel | crates/post-machine/src/project.rs:177-206 | normalizes as specified |
| TmStraight.WildRuleFires | crates/turing-machine/src/expand.rs:296-298 | a graph state of the one rule that reads nothing does what that rule does on every host tuple, unreadable ones too, in source order, by bands and widely |
| TmStraight.OthersTrap | crates/turing-machine/src/expand.rs:414-450 | spliced from any other rules, a tuple with a read hole gets the read trap, in source order, by bands and widely |
| TmStraight.TrapsUnlessStraight | crates/turing-machine/src/expand.rs:296-298 | splicing puts read traps before a state exactly when code generation has it match: when the state, lowered, is no straight-line state |
| TmMeaning.DenotesStands | crates/turing-machine/src/expand.rs:478-603 | what expansion lists for a pattern cell is what the cell stands for: a label itself, a number range every number between its ends, a glyph range every character between its ends |
| TmMeaning.RefusedExactly | crates/turing-machine/src/expand.rs:521-568 | a range is refused exactly when an end is no number or single character, the ends differ in kind, or it descends, and for that reason |
| TmMeaning.LookupGiven | crates/turing-machine/src/expand.rs:638-684 | a name is bound to what the last cell that binds it reads, and is unbound exactly when no cell of the row binds it |
| TmMeaning.WriteExact | crates/turing-machine/src/expand.rs:717-805 | a write cell resolves exactly to the place in the alphabet of the glyph it asks for - the literal, the bound glyph itself, or the decimal of the fold's value - and to nothing else |
| TmMeaning.VectorMeans | crates/turing-machine/src/expand.rs:701-800 | a rule's write does that on every tape; without one every tape is kept |
| TmMeaning.RefusedFor | crates/turing-machine/src/expand.rs:608-860 | a rule that does not expand is refused for something wrong with it: a width, a range that cannot be read, or a write cell and its reason |
| FreshNames.DecimalReads | crates/turing-machine/src/expand.rs:1184-1196 | the number put into a made-up name is the decimal numeral, without leading zeros, that reads back to it |
| TmStep.DeedMeans | crates/turing-machine/src/expand.rs:608-687 | what a written rule that reads a tuple does: pauses if it is a debugger rule, writes what its cells ask for and moves as written, or stays |
| TmStep.WrittenStep | crates/turing-machine/src/expand.rs:1222-1275 | one step in an own state at the top: without a rule that reads the tapes it traps; else the rule taken writes and moves as written, and a written stop stops, halt halts, return returns, an omitted transition stays, a named one enters that state, a call calls and resumes as written |
| TmStep.WrittenEnds | crates/turing-machine/src/expand.rs:1222-1478 | at any depth of grafts, a step that ends the run, unless it lacks a rule or a graft's maps trap, ends it as the written rule of the innermost state says |
| TmCalls.RecordMeans | crates/turing-machine/src/compiler.rs:1848-1889 | a call names a bind of its world before anything else, then what the scope has under its path, then an external routine of that path; it resumes as written |
| TmLowering.StatesRefused | crates/turing-machine/src/ir.rs:485-707 | lowering fails at the first rule, in order, that cannot be lowered, and says which target is no state or which call cannot be bound |
| TmHygiene.CallInStates | crates/turing-machine/src/expand.rs:1390-1400 | the call a refused graft is blamed on is the first of its graph's, in state order and then in rule order |
| TmGraftKey.KeyOrderFree | crates/turing-machine/src/expand.rs:1084-1106 | grafts of one graph through one binding that continue the same parameters alike have one key, in whatever order the continuations come |
| TmTrace.ExpandedOnLine | crates/turing-machine/src/expand.rs:608-687 | every row a rule expands to stands on the rule's source line |
| TmTrace.SplicedOnLine | crates/turing-machine/src/expand.rs:343-450 | a graph rule's host rows stand on the rule's source line, wherever it is grafted |
| TmTrace.StateSplicedOnLines | crates/turing-machine/src/expand.rs:414-450 | a spliced state stands on its graph state's line, its read traps too, and every other row on the line of its rule |
| TmTrace.WorldLowered | crates/turing-machine/src/ir.rs:485-560 | lowering keeps a world's name, width, visibility and line and, in order, its states' and rules' lines |
| TmTrace.StateOnLine | crates/turing-machine/src/codegen.rs:200-563 | a rule's block stands on the rule's line, a state's head on the state's |
| TmTrace.BlockTold | crates/turing-machine/src/codegen.rs:735-834 | every line of a block, behind its label, is in the line map of the whole listing with the block's source line |
| TmTrace.ProgramHeadings | crates/turing-machine/src/codegen.rs:158-196 | the listing announces every world once, in order, with its name, tapes, visibility and source line |
| TmTrace.NoJumpToNext | crates/turing-machine/src/codegen.rs:735-834 | no block ends with a jump to the block that follows it |
| TmTrace.RuleActs | crates/turing-machine/src/codegen.rs:568-590 | a rule's block pauses exactly for a debugger rule whose stop is kept, and writes and moves exactly if the rule does |
| PmTrace.FunctionTraced | crates/post-machine/src/codegen.rs:67-169 | a function's lines but its labels: its heading with its name and visibility, every item's instruction on the item's own line, every transfer on its statement's line, in source order, and at most one return that no source line stands for |
| PmTrace.NoJumpToNext | crates/post-machine/src/codegen.rs:121-169 | no block ends with a jump to the block that follows it |
| PmTrace.StartsExactly | crates/post-machine/src/ir.rs:214-245 | a statement opens a block exactly when it is the first, has a label, or follows one that transfers control |
| PmTrace.ExitShared | crates/post-machine/src/ir.rs:246-380 | one block beside those of the statements is shared by all returns, for a body that is empty or has a check that returns; there is none otherwise |
| PmIr.FirstUndefinedIs | crates/post-machine/src/ir.rs:214-240 | the label that lowering reports is one the body does not declare, referred to by a statement before which every reference is declared |
| PmAccept.AcceptsExactlyLegal | crates/post-machine/src/parser.rs:357-1889 | the parser accepts a token list if and only if it spells a legal program, written down as a syntax tree with its own rules: groups of bare commands with one last command, labels and names apart, doc runs, imports, modifiers, nesting |
| PmAccept.WalkSound | crates/post-machine/src/parser.rs:357-1889 | what is accepted is the spelling of a legal program, and the tree is that program's |
| PmAccept.WalkComplete | crates/post-machine/src/parser.rs:357-1889 | the spelling of every legal program is accepted |
| PmAccept.AcceptedTree | crates/post-machine/src/parser.rs:357-1889 | an accepted token list has the tree of the program it spells: which nodes there are, what each holds, trivia before a node's first token outside the node |
| PmBodies.GroupSound | crates/post-machine/src/parser.rs:1576-1629 | an accepted statement is a group whose commands before a comma are all bare, and a semicolon |
| PmBodies.LegalIsParsed | crates/post-machine/src/parser.rs:1443-1629 | every body of an accepted program is what lowering asks for: comma groups by the rules, no label declared twice |
| PmBlame.WalkBlames | crates/post-machine/src/parser.rs:357-1889 | the error that stops the parser points at a token that is what the error speaks of |
| PmLanguage.AttributeIs | crates/post-machine/src/parser.rs:743-780 | the attribute read off a doc line is the one the line has: a name in brackets, then nothing but a text in parentheses |
| PmMerge.KeptIsLargest | crates/post-machine/src/compiler.rs:767-879 | every set of functions with equal code, equal debug records and equally many calls at each offset to each callee name, closed under the calls inside the object, is among the functions kept once, and those are such a set |
| PmScopes.ResolveMeans | crates/post-machine/src/compiler.rs:1119-1180 | the resolution of a call is what its name means where it stands: a full name, the innermost enclosing definition, else the innermost namespace's definition, else its first import of that name, else nothing |
| PmScopes.FlattenMeans | crates/post-machine/src/compiler.rs:1053-1233 | every definition is emitted once, in order, under its mangled name; the program's call sites, the resolutions and the emitted calls correspond one to one, and a call that means a definition carries its name, an import the import's path, anything else the name written |
| TmLexErrors.FailsWhere | crates/turing-machine/src/lexer.rs:264-594 | the lexer fails at a place whose text has the problem it reports, and reports that place |
| TmLexErrors.PlaceIs | crates/turing-machine/src/lexer.rs:231-245 | the first character is at line 1, column 1; a newline begins the next line, anything else moves one column on |

## Left out

- Integer widths of block ids, line and column numbers, table indices, addresses and offsets: unbounded here; symbols are 16 bits wide where the code enumerates them, and folds are 64 bits wide.
- Text: mnemonics, operands and label spellings are datatypes; the byte encodings, jump widths and the assembler are not part of this model.
- Diagnostics carry a kind and a place; their text and their spans' extents are not modelled.
- The optimizers, the linker, the virtual machine, footprint inference and repeat-block re-detection.
- Routines called by a TM-1 world are an arbitrary function on the data that keeps the alphabets; frames and bound calls across worlds are not modelled.
- A PM-1 call that leaves the module is an outcome.
- Library sorts are insertion sorts here; `LineIndex` uses only that the result is a sorted permutation.
- The PM-1 lexer, whose two-mode law is the TM-1 one over fewer tokens; which letters are alphabetic or numeric is a parameter of `TmLexer`.
- Windows paths that have a drive or a root but not both; splitting a path's text into components.
- How a scope finds a definition's full name in TM-1 is a parameter of `TmCalls`.
- Alphabetic characters in attribute names are ASCII here.
- The other checks of a resolved TM-1 world (distinct names, transition targets, the call sites) are preconditions of expansion.
- Warnings of graft expansion (a graph expanded from the memo does not warn twice).
- Comment trivia is one opaque piece before each token; reconstructing its text from the source is not modelled.
- Resolving a call's binding arguments to its record is a parameter of `TmLowering`; the warnings of lowering (unreachable states, unused routines) are not modelled.
- `TmOwnTapes.GoesAstray`: speaks of pairs whose rules go to different states of the graph; a pair that picks another rule with the same effect leaves no trace.
- Extraction of the program from the green tree.
- The order of failures within expansion: `TmSource.CompileProgram` expands all needed rows before any graft, so of a row that does not expand and a call inside a grafted graph it reports the row, where the code reports what it meets first.
- `PmParser.ParseResilient`: of the errors after the first, what recovery keeps and where it resumes is stated, not which they are.
