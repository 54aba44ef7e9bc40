# Verified models of three cores

Dafny 4.11 models of three vendored C components, with proofs that hold for every input, every run or every
reachable state.  `dafny verify dfyconfig.toml` checks them all.

**The push-down driver of the SQL parser** (`parse.c`).  `sqlite3Parser` runs a table-driven LALR(1) automaton with
comb-packed tables, fallback tokens, a wildcard and a fixed or growable stack.  Its peculiarity is the shift-reduce:
an entry may store a reduction that is made only when the next token comes.  The tables are parameters, constrained
by decidable predicates (`LemonGrammar.Valid`, `LemonComplete.Complete`).  A state may be entered over several symbols,
as over the terminals of EQ|NE or over the two sides of a unit rule that was optimized out, a state may have nothing
but its default, and the grammar may be ambiguous but for precedence.

- `LemonTables` the packed lookups and the matrix they pack; `LemonGrammar` grammars, trees, certificates
- `LemonStack` the stack invariant; `LemonDriver` the driver as a function of stack, room and tokens
- `LemonSound` what is accepted derives; `LemonComplete` every tree that precedence leaves is parsed, and is unique;
  `LemonLanguage` both together; `LemonElided` the same for the grammar with its optimized-out unit rules
- `LemonTextbook` delayed reductions refine immediate ones; `LemonCapacity` bounded stacks refine an unbounded one
- `LemonConservation` every entry leaves once, every token has one fate, the bottom stays, resets, heights
- `LemonParser` the parser object, its array and its loops, each method proved against the driver function
- `LemonToy` a small grammar with all these features, in packed tables, that satisfies every predicate

**Selected reduce actions** of the same parser.

- `CompoundSelect` and `SelectBuilder` compound SELECT and VALUES chains, as values and as nodes on the heap
- `ExprRewrite` the trees built for IN, AND, IS, BETWEEN and CASE keep the three-valued meaning of the source, which
  is pinned by two-valued logic and the standard's laws
- `ExprSpan` and `SpanSlots` the source span of every expression, as a function and on overlaid stack slots

**The SQL keyword recogniser** (`keywordhash.h`).  `KeywordSearch` proves the chained hash over any tables equal to a
plain scan; `SqlKeywordTables`, `SqlKeywordFacts` and `SqlKeywordBuckets` check the shipped tables entry by entry;
`SqlTokens` checks the codes against the parser's names of terminals; `SqlKeywords` draws the conclusion for the 124
keywords.

**The nanopb field iterator** (`pb_common.c`, `pb.h`).  `PbLayout` models the macros that encode struct layouts as
deltas in narrow integers and says exactly when decoding gives the true addresses; `PbIterator` is the iterator.

## Conventions

- The value of a grammar symbol is the tree of reduce actions that computed it, so any choice of actions is a
  function of what is modelled.  A token is its code and text; its code is that of a terminal.
- One parameter, the room, covers the three stacks: unbounded, or a number of slots with the outcomes of the
  allocations to come (none for a fixed stack).  The empty sequence stands for yytos below the stack.
- Allocation outcomes are parameters.  Reports are events of the run, in order.  For SELECT nodes the parameter is how
  many can be made before memory runs out, since `db->mallocFailed` stays set.
- Completeness is relative to an annotation of the tables: kinds of nodes that say which rules and tokens may stand at
  each position.  `Valid` and `Complete` say nothing on how much an annotation admits; `Covers` says that every input
  keeps a tree.  Where a fallback or the wildcard overrules another reading of a token so that an input is lost,
  `Covers` fails, and what remains is soundness and the completeness for admitted trees.
- The textbook driver reduces as soon as it can but, like the code, accepts only when the next token is there.
- `charMap` is the table in `src/global.c:24-41`: ASCII upper case to lower case, all else unchanged.
- SQL values other than NULL are known by number, equality and order of a collation are arbitrary relations, and
  columns, sub-selects and other operators are arbitrary functions.
- In spans, tokens that no action looks at are kept as plain tokens, and the address of a built tree is arbitrary.
- `clean` on AND says that no error had been reported when its rule was reduced, which is when a constant zero
  operand is used (`src/expr.c:826`).

## Where the code does not keep what it is written for

- With one stack slot (`YYSTACKDEPTH` 1, or a growable stack whose first allocation fails) an empty reduction on the
  bare bottom entry makes `yytos` run below the stack.  `UnderflowIff` gives the exact condition, `NeverUnderflows`
  shows that two slots suffice, `DepthOneUnderflows` is an instance.
- The comment on `parserDoubleLinkSelect` speaks of the length of the list; the rows of a VALUES clause on the left
  count one by one towards it, those of a VALUES clause on the right as one term (`LimitIsEnforced`).
- The keyword fold takes byte 0x7F for an underscore.  `SpellingIsCaselessIff` shows that this is the only
  difference from comparing without regard to case.
- The span of an expression that ends in table arguments stops before them (`SpanIsExactIff`).
- Descriptors of narrow integers lose layouts whose deltas do not fit, and a gap of PB_SIZE_MAX bytes between two
  unions reads as one union although it fits (`RoundTripIff`, `LargeMemberIsLost`, `GapLooksLikeUnion`).

## Model

| member | source | states |
|---|---|---|
| `LemonTables.PackedEqualsSparse` | password_package/Pods/WCDBOptimizedSQLCipher/parse.c:1721-1780 | For any matrix stamped into the comb so that rows sharing an offset agree, the probing loop returns the token's own cell, else its fallback's, else the wildcard's, else the state's default, which is all a row at YY_SHIFT_USE_DFLT has |
| `LemonTables.FallbackIsFollowed` | password_package/Pods/WCDBOptimizedSQLCipher/parse.c:1735-1748 | Every entry of yyFallback counts, whatever codes it joins: where the state has no cell for a token, the action is that of its entry, and the token may stand where the grammar has its fallback |
| `LemonTables.OnlyEntriesFallBack` | password_package/Pods/WCDBOptimizedSQLCipher/parse.c:1735-1768 | A token without an entry stands for itself or, unless it is the end of input, for the wildcard, and for nothing else |
| `LemonTables.ProbesInRangeIff` | password_package/Pods/WCDBOptimizedSQLCipher/parse.c:1749-1762 | Every wildcard probe is in range, whichever bound tests are compiled out, if and only if the upper test is kept whenever some state has only its default |
| `LemonTables.PackedGotoEqualsSparse` | password_package/Pods/WCDBOptimizedSQLCipher/parse.c:1788-1809 | The unchecked goto lookup is in range and returns the cell of the matrix |
| `LemonTables.NoGotoByDefault` | password_package/Pods/WCDBOptimizedSQLCipher/parse.c:1793-1806 | A state at YY_REDUCE_USE_DFLT has no goto, and elsewhere a goto is a slot that names its nonterminal |
| `LemonTables.ShiftExactIff` | password_package/Pods/WCDBOptimizedSQLCipher/parse.c:367-396 | Terminal and nonterminal rows may overlap in any way: the lookahead column tells cells from foreign slots if and only if terminal rows that share an offset agree |
| `LemonTables.GotoExactIff` | password_package/Pods/WCDBOptimizedSQLCipher/parse.c:367-396 | The same for nonterminal rows |
| `LemonTables.ReadAsIsLegal` | password_package/Pods/WCDBOptimizedSQLCipher/parse.c:1730-1768 | Whatever the loop does, a token is read as itself, as its own fallback or as the wildcard, and end of input never as anything else; no fallback has a fallback, so the loop ends |
| `LemonStack.PushInv` | password_package/Pods/WCDBOptimizedSQLCipher/parse.c:1857-1892 | Pushing along any edge of a valid automaton keeps the stack shape: only the top may hold a pending reduction, its rule has a right-hand symbol, everything below is a state whose certified history holds, and every value derives from one of the symbols its state can be entered over, as multi-terminals and optimized-out rules make them several |
| `LemonStack.NextReduceIsPossible` | password_package/Pods/WCDBOptimizedSQLCipher/parse.c:1728-1729 | Whenever a reduction is the next action, its whole handle and one more entry are on the stack and the goto from there exists, also for a delayed reduction whatever token comes next |
| `LemonStack.ReduceInv` | password_package/Pods/WCDBOptimizedSQLCipher/parse.c:3955-3973 | A reduction keeps the shape, and an accepting one uncovers exactly the bottom entry, for the start symbol only |
| `LemonStack.ReduceLowersMeasure` | password_package/Pods/WCDBOptimizedSQLCipher/parse.c:4089-4201 | Every reduction that does not accept strictly lowers the weights on the stack plus the budget of the top state for the token |
| `LemonDriver.StepKeepsInv` | password_package/Pods/WCDBOptimizedSQLCipher/parse.c:4089-4201 | Every iteration of the loop, whichever branch it takes, keeps the stack shape or resets the stack; one that goes on lowers the measure, so the loop ends for every stack and token |
| `LemonDriver.FeedAllConcat` | password_package/Pods/WCDBOptimizedSQLCipher/parse.c:4064-4201 | Feeding a stream in two parts is feeding it at once: all state between calls is the stack and its room |
| `LemonSound.FeedIsSound` | password_package/Pods/WCDBOptimizedSQLCipher/parse.c:4089-4201 | One call keeps the tokens shifted since the last reset equal to the concatenated yields of the entries, and everything it accepts is a derivation of those tokens from the start symbol |
| `LemonSound.RunIsSound` | password_package/Pods/WCDBOptimizedSQLCipher/parse.c:4064-4201 | Sound acceptance over whole streams, through syntax errors, overflows and resets, for every kind of stack |
| `LemonSound.ReductionsAreBounded` | password_package/Pods/WCDBOptimizedSQLCipher/parse.c:4089-4201 | One call makes at most measure + 1 reductions |
| `LemonConservation.EveryEntryLeavesOnce` | password_package/Pods/WCDBOptimizedSQLCipher/parse.c:1669-1705 | Over the life of a parser up to sqlite3ParserFree, every entry pushed leaves exactly once: taken up by a reduction or an accept, destroyed, or stepped over by the yytos-- of an overflow in the empty-rule branch |
| `LemonConservation.BottomStays` | password_package/Pods/WCDBOptimizedSQLCipher/parse.c:1535-1537 | No run overwrites the bottom entry |
| `LemonConservation.UnderflowIff` | password_package/Pods/WCDBOptimizedSQLCipher/parse.c:1814-1822 | A call leaves yytos below the stack if and only if it makes an empty reduction on the bare bottom entry and there is no room for its left-hand side |
| `LemonConservation.NeverUnderflows` | password_package/Pods/WCDBOptimizedSQLCipher/parse.c:2262-2283 | With two slots or more that never happens, on any stream |
| `LemonConservation.ResetIsBare` | password_package/Pods/WCDBOptimizedSQLCipher/parse.c:1814-1832 | After an accept or an overflow nothing is left above the bottom, and nothing follows either within the call |
| `LemonConservation.SecondParseIsFresh` | password_package/Pods/WCDBOptimizedSQLCipher/parse.c:1814-1832 | On any kind of stack, a second input on a parser that was reset behaves exactly as on a fresh one that starts with the stack as it has become |
| `LemonConservation.FixedStackStays` | password_package/Pods/WCDBOptimizedSQLCipher/parse.c:1009-1017 | A fixed stack never becomes another, so there the second input meets a new parser in every respect |
| `LemonConservation.EveryTokenHasOneFate` | password_package/Pods/WCDBOptimizedSQLCipher/parse.c:4064-4201 | Every token fed has exactly one fate, in turn: it is shifted with its own code and text, refused by a report that names it, or spent on an accept or an overflow, on any stream and any stack |
| `LemonConservation.RunHeight` | password_package/Pods/WCDBOptimizedSQLCipher/parse.c:3963-3970 | Without overflow the height is one plus shifts minus the sum of (nrhs - 1) over reductions |
| `LemonTextbook.FeedRefinesTextbook` | password_package/Pods/WCDBOptimizedSQLCipher/parse.c:1884-1889 | Storing a rule in stateno and making the reduction on the next token gives, once what is due is flushed, the stack and the reductions of a driver that reduces at once |
| `LemonTextbook.RunRefinesTextbook` | password_package/Pods/WCDBOptimizedSQLCipher/parse.c:3959-3966 | The same for every token stream, including chains in which a goto is itself a shift-reduce |
| `LemonTextbook.FreshRunRefinesTextbook` | password_package/Pods/WCDBOptimizedSQLCipher/parse.c:1512-1541 | From a fresh parser the flushed run is the textbook run, event for event |
| `LemonCapacity.RunAgrees` | password_package/Pods/WCDBOptimizedSQLCipher/parse.c:1871-1883 | A fixed or growable stack does what an unbounded one does until the first overflow check fires |
| `LemonCapacity.RunFits` | password_package/Pods/WCDBOptimizedSQLCipher/parse.c:2269-2282 | Fixed or growable, with any outcomes of its allocations, a stack runs without overflow if and only if the unbounded run never asks for more entries than it can grow to, counting the slot that an empty rule checks for; before an overflow exactly the events that fit are made |
| `LemonCapacity.RunGrows` | password_package/Pods/WCDBOptimizedSQLCipher/parse.c:1467-1492 | A bounded stack makes the unbounded run, event for event, if and only if that run fits in what it can grow to |
| `LemonCapacity.EnoughSuccesses` | password_package/Pods/WCDBOptimizedSQLCipher/parse.c:1467-1492 | As many successful allocations as the run has events are always enough |
| `LemonCapacity.MoreRoomAgrees` | password_package/Pods/WCDBOptimizedSQLCipher/parse.c:1467-1492 | A stack that was grown before does what a fresh one does, until the fresh one overflows |
| `LemonComplete.AdmittedDerives` | password_package/Pods/WCDBOptimizedSQLCipher/parse.c:1294-1302 | What an annotation admits derives by the grammar: precedence only takes trees away |
| `LemonComplete.ParseSymbol` | password_package/Pods/WCDBOptimizedSQLCipher/parse.c:4089-4201 | From any stack in which a slot is expected, the yield of a tree admitted there is turned into one entry holding that very tree, by reductions in the tree's post-order and no other reports |
| `LemonComplete.EveryTreeIsParsed` | password_package/Pods/WCDBOptimizedSQLCipher/parse.c:4064-4201 | Completeness for tables with closed LR(1) item sets over any annotation, so also for grammars made unambiguous by precedence: the yield of every admitted tree whose depth fits the stack is accepted with that tree |
| `LemonComplete.Unambiguous` | password_package/Pods/WCDBOptimizedSQLCipher/parse.c:4064-4201 | So no two admitted trees of whole inputs have the same tokens |
| `LemonLanguage.AcceptsExactlyTheLanguage` | password_package/Pods/WCDBOptimizedSQLCipher/parse.c:4064-4201 | The driver accepts an input without a report if and only if the input derives from the start symbol, for annotations that leave every input a tree |
| `LemonLanguage.AcceptsOnlyAdmittedTrees` | password_package/Pods/WCDBOptimizedSQLCipher/parse.c:4064-4201 | And then the tree it is accepted with is the admitted one: precedence is respected in every input |
| `LemonLanguage.EverythingCovers` | password_package/Pods/WCDBOptimizedSQLCipher/parse.c:4064-4201 | The annotation that admits all trees leaves every input a tree |
| `LemonLanguage.EverythingIsUnambiguous` | password_package/Pods/WCDBOptimizedSQLCipher/parse.c:1294-1302 | The limit of that annotation: it exists only for grammars that are unambiguous by themselves |
| `LemonElided.ErasedDerives` | password_package/Pods/WCDBOptimizedSQLCipher/parse.c:3898-3933 | A tree of the grammar as written becomes a tree of what the driver follows when its optimized-out unit nodes are taken out |
| `LemonElided.RestoredDerives` | password_package/Pods/WCDBOptimizedSQLCipher/parse.c:3898-3933 | Conversely, unit nodes can be put back into every tree the driver builds, with the same tokens |
| `LemonElided.SameLanguage` | password_package/Pods/WCDBOptimizedSQLCipher/parse.c:3898-3933 | So optimizing out unit rules changes no input of the language |
| `LemonElided.AcceptsTheWrittenLanguage` | password_package/Pods/WCDBOptimizedSQLCipher/parse.c:3898-3933 | The driver accepts exactly what the grammar derives as it was written, though it never makes the optimized-out reductions |
| `LemonParser.Parser.constructor` | password_package/Pods/WCDBOptimizedSQLCipher/parse.c:1512-1541 | A new parser holds the bare bottom entry, on a fixed stack, a grown one of 100 slots, or the single slot yystk0 when allocation fails |
| `LemonParser.Parser.GrowStack` | password_package/Pods/WCDBOptimizedSQLCipher/parse.c:1467-1492 | The stack becomes 2n + 100 slots with its contents and top index kept, or stays when allocation fails |
| `LemonParser.Parser.PopParserStack` | password_package/Pods/WCDBOptimizedSQLCipher/parse.c:1669-1682 | One entry is destroyed and the top moves down by one |
| `LemonParser.Parser.StackOverflow` | password_package/Pods/WCDBOptimizedSQLCipher/parse.c:1814-1832 | All entries below the index it is entered with are destroyed from the top, bar the bottom, and the overflow is reported; entered on the bottom it leaves yytos at -1 |
| `LemonParser.Parser.FindShiftAction` | password_package/Pods/WCDBOptimizedSQLCipher/parse.c:1721-1780 | The loop over fallback, wildcard and default computes the action of the automaton, a pending reduction first, with every index in range |
| `LemonParser.Parser.Shift` | password_package/Pods/WCDBOptimizedSQLCipher/parse.c:1857-1892 | The array ends with what the shift of the driver function gives, in place, after growth or after overflow |
| `LemonParser.Parser.CheckEmptyRule` | password_package/Pods/WCDBOptimizedSQLCipher/parse.c:2262-2283 | The check before an empty rule either makes room, so that the later write is in bounds, or ends in the overflow that skips the top entry |
| `LemonParser.Parser.ReplaceHandle` | password_package/Pods/WCDBOptimizedSQLCipher/parse.c:3955-3973 | The handle is replaced in place by its left-hand side, or dropped by an accept |
| `LemonParser.Parser.Reduce` | password_package/Pods/WCDBOptimizedSQLCipher/parse.c:2240-2283 | yy_reduce is the reduction step of the driver function |
| `LemonParser.Parser.Iterate` | password_package/Pods/WCDBOptimizedSQLCipher/parse.c:4089-4201 | The loop body is one step of the driver function and its condition tells whether that step goes on |
| `LemonParser.Parser.Parse` | password_package/Pods/WCDBOptimizedSQLCipher/parse.c:4064-4201 | One call leaves the stack, the space and the reports of the driver function, and the object invariant holds again: tokens held are the tokens shifted, and everything ever accepted was a derivation |
| `LemonParser.Parser.Free` | password_package/Pods/WCDBOptimizedSQLCipher/parse.c:1692-1705 | Every entry above the bottom is destroyed, from the top |
| `LemonToy.ToyIsValid` | password_package/Pods/WCDBOptimizedSQLCipher/parse.c:4064-4201 | Validity can be met: a grammar with an empty rule, left recursion, a multi-terminal, an optimized-out unit rule, a fallback token, a wildcard and a state with only its default, in packed tables |
| `LemonToy.ToyIsPacked` | password_package/Pods/WCDBOptimizedSQLCipher/parse.c:367-396 | Its fifteen slots are a comb in the sense above, without a free slot and with a state outside it |
| `LemonToy.ToyIsComplete` | password_package/Pods/WCDBOptimizedSQLCipher/parse.c:4064-4201 | Completeness can be met with an operator that precedence makes left-associative |
| `LemonToy.ToyIsAmbiguous` | password_package/Pods/WCDBOptimizedSQLCipher/parse.c:1294-1302 | The same grammar without precedence has two trees for one input |
| `LemonToy.ToyCovers` | password_package/Pods/WCDBOptimizedSQLCipher/parse.c:1294-1302 | Yet precedence loses no input: every tree can be regrouped into an admitted one with the same tokens |
| `LemonToy.ToyElides` | password_package/Pods/WCDBOptimizedSQLCipher/parse.c:3898-3933 | The grammar the toy follows is the written one with its unit rule optimized out |
| `LemonToy.ToyAcceptsItsLanguage` | password_package/Pods/WCDBOptimizedSQLCipher/parse.c:4064-4201 | All of it at work, for every input: the toy driver accepts exactly what its ambiguous grammar derives as written |
| `LemonToy.DepthOneUnderflows` | password_package/Pods/WCDBOptimizedSQLCipher/parse.c:2269-2273 | A concrete failure: with a stack of one slot the first token makes yytos run below the stack |
| `CompoundSelect.RowsAreBuilt` | password_package/Pods/WCDBOptimizedSQLCipher/parse.c:2774-2796 | A VALUES clause becomes one node for each row whose fold is the bag of the rows, and SF_MultiValue stands on the head exactly from the second row on |
| `CompoundSelect.JoinMeans` | password_package/Pods/WCDBOptimizedSQLCipher/parse.c:2703-2728 | One more operator combines the whole meaning of the left chain with the whole meaning of the right operand, wrapped or not, adds one node, and clears SF_MultiValue on both sides |
| `CompoundSelect.CombineCounts` | password_package/Pods/WCDBOptimizedSQLCipher/parse.c:2729-2737 | What the operators do to each row: counts add up under UNION ALL; UNION, EXCEPT and INTERSECT leave a row once or not at all, by where it occurs |
| `CompoundSelect.SetOperatorIff` | password_package/Pods/WCDBOptimizedSQLCipher/parse.c:2721 | hasCompound is due exactly if some operator is not UNION ALL |
| `CompoundSelect.NothingMerges` | password_package/Pods/WCDBOptimizedSQLCipher/parse.c:2721 | Where it is not due, every row comes out as often as it comes from the parts |
| `CompoundSelect.CompoundMeaningIsPreserved` | password_package/Pods/WCDBOptimizedSQLCipher/parse.c:2703-2796 | For every source compound the chain folded from its oldest node has the left-associated bag meaning of the source, after linking too |
| `CompoundSelect.LimitIsEnforced` | password_package/Pods/WCDBOptimizedSQLCipher/parse.c:98-103 | Too many terms are reported for exactly the compounds with an explicit operator that have more than the limit; the rows of a leading VALUES count one by one, a right operand counts once, and a pure VALUES is never refused |
| `CompoundSelect.RightOperandHasNoLimit` | password_package/Pods/WCDBOptimizedSQLCipher/parse.c:2708-2712 | Linking the right operand before it is wrapped never reports |
| `CompoundSelect.RowsInOrder` | password_package/Pods/WCDBOptimizedSQLCipher/src/select.c:2128-2158 | A VALUES chain read from its oldest node gives the rows in their order, and every node has the flags and the operator that multiSelectValues asserts |
| `CompoundSelect.FlagsAreRight` | password_package/Pods/WCDBOptimizedSQLCipher/src/select.c:2128-2158 | In every finished compound, at every depth: SF_Compound on all nodes of a chain of two or more and on no single one, SF_Values on exactly the rows, SF_MultiValue only on the newest node of a chain of rows and on every such chain in a FROM clause |
| `CompoundSelect.OverwritingLosesRows` | password_package/Pods/WCDBOptimizedSQLCipher/parse.c:2708-2714 | A concrete compound whose meaning would change if the right operand's chain were overwritten instead of wrapped |
| `SelectBuilder.LinkBack` | password_package/Pods/WCDBOptimizedSQLCipher/parse.c:92-97 | The loop sets pNext to the inverse of pPrior with null at the head, sets SF_Compound on every node, changes nothing else and counts the nodes |
| `SelectBuilder.DoubleLinkSelect` | password_package/Pods/WCDBOptimizedSQLCipher/parse.c:90-105 | A chain of two nodes or more is doubly linked and checked against the limit, a single node is left alone, and no node off the chain is touched |
| `SelectBuilder.ReduceFirstRow` | password_package/Pods/WCDBOptimizedSQLCipher/parse.c:2774-2780 | The node of a first row, or null without memory; the nodes that are live change by just that |
| `SelectBuilder.ReduceNextRow` | password_package/Pods/WCDBOptimizedSQLCipher/parse.c:2781-2796 | The new row goes on top of the same nodes; without memory the rows so far are kept and none is freed |
| `SelectBuilder.WrapRight` | password_package/Pods/WCDBOptimizedSQLCipher/parse.c:2708-2715 | A right operand that is a chain is doubly linked and put whole into the FROM clause of one new node; if there is no memory for that, all its nodes are freed |
| `SelectBuilder.SelectDelete` | password_package/Pods/WCDBOptimizedSQLCipher/src/select.c:67-83 | The loop over pPrior and the recursion into FROM free every node the pointer leads to, and none twice |
| `SelectBuilder.SelectNew` | password_package/Pods/WCDBOptimizedSQLCipher/src/select.c:101-155 | A new node, or null without memory; then what would have gone into it is freed |
| `SelectBuilder.ReduceCompound` | password_package/Pods/WCDBOptimizedSQLCipher/parse.c:2703-2728 | With memory all nodes of both operands stay in the result, none is reached twice, pPrior is written only where it was null, chains inside FROM clauses are doubly linked at every depth, and hasCompound and the error count change exactly as they should; without, all of them are freed, once |
| `SelectBuilder.ReduceSelect` | password_package/Pods/WCDBOptimizedSQLCipher/parse.c:2689-2702 | The finished chain is linked both ways, and so is every chain inside it |
| `SelectBuilder.ParseSelect` | password_package/Pods/WCDBOptimizedSQLCipher/parse.c:2689-2796 | All reductions for any source text and any amount of memory.  If it suffices, the heap holds the linked chain whose meaning is that of the source, with the limit error and hasCompound exactly when due; mallocFailed is set if and only if it does not suffice; always every chain of two nodes or more is doubly linked at every depth, and the live nodes are those before and those of the result: nothing leaks, nothing is freed twice |
| `ExprRewrite.AndIsDecidedIff` | password_package/Pods/WCDBOptimizedSQLCipher/src/vdbe.c:2245-2298 | AND gives a truth value if and only if every replacement of its NULL operands by true or false gives that value, and NULL otherwise |
| `ExprRewrite.OrIsDecidedIff` | password_package/Pods/WCDBOptimizedSQLCipher/src/vdbe.c:2254-2298 | So does OR |
| `ExprRewrite.NotIsDecidedIff` | password_package/Pods/WCDBOptimizedSQLCipher/src/vdbe.c:2299-2316 | And NOT |
| `ExprRewrite.ComparisonIsNullIff` | password_package/Pods/WCDBOptimizedSQLCipher/src/vdbe.c:1996-2027 | A comparison is NULL if and only if an operand is; IS never is, and is true if and only if both are NULL or they are equal |
| `ExprRewrite.BetweenLaw` | password_package/Pods/WCDBOptimizedSQLCipher/parse.c:3375-3391 | x BETWEEN lo AND hi has the value of x >= lo AND x <= hi |
| `ExprRewrite.InLaw` | password_package/Pods/WCDBOptimizedSQLCipher/parse.c:3392-3446 | x IN (y, ...) has the value of x = y OR x IN (...), and nothing is in the empty list |
| `ExprRewrite.CaseLaw` | password_package/Pods/WCDBOptimizedSQLCipher/src/expr.c:3800-3866 | A simple CASE has the value of the searched CASE that compares its operand with each WHEN |
| `ExprRewrite.InListMeans` | password_package/Pods/WCDBOptimizedSQLCipher/parse.c:3392-3446 | IN and NOT IN with no, one or many items have the value of the disjunction of comparisons, NULL included |
| `ExprRewrite.EmptyListNeedsItsConstant` | password_package/Pods/WCDBOptimizedSQLCipher/parse.c:3395-3405 | Searching an empty list is right only for an operand that is not NULL, so the constant that is built instead is needed |
| `ExprRewrite.SearchIsAnyEqual` | password_package/Pods/WCDBOptimizedSQLCipher/src/expr.c:2758-2796 | The evaluation of TK_IN, comparisons first and NULL afterwards, is the disjunction if and only if the list has an item or the operand is not NULL |
| `ExprRewrite.RowsAreAnyEqual` | password_package/Pods/WCDBOptimizedSQLCipher/src/expr.c:2798-2895 | So is the evaluation over a sub-select, on all rows and operands |
| `ExprRewrite.ExprAndMeans` | password_package/Pods/WCDBOptimizedSQLCipher/src/expr.c:890-904 | Dropping an operand of AND because the other is a constant zero under any signs never changes the value, not even to NULL |
| `ExprRewrite.IsOrUnaryMeans` | password_package/Pods/WCDBOptimizedSQLCipher/parse.c:183-190 | Turning IS NULL and IS NOT NULL on two operands into unary tests keeps the value |
| `ExprRewrite.WhenKept` | password_package/Pods/WCDBOptimizedSQLCipher/src/expr.c:3800-3866 | The flat list of tests and results, with an odd element for ELSE, selects what the CASE as written selects |
| `ExprRewrite.ZeroIff` | password_package/Pods/WCDBOptimizedSQLCipher/src/expr.c:875-884 | The constants that swallow an AND are exactly the literal zeros under any signs |
| `ExprRewrite.NothingIsLeft` | password_package/Pods/WCDBOptimizedSQLCipher/src/expr.c:890-904 | From source reduced without errors no tree keeps an AND with a constant zero, an IS with the literal NULL on the right or an IN list of fewer than two items to search |
| `ExprRewrite.RewritingPreservesMeaning` | password_package/Pods/WCDBOptimizedSQLCipher/parse.c:3338-3503 | For every expression of AND, OR, NOT, comparisons, IN, BETWEEN, IS, NULL tests, CASE, signs and other operators, the tree built has exactly the value of the source, NULL included |
| `ExprSpan.SpanCoversKeptTokens` | password_package/Pods/WCDBOptimizedSQLCipher/parse.c:3135-3760 | For every derivation the span starts at the first token and ends with the last token that is not part of a trailing argument list of rule 194 |
| `ExprSpan.SpanIsExactIff` | password_package/Pods/WCDBOptimizedSQLCipher/parse.c:112-156 | In a text, the end is that of the last token if and only if the rightmost path does not end in `expr in_op nm dbnm paren_exprlist` with an argument list |
| `ExprSpan.ClosingMakesExact` | password_package/Pods/WCDBOptimizedSQLCipher/parse.c:3135-3139 | Parentheses or any closing token make the span exact again |
| `SpanSlots.SpanSet` | password_package/Pods/WCDBOptimizedSQLCipher/parse.c:112-119 | The span of two tokens, also when it is written over the first of them; over the second it goes wrong, which is why rule 159 copies its token |
| `SpanSlots.SpanExpr` | password_package/Pods/WCDBOptimizedSQLCipher/parse.c:121-143 | The span of a token written over that token |
| `SpanSlots.SpanBinaryExpr` | password_package/Pods/WCDBOptimizedSQLCipher/parse.c:148-156 | Start of the left operand, end of the right one |
| `SpanSlots.SpanUnaryPostfix` | password_package/Pods/WCDBOptimizedSQLCipher/parse.c:170-179 | Start of the operand, end of the operator |
| `SpanSlots.SpanUnaryPrefix` | password_package/Pods/WCDBOptimizedSQLCipher/parse.c:195-205 | The operator's start is read before its slot is overwritten |
| `SpanSlots.Reduce` | password_package/Pods/WCDBOptimizedSQLCipher/parse.c:3135-3760 | The actions on stack slots in which tokens and spans overlay one another, a token's length being half a word, leave the span of every derivation whatever the slots held before |
| `PbLayout.TypeBitsDecode` | password_package/Pods/nanopb/pb.h:181-200 | The masks take the type byte of every combination of rule and allocation apart again |
| `PbLayout.TypeByte` | password_package/Pods/nanopb/pb.h:136-196 | The type byte by its value: four bits of field type, two of rule, two of allocation; the packable types are exactly the scalar numbers |
| `PbLayout.TypesToldApartIff` | password_package/Pods/nanopb/pb.h:495-516 | Two field types share a code if and only if they are coded alike on the wire |
| `PbLayout.DescriptorSizesIff` | password_package/Pods/nanopb/pb.h:393-448 | Entry size and capacity of a descriptor are those of the member if and only if they fit |
| `PbLayout.EntriesLieInside` | password_package/Pods/nanopb/pb_decode.c:431-433 | The address that the decoder computes for any entry up to array_size is that of the array's entry and lies inside the member |
| `PbLayout.AdvanceIsExact` | password_package/Pods/nanopb/pb_common.c:42-63 | What the iterator adds for a field it leaves is at most the member's size, and is its size if and only if entry size and count survive narrowing |
| `PbLayout.StepIsExact` | password_package/Pods/nanopb/pb_common.c:44-74 | From true addresses the next ones are true if and only if the stored deltas fit and none between two unions looks like the sentinel |
| `PbLayout.RoundTripIff` | password_package/Pods/nanopb/pb.h:393-549 | Layout round trip, exactly: decoding the macro-encoded descriptors gives the true address of every member and of its has, count or which field if and only if all deltas fit |
| `PbLayout.LargeMemberIsLost` | password_package/Pods/nanopb/pb.h:409-411 | A concrete failure with 8-bit sizes: after a member of 300 bytes the next one is missed |
| `PbLayout.GapLooksLikeUnion` | password_package/Pods/nanopb/pb_common.c:44-50 | A concrete failure in which everything fits: a gap of PB_SIZE_MAX bytes between two unions reads as one union |
| `PbIterator.FieldIter.Begin` | password_package/Pods/nanopb/pb_common.c:8-18 | The iterator is at the first field with its addresses, and says whether there is one |
| `PbIterator.FieldIter.Next` | password_package/Pods/nanopb/pb_common.c:20-76 | One step in cyclic order; pData, pSize and required_field_index stay functions of pos, also across unions and the wrap |
| `PbIterator.FieldIter.Find` | password_package/Pods/nanopb/pb_common.c:78-95 | Succeeds if and only if some field that is no extension has the tag, stops at the first in cyclic order, and on failure restores pos, pData, pSize and required_field_index |
| `PbIterator.FieldIter.FullCycle` | password_package/Pods/nanopb/pb_common.c:20-76 | As many calls as there are fields leave the iterator as it was; exactly one of them answers false, and each field is seen exactly once, with its addresses |
| `PbIterator.FindMember` | password_package/Pods/nanopb/pb_common.c:78-95 | On the descriptors of a message, Find succeeds if and only if some member that is no extension has the tag; it stops at the first such member in cyclic order, at its true addresses if the deltas fit, and otherwise restores the iterator |
| `PbIterator.RequiredAreCounted` | password_package/Pods/nanopb/pb_common.c:66-71 | required_field_index counts the required members before the position |
| `PbIterator.IteratorIsTrue` | password_package/Pods/nanopb/pb_common.c:20-76 | A valid iterator over an encoded message whose deltas fit points at the true address of its member and of that member's has_, _count or which_ variable, by rule and allocation |
| `KeywordSearch.KeywordCode` | password_package/Pods/WCDBOptimizedSQLCipher/keywordhash.h:137-160 | For all tables with the chain invariants and all byte strings, the nested loops return what a plain scan of the keywords returns, and the old type if there is none |
| `KeywordSearch.MatchHasBucket` | password_package/Pods/WCDBOptimizedSQLCipher/keywordhash.h:137-150 | A string that matches under the fold falls into the keyword's bucket |
| `KeywordSearch.MatchIsUnique` | password_package/Pods/WCDBOptimizedSQLCipher/keywordhash.h:139-150 | At most one keyword matches a string |
| `KeywordSearch.ChainIsLinear` | password_package/Pods/WCDBOptimizedSQLCipher/keywordhash.h:72-83 | Two keywords of one chain: one comes after the other |
| `SqlKeywordFacts.Texts` | password_package/Pods/WCDBOptimizedSQLCipher/keywordhash.h:27-134 | The overlapping text holds the name of every keyword at its offset and length, all inside the text |
| `SqlKeywordFacts.Links` | password_package/Pods/WCDBOptimizedSQLCipher/keywordhash.h:60-83 | Every keyword is first in its bucket's chain or linked from a later one, and chain indices strictly decrease |
| `SqlKeywordFacts.Rests` | password_package/Pods/WCDBOptimizedSQLCipher/keywordhash.h:72-83 | No keyword is spelled like one after it on its chain |
| `SqlKeywordBuckets.Hashes` | password_package/Pods/WCDBOptimizedSQLCipher/keywordhash.h:137-138 | The bucket of every keyword, by the exclusive-or hash on machine words |
| `SqlKeywordBuckets.WordBucketIsHash` | password_package/Pods/WCDBOptimizedSQLCipher/keywordhash.h:138 | Working on words agrees with the hash of the recogniser |
| `SqlTokens.Codes` | password_package/Pods/WCDBOptimizedSQLCipher/parse.c:1055-1091 | Two tables of the source agree: the code of each keyword is that of the terminal whose name it is, or, for JOIN_KW, LIKE_KW, CTIME_KW, TEMP, AUTOINCR and COLUMNKW, whose word it is |
| `SqlTokens.IdIsNoKeyword` | password_package/Pods/WCDBOptimizedSQLCipher/parse.c:1068 | The code for everything else is that of the terminal ID |
| `SqlKeywords.SqlIsValid` | password_package/Pods/WCDBOptimizedSQLCipher/keywordhash.h:27-134 | The shipped tables satisfy every invariant of the recogniser |
| `SqlKeywords.NamesAreDistinct` | password_package/Pods/WCDBOptimizedSQLCipher/keywordhash.h:155-278 | No string spells two of the 124 keywords |
| `SqlKeywords.Sqlite3KeywordCode` | password_package/Pods/WCDBOptimizedSQLCipher/keywordhash.h:280-284 | The code of the terminal that the string is a word of under the fold, and that of ID if it spells no keyword |
| `SqlKeywords.SpellingIsCaselessIff` | password_package/Pods/WCDBOptimizedSQLCipher/keywordhash.h:146 | Keywords are recognised in any letter case, and what is recognised is a keyword in some letter case if and only if it has no byte 0x7F |
| `SqlKeywords.DeleteReadsAsUnderscore` | password_package/Pods/WCDBOptimizedSQLCipher/keywordhash.h:146 | A concrete string with byte 0x7F that is recognised although it is no keyword |

## Left out

- LemonParser.Parser.Free: models the destructor calls, not the release of the stack array and of the object.
- SelectBuilder.SelectNew: counts one allocation for a node with its lists; an allocation failing elsewhere has the effect of memory running out before the next node.
- ExprRewrite.RewritingPreservesMeaning: affinity and collation flags (EP_Generic, EP_Collate) are not modelled, one abstract equality serves all comparisons; allocations succeed.
- ExprRewrite.IsOrUnaryMeans: the node is a new value, not one whose operator is overwritten and whose right operand is freed in place.
- SpanSlots.Reduce: addresses are unbounded numbers; the rule for vectors sets its span only if its node was allocated, which is taken for granted.
- KeywordSearch.KeywordCode: the EBCDIC branch is not modelled.
- The automaton with 460 states of the SQL grammar is not transcribed, so that it meets `Valid` and `Complete` is not proved; only the tables of the keyword recogniser are checked entry by entry.
- Error recovery (YYERRORSYMBOL, and the default branch) is compiled out in the source's configuration; tracing and the high-water mark have no effect on parsing.
- Tokens whose code is not that of a terminal, which the tokenizer never produces.
- ORDER BY, LIMIT and WITH of compounds, and the order of result rows but for those of VALUES: bags only.  LIKE forms and row values are not part of the expression model.
- The other reduce actions forward to code generation and would only add easy members.
- Extension fields with PB_OPTEXT macros, varint coding and streams of nanopb.
- Application and UI headers, which hold declarations only.
