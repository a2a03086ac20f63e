# PyMolinfo core, modelled in Dafny

PyMolinfo reads molecules, builds graphs of their atoms and bonds, and finds functional
groups in them. The repository carries two packages: `molinfo`, the older one, and its
successor `pyMolinfo`. This project models their sequential core and proves properties of
the model. Every module is one `.dfy` file directly in this directory; all files are
verified together.

What is modelled, in the system's own terms:

- **Molfile reader** (`molinfo/docs/molparser.py`). `sdf_parser` reads a V2000 Molfile or
  SDfile record (modules `MolParser`, `SdfCounts`, `SdfAtoms`, `SdfValues`, `BondBlocks`).
  It checks for the `V2000` tag and the `M  END` line. It reads the counts line as the
  source does. That includes the `split`-based recovery used when a 9-field counts line has
  its atom and bond counts run together, which misreads some counts (see Findings).
  It reads the atom records, files the bond rows per atom, and normalises the data items.
  The formula, name and mass fall back as the source does.
- **JSON side of the reader** (`JsonParser`, `AtomIds`). This covers the property list and
  the bond matrix from the three bond columns. `SetAtomId` renumbers atoms by their distance
  from the observation point, and `arrange_prop` reorders per-atom lists to match.
- **Formula and flat bond list**. `Structure` models `create_formula` and `Compound`
  models `convert_atom_bonds` and `__str__`.
- **Two chain compilers** (`pyMolinfo/docs/molecule.py` and `pyMolinfo/docs/molconstructor.py`).
  - They read the same chain notation (`ChainText`): bonds `C1-C2`, gates `C5-*` and `*=C1`,
    and references `C1*{Chain1}` and `{Chain1}*C1` from the main chain.
  - `Molecule` renames each chain once per reference (`MoleculeCheck`, `ChainRename`). It
    re-indexes the side chains and resolves each reference with the chain's first gate
    (`MoleculeCompiler`).
  - `MoleculeConstructor` sorts the side chains into branches, rings and bridges by their
    star count (`MolConstructor`). It records receivers, re-indexes the side chains and
    resolves references. A ring attaches all of its gates; a bridge uses the gate at the
    receiver's position.
  - Both compilers emit the main chain followed by the bonds of every chain.
- **Graph builders**. `BondToken` reads a bond token such as `C1=O2` into two nodes and
  an edge of a networkx graph (`NxGraph`). `CustomChemGraph` and `MolinfoCustomChemGraph`
  build user-defined groups with the two versions of `create_custom_graph`. `MolGraph`
  builds one named molecule graph.
- **Pattern library and matcher**.
  - `ChemGraphs` and `MolinfoChemGraphs` hold the functional-group patterns of the two
    versions of `chemgraphs.py`.
  - `PatternGraphs` replays a pattern's `add_node`/`add_edge` calls.
  - `SubgraphMatch` gives the contract of networkx's `GraphMatcher`: node-induced subgraph
    isomorphism, with a brute-force enumerator proved sound and complete against it.
  - `FunctionalGroups` and `GroupRequests` hold the matching logic both `Network` classes
    share. This covers the compound graph, the first-variant-wins presence check, the count
    of distinct target-atom sets and the walk over a request list. It also covers the
    running-count search and the group/subgroup split.
  - `Network` (pyMolinfo, a class whose methods update its fields) and `MolinfoNetwork`
    (molinfo) put these together.
- **Python building blocks** (`PyText`, `PyDict`, `SeqFolds`, `Wrappers`). These cover the
  string functions the code relies on (`strip`, `split`, `splitlines`, `int`, `str`) and
  the insertion-ordered `dict`. They also hold the list folds the compilers share, and
  `Option`/`Result` for the source's exceptions.

Where the source updates state in place, the model does too. `MolConstructor.MoleculeConstructor`,
`MoleculeCompiler.Molecule`, `Network.Network`, `MolinfoNetwork.Network` and `NxGraph.Graph`
are classes. The loops of the source are methods with loop invariants. Each such method
is proved to compute a specification function, and the properties the source promises
are proved about that function as lemmas.

## Model

| member | source | states |
|---|---|---|
| PyText.WordRun | molinfo/docs/molparser.py:147 | the run of non-white-space characters from `i` stays inside the text and stops at white space or the end |
| PyText.LineRun | molinfo/docs/molparser.py:136 | the run of characters from `i` holds no line boundary and stops at one or at the end |
| PyText.LStrip | pyMolinfo/docs/customchemgraph.py:96 | `lstrip()`: a suffix of the text; exactly the leading white space is removed and the result starts with a non-space |
| PyText.RStrip | pyMolinfo/docs/customchemgraph.py:96 | `rstrip()`: a prefix of the text; exactly the trailing white space is removed and the result ends with a non-space |
| PyText.StripNoSpace | molinfo/docs/molparser.py:999 | `strip()` leaves a text without white space unchanged |
| PyText.SplitWs | molinfo/docs/molparser.py:147 | `split()` yields only non-empty words free of white space |
| PyText.SplitFrom | molinfo/docs/molparser.py:210 | the words of the text from position `i` on are non-empty and free of white space |
| PyText.WordAt | molinfo/docs/molparser.py:210 | at a non-space character a word of length at least one starts |
| PyText.ConsWords | molinfo/docs/molparser.py:210 | a word put in front of a list of words keeps every element a word |
| PyText.FindFrom | molinfo/docs/molparser.py:143 | `find(sep, i)`: the first occurrence at or after `i`, and none when no occurrence exists |
| PyText.Find | molinfo/docs/molparser.py:143 | `find(sep)`: the first occurrence of `sep`; absent exactly when `sep` occurs nowhere |
| PyText.SplitOn | pyMolinfo/docs/customchemgraph.py:137-141 | `split(sep)` always yields at least one piece |
| PyText.SplitOnSecond | molinfo/docs/molparser.py:180 | piece 1 of `split(sep)` exists exactly when `sep` occurs, and is the text between its first and second occurrence |
| PyText.SplitOnJoin | pyMolinfo/docs/customchemgraph.py:137 | splitting on a one-character separator gives back the pieces joined with it when no piece contains it |
| PyText.CharAbsent | pyMolinfo/docs/customchemgraph.py:137 | a character that does not occur is not found |
| PyText.NotFoundFrom | pyMolinfo/docs/customchemgraph.py:137 | no occurrence from `i` on means `find` from `i` fails |
| PyText.CharFirst | pyMolinfo/docs/customchemgraph.py:137 | a character first occurring after a prefix free of it is found at the prefix's length |
| PyText.FoundFrom | pyMolinfo/docs/customchemgraph.py:137 | an occurrence at `p` with none between `i` and `p` is what `find` from `i` returns |
| PyText.SplitLines | molinfo/docs/molparser.py:136 | `splitlines()` yields lines that contain no line boundary |
| PyText.SplitLinesTerminated | molinfo/docs/molparser.py:136 | `splitlines` gives back exactly the lines of a text in which every line ends with a line feed |
| PyText.RunStops | molinfo/docs/molparser.py:136 | the line run of a line followed by a line feed is that line's length |
| PyText.NatToStringDigits | molinfo/docs/molparser.py:180 | `str(n)` is a non-empty run of decimal digits whose value is `n`, with no leading zero unless `n` is 0 |
| PyText.ParseInt | molinfo/docs/molparser.py:160 | `int(s)` succeeds only on a non-empty text |
| PyText.ParseIntToString | molinfo/docs/molparser.py:180 | `int(str(i)) == i` for every integer |
| PyText.PyIndex | molinfo/docs/molparser.py:279 | list indexing succeeds exactly for `-len <= i < len` (negative indices count from the end) |
| PyText.IndexOf | molinfo/docs/molparser.py:151 | `index(x)`: a position holding `x` with no earlier one; absent exactly when `x` is not in the list |
| PyText.Slice | molinfo/docs/molparser.py:154 | `s[a:b]` is the slice when the bounds fit, and otherwise the clipped elements `s[a+k]` below `b` |
| PyText.Lower | pyMolinfo/docs/customchemgraph.py:115 | `lower()` keeps the length and lowers each character on its own |
| PyDict.KeyInItems | pyMolinfo/docs/molconstructor.py:96 | in a well-formed dict every listed key has a value |
| PyDict.EmptyDict | pyMolinfo/docs/molconstructor.py:26-28 | `{}` is a well-formed dict with no keys |
| PyDict.Put | pyMolinfo/docs/molconstructor.py:102 | `d[k] = v` keeps the dict well-formed, maps `k` to `v`, appends a new key last and leaves an existing key in its place |
| PyDict.PutValid | pyMolinfo/docs/molconstructor.py:102 | assigning a key keeps keys distinct and every key with a value |
| PyDict.PutNewValid | pyMolinfo/docs/molconstructor.py:102 | appending a fresh key with its value keeps the dict well-formed |
| PyDict.FromPairs | molinfo/docs/molparser.py:1008-1012 | the dict built by assigning pairs in order is well-formed |
| PyDict.PutAllSnoc | molinfo/docs/molparser.py:1008-1012 | assigning one more pair after the others is one more `d[k] = v` |
| PyDict.FromPairsLastWins | molinfo/docs/molparser.py:1008-1012 | a dict built from pairs holds exactly the keys that occur, and a repeated key holds its last pair's value |
| PyDict.FromPairsGet | molinfo/docs/molparser.py:1008-1012 | a key's value in the built dict is its last pair's value |
| PyDict.LastValueSome | molinfo/docs/molparser.py:1008-1012 | some pair has key `k` exactly when a last value for `k` exists |
| PyDict.LastValueAt | molinfo/docs/molparser.py:1008-1012 | the last pair with a key decides that key's value |
| PyDict.FromPairsSnoc | molinfo/docs/molparser.py:1008-1012 | building from pairs plus one more equals putting that pair into the dict built so far |
| PyDict.LastValueFound | molinfo/docs/molparser.py:1008-1012 | a last value found comes from some pair with that key |
| PyDict.PutAll | pyMolinfo/docs/molconstructor.py:104-111 | assigning pairs in order into a well-formed dict keeps it well-formed |
| PyDict.PutAllGet | pyMolinfo/docs/molconstructor.py:104-111 | after the assignments a key holds its last pair's value, or its old value if no pair has it; old keys keep their places and new ones follow |
| PyDict.PutAllAppend | pyMolinfo/docs/molconstructor.py:104-111 | assigning `a + b` equals assigning `a` then `b` |
| PyDict.PairKeys | pyMolinfo/docs/molconstructor.py:96 | definition: the pairs' keys, in order |
| PyDict.PairKeysAppend | pyMolinfo/docs/molconstructor.py:96 | the keys of joined pair lists are the joined key lists |
| PyDict.PutAllFreshKeys | pyMolinfo/docs/molconstructor.py:104-111 | assigning pairs with new, distinct keys appends exactly their keys, in order |
| PyDict.PutAllFreshItems | pyMolinfo/docs/molconstructor.py:104-111 | a key neither in the dict nor among the pairs stays absent |
| PyDict.LastValueAppend | molinfo/docs/molparser.py:1008-1012 | the last pair for a key in `a + b` is `b`'s when `b` has one, otherwise `a`'s |
| PyDict.SameKeysValid | pyMolinfo/docs/molconstructor.py:147-149 | keeping the keys and their order while changing values keeps the dict well-formed |
| PyDict.Replace | pyMolinfo/docs/molconstructor.py:149 | `d[k] = v` for a present key keeps the keys and their order and changes only `k`'s value |
| SeqFolds.ConcatPrefix | pyMolinfo/docs/molconstructor.py:281-283 | the blocks before `k`, joined, are a prefix of all blocks joined |
| SeqFolds.ConcatBlock | pyMolinfo/docs/molconstructor.py:281-283 | block `k` sits in the joined list right after the blocks before it |
| SeqFolds.Collect | pyMolinfo/docs/molconstructor.py:234-270 | collecting `n` results that succeed gives exactly `n` replacements |
| SeqFolds.CollectAt | pyMolinfo/docs/molconstructor.py:234-270 | collecting succeeds exactly when every result does, and keeps each replacement at its position |
| SeqFolds.CollectExtras | pyMolinfo/docs/molconstructor.py:217-218 | a property of every appended item of every result holds of every collected appended item |
| SeqFolds.Results | pyMolinfo/docs/molconstructor.py:234 | definition: the step applied to every item, position by position |
| SeqFolds.StepAt | pyMolinfo/docs/molconstructor.py:234-270 | one pass of the loop body never shortens the list |
| SeqFolds.StepAll | pyMolinfo/docs/molconstructor.py:234-270 | the loop over the first `n` positions never shortens the list |
| SeqFolds.StepAllIs | pyMolinfo/docs/molconstructor.py:234-270 | after `n` positions the list is the `n` replacements, the untouched rest, then everything appended so far |
| SeqFolds.StepAllAt | pyMolinfo/docs/molconstructor.py:234-270 | the whole loop fails exactly when the step fails on some original item; otherwise every item is replaced in place and all extra items are appended in order |
| SeqFolds.StepAllKept | pyMolinfo/docs/molconstructor.py:234-270 | visiting appended positions changes nothing when the step keeps such items as they are |
| SeqFolds.KeepOne | pyMolinfo/docs/molconstructor.py:234-270 | an item the step keeps yields itself and no extras |
| SeqFolds.StepAllErr | pyMolinfo/docs/molconstructor.py:234-270 | once the loop has failed it stays failed with the same error |
| SeqFolds.StepLoop | pyMolinfo/docs/molconstructor.py:234-270 | the in-place loop over a growing list ends as `StepAll` over the items present at the start |
| SeqFolds.ConcatSnoc | pyMolinfo/docs/molconstructor.py:281-283 | the blocks before `k + 1` are those before `k` followed by block `k` |
| SeqFolds.ConcatLoop | pyMolinfo/docs/molconstructor.py:272-283 | extending a list block by block yields the start followed by all blocks joined in order |
| NxGraph.Empty | pyMolinfo/docs/chemgraphs.py:18 | `nx.Graph()` is a well-formed graph with no nodes and no edges |
| NxGraph.Insert | pyMolinfo/docs/chemgraphs.py:20 | the node order gains `k` and nothing else, and stays free of duplicates |
| NxGraph.WithNode | pyMolinfo/docs/chemgraphs.py:20 | after `add_node(k, symbol=s)` node `k` exists with symbol `s` and the edges are unchanged |
| NxGraph.WithEdge | pyMolinfo/docs/chemgraphs.py:24 | after `add_edge(u, v, ...)` both ends exist, the edge carries the given attributes, and no symbol changes |
| NxGraph.WithNodeValid | pyMolinfo/docs/chemgraphs.py:20 | `add_node` keeps the graph well-formed |
| NxGraph.WithEdgeValid | pyMolinfo/docs/chemgraphs.py:24 | `add_edge` keeps the graph well-formed |
| NxGraph.AddNodeEffect | pyMolinfo/docs/chemgraphs.py:20 | adding a node keeps every edge, adds exactly that node and sets exactly its symbol |
| NxGraph.AddNodeTwice | pyMolinfo/docs/customchemgraph.py:167-170 | re-adding a node only changes its symbol: the last `add_node` wins |
| NxGraph.AddEdgeUndirected | pyMolinfo/docs/chemgraphs.py:24 | `add_edge(u, v)` and `add_edge(v, u)` give the same edges and the same nodes |
| NxGraph.AddEdgeTwice | pyMolinfo/docs/customchemgraph.py:171-173 | re-adding an edge in either direction overwrites its attributes |
| NxGraph.AddSelfLoop | pyMolinfo/docs/customchemgraph.py:171-173 | a self-loop is an edge keyed by one node; it adds that one node once |
| NxGraph.Graph.constructor | pyMolinfo/docs/chemgraphs.py:18 | a fresh graph object holding the empty graph |
| NxGraph.Graph.AddNode | pyMolinfo/docs/chemgraphs.py:20 | the object's graph becomes `WithNode` of the old one, still well-formed |
| NxGraph.Graph.AddEdge | pyMolinfo/docs/chemgraphs.py:24 | the object's graph becomes `WithEdge` of the old one, still well-formed |
| NxGraph.Graph.SetName | pyMolinfo/docs/molgraph.py:126-129 | setting the graph's name changes only its name |
| SubgraphMatch.KeepEmbeddings | pyMolinfo/docs/netwrok.py:220-226 | the kept candidates are exactly the embeddings among the input candidates |
| SubgraphMatch.Embeddings | pyMolinfo/docs/netwrok.py:578-582 | every mapping enumerated is a node-induced subgraph isomorphism respecting `node_match` and the edge types |
| SubgraphMatch.ChoicesContain | pyMolinfo/docs/netwrok.py:578-582 | an extension choosing a node at or after position `j` is among the choices from `j` |
| SubgraphMatch.ExtensionsComplete | pyMolinfo/docs/netwrok.py:578-582 | every injective extension onto the remaining pattern nodes drawn from the target is enumerated |
| SubgraphMatch.EmbeddingsComplete | pyMolinfo/docs/netwrok.py:578-582 | every embedding of the pattern in the target is enumerated |
| SubgraphMatch.SubgraphIsIsomorphicIff | pyMolinfo/docs/netwrok.py:220-226 | `subgraph_is_isomorphic()` holds exactly when some embedding exists |
| SdfAtoms.AtomRow | molinfo/docs/molparser.py:209-236 | an atom line reads exactly when it has at least four fields and the first three parse as numbers; the atom then has the given id and the 4th field as symbol |
| SdfAtoms.AtomBlock | molinfo/docs/molparser.py:186-238 | a read block has exactly `n` atoms, taken from the first `n` of the lines |
| SdfAtoms.AtomBlockOk | molinfo/docs/molparser.py:208-238 | the block reads exactly when there are `n` lines that each read as an atom; atom `k` is line `k` with id `k + 1` |
| SdfAtoms.AtomBlockReads | molinfo/docs/molparser.py:208-238 | a read block comes from `n` readable lines, atom `k` being line `k` read with id `k + 1` |
| SdfAtoms.AtomBlockFails | molinfo/docs/molparser.py:208-238 | a failed block has some missing or unreadable line |
| SdfAtoms.AtomIdsAndSymbols | molinfo/docs/molparser.py:215-225 | atoms are numbered 1..n in file order and take their symbol from their line's 4th field |
| SdfAtoms.Symbols | molinfo/docs/molparser.py:218 | definition: `atomList`: the atoms' symbols, in order |
| SdfAtoms.Coordinates | molinfo/docs/molparser.py:238 | definition: `xyzList`: the atoms' coordinates, in order |
| SdfAtoms.ReadAtoms | molinfo/docs/molparser.py:208-238 | the atom loop computes `AtomBlock` |
| SdfAtoms.AtomBlockTooShort | molinfo/docs/molparser.py:210 | fewer than `n` lines raise an index error |
| SdfAtoms.AtomBlockStops | molinfo/docs/molparser.py:210-213 | an unreadable line among the first `n` raises |
| SdfCounts.FirstShorter | molinfo/docs/molparser.py:174-182 | the first line at or after `from` shorter than line 0, or none when no later line is shorter |
| SdfCounts.SplitBondCount | molinfo/docs/molparser.py:180 | the bond count is read only when the atom count's text occurs in the merged field |
| SdfCounts.MergedBondCountRoundTrip | molinfo/docs/molparser.py:180 | corrected reading: the text after the leading atom count gives back the bond count for every pair of counts |
| SdfCounts.SplitBondCountMisreads | molinfo/docs/molparser.py:180 | as written, 99 atoms and 199 bonds (`99199`) read as 1 bond, where the corrected reading gives 199 |
| SdfCounts.SplitReads99199 | molinfo/docs/molparser.py:180 | `"99199".split("99")[1]` reads as 1 |
| SdfCounts.MergedReads99199 | molinfo/docs/molparser.py:180 | the corrected reading of `99199` with 99 atoms is 199 |
| SdfCounts.Digits99 | molinfo/docs/molparser.py:180 | `str(99)` and `str(199)` are their digits |
| SdfCounts.Split99199 | molinfo/docs/molparser.py:180 | piece 1 of `"99199".split("99")` is `1` |
| SdfCounts.SplitBondCountFails | molinfo/docs/molparser.py:180 | as written, 100 atoms and 100 bonds (`100100`) fail, where the corrected reading gives 100 |
| SdfCounts.SplitReads100100 | molinfo/docs/molparser.py:180 | `"100100".split("100")[1]` is empty and does not read as a number |
| SdfCounts.MergedReads100100 | molinfo/docs/molparser.py:180 | the corrected reading of `100100` with 100 atoms is 100 |
| SdfCounts.Split100100 | molinfo/docs/molparser.py:180 | piece 1 of `"100100".split("100")` is empty |
| SdfCounts.CountsTenFields | molinfo/docs/molparser.py:158-162 | a 10-field counts line succeeds exactly when its first two fields are integers, which are then the counts |
| SdfCounts.CountsNineFields | molinfo/docs/molparser.py:163-182 | a 9-field line succeeds only with a table line shorter than the first; the atom count is then the first such index, never 0; with none it fails; the bond count is read as written (see Findings) |
| SdfCounts.CountsOtherFields | molinfo/docs/molparser.py:183-184 | a counts line with other than 9 or 10 fields is rejected |
| SdfCounts.ReadCounts | molinfo/docs/molparser.py:156-184 | the counts step, scanning the table in the 9-field case and reading a merged bond count with the source's `split` (`SplitBondCount`), computes `CountsFrom` |
| SdfCounts.SplitBondCountAgrees | molinfo/docs/molparser.py:180 | when the bond count's text does not contain the atom count's text, the split reading gives the bond count and agrees with the corrected reading |
| SdfCounts.CountsNineFieldsMerged | molinfo/docs/molparser.py:163-182 | a 9-field line whose merged field is the atom count followed by the bond count, with the table giving that atom count, reads both counts when the bond text does not contain the atom text |
| SdfValues.StripEach | molinfo/docs/molparser.py:999 | definition: every line stripped, one result per line |
| SdfValues.DropEmpty | molinfo/docs/molparser.py:1000 | the non-empty lines: nothing else, and every non-empty line kept; order and multiplicity are stated by `DropEmptyAppend` |
| SdfValues.NormalizeValue | molinfo/docs/molparser.py:997-1006 | a value is one trimmed line, or a list (never of exactly one line) of trimmed lines |
| SdfValues.StrippedLines | molinfo/docs/molparser.py:999-1000 | after stripping and dropping blanks every line is non-empty and trimmed at both ends |
| SdfValues.DropEmptyTrimmed | molinfo/docs/molparser.py:1000 | dropping blanks from stripped lines leaves only trimmed lines |
| SdfValues.LStripFirst | molinfo/docs/molparser.py:999 | a stripped line neither starts nor ends with white space |
| SdfValues.NormalizeJoined | molinfo/docs/molparser.py:997-1006 | a body of lines joined by line feeds comes back as those lines, stripped and without blanks |
| SdfValues.NormalizeOneLine | molinfo/docs/molparser.py:1003-1004 | the one-line value ` CH4 ` reads as the text `CH4` |
| SdfValues.OneLineSplit | molinfo/docs/molparser.py:998 | a body without line feed splits into itself |
| SdfValues.OneLineStrip | molinfo/docs/molparser.py:999 | ` CH4 ` strips to `CH4` |
| SdfValues.StripPadded | molinfo/docs/molparser.py:999 | one blank on each side of a word is stripped away |
| SdfValues.NormalizeBlank | molinfo/docs/molparser.py:1005-1006 | a value of blank lines only is the empty list |
| SdfValues.BlankJoin | molinfo/docs/molparser.py:998 | the blank body is the blank lines joined by line feeds |
| SdfValues.BlankStrip | molinfo/docs/molparser.py:999-1000 | blank lines strip to nothing and are all dropped |
| SdfValues.Normalized | molinfo/docs/molparser.py:994-1012 | one (name, value) pair per data item |
| SdfValues.NormalizedAt | molinfo/docs/molparser.py:994-1012 | pair `i` is item `i`'s name with its normalised value |
| SdfValues.VarAnalyzer | molinfo/docs/molparser.py:978-1014 | `__var_analyzer` builds the dict of the normalised pairs: well-formed, each name holding its last occurrence's value |
| SdfValues.VarStep | molinfo/docs/molparser.py:994-1012 | one more item is one more assignment into the dict built so far |
| SdfValues.VarDone | molinfo/docs/molparser.py:978-1014 | each name of the finished dict holds its last occurrence's value |
| SdfValues.DropEmptyAppend | molinfo/docs/molparser.py:1000 | dropping blanks distributes over concatenation and keeps a single line exactly when it is non-empty, so order and multiplicity are kept |
| MolParser.BondFields | molinfo/docs/molparser.py:276-284 | a bond line reads when it has three fields, the 2nd and 3rd integers and the 2nd a valid (possibly negative) atom index; the bond names both symbols; otherwise it does not read |
| MolParser.SdfBondBlock | molinfo/docs/molparser.py:262-297 | the nested atom-by-bond-line loop fails exactly when `SdfBonds` does, and otherwise computes it |
| MolParser.SdfParser | molinfo/docs/molparser.py:97-321 | `sdf_parser` fails exactly when `Parse` does, and otherwise computes its record, with the counts read as written (see Findings) |
| MolParser.ParseLinesOk | molinfo/docs/molparser.py:136-154 | a successful parse has four lines, `V2000` on the counts line and an `M  END` line, and a parsed connection table |
| MolParser.ParseTableOk | molinfo/docs/molparser.py:156-321 | a successful table parse read the counts, the atoms and the bonds, and the record is built from them |
| MolParser.ParseChecks | molinfo/docs/molparser.py:136-184 | a record comes only from a line list with at least four lines, `V2000` on the counts line and an exact `M  END` line; the counts come from the counts line and the table, and the atom count is positive |
| MolParser.ParseAtoms | molinfo/docs/molparser.py:186-238 | the atoms are the table lines from index 4 on, numbered 1..n in file order; the symbol and coordinate lists are theirs, in order |
| MolParser.TableAtoms | molinfo/docs/molparser.py:186-238 | the atoms of a parsed table are its first atom-count lines read in order |
| MolParser.ParseBonds | molinfo/docs/molparser.py:258-297 | the bond block groups the first bond-count lines after the atoms: entries in ascending atom id, each with its symbol and exactly the bonds naming it first, in file order; an atom gets an entry exactly when such a bond exists |
| MolParser.TableBonds | molinfo/docs/molparser.py:258-297 | the bond block of a parsed table groups its bond lines by first atom |
| MolParser.ParseFallbacks | molinfo/docs/molparser.py:192-203 | data items hold each name's last normalised value; the name falls back to the empty text, the formula to the one written from the atoms, the exact mass to the molecular weight |
| MolParser.RecordFallbacks | molinfo/docs/molparser.py:299-321 | the record's name, formula and mass use the data items or their fallbacks |
| MolParser.SdfBonds | molinfo/docs/molparser.py:258-297 | no atoms gives no entries; a built block has at least bond-count lines and groups those first lines by first atom |
| MolParser.Parse | molinfo/docs/molparser.py:136-184 | a record comes only from a text of at least four lines with `V2000` on the fourth and an exact `M  END` line, and has a positive atom count |
| MolParser.ParseLines | molinfo/docs/molparser.py:136-154 | on success the line list has four lines, `V2000` on the counts line and an `M  END` line |
| MolParser.ParseTable | molinfo/docs/molparser.py:156-321 | on success the counts read, the atom count is positive, the bond count is the counts line's, and the header is the first three lines |
| BondBlocks.FiledReadableStep | molinfo/docs/molparser.py:270-284 | one more readable row keeps the rows readable for atom `a` |
| BondBlocks.FiledUnreadable | molinfo/docs/molparser.py:270-284 | a row without first column, or filed under `a` and unreadable, makes the rows unreadable for `a` |
| BondBlocks.ReadableByAtom | molinfo/docs/molparser.py:262-284 | the rows are readable for atoms 1..n exactly when readable for each atom in turn |
| BondBlocks.BlockShape | molinfo/docs/molparser.py:262-297 | entries in strictly ascending atom id, each at most `i`, with its own symbol and exactly its filed bonds, never empty |
| BondBlocks.HasEntryAt | molinfo/docs/molparser.py:287-294 | an atom has an entry exactly when some entry carries its id |
| BondBlocks.BlockComplete | molinfo/docs/molparser.py:287-294 | an atom gets an entry exactly when some row is filed under its id |
| BondBlocks.EarlierAtom | molinfo/docs/molparser.py:262-297 | adding atom `i` leaves the entries of earlier atoms as they were |
| BondBlocks.LastAtom | molinfo/docs/molparser.py:287-294 | atom `i` gets an entry exactly when some row is filed under it |
| BondBlocks.HasEntrySnoc | molinfo/docs/molparser.py:294 | appending an entry adds exactly its id |
| BondBlocks.NoEntryAbove | molinfo/docs/molparser.py:262 | the block of atoms 1..i has no entry above `i` |
| BondBlocks.FiledMembers | molinfo/docs/molparser.py:270-286 | a bond is filed under `a` exactly when one of the first `m` rows names `a` first and makes that bond |
| BondBlocks.Rows | molinfo/docs/molparser.py:271 | every line read as a row, in order |
| BondBlocks.RowCount | molinfo/docs/molparser.py:270 | `range(count)` looks at `count` rows, and at none for a negative count |
| BondBlocks.BlockOfShape | molinfo/docs/molparser.py:258-297 | a bond block read for at least one atom groups all the rows it looked at |
| BondBlocks.BondBlockLoop | molinfo/docs/molparser.py:262-297 | the nested loop fails exactly when `BlockOf` does, and otherwise computes it |
| BondBlocks.GroupedStep | molinfo/docs/molparser.py:262-297 | one round of the outer loop extends the grouped block by atom `i + 1` |
| BondBlocks.BlockGrows | molinfo/docs/molparser.py:287-297 | appending atom `i + 1`'s entry when it has bonds gives the block of atoms 1..i+1 |
| BondBlocks.BlockOfFails | molinfo/docs/molparser.py:270-284 | too few lines or an unreadable filed line makes the block fail |
| BondBlocks.BlockOfSucceeds | molinfo/docs/molparser.py:262-297 | readable rows give the block of all atoms |
| BondBlocks.FileBonds | molinfo/docs/molparser.py:270-286 | the inner loop succeeds exactly when there are `m` lines readable for `a`, and returns the bonds filed under `a` |
| JsonParser.Firsts | molinfo/docs/molparser.py:635-638 | pair `i` is entry `i`'s label with its first value, one pair per entry |
| JsonParser.PropsLastWins | molinfo/docs/molparser.py:620-640 | the properties read exactly when every entry has a value; the keys are the labels in order of first appearance and each holds the first value of the last entry with that label |
| JsonParser.PairsLastWins | molinfo/docs/molparser.py:635-638 | the dict of the pairs is well-formed, keyed by exactly the labels, each holding its last entry's first value |
| JsonParser.PairLastWins | molinfo/docs/molparser.py:638 | the last entry with a label decides that label's value |
| JsonParser.JsonParserProps | molinfo/docs/molparser.py:620-640 | the loop of `__json_parser_props` computes `PropsOf` |
| JsonParser.FirstsSnoc | molinfo/docs/molparser.py:635-638 | one more entry adds its (label, first value) pair at the end |
| JsonParser.BondMatrix | molinfo/docs/molparser.py:531-560 | the bond matrix exists exactly when the three columns have equal length |
| JsonParser.BondMatrixColumns | molinfo/docs/molparser.py:557-558 | row `k` of the matrix is bond `k`: the columns come back unchanged |
| JsonParser.ColumnsBondMatrix | molinfo/docs/molparser.py:557-558 | every bond matrix is the matrix of its own columns |
| JsonParser.JsonAtomBondBlock | molinfo/docs/molparser.py:853-932 | the nested loop fails exactly when `JsonBondBlock` does, and otherwise computes it |
| JsonParser.JsonBondBlockShape | molinfo/docs/molparser.py:877-917 | a built block groups the first `bondNo` rows by first column: entries in ascending atom id, one per atom with a row, each row once, in row order |
| JsonParser.JsonBondEntries | molinfo/docs/molparser.py:888-907 | each filed bond comes from one of the first `bondNo` rows joining `e.id` to `id2` with its order; its name joins the symbols and its id the ids with `-` |
| JsonParser.JsonRead | molinfo/docs/molparser.py:888-907 | every row is filed under its own first column; a row that files an entry names an atom 1..n and carries the row's second id and order |
| JsonParser.JsonBondBlock | molinfo/docs/molparser.py:853-932 | an atom count above the element count fails; a non-positive atom count gives the empty block |
| AtomIds.Measure | molinfo/docs/molparser.py:1044-1051 | definition: the distance table has one row per atom: old id `i + 1`, the distance of its coordinates and its element |
| AtomIds.InsertFar | molinfo/docs/molparser.py:1054 | inserting into the farthest-first list adds exactly that row |
| AtomIds.SortFar | molinfo/docs/molparser.py:1054 | the stable reverse sort is a permutation of the rows |
| AtomIds.Reverse | molinfo/docs/molparser.py:1057 | `reverse()`: position `i` holds the element that was `i` places from the end |
| AtomIds.ReversePermutes | molinfo/docs/molparser.py:1057 | reversing is a permutation |
| AtomIds.InsertFarSorted | molinfo/docs/molparser.py:1054 | inserting into a farthest-first list (ties by arrival) keeps it sorted that way |
| AtomIds.SortFarSorted | molinfo/docs/molparser.py:1054 | for rows in ascending old id the stable reverse sort orders them farthest first, ties by ascending old id |
| AtomIds.RankingSorted | molinfo/docs/molparser.py:1054-1057 | the ranking is a permutation of the table, nearest first, the larger old id first among equal distances |
| AtomIds.OldIds | molinfo/docs/molparser.py:1067 | definition: the old ids of a ranking, in order |
| AtomIds.RankingPermutation | molinfo/docs/molparser.py:1044-1057 | a table of atoms 1..n ranks into a permutation of 1..n, each entry the row of its own old id |
| AtomIds.RankingLength | molinfo/docs/molparser.py:1054-1057 | the ranking has one entry per row |
| AtomIds.RankingEntries | molinfo/docs/molparser.py:1054-1057 | every ranking entry is a row of the table |
| AtomIds.RankingCovers | molinfo/docs/molparser.py:1054-1057 | every atom 1..n appears in the ranking |
| AtomIds.Conversion | molinfo/docs/molparser.py:1060-1067 | definition: `idConversion` pairs the `j`-th ranked old id with new id `j + 1` |
| AtomIds.Lookup | molinfo/docs/molparser.py:1104 | a new id is found exactly when some pair has old id `v`, and it is that pair's new id |
| AtomIds.RemapBonds | molinfo/docs/molparser.py:1100-1117 | bonds are rewritten exactly when both ends of every bond have a new id; each end then gets its new id and the order stays |
| AtomIds.Gather | molinfo/docs/molparser.py:1073-1081 | definition: slot `j` holds the data of the `j`-th ranked old id |
| AtomIds.LookupNewId | molinfo/docs/molparser.py:1104-1110 | in the conversion of a permutation exactly atoms 1..n have a new id, and it is their own |
| AtomIds.RenumberStages | molinfo/docs/molparser.py:1040-1122 | a successful renumbering is the ranking of the distance table (a permutation of 1..n), assigned |
| AtomIds.RenumberOk | molinfo/docs/molparser.py:1040-1125 | `SetAtomId` succeeds exactly when every atom has an element and every bond joins atoms 1..n; a bond matrix with no rows always qualifies |
| AtomIds.AssignOk | molinfo/docs/molparser.py:1089-1117 | assigning a ranking succeeds exactly when every bond end has a new id, so an empty bond matrix is assigned |
| AtomIds.RankingRanked | molinfo/docs/molparser.py:1054-1057 | the ranking lists the table rows, each once, nearest first |
| AtomIds.RanksFromRows | molinfo/docs/molparser.py:1044-1057 | a nearest-first permutation of the measured rows ranks the atoms |
| AtomIds.RankingRanks | molinfo/docs/molparser.py:1044-1057 | the ranking of the distance table ranks the atoms |
| AtomIds.RanksOfRows | molinfo/docs/molparser.py:1044-1057 | the ranking of rows that measure the atoms ranks the atoms |
| AtomIds.ConversionIds | molinfo/docs/molparser.py:1060-1067 | the conversion of a permutation is a bijection of old ids 1..n onto new ids 1..n |
| AtomIds.ConversionOrder | molinfo/docs/molparser.py:1060-1067 | new ids ascend with distance, ties to the larger old id |
| AtomIds.GatherRearranged | molinfo/docs/molparser.py:1073-1081 | slot new-1 of the gathered list holds slot old-1 of the input |
| AtomIds.RemapBondsIds | molinfo/docs/molparser.py:1100-1117 | bond `i` of the rewritten list joins the new ids of the atoms bond `i` joined, with its order |
| AtomIds.PositionsAll | molinfo/docs/molparser.py:1083 | `matPosition` maps each new id's text to old id, new id, distance, coordinates and element |
| AtomIds.PositionsPaired | molinfo/docs/molparser.py:1083 | the same for any pairing of each ranked old id with its new id |
| AtomIds.RenumberParts | molinfo/docs/molparser.py:1040-1122 | a successful renumbering has elements for all atoms, a ranking that ranks them, rewritable bonds, and is assembled from them |
| AtomIds.RenumberIds | molinfo/docs/molparser.py:1065-1067 | the conversion pairs are a bijection of old ids 1..n onto new ids 1..n |
| AtomIds.RenumberOrder | molinfo/docs/molparser.py:1054-1067 | new ids ascend with the distance from the observation point, ties to the larger old id |
| AtomIds.RenumberData | molinfo/docs/molparser.py:1070-1081 | the sorted coordinate and element lists are in new-id order |
| AtomIds.RenumberBonds | molinfo/docs/molparser.py:1089-1117 | both ends of every bond get their atom's new id; the bond order and bond count stay |
| AtomIds.RenumberPositions | molinfo/docs/molparser.py:1072-1083 | `matPosition` maps the text of each new id 1..n to that atom's old id, new id, distance, coordinates and element, and has no other keys |
| AtomIds.PositionsHas | molinfo/docs/molparser.py:1083 | after `j` steps the position map holds the entry for each new id up to `j` |
| AtomIds.PositionsOnly | molinfo/docs/molparser.py:1083 | every key of the position map is the text of an id 1..j |
| AtomIds.IntToStringInjective | molinfo/docs/molparser.py:1083 | distinct ids have distinct decimal texts, so no position entry overwrites another |
| AtomIds.SetAtomId | molinfo/docs/molparser.py:1016-1125 | `SetAtomId` computes `Renumber` |
| AtomIds.DistanceTable | molinfo/docs/molparser.py:1044-1051 | the distance loop succeeds exactly when every atom has an element, and builds `Measure` |
| AtomIds.ConversionPairs | molinfo/docs/molparser.py:1065-1067 | the `idConversion` loop builds `Conversion` |
| AtomIds.SortedLists | molinfo/docs/molparser.py:1070-1083 | the loop builds the gathered coordinate and element lists and the position map |
| AtomIds.GatherIs | molinfo/docs/molparser.py:1073-1081 | a list holding the ranked old ids' data slot by slot is their `Gather` |
| AtomIds.PositionsStep | molinfo/docs/molparser.py:1083 | one loop step adds the entry for new id `j + 1` |
| AtomIds.RenumberColumns | molinfo/docs/molparser.py:1089-1117 | rewriting the id columns in place computes `RemapBonds` |
| AtomIds.ColumnsStep | molinfo/docs/molparser.py:1100-1111 | rewriting row `b` of both columns moves the rewritten boundary one row on |
| AtomIds.RemapBondsIs | molinfo/docs/molparser.py:1113-1117 | rows holding the looked-up ends row by row are what `RemapBonds` gives |
| AtomIds.ArrangeProp | molinfo/docs/molparser.py:1127-1151 | `arrange_prop` succeeds exactly when the id list is non-empty (an empty one becomes float indices, which `np.take` refuses) and every id minus 1 is a valid (possibly negative) list index; it then picks those elements in order |
| AtomIds.OldColumn | molinfo/docs/molparser.py:1120 | definition: the old-id column of the conversion pairs |
| AtomIds.ArrangeGather | molinfo/docs/molparser.py:1127-1151 | arranging by the conversion's old-id column gathers the list into ranking order; an empty conversion fails |
| AtomIds.ArrangeRenumbered | molinfo/docs/molparser.py:1127-1151 | with at least one atom, arranging a per-atom list by the old-id column puts it in new-id order, as `SetAtomId` does with the element list; with none it fails |
| AtomIds.Ranking | molinfo/docs/molparser.py:1054-1057 | the ranking is a permutation of the distance table |
| AtomIds.Renumber | molinfo/docs/molparser.py:1016-1125 | too few element symbols fail; with enough of them an empty bond matrix renumbers with no bonds |
| Compound.Entries | molinfo/docs/compound.py:266-274 | one flat entry per bond of an atom's entry |
| Compound.FlattenLength | molinfo/docs/compound.py:260-275 | the flat list has one entry per bond of the block |
| Compound.FlattenAt | molinfo/docs/compound.py:266-274 | bond `l` of entry `k` sits at offset(k) + l, with the atom's id and symbol as first end and `bond[0]`, `bond[1]`, `bond[3]`, `bond[2]` as second id, second symbol, type and bond symbol |
| Compound.FlattenFrom | molinfo/docs/compound.py:265-274 | every flat entry comes from a bond of some block entry |
| Compound.ConvertAtomBonds | molinfo/docs/compound.py:260-275 | the nested loop computes the flattening `Flatten` |
| Compound.ListText | molinfo/docs/compound.py:81 | the printed list is bracketed, and is `[]` exactly for the empty list |
| Compound.CompoundText | molinfo/docs/compound.py:73-81 | `__str__` is the name when there is one, else the printed element list |
| Compound.Flatten | molinfo/docs/compound.py:265-274 | every flat entry's first id is the id of some entry of the block |
| Structure.Distinct | molinfo/docs/structure.py:198 | the dict's keys are exactly the symbols of the list, each once |
| Structure.Tally | molinfo/docs/structure.py:198 | one item per distinct symbol, in key order, holding that symbol's number of occurrences |
| Structure.CountText | molinfo/docs/structure.py:202-205 | the count is written as digits, nothing exactly when it is 1, and the digits' value is the count |
| Structure.RenderAppend | molinfo/docs/structure.py:201-207 | the text of joined item lists is the joined texts |
| Structure.RenderSnoc | molinfo/docs/structure.py:201-207 | one more item appends its symbol and written count |
| Structure.CreateFormula | molinfo/docs/structure.py:189-213 | `create_formula` raises exactly on an empty list, and otherwise returns the stripped concatenation of each distinct symbol and its count (omitted when 1) |
| Structure.DistinctFirstAppearance | molinfo/docs/structure.py:198 | the distinct symbols keep the order in which they first appear |
| Structure.IndexOfPrefix | molinfo/docs/structure.py:198 | appending another symbol does not move the first occurrence of a symbol already present |
| Structure.IndexOfLast | molinfo/docs/structure.py:198 | a symbol appended for the first time occurs first at the end |
| Structure.SumOverAppendSym | molinfo/docs/structure.py:198 | one more input symbol adds one to the total exactly when it is a counted key |
| Structure.SumOverAppendKey | molinfo/docs/structure.py:198 | one more key adds its number of occurrences to the total |
| Structure.SumOverDistinct | molinfo/docs/structure.py:198 | the counts over the distinct symbols add up to the length of the list |
| Structure.SumCountsTally | molinfo/docs/structure.py:198 | the items' counts sum to the counts over their keys |
| Structure.TallySum | molinfo/docs/structure.py:198 | the items' counts add up to the number of atoms |
| Structure.TallyItems | molinfo/docs/structure.py:198 | each item holds a symbol's number of occurrences, at least 1, and every input symbol has an item |
| Structure.LowerRun | molinfo/docs/structure.py:200-207 | the run of small letters from `i` stops at the first non-small letter or the end |
| Structure.DigitRun | molinfo/docs/structure.py:200-207 | the run of digits from `i` stops at the first non-digit or the end |
| Structure.FirstItem | molinfo/docs/structure.py:200-207 | reading one item of a formula takes at least one character and no more than there are |
| Structure.LowerRunUpTo | molinfo/docs/structure.py:200-207 | small letters from `i` up to a non-small letter at `j` make a run of length `j - i` |
| Structure.DigitRunUpTo | molinfo/docs/structure.py:200-207 | digits from `i` up to a non-digit at `j` make a run of length `j - i` |
| Structure.ParsePiece | molinfo/docs/structure.py:200-207 | reading an item's text followed by more gives that item followed by the rest read |
| Structure.ParseSymbolCount | molinfo/docs/structure.py:200-207 | reading a symbol and its count text gives that symbol with the count |
| Structure.FirstItemParts | molinfo/docs/structure.py:200-207 | the first item of a symbol, its count text and a following item is that symbol and count |
| Structure.SymbolRun | molinfo/docs/structure.py:200-207 | the small letters after a symbol's capital are exactly the rest of the symbol |
| Structure.CountRun | molinfo/docs/structure.py:200-207 | the digits after the symbol are exactly the count text |
| Structure.ParseRender | molinfo/docs/structure.py:200-207 | reading back the text of items with element symbols and positive counts returns the items |
| Structure.RenderNoSpace | molinfo/docs/structure.py:209 | the concatenated text of element symbols and counts has no white space, so the final `strip` changes nothing |
| Structure.FormulaRoundTrip | molinfo/docs/structure.py:189-213 | for element symbols the formula reads back as each distinct symbol in order of first appearance with its number of occurrences, summing to the number of atoms |
| Structure.TallyReadable | molinfo/docs/structure.py:198 | for element symbols every item holds an element symbol and a positive count |
| Structure.MethaneDistinct | molinfo/docs/structure.py:198 | C, H, H, H, H has the distinct symbols C, H |
| Structure.MethaneTally | molinfo/docs/structure.py:198 | C, H, H, H, H tallies to C 1, H 4 |
| Structure.MethaneRender | molinfo/docs/structure.py:200-207 | C 1, H 4 is written `CH4` |
| Structure.MethaneFormula | molinfo/docs/structure.py:189-213 | C, H, H, H, H gives the formula `CH4` |
| PatternGraphs.EdgeKeysOf | pyMolinfo/docs/chemgraphs.py:24 | a pair of end points has attributes exactly when some bond joins them |
| PatternGraphs.AddNodesOrder | pyMolinfo/docs/chemgraphs.py:18-22 | adding nodes 1..n gives exactly those nodes, in order, with no edge and no name |
| PatternGraphs.AddNodesSymbol | pyMolinfo/docs/chemgraphs.py:18-22 | after adding nodes 1..n, node `k` has a symbol exactly when it is one of them, and it is its own |
| PatternGraphs.AddBondsKeep | pyMolinfo/docs/chemgraphs.py:24 | bonds between existing nodes change neither the nodes nor their symbols |
| PatternGraphs.AddBondsEdges | pyMolinfo/docs/chemgraphs.py:24 | bonds add one edge per pair of end points, carrying the last such bond's attributes |
| PatternGraphs.IdsHold | pyMolinfo/docs/chemgraphs.py:18-22 | ids 1..n are exactly the ids that get a symbol |
| PatternGraphs.AddNodesValid | pyMolinfo/docs/chemgraphs.py:18-22 | adding the nodes gives a well-formed graph |
| PatternGraphs.AddBondsValid | pyMolinfo/docs/chemgraphs.py:24 | adding the bonds keeps the graph well-formed |
| PatternGraphs.BuildValid | pyMolinfo/docs/chemgraphs.py:13-27 | every pattern builds a well-formed graph, so the matcher can take it |
| PatternGraphs.BuildOrder | pyMolinfo/docs/chemgraphs.py:13-27 | a well-formed pattern builds nodes exactly 1..n, in order, with no name |
| PatternGraphs.BuildNodes | pyMolinfo/docs/chemgraphs.py:13-27 | nodes 1..n in order, node `i` carrying the `i`-th symbol, and no node without a symbol |
| PatternGraphs.BuildEdges | pyMolinfo/docs/chemgraphs.py:13-27 | one edge per distinct pair of bond end points, with the attributes of the last bond between them |
| PatternGraphs.BuildEdgeKeys | pyMolinfo/docs/chemgraphs.py:13-27 | the edges are exactly the end-point pairs of the bonds |
| PatternGraphs.BuildAtom | pyMolinfo/docs/chemgraphs.py:13-27 | node `i` carries the pattern's `i`-th symbol |
| PatternGraphs.EndsLinks | pyMolinfo/docs/chemgraphs.py:24 | a bond's end-point set is `{i, j}` exactly when it joins `i` and `j` in either direction |
| PatternGraphs.EdgeOfBetween | pyMolinfo/docs/chemgraphs.py:24 | the edge attributes for `{i, j}` are those of the last bond joining them |
| PatternGraphs.BetweenExists | pyMolinfo/docs/chemgraphs.py:24 | a last bond between `i` and `j` exists exactly when some bond joins them |
| PatternGraphs.BetweenLast | pyMolinfo/docs/chemgraphs.py:24 | when the last bond joins `i` and `j`, it sets the edge's attributes |
| PatternGraphs.BuildLinked | pyMolinfo/docs/chemgraphs.py:13-27 | `i` and `j` are adjacent exactly when some bond joins them, and the edge carries the last such bond's attributes |
| PatternGraphs.BuildEdgeEnds | pyMolinfo/docs/chemgraphs.py:13-27 | every edge joins the two end points of some bond |
| PatternGraphs.EdgeKeysFrom | pyMolinfo/docs/chemgraphs.py:24 | every end-point set comes from some bond |
| PatternGraphs.BetweenIn | pyMolinfo/docs/chemgraphs.py:24 | the last bond found between `i` and `j` is one of the bonds and joins them |
| PatternGraphs.BuildKinds | pyMolinfo/docs/chemgraphs.py:253-267 | when every bond has type `kind`, every edge of the graph has that type |
| PatternGraphs.BetweenSame | molinfo/docs/chemgraphs.py:219-245 | bond lists joining the same nodes with the same types agree on whether a bond is found and on its type |
| PatternGraphs.SameLinks | molinfo/docs/chemgraphs.py:219-245 | patterns whose bonds join the same nodes with the same types give the same adjacency and edge types, whatever the symbols |
| PatternGraphs.AddNodes | pyMolinfo/docs/chemgraphs.py:18-22 | a fresh graph gets no edges and no name, and every node with a symbol is in the node order |
| PatternGraphs.AddBonds | pyMolinfo/docs/chemgraphs.py:24 | adding edges changes neither the node symbols nor the name |
| PatternGraphs.Build | pyMolinfo/docs/chemgraphs.py:13-27 | the graph has no name and the symbols of its nodes as added, whatever the bonds |
| ChemGraphs.Hydroxyl | pyMolinfo/docs/chemgraphs.py:13-27 | `graph_hydroxyl` builds a well-formed pattern: every bond joins two distinct existing nodes and has type 1, 2 or 3 |
| ChemGraphs.Carbonyl | pyMolinfo/docs/chemgraphs.py:29-43 | `graph_carbonyl` builds a well-formed pattern: every bond joins two distinct existing nodes and has type 1, 2 or 3 |
| ChemGraphs.Carboxyl | pyMolinfo/docs/chemgraphs.py:45-67 | `graph_carboxyl` builds a well-formed pattern: every bond joins two distinct existing nodes and has type 1, 2 or 3 |
| ChemGraphs.NH | pyMolinfo/docs/chemgraphs.py:69-83 | `graph_N_H` builds a well-formed pattern: every bond joins two distinct existing nodes and has type 1, 2 or 3 |
| ChemGraphs.CNSingleBond | pyMolinfo/docs/chemgraphs.py:85-99 | `graph_C_N_single_bond` builds a well-formed pattern: every bond joins two distinct existing nodes and has type 1, 2 or 3 |
| ChemGraphs.NOSingleBond | pyMolinfo/docs/chemgraphs.py:101-115 | `graph_N_O_single_bond` builds a well-formed pattern: every bond joins two distinct existing nodes and has type 1, 2 or 3 |
| ChemGraphs.COSingleBond | pyMolinfo/docs/chemgraphs.py:117-131 | `graph_C_O_single_bond` builds a well-formed pattern: every bond joins two distinct existing nodes and has type 1, 2 or 3 |
| ChemGraphs.CNTripleBond | pyMolinfo/docs/chemgraphs.py:133-147 | `graph_C_N_triple_bond` builds a well-formed pattern: every bond joins two distinct existing nodes and has type 1, 2 or 3 |
| ChemGraphs.Methyl | pyMolinfo/docs/chemgraphs.py:149-175 | `graph_methyl` builds a well-formed pattern: every bond joins two distinct existing nodes and has type 1, 2 or 3 |
| ChemGraphs.Methylene | pyMolinfo/docs/chemgraphs.py:177-203 | `graph_methylene` builds a well-formed pattern: every bond joins two distinct existing nodes and has type 1, 2 or 3 |
| ChemGraphs.Methine | pyMolinfo/docs/chemgraphs.py:205-231 | `graph_methine` builds a well-formed pattern: every bond joins two distinct existing nodes and has type 1, 2 or 3 |
| ChemGraphs.Ether | pyMolinfo/docs/chemgraphs.py:233-251 | `graph_ether` builds a well-formed pattern: every bond joins two distinct existing nodes and has type 1, 2 or 3 |
| ChemGraphs.Alkane | pyMolinfo/docs/chemgraphs.py:253-267 | `graph_alkane` builds a well-formed pattern: every bond joins two distinct existing nodes and has type 1, 2 or 3 |
| ChemGraphs.Alkene | pyMolinfo/docs/chemgraphs.py:269-283 | `graph_alkene` builds a well-formed pattern: every bond joins two distinct existing nodes and has type 1, 2 or 3 |
| ChemGraphs.Alkyne | pyMolinfo/docs/chemgraphs.py:285-299 | `graph_alkyne` builds a well-formed pattern: every bond joins two distinct existing nodes and has type 1, 2 or 3 |
| ChemGraphs.Arene | pyMolinfo/docs/chemgraphs.py:301-333 | `graph_arene` builds a well-formed pattern: every bond joins two distinct existing nodes and has type 1, 2 or 3 |
| ChemGraphs.Aldehyde | pyMolinfo/docs/chemgraphs.py:335-357 | `graph_aldehyde` builds a well-formed pattern: every bond joins two distinct existing nodes and has type 1, 2 or 3 |
| ChemGraphs.Ketone | pyMolinfo/docs/chemgraphs.py:359-381 | `graph_ketone` builds a well-formed pattern: every bond joins two distinct existing nodes and has type 1, 2 or 3 |
| ChemGraphs.CarboxylicAcid | pyMolinfo/docs/chemgraphs.py:383-409 | `graph_carboxylic_acid` builds a well-formed pattern: every bond joins two distinct existing nodes and has type 1, 2 or 3 |
| ChemGraphs.Ester | pyMolinfo/docs/chemgraphs.py:411-437 | `graph_ester` builds a well-formed pattern: every bond joins two distinct existing nodes and has type 1, 2 or 3 |
| ChemGraphs.Amide | pyMolinfo/docs/chemgraphs.py:439-470 | `graph_amide` builds a well-formed pattern: every bond joins two distinct existing nodes and has type 1, 2 or 3 |
| ChemGraphs.PrimaryAmide | pyMolinfo/docs/chemgraphs.py:472-502 | `graph_primary_amide` builds a well-formed pattern: every bond joins two distinct existing nodes and has type 1, 2 or 3 |
| ChemGraphs.SecondaryAmide | pyMolinfo/docs/chemgraphs.py:504-534 | `graph_secondary_amide` builds a well-formed pattern: every bond joins two distinct existing nodes and has type 1, 2 or 3 |
| ChemGraphs.TertiaryAmide | pyMolinfo/docs/chemgraphs.py:536-566 | `graph_tertiary_amide` builds a well-formed pattern: every bond joins two distinct existing nodes and has type 1, 2 or 3 |
| ChemGraphs.PrimaryAmine | pyMolinfo/docs/chemgraphs.py:568-590 | `graph_primary_amine` builds a well-formed pattern: every bond joins two distinct existing nodes and has type 1, 2 or 3 |
| ChemGraphs.SecondaryAmine | pyMolinfo/docs/chemgraphs.py:592-614 | `graph_secondary_amine` builds a well-formed pattern: every bond joins two distinct existing nodes and has type 1, 2 or 3 |
| ChemGraphs.TertiaryAmine | pyMolinfo/docs/chemgraphs.py:616-638 | `graph_tertiary_amine` builds a well-formed pattern: every bond joins two distinct existing nodes and has type 1, 2 or 3 |
| ChemGraphs.Nitrile | pyMolinfo/docs/chemgraphs.py:640-658 | `graph_nitrile` builds a well-formed pattern: every bond joins two distinct existing nodes and has type 1, 2 or 3 |
| ChemGraphs.Thiol | pyMolinfo/docs/chemgraphs.py:660-678 | `graph_thiol` builds a well-formed pattern: every bond joins two distinct existing nodes and has type 1, 2 or 3 |
| ChemGraphs.AlkylHalide | pyMolinfo/docs/chemgraphs.py:680-694 | `graph_alkyl_halide` builds a well-formed pattern: every bond joins two distinct existing nodes and has type 1, 2 or 3 |
| ChemGraphs.PrimaryAlkylHalide | pyMolinfo/docs/chemgraphs.py:696-726 | `graph_primary_alkyl_halide` builds a well-formed pattern: every bond joins two distinct existing nodes and has type 1, 2 or 3 |
| ChemGraphs.SecondaryAlkylHalide | pyMolinfo/docs/chemgraphs.py:728-758 | `graph_secondary_alkyl_halide` builds a well-formed pattern: every bond joins two distinct existing nodes and has type 1, 2 or 3 |
| ChemGraphs.TertiaryAlkylHalide | pyMolinfo/docs/chemgraphs.py:760-786 | `graph_tertiary_alkyl_halide` builds a well-formed pattern: every bond joins two distinct existing nodes and has type 1, 2 or 3 |
| ChemGraphs.PrimaryAlcohol | pyMolinfo/docs/chemgraphs.py:788-814 | `graph_primary_alcohol` builds a well-formed pattern: every bond joins two distinct existing nodes and has type 1, 2 or 3 |
| ChemGraphs.PrimaryAlcoholDoubleBond | pyMolinfo/docs/chemgraphs.py:816-842 | `graph_primary_alcohol_double_bond` builds a well-formed pattern: every bond joins two distinct existing nodes and has type 1, 2 or 3 |
| ChemGraphs.SecondaryAlcohol | pyMolinfo/docs/chemgraphs.py:844-874 | `graph_secondary_alcohol` builds a well-formed pattern: every bond joins two distinct existing nodes and has type 1, 2 or 3 |
| ChemGraphs.SecondaryAlcoholDoubleBond | pyMolinfo/docs/chemgraphs.py:876-902 | `graph_secondary_alcohol_double_bond` builds a well-formed pattern: every bond joins two distinct existing nodes and has type 1, 2 or 3 |
| ChemGraphs.TertiaryAlcohol | pyMolinfo/docs/chemgraphs.py:904-934 | `graph_tertiary_alcohol` builds a well-formed pattern: every bond joins two distinct existing nodes and has type 1, 2 or 3 |
| ChemGraphs.AlkaneCHBond | pyMolinfo/docs/chemgraphs.py:936-962 | `graph_alkane_CH_bond` builds a well-formed pattern: every bond joins two distinct existing nodes and has type 1, 2 or 3 |
| ChemGraphs.AlkeneCHBond | pyMolinfo/docs/chemgraphs.py:964-986 | `graph_alkene_CH_bond` builds a well-formed pattern: every bond joins two distinct existing nodes and has type 1, 2 or 3 |
| ChemGraphs.AromaticCHBond | pyMolinfo/docs/chemgraphs.py:988-1010 | `graph_aromatic_CH_bond` builds a well-formed pattern: every bond joins two distinct existing nodes and has type 1, 2 or 3 |
| ChemGraphs.AlkyneCHBond | pyMolinfo/docs/chemgraphs.py:1012-1030 | `graph_alkyne_CH_bond` builds a well-formed pattern: every bond joins two distinct existing nodes and has type 1, 2 or 3 |
| ChemGraphs.AldehydeCHBond | pyMolinfo/docs/chemgraphs.py:1032-1054 | `graph_aldehyde_CH_bond` builds a well-formed pattern: every bond joins two distinct existing nodes and has type 1, 2 or 3 |
| ChemGraphs.Epoxide | pyMolinfo/docs/chemgraphs.py:1056-1076 | `graph_epoxide` builds a well-formed pattern: every bond joins two distinct existing nodes and has type 1, 2 or 3 |
| ChemGraphs.PairBonds | pyMolinfo/docs/chemgraphs.py:24 | a two-atom pattern's one bond joins exactly nodes 1 and 2, in either direction |
| ChemGraphs.PairLinks | pyMolinfo/docs/chemgraphs.py:13-27 | a two-atom pattern's graph has exactly the one edge 1-2 |
| ChemGraphs.HydroxylShape | pyMolinfo/docs/chemgraphs.py:13-27 | `graph_hydroxyl` is O (node 1) and H (node 2) joined by a single bond, and nothing else |
| ChemGraphs.CarbonylShape | pyMolinfo/docs/chemgraphs.py:29-43 | `graph_carbonyl` is C (node 1) and O (node 2) joined by a double bond, and nothing else |
| ChemGraphs.CNTripleBondShape | pyMolinfo/docs/chemgraphs.py:133-147 | `graph_C_N_triple_bond` is C and N joined by a triple bond, and nothing else |
| ChemGraphs.AreneAtoms | pyMolinfo/docs/chemgraphs.py:301-333 | `graph_arene` has exactly nodes 1..6, each a C |
| ChemGraphs.AreneBonds | pyMolinfo/docs/chemgraphs.py:320-330 | the arene's bonds join exactly the ring neighbours `i`, `i + 1` (and 6, 1) |
| ChemGraphs.AreneRing | pyMolinfo/docs/chemgraphs.py:301-333 | `graph_arene`'s edges are exactly those of the six-ring 1-2-3-4-5-6-1 |
| ChemGraphs.AreneAlternates | pyMolinfo/docs/chemgraphs.py:320-330 | round the ring the bond types alternate single and double, the closing bond 6-1 being double |
| ChemGraphs.StarBonds | pyMolinfo/docs/chemgraphs.py:149-175 | a pattern with bonds 1-2, 1-3, 1-4, 1-5 joins exactly node 1 to nodes 2-5 |
| ChemGraphs.StarLinks | pyMolinfo/docs/chemgraphs.py:149-175 | such a star's graph joins node 1 to each of nodes 2-5 by a single bond and has no other edge |
| ChemGraphs.MethylAtoms | pyMolinfo/docs/chemgraphs.py:149-175 | `graph_methyl` is C (node 1), three H (nodes 2-4) and a wildcard (node 5) |
| ChemGraphs.MethylLinks | pyMolinfo/docs/chemgraphs.py:149-175 | `graph_methyl` joins node 1 to each of nodes 2-5 by a single bond and has no other edge |
| ChemGraphs.MethineAtoms | pyMolinfo/docs/chemgraphs.py:205-231 | `graph_methine` is C (node 1), one H (node 2) and three wildcards (nodes 3-5) |
| ChemGraphs.MethineLinks | pyMolinfo/docs/chemgraphs.py:205-231 | `graph_methine` joins node 1 to each of nodes 2-5 by a single bond and has no other edge |
| ChemGraphs.EpoxideBonds | pyMolinfo/docs/chemgraphs.py:1056-1076 | the epoxide's bonds join exactly every two distinct nodes among 1-3 |
| ChemGraphs.EpoxideLinks | pyMolinfo/docs/chemgraphs.py:1056-1076 | the epoxide's graph joins every two distinct nodes among 1-3 and nothing else |
| ChemGraphs.EpoxideRing | pyMolinfo/docs/chemgraphs.py:1056-1076 | `graph_epoxide` is the three-ring C-O-C closed by a C-C bond, every bond single |
| ChemGraphs.AlkylHalideShape | pyMolinfo/docs/chemgraphs.py:680-694 | `graph_alkyl_halide(halid)` is C single-bonded to the given halogen, the bond named `C` + halogen |
| ChemGraphs.PrimaryAlkylHalideShape | pyMolinfo/docs/chemgraphs.py:696-726 | `graph_primary_alkyl_halide(halid)` puts the halogen on node 6, single-bonded to the carbon at node 2 |
| ChemGraphs.LiteralHalogen | pyMolinfo/docs/chemgraphs.py:728-786 | the secondary and tertiary alkyl halides bind the literal symbol `X`, which is no wildcard, so they match only an atom named `X` |
| ChemGraphs.WildcardNeighbours | pyMolinfo/docs/chemgraphs.py:383-409 | the carboxylic acid's node 5 and the thiol's node 3 are `XX` wildcards single-bonded to node 1 |
| MolinfoChemGraphs.Hydroxyl | molinfo/docs/chemgraphs.py:13-27 | `graph_hydroxyl` builds a well-formed pattern: every bond joins two distinct existing nodes and has type 1, 2 or 3; no node is an `XX` wildcard |
| MolinfoChemGraphs.Carbonyl | molinfo/docs/chemgraphs.py:29-43 | `graph_carbonyl` builds a well-formed pattern: every bond joins two distinct existing nodes and has type 1, 2 or 3; no node is an `XX` wildcard |
| MolinfoChemGraphs.Carboxyl | molinfo/docs/chemgraphs.py:45-67 | `graph_carboxyl` builds a well-formed pattern: every bond joins two distinct existing nodes and has type 1, 2 or 3; no node is an `XX` wildcard |
| MolinfoChemGraphs.Ether | molinfo/docs/chemgraphs.py:69-87 | `graph_ether` builds a well-formed pattern: every bond joins two distinct existing nodes and has type 1, 2 or 3; no node is an `XX` wildcard |
| MolinfoChemGraphs.Alkane | molinfo/docs/chemgraphs.py:89-103 | `graph_alkane` builds a well-formed pattern: every bond joins two distinct existing nodes and has type 1, 2 or 3; no node is an `XX` wildcard |
| MolinfoChemGraphs.Alkene | molinfo/docs/chemgraphs.py:105-119 | `graph_alkene` builds a well-formed pattern: every bond joins two distinct existing nodes and has type 1, 2 or 3; no node is an `XX` wildcard |
| MolinfoChemGraphs.Alkyne | molinfo/docs/chemgraphs.py:121-135 | `graph_alkyne` builds a well-formed pattern: every bond joins two distinct existing nodes and has type 1, 2 or 3; no node is an `XX` wildcard |
| MolinfoChemGraphs.Arene | molinfo/docs/chemgraphs.py:137-169 | `graph_arene` builds a well-formed pattern: every bond joins two distinct existing nodes and has type 1, 2 or 3; no node is an `XX` wildcard |
| MolinfoChemGraphs.Aldehyde | molinfo/docs/chemgraphs.py:171-193 | `graph_aldehyde` builds a well-formed pattern: every bond joins two distinct existing nodes and has type 1, 2 or 3; no node is an `XX` wildcard |
| MolinfoChemGraphs.Ketone | molinfo/docs/chemgraphs.py:195-217 | `graph_ketone` builds a well-formed pattern: every bond joins two distinct existing nodes and has type 1, 2 or 3; no node is an `XX` wildcard |
| MolinfoChemGraphs.CarboxylicAcid | molinfo/docs/chemgraphs.py:219-245 | `graph_carboxylic_acid` builds a well-formed pattern: every bond joins two distinct existing nodes and has type 1, 2 or 3; no node is an `XX` wildcard |
| MolinfoChemGraphs.Ester | molinfo/docs/chemgraphs.py:247-273 | `graph_ester` builds a well-formed pattern: every bond joins two distinct existing nodes and has type 1, 2 or 3; no node is an `XX` wildcard |
| MolinfoChemGraphs.Amide | molinfo/docs/chemgraphs.py:275-306 | `graph_amide` builds a well-formed pattern: every bond joins two distinct existing nodes and has type 1, 2 or 3; no node is an `XX` wildcard |
| MolinfoChemGraphs.PrimaryAmide | molinfo/docs/chemgraphs.py:308-338 | `graph_primary_amide` builds a well-formed pattern: every bond joins two distinct existing nodes and has type 1, 2 or 3; no node is an `XX` wildcard |
| MolinfoChemGraphs.SecondaryAmide | molinfo/docs/chemgraphs.py:340-370 | `graph_secondary_amide` builds a well-formed pattern: every bond joins two distinct existing nodes and has type 1, 2 or 3; no node is an `XX` wildcard |
| MolinfoChemGraphs.TertiaryAmide | molinfo/docs/chemgraphs.py:372-402 | `graph_tertiary_amide` builds a well-formed pattern: every bond joins two distinct existing nodes and has type 1, 2 or 3; no node is an `XX` wildcard |
| MolinfoChemGraphs.PrimaryAmine | molinfo/docs/chemgraphs.py:404-426 | `graph_primary_amine` builds a well-formed pattern: every bond joins two distinct existing nodes and has type 1, 2 or 3; no node is an `XX` wildcard |
| MolinfoChemGraphs.SecondaryAmine | molinfo/docs/chemgraphs.py:428-450 | `graph_secondary_amine` builds a well-formed pattern: every bond joins two distinct existing nodes and has type 1, 2 or 3; no node is an `XX` wildcard |
| MolinfoChemGraphs.TertiaryAmine | molinfo/docs/chemgraphs.py:452-474 | `graph_tertiary_amine` builds a well-formed pattern: every bond joins two distinct existing nodes and has type 1, 2 or 3; no node is an `XX` wildcard |
| MolinfoChemGraphs.Nitrile | molinfo/docs/chemgraphs.py:476-494 | `graph_nitrile` builds a well-formed pattern: every bond joins two distinct existing nodes and has type 1, 2 or 3; no node is an `XX` wildcard |
| MolinfoChemGraphs.Thiol | molinfo/docs/chemgraphs.py:496-514 | `graph_thiol` builds a well-formed pattern: every bond joins two distinct existing nodes and has type 1, 2 or 3; no node is an `XX` wildcard |
| MolinfoChemGraphs.AlkylHalide | molinfo/docs/chemgraphs.py:516-530 | `graph_alkyl_halide` builds a well-formed pattern: every bond joins two distinct existing nodes and has type 1, 2 or 3; no node is an `XX` wildcard |
| MolinfoChemGraphs.PrimaryAlkylHalide | molinfo/docs/chemgraphs.py:532-562 | `graph_primary_alkyl_halide` builds a well-formed pattern: every bond joins two distinct existing nodes and has type 1, 2 or 3; no node is an `XX` wildcard |
| MolinfoChemGraphs.SecondaryAlkylHalide | molinfo/docs/chemgraphs.py:564-594 | `graph_secondary_alkyl_halide` builds a well-formed pattern: every bond joins two distinct existing nodes and has type 1, 2 or 3; no node is an `XX` wildcard |
| MolinfoChemGraphs.TertiaryAlkylHalide | molinfo/docs/chemgraphs.py:596-622 | `graph_tertiary_alkyl_halide` builds a well-formed pattern: every bond joins two distinct existing nodes and has type 1, 2 or 3; no node is an `XX` wildcard |
| MolinfoChemGraphs.PrimaryAlcohol | molinfo/docs/chemgraphs.py:624-650 | `graph_primary_alcohol` builds a well-formed pattern: every bond joins two distinct existing nodes and has type 1, 2 or 3; no node is an `XX` wildcard |
| MolinfoChemGraphs.SecondaryAlcohol | molinfo/docs/chemgraphs.py:652-682 | `graph_secondary_alcohol` builds a well-formed pattern: every bond joins two distinct existing nodes and has type 1, 2 or 3; no node is an `XX` wildcard |
| MolinfoChemGraphs.TertiaryAlcohol | molinfo/docs/chemgraphs.py:684-714 | `graph_tertiary_alcohol` builds a well-formed pattern: every bond joins two distinct existing nodes and has type 1, 2 or 3; no node is an `XX` wildcard |
| MolinfoChemGraphs.CarboxylicAcidSameBonds | molinfo/docs/chemgraphs.py:219-245 | molinfo's carboxylic acid adds the same bonds as pyMolinfo's (end points, order, types); only node 5's symbol differs |
| MolinfoChemGraphs.CarboxylicAcidConcrete | molinfo/docs/chemgraphs.py:219-245 | molinfo's carboxylic acid has a concrete C at node 5 where pyMolinfo's has the `XX` wildcard |
| MolinfoChemGraphs.CarboxylicAcidSameEdges | molinfo/docs/chemgraphs.py:219-245 | both carboxylic acid graphs have the same edges with the same types |
| MolinfoChemGraphs.AmideSameBonds | molinfo/docs/chemgraphs.py:275-306 | molinfo's amide adds the same bonds as pyMolinfo's; only node 6's symbol differs |
| MolinfoChemGraphs.AmideConcrete | molinfo/docs/chemgraphs.py:275-306 | molinfo's amide has a concrete C at node 6 where pyMolinfo's has the `XX` wildcard |
| MolinfoChemGraphs.AmideSameEdges | molinfo/docs/chemgraphs.py:275-306 | both amide graphs have the same edges with the same types |
| MolinfoChemGraphs.SecondaryAmideSameBonds | molinfo/docs/chemgraphs.py:340-370 | molinfo's secondary amide adds the same bonds as pyMolinfo's; only node 6's symbol differs |
| MolinfoChemGraphs.SecondaryAmideConcrete | molinfo/docs/chemgraphs.py:340-370 | molinfo's secondary amide has a concrete C at node 6 where pyMolinfo's has the `XX` wildcard |
| MolinfoChemGraphs.SecondaryAmideSameEdges | molinfo/docs/chemgraphs.py:340-370 | both secondary amide graphs have the same edges with the same types |
| MolinfoChemGraphs.TertiaryAmideSameBonds | molinfo/docs/chemgraphs.py:372-402 | molinfo's tertiary amide adds the same bonds as pyMolinfo's; only node 6's symbol differs |
| MolinfoChemGraphs.TertiaryAmideConcrete | molinfo/docs/chemgraphs.py:372-402 | molinfo's tertiary amide has a concrete C at node 6 where pyMolinfo's has the `XX` wildcard |
| MolinfoChemGraphs.TertiaryAmideSameEdges | molinfo/docs/chemgraphs.py:372-402 | both tertiary amide graphs have the same edges with the same types |
| MolinfoChemGraphs.ThiolSameBonds | molinfo/docs/chemgraphs.py:496-514 | molinfo's thiol adds the same bonds as pyMolinfo's; only node 3's symbol differs |
| MolinfoChemGraphs.ThiolConcrete | molinfo/docs/chemgraphs.py:496-514 | molinfo's thiol has a concrete C at node 3 where pyMolinfo's has the `XX` wildcard |
| MolinfoChemGraphs.ThiolSameEdges | molinfo/docs/chemgraphs.py:496-514 | both thiol graphs have the same edges with the same types |
| MolinfoChemGraphs.HydroxylShape | molinfo/docs/chemgraphs.py:13-27 | molinfo's `graph_hydroxyl` is O and H joined by a single bond, and nothing else |
| MolinfoChemGraphs.AreneShape | molinfo/docs/chemgraphs.py:137-169 | molinfo's `graph_arene` is six C on the ring 1-2-...-6-1 with alternating single and double bonds, 6-1 double |
| MolinfoChemGraphs.TertiaryAlcoholBonds | molinfo/docs/chemgraphs.py:684-714 | the tertiary alcohol's bonds join exactly 1 to 2-5 and 5 to 6 |
| MolinfoChemGraphs.TertiaryAlcoholLinks | molinfo/docs/chemgraphs.py:684-714 | `graph_tertiary_alcohol` joins C (1) to nodes 2-5 and O (5) to H (6), all single, and nothing else |
| MolinfoChemGraphs.TertiaryAlcoholAtoms | molinfo/docs/chemgraphs.py:684-714 | `graph_tertiary_alcohol` is four C (1-4), O (5) and H (6) |
| BondToken.Separator | pyMolinfo/docs/customchemgraph.py:136-143 | a split character exists exactly when the token holds `-`, `=` or `#`, and it is one the token holds |
| BondToken.Letters | pyMolinfo/docs/customchemgraph.py:150-153 | the kept characters are letters only and no more than the input |
| BondToken.Digits | pyMolinfo/docs/customchemgraph.py:151-155 | the kept characters are digits only and no more than the input |
| BondToken.Kind | pyMolinfo/docs/customchemgraph.py:165-173 | the edge type is 1, 2 or 3, and 2 exactly when the token holds `=` |
| BondToken.AddToken | pyMolinfo/docs/customchemgraph.py:134-173 | one token raises exactly when it holds no bond character |
| BondToken.AddTokens | pyMolinfo/docs/customchemgraph.py:134-173 | a bond list raises exactly when some token holds no bond character |
| BondToken.AddBondTokens | pyMolinfo/docs/customchemgraph.py:134-173 | the token loop on a graph object fails exactly when `AddTokens` does, with its error, and otherwise leaves the object holding `AddTokens`' graph |
| BondToken.AddBondToken | pyMolinfo/docs/customchemgraph.py:135-173 | one turn of the token loop on a graph object matches `AddToken`: same error, or the graph it computes |
| BondToken.LettersAppend | pyMolinfo/docs/customchemgraph.py:150 | keeping letters distributes over concatenation |
| BondToken.DigitsAppend | pyMolinfo/docs/customchemgraph.py:151 | keeping digits distributes over concatenation |
| BondToken.LettersOnly | pyMolinfo/docs/customchemgraph.py:150 | keeping letters leaves a letter run as it is and empties a digit run |
| BondToken.DigitsOnly | pyMolinfo/docs/customchemgraph.py:151 | keeping digits leaves a digit run as it is and empties a letter run |
| BondToken.SideHasNoOp | pyMolinfo/docs/customchemgraph.py:136-141 | a symbol-plus-id side holds no bond character |
| BondToken.RenderSplits | pyMolinfo/docs/customchemgraph.py:136-141 | a plain token splits on its own bond character into its two sides, and its type is that character's |
| BondToken.SideReads | pyMolinfo/docs/customchemgraph.py:150-163 | a side gives back its symbol and its id, and stripping the symbol changes nothing |
| BondToken.RenderRead | pyMolinfo/docs/customchemgraph.py:134-173 | reading a rendered token gives back what was rendered: node `id1` gets `symbol1`, node `id2` gets `symbol2`, the edge carries `symbol1 + symbol2` and the bond character's type |
| BondToken.SameIdCollapses | pyMolinfo/docs/customchemgraph.py:159-173 | nodes are known by digits alone: a token such as `C1-H1` adds one node, ending with the second symbol, and a self-loop |
| BondToken.SelfLoopShape | pyMolinfo/docs/customchemgraph.py:159-173 | adding a new node twice and then its self-loop gives one node with the second symbol and the loop's attributes |
| BondToken.NotTwoPieces | pyMolinfo/docs/customchemgraph.py:158 | a token that does not split into exactly two pieces leaves the graph unchanged |
| BondToken.KindIgnoresSeparator | pyMolinfo/docs/customchemgraph.py:136-173 | the type depends on the whole token, not on the split character: a token split on `-` that also holds `=` or `#` gets type 2 or 3 |
| BondToken.AddTokensAppend | pyMolinfo/docs/customchemgraph.py:134 | the tokens of `a + b` are read as those of `a` then those of `b`, the first error winning |
| BondToken.AddTokensValid | pyMolinfo/docs/customchemgraph.py:134-173 | reading tokens into a well-formed graph keeps it well-formed |
| CustomChemGraph.DetailKeys | pyMolinfo/docs/customchemgraph.py:92-93 | the detail keys exist exactly when every dict has a key; they are the dicts' first keys, each once |
| CustomChemGraph.EmptyLists | pyMolinfo/docs/customchemgraph.py:96-97 | every stripped detail key gets a list, and every list starts empty |
| CustomChemGraph.Mentions | pyMolinfo/docs/customchemgraph.py:113-116 | the innermost loop adds only `name`, and adds something exactly when some token equals it ignoring case |
| CustomChemGraph.CollectGroups | pyMolinfo/docs/customchemgraph.py:105-116 | the middle loop adds no new list |
| CustomChemGraph.CollectNames | pyMolinfo/docs/customchemgraph.py:100-116 | the outer loop adds no new list |
| CustomChemGraph.CollectGroupsIs | pyMolinfo/docs/customchemgraph.py:105-116 | the middle loop appends exactly the mentions of `name` to each list |
| CustomChemGraph.CollectNamesIs | pyMolinfo/docs/customchemgraph.py:100-116 | the outer loop appends exactly the mentions of every detail key to each list |
| CustomChemGraph.MentionsInIff | pyMolinfo/docs/customchemgraph.py:105-116 | `name` adds to list `g` exactly when some dict named `g` cites it, and adds only itself |
| CustomChemGraph.NamedInIff | pyMolinfo/docs/customchemgraph.py:100-116 | list `g` gains something exactly when a dict named `g` cites one of the names, and gains only those names |
| CustomChemGraph.CitedKeyIsGroup | pyMolinfo/docs/customchemgraph.py:100-116 | a cited detail key is some dict's name |
| CustomChemGraph.CitedGroupIsKey | pyMolinfo/docs/customchemgraph.py:100-116 | a cited dict name is some detail key |
| CustomChemGraph.ListedAreGroups | pyMolinfo/docs/customchemgraph.py:116 | every name put in a list is some dict's name |
| CustomChemGraph.SubgroupIs | pyMolinfo/docs/customchemgraph.py:96-116 | after the loops, a dict name's list is exactly what the detail keys add to it |
| CustomChemGraph.NamedInMeaning | pyMolinfo/docs/customchemgraph.py:100-116 | the detail keys add to list `g` exactly when a dict named `g` cites a dict name, and add only dict names |
| CustomChemGraph.SubgroupIff | pyMolinfo/docs/customchemgraph.py:96-116 | a dict name's list is non-empty exactly when a dict of that name has a token equal, ignoring case, to some dict's name; it holds only dict names |
| CustomChemGraph.MentionsLoop | pyMolinfo/docs/customchemgraph.py:113-116 | the innermost loop appends exactly the mentions of `name` among the tokens |
| CustomChemGraph.CollectGroupsLoop | pyMolinfo/docs/customchemgraph.py:105-116 | the middle loop computes `CollectGroups` |
| CustomChemGraph.CollectSubgroups | pyMolinfo/docs/customchemgraph.py:96-116 | the three nested loops fill `g_sub_collection` as `Subgroups` says |
| CustomChemGraph.CollectNamesLoop | pyMolinfo/docs/customchemgraph.py:100-116 | the outer loop computes `CollectNames` |
| CustomChemGraph.GroupGraph | pyMolinfo/docs/customchemgraph.py:129-173 | a dict's graph is built exactly when every key has a list and every token of a key with an empty list has a bond character |
| CustomChemGraph.Entries | pyMolinfo/docs/customchemgraph.py:129-178 | one entry per key in order: the key's list when non-empty, otherwise the dict's final graph |
| CustomChemGraph.GroupEntries | pyMolinfo/docs/customchemgraph.py:121-178 | a dict's entries exist exactly when its graph can be built |
| CustomChemGraph.AllEntries | pyMolinfo/docs/customchemgraph.py:119-181 | all entries exist exactly when every dict's graph can be built |
| CustomChemGraph.CustomGraphs | pyMolinfo/docs/customchemgraph.py:69-181 | `create_custom_graph` raises when some dict has no key |
| CustomChemGraph.AddGroup | pyMolinfo/docs/customchemgraph.py:129-173 | the key loop on the graph object fails exactly when `GroupGraph` does, and otherwise leaves the object holding its graph |
| CustomChemGraph.BuildGroup | pyMolinfo/docs/customchemgraph.py:121-178 | one dict's entries, built with one graph object, are `GroupEntries` |
| CustomChemGraph.AllEntriesStep | pyMolinfo/docs/customchemgraph.py:121 | one turn of the dict loop: a failing dict ends the loop with its error, otherwise its entries come first |
| CustomChemGraph.DetailKeysFirst | pyMolinfo/docs/customchemgraph.py:92-93 | for dicts that all have a key, the detail keys are exactly their first keys |
| CustomChemGraph.BuildAll | pyMolinfo/docs/customchemgraph.py:119-178 | the loop over the dicts computes `AllEntries` |
| CustomChemGraph.CreateCustomGraph | pyMolinfo/docs/customchemgraph.py:69-181 | `create_custom_graph` computes `CustomGraphs` |
| CustomChemGraph.SubgroupsKeys | pyMolinfo/docs/customchemgraph.py:96-97 | the subgroup lists are keyed by exactly the stripped detail keys |
| CustomChemGraph.SingleDictLists | pyMolinfo/docs/customchemgraph.py:96-116 | for a single dict only its name has a list, non-empty exactly when the dict cites its own name |
| CustomChemGraph.OneUnlistedKey | pyMolinfo/docs/customchemgraph.py:132-173 | a single key with an empty list adds exactly its tokens |
| CustomChemGraph.ListedKeysAddNothing | pyMolinfo/docs/customchemgraph.py:176-178 | keys whose lists are all non-empty add nothing to the graph |
| CustomChemGraph.KeysOf | pyMolinfo/docs/customchemgraph.py:175-178 | definition: the keys of the pairs, in order |
| CustomChemGraph.KeysOfEntries | pyMolinfo/docs/customchemgraph.py:129-178 | a dict's entries carry its keys, in order |
| CustomChemGraph.KeysOfAppend | pyMolinfo/docs/customchemgraph.py:175-178 | the keys of joined entry lists are the joined key lists |
| CustomChemGraph.OneEntryPerKey | pyMolinfo/docs/customchemgraph.py:119-181 | the output has one entry per key of every dict, in input order |
| CustomChemGraph.EntryOrigin | pyMolinfo/docs/customchemgraph.py:119-181 | each output entry is entry `i` of some dict `j`'s entries |
| CustomChemGraph.SharedGraph | pyMolinfo/docs/customchemgraph.py:126-175 | all entries of one dict that hold a graph hold the same one: the dict's graph after its key loop |
| CustomChemGraph.CustomGraphsKeys | pyMolinfo/docs/customchemgraph.py:69-181 | `create_custom_graph` pairs every key of every dict with something, in input order |
| CustomChemGraph.ListIsGroups | pyMolinfo/docs/customchemgraph.py:96-97 | every subgroup list belongs to some dict's name |
| CustomChemGraph.EntryFromList | pyMolinfo/docs/customchemgraph.py:132-178 | an entry's key has a list, and the entry is that list exactly when it is non-empty |
| CustomChemGraph.EntryMeaning | pyMolinfo/docs/customchemgraph.py:69-181 | an entry's key is some dict's stripped name; it holds a list exactly when a dict of that name has a token equal, ignoring case, to some dict's name, and the list is then non-empty and holds only dict names |
| CustomChemGraph.EntryIsListed | pyMolinfo/docs/customchemgraph.py:69-181 | an entry's key is a dict name with a list, and the entry is that list or a graph |
| CustomChemGraph.ListFunctionalGroups | pyMolinfo/docs/customchemgraph.py:183-207 | `list_functional_groups`: one single-key dict per pair, in order |
| MolinfoCustomChemGraph.GroupGraph | molinfo/docs/customchemgraph.py:92-128 | a dict's graph is built exactly when every token of every key has a bond character |
| MolinfoCustomChemGraph.GroupEntries | molinfo/docs/customchemgraph.py:87-130 | a dict's entries exist exactly when its tokens are all readable; then one entry per key, in order, each with the dict's final graph |
| MolinfoCustomChemGraph.CustomGraphs | molinfo/docs/customchemgraph.py:64-131 | `create_custom_graph` succeeds exactly when every dict's tokens all have a bond character |
| MolinfoCustomChemGraph.GroupGraphIsTokens | molinfo/docs/customchemgraph.py:93-128 | building key by key is building from all the dict's tokens at once |
| MolinfoCustomChemGraph.KeysShareGraph | molinfo/docs/customchemgraph.py:92-130 | all keys of one dict share one graph, built from the tokens of all its keys, so a key's graph also holds the other keys' atoms and bonds |
| MolinfoCustomChemGraph.OneEntryPerKey | molinfo/docs/customchemgraph.py:64-131 | the output has one entry per key of every dict, in input order |
| MolinfoCustomChemGraph.BuildGroup | molinfo/docs/customchemgraph.py:92-130 | the key loop with one graph object computes `GroupEntries` |
| MolinfoCustomChemGraph.CustomGraphsStep | molinfo/docs/customchemgraph.py:87 | one turn of the dict loop: a failing dict ends it with its error, otherwise its entries come first |
| MolinfoCustomChemGraph.CreateCustomGraph | molinfo/docs/customchemgraph.py:64-131 | `create_custom_graph` computes `CustomGraphs` |
| MolGraph.OneGraph | pyMolinfo/docs/molgraph.py:33-132 | an empty molecule dict raises; a built graph is named after the first key |
| MolGraph.NewMolGraph | pyMolinfo/docs/molgraph.py:15-29 | construction succeeds exactly when `generate_one_graph` does, and keeps the first key as name, its bonds, and a graph of that name |
| MolGraph.OneDict | pyMolinfo/docs/molgraph.py:52-53 | the single dict's detail key is its first key |
| MolGraph.SublistsMeaning | pyMolinfo/docs/molgraph.py:56-76 | only the stripped name has a list, non-empty exactly when some token equals the name ignoring case |
| MolGraph.SelfCitedIsEmpty | pyMolinfo/docs/molgraph.py:73-85 | a token equal to the molecule's name, ignoring case, leaves the graph empty but named |
| MolGraph.UncitedIsTokens | pyMolinfo/docs/molgraph.py:79-129 | a molecule with a stripped name not cited by its tokens gets exactly the graph of its tokens, named after it |
| MolGraph.UnstrippedNameFails | pyMolinfo/docs/molgraph.py:56-85 | a first key with surrounding white space has no list, so the graph loop raises KeyError |
| MolGraph.GenerateOneGraph | pyMolinfo/docs/molgraph.py:33-132 | `generate_one_graph` on its graph object computes `OneGraph` |
| MolGraph.Init | pyMolinfo/docs/molgraph.py:15-29 | `MolGraph(...)` computes `NewMolGraph` |
| ChainText.RunEnd | pyMolinfo/docs/molconstructor.py:143 | the end of the longest run of class `k` from `i`: every character before it is in the class, the one at it is not |
| ChainText.RunEndAt | pyMolinfo/docs/molconstructor.py:143 | a run of class `k` from `i` that stops at `j` is the longest one |
| ChainText.ScanWellFormed | pyMolinfo/docs/molconstructor.py:119-175 | whatever the token patterns recognise has the shapes the patterns demand |
| ChainText.ScanRefBeforeWellFormed | pyMolinfo/docs/molconstructor.py:127-128 | a recognised `{name}*A i` token is well formed |
| ChainText.ScanGateBeforeWellFormed | pyMolinfo/docs/molconstructor.py:174-175 | a recognised `* op A i` token is well formed |
| ChainText.ScanAtomFirstWellFormed | pyMolinfo/docs/molconstructor.py:119-120 | a recognised token opening with `A i` is well formed |
| ChainText.ScanText | pyMolinfo/docs/molconstructor.py:119-175 | writing a well-formed token out and scanning it gives the token back |
| ChainText.RunPiece | pyMolinfo/docs/molconstructor.py:143 | a piece of class `k` followed by a character outside it is the run from its start |
| ChainText.ScanAtBond | pyMolinfo/docs/molconstructor.py:143-144 | a word, number, bond sign, word and number at the found places scan as that bond |
| ChainText.BondAtRuns | pyMolinfo/docs/molconstructor.py:143-144 | the same, given the runs of the pieces |
| ChainText.AtomRuns | pyMolinfo/docs/molconstructor.py:143 | a token opens with a letter run ending at `p1` and a digit run ending at `p2` |
| ChainText.AtomRunsFrom | pyMolinfo/docs/molconstructor.py:143 | a word followed by a number running to the end is found as those runs |
| ChainText.ScanAtGateAfter | pyMolinfo/docs/molconstructor.py:156-157 | `A i op *...` at the found places scans as that gate |
| ChainText.ScanAtGateBefore | pyMolinfo/docs/molconstructor.py:174-175 | `*... op A i` at the found places scans as that gate |
| ChainText.ScanAtRefAfter | pyMolinfo/docs/molconstructor.py:119-120 | `A i *{name}` at the found places scans as that reference |
| ChainText.ScanAtRefBefore | pyMolinfo/docs/molconstructor.py:126-128 | `{name}* A i` at the found places scans as that reference |
| ChainText.ScanBondText | pyMolinfo/docs/molconstructor.py:143-149 | a written-out bond scans back to itself |
| ChainText.ScanBondPieces | pyMolinfo/docs/molconstructor.py:143-149 | a word, a number, a bond sign, a word and a number in a row read as that bond |
| ChainText.ScanGateAfterText | pyMolinfo/docs/molconstructor.py:156-157 | a written-out `A i op *` gate scans back to itself |
| ChainText.ScanGateBeforeText | pyMolinfo/docs/molconstructor.py:174-175 | a written-out `* op A i` gate scans back to itself |
| ChainText.ScanRefAfterText | pyMolinfo/docs/molconstructor.py:119-120 | a written-out `A i *{name}` reference scans back to itself |
| ChainText.ScanRefBeforeText | pyMolinfo/docs/molconstructor.py:126-128 | a written-out `{name}* A i` reference scans back to itself |
| ChainText.MaxOr0 | pyMolinfo/docs/molecule.py:70 | `max(indices) if indices else 0`: an upper bound of the list that is in it, or 0 for the empty list |
| ChainText.HighestIndexBounds | pyMolinfo/docs/molecule.py:62-70 | the highest index bounds every atom index of the chain's brace-free tokens |
| ChainText.ChainIndicesHas | pyMolinfo/docs/molecule.py:64-69 | the indices of token `k` are among the chain's indices |
| ChainText.HighestIndexAttained | pyMolinfo/docs/molecule.py:62-70 | the highest index is 0 or an atom index of some brace-free token |
| ChainText.ChainIndicesFrom | pyMolinfo/docs/molecule.py:64-69 | every index of the chain comes from one of its tokens |
| ChainText.ExtractHighestIndex | pyMolinfo/docs/molecule.py:49-70 | the loop of `extract_highest_index` computes `HighestIndex` |
| ChainText.RefIsMainToken | pyMolinfo/docs/molecule.py:94-97 | every reference token matches one of the two main-chain patterns |
| ChainText.RefAfterAt | pyMolinfo/docs/molecule.py:95 | an `A i *{name}` token has `*{` after its atom and ends with `}` |
| ChainText.RefBeforeAt | pyMolinfo/docs/molecule.py:94 | a `{name}* A i` token opens with `{`, has `}*` after the name and no line break inside the braces |
| ChainText.MainKeyIn | pyMolinfo/docs/molecule.py:90-99 | the first key, in insertion order, whose chain holds a main token; no earlier key's chain does |
| ChainText.SearchForMainChain | pyMolinfo/docs/molecule.py:72-105 | `search_for_main_chain` succeeds exactly when some chain holds a main token, returning the first such chain's name |
| ChainText.ConnectionAfterIsBond | pyMolinfo/docs/molconstructor.py:245-248 | a gate `op B j` joined after the main atom `A i` reads as the bond `A i op B j` |
| ChainText.ConnectionBeforeIsBond | pyMolinfo/docs/molconstructor.py:245-248 | a gate `B j op` joined before the main atom `A i` reads as the bond `B j op A i` |
| ChainText.RefHasStar | pyMolinfo/docs/molconstructor.py:99 | every reference holds a `*`, so it counts as a gate |
| ChainText.WordNoStar | pyMolinfo/docs/molconstructor.py:99 | words and numbers hold no `*` |
| ChainText.NatToStringNoStar | pyMolinfo/docs/molconstructor.py:99 | a written number holds no `*` |
| ChainRename.RenameAt | pyMolinfo/docs/molecule.py:150-164 | one position keeps the chain's length and never moves the counter back |
| ChainRename.RenameUpTo | pyMolinfo/docs/molecule.py:150-164 | the inner loop over `n` positions keeps the length and never moves the counter back |
| ChainRename.RenameUpToAhead | pyMolinfo/docs/molecule.py:150-164 | positions not yet reached stay as they were |
| ChainRename.RenameUpToCount | pyMolinfo/docs/molecule.py:153-155 | the counter moves on once per reference to the chain |
| ChainRename.RenameUpToTokens | pyMolinfo/docs/molecule.py:150-164 | the `c`-th reference points at the copy `c` names; every other token stays |
| ChainRename.RenameKeepsEarlier | pyMolinfo/docs/molecule.py:150-164 | position `n - 1` leaves earlier positions alone |
| ChainRename.RenameLastToken | pyMolinfo/docs/molecule.py:164 | position `n - 1` ends as the renamed token for its counter |
| ChainRename.Copies | pyMolinfo/docs/molecule.py:159-161 | the assignments made: the chain under the name of each counter value 1..count, in order |
| ChainRename.PutCopiesStep | pyMolinfo/docs/molecule.py:159-161 | storing the next copy extends the stored copies by one |
| ChainRename.RenameStep | pyMolinfo/docs/molecule.py:150-164 | one position renames the token if it is a reference and stores the copy it now names |
| ChainRename.RenamePass | pyMolinfo/docs/molecule.py:143-167 | the inner loop for one chain renames each reference to the counter's copy and stores every copy |
| MoleculeCheck.RefAtomTo | pyMolinfo/docs/molecule.py:153 | a reference to the chain `key` found at the start of a token leaves room for `*{key}` after its atom |
| MoleculeCheck.SpanIsRunEnd | pyMolinfo/docs/molecule.py:153 | the bounded span is the longest run of its class |
| MoleculeCheck.RefAtomToShape | pyMolinfo/docs/molecule.py:153 | a reference to `key` is an atom `A i`, then `*{key}`, then anything |
| MoleculeCheck.RefAtomToText | pyMolinfo/docs/molecule.py:153 | every `A i *{key}`, whatever follows it, is such a reference, and its atom is `A i` |
| MoleculeCheck.CheckUpTo | pyMolinfo/docs/molecule.py:143-167 | the outer loop over the first `n` chains keeps the main chain's length |
| MoleculeCheck.CopiesRenamed | pyMolinfo/docs/molecule.py:159-161 | every copy of a chain other than the main one is stored under a renamed name of that chain |
| MoleculeCheck.RenamedEntries | pyMolinfo/docs/molecule.py:159-161 | two lists of renamed assignments joined are still renamed assignments |
| MoleculeCheck.CheckUpToLog | pyMolinfo/docs/molecule.py:143-167 | every assignment the outer loop makes stores a chain under one of its renamed names |
| MoleculeCheck.Resolved | pyMolinfo/docs/molecule.py:130-135 | the checked dict keeps its keys; the main chain's entry becomes the rewritten main list, every other entry its tokens |
| MoleculeCheck.CheckStart | pyMolinfo/docs/molecule.py:130-135 | the checked dict starts with the main chain alone |
| MoleculeCheck.Checked | pyMolinfo/docs/molecule.py:107-173 | `check_molecule` succeeds exactly when a main chain with a non-empty name exists, and then that chain comes first |
| MoleculeCheck.StartLogValue | pyMolinfo/docs/molecule.py:159-161 | a key other than the main chain's holds what the last assignment to it stored |
| MoleculeCheck.ResolvedKeys | pyMolinfo/docs/molecule.py:130-167 | resolving a dict built from renamed copies keeps only the main chain and those copies |
| MoleculeCheck.CheckedKeys | pyMolinfo/docs/molecule.py:107-173 | only the main chain and renamed copies are kept, so a chain never referenced after an atom is dropped |
| MoleculeCheck.CheckChain | pyMolinfo/docs/molecule.py:143-167 | one turn of the outer loop stores what the first `n + 1` chains give and the main list rewritten so far |
| MoleculeCheck.CheckMolecule | pyMolinfo/docs/molecule.py:107-173 | the loops of `check_molecule` compute `Checked` |
| MoleculeCompiler.MShiftMeaning | pyMolinfo/docs/molecule.py:221-270 | a bond comes back with both indices moved up by `h` and its first index as `index1`; `A i op *...` becomes `op A i+h` and `* op A i` becomes `A i+h op`; a gate with several stars before its sign, a reference and anything else is kept |
| MoleculeCompiler.MGateStarFree | pyMolinfo/docs/molecule.py:241-270 | no rewritten gate holds a `*` |
| MoleculeCompiler.MShifts | pyMolinfo/docs/molecule.py:221-270 | definition: one shift per token, in order |
| MoleculeCompiler.MRewritten | pyMolinfo/docs/molecule.py:235-267 | each recognised token is replaced in its place and every other token is kept |
| MoleculeCompiler.LastIndexKept | pyMolinfo/docs/molecule.py:273 | `index1` stays as it was when the chain has no recognised token |
| MoleculeCompiler.LastIndexAt | pyMolinfo/docs/molecule.py:230-273 | otherwise `index1` is the index of the last recognised token |
| MoleculeCompiler.ShiftsStarFree | pyMolinfo/docs/molecule.py:241-270 | no shift of a chain is a gate holding a `*` |
| MoleculeCompiler.GatesOfStarFree | pyMolinfo/docs/molecule.py:253-270 | collected gates hold no `*` |
| MoleculeCompiler.ChainStep | pyMolinfo/docs/molecule.py:212-273 | one chain keeps the molecule's keys and leaves the build well formed; an `index1` never set is an error |
| MoleculeCompiler.ChainFrom | pyMolinfo/docs/molecule.py:212-273 | the chain loop keeps the molecule's keys and a well-formed build |
| MoleculeCompiler.ReplacementStars | pyMolinfo/docs/molecule.py:279-311 | a replaced token is a reference holding a `*`; its replacement holds none |
| MoleculeCompiler.ResolveAt | pyMolinfo/docs/molecule.py:279-311 | one position of the loop keeps the main chain's length |
| MoleculeCompiler.ResolveFrom | pyMolinfo/docs/molecule.py:279-311 | the loop keeps the main chain's length |
| MoleculeCompiler.ResolveFromIs | pyMolinfo/docs/molecule.py:279-311 | every reference is rewritten in its own place (`list.index` always finds the token visited); the loop fails exactly when some later token fails |
| MoleculeCompiler.ResolveAtIs | pyMolinfo/docs/molecule.py:289-311 | one position replaces the token in its own place |
| MoleculeCompiler.IndexAt | pyMolinfo/docs/molecule.py:289 | `list.index` finds position `i` when no earlier position holds the same token |
| MoleculeCompiler.MBondLists | pyMolinfo/docs/molecule.py:319-320 | definition: each entry's bonds, in `chain_info` order |
| MoleculeCompiler.Reindexed | pyMolinfo/docs/molecule.py:199-273 | the chain loop keeps the molecule's keys and the main chain; with an empty main name it is skipped |
| MoleculeCompiler.Construction | pyMolinfo/docs/molecule.py:175-325 | `construct_molecule` fails without a main chain and otherwise keeps the molecule's keys and well-formed dicts |
| MoleculeCompiler.ConstructionParts | pyMolinfo/docs/molecule.py:277-322 | the compiled list is the resolved main chain, each reference replaced in place, followed by every chain's bonds in `chain_info` order |
| MoleculeCompiler.BuildOf | pyMolinfo/docs/molecule.py:27-47 | `build` returns the compiled list under the molecule's name as the only key |
| MoleculeCompiler.ReindexChainTokens | pyMolinfo/docs/molecule.py:221-270 | the token loop rewrites each recognised token, records its bond or gate and moves `index1` |
| MoleculeCompiler.TokensStep | pyMolinfo/docs/molecule.py:221-270 | one token keeps the invariant of the token loop |
| MoleculeCompiler.ReindexChains | pyMolinfo/docs/molecule.py:212-273 | the chain loop computes `ChainFrom` |
| MoleculeCompiler.ReindexChain | pyMolinfo/docs/molecule.py:213-273 | one turn of the chain loop computes `ChainStep` |
| MoleculeCompiler.ResolveMain | pyMolinfo/docs/molecule.py:279-311 | the loop over the main chain computes `ResolveFrom` |
| MoleculeCompiler.ResolveToken | pyMolinfo/docs/molecule.py:281-311 | one turn of that loop computes `ResolveAt` |
| MoleculeCompiler.ReindexSource | pyMolinfo/docs/molecule.py:199-273 | the chain loop from its start computes `Reindexed` |
| MoleculeCompiler.ConstructMolecule | pyMolinfo/docs/molecule.py:175-325 | the method computes `Construction` |
| MoleculeCompiler.Molecule.constructor | pyMolinfo/docs/molecule.py:13-25 | the object holds the source and the name |
| MoleculeCompiler.Molecule.Build | pyMolinfo/docs/molecule.py:27-47 | the method computes `BuildOf` |
| MoleculeCompiler.MShiftOf | pyMolinfo/docs/molecule.py:221-270 | a shifted token's index is at least `h`; a token is shifted as a bond exactly when it scans as a bond; a gate with other than one star before its sign is kept |
| MolConstructor.KindOf | pyMolinfo/docs/molconstructor.py:90-94 | a star count has a chain type exactly when it is 1, 2 or 3 |
| MolConstructor.StarsIn | pyMolinfo/docs/molconstructor.py:99 | a token's star count is 0 exactly when it holds no `*` |
| MolConstructor.Infos | pyMolinfo/docs/molconstructor.py:105-111 | one fresh `chain_info` entry per analysed chain, of its type, in order |
| MolConstructor.AnalyzeStep | pyMolinfo/docs/molconstructor.py:86-111 | a successful analysis keeps the molecule and the main chain and leaves every entry well formed |
| MolConstructor.AnalyzeStepOk | pyMolinfo/docs/molconstructor.py:86-111 | a successful analysis stores the two dicts the loop builds |
| MolConstructor.AnalysisSnoc | pyMolinfo/docs/molconstructor.py:96-111 | one more chain adds its entries when it is a typed side chain, and none when it is the main chain |
| MolConstructor.TypedSnoc | pyMolinfo/docs/molconstructor.py:96-102 | one more chain keeps every chain typed exactly when it is the main chain or has a type |
| MolConstructor.InfosSnoc | pyMolinfo/docs/molconstructor.py:105-111 | one more analysed chain adds one fresh entry at the end |
| MolConstructor.AnalyzedStep | pyMolinfo/docs/molconstructor.py:96-111 | one turn of the loop on a typed or main chain keeps both dicts equal to the entries so far |
| MolConstructor.AnalyzedFails | pyMolinfo/docs/molconstructor.py:102 | a side chain without a type means not every chain is typed |
| MolConstructor.AnalyzeChains | pyMolinfo/docs/molconstructor.py:86-111 | the loop fails exactly when some side chain has no type (a `KeyError`), and otherwise assigns the entries in key order |
| MolConstructor.InfosValid | pyMolinfo/docs/molconstructor.py:105-111 | fresh entries keep every `chain_info` entry well formed |
| MolConstructor.Without | pyMolinfo/docs/molconstructor.py:96-97 | the keys visited as side chains are exactly the keys other than the main chain's |
| MolConstructor.TaggedLast | pyMolinfo/docs/molconstructor.py:102 | a key has an analysis entry exactly when it is a side chain, and the entry is its type |
| MolConstructor.AnalysisTagged | pyMolinfo/docs/molconstructor.py:96-102 | with every side chain typed, the entries are the side chains paired with their types |
| MolConstructor.AnalysisLast | pyMolinfo/docs/molconstructor.py:96-102 | the last entry for a key exists exactly for a side chain among the first `n`, and is its type |
| MolConstructor.AnalysisKeys | pyMolinfo/docs/molconstructor.py:96-102 | the analysed keys, in order, are the keys other than the main chain's |
| MolConstructor.WithoutPrefix | pyMolinfo/docs/molconstructor.py:96-97 | one more key adds itself unless it is the main chain's |
| MolConstructor.InfosLast | pyMolinfo/docs/molconstructor.py:105-111 | the last `chain_info` entry for a key is the fresh entry of its last type |
| MolConstructor.AnalyzeTyped | pyMolinfo/docs/molconstructor.py:86-111 | `_analyze_chain_types` succeeds exactly when every chain other than the main one has 1, 2 or 3 stars |
| MolConstructor.AnalyzeEntries | pyMolinfo/docs/molconstructor.py:99-111 | after the analysis each side chain has the type of its star count and a fresh `chain_info` entry of that type |
| MolConstructor.AnalyzeKeeps | pyMolinfo/docs/molconstructor.py:96-111 | every entry not written by the loop is kept |
| MolConstructor.AnalyzeOrder | pyMolinfo/docs/molconstructor.py:96-102 | into an empty `chain_analysis` the side chains are entered in insertion order |
| MolConstructor.FreshPairs | pyMolinfo/docs/molconstructor.py:102 | storing fresh distinct keys into an empty dict gives those keys in order |
| MolConstructor.WithoutDistinct | pyMolinfo/docs/molconstructor.py:96-97 | the side-chain keys are distinct |
| MolConstructor.Refs | pyMolinfo/docs/molconstructor.py:117-131 | one reference reading per main-chain token, in order |
| MolConstructor.WithReceivers | pyMolinfo/docs/molconstructor.py:117-131 | appending receivers adds no key to `chain_info` |
| MolConstructor.ConnectStep | pyMolinfo/docs/molconstructor.py:113-131 | a successful step keeps the molecule, the main chain and well-formed entries |
| MolConstructor.ReceiversOnly | pyMolinfo/docs/molconstructor.py:123-131 | only a chain's receivers change: its main atoms are appended in main-chain order |
| MolConstructor.ReceiversValid | pyMolinfo/docs/molconstructor.py:123-131 | appending receivers keeps every entry well formed |
| MolConstructor.ConnectReceivers | pyMolinfo/docs/molconstructor.py:113-131 | each reference appends its main atom to the receivers of the chain it names; the step fails exactly when some reference names a chain without an entry |
| MolConstructor.ReceivedStep | pyMolinfo/docs/molconstructor.py:117-131 | one token whose reference names a known chain carries the loop on |
| MolConstructor.ReceivedFails | pyMolinfo/docs/molconstructor.py:123-131 | a reference to a chain without an entry makes the whole loop fail |
| MolConstructor.AttachReceiver | pyMolinfo/docs/molconstructor.py:117-131 | one token: its reference attached, or failure only when some reference is unknown |
| MolConstructor.AttachReceivers | pyMolinfo/docs/molconstructor.py:113-131 | the loop succeeds exactly when every reference names a known chain and then computes `WithReceivers`, keeping the key order |
| MolConstructor.ShiftMeaning | pyMolinfo/docs/molconstructor.py:143-188 | a bond comes back with both indices moved up by `h` and the larger as its top; a gate loses its stars, which become its port; references and unrecognised tokens are kept |
| MolConstructor.ShiftTop | pyMolinfo/docs/molconstructor.py:147-188 | every top is at least `h`; no new gate holds a `*` |
| MolConstructor.Shifts | pyMolinfo/docs/molconstructor.py:141-188 | definition: one shift per token, in order |
| MolConstructor.Rewritten | pyMolinfo/docs/molconstructor.py:149-179 | definition: each recognised token is replaced in its place and every other token is kept |
| MolConstructor.GatesOfStarFree | pyMolinfo/docs/molconstructor.py:161-181 | collected gates hold no `*` |
| MolConstructor.AddShift | pyMolinfo/docs/molconstructor.py:150-187 | adding a token's results keeps the ports well formed |
| MolConstructor.ReindexedSnoc | pyMolinfo/docs/molconstructor.py:141-188 | one more token adds what it gives and moves `last_index` to its top |
| MolConstructor.ShiftsSnoc | pyMolinfo/docs/molconstructor.py:150-187 | one more token adds its bond, or its gate and port, at the end |
| MolConstructor.ReindexKey | pyMolinfo/docs/molconstructor.py:137-190 | one chain keeps the keys of the molecule and of `chain_info` and leaves the entries well formed |
| MolConstructor.ReindexedValid | pyMolinfo/docs/molconstructor.py:150-187 | a re-indexed entry is still well formed |
| MolConstructor.ReindexFold | pyMolinfo/docs/molconstructor.py:137-190 | the loop keeps the keys and cannot fail when every side chain has a `chain_info` entry |
| MolConstructor.WithFields | pyMolinfo/docs/molconstructor.py:137-190 | storing the loop's fields keeps the state valid and its keys |
| MolConstructor.ReindexStep | pyMolinfo/docs/molconstructor.py:133-190 | `_update_chain_indices` keeps the main chain and the key order |
| MolConstructor.LastTopAtLeast | pyMolinfo/docs/molconstructor.py:139-188 | `last_index` never falls below the starting `highest_index` |
| MolConstructor.LastTopIsLast | pyMolinfo/docs/molconstructor.py:139-188 | `last_index` is the top of the last recognised token |
| MolConstructor.LastTopNone | pyMolinfo/docs/molconstructor.py:139 | with no recognised token `last_index` stays `highest_index` |
| MolConstructor.BondsOfHas | pyMolinfo/docs/molconstructor.py:150-151 | every rewritten bond is collected among the bonds |
| MolConstructor.KeptAll | pyMolinfo/docs/molconstructor.py:141-188 | a chain with no recognised token adds no bond, gate or port |
| MolConstructor.ShiftBondAt | pyMolinfo/docs/molconstructor.py:143-152 | a bond token is rewritten with both indices moved up and collected among the bonds |
| MolConstructor.TokensStep | pyMolinfo/docs/molconstructor.py:141-188 | one token of the loop keeps the invariant: tokens so far rewritten, entries added, `last_index` moved |
| MolConstructor.TokensDone | pyMolinfo/docs/molconstructor.py:141-190 | at the end of the loop the chain, the entry and `last_index` are the rewritten ones |
| MolConstructor.ReindexTokens | pyMolinfo/docs/molconstructor.py:139-188 | the token loop rewrites each recognised token in place, adds its bond or gate and port, and moves `last_index` |
| MolConstructor.ReindexKeyRest | pyMolinfo/docs/molconstructor.py:137-190 | one chain never lowers `highest_index` and leaves every other chain and entry as it was |
| MolConstructor.ReindexKeyIs | pyMolinfo/docs/molconstructor.py:137-190 | a side chain with an entry is rewritten token by token and `highest_index` becomes its `last_index` |
| MolConstructor.ReindexKeyNoInfo | pyMolinfo/docs/molconstructor.py:150-182 | a side chain without an entry is kept when none of its tokens is recognised, and a `KeyError` otherwise |
| MolConstructor.FoldNext | pyMolinfo/docs/molconstructor.py:137-190 | one more chain carries the loop on or is its error |
| MolConstructor.ReindexFoldStuck | pyMolinfo/docs/molconstructor.py:137-190 | once a chain fails the whole loop fails with that error |
| MolConstructor.ReindexFoldRaises | pyMolinfo/docs/molconstructor.py:137-190 | over the loop `highest_index` never decreases and the main chain is untouched |
| MolConstructor.UpdateChain | pyMolinfo/docs/molconstructor.py:138-190 | one pass of the chain loop computes `ReindexKey` |
| MolConstructor.UpdateIndices | pyMolinfo/docs/molconstructor.py:137-190 | the chain loop computes `ReindexFold`, stopping at the first `KeyError` |
| MolConstructor.ReindexAfterConnect | pyMolinfo/docs/molconstructor.py:295-301 | after the analysis and the receivers the re-indexing in `construct` never fails |
| MolConstructor.Joined | pyMolinfo/docs/molconstructor.py:210-219 | the main atom joined to each gate of a ring, in order |
| MolConstructor.WithMain | pyMolinfo/docs/molconstructor.py:217-228 | replacing the main chain keeps everything else |
| MolConstructor.ResolveStep | pyMolinfo/docs/molconstructor.py:230-270 | `_process_gate_connections` keeps the keys and the main chain's name and is the token-by-token resolution |
| MolConstructor.ResolutionStarFree | pyMolinfo/docs/molconstructor.py:192-270 | no resolved or appended token holds `*`, so none is a reference |
| MolConstructor.ResolveLoopIs | pyMolinfo/docs/molconstructor.py:230-270 | the loop equals resolving each original token: the replacements in order, then all appended tokens; it fails exactly when some token fails |
| MolConstructor.ResolveExtrasKept | pyMolinfo/docs/molconstructor.py:219 | appended tokens are not references, so the loop, which also visits them, keeps them |
| MolConstructor.GateJoinsAsBond | pyMolinfo/docs/molconstructor.py:243-248 | a gate joined to a main atom reads back as a bond |
| MolConstructor.BondLists | pyMolinfo/docs/molconstructor.py:282-283 | definition: each entry's bonds, in `chain_info` order |
| MolConstructor.BuildStep | pyMolinfo/docs/molconstructor.py:272-283 | only the compiled list changes; it is the main chain then every chain's bonds |
| MolConstructor.BuildBlocks | pyMolinfo/docs/molconstructor.py:272-283 | the compiled list starts with the main chain, then holds each chain's bonds as one block after the blocks before it |
| MolConstructor.BuildLength | pyMolinfo/docs/molconstructor.py:272-283 | the compiled list is as long as the main chain and all bonds together |
| MolConstructor.InitState | pyMolinfo/docs/molconstructor.py:16-35 | `__init__` succeeds exactly when a main chain with a non-empty name exists, and then copies the source |
| MolConstructor.Constructed | pyMolinfo/docs/molconstructor.py:285-309 | `construct` keeps the main chain and the molecule's keys |
| MolConstructor.Compile | pyMolinfo/docs/molconstructor.py:312-330 | `from_source` fails when no main chain exists |
| MolConstructor.MoleculeConstructor.constructor | pyMolinfo/docs/molconstructor.py:16-35 | the constructor's state is the initial state |
| MolConstructor.MoleculeConstructor.AnalyzeChainTypes | pyMolinfo/docs/molconstructor.py:86-111 | the method succeeds exactly when `AnalyzeStep` does and then holds its state; on an error the model keeps the old state |
| MolConstructor.MoleculeConstructor.ProcessMainChainConnections | pyMolinfo/docs/molconstructor.py:113-131 | the method succeeds exactly when `ConnectStep` does and then holds its state; on an error the model keeps the old state |
| MolConstructor.MoleculeConstructor.UpdateChainIndices | pyMolinfo/docs/molconstructor.py:133-190 | the method succeeds exactly when `ReindexStep` does and then holds its state; on an error the model keeps the old state |
| MolConstructor.MoleculeConstructor.ProcessGateConnections | pyMolinfo/docs/molconstructor.py:230-270 | the method succeeds exactly when `ResolveStep` does and then holds its state; on an error the model keeps the old state |
| MolConstructor.MoleculeConstructor.BuildConstructedMolecule | pyMolinfo/docs/molconstructor.py:272-283 | the new state is `BuildStep` of the old one |
| MolConstructor.MoleculeConstructor.Construct | pyMolinfo/docs/molconstructor.py:285-309 | the five steps succeed exactly when `Constructed` does, returning its `chain_info`, molecule and compiled list |
| MolConstructor.FromSource | pyMolinfo/docs/molconstructor.py:311-330 | `from_source` succeeds exactly when `Compile` does and returns its result |
| MolConstructor.ShiftOf | pyMolinfo/docs/molconstructor.py:143-188 | a shifted token's top index is at least `h`, and a token is shifted as a bond exactly when it scans as a bond |
| MolConstructor.Resolution | pyMolinfo/docs/molconstructor.py:230-270 | a token without reference is kept with nothing appended; a reference to a chain missing from either table fails; failure only comes from a reference that is missing or to a bridge |
| MolConstructor.MultiGate | pyMolinfo/docs/molconstructor.py:192-228 | only a bridge can fail; a branch is kept; a ring with gates appends one token per gate after the first; a bridge succeeds exactly when the main atom is a receiver whose position has a gate |
| FunctionalGroups.Symbols | pyMolinfo/docs/netwrok.py:469-479 | definition: node `i + 1` gets the stripped symbol of element `i`, for atoms 1..n |
| FunctionalGroups.CompoundBonds | pyMolinfo/docs/netwrok.py:484-496 | definition: one edge per flat bond, joining its two ids, with its bond symbol and type |
| FunctionalGroups.CompoundGraph | pyMolinfo/docs/netwrok.py:437-502 | `create_graph` succeeds exactly when there are at least as many element symbols as coordinate rows, and then builds a well-formed graph |
| FunctionalGroups.CompoundAtom | pyMolinfo/docs/netwrok.py:469-479 | atom `i + 1` of the compound graph carries the stripped symbol of element `i` |
| FunctionalGroups.CompoundBond | pyMolinfo/docs/netwrok.py:484-496 | two atoms are bonded exactly when some flat bond joins them, and the edge carries the symbol and type of the last such bond |
| FunctionalGroups.CreateGraph | pyMolinfo/docs/netwrok.py:437-502 | the two loops of `create_graph` compute `CompoundGraph` |
| FunctionalGroups.Keys | pyMolinfo/docs/netwrok.py:142 | definition: the library's group names in library order |
| FunctionalGroups.FindKey | pyMolinfo/docs/netwrok.py:202 | the first position from `i` whose name is `name`; none when no later entry has it |
| FunctionalGroups.Lookup | pyMolinfo/docs/netwrok.py:202 | a name has variants exactly when it is a key, and they are that key's entry |
| FunctionalGroups.Graphs | pyMolinfo/docs/netwrok.py:202-210 | each variant as a well-formed graph, in order |
| FunctionalGroups.AnyVariant | pyMolinfo/docs/netwrok.py:205-234 | the variant loop, stopping at the first variant found, reports whether some variant occurs |
| FunctionalGroups.PresentIff | pyMolinfo/docs/netwrok.py:205-234 | a group is reported present exactly when some variant embeds in the target |
| FunctionalGroups.KeySetsStep | pyMolinfo/docs/netwrok.py:348-353 | the node sets of a list of mappings are the first one's plus the rest's |
| FunctionalGroups.FootprintsStep | pyMolinfo/docs/netwrok.py:336-355 | the node sets of variants `k..` are those of variant `k` plus the rest's |
| FunctionalGroups.CountMappings | pyMolinfo/docs/netwrok.py:343-355 | the loop over one variant's mappings adds exactly the unseen node sets and counts them |
| FunctionalGroups.CountVariants | pyMolinfo/docs/netwrok.py:331-371 | the count is the number of distinct node sets any variant covers, and `fg_found_any` says it is positive |
| FunctionalGroups.FootprintsIff | pyMolinfo/docs/netwrok.py:343-355 | a node set is counted exactly when some variant embeds onto exactly those atoms |
| FunctionalGroups.CountedIffPresent | pyMolinfo/docs/netwrok.py:195-371 | the count is positive exactly when the presence check reports the group |
| FunctionalGroups.NodeMatch | pyMolinfo/docs/netwrok.py:504-515 | equal symbols match; a wildcard on either side matches; two different non-wildcard symbols do not |
| FunctionalGroups.SameSymbol | molinfo/docs/netwrok.py:99-103 | plain equality implies the wildcard test, and agrees with it away from wildcards |
| FunctionalGroups.EdgeMatch | pyMolinfo/docs/netwrok.py:517-521 | edges match exactly when their types agree, whatever their symbols |
| FunctionalGroups.Footprints | pyMolinfo/docs/netwrok.py:331-371 | every node set covered by an embedding of some variant is among the footprints |
| GroupRequests.EntryUnits | pyMolinfo/docs/netwrok.py:373-388 | definition: one step per entry of a custom dict, keeping its key and value |
| GroupRequests.UnitsStep | pyMolinfo/docs/netwrok.py:195-272 | the steps of items `i..` are item `i`'s steps followed by the rest's |
| GroupRequests.Requests | pyMolinfo/docs/netwrok.py:125-154 | definition: one request per name, in order |
| GroupRequests.Groups | pyMolinfo/docs/netwrok.py:275 | definition: the `function_group` of each entry, in order |
| GroupRequests.Register | pyMolinfo/docs/netwrok.py:586-598 | the key is registered afterwards and a new key gets a list; earlier registered names are kept in order |
| GroupRequests.RegisterValid | pyMolinfo/docs/netwrok.py:586-598 | registering keeps the registry valid; a new key gets `[value]`, a known key keeps its first list |
| GroupRequests.RegisterIdempotent | pyMolinfo/docs/netwrok.py:586-598 | registering the same key again changes nothing |
| GroupRequests.ThenEnds | pyMolinfo/docs/netwrok.py:192-280 | the walk before any step, and once every step is done |
| GroupRequests.RunStep | pyMolinfo/docs/netwrok.py:195-272 | one step of the walk: its registration, then its entry or its exception |
| GroupRequests.RunOutputs | pyMolinfo/docs/netwrok.py:192-280 | the walk succeeds exactly when no step raises, and then reports every step's entry in order |
| GroupRequests.OutputsMember | pyMolinfo/docs/netwrok.py:192-280 | an entry is reported exactly when some step produces it |
| GroupRequests.EntryMeaning | pyMolinfo/docs/netwrok.py:195-427 | an entry is reported under its step's name; its result says some graph of the step embeds in the target; a count is the number of distinct target-atom sets such embeddings cover |
| GroupRequests.Known | pyMolinfo/docs/netwrok.py:199-202 | exactly the requested names the library knows |
| GroupRequests.NameUnits | pyMolinfo/docs/netwrok.py:199-202 | definition: one library step per name, in order |
| GroupRequests.UnitsOfNames | pyMolinfo/docs/netwrok.py:199-202 | a request of plain names is one library step per name |
| GroupRequests.EvalReportsKnown | pyMolinfo/docs/netwrok.py:199-234 | a name is reported under itself exactly when the library knows it |
| GroupRequests.NameOutputs | pyMolinfo/docs/netwrok.py:199-275 | the reported names of a plain-name request are the known names, in request order |
| GroupRequests.NameOutputsCons | pyMolinfo/docs/netwrok.py:199-234 | the first name's entry comes before the rest's |
| GroupRequests.GroupsAppend | pyMolinfo/docs/netwrok.py:275 | the names of joined entry lists are the joined names |
| GroupRequests.NamedOutputs | pyMolinfo/docs/netwrok.py:195-280 | a request of plain names yields one entry per known name, in request order; unknown names are skipped |
| GroupRequests.NamesNeverRaise | pyMolinfo/docs/netwrok.py:199-234 | a request of plain names never raises |
| GroupRequests.AllGroupsReported | pyMolinfo/docs/netwrok.py:141-154 | with no names given, every library group is reported, in library order |
| GroupRequests.KnownAll | pyMolinfo/docs/netwrok.py:142 | the library's own keys are all known |
| GroupRequests.ExtendsTrans | pyMolinfo/docs/netwrok.py:594 | the registry only grows: a prefix of a prefix is a prefix |
| GroupRequests.AfterValid | pyMolinfo/docs/netwrok.py:250 | one step keeps the registry valid and only grows it, registering the step's key when it registers |
| GroupRequests.RunRegistry | pyMolinfo/docs/netwrok.py:192-280 | the registry stays valid and only grows, whether or not the walk raises |
| GroupRequests.EvalRaisesUnregistered | pyMolinfo/docs/netwrok.py:235-272 | a custom dict left unregistered makes its step raise |
| GroupRequests.RunRegistersAll | pyMolinfo/docs/netwrok.py:192-280 | after a walk that does not raise, every custom key of the request is registered |
| GroupRequests.Block | pyMolinfo/docs/netwrok.py:566-582 | definition: one hit per mapping of a pattern, the count running on from `n` |
| GroupRequests.HitsFrom | pyMolinfo/docs/netwrok.py:540-582 | the count is a running count over all variants, not de-duplicated: hit `i` carries `n + i + 1` and one of its pattern's mappings |
| GroupRequests.HitsCover | pyMolinfo/docs/netwrok.py:562-582 | every mapping of every variant is reported as a hit |
| GroupRequests.HitsSound | pyMolinfo/docs/netwrok.py:562-582 | with the matcher every hit is an embedding of one of the variants into the target |
| GroupRequests.HitsComplete | pyMolinfo/docs/netwrok.py:562-582 | with the matcher every embedding of every variant is reported |
| GroupRequests.Unwrap | pyMolinfo/docs/netwrok.py:555 | definition: the graphs of a list of custom values, in order |
| GroupRequests.Wrap | pyMolinfo/docs/netwrok.py:548 | definition: the library variants as custom values, in order |
| GroupRequests.Search | pyMolinfo/docs/netwrok.py:534-584 | no graphs chosen raises `functional group not found!`; success needs a compound graph and graph values only |
| GroupRequests.AppendHits | pyMolinfo/docs/netwrok.py:566-582 | the inner loop appends one hit per mapping, the count running on |
| GroupRequests.HitsStep | pyMolinfo/docs/netwrok.py:562-582 | the hits of variants `k..` are variant `k`'s block, then the rest counted on |
| GroupRequests.CollectHits | pyMolinfo/docs/netwrok.py:562-582 | the outer loop over the chosen graphs computes `Hits` |
| GroupRequests.LookForGroupSubgroup | pyMolinfo/docs/netwrok.py:599-663 | a successful split gives a group with more nodes than the subgroup, both taken from the value |
| GroupRequests.GroupSubgroupIff | pyMolinfo/docs/netwrok.py:599-663 | the split succeeds exactly for two graphs with different names and node counts; the group is the larger; the only other failure is a missing subgroup |
| GroupRequests.Evaluate | pyMolinfo/docs/netwrok.py:195-272 | a step gives nothing exactly for a name the library lacks, raises exactly for a list-valued custom dict, and otherwise reports under its own name, a count exactly in counting mode |
| GroupRequests.RunUnits | pyMolinfo/docs/netwrok.py:192-280 | no more entries than steps; the empty request reports nothing and keeps the registry |
| GroupRequests.Hits | pyMolinfo/docs/netwrok.py:562-582 | hit `i` carries the running count `n + i + 1` |
| Network.Chosen | pyMolinfo/docs/netwrok.py:141-142 | an empty request means every library group in library order; otherwise the request itself |
| Network.New | pyMolinfo/docs/netwrok.py:22-90 | a fresh network over the compound with pyMolinfo's library, its names as `functional_groups`, nothing registered and no graph stored |
| Network.Network.constructor | pyMolinfo/docs/netwrok.py:22-90 | the fields are the arguments; `functional_groups` is the table's names; nothing registered and no graph stored |
| Network.Network.UpdateCustomFunctionalGroup | pyMolinfo/docs/netwrok.py:586-598 | the registry becomes `Register` of the old one, stays valid, and nothing else changes |
| Network.Network.CreateGraph | pyMolinfo/docs/netwrok.py:437-502 | returns `CompoundGraph`, stores it as `compound_graph` on success, and changes nothing else |
| Network.Network.Step | pyMolinfo/docs/netwrok.py:195-272 | one step's entry or exception is `Evaluate`, and the registry is updated as the step registers |
| Network.Network.Advance | pyMolinfo/docs/netwrok.py:195-272 | after the step at `todo[j]` the rest of the walk is what remains, or the walk's error |
| Network.Network.WalkItem | pyMolinfo/docs/netwrok.py:195-272 | one request item, a name or each dict of a custom graph in turn, carries the walk on or ends it with its error |
| Network.Network.Walk | pyMolinfo/docs/netwrok.py:192-280 | the loop's result and registry are the reference walk's; on success the reported names become `functional_groups`, on an exception they are kept |
| Network.Network.CheckFunctionalGroup | pyMolinfo/docs/netwrok.py:156-280 | `check_functional_group` is the presence walk, with its result, registry and `functional_groups` |
| Network.Network.CountFunctionalGroup | pyMolinfo/docs/netwrok.py:282-435 | `count_functional_group` is the counting walk, with its result, registry and `functional_groups` |
| Network.Network.CheckFunctionalGroups | pyMolinfo/docs/netwrok.py:125-154 | the graph is built and stored first; with an empty request the only exception is the graph's own and afterwards `functional_groups` is the library's names in order |
| Network.Network.Selected | pyMolinfo/docs/netwrok.py:543-556 | graphs are selected only for a name of the last report known to the library, or a registered custom name |
| Network.Network.SearchWithinMainGraph | pyMolinfo/docs/netwrok.py:523-584 | every embedding of every selected graph into the stored compound graph, with the running count |
| Network.PyLibrary | pyMolinfo/docs/netwrok.py:36-84 | the table has the 41 groups of `function_group_list` |
| Network.Network.SelectGraphs | pyMolinfo/docs/netwrok.py:543-556 | the selection loops compute `Selected` |
| MolinfoNetwork.New | molinfo/docs/netwrok.py:14-57 | a network over the compound with molinfo's library |
| MolinfoNetwork.Network.constructor | molinfo/docs/netwrok.py:14-57 | the fields are the arguments |
| MolinfoNetwork.Network.CheckFunctionalGroup | molinfo/docs/netwrok.py:83-153 | one entry per known name, in request order, saying whether some variant embeds with plain symbol equality; unknown names are skipped |
| MolinfoNetwork.Network.CreateGraph | molinfo/docs/netwrok.py:155-217 | `create_graph` is `CompoundGraph`: too few element symbols raise |
| MolinfoNetwork.Network.CheckFunctionalGroups | molinfo/docs/netwrok.py:59-81 | succeeds exactly when the graph can be built; an empty request reports every library group in order, otherwise exactly the known names in order |
| MolinfoNetwork.OutputsSnoc | molinfo/docs/netwrok.py:115-150 | one more name at the end adds that name's entry, if any, at the end |
| MolinfoNetwork.OutputsAppend | molinfo/docs/netwrok.py:115-150 | the entries of two joined requests are the joined entries |
| MolinfoNetwork.MolinfoLibrary | molinfo/docs/netwrok.py:28-57 | the table has the 24 groups of `function_group_list` |

## Left out

- File and network I/O are not modelled. This covers `MolParser.read_file`, JSON loading and PubChem queries. The reader starts from the record's text, and the JSON side starts from its decoded columns.
- The `__var_finder` regular expression is not modelled. Data items reach `SdfValues` as (name, body) pairs already cut out of the record.
- Floating point is not modelled. Coordinates are an opaque payload read by a caller-supplied `parseFloat`. The distance used by `SetAtomId` is an abstract key function of the coordinates.
- Geometry, the element table and plotting are not modelled: the `d()` methods, `graph3d.py` and `vizr3d.py`.
- The `print` calls and `logging` are not modelled. Error messages are not pinned: only whether a step fails is stated, except for `search_within_main_graph`'s `functional group not found!`.
- The regular expressions of the chain compilers are hand-written prefix matchers. Letters are ASCII `A-Z` and `a-z`, and digits are ASCII `0-9`. Python's `\d` also matches non-ASCII digits; tokens holding them are outside the model.
- `isalpha`, `isdigit` and `lower` are ASCII-only in `PyText`. Unicode letters, digits and case folding are not modelled. `isspace` follows Python's full white-space set.
- PyText.ParseInt: underscores between digits (`1_000`) and non-ASCII digits are rejected, though Python's `int()` accepts them. Counts and indices in the files read here are plain ASCII digits.
- SubgraphMatch.NodesMatch: a target node without a symbol never matches. The source's `node_match` reads `n1['symbol']` (pyMolinfo/docs/netwrok.py:180 and :513, molinfo/docs/netwrok.py:103) and raises `KeyError` when VF2 pairs such a node. The exception is not modelled.
- FunctionalGroups.CompoundGraph: it can hold nodes without a symbol. A bond whose second id is 0 or negative reaches one through the negative indexing of `MolParser.BondFields`, and `add_edge` (pyMolinfo/docs/netwrok.py:496) adds the missing end point as a bare node. Whether VF2 ever pairs that node depends on its search order, which is not modelled. So `Network`'s `CountFunctionalGroup`, `CheckFunctionalGroup` and `SearchWithinMainGraph` do not report that `KeyError`.
- networkx's `GraphMatcher` is given by its contract, not by the VF2 algorithm. The order in which it enumerates mappings is not modelled: the brute-force enumerator fixes one order. Only the set of mappings is proved.
- GroupRequests.Search: each hit's `subgraph_pattern` entry (`G.subgraph(...)`, a view of the compound graph) is left out. The hit keeps the pattern, the mapping and the running count.
- FunctionalGroups.CountVariants: the sorted tuple of target node ids is modelled as the set of those ids. Both identify the same atoms.
- The class-level lists `custom_functional_groups` and `custom_functional_group_list` of pyMolinfo's `Network` are modelled as fields of each network object. They are shared between all networks in the source, so registrations made by one network are not seen by another in the model.
- Aliasing between the caller's containers and the objects' fields is not modelled. Examples are the molecule source dict a compiler copies, and the graph objects a custom group shares between keys. Lists and dicts are values.
- `Network.New`: `__init__`'s functional-group table is a literal of the library. The class constructor takes it as a parameter, and `New` passes the library. This keeps the literal out of the proofs about the walk.
- AtomIds.SetAtomId: its `Err` stands for a `None` return. `SetAtomId`, `arrange_prop` and `__json_atom_bondblock` (molinfo/docs/molparser.py:1124-1125, 1150-1151, 931-932) catch every exception and return `None`; the same holds for AtomIds.ArrangeProp and JsonParser.JsonBondBlock. `json_parser` still fails on the `None` of the first and the third, when it unpacks or reads the result (molparser.py:410, 421-423, 438). `arrange_prop`'s `None` is stored as `element_atomic_number` (molparser.py:441-442) and does not stop `json_parser`; `json_parser` itself is not part of this model.
- Compound.CompoundText: `mat_name` is an optional text. A list-valued name, which the source prints with `str(list)`, is not modelled.
- Compound.ListText: every item is written in single quotes. Python's `repr` switches to double quotes for an item holding a single quote and escapes special characters; neither is modelled.
- MolConstructor.MoleculeConstructor: its step methods (`AnalyzeChainTypes`, `ProcessMainChainConnections`, `UpdateChainIndices`, `ProcessGateConnections`) keep the old state when they fail. The source updates its dicts in place, so the updates made before the exception remain. The state after a failure is not modelled; `construct` and `from_source` stop at the first failure.
- The getters and setters of pyMolinfo's `Network` (its `properties` block) and of `Compound` are not modelled. The fields they expose are plain fields.
- The list-valued branch of pyMolinfo's `check_functional_group` is modelled as an exception. That branch passes the list of group names to `__look_for_group_subgroup`, which either rejects its length or fails reading `.nodes` from a string. It therefore never appends an entry.
- The worked compilation examples (`MainChain`/`Chain1` giving a closed six-ring) are not proved as instances. Unfolding the compilers on literal strings exceeds the verifier's resource limit. `MolConstructor.ResolveLoopIs`, `MolConstructor.BuildBlocks`, `MolConstructor.ShiftMeaning`, `MoleculeCompiler.ConstructionParts` and `MoleculeCompiler.MShiftMeaning` state the behaviour those examples show, for every input.
- ChemGraphs and MolinfoChemGraphs constructors promise a well-formed pattern in their own contracts. Nodes are numbered 1..n, and every edge joins two distinct nodes with type 1, 2 or 3. The exact node and edge lists are proved in separate lemmas for a subset of the patterns: hydroxyl, carbonyl, the C-N triple bond, arene, methyl, methine, epoxide, the alkyl halides, and the wildcard nodes of the carboxylic acid and the thiol. For molinfo these are hydroxyl, arene and the tertiary alcohol.
- `molinfo/docs/element.py`, `observer.py`, both `compute.py` files, `graphutils.py` and the `app.py` wrappers are not part of this model. They hold the element table, geometry, numeric computations, a stub and user interfaces.

## Findings

| source | as written | input that shows it | evidently intended | confidence | as-written member | corrected member |
|---|---|---|---|---|---|---|
| molinfo/docs/molparser.py:180 | with a 9-field counts line, the bond count is read from the piece of the merged first field between the first and second occurrences of the atom count's decimal text | 99 atoms and 199 bonds (`99199`) read as 1 bond; 100 atoms and 100 bonds (`100100`) leave an empty piece and the record fails | the bond count is the text after the leading atom count | not executed | SdfCounts.SplitBondCountMisreads | SdfCounts.MergedBondCountRoundTrip |

The parser keeps the reading as written: `SdfCounts.CountsFrom` and `SdfCounts.ReadCounts` use `SplitBondCount`. The corrected reading is `SdfCounts.MergedBondCount`, and `SdfCounts.MergedBondCountRoundTrip` proves that it gives back every bond count. `SdfCounts.SplitBondCountAgrees` and `SdfCounts.CountsNineFieldsMerged` state when the two readings agree: the bond count's text must not contain the atom count's text.
