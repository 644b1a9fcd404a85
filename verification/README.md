# PMA reader in Dafny

This project models the reader for the tab-indented "PMA" object-tree text format from `src/read_pma/mod.rs`. The format describes mission objects: a route (`IObjeto - Rota 2`) with common data, specific data, entry and exit gates, and child objects (waypoints) in a `Filhos` block. `PMAFile::read` makes one forward pass over the lines of such a file. It keeps four pieces of state:

- the node being built;
- the child object being built;
- whether the pass is inside a `Filhos` block;
- the current bucket, `current_working_place`.

Each line goes through an indentation-driven close rule first. It is then handled either as a keyword line or as a `key = value` parameter line that is routed into the current bucket. At the end of input, the pending child and node are flushed.

Modules, in dependency order:

- `Wrappers`: the `Option` type.
- `StrOps`: the Rust `str` operations the reader relies on, each with a lemma characterising it. These are `trim`/`trim_start`/`trim_end` (Unicode `White_Space`), `find`, `split`, `contains`, and counting a character.
- `PmaKeywords`: `NodeType` and `NodeType::from_str`, a total lookup with an `Other` fallback. `Nav` and `Nav::from_str`, a partial lookup.
- `PmaLines`: `is_node`, `get_indentation_level` and `split_into_tuple`.
- `PmaData`: the records `Gate`, `IObjetoNav`, `IObjeto` and `PMANode`, their mutators, and `get_nodes_by_type`. Each record is a datatype. The source moves these structs by value into their containers, so nothing aliases them, and each `&mut self` mutator becomes a function that returns the updated record.
- `PmaReader`: the specification of `read` as functions and the imperative loop proved equal to it.
  - `Step` handles one line, `Run` folds `Step` over the lines, `Flush` is the end-of-input flush, and `Parse = Flush(Run(lines))`.
  - `class PMAFile` holds the output `Vec` as a `seq<PMANode>` field.
  - `PMAFile.Read` is the `for` loop over the lines, with the four locals. It is proved to append exactly `Parse(lines)`.
- `PmaReaderFacts`: what the reader promises:
  - the output is append-only;
  - the close rule;
  - the effect of each keyword;
  - the routing table for parameter lines, with last-write-wins and the exit-gate auto-close;
  - every emitted node is named and has only children with data.
- `PmaFixture`: the document from the test at `src/read_pma/mod.rs:322-432`, read line by line. It is proved to give exactly the expected single route with one waypoint child at level 2.

Where the code is more specific than a prose description of the format would suggest, the model follows the code:

- The indentation level counts every tab in the line once trailing whitespace is removed, not only leading tabs (`PmaLines.InnerTabCounts`).
- `k =` gives the value `Some("")`, and only the text between the first and second `=` becomes the value.
- A line containing `Nil` is never a keyword line. It is routed to the current bucket as a parameter. Without `=`, its whole trimmed text becomes a key with no value.
- The exit-gate bucket switches to `DadosEspecificos` whenever that gate holds `StringConfiguracao` after the insert, not only when that key was just inserted.
- Closing a node does not reset the pending child.
- A blank line is a keyword line for an unknown header: it renames the current node to `""` at level 0.
- A header at a node's level that follows a pending child only closes the child. An `IObjeto` header there becomes the next child inside the same `Filhos` block instead of a sibling node (`PmaReaderFacts.SiblingAfterChildStaysInside`).

## Model

| member | source | states |
|---|---|---|
| StrOps.TrimSpec | src/read_pma/mod.rs:196 | `trim` removes exactly a whitespace prefix and a whitespace suffix: the result neither starts nor ends with whitespace |
| StrOps.TrimIdempotent | src/read_pma/mod.rs:177 | trimming an already trimmed text changes nothing |
| StrOps.FindSpec | src/read_pma/mod.rs:310-311 | `find` returns the first index of the character, and `None` exactly when it does not occur |
| StrOps.SplitSpec | src/read_pma/mod.rs:194-197 | `split` yields one more piece than there are separators; joining the pieces gives back the line, and no piece contains the separator |
| StrOps.SplitJoin | src/read_pma/mod.rs:194-197 | splitting a join of separator-free pieces gives back those pieces |
| StrOps.CountCharSpec | src/read_pma/mod.rs:301-305 | the count of a character is its multiplicity in the text, at most the text's length |
| StrOps.ContainsSpec | src/read_pma/mod.rs:40 | `contains` holds exactly when the pattern occurs at some index |
| PmaKeywords.ParseNodeType | src/read_pma/mod.rs:248-262 | `NodeType::from_str` is total: a keyword spelling gives its own variant, and every other text gives `Other` (iff) |
| PmaKeywords.ParseKeywordText | src/read_pma/mod.rs:248-262 | each of the seven keywords reads back as itself |
| PmaKeywords.ParseNav | src/read_pma/mod.rs:273-284 | `Nav::from_str` succeeds exactly on `NavPerna`, `NavReccelite`, `NavWaypoint` and `NavRota`, each giving its own variant |
| PmaKeywords.ParseNavText | src/read_pma/mod.rs:273-284 | each navigation type reads back as itself |
| PmaLines.IsNodeIff | src/read_pma/mod.rs:308-317 | a line is a keyword line iff it has no `=`, or it has a `-` before its first `=` |
| PmaLines.ValueAfterEqualsIsParameter | src/read_pma/mod.rs:308-317 | `key=value` with a key free of `=` and `-` is a parameter line, whatever the value holds |
| PmaLines.NegativeValueIsParameter | src/read_pma/mod.rs:308-317 | `Posicao.Lat = -29.7` is a parameter line |
| PmaLines.IndentationLevelSpec | src/read_pma/mod.rs:300-306 | the level is at most the line's length, and 0 for a line without tabs |
| PmaLines.IndentationOfTabs | src/read_pma/mod.rs:300-306 | `n` tabs before a tab-free text that does not end in whitespace give level `n` |
| PmaLines.InnerTabCounts | src/read_pma/mod.rs:300-306 | a tab after the first visible character also counts toward the level |
| PmaLines.SplitIntoTupleSpec | src/read_pma/mod.rs:193-200 | the key is the trimmed text before the first separator; the value is `None` iff the separator is absent, and otherwise the trimmed text between the first and second separator |
| PmaLines.SplitParameterLine | src/read_pma/mod.rs:193-200 | an indented `key = value` line with trimmed, `=`-free key and value splits into exactly that key and `Some(value)` |
| PmaData.Insert | src/read_pma/mod.rs:75-130 | a `HashMap` insert: the key holds the new value, the key set grows by the key, and every other entry is kept |
| PmaData.InsertTwice | src/read_pma/mod.rs:75-130 | inserting a key twice keeps only the second value |
| PmaData.IObjeto.UpdateLevel | src/read_pma/mod.rs:214-218 | only the object's level changes |
| PmaData.IObjeto.InsertCommon | src/read_pma/mod.rs:75-77 | the common data gains the key and nothing else changes |
| PmaData.IObjeto.InsertSpecific | src/read_pma/mod.rs:82-84 | the specific data gains the key and nothing else changes |
| PmaData.IObjeto.InsertGateIn | src/read_pma/mod.rs:89-102 | the entry gate gains the key and nothing else changes |
| PmaData.IObjeto.InsertGateOut | src/read_pma/mod.rs:107-130 | the exit gate gains the key and nothing else changes |
| PmaData.PMANode.AddParameter | src/read_pma/mod.rs:172-174 | the node's parameters gain the key and nothing else changes |
| PmaData.PMANode.UpdateName | src/read_pma/mod.rs:176-178 | the name becomes the trimmed text and nothing else changes |
| PmaData.PMANode.UpdateLevel | src/read_pma/mod.rs:180-182 | only the node's level changes |
| PmaData.PMANode.GetNodesByType | src/read_pma/mod.rs:184-190 | the whole node when its parameters hold the key (iff), and `None` otherwise |
| PmaData.UpdateNameIdempotent | src/read_pma/mod.rs:176-178 | setting the name again from the stored name changes nothing |
| PmaData.AddThenQuery | src/read_pma/mod.rs:172-190 | a query for a key just added to the node returns the node |
| PmaReader.ReadKeywordLine | src/read_pma/mod.rs:40-68 | the keyword branch of the loop body updates the four locals as `Keyword` specifies |
| PmaReader.ReadParameterLine | src/read_pma/mod.rs:69-147 | the parameter branch of the loop body updates the locals as `Parameter` specifies |
| PmaReader.PMAFile.constructor | src/read_pma/mod.rs:3-4 | a default file holds no nodes |
| PmaReader.PMAFile.PushNod | src/read_pma/mod.rs:155-157 | the node is appended and the earlier nodes are kept |
| PmaReader.PMAFile.Read | src/read_pma/mod.rs:7-153 | the loop appends exactly `Parse(lines)` to the nodes already held, leaving those unchanged |
| PmaReaderFacts.StepAppends | src/read_pma/mod.rs:31-35 | one line emits at most one node and never changes nodes already emitted |
| PmaReaderFacts.RunPrefix | src/read_pma/mod.rs:20-37 | the nodes emitted after a prefix of the lines are a prefix of those emitted after all of them, with at most one more per extra line |
| PmaReaderFacts.ParseAppends | src/read_pma/mod.rs:149-157 | one call appends at least one node (the final flush) and at most one per line plus one, with the nodes closed during the pass first |
| PmaReaderFacts.CloseChild | src/read_pma/mod.rs:27-32 | a child is appended to the node's children iff the pass is inside `Filhos`, the child has common data and the line is at or below its level; then a fresh child replaces it and no node is emitted |
| PmaReaderFacts.CloseNode | src/read_pma/mod.rs:33-37 | a node is emitted iff no child closes, the line is at or below the node's level and the node is named; the reader then has a default node, is outside `Filhos` and keeps the pending child |
| PmaReaderFacts.SiblingAfterChildStaysInside | src/read_pma/mod.rs:27-55 | an `IObjeto` header that closes a pending child is taken as the next child in the same `Filhos` block, and the node is not emitted |
| PmaReaderFacts.StepSons | src/read_pma/mod.rs:27-37 | children keep their order: a line either leaves them as they are or appends the pending child after them, and a node is emitted with its children before the next node starts with none |
| PmaReaderFacts.FilhosOnlyAtDepth | src/read_pma/mod.rs:56-60 | `Filhos` sets `inside_sons` only at one level below the node and changes only the bucket otherwise |
| PmaReaderFacts.IObjetoInsideSons | src/read_pma/mod.rs:46-48 | `IObjeto` inside `Filhos` changes only the child's level |
| PmaReaderFacts.HeaderNamesNode | src/read_pma/mod.rs:49-54 | `IObjeto` outside `Filhos`, and an unknown header, name the node after the trimmed line and set its level, keeping its data and children |
| PmaReaderFacts.SectionKeywordSelects | src/read_pma/mod.rs:44-67 | the section keywords only select the bucket |
| PmaReaderFacts.NilLineIsParameter | src/read_pma/mod.rs:40 | a line containing `Nil` is handled as a parameter line; without `=` its trimmed text is stored as a key with no value |
| PmaReaderFacts.BlankLineRenames | src/read_pma/mod.rs:61-66 | a blank line names the node `""` at level 0 and selects `Other` |
| PmaReaderFacts.RouteFollowsTable | src/read_pma/mod.rs:71-146 | a parameter goes to the child inside `Filhos` and to the node's data outside for the four data buckets, and to the node's parameters for `Other`; it overwrites its key there and leaves every other map, name, level, child list and flag unchanged; the other buckets drop the line |
| PmaReaderFacts.RouteKeepsSlot | src/read_pma/mod.rs:71-146 | a parameter leaves every map other than its target unchanged |
| PmaReaderFacts.GateOutAutoClose | src/read_pma/mod.rs:105-142 | after an exit-gate parameter, the bucket becomes `DadosEspecificos` iff that gate now holds `StringConfiguracao` |
| PmaReaderFacts.LastWriteWins | src/read_pma/mod.rs:71-146 | two parameters with the same key in the same bucket leave only the second value |
| PmaReaderFacts.StepSound | src/read_pma/mod.rs:27-147 | every line keeps the invariant: emitted nodes are named, and every child of the emitted nodes and of the current node has common data |
| PmaReaderFacts.RunSound | src/read_pma/mod.rs:20-148 | the invariant holds after any lines |
| PmaReaderFacts.ParseShape | src/read_pma/mod.rs:149-152 | in the output of `read`, every child has common data, and every node except the final, unconditionally flushed one is named |
| PmaFixture.FixtureReads | src/read_pma/mod.rs:324-432 | a line sequence matching the test document parses to the expected route with its data, gates and one waypoint child at level 2 |
| PmaFixture.FixtureReadsAsOneRoute | src/read_pma/mod.rs:322-432 | the test document parses to exactly the one node the test expects |

## Left out

- `read_file` (src/read_pma/mod.rs:286-298) is left out. It opens a file and decodes Windows-1252 through an external crate, which is I/O and foreign code.
- `str::lines()` (src/read_pma/mod.rs:20) is left out: `read` takes its input as a sequence of lines.
- src/main.rs is not part of this model. It is XML deserialisation through external crates, with records of floating-point fields, and a `main` that prints.
- The `Rota` struct (src/read_pma/mod.rs:203) is never used by the reader and is not modelled. `Nav` is modelled with its lookup, but the reader does not use it.
- The `Debug`, `Clone`, `Default` and `PartialEq` derives are not modelled as such:
  - the defaults are the constants `DefaultObject` and `DefaultNode`;
  - equality is datatype equality;
  - `HashMap` iteration order never matters, because the maps are Dafny `map`s.
- PmaData.PMANode.AddParameter, PmaData.PMANode.UpdateName, PmaData.PMANode.UpdateLevel and PmaData.IObjeto.UpdateLevel return the updated record instead of mutating it in place. The source only ever mutates records it owns, so no other reference can observe the difference.
- `usize` widths are not modelled. Levels and counts are unbounded `nat`s, and no level in the source comes near overflow, since a level never exceeds the line's length.
- StrOps.IsWhitespace lists the Unicode `White_Space` characters that `char::is_whitespace` accepts. Strings are sequences of `char`, without UTF-8 byte offsets.
