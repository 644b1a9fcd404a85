/**
 * Properties of the PMA reader: the output only grows, the close rule, what
 * keyword lines do, where parameter lines go, and the invariants every
 * emitted node satisfies.
 */
module PmaReaderFacts {
  import opened Wrappers
  import opened StrOps
  import opened PmaKeywords
  import opened PmaLines
  import opened PmaData
  import opened PmaReader

  // ---------------------------------------------------------------------------
  // Append-only output
  // ---------------------------------------------------------------------------

  /** One line emits at most one node, and never drops or changes one already emitted. */
  lemma StepAppends(s: ReadState, line: string)
    ensures s.out <= Step(s, line).out
    ensures |Step(s, line).out| <= |s.out| + 1
  {
  }

  /** The nodes emitted after a prefix of the lines are a prefix of those emitted after all of them. */
  lemma {:induction false} RunPrefix(lines: seq<string>, i: nat)
    requires i <= |lines|
    ensures Run(lines[..i]).out <= Run(lines).out
    ensures |Run(lines).out| <= |Run(lines[..i]).out| + (|lines| - i)
    decreases |lines|
  {
    if i == |lines| {
      assert lines[..i] == lines;
    } else {
      var init := lines[..|lines| - 1];
      assert init[..i] == lines[..i];
      RunPrefix(init, i);
      StepAppends(Run(init), lines[|lines| - 1]);
    }
  }

  /**
   * One call of `read` appends at least one node (the final flush always
   * emits) and at most one per line plus one; the nodes closed during the
   * pass come first, unchanged.
   */
  lemma ParseAppends(lines: seq<string>)
    ensures 1 <= |Parse(lines)| <= |lines| + 1
    ensures Run(lines).out <= Parse(lines)
  {
    RunPrefix(lines, 0);
    assert lines[..0] == [];
  }

  // ---------------------------------------------------------------------------
  // The close rule
  // ---------------------------------------------------------------------------

  /**
   * A child is appended to the node's children only inside a `Filhos` block,
   * only with common data and only for a line at or below its level; on that
   * line no node is emitted, and the fresh child replaces it.
   */
  lemma CloseChild(s: ReadState, level: nat)
    ensures Close(s, level).cur.node.sons != s.cur.node.sons && Close(s, level).out == s.out
      <== level <= s.cur.child.level && HasData(s.cur.child) && s.cur.insideSons
    ensures |Close(s, level).cur.node.sons| == |s.cur.node.sons| + 1
      <==> level <= s.cur.child.level && HasData(s.cur.child) && s.cur.insideSons
    ensures |Close(s, level).cur.node.sons| == |s.cur.node.sons| + 1 ==>
      Close(s, level).cur.node.sons == s.cur.node.sons + [s.cur.child] && Close(s, level).cur.child == DefaultObject
  {
    var c := s.cur;
    if !(level <= c.child.level && HasData(c.child) && c.insideSons) && level <= c.node.level && c.node.name != "" {
      assert Close(s, level).cur.node.sons == [];
    }
  }

  /**
   * A node is emitted exactly when no child is closed, the line is at or
   * below the node's level and the node has a name; the reader then starts
   * a fresh node outside any `Filhos` block, keeping the pending child.
   */
  lemma CloseNode(s: ReadState, level: nat)
    ensures |Close(s, level).out| == |s.out| + 1 <==>
      !(level <= s.cur.child.level && HasData(s.cur.child) && s.cur.insideSons)
      && level <= s.cur.node.level && s.cur.node.name != ""
    ensures |Close(s, level).out| == |s.out| + 1 ==>
      Close(s, level).out == s.out + [s.cur.node] && Close(s, level).cur.node == DefaultNode
      && !Close(s, level).cur.insideSons && Close(s, level).cur.child == s.cur.child
    ensures |Close(s, level).out| != |s.out| + 1 ==> Close(s, level).out == s.out
  {
  }

  /**
   * A header at the level of the current node that follows a pending child
   * only closes the child: the node is not emitted on that line, and an
   * `IObjeto` header is taken as the next child's header, inside the same
   * `Filhos` block, rather than as a sibling node.
   */
  lemma SiblingAfterChildStaysInside(s: ReadState, line: string)
    requires s.cur.insideSons && HasData(s.cur.child)
    requires IndentationLevel(line) <= s.cur.child.level
    requires IsKeywordLine(line) && HeaderKeyword(line) == NodeType.IObjeto
    ensures Step(s, line).out == s.out
    ensures Step(s, line).cur.insideSons
    ensures Step(s, line).cur.node.name == s.cur.node.name
    ensures Step(s, line).cur.node.sons == s.cur.node.sons + [s.cur.child]
    ensures Step(s, line).cur.child.level == IndentationLevel(line) && !HasData(Step(s, line).cur.child)
  {
  }

  /**
   * Children keep their order: a line that emits no node either leaves the
   * node's children as they were or appends the pending child after them,
   * and a line that emits the node starts the next one with no children.
   */
  lemma StepSons(s: ReadState, line: string)
    ensures |Step(s, line).out| == |s.out| ==>
      Step(s, line).cur.node.sons == s.cur.node.sons || Step(s, line).cur.node.sons == s.cur.node.sons + [s.cur.child]
    ensures |Step(s, line).out| == |s.out| + 1 ==> Step(s, line).cur.node.sons == []
  {
    var t := Close(s, IndentationLevel(line));
    if IsKeywordLine(line) {
      assert Keyword(t.cur, line, IndentationLevel(line)).node.sons == t.cur.node.sons;
    } else {
      var kv := SplitIntoTuple(line, '=');
      RouteFollowsTable(t.cur, kv.0, kv.1);
    }
  }

  // ---------------------------------------------------------------------------
  // Keyword lines
  // ---------------------------------------------------------------------------

  /**
   * `Filhos` opens a children block only at one level below the node, and
   * otherwise changes nothing but the bucket: no child is created.
   */
  lemma FilhosOnlyAtDepth(c: Cursor, line: string, level: nat)
    requires HeaderKeyword(line) == NodeType.Filhos
    ensures Keyword(c, line, level).insideSons == (c.insideSons || level == c.node.level + 1)
    ensures Keyword(c, line, level).node == c.node && Keyword(c, line, level).child == c.child
    ensures Keyword(c, line, level).place == NodeType.Filhos
  {
  }

  /** `IObjeto` inside a children block only sets the child's level. */
  lemma IObjetoInsideSons(c: Cursor, line: string, level: nat)
    requires HeaderKeyword(line) == NodeType.IObjeto && c.insideSons
    ensures Keyword(c, line, level).child.level == level
    ensures Keyword(c, line, level).child.commonData == c.child.commonData
    ensures Keyword(c, line, level).child.specificData == c.child.specificData
    ensures Keyword(c, line, level).node == c.node && Keyword(c, line, level).insideSons
  {
  }

  /**
   * `IObjeto` outside a children block, and any unknown header, name the node
   * after the trimmed line and set its level; its data and children are kept.
   */
  lemma HeaderNamesNode(c: Cursor, line: string, level: nat)
    requires (HeaderKeyword(line) == NodeType.IObjeto && !c.insideSons) || HeaderKeyword(line) == NodeType.Other
    ensures Keyword(c, line, level).node.name == Trim(line)
    ensures Keyword(c, line, level).node.level == level
    ensures Keyword(c, line, level).node.parameters == c.node.parameters
    ensures Keyword(c, line, level).node.objectData == c.node.objectData
    ensures Keyword(c, line, level).node.sons == c.node.sons
    ensures Keyword(c, line, level).child == c.child && Keyword(c, line, level).insideSons == c.insideSons
  {
  }

  /** The section keywords only select the bucket. */
  lemma SectionKeywordSelects(c: Cursor, line: string, level: nat)
    requires HeaderKeyword(line) in {NodeType.IObjetoNav, NodeType.GateIn, NodeType.GateOut,
                                     NodeType.DadosComuns, NodeType.DadosEspecificos}
    ensures Keyword(c, line, level) == c.(place := HeaderKeyword(line))
  {
  }

  /**
   * A line mentioning `Nil` is never a keyword line: it goes to the current
   * bucket as a parameter, and without `=` its whole trimmed text is stored
   * as a key with no value.
   */
  lemma NilLineIsParameter(s: ReadState, line: string)
    requires Contains(line, "Nil")
    ensures Step(s, line) ==
      ReadState(Parameter(Close(s, IndentationLevel(line)).cur, line), Close(s, IndentationLevel(line)).out)
    ensures '=' !in line ==>
      Step(s, line).cur == Route(Close(s, IndentationLevel(line)).cur, Trim(line), None)
  {
    if '=' !in line {
      SplitIntoTupleSpec(line, '=');
      BeforeSpec(line, '=');
      assert Before(line, '=') == line;
    }
  }

  /**
   * A blank line is a keyword line for an unknown header: it names the node
   * `""` at level 0, after the close rule has run for level 0.
   */
  lemma BlankLineRenames(s: ReadState)
    ensures Step(s, "").cur.node.name == ""
    ensures Step(s, "").cur.node.level == 0
    ensures Step(s, "").cur.place == NodeType.Other
    ensures Step(s, "").out == Close(s, 0).out
  {
    IndentationLevelSpec("");
    ContainsSpec("", "Nil");
    assert IsNode("");
    assert Trim("") == "";
    BeforeSpec("", '-');
    assert HeaderKeyword("") == NodeType.Other;
  }

  // ---------------------------------------------------------------------------
  // Parameter lines
  // ---------------------------------------------------------------------------

  /** The maps a parameter can be stored in. */
  datatype Slot = NodeParameters | Common(inChild: bool) | Specific(inChild: bool) | EntryGate(inChild: bool) | ExitGate(inChild: bool)

  /** The object a slot refers to: the pending child or the node's own data. */
  function ObjectOf(c: Cursor, inChild: bool): IObjeto {
    if inChild then c.child else c.node.objectData
  }

  /** The map behind a slot. */
  function MapAt(c: Cursor, slot: Slot): Param {
    match slot
    case NodeParameters => c.node.parameters
    case Common(ch) => ObjectOf(c, ch).commonData
    case Specific(ch) => ObjectOf(c, ch).specificData.0
    case EntryGate(ch) => ObjectOf(c, ch).specificData.1.gateIn.parameters
    case ExitGate(ch) => ObjectOf(c, ch).specificData.1.gateOut.parameters
  }

  /**
   * The routing table: the four data buckets go to the child inside a
   * children block and to the node's own data outside; `Other` always goes
   * to the node's parameters; the remaining buckets drop the line.
   */
  function Target(place: NodeType, insideSons: bool): Option<Slot> {
    match place
    case DadosComuns => Some(Common(insideSons))
    case DadosEspecificos => Some(Specific(insideSons))
    case GateIn => Some(EntryGate(insideSons))
    case GateOut => Some(ExitGate(insideSons))
    case Other => Some(NodeParameters)
    case _ => None
  }

  /**
   * `Route` follows the routing table: the target map gains the key, with
   * the new value overwriting any old one, every other map is unchanged, and
   * so are the names, levels, children and the `Filhos` flag; a dropped
   * line changes nothing at all.
   */
  lemma RouteFollowsTable(c: Cursor, k: string, v: Option<string>)
    ensures Target(c.place, c.insideSons).Some? ==>
      MapAt(Route(c, k, v), Target(c.place, c.insideSons).value) == MapAt(c, Target(c.place, c.insideSons).value)[k := v]
    ensures forall slot :: Target(c.place, c.insideSons) != Some(slot) ==> MapAt(Route(c, k, v), slot) == MapAt(c, slot)
    ensures Route(c, k, v).node.name == c.node.name && Route(c, k, v).node.level == c.node.level
    ensures Route(c, k, v).node.sons == c.node.sons && Route(c, k, v).child.level == c.child.level
    ensures Route(c, k, v).insideSons == c.insideSons
    ensures c.place != NodeType.GateOut ==> Route(c, k, v).place == c.place
    ensures Target(c.place, c.insideSons).None? ==> Route(c, k, v) == c
  {
    forall slot | Target(c.place, c.insideSons) != Some(slot) ensures MapAt(Route(c, k, v), slot) == MapAt(c, slot) {
      RouteKeepsSlot(c, k, v, slot);
    }
  }

  /** A parameter leaves every map other than its target unchanged. */
  lemma RouteKeepsSlot(c: Cursor, k: string, v: Option<string>, slot: Slot)
    requires Target(c.place, c.insideSons) != Some(slot)
    ensures MapAt(Route(c, k, v), slot) == MapAt(c, slot)
  {
    match slot
    case NodeParameters =>
    case Common(ch) =>
    case Specific(ch) =>
    case EntryGate(ch) =>
    case ExitGate(ch) =>
  }

  /**
   * After an exit-gate parameter the bucket becomes `DadosEspecificos`
   * exactly when that gate now has `StringConfiguracao`: because it was just
   * stored, or because it was already there.
   */
  lemma GateOutAutoClose(c: Cursor, k: string, v: Option<string>)
    requires c.place == NodeType.GateOut
    ensures Route(c, k, v).place ==
      (if k == GateOutLast || GateOutLast in MapAt(c, ExitGate(c.insideSons)) then NodeType.DadosEspecificos else NodeType.GateOut)
  {
  }

  /** Storing the same key twice in the same bucket keeps only the second value. */
  lemma LastWriteWins(c: Cursor, k: string, v1: Option<string>, v2: Option<string>)
    requires Route(c, k, v1).place == c.place
    ensures Route(Route(c, k, v1), k, v2) == Route(c, k, v2)
  {
    var o := ObjectOf(c, c.insideSons);
    match c.place
    case DadosComuns => InsertTwice(o.commonData, k, v1, v2);
    case DadosEspecificos => InsertTwice(o.specificData.0, k, v1, v2);
    case GateIn => InsertTwice(o.specificData.1.gateIn.parameters, k, v1, v2);
    case GateOut => InsertTwice(o.specificData.1.gateOut.parameters, k, v1, v2);
    case Other => InsertTwice(c.node.parameters, k, v1, v2);
    case _ =>
  }

  // ---------------------------------------------------------------------------
  // What every emitted node satisfies
  // ---------------------------------------------------------------------------

  /** Every child of a node has common data. */
  predicate SonsHaveData(n: PMANode) {
    forall j :: 0 <= j < |n.sons| ==> HasData(n.sons[j])
  }

  /** Emitted nodes are named and, like the node being built, have only children with data. */
  predicate Sound(s: ReadState) {
    (forall i :: 0 <= i < |s.out| ==> s.out[i].name != "" && SonsHaveData(s.out[i]))
    && SonsHaveData(s.cur.node)
  }

  /** Every line keeps the reader sound. */
  lemma StepSound(s: ReadState, line: string)
    requires Sound(s)
    ensures Sound(Step(s, line))
  {
    var level := IndentationLevel(line);
    var t := Close(s, level);
    assert Sound(t) by {
      if level <= s.cur.child.level && HasData(s.cur.child) && s.cur.insideSons {
        var sons := s.cur.node.sons + [s.cur.child];
        assert forall j :: 0 <= j < |sons| ==> HasData(sons[j]) by {
          forall j | 0 <= j < |sons| ensures HasData(sons[j]) {
            if j < |s.cur.node.sons| {
              assert sons[j] == s.cur.node.sons[j];
            }
          }
        }
      }
    }
    if IsKeywordLine(line) {
      assert Keyword(t.cur, line, level).node.sons == t.cur.node.sons;
    } else {
      var kv := SplitIntoTuple(line, '=');
      RouteFollowsTable(t.cur, kv.0, kv.1);
    }
  }

  /** The reader is sound after any lines. */
  lemma {:induction false} RunSound(lines: seq<string>)
    ensures Sound(Run(lines))
  {
    if lines != [] {
      RunSound(lines[..|lines| - 1]);
      StepSound(Run(lines[..|lines| - 1]), lines[|lines| - 1]);
    }
  }

  /**
   * In the output of one call of `read`, every child of every node has
   * common data, and every node but the last, which the final flush emits
   * unconditionally, has a name.
   */
  lemma ParseShape(lines: seq<string>)
    ensures forall i :: 0 <= i < |Parse(lines)| - 1 ==> Parse(lines)[i].name != ""
    ensures forall i :: 0 <= i < |Parse(lines)| ==> SonsHaveData(Parse(lines)[i])
  {
    var s := Run(lines);
    RunSound(lines);
    var last := Flush(s)[|s.out|];
    assert SonsHaveData(last) by {
      if HasData(s.cur.child) {
        var sons := s.cur.node.sons + [s.cur.child];
        forall j | 0 <= j < |sons| ensures HasData(sons[j]) {
          if j < |s.cur.node.sons| {
            assert sons[j] == s.cur.node.sons[j];
          }
        }
      }
    }
    forall i | 0 <= i < |Parse(lines)| ensures SonsHaveData(Parse(lines)[i]) {
      if i < |s.out| {
        assert Parse(lines)[i] == s.out[i];
      }
    }
  }
}
