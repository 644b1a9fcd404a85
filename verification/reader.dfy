/**
 * `PMAFile::read`: one forward pass over the lines of a PMA file.
 *
 * The pass keeps four pieces of state besides the output: the node being
 * built, the child object being built, whether the pass is inside a
 * `Filhos` block, and the bucket (`current_working_place`) that parameter
 * lines go to.  Each line first goes through the indentation-driven close
 * rule and is then handled as a keyword line or as a parameter line; after
 * the last line the pending child and node are flushed.
 *
 * `Step`, `Run` and `Parse` state this as functions; `PMAFile.Read` is the
 * loop itself, proved to compute `Parse`.
 */
module PmaReader {
  import opened Wrappers
  import opened StrOps
  import opened PmaKeywords
  import opened PmaLines
  import opened PmaData

  /** The four locals of `read`: the node and child being built, the `Filhos` flag and the current bucket. */
  datatype Cursor = Cursor(node: PMANode, child: IObjeto, insideSons: bool, place: NodeType)

  /** The reader's state between two lines: its cursor, and the nodes emitted so far. */
  datatype ReadState = ReadState(cur: Cursor, out: seq<PMANode>)

  /** The cursor before the first line. */
  const StartCursor: Cursor := Cursor(DefaultNode, DefaultObject, false, NodeType.Other)

  /** The state before the first line. */
  const Start: ReadState := ReadState(StartCursor, [])

  /** The gate parameter whose arrival ends an exit-gate section. */
  const GateOutLast: string := "StringConfiguracao"

  /** Whether a child object is pending: it has common data. */
  predicate HasData(o: IObjeto) {
    o.commonData != map[]
  }

  /**
   * The close rule, applied before a line at `level` is handled: a pending
   * child at or below that level is appended to the node's children; failing
   * that, a named node at or below that level is emitted and replaced by a
   * fresh one, which also leaves the `Filhos` block.
   */
  function Close(s: ReadState, level: nat): ReadState {
    var c := s.cur;
    if level <= c.child.level && HasData(c.child) && c.insideSons then
      ReadState(c.(node := c.node.(sons := c.node.sons + [c.child]), child := DefaultObject), s.out)
    else if level <= c.node.level && c.node.name != "" then
      ReadState(c.(node := DefaultNode, insideSons := false), s.out + [c.node])
    else
      s
  }

  /**
   * The keyword a keyword line starts with: the first `-`-separated piece of
   * the trimmed line (`Split(Trim(line), '-')[0]`, which is `Before`), trimmed.
   */
  function HeaderKeyword(line: string): NodeType {
    ParseNodeType(Trim(Before(Trim(line), '-')))
  }

  /** Whether a line is handled as a keyword line; a line mentioning `Nil` never is. */
  predicate IsKeywordLine(line: string) {
    IsNode(line) && !Contains(line, "Nil")
  }

  /** A keyword line at `level`: select the bucket, and act on `IObjeto`, `Filhos` and unknown headers. */
  function Keyword(c: Cursor, line: string, level: nat): Cursor {
    var place := HeaderKeyword(line);
    var t := c.(place := place);
    match place
    case IObjeto =>
      if c.insideSons then t.(child := c.child.UpdateLevel(level))
      else t.(node := c.node.UpdateName(line).UpdateLevel(level))
    case Filhos =>
      if level == c.node.level + 1 then t.(insideSons := true) else t
    case Other =>
      t.(node := c.node.UpdateName(line).UpdateLevel(level))
    case _ => t
  }

  /** A parameter line: its key and value go to the current bucket. */
  function Parameter(c: Cursor, line: string): Cursor {
    var kv := SplitIntoTuple(line, '=');
    Route(c, kv.0, kv.1)
  }

  /** Where a parameter goes for each bucket, inside or outside a `Filhos` block. */
  function Route(c: Cursor, k: string, v: Option<string>): Cursor {
    match c.place
    case DadosComuns =>
      if c.insideSons then c.(child := c.child.InsertCommon(k, v))
      else c.(node := c.node.(objectData := c.node.objectData.InsertCommon(k, v)))
    case DadosEspecificos =>
      if c.insideSons then c.(child := c.child.InsertSpecific(k, v))
      else c.(node := c.node.(objectData := c.node.objectData.InsertSpecific(k, v)))
    case GateIn =>
      if c.insideSons then c.(child := c.child.InsertGateIn(k, v))
      else c.(node := c.node.(objectData := c.node.objectData.InsertGateIn(k, v)))
    case GateOut =>
      if c.insideSons then
        var o := c.child.InsertGateOut(k, v);
        c.(child := o, place := if GateOutLast in o.specificData.1.gateOut.parameters then DadosEspecificos else GateOut)
      else
        var o := c.node.objectData.InsertGateOut(k, v);
        c.(node := c.node.(objectData := o),
           place := if GateOutLast in o.specificData.1.gateOut.parameters then DadosEspecificos else GateOut)
    case Other => c.(node := c.node.AddParameter(k, v))
    case _ => c
  }

  /** One line: the close rule, then the line as a keyword line or a parameter line. */
  function Step(s: ReadState, line: string): ReadState {
    var level := IndentationLevel(line);
    var t := Close(s, level);
    var c := if IsKeywordLine(line) then Keyword(t.cur, line, level) else Parameter(t.cur, line);
    ReadState(c, t.out)
  }

  /** The state after the given lines, starting from `Start`. */
  function Run(lines: seq<string>): ReadState {
    if lines == [] then Start else Step(Run(lines[..|lines| - 1]), lines[|lines| - 1])
  }

  /** The end of input: a pending child joins the node, and the node is emitted whatever its name. */
  function Flush(s: ReadState): seq<PMANode> {
    var c := s.cur;
    var node := if HasData(c.child) then c.node.(sons := c.node.sons + [c.child]) else c.node;
    s.out + [node]
  }

  /** The nodes one call of `read` appends for the given lines. */
  function Parse(lines: seq<string>): seq<PMANode> {
    Flush(Run(lines))
  }

  /** Lines 40-68 of `read`: a keyword line at `level` updates the four locals as `Keyword` says. */
  method ReadKeywordLine(node: PMANode, child: IObjeto, insideSons: bool, place: NodeType, line: string, level: nat)
    returns (node': PMANode, child': IObjeto, insideSons': bool, place': NodeType)
    ensures Cursor(node', child', insideSons', place') == Keyword(Cursor(node, child, insideSons, place), line, level)
  {
    node', child', insideSons' := node, child, insideSons;
    place' := ParseNodeType(Trim(Before(Trim(line), '-')));
    match place' {
      case IObjeto =>
        if insideSons' {
          child' := child'.UpdateLevel(level);
        } else {
          node' := node'.UpdateName(line);
          node' := node'.UpdateLevel(level);
        }
      case Filhos =>
        if level == node'.level + 1 {
          insideSons' := true;
        }
      case Other =>
        node' := node'.UpdateName(line);
        node' := node'.UpdateLevel(level);
      case _ =>
    }
  }

  /** Lines 69-147 of `read`: a parameter line updates the four locals as `Parameter` says. */
  method ReadParameterLine(node: PMANode, child: IObjeto, insideSons: bool, place: NodeType, line: string)
    returns (node': PMANode, child': IObjeto, place': NodeType)
    ensures Cursor(node', child', insideSons, place') == Parameter(Cursor(node, child, insideSons, place), line)
  {
    node', child', place' := node, child, place;
    var (k, v) := SplitIntoTuple(line, '=');
    match place {
      case DadosComuns =>
        if insideSons {
          child' := child'.(commonData := child'.commonData[k := v]);
        } else {
          var o := node'.objectData;
          node' := node'.(objectData := o.(commonData := o.commonData[k := v]));
        }
      case DadosEspecificos =>
        if insideSons {
          var sd := child'.specificData;
          child' := child'.(specificData := (sd.0[k := v], sd.1));
        } else {
          var sd := node'.objectData.specificData;
          node' := node'.(objectData := node'.objectData.(specificData := (sd.0[k := v], sd.1)));
        }
      case GateIn =>
        if insideSons {
          var sd := child'.specificData;
          child' := child'.(specificData := (sd.0, sd.1.(gateIn := Gate(sd.1.gateIn.parameters[k := v]))));
        } else {
          var sd := node'.objectData.specificData;
          node' := node'.(objectData := node'.objectData.(specificData := (sd.0, sd.1.(gateIn := Gate(sd.1.gateIn.parameters[k := v])))));
        }
      case GateOut =>
        if insideSons {
          var sd := child'.specificData;
          child' := child'.(specificData := (sd.0, sd.1.(gateOut := Gate(sd.1.gateOut.parameters[k := v]))));
          if "StringConfiguracao" in child'.specificData.1.gateOut.parameters {
            place' := DadosEspecificos;
          }
        } else {
          var sd := node'.objectData.specificData;
          node' := node'.(objectData := node'.objectData.(specificData := (sd.0, sd.1.(gateOut := Gate(sd.1.gateOut.parameters[k := v])))));
          if "StringConfiguracao" in node'.objectData.specificData.1.gateOut.parameters {
            place' := DadosEspecificos;
          }
        }
      case Other =>
        node' := node'.AddParameter(k, v);
      case _ =>
    }
  }

  /** `PMAFile`: the nodes read so far. */
  class PMAFile {
    var nodes: seq<PMANode>

    /** `PMAFile::default()`. */
    constructor ()
      ensures nodes == []
    {
      nodes := [];
    }

    /** `PMAFile::push_nod`: append one node. */
    method PushNod(node: PMANode)
      modifies this
      ensures nodes == old(nodes) + [node]
    {
      nodes := nodes + [node];
    }

    /** `PMAFile::read`: appends the nodes of the given lines to those already read. */
    method Read(lines: seq<string>)
      modifies this
      ensures nodes == old(nodes) + Parse(lines)
    {
      var currentNode := DefaultNode;
      var currentChild := DefaultObject;
      var insideSons := false;
      var currentWorkingPlace := NodeType.Other;
      ghost var emitted: seq<PMANode> := [];

      for i := 0 to |lines|
        invariant nodes == old(nodes) + emitted
        invariant Run(lines[..i]) == ReadState(Cursor(currentNode, currentChild, insideSons, currentWorkingPlace), emitted)
      {
        assert lines[..i + 1][..i] == lines[..i];
        var line := lines[i];
        var isNode := IsNode(line);
        var actualLevel := IndentationLevel(line);

        if actualLevel <= currentChild.level && currentChild.commonData != map[] && insideSons {
          currentNode := currentNode.(sons := currentNode.sons + [currentChild]);
          currentChild := DefaultObject;
        } else if actualLevel <= currentNode.level && currentNode.name != "" {
          PushNod(currentNode);
          emitted := emitted + [currentNode];
          currentNode := DefaultNode;
          insideSons := false;
        }

        if isNode && !Contains(line, "Nil") {
          currentNode, currentChild, insideSons, currentWorkingPlace :=
            ReadKeywordLine(currentNode, currentChild, insideSons, currentWorkingPlace, line, actualLevel);
        } else {
          currentNode, currentChild, currentWorkingPlace :=
            ReadParameterLine(currentNode, currentChild, insideSons, currentWorkingPlace, line);
        }
      }
      assert lines[..|lines|] == lines;

      if currentChild.commonData != map[] {
        currentNode := currentNode.(sons := currentNode.sons + [currentChild]);
      }
      PushNod(currentNode);
    }
  }
}
