/**
 * The reader's own test document: a route `Rota 2` with its data and
 * gates, and one child waypoint `SM11` in its `Filhos` block.  The document
 * reads as exactly one node whose one child is the waypoint.
 *
 * The lines are written as indentation plus text: `HeaderLine(n, text)` is
 * `n` tabs followed by `text`, and `ParamLine(n, k, v)` is `n` tabs followed
 * by `k = v`.
 */
module PmaFixture {
  import opened Wrappers
  import opened StrOps
  import opened PmaKeywords
  import opened PmaLines
  import opened PmaData
  import opened PmaReader

  // ---------------------------------------------------------------------------
  // Line shapes
  // ---------------------------------------------------------------------------

  /** `n` tabs, then a header text. */
  function HeaderLine(n: nat, text: string): string {
    Tabs(n) + text
  }

  /** `n` tabs, then `key = value`. */
  function ParamLine(n: nat, key: string, value: string): string {
    Tabs(n) + key + " = " + value
  }

  /** A non-empty text that neither starts nor ends with whitespace. */
  predicate Trimmed(s: string) {
    s != [] && !IsWhitespace(s[0]) && !IsWhitespace(s[|s| - 1])
  }

  /** Text that can follow the indentation of a header line without changing how it reads. */
  predicate HeaderText(s: string) {
    Trimmed(s) && '=' !in s && '\t' !in s && ('N' !in s || 'i' !in s)
  }

  /** A key that a parameter line can carry: trimmed, and without `=`, `-` or tabs. */
  predicate ParamKey(key: string) {
    Trimmed(key) && '=' !in key && '-' !in key && '\t' !in key
  }

  /** A value that a parameter line can carry: trimmed, and without `=` or tabs. */
  predicate ParamValue(value: string) {
    Trimmed(value) && '=' !in value && '\t' !in value
  }

  /** The reader does not close anything before a line at `level`. */
  predicate NoClose(s: ReadState, level: nat) {
    !(level <= s.cur.child.level && HasData(s.cur.child) && s.cur.insideSons)
    && !(level <= s.cur.node.level && s.cur.node.name != "")
  }

  /** Indentation is whitespace, and holds none of `=`, `-`, `N` and `i`. */
  lemma TabsPlain(n: nat)
    ensures AllWhitespace(Tabs(n))
    ensures '=' !in Tabs(n) && '-' !in Tabs(n) && 'N' !in Tabs(n) && 'i' !in Tabs(n)
  {
  }

  /** A text without `N`, or without `i`, does not mention `Nil`. */
  lemma NoNil(s: string)
    requires 'N' !in s || 'i' !in s
    ensures !Contains(s, "Nil")
  {
    ContainsSpec(s, "Nil");
    forall i | 0 <= i <= |s| - 3 ensures !OccursAt(s, "Nil", i) {
      assert s[i..i + 3][0] == s[i] && s[i..i + 3][1] == s[i + 1];
    }
  }

  /** The text before the first `c` of `a + [c] + b` is `a` when `a` has no `c`. */
  lemma BeforeFirst(a: string, c: char, b: string)
    requires c !in a
    ensures Before(a + [c] + b, c) == a
  {
    var s := a + [c] + b;
    BeforeSpec(s, c);
    var r := Before(s, c);
    assert s[|a|] == c;
    assert r == s[..|r|];
    assert s[..|a|] == a;
  }

  /** A text without `c` is all before `c`. */
  lemma BeforeAbsent(s: string, c: char)
    requires c !in s
    ensures Before(s, c) == s
  {
    BeforeSpec(s, c);
  }

  /** A header line is a keyword line at its indentation, and reads as its whole text. */
  lemma HeaderLineReads(n: nat, text: string)
    requires HeaderText(text)
    ensures IndentationLevel(HeaderLine(n, text)) == n
    ensures IsKeywordLine(HeaderLine(n, text))
    ensures Trim(HeaderLine(n, text)) == text
  {
    var line := HeaderLine(n, text);
    TabsPlain(n);
    IndentationOfTabs(n, text);
    IsNodeIff(line);
    NoNil(line);
    TrimAround(Tabs(n), text, []);
    assert Tabs(n) + text + [] == line;
  }

  /** A bare keyword line selects that keyword. */
  lemma BareHeader(n: nat, kw: string)
    requires HeaderText(kw) && '-' !in kw
    ensures IndentationLevel(HeaderLine(n, kw)) == n
    ensures IsKeywordLine(HeaderLine(n, kw))
    ensures Trim(HeaderLine(n, kw)) == kw
    ensures HeaderKeyword(HeaderLine(n, kw)) == ParseNodeType(kw)
  {
    HeaderLineReads(n, kw);
    BeforeAbsent(kw, '-');
    TrimAround([], kw, []);
    assert [] + kw + [] == kw;
  }

  /** The keyword of a header `kw - title` is `kw`: the text before the hyphen, trimmed. */
  lemma TitleKeyword(kw: string, title: string)
    requires Trimmed(kw) && '-' !in kw
    ensures Trim(Before(kw + " - " + title, '-')) == kw
  {
    assert kw + " - " + title == (kw + " ") + ['-'] + (" " + title);
    BeforeFirst(kw + " ", '-', " " + title);
    assert AllWhitespace(" ");
    TrimAround([], kw, " ");
    assert [] + kw + " " == kw + " ";
  }

  /** A header `kw - title` selects `kw`, and names a node after the whole text. */
  lemma TitledHeader(n: nat, kw: string, title: string)
    requires Trimmed(kw) && '-' !in kw && HeaderText(kw + " - " + title)
    ensures IndentationLevel(HeaderLine(n, kw + " - " + title)) == n
    ensures IsKeywordLine(HeaderLine(n, kw + " - " + title))
    ensures Trim(HeaderLine(n, kw + " - " + title)) == kw + " - " + title
    ensures HeaderKeyword(HeaderLine(n, kw + " - " + title)) == ParseNodeType(kw)
  {
    var text := kw + " - " + title;
    HeaderLineReads(n, text);
    TitleKeyword(kw, title);
  }

  /** A parameter line is not a keyword line and splits into its key and value. */
  lemma ParamLineReads(n: nat, key: string, value: string)
    requires ParamKey(key) && ParamValue(value)
    ensures IndentationLevel(ParamLine(n, key, value)) == n
    ensures !IsKeywordLine(ParamLine(n, key, value))
    ensures SplitIntoTuple(ParamLine(n, key, value), '=') == (key, Some(value))
  {
    var line := ParamLine(n, key, value);
    TabsPlain(n);
    assert line == Tabs(n) + (key + " = " + value);
    IndentationOfTabs(n, key + " = " + value);
    assert line == (Tabs(n) + key + " ") + "=" + (" " + value);
    ValueAfterEqualsIsParameter(Tabs(n) + key + " ", " " + value);
    SplitParameterLine(Tabs(n), key, value);
  }

  /**
   * Reading a bare section keyword when nothing closes: only the bucket
   * changes.
   */
  lemma SectionStep(s: ReadState, n: nat, t: NodeType, kw: string)
    requires t in {NodeType.IObjetoNav, NodeType.GateIn, NodeType.GateOut, NodeType.DadosComuns, NodeType.DadosEspecificos}
    requires kw == KeywordText(t) && HeaderText(kw) && '-' !in kw && NoClose(s, n)
    ensures Step(s, HeaderLine(n, kw)) == ReadState(s.cur.(place := t), s.out)
  {
    BareHeader(n, kw);
    ParseKeywordText(t);
  }

  /**
   * Reading a bare `Filhos` when nothing closes: the bucket changes, and the
   * children block opens when the line is one level below the node.
   */
  lemma FilhosStep(s: ReadState, n: nat)
    requires HeaderText("Filhos") && '-' !in "Filhos" && NoClose(s, n)
    ensures Step(s, HeaderLine(n, "Filhos")) ==
      ReadState(s.cur.(insideSons := s.cur.insideSons || n == s.cur.node.level + 1, place := NodeType.Filhos), s.out)
  {
    BareHeader(n, KeywordText(NodeType.Filhos));
    ParseKeywordText(NodeType.Filhos);
  }

  /**
   * Reading an object header `IObjeto - title` when nothing closes: inside a
   * children block it sets the child's level, otherwise it names the node
   * and sets its level.
   */
  lemma ObjectStep(s: ReadState, n: nat, title: string)
    requires HeaderText("IObjeto" + " - " + title) && Trimmed("IObjeto") && '-' !in "IObjeto" && NoClose(s, n)
    ensures Step(s, HeaderLine(n, "IObjeto" + " - " + title)) ==
      ReadState(if s.cur.insideSons then s.cur.(child := s.cur.child.(level := n), place := NodeType.IObjeto)
                else s.cur.(node := s.cur.node.(name := "IObjeto" + " - " + title, level := n), place := NodeType.IObjeto),
                s.out)
  {
    TitledHeader(n, "IObjeto", title);
    ParseKeywordText(NodeType.IObjeto);
  }

  /** Reading a parameter line when nothing closes. */
  lemma ParamStep(s: ReadState, n: nat, key: string, value: string)
    requires ParamKey(key) && ParamValue(value)
    requires NoClose(s, n)
    ensures Step(s, ParamLine(n, key, value)) == ReadState(Route(s.cur, key, Some(value)), s.out)
  {
    ParamLineReads(n, key, value);
  }

  /** The lines after the prefix of length `i` extend its state by one step. */
  lemma RunNext(lines: seq<string>, i: nat)
    requires i < |lines|
    ensures Run(lines[..i + 1]) == Step(Run(lines[..i]), lines[i])
  {
    assert lines[..i + 1][..i] == lines[..i];
  }

  // ---------------------------------------------------------------------------
  // The document and its expected reading
  // ---------------------------------------------------------------------------

  /** The lines of the reader's test document. */
  const FixtureLines: seq<string> := [
    HeaderLine(0, "IObjeto - Rota 2"),
    HeaderLine(1, "DadosComuns"),
    ParamLine(2, "Nome", "Rota 2"),
    ParamLine(2, "Tipo", "NavRota"),
    HeaderLine(1, "DadosEspecificos"),
    HeaderLine(2, "IObjetoNav"),
    HeaderLine(3, "GateIn"),
    ParamLine(4, "Posicao.Lat", "0"),
    ParamLine(4, "Posicao.Lon", "0"),
    ParamLine(4, "StringConfiguracao", "6910 206 4572"),
    HeaderLine(3, "GateOut"),
    ParamLine(4, "Posicao.Lat", "0"),
    ParamLine(4, "Posicao.Lon", "0"),
    ParamLine(4, "StringConfiguracao", "6910 206 4572"),
    ParamLine(2, "AeronaveNome", "A1_0A"),
    HeaderLine(1, "Filhos"),
    HeaderLine(2, "IObjeto - SM11"),
    HeaderLine(3, "DadosComuns"),
    ParamLine(4, "Nome", "SM11"),
    ParamLine(4, "Tipo", "NavWaypoint"),
    HeaderLine(3, "DadosEspecificos"),
    HeaderLine(4, "IObjetoNav"),
    HeaderLine(5, "GateIn"),
    ParamLine(6, "Posicao.Lat", "-29.710547222"),
    ParamLine(6, "Posicao.Lon", "-53.703902778"),
    ParamLine(6, "StringConfiguracao", "6910 206 4572"),
    HeaderLine(5, "GateOut"),
    ParamLine(6, "Posicao.Lat", "-29.710547222"),
    ParamLine(6, "Posicao.Lon", "-53.703902778"),
    ParamLine(6, "StringConfiguracao", "6910 206 4572"),
    ParamLine(4, "WaypointSubtipo", "2694x45"),
    HeaderLine(3, "Filhos")
  ]

  /** Lines 0-5 of the test document: the route's header and common data, up to its gates. */
  predicate RouteLines(f: seq<string>)
    requires |f| == 32
  {
    f[0] == HeaderLine(0, "IObjeto - Rota 2")
    && f[1] == HeaderLine(1, "DadosComuns")
    && f[2] == ParamLine(2, "Nome", "Rota 2")
    && f[3] == ParamLine(2, "Tipo", "NavRota")
    && f[4] == HeaderLine(1, "DadosEspecificos")
    && f[5] == HeaderLine(2, "IObjetoNav")
  }

  /** Lines 6-14 of the test document: the route's gates and its specific data. */
  predicate RouteGateLines(f: seq<string>)
    requires |f| == 32
  {
    f[6] == HeaderLine(3, "GateIn")
    && f[7] == ParamLine(4, "Posicao.Lat", "0")
    && f[8] == ParamLine(4, "Posicao.Lon", "0")
    && f[9] == ParamLine(4, "StringConfiguracao", "6910 206 4572")
    && f[10] == HeaderLine(3, "GateOut")
    && f[11] == ParamLine(4, "Posicao.Lat", "0")
    && f[12] == ParamLine(4, "Posicao.Lon", "0")
    && f[13] == ParamLine(4, "StringConfiguracao", "6910 206 4572")
    && f[14] == ParamLine(2, "AeronaveNome", "A1_0A")
  }

  /** Lines 15-21 of the test document: the `Filhos` block, the waypoint's header and common data, up to its gates. */
  predicate WaypointLines(f: seq<string>)
    requires |f| == 32
  {
    f[15] == HeaderLine(1, "Filhos")
    && f[16] == HeaderLine(2, "IObjeto - SM11")
    && f[17] == HeaderLine(3, "DadosComuns")
    && f[18] == ParamLine(4, "Nome", "SM11")
    && f[19] == ParamLine(4, "Tipo", "NavWaypoint")
    && f[20] == HeaderLine(3, "DadosEspecificos")
    && f[21] == HeaderLine(4, "IObjetoNav")
  }

  /** Lines 22-31 of the test document: the waypoint's gates, its specific data and its empty `Filhos`. */
  predicate WaypointGateLines(f: seq<string>)
    requires |f| == 32
  {
    f[22] == HeaderLine(5, "GateIn")
    && f[23] == ParamLine(6, "Posicao.Lat", "-29.710547222")
    && f[24] == ParamLine(6, "Posicao.Lon", "-53.703902778")
    && f[25] == ParamLine(6, "StringConfiguracao", "6910 206 4572")
    && f[26] == HeaderLine(5, "GateOut")
    && f[27] == ParamLine(6, "Posicao.Lat", "-29.710547222")
    && f[28] == ParamLine(6, "Posicao.Lon", "-53.703902778")
    && f[29] == ParamLine(6, "StringConfiguracao", "6910 206 4572")
    && f[30] == ParamLine(4, "WaypointSubtipo", "2694x45")
    && f[31] == HeaderLine(3, "Filhos")
  }

  /** A line sequence that is the test document, line by line. */
  predicate IsFixture(f: seq<string>) {
    |f| == 32 && RouteLines(f) && RouteGateLines(f) && WaypointLines(f) && WaypointGateLines(f)
  }

  /** The gates of the route. */
  const RotaGate: Gate :=
    Gate(map["Posicao.Lat" := Some("0"), "Posicao.Lon" := Some("0"), "StringConfiguracao" := Some("6910 206 4572")])

  /** The gates of the waypoint. */
  const WaypointGate: Gate :=
    Gate(map["Posicao.Lat" := Some("-29.710547222"), "Posicao.Lon" := Some("-53.703902778"),
             "StringConfiguracao" := Some("6910 206 4572")])

  /** The route's own data. */
  const RotaData: IObjeto :=
    IObjeto.IObjeto(0, map["Nome" := Some("Rota 2"), "Tipo" := Some("NavRota")],
                    (map["AeronaveNome" := Some("A1_0A")], IObjetoNav.IObjetoNav(RotaGate, RotaGate)))

  /** The waypoint child, at level 2. */
  const Waypoint: IObjeto :=
    IObjeto.IObjeto(2, map["Nome" := Some("SM11"), "Tipo" := Some("NavWaypoint")],
                    (map["WaypointSubtipo" := Some("2694x45")], IObjetoNav.IObjetoNav(WaypointGate, WaypointGate)))

  /** The route node, before its child is attached. */
  const RotaNode: PMANode := PMANode(0, "IObjeto - Rota 2", map[], RotaData, [])

  /** The expected reading: one node, at level 0, with the waypoint as its only child. */
  const Expected: seq<PMANode> := [RotaNode.(sons := [Waypoint])]

  // ---------------------------------------------------------------------------
  // The reading, line by line
  // ---------------------------------------------------------------------------

  /** The route node with the given data and gate parameters, and no children yet. */
  function Rota(common: Param, specific: Param, gateIn: Param, gateOut: Param): PMANode {
    PMANode(0, "IObjeto - Rota 2", map[],
            IObjeto.IObjeto(0, common, (specific, IObjetoNav.IObjetoNav(Gate(gateIn), Gate(gateOut)))), [])
  }

  /** The waypoint child at `level` with the given data and gate parameters. */
  function Sm11(level: nat, common: Param, specific: Param, gateIn: Param, gateOut: Param): IObjeto {
    IObjeto.IObjeto(level, common, (specific, IObjetoNav.IObjetoNav(Gate(gateIn), Gate(gateOut))))
  }

  /** The reader's cursor before line 0 and after each line `k - 1` (as `Sk`). */
  const S00: Cursor := StartCursor
  const S01: Cursor := Cursor(Rota(map[], map[], map[], map[]), DefaultObject, false, NodeType.IObjeto)
  const S02: Cursor := Cursor(Rota(map[], map[], map[], map[]), DefaultObject, false, NodeType.DadosComuns)
  const S03: Cursor :=
    Cursor(Rota(map["Nome" := Some("Rota 2")], map[], map[], map[]), DefaultObject, false, NodeType.DadosComuns)
  const S04: Cursor := Cursor(Rota(RotaData.commonData, map[], map[], map[]), DefaultObject, false, NodeType.DadosComuns)
  const S05: Cursor := Cursor(Rota(RotaData.commonData, map[], map[], map[]), DefaultObject, false, NodeType.DadosEspecificos)
  const S06: Cursor := Cursor(Rota(RotaData.commonData, map[], map[], map[]), DefaultObject, false, NodeType.IObjetoNav)
  const S07: Cursor := Cursor(Rota(RotaData.commonData, map[], map[], map[]), DefaultObject, false, NodeType.GateIn)
  const S08: Cursor :=
    Cursor(Rota(RotaData.commonData, map[], map["Posicao.Lat" := Some("0")], map[]), DefaultObject, false, NodeType.GateIn)
  const S09: Cursor :=
    Cursor(Rota(RotaData.commonData, map[], map["Posicao.Lat" := Some("0"), "Posicao.Lon" := Some("0")], map[]),
           DefaultObject, false, NodeType.GateIn)
  const S10: Cursor :=
    Cursor(Rota(RotaData.commonData, map[], RotaGate.parameters, map[]), DefaultObject, false, NodeType.GateIn)
  const S11: Cursor :=
    Cursor(Rota(RotaData.commonData, map[], RotaGate.parameters, map[]), DefaultObject, false, NodeType.GateOut)
  const S12: Cursor :=
    Cursor(Rota(RotaData.commonData, map[], RotaGate.parameters, map["Posicao.Lat" := Some("0")]),
           DefaultObject, false, NodeType.GateOut)
  const S13: Cursor :=
    Cursor(Rota(RotaData.commonData, map[], RotaGate.parameters, map["Posicao.Lat" := Some("0"), "Posicao.Lon" := Some("0")]),
           DefaultObject, false, NodeType.GateOut)
  const S14: Cursor :=
    Cursor(Rota(RotaData.commonData, map[], RotaGate.parameters, RotaGate.parameters),
           DefaultObject, false, NodeType.DadosEspecificos)
  const S15: Cursor := Cursor(RotaNode, DefaultObject, false, NodeType.DadosEspecificos)
  const S16: Cursor := Cursor(RotaNode, DefaultObject, true, NodeType.Filhos)
  const S17: Cursor := Cursor(RotaNode, Sm11(2, map[], map[], map[], map[]), true, NodeType.IObjeto)
  const S18: Cursor := Cursor(RotaNode, Sm11(2, map[], map[], map[], map[]), true, NodeType.DadosComuns)
  const S19: Cursor := Cursor(RotaNode, Sm11(2, map["Nome" := Some("SM11")], map[], map[], map[]), true, NodeType.DadosComuns)
  const S20: Cursor := Cursor(RotaNode, Sm11(2, Waypoint.commonData, map[], map[], map[]), true, NodeType.DadosComuns)
  const S21: Cursor := Cursor(RotaNode, Sm11(2, Waypoint.commonData, map[], map[], map[]), true, NodeType.DadosEspecificos)
  const S22: Cursor := Cursor(RotaNode, Sm11(2, Waypoint.commonData, map[], map[], map[]), true, NodeType.IObjetoNav)
  const S23: Cursor := Cursor(RotaNode, Sm11(2, Waypoint.commonData, map[], map[], map[]), true, NodeType.GateIn)
  const S24: Cursor :=
    Cursor(RotaNode, Sm11(2, Waypoint.commonData, map[], map["Posicao.Lat" := Some("-29.710547222")], map[]),
           true, NodeType.GateIn)
  const S25: Cursor :=
    Cursor(RotaNode, Sm11(2, Waypoint.commonData, map[],
                          map["Posicao.Lat" := Some("-29.710547222"), "Posicao.Lon" := Some("-53.703902778")], map[]),
           true, NodeType.GateIn)
  const S26: Cursor :=
    Cursor(RotaNode, Sm11(2, Waypoint.commonData, map[], WaypointGate.parameters, map[]), true, NodeType.GateIn)
  const S27: Cursor :=
    Cursor(RotaNode, Sm11(2, Waypoint.commonData, map[], WaypointGate.parameters, map[]), true, NodeType.GateOut)
  const S28: Cursor :=
    Cursor(RotaNode, Sm11(2, Waypoint.commonData, map[], WaypointGate.parameters,
                          map["Posicao.Lat" := Some("-29.710547222")]),
           true, NodeType.GateOut)
  const S29: Cursor :=
    Cursor(RotaNode, Sm11(2, Waypoint.commonData, map[], WaypointGate.parameters,
                          map["Posicao.Lat" := Some("-29.710547222"), "Posicao.Lon" := Some("-53.703902778")]),
           true, NodeType.GateOut)
  const S30: Cursor :=
    Cursor(RotaNode, Sm11(2, Waypoint.commonData, map[], WaypointGate.parameters, WaypointGate.parameters),
           true, NodeType.DadosEspecificos)
  const S31: Cursor := Cursor(RotaNode, Waypoint, true, NodeType.DadosEspecificos)
  const S32: Cursor := Cursor(RotaNode, Waypoint, true, NodeType.Filhos)

  // ---------------------------------------------------------------------------
  // Nothing closes before the end of the document
  // ---------------------------------------------------------------------------

  /** No line of the route's header and common data closes the object being read. */
  lemma RouteHeadOpen()
    ensures NoClose(ReadState(S00, []), 0) && NoClose(ReadState(S01, []), 1)
    ensures NoClose(ReadState(S02, []), 2) && NoClose(ReadState(S03, []), 2)
    ensures NoClose(ReadState(S04, []), 1) && NoClose(ReadState(S05, []), 2)
    ensures NoClose(ReadState(S06, []), 3) && NoClose(ReadState(S07, []), 4)
  {
  }

  /** No line of the route's gates and specific data closes the object being read. */
  lemma RouteGatesOpen()
    ensures NoClose(ReadState(S08, []), 4) && NoClose(ReadState(S09, []), 4)
    ensures NoClose(ReadState(S10, []), 3) && NoClose(ReadState(S11, []), 4)
    ensures NoClose(ReadState(S12, []), 4) && NoClose(ReadState(S13, []), 4)
    ensures NoClose(ReadState(S14, []), 2) && NoClose(ReadState(S15, []), 1)
  {
  }

  /** No line of the waypoint's header and common data closes the object being read. */
  lemma WaypointHeadOpen()
    ensures NoClose(ReadState(S16, []), 2) && NoClose(ReadState(S17, []), 3)
    ensures NoClose(ReadState(S18, []), 4) && NoClose(ReadState(S19, []), 4)
    ensures NoClose(ReadState(S20, []), 3) && NoClose(ReadState(S21, []), 4)
    ensures NoClose(ReadState(S22, []), 5) && NoClose(ReadState(S23, []), 6)
  {
  }

  /** No line of the waypoint's gates and specific data closes the object being read. */
  lemma WaypointGatesOpen()
    ensures NoClose(ReadState(S24, []), 6) && NoClose(ReadState(S25, []), 6)
    ensures NoClose(ReadState(S26, []), 5) && NoClose(ReadState(S27, []), 6)
    ensures NoClose(ReadState(S28, []), 6) && NoClose(ReadState(S29, []), 6)
    ensures NoClose(ReadState(S30, []), 4) && NoClose(ReadState(S31, []), 3)
  {
  }

  // ---------------------------------------------------------------------------
  // The words of the document
  // ---------------------------------------------------------------------------

  /** The keys of the route's parameter lines. */
  lemma RouteKeys()
    ensures ParamKey("Nome") && ParamKey("Tipo") && ParamKey("AeronaveNome")
  {
  }

  /** The gate key `Posicao.Lat`. */
  lemma LatitudeKey()
    ensures ParamKey("Posicao.Lat")
  {
  }

  /** The gate key `Posicao.Lon`. */
  lemma LongitudeKey()
    ensures ParamKey("Posicao.Lon")
  {
  }

  /** The gate key `StringConfiguracao`. */
  lemma ConfigurationKey()
    ensures ParamKey("StringConfiguracao")
  {
  }

  /** The key only the waypoint has. */
  lemma WaypointKeys()
    ensures ParamKey("WaypointSubtipo")
  {
  }

  /** The values of the route's parameter lines. */
  lemma RouteValues()
    ensures ParamValue("Rota 2") && ParamValue("NavRota") && ParamValue("0") && ParamValue("A1_0A")
  {
  }

  /** The value of both gates' configuration string. */
  lemma ConfigValue()
    ensures ParamValue("6910 206 4572")
  {
  }

  /** The values of the waypoint's parameter lines. */
  lemma WaypointValues()
    ensures ParamValue("SM11") && ParamValue("NavWaypoint") && ParamValue("2694x45")
  {
  }

  /** The coordinates of the waypoint's gates. */
  lemma WaypointPosition()
    ensures ParamValue("-29.710547222") && ParamValue("-53.703902778")
  {
  }

  /** `DadosComuns` is a bare keyword. */
  lemma WordDadosComuns()
    ensures HeaderText("DadosComuns") && '-' !in "DadosComuns"
  {
  }

  /** `DadosEspecificos` is a bare keyword. */
  lemma WordDadosEspecificos()
    ensures HeaderText("DadosEspecificos") && '-' !in "DadosEspecificos"
  {
  }

  /** `IObjetoNav` is a bare keyword. */
  lemma WordIObjetoNav()
    ensures HeaderText("IObjetoNav") && '-' !in "IObjetoNav"
  {
  }

  /** `GateIn` is a bare keyword. */
  lemma WordGateIn()
    ensures HeaderText("GateIn") && '-' !in "GateIn"
  {
  }

  /** `GateOut` is a bare keyword. */
  lemma WordGateOut()
    ensures HeaderText("GateOut") && '-' !in "GateOut"
  {
  }

  /** `Filhos` is a bare keyword. */
  lemma WordFilhos()
    ensures HeaderText("Filhos") && '-' !in "Filhos"
  {
  }

  /** The two object headers. */
  lemma TitleWords()
    ensures Trimmed("IObjeto") && '-' !in "IObjeto"
    ensures HeaderText("IObjeto" + " - " + "Rota 2") && HeaderText("IObjeto" + " - " + "SM11")
  {
  }

  lemma Line00()
    ensures Step(ReadState(S00, []), HeaderLine(0, "IObjeto - Rota 2")) == ReadState(S01, [])
  {
    RouteHeadOpen();
    assert "IObjeto - Rota 2" == "IObjeto" + " - " + "Rota 2";
    TitleWords();
    ObjectStep(ReadState(S00, []), 0, "Rota 2");
  }

  lemma Line01()
    ensures Step(ReadState(S01, []), HeaderLine(1, "DadosComuns")) == ReadState(S02, [])
  {
    RouteHeadOpen();
    WordDadosComuns();
    SectionStep(ReadState(S01, []), 1, NodeType.DadosComuns, "DadosComuns");
    assert S01.(place := NodeType.DadosComuns) == S02;
  }

  lemma Line02()
    ensures Step(ReadState(S02, []), ParamLine(2, "Nome", "Rota 2")) == ReadState(S03, [])
  {
    RouteHeadOpen();
    RouteKeys();
    RouteValues();
    ParamStep(ReadState(S02, []), 2, "Nome", "Rota 2");
    assert Route(S02, "Nome", Some("Rota 2")) == S03;
  }

  lemma Line03()
    ensures Step(ReadState(S03, []), ParamLine(2, "Tipo", "NavRota")) == ReadState(S04, [])
  {
    RouteHeadOpen();
    RouteKeys();
    RouteValues();
    ParamStep(ReadState(S03, []), 2, "Tipo", "NavRota");
    assert Route(S03, "Tipo", Some("NavRota")) == S04;
  }

  lemma Line04()
    ensures Step(ReadState(S04, []), HeaderLine(1, "DadosEspecificos")) == ReadState(S05, [])
  {
    RouteHeadOpen();
    WordDadosEspecificos();
    SectionStep(ReadState(S04, []), 1, NodeType.DadosEspecificos, "DadosEspecificos");
    assert S04.(place := NodeType.DadosEspecificos) == S05;
  }

  lemma Line05()
    ensures Step(ReadState(S05, []), HeaderLine(2, "IObjetoNav")) == ReadState(S06, [])
  {
    RouteHeadOpen();
    WordIObjetoNav();
    SectionStep(ReadState(S05, []), 2, NodeType.IObjetoNav, "IObjetoNav");
    assert S05.(place := NodeType.IObjetoNav) == S06;
  }

  lemma Line06()
    ensures Step(ReadState(S06, []), HeaderLine(3, "GateIn")) == ReadState(S07, [])
  {
    RouteHeadOpen();
    WordGateIn();
    SectionStep(ReadState(S06, []), 3, NodeType.GateIn, "GateIn");
    assert S06.(place := NodeType.GateIn) == S07;
  }

  lemma Line07()
    ensures Step(ReadState(S07, []), ParamLine(4, "Posicao.Lat", "0")) == ReadState(S08, [])
  {
    RouteHeadOpen();
    LatitudeKey();
    RouteValues();
    ParamStep(ReadState(S07, []), 4, "Posicao.Lat", "0");
    assert Route(S07, "Posicao.Lat", Some("0")) == S08;
  }

  lemma Line08()
    ensures Step(ReadState(S08, []), ParamLine(4, "Posicao.Lon", "0")) == ReadState(S09, [])
  {
    RouteGatesOpen();
    LongitudeKey();
    RouteValues();
    ParamStep(ReadState(S08, []), 4, "Posicao.Lon", "0");
    assert Route(S08, "Posicao.Lon", Some("0")) == S09;
  }

  lemma Line09()
    ensures Step(ReadState(S09, []), ParamLine(4, "StringConfiguracao", "6910 206 4572")) == ReadState(S10, [])
  {
    RouteGatesOpen();
    ConfigurationKey();
    ConfigValue();
    ParamStep(ReadState(S09, []), 4, "StringConfiguracao", "6910 206 4572");
    assert Route(S09, "StringConfiguracao", Some("6910 206 4572")) == S10;
  }

  lemma Line10()
    ensures Step(ReadState(S10, []), HeaderLine(3, "GateOut")) == ReadState(S11, [])
  {
    RouteGatesOpen();
    WordGateOut();
    SectionStep(ReadState(S10, []), 3, NodeType.GateOut, "GateOut");
    assert S10.(place := NodeType.GateOut) == S11;
  }

  lemma Line11()
    ensures Step(ReadState(S11, []), ParamLine(4, "Posicao.Lat", "0")) == ReadState(S12, [])
  {
    RouteGatesOpen();
    LatitudeKey();
    RouteValues();
    ParamStep(ReadState(S11, []), 4, "Posicao.Lat", "0");
    assert Route(S11, "Posicao.Lat", Some("0")) == S12;
  }

  lemma Line12()
    ensures Step(ReadState(S12, []), ParamLine(4, "Posicao.Lon", "0")) == ReadState(S13, [])
  {
    RouteGatesOpen();
    LongitudeKey();
    RouteValues();
    ParamStep(ReadState(S12, []), 4, "Posicao.Lon", "0");
    assert Route(S12, "Posicao.Lon", Some("0")) == S13;
  }

  lemma Line13()
    ensures Step(ReadState(S13, []), ParamLine(4, "StringConfiguracao", "6910 206 4572")) == ReadState(S14, [])
  {
    RouteGatesOpen();
    ConfigurationKey();
    ConfigValue();
    ParamStep(ReadState(S13, []), 4, "StringConfiguracao", "6910 206 4572");
    assert Route(S13, "StringConfiguracao", Some("6910 206 4572")) == S14;
  }

  lemma Line14()
    ensures Step(ReadState(S14, []), ParamLine(2, "AeronaveNome", "A1_0A")) == ReadState(S15, [])
  {
    RouteGatesOpen();
    RouteKeys();
    RouteValues();
    ParamStep(ReadState(S14, []), 2, "AeronaveNome", "A1_0A");
    assert Route(S14, "AeronaveNome", Some("A1_0A")) == S15;
  }

  lemma Line15()
    ensures Step(ReadState(S15, []), HeaderLine(1, "Filhos")) == ReadState(S16, [])
  {
    RouteGatesOpen();
    WordFilhos();
    FilhosStep(ReadState(S15, []), 1);
  }

  lemma Line16()
    ensures Step(ReadState(S16, []), HeaderLine(2, "IObjeto - SM11")) == ReadState(S17, [])
  {
    WaypointHeadOpen();
    assert "IObjeto - SM11" == "IObjeto" + " - " + "SM11";
    TitleWords();
    ObjectStep(ReadState(S16, []), 2, "SM11");
  }

  lemma Line17()
    ensures Step(ReadState(S17, []), HeaderLine(3, "DadosComuns")) == ReadState(S18, [])
  {
    WaypointHeadOpen();
    WordDadosComuns();
    SectionStep(ReadState(S17, []), 3, NodeType.DadosComuns, "DadosComuns");
    assert S17.(place := NodeType.DadosComuns) == S18;
  }

  lemma Line18()
    ensures Step(ReadState(S18, []), ParamLine(4, "Nome", "SM11")) == ReadState(S19, [])
  {
    WaypointHeadOpen();
    RouteKeys();
    WaypointValues();
    ParamStep(ReadState(S18, []), 4, "Nome", "SM11");
    assert Route(S18, "Nome", Some("SM11")) == S19;
  }

  lemma Line19()
    ensures Step(ReadState(S19, []), ParamLine(4, "Tipo", "NavWaypoint")) == ReadState(S20, [])
  {
    WaypointHeadOpen();
    RouteKeys();
    WaypointValues();
    ParamStep(ReadState(S19, []), 4, "Tipo", "NavWaypoint");
    assert Route(S19, "Tipo", Some("NavWaypoint")) == S20;
  }

  lemma Line20()
    ensures Step(ReadState(S20, []), HeaderLine(3, "DadosEspecificos")) == ReadState(S21, [])
  {
    WaypointHeadOpen();
    WordDadosEspecificos();
    SectionStep(ReadState(S20, []), 3, NodeType.DadosEspecificos, "DadosEspecificos");
    assert S20.(place := NodeType.DadosEspecificos) == S21;
  }

  lemma Line21()
    ensures Step(ReadState(S21, []), HeaderLine(4, "IObjetoNav")) == ReadState(S22, [])
  {
    WaypointHeadOpen();
    WordIObjetoNav();
    SectionStep(ReadState(S21, []), 4, NodeType.IObjetoNav, "IObjetoNav");
    assert S21.(place := NodeType.IObjetoNav) == S22;
  }

  lemma Line22()
    ensures Step(ReadState(S22, []), HeaderLine(5, "GateIn")) == ReadState(S23, [])
  {
    WaypointHeadOpen();
    WordGateIn();
    SectionStep(ReadState(S22, []), 5, NodeType.GateIn, "GateIn");
    assert S22.(place := NodeType.GateIn) == S23;
  }

  lemma Line23()
    ensures Step(ReadState(S23, []), ParamLine(6, "Posicao.Lat", "-29.710547222")) == ReadState(S24, [])
  {
    WaypointHeadOpen();
    LatitudeKey();
    WaypointPosition();
    ParamStep(ReadState(S23, []), 6, "Posicao.Lat", "-29.710547222");
    assert Route(S23, "Posicao.Lat", Some("-29.710547222")) == S24;
  }

  lemma Line24()
    ensures Step(ReadState(S24, []), ParamLine(6, "Posicao.Lon", "-53.703902778")) == ReadState(S25, [])
  {
    WaypointGatesOpen();
    LongitudeKey();
    WaypointPosition();
    ParamStep(ReadState(S24, []), 6, "Posicao.Lon", "-53.703902778");
    assert Route(S24, "Posicao.Lon", Some("-53.703902778")) == S25;
  }

  lemma Line25()
    ensures Step(ReadState(S25, []), ParamLine(6, "StringConfiguracao", "6910 206 4572")) == ReadState(S26, [])
  {
    WaypointGatesOpen();
    ConfigurationKey();
    ConfigValue();
    ParamStep(ReadState(S25, []), 6, "StringConfiguracao", "6910 206 4572");
    assert Route(S25, "StringConfiguracao", Some("6910 206 4572")) == S26;
  }

  lemma Line26()
    ensures Step(ReadState(S26, []), HeaderLine(5, "GateOut")) == ReadState(S27, [])
  {
    WaypointGatesOpen();
    WordGateOut();
    SectionStep(ReadState(S26, []), 5, NodeType.GateOut, "GateOut");
    assert S26.(place := NodeType.GateOut) == S27;
  }

  lemma Line27()
    ensures Step(ReadState(S27, []), ParamLine(6, "Posicao.Lat", "-29.710547222")) == ReadState(S28, [])
  {
    WaypointGatesOpen();
    LatitudeKey();
    WaypointPosition();
    ParamStep(ReadState(S27, []), 6, "Posicao.Lat", "-29.710547222");
    assert Route(S27, "Posicao.Lat", Some("-29.710547222")) == S28;
  }

  lemma Line28()
    ensures Step(ReadState(S28, []), ParamLine(6, "Posicao.Lon", "-53.703902778")) == ReadState(S29, [])
  {
    WaypointGatesOpen();
    LongitudeKey();
    WaypointPosition();
    ParamStep(ReadState(S28, []), 6, "Posicao.Lon", "-53.703902778");
    assert Route(S28, "Posicao.Lon", Some("-53.703902778")) == S29;
  }

  lemma Line29()
    ensures Step(ReadState(S29, []), ParamLine(6, "StringConfiguracao", "6910 206 4572")) == ReadState(S30, [])
  {
    WaypointGatesOpen();
    ConfigurationKey();
    ConfigValue();
    ParamStep(ReadState(S29, []), 6, "StringConfiguracao", "6910 206 4572");
    assert Route(S29, "StringConfiguracao", Some("6910 206 4572")) == S30;
  }

  lemma Line30()
    ensures Step(ReadState(S30, []), ParamLine(4, "WaypointSubtipo", "2694x45")) == ReadState(S31, [])
  {
    WaypointGatesOpen();
    WaypointKeys();
    WaypointValues();
    ParamStep(ReadState(S30, []), 4, "WaypointSubtipo", "2694x45");
    assert Route(S30, "WaypointSubtipo", Some("2694x45")) == S31;
  }

  lemma Line31()
    ensures Step(ReadState(S31, []), HeaderLine(3, "Filhos")) == ReadState(S32, [])
  {
    WaypointGatesOpen();
    WordFilhos();
    FilhosStep(ReadState(S31, []), 3);
  }

  lemma Thru00(f: seq<string>)
    requires IsFixture(f)
    ensures Run(f[..1]) == ReadState(S01, [])
  {
    assert f[..0] == [];
    RunNext(f, 0);
    Line00();
  }

  lemma Thru01(f: seq<string>)
    requires IsFixture(f)
    ensures Run(f[..2]) == ReadState(S02, [])
  {
    Thru00(f);
    RunNext(f, 1);
    Line01();
  }

  lemma Thru02(f: seq<string>)
    requires IsFixture(f)
    ensures Run(f[..3]) == ReadState(S03, [])
  {
    Thru01(f);
    RunNext(f, 2);
    Line02();
  }

  lemma Thru03(f: seq<string>)
    requires IsFixture(f)
    ensures Run(f[..4]) == ReadState(S04, [])
  {
    Thru02(f);
    RunNext(f, 3);
    Line03();
  }

  lemma Thru04(f: seq<string>)
    requires IsFixture(f)
    ensures Run(f[..5]) == ReadState(S05, [])
  {
    Thru03(f);
    RunNext(f, 4);
    Line04();
  }

  lemma Thru05(f: seq<string>)
    requires IsFixture(f)
    ensures Run(f[..6]) == ReadState(S06, [])
  {
    Thru04(f);
    RunNext(f, 5);
    Line05();
  }

  lemma Thru06(f: seq<string>)
    requires IsFixture(f)
    ensures Run(f[..7]) == ReadState(S07, [])
  {
    Thru05(f);
    RunNext(f, 6);
    Line06();
  }

  lemma Thru07(f: seq<string>)
    requires IsFixture(f)
    ensures Run(f[..8]) == ReadState(S08, [])
  {
    Thru06(f);
    RunNext(f, 7);
    Line07();
  }

  lemma Thru08(f: seq<string>)
    requires IsFixture(f)
    ensures Run(f[..9]) == ReadState(S09, [])
  {
    Thru07(f);
    RunNext(f, 8);
    Line08();
  }

  lemma Thru09(f: seq<string>)
    requires IsFixture(f)
    ensures Run(f[..10]) == ReadState(S10, [])
  {
    Thru08(f);
    RunNext(f, 9);
    Line09();
  }

  lemma Thru10(f: seq<string>)
    requires IsFixture(f)
    ensures Run(f[..11]) == ReadState(S11, [])
  {
    Thru09(f);
    RunNext(f, 10);
    Line10();
  }

  lemma Thru11(f: seq<string>)
    requires IsFixture(f)
    ensures Run(f[..12]) == ReadState(S12, [])
  {
    Thru10(f);
    RunNext(f, 11);
    Line11();
  }

  lemma Thru12(f: seq<string>)
    requires IsFixture(f)
    ensures Run(f[..13]) == ReadState(S13, [])
  {
    Thru11(f);
    RunNext(f, 12);
    Line12();
  }

  lemma Thru13(f: seq<string>)
    requires IsFixture(f)
    ensures Run(f[..14]) == ReadState(S14, [])
  {
    Thru12(f);
    RunNext(f, 13);
    Line13();
  }

  lemma Thru14(f: seq<string>)
    requires IsFixture(f)
    ensures Run(f[..15]) == ReadState(S15, [])
  {
    Thru13(f);
    RunNext(f, 14);
    Line14();
  }

  lemma Thru15(f: seq<string>)
    requires IsFixture(f)
    ensures Run(f[..16]) == ReadState(S16, [])
  {
    Thru14(f);
    RunNext(f, 15);
    Line15();
  }

  lemma Thru16(f: seq<string>)
    requires IsFixture(f)
    ensures Run(f[..17]) == ReadState(S17, [])
  {
    Thru15(f);
    RunNext(f, 16);
    Line16();
  }

  lemma Thru17(f: seq<string>)
    requires IsFixture(f)
    ensures Run(f[..18]) == ReadState(S18, [])
  {
    Thru16(f);
    RunNext(f, 17);
    Line17();
  }

  lemma Thru18(f: seq<string>)
    requires IsFixture(f)
    ensures Run(f[..19]) == ReadState(S19, [])
  {
    Thru17(f);
    RunNext(f, 18);
    Line18();
  }

  lemma Thru19(f: seq<string>)
    requires IsFixture(f)
    ensures Run(f[..20]) == ReadState(S20, [])
  {
    Thru18(f);
    RunNext(f, 19);
    Line19();
  }

  lemma Thru20(f: seq<string>)
    requires IsFixture(f)
    ensures Run(f[..21]) == ReadState(S21, [])
  {
    Thru19(f);
    RunNext(f, 20);
    Line20();
  }

  lemma Thru21(f: seq<string>)
    requires IsFixture(f)
    ensures Run(f[..22]) == ReadState(S22, [])
  {
    Thru20(f);
    RunNext(f, 21);
    Line21();
  }

  lemma Thru22(f: seq<string>)
    requires IsFixture(f)
    ensures Run(f[..23]) == ReadState(S23, [])
  {
    Thru21(f);
    RunNext(f, 22);
    Line22();
  }

  lemma Thru23(f: seq<string>)
    requires IsFixture(f)
    ensures Run(f[..24]) == ReadState(S24, [])
  {
    Thru22(f);
    RunNext(f, 23);
    Line23();
  }

  lemma Thru24(f: seq<string>)
    requires IsFixture(f)
    ensures Run(f[..25]) == ReadState(S25, [])
  {
    Thru23(f);
    RunNext(f, 24);
    Line24();
  }

  lemma Thru25(f: seq<string>)
    requires IsFixture(f)
    ensures Run(f[..26]) == ReadState(S26, [])
  {
    Thru24(f);
    RunNext(f, 25);
    Line25();
  }

  lemma Thru26(f: seq<string>)
    requires IsFixture(f)
    ensures Run(f[..27]) == ReadState(S27, [])
  {
    Thru25(f);
    RunNext(f, 26);
    Line26();
  }

  lemma Thru27(f: seq<string>)
    requires IsFixture(f)
    ensures Run(f[..28]) == ReadState(S28, [])
  {
    Thru26(f);
    RunNext(f, 27);
    Line27();
  }

  lemma Thru28(f: seq<string>)
    requires IsFixture(f)
    ensures Run(f[..29]) == ReadState(S29, [])
  {
    Thru27(f);
    RunNext(f, 28);
    Line28();
  }

  lemma Thru29(f: seq<string>)
    requires IsFixture(f)
    ensures Run(f[..30]) == ReadState(S30, [])
  {
    Thru28(f);
    RunNext(f, 29);
    Line29();
  }

  lemma Thru30(f: seq<string>)
    requires IsFixture(f)
    ensures Run(f[..31]) == ReadState(S31, [])
  {
    Thru29(f);
    RunNext(f, 30);
    Line30();
  }

  lemma Thru31(f: seq<string>)
    requires IsFixture(f)
    ensures Run(f[..32]) == ReadState(S32, [])
  {
    Thru30(f);
    RunNext(f, 31);
    Line31();
  }

  /** After the route's exit gate and specific data, the route is complete and no child is open. */
  lemma RouteComplete()
    ensures S15 == Cursor(RotaNode, DefaultObject, false, NodeType.DadosEspecificos)
  {
  }

  /** After the last line the waypoint is complete and still pending, inside the children block. */
  lemma WaypointComplete()
    ensures S32 == Cursor(RotaNode, Waypoint, true, NodeType.Filhos)
  {
    RouteComplete();
  }

  /** The final flush attaches the pending waypoint to the route and emits the route. */
  lemma FlushComplete()
    ensures Flush(ReadState(S32, [])) == Expected
  {
    WaypointComplete();
    assert HasData(Waypoint) by {
      assert "Nome" in Waypoint.commonData;
    }
    assert RotaNode.sons + [Waypoint] == [Waypoint];
  }

  /** The document's own lines hold the route's header and common data. */
  lemma FixtureRouteLines()
    ensures |FixtureLines| == 32 && RouteLines(FixtureLines)
  {
  }

  /** The document's own lines hold the route's gates and specific data. */
  lemma FixtureRouteGateLines()
    ensures |FixtureLines| == 32 && RouteGateLines(FixtureLines)
  {
  }

  /** The document's own lines hold the children block and the waypoint's header and common data. */
  lemma FixtureWaypointLines()
    ensures |FixtureLines| == 32 && WaypointLines(FixtureLines)
  {
  }

  /** The document's own lines hold the waypoint's gates and specific data. */
  lemma FixtureWaypointGateLines()
    ensures |FixtureLines| == 32 && WaypointGateLines(FixtureLines)
  {
  }

  /**
   * The test document reads as one node, `IObjeto - Rota 2` at level 0,
   * with its common data, specific data and both gates, and one child at
   * level 2 carrying the waypoint's data.
   */
  lemma FixtureReads(f: seq<string>)
    requires IsFixture(f)
    ensures Parse(f) == Expected
  {
    Thru31(f);
    assert f[..32] == f;
    FlushComplete();
  }

  /** The document's own lines read as `Expected`. */
  lemma FixtureReadsAsOneRoute()
    ensures Parse(FixtureLines) == Expected
  {
    FixtureRouteLines();
    FixtureRouteGateLines();
    FixtureWaypointLines();
    FixtureWaypointGateLines();
    FixtureReads(FixtureLines);
  }
}
