/**
 * The two keyword vocabularies of the PMA format: `NodeType`, the structural
 * keywords that open a context or select the bucket parameter lines go to,
 * and `Nav`, the navigation object types.
 */
module PmaKeywords {
  import opened Wrappers

  /** The structural keywords; `Other` stands for any other header text. */
  datatype NodeType = IObjeto | IObjetoNav | GateIn | GateOut | DadosComuns | DadosEspecificos | Filhos | Other

  /** The seven keyword spellings. */
  const Keywords: set<string> :=
    {"IObjetoNav", "IObjeto", "GateIn", "GateOut", "DadosComuns", "DadosEspecificos", "Filhos"}

  /** How a structural keyword is spelled in a PMA file. */
  function KeywordText(t: NodeType): (s: string)
    requires t != Other
    ensures s in Keywords
  {
    match t
    case IObjeto => "IObjeto"
    case IObjetoNav => "IObjetoNav"
    case GateIn => "GateIn"
    case GateOut => "GateOut"
    case DadosComuns => "DadosComuns"
    case DadosEspecificos => "DadosEspecificos"
    case Filhos => "Filhos"
  }

  /**
   * `NodeType::from_str`: a total lookup.  A keyword spelling gives its own
   * variant and every other text gives `Other`; there is no error case.
   */
  function ParseNodeType(s: string): (t: NodeType)
    ensures t == Other <==> s !in Keywords
    ensures t != Other ==> KeywordText(t) == s
  {
    match s
    case "IObjetoNav" => IObjetoNav
    case "IObjeto" => IObjeto
    case "GateIn" => GateIn
    case "GateOut" => GateOut
    case "DadosComuns" => DadosComuns
    case "DadosEspecificos" => DadosEspecificos
    case "Filhos" => Filhos
    case _ => Other
  }

  /** Every structural keyword is read back as itself. */
  lemma ParseKeywordText(t: NodeType)
    requires t != Other
    ensures ParseNodeType(KeywordText(t)) == t
  {
  }

  /** The navigation object types. */
  datatype Nav = Rota | Waypoint | Reccelite | Perna

  const NavNames: set<string> := {"NavPerna", "NavReccelite", "NavWaypoint", "NavRota"}

  /** How a navigation type is spelled in a PMA file. */
  function NavText(n: Nav): (s: string)
    ensures s in NavNames
  {
    match n
    case Rota => "NavRota"
    case Waypoint => "NavWaypoint"
    case Reccelite => "NavReccelite"
    case Perna => "NavPerna"
  }

  /** `Nav::from_str`: a partial lookup that succeeds exactly on the four type names. */
  function ParseNav(s: string): (r: Option<Nav>)
    ensures r.Some? <==> s in NavNames
    ensures r.Some? ==> NavText(r.value) == s
  {
    match s
    case "NavPerna" => Some(Perna)
    case "NavReccelite" => Some(Reccelite)
    case "NavWaypoint" => Some(Waypoint)
    case "NavRota" => Some(Rota)
    case _ => None
  }

  /** Every navigation type is read back as itself. */
  lemma ParseNavText(n: Nav)
    ensures ParseNav(NavText(n)) == Some(n)
  {
  }
}
