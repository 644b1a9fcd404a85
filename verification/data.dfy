/**
 * The records a PMA file is read into.  In the source they are plain owned
 * structs that are moved into their containers, so they are values here, and
 * the `&mut self` mutators return the updated record.
 */
module PmaData {
  import opened Wrappers
  import opened StrOps

  /** `Param`: an attribute name and its optional value. */
  type Param = map<string, Option<string>>

  /** Inserting into a `Param`: the key now holds the new value and every other entry is kept. */
  function Insert(m: Param, k: string, v: Option<string>): (r: Param)
    ensures k in r && r[k] == v
    ensures r.Keys == m.Keys + {k}
    ensures forall k' :: k' in m && k' != k ==> r[k'] == m[k']
  {
    m[k := v]
  }

  /** Inserting the same key twice keeps only the second value. */
  lemma InsertTwice(m: Param, k: string, v1: Option<string>, v2: Option<string>)
    ensures Insert(Insert(m, k, v1), k, v2) == Insert(m, k, v2)
  {
  }

  /** `Gate`: the parameters of an entry or exit gate. */
  datatype Gate = Gate(parameters: Param)

  /** `IObjetoNav`: the entry and exit gates of a navigation object. */
  datatype IObjetoNav = IObjetoNav(gateIn: Gate, gateOut: Gate)

  /**
   * `IObjeto`: an object's attributes.  `specificData.0` holds the specific
   * data and `specificData.1` the gates, as in the source's tuple.
   */
  datatype IObjeto = IObjeto(level: nat, commonData: Param, specificData: (Param, IObjetoNav))
  {
    /** `IObjeto::update_level`: only the level changes. */
    function UpdateLevel(l: nat): (r: IObjeto)
      ensures r.level == l
      ensures r.commonData == commonData && r.specificData == specificData
    {
      this.(level := l)
    }

    /** Insert into the common data; nothing else changes. */
    function InsertCommon(k: string, v: Option<string>): (r: IObjeto)
      ensures r.commonData == Insert(commonData, k, v)
      ensures r.level == level && r.specificData == specificData
    {
      this.(commonData := Insert(commonData, k, v))
    }

    /** Insert into the specific data; nothing else changes. */
    function InsertSpecific(k: string, v: Option<string>): (r: IObjeto)
      ensures r.specificData.0 == Insert(specificData.0, k, v)
      ensures r.level == level && r.commonData == commonData && r.specificData.1 == specificData.1
    {
      this.(specificData := (Insert(specificData.0, k, v), specificData.1))
    }

    /** Insert into the entry gate; nothing else changes. */
    function InsertGateIn(k: string, v: Option<string>): (r: IObjeto)
      ensures r.specificData.1.gateIn.parameters == Insert(specificData.1.gateIn.parameters, k, v)
      ensures r.level == level && r.commonData == commonData && r.specificData.0 == specificData.0
      ensures r.specificData.1.gateOut == specificData.1.gateOut
    {
      var nav := specificData.1;
      this.(specificData := (specificData.0, nav.(gateIn := Gate(Insert(nav.gateIn.parameters, k, v)))))
    }

    /** Insert into the exit gate; nothing else changes. */
    function InsertGateOut(k: string, v: Option<string>): (r: IObjeto)
      ensures r.specificData.1.gateOut.parameters == Insert(specificData.1.gateOut.parameters, k, v)
      ensures r.level == level && r.commonData == commonData && r.specificData.0 == specificData.0
      ensures r.specificData.1.gateIn == specificData.1.gateIn
    {
      var nav := specificData.1;
      this.(specificData := (specificData.0, nav.(gateOut := Gate(Insert(nav.gateOut.parameters, k, v)))))
    }
  }

  /** `IObjeto::default()`. */
  const DefaultObject: IObjeto := IObjeto(0, map[], (map[], IObjetoNav(Gate(map[]), Gate(map[]))))

  /**
   * `PMANode`: one top-level object: the level and text of its header line,
   * its fallback parameters, its own object data and its child objects.
   */
  datatype PMANode = PMANode(level: nat, name: string, parameters: Param, objectData: IObjeto, sons: seq<IObjeto>)
  {
    /** `PMANode::add_parameter`: the fallback parameters gain `k`; nothing else changes. */
    function AddParameter(k: string, v: Option<string>): (r: PMANode)
      ensures r.parameters == Insert(parameters, k, v)
      ensures r.level == level && r.name == name && r.objectData == objectData && r.sons == sons
    {
      this.(parameters := parameters[k := v])
    }

    /** `PMANode::update_name`: the name becomes the given text without surrounding whitespace. */
    function UpdateName(text: string): (r: PMANode)
      ensures r.name == Trim(text)
      ensures r.level == level && r.parameters == parameters && r.objectData == objectData && r.sons == sons
    {
      this.(name := Trim(text))
    }

    /** `PMANode::update_level`: only the level changes. */
    function UpdateLevel(l: nat): (r: PMANode)
      ensures r.level == l
      ensures r.name == name && r.parameters == parameters && r.objectData == objectData && r.sons == sons
    {
      this.(level := l)
    }

    /**
     * `PMANode::get_nodes_by_type`: the whole node when its fallback
     * parameters have the key `tipo`, and nothing otherwise.
     */
    function GetNodesByType(tipo: string): (r: Option<PMANode>)
      ensures r.Some? <==> tipo in parameters
      ensures r.Some? ==> r.value == this
    {
      if tipo in parameters then Some(this) else None
    }
  }

  /** `PMANode::default()`: level 0, no name, no data, no children. */
  const DefaultNode: PMANode := PMANode(0, "", map[], DefaultObject, [])

  /**
   * A name set by `update_name` carries no surrounding whitespace: setting
   * the name again from the stored name changes nothing.
   */
  lemma UpdateNameIdempotent(n: PMANode, text: string)
    ensures n.UpdateName(text).UpdateName(n.UpdateName(text).name) == n.UpdateName(text)
  {
    TrimIdempotent(text);
  }

  /** A node answers a query for a key just added to its fallback parameters. */
  lemma AddThenQuery(n: PMANode, k: string, v: Option<string>)
    ensures n.AddParameter(k, v).GetNodesByType(k) == Some(n.AddParameter(k, v))
  {
  }
}
