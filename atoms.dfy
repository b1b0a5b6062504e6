/**
 * Two atom-layer node constructors. Each fills a node-definition dict (class,
 * presentation fields, an attributes map and an inputs map) and hands it once to
 * the node manager's `_create_node`, returning what that gives back. Each
 * constructor's source file opens with its catalog entry, kept here as a
 * constant that the constructed definitions are checked against.
 */
module Atoms {
  import opened Optional

  /** A Python argument value; the constructors pass it through without looking inside. */
  datatype Value = Str(s: string) | Num(r: real) | Vector(items: seq<real>) | Flag(b: bool)

  /** The dict passed to `_create_node`. An omitted argument is stored as `None`, never left out. */
  datatype NodeDef = NodeDef(
    className: string,
    name: Option<Value>,
    color: Option<Value>,
    nodeLabel: Option<Value>,
    x: Option<Value>,
    y: Option<Value>,
    attributes: map<string, Option<Value>>,
    inputs: map<string, Option<Value>>)

  // ---------------------------------------------------------------------------
  // Catalog entries

  datatype SocketDecl = SocketDecl(socketClass: string, identifier: string, index: nat, name: string)

  datatype AttributeDecl = AttributeDecl(allowedValues: seq<string>, attributeClass: string, name: string, sampleValue: string)

  datatype CatalogEntry = CatalogEntry(
    attributes: seq<AttributeDecl>,
    className: string,
    inputs: seq<SocketDecl>,
    displayLabel: string,
    outputs: seq<SocketDecl>)

  function FloatOut(identifier: string, index: nat): SocketDecl
  {
    SocketDecl("NodeSocketFloat", identifier, index, identifier)
  }

  const LIGHT_PATH_CATALOG := CatalogEntry(
    [],
    "ShaderNodeLightPath",
    [],
    "Light Path",
    [ FloatOut("Is Camera Ray", 0), FloatOut("Is Shadow Ray", 1), FloatOut("Is Diffuse Ray", 2),
      FloatOut("Is Glossy Ray", 3), FloatOut("Is Singular Ray", 4), FloatOut("Is Reflection Ray", 5),
      FloatOut("Is Transmission Ray", 6), FloatOut("Ray Length", 7), FloatOut("Ray Depth", 8),
      FloatOut("Diffuse Depth", 9), FloatOut("Glossy Depth", 10), FloatOut("Transparent Depth", 11),
      FloatOut("Transmission Depth", 12) ])

  const BSDF_GLOSSY_CATALOG := CatalogEntry(
    [AttributeDecl([], "enum", "distribution", "GGX")],
    "ShaderNodeBsdfGlossy",
    [ SocketDecl("NodeSocketColor", "Color", 0, "Color"),
      SocketDecl("NodeSocketFloatFactor", "Roughness", 1, "Roughness"),
      SocketDecl("NodeSocketVector", "Normal", 2, "Normal"),
      SocketDecl("NodeSocketFloat", "Weight", 3, "Weight") ],
    "Glossy BSDF",
    [SocketDecl("NodeSocketShader", "BSDF", 0, "BSDF")])

  function AttributeNames(e: CatalogEntry): set<string>
  {
    set a | a in e.attributes :: a.name
  }

  function InputIdentifiers(e: CatalogEntry): set<string>
  {
    set s | s in e.inputs :: s.identifier
  }

  /** The names the glossy catalog entry declares. */
  lemma GlossyCatalogNames()
    ensures AttributeNames(BSDF_GLOSSY_CATALOG) == {"distribution"}
    ensures InputIdentifiers(BSDF_GLOSSY_CATALOG) == {"Color", "Roughness", "Normal", "Weight"}
  {
    var glossy := BSDF_GLOSSY_CATALOG;
    assert glossy.attributes[0] in glossy.attributes;
    var ids: set<string> := {"Color", "Roughness", "Normal", "Weight"};
    forall id | id in InputIdentifiers(glossy)
      ensures id in ids
    {
      var s :| s in glossy.inputs && s.identifier == id;
    }
    forall id | id in ids
      ensures id in InputIdentifiers(glossy)
    {
      if id == "Color" {
        assert glossy.inputs[0] in glossy.inputs;
      } else if id == "Roughness" {
        assert glossy.inputs[1] in glossy.inputs;
      } else if id == "Normal" {
        assert glossy.inputs[2] in glossy.inputs;
      } else {
        assert glossy.inputs[3] in glossy.inputs;
      }
    }
  }

  // ---------------------------------------------------------------------------
  // The definitions the constructors build

  /** The definition `createShaderNodeLightPath` builds: the catalog's class, the
      catalog's (empty) attribute and input keys, and the presentation arguments as given. */
  function LightPathDef(name: Option<Value>, color: Option<Value>, nodeLabel: Option<Value>, x: Option<Value>, y: Option<Value>): (d: NodeDef)
    ensures d.className == LIGHT_PATH_CATALOG.className
    ensures d.attributes.Keys == AttributeNames(LIGHT_PATH_CATALOG)
    ensures d.inputs.Keys == InputIdentifiers(LIGHT_PATH_CATALOG)
    ensures d.name == name && d.color == color && d.nodeLabel == nodeLabel && d.x == x && d.y == y
  {
    NodeDef("ShaderNodeLightPath", name, color, nodeLabel, x, y, map[], map[])
  }

  /** The definition `createShaderNodeBsdfGlossy` builds: the catalog's class, exactly the
      catalog's attribute and input keys, each holding its argument (`None` when omitted). */
  function BsdfGlossyDef(
    name: Option<Value>, color: Option<Value>, nodeLabel: Option<Value>, x: Option<Value>, y: Option<Value>,
    distribution: Option<Value>, Color: Option<Value>, Roughness: Option<Value>, Normal: Option<Value>, Weight: Option<Value>): (d: NodeDef)
    ensures d.className == BSDF_GLOSSY_CATALOG.className
    ensures d.attributes.Keys == AttributeNames(BSDF_GLOSSY_CATALOG)
    ensures d.inputs.Keys == InputIdentifiers(BSDF_GLOSSY_CATALOG)
    ensures d.attributes["distribution"] == distribution
    ensures d.inputs["Color"] == Color && d.inputs["Roughness"] == Roughness
    ensures d.inputs["Normal"] == Normal && d.inputs["Weight"] == Weight
    ensures d.name == name && d.color == color && d.nodeLabel == nodeLabel && d.x == x && d.y == y
  {
    var attributes := map["distribution" := distribution];
    var inputs := map["Color" := Color, "Roughness" := Roughness, "Normal" := Normal, "Weight" := Weight];
    assert attributes.Keys == {"distribution"};
    assert inputs.Keys == {"Color", "Roughness", "Normal", "Weight"};
    GlossyCatalogNames();
    NodeDef("ShaderNodeBsdfGlossy", name, color, nodeLabel, x, y, attributes, inputs)
  }

  // ---------------------------------------------------------------------------
  // The node manager, as a recorder of `_create_node`

  /** The handle `_create_node` returns: the position of the new node among those created. */
  datatype NodeHandle = NodeHandle(position: nat)

  class NodeManager {
    var created: seq<NodeDef>

    constructor ()
      ensures created == []
    {
      created := [];
    }

    /** `_create_node`: adds one node to the tree and returns its handle. */
    method CreateNode(nodeDef: NodeDef) returns (h: NodeHandle)
      modifies this
      ensures created == old(created) + [nodeDef]
      ensures h == NodeHandle(|old(created)|)
    {
      h := NodeHandle(|created|);
      created := created + [nodeDef];
    }

    method CreateShaderNodeLightPath(name: Option<Value>, color: Option<Value>, nodeLabel: Option<Value>, x: Option<Value>, y: Option<Value>)
      returns (h: NodeHandle)
      modifies this
      ensures created == old(created) + [LightPathDef(name, color, nodeLabel, x, y)]
      ensures h == NodeHandle(|old(created)|)
    {
      var attributes: map<string, Option<Value>> := map[];
      var inputs: map<string, Option<Value>> := map[];
      var nodeDef := NodeDef("ShaderNodeLightPath", name, color, nodeLabel, x, y, attributes, inputs);
      h := CreateNode(nodeDef);
    }

    method CreateShaderNodeBsdfGlossy(
      name: Option<Value>, color: Option<Value>, nodeLabel: Option<Value>, x: Option<Value>, y: Option<Value>,
      distribution: Option<Value>, Color: Option<Value>, Roughness: Option<Value>, Normal: Option<Value>, Weight: Option<Value>)
      returns (h: NodeHandle)
      modifies this
      ensures created == old(created) + [BsdfGlossyDef(name, color, nodeLabel, x, y, distribution, Color, Roughness, Normal, Weight)]
      ensures h == NodeHandle(|old(created)|)
    {
      var attributes: map<string, Option<Value>> := map[];
      var inputs: map<string, Option<Value>> := map[];
      attributes := attributes["distribution" := distribution];
      inputs := inputs["Color" := Color];
      inputs := inputs["Roughness" := Roughness];
      inputs := inputs["Normal" := Normal];
      inputs := inputs["Weight" := Weight];
      var nodeDef := NodeDef("ShaderNodeBsdfGlossy", name, color, nodeLabel, x, y, attributes, inputs);
      h := CreateNode(nodeDef);
    }
  }
}
