/**
 * The part of an XML element tree the JUnit reporter builds and reads back:
 * elements with ordered attributes and child nodes, and CDATA sections.
 */
module Xml {
  import opened Wrappers

  datatype XAttribute = XAttribute(name: string, value: string)

  datatype XNode = Element(element: XElement) | CData(text: string)

  datatype XElement = XElement(name: string, attributes: seq<XAttribute>, nodes: seq<XNode>)

  /** A document: its XML declaration and its root element. */
  datatype XDocument = XDocument(version: string, encoding: string, root: XElement)

  /** `element.Attribute(name)?.Value`: the value of the first attribute called `name`. */
  function AttributeValue(attributes: seq<XAttribute>, name: string): Option<string> {
    if attributes == [] then None
    else if attributes[0].name == name then Some(attributes[0].value)
    else AttributeValue(attributes[1..], name)
  }

  /**
   * The lookup finds an attribute exactly when one has the name, and then
   * returns the value of the first one.
   */
  lemma {:induction false} AttributeValueSpec(attributes: seq<XAttribute>, name: string)
    ensures AttributeValue(attributes, name).None? <==> forall k :: 0 <= k < |attributes| ==> attributes[k].name != name
    ensures AttributeValue(attributes, name).Some? ==>
              exists k :: 0 <= k < |attributes| && attributes[k] == XAttribute(name, AttributeValue(attributes, name).value)
                && forall j :: 0 <= j < k ==> attributes[j].name != name
  {
    if attributes != [] && attributes[0].name != name {
      AttributeValueSpec(attributes[1..], name);
      assert forall k :: 1 <= k < |attributes| ==> attributes[k] == attributes[1..][k - 1];
      if AttributeValue(attributes, name).Some? {
        var k :| 0 <= k < |attributes[1..]| && attributes[1..][k] == XAttribute(name, AttributeValue(attributes, name).value)
                 && forall j :: 0 <= j < k ==> attributes[1..][j].name != name;
        assert attributes[k + 1] == attributes[1..][k];
        assert forall j :: 1 <= j < k + 1 ==> attributes[j].name == attributes[1..][j - 1].name;
      }
    } else if attributes != [] {
      assert attributes[0] == XAttribute(name, AttributeValue(attributes, name).value);
    }
  }

  /** `element.Element(name)`: the first child element called `name`. */
  function ChildElement(nodes: seq<XNode>, name: string): Option<XElement> {
    if nodes == [] then None
    else if nodes[0].Element? && nodes[0].element.name == name then Some(nodes[0].element)
    else ChildElement(nodes[1..], name)
  }

  /** The child lookup finds an element exactly when a child element has the name, and the found one is such a child. */
  lemma {:induction false} ChildElementSpec(nodes: seq<XNode>, name: string)
    ensures ChildElement(nodes, name).None? <==>
              forall k :: 0 <= k < |nodes| ==> !(nodes[k].Element? && nodes[k].element.name == name)
    ensures ChildElement(nodes, name).Some? ==>
              ChildElement(nodes, name).value.name == name && Element(ChildElement(nodes, name).value) in nodes
  {
    if nodes != [] && !(nodes[0].Element? && nodes[0].element.name == name) {
      ChildElementSpec(nodes[1..], name);
      assert forall k :: 1 <= k < |nodes| ==> nodes[k] == nodes[1..][k - 1];
    }
  }

  /** The value of the attribute at `k` is found when no earlier attribute has its name. */
  lemma {:induction false} AttributeValueAt(attributes: seq<XAttribute>, k: nat)
    requires k < |attributes|
    requires forall j :: 0 <= j < k ==> attributes[j].name != attributes[k].name
    ensures AttributeValue(attributes, attributes[k].name) == Some(attributes[k].value)
  {
    if k > 0 {
      var rest := attributes[1..];
      assert rest[k - 1] == attributes[k];
      assert forall j :: 0 <= j < k - 1 ==> rest[j] == attributes[j + 1];
      AttributeValueAt(rest, k - 1);
    }
  }
}
