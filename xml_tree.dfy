/** The part of the DOM the formatters build: a document holding one root
    element, elements with ordered attributes and children, text and CDATA
    leaves. Serialisation to text is not part of this model. */
module XmlTree {
  import opened Wrappers

  type Attrs = seq<(string, string)>

  datatype Node =
    | Element(name: string, attrs: Attrs, children: seq<Node>)
    | Text(text: string)
    | CData(data: string)

  /** A `DOMDocument`: its XML version, its encoding, and its document element. */
  datatype Document = Document(version: string, encoding: string, root: Option<Node>)

  /** Whether an attribute of that name is set. */
  predicate HasAttr(attrs: Attrs, key: string)
    decreases |attrs|
  {
    attrs != [] && (attrs[0].0 == key || HasAttr(attrs[1..], key))
  }

  /** An attribute is set exactly when some position carries its name. */
  lemma {:induction false} HasAttrIndex(attrs: Attrs, key: string)
    ensures HasAttr(attrs, key) <==> exists i :: 0 <= i < |attrs| && attrs[i].0 == key
    decreases |attrs|
  {
    if attrs != [] {
      HasAttrIndex(attrs[1..], key);
      if exists i :: 0 <= i < |attrs| && attrs[i].0 == key {
        var i :| 0 <= i < |attrs| && attrs[i].0 == key;
        if i > 0 {
          assert attrs[1..][i - 1].0 == key;
        }
      }
      if HasAttr(attrs[1..], key) && attrs[0].0 != key {
        var i :| 0 <= i < |attrs[1..]| && attrs[1..][i].0 == key;
        assert attrs[i + 1].0 == key;
      }
    }
  }

  /** No attribute name occurs twice, as in every DOM element. */
  predicate DistinctNames(attrs: Attrs) {
    forall i, j :: 0 <= i < j < |attrs| ==> attrs[i].0 != attrs[j].0
  }

  /** `getAttribute($key)`, or None when the element has no such attribute. */
  function GetAttr(attrs: Attrs, key: string): (r: Option<string>)
    ensures r.None? <==> !HasAttr(attrs, key)
    decreases |attrs|
  {
    if attrs == [] then None
    else if attrs[0].0 == key then Some(attrs[0].1)
    else GetAttr(attrs[1..], key)
  }

  /** `setAttribute($key, $value)` on an attribute list: an existing
      attribute of that name keeps its place and takes the new value,
      otherwise the attribute is appended. */
  function SetAttr(attrs: Attrs, key: string, value: string): (r: Attrs)
    ensures !HasAttr(attrs, key) ==> r == attrs + [(key, value)]
    ensures HasAttr(attrs, key) ==> |r| == |attrs| && forall i :: 0 <= i < |r| ==> r[i].0 == attrs[i].0
    decreases |attrs|
  {
    if attrs == [] then [(key, value)]
    else if attrs[0].0 == key then [(key, value)] + attrs[1..]
    else
      var rest := SetAttr(attrs[1..], key, value);
      assert !HasAttr(attrs, key) ==> [attrs[0]] + rest == attrs + [(key, value)] by {
        if !HasAttr(attrs, key) {
          assert [attrs[0]] + (attrs[1..] + [(key, value)]) == attrs + [(key, value)];
        }
      }
      assert HasAttr(attrs, key) ==> forall i :: 0 < i < |attrs| ==> ([attrs[0]] + rest)[i] == rest[i - 1];
      [attrs[0]] + rest
  }

  /** After `setAttribute($key, $value)` the attribute reads back as the new
      value and every other attribute reads as before. */
  lemma {:induction false} SetAttrGet(attrs: Attrs, key: string, value: string, k: string)
    ensures GetAttr(SetAttr(attrs, key, value), k) == if k == key then Some(value) else GetAttr(attrs, k)
    decreases |attrs|
  {
    if attrs != [] && attrs[0].0 != key {
      SetAttrGet(attrs[1..], key, value, k);
      assert ([attrs[0]] + SetAttr(attrs[1..], key, value))[1..] == SetAttr(attrs[1..], key, value);
    }
  }

  /** `setAttribute` keeps attribute names distinct. */
  lemma SetAttrDistinct(attrs: Attrs, key: string, value: string)
    requires DistinctNames(attrs)
    ensures DistinctNames(SetAttr(attrs, key, value))
  {
    var r := SetAttr(attrs, key, value);
    if HasAttr(attrs, key) {
      forall i, j | 0 <= i < j < |r| ensures r[i].0 != r[j].0 {
        assert r[i].0 == attrs[i].0 && r[j].0 == attrs[j].0;
      }
    } else {
      HasAttrIndex(attrs, key);
    }
  }

  /** `$element->setAttribute($key, $value)`. */
  function SetAttribute(e: Node, key: string, value: string): Node
    requires e.Element?
  {
    Element(e.name, SetAttr(e.attrs, key, value), e.children)
  }

  /** The attributes set one after the other, in order. */
  function SetAttributes(e: Node, pairs: Attrs): (r: Node)
    requires e.Element?
    ensures r.Element? && r.name == e.name && r.children == e.children
    decreases |pairs|
  {
    if pairs == [] then e
    else
      var last := pairs[|pairs| - 1];
      SetAttribute(SetAttributes(e, pairs[..|pairs| - 1]), last.0, last.1)
  }

  /** In a list of distinct names, the prefix before the last entry is
      distinct too and does not carry the last entry's name. */
  lemma LastNameIsNew(pairs: Attrs)
    requires pairs != [] && DistinctNames(pairs)
    ensures DistinctNames(pairs[..|pairs| - 1])
    ensures !HasAttr(pairs[..|pairs| - 1], pairs[|pairs| - 1].0)
  {
    var init := pairs[..|pairs| - 1];
    HasAttrIndex(init, pairs[|pairs| - 1].0);
    forall i | 0 <= i < |init| ensures init[i] == pairs[i] {
    }
  }

  /** Setting distinct attributes on an element that has none gives it
      exactly those attributes, in insertion order. */
  lemma {:induction false} SetAttributesOnBare(name: string, children: seq<Node>, pairs: Attrs)
    requires DistinctNames(pairs)
    ensures SetAttributes(Element(name, [], children), pairs) == Element(name, pairs, children)
    decreases |pairs|
  {
    if pairs != [] {
      var init := pairs[..|pairs| - 1];
      var last := pairs[|pairs| - 1];
      LastNameIsNew(pairs);
      SetAttributesOnBare(name, children, init);
      assert SetAttr(init, last.0, last.1) == init + [last];
      assert init + [last] == pairs;
    }
  }

  /** `$dom->createElement($name)`. */
  function CreateElement(name: string): Node
  {
    Element(name, [], [])
  }

  /** `$dom->createElement($name, $value)`: libxml adds no text node for an
      empty value. */
  function CreateTextElement(name: string, value: string): Node
  {
    Element(name, [], if value == "" then [] else [Text(value)])
  }

  /** `$parent->appendChild($child)` for a child not yet in the tree. */
  function AppendChild(parent: Node, child: Node): Node
    requires parent.Element?
  {
    Element(parent.name, parent.attrs, parent.children + [child])
  }
}
