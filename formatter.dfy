/** `Formatter\Formatter`: turns field descriptors and items into XML
    elements. The functions state what each step builds; the methods of
    class `Formatter` build it step by step, as the PHP does, and are
    proved to build exactly that. */
module FeedFormatter {
  import opened Wrappers
  import opened PhpValues
  import opened FeedErrors
  import opened XmlTree
  import opened Fields
  import opened ResultSeq

  /** The concrete formatter, as its `getName()` answers. */
  datatype FormatName = Rss | Atom {
    function Key(): string {
      if Rss? then "rss" else "atom"
    }
  }

  /** What a formatter renders with: its format, the translator and
      translation domain it was constructed with, and `\DateTime::format`.
      Translation and date formatting are foreign calls, kept abstract. */
  datatype Env = Env(
    format: FormatName,
    translator: (Value, Option<string>) -> string,
    domain: Option<string>,
    formatDate: (int, string) -> string)

  /** An item: what each of its public methods returns, keyed by the
      method's name in ASCII lower case, since PHP finds a method whatever
      the case of the name it is called by. */
  type Item = m: map<string, Value> | forall k :: k in m ==> AsciiLower(k) == k

  /** What the formatter reads from its feed: `getItemFields()` and
      `getChannelFields()`. */
  datatype FeedFields = FeedFields(itemFields: seq<Field>, channelFields: seq<Field>)

  /** `$item->{$accessor}()`. */
  function Call(item: Item, accessor: string): Result<Value, Error> {
    var key := AsciiLower(accessor);
    if key in item then Ok(item[key]) else Err(UndefinedMethod(accessor))
  }

  /** A value passed where DOM expects a string. */
  function AsString(v: Value): Result<string, Error> {
    match ToXmlString(v)
    case Some(s) => Ok(s)
    case None => Err(TypeError)
  }

  /** A field name passed where DOM expects an element name. */
  function ElementName(n: FieldName): Result<string, Error> {
    match n
    case Named(s) => Ok(s)
    case ByFormat(_) => Err(TypeError)
  }

  /** A field name as `sprintf('%s', ...)` prints it. */
  function NameText(n: FieldName): string {
    match n
    case Named(s) => s
    case ByFormat(_) => "Array"
  }

  /** `translate($value)`: `$translator->trans($value, [], $domain)`. */
  function Translate(env: Env, v: Value): Value {
    Str(env.translator(v, env.domain))
  }

  // ---------------------------------------------------------------------
  // addAttributes

  /** An attribute key or value as `addAttributes` uses it: with an item
      that has an accessor of that name, the accessor's result; otherwise
      the literal. */
  function Resolve(item: Option<Item>, literal: string): Result<string, Error> {
    var key := AsciiLower(literal);
    if item.Some? && key in item.value then AsString(item.value[key]) else Ok(literal)
  }

  function ResolvePair(item: Option<Item>, pair: (string, string)): Result<(string, string), Error> {
    var key :- Resolve(item, pair.0);
    var value :- Resolve(item, pair.1);
    Ok((key, value))
  }

  function PairResolver(item: Option<Item>): ((string, string)) -> Result<(string, string), Error> {
    p => ResolvePair(item, p)
  }

  /** The attribute pairs `addAttributes` sets, in order. */
  function ResolvedAttributes(attributes: Attributes, item: Option<Item>): Result<Attrs, Error> {
    MapAll(PairResolver(item), attributes)
  }

  /** The element after `addAttributes($element, $field, $item)`. */
  function WithAttributes(e: Node, attributes: Attributes, item: Option<Item>): (r: Result<Node, Error>)
    requires e.Element?
    ensures r.Ok? ==> r.value.Element? && r.value.name == e.name && r.value.children == e.children
  {
    var pairs :- ResolvedAttributes(attributes, item);
    Ok(SetAttributes(e, pairs))
  }

  // ---------------------------------------------------------------------
  // formatWithOptions / formatItemField

  /** The value after the `translatable` option. */
  function TranslatedValue(env: Env, field: ItemField, value: Value): Value {
    if Truthy(field.Get("translatable")) then Translate(env, value) else value
  }

  /** The text branch's value after the `date_format` option. */
  function DatedValue(env: Env, field: ItemField, v: Value): Result<Value, Error> {
    var format := field.Get("date_format");
    if !Truthy(format) then Ok(v)
    else if !v.Date? then Err(NotADateTime(NameText(field.name)))
    else
      var pattern :- AsString(format);
      Ok(Str(env.formatDate(v.stamp, pattern)))
  }

  /** The element of the one branch that runs: cdata, else attribute, else
      (date-formatted) text. */
  function OptionBranch(env: Env, field: ItemField, v: Value): Result<Node, Error> {
    if Truthy(field.Get("cdata")) then
      var data :- AsString(v);
      var name :- ElementName(field.name);
      Ok(Element(name, [], [CData(data)]))
    else if Truthy(field.Get("attribute")) then
      if !Truthy(field.Get("attribute_name")) then Err(AttributeNameRequired)
      else
        var name :- ElementName(field.name);
        var key :- AsString(field.Get("attribute_name"));
        var text :- AsString(v);
        Ok(SetAttribute(CreateElement(name), key, text))
    else
      var dated :- DatedValue(env, field, v);
      var name :- ElementName(field.name);
      var text :- AsString(dated);
      Ok(CreateTextElement(name, text))
  }

  /** The element `formatWithOptions($field, $item, $value)` returns. */
  function OptionElement(env: Env, field: ItemField, item: Item, value: Value): Result<Node, Error> {
    var e :- OptionBranch(env, field, TranslatedValue(env, field, value));
    WithAttributes(e, field.attributes, Some(item))
  }

  function OptionFormatter(env: Env, field: ItemField, item: Item): Value -> Result<Node, Error> {
    v => OptionElement(env, field, item, v)
  }

  /** The values `formatItemField` formats: none for null, each element of
      an array, else the value alone. */
  function PlainValues(v: Value): seq<Value> {
    if v == Null then [] else if IsArray(v) then ArrayValues(v) else [v]
  }

  /** The elements `formatItemField($field, $item)` returns. */
  function ItemFieldElements(env: Env, field: ItemField, item: Item): Result<seq<Node>, Error> {
    var values :- Call(item, field.accessor);
    MapAll(OptionFormatter(env, field, item), PlainValues(values))
  }

  // ---------------------------------------------------------------------
  // formatMediaItemField

  /** The descriptors `formatMediaItemField` visits: none for null, the
      value alone when it is no array or has a `value` key, else each
      element of the array. */
  function MediaValues(v: Value): seq<Value> {
    if v == Null then []
    else if !IsArray(v) || HasKey(v, "value") then [v]
    else ArrayValues(v)
  }

  /** A well-formed media descriptor: `type`, `length` and
      `value` all set. */
  predicate IsMediaDescriptor(d: Value) {
    HasKey(d, "type") && HasKey(d, "length") && HasKey(d, "value")
  }

  /** The element name of a media field under a format. */
  function MediaElementName(field: MediaItemField, format: FormatName): string {
    field.Name().names[format.Key()]
  }

  /** The element built for one media descriptor. */
  function MediaElement(env: Env, field: MediaItemField, item: Item, d: Value): Result<Node, Error> {
    if d.Date? then Err(ObjectAsArray)
    else if !IsMediaDescriptor(d) then Err(InvalidMedia)
    else
      var e :- WithAttributes(CreateElement(MediaElementName(field, env.format)), field.attributes, Some(item));
      var url :- AsString(Offset(d, "value").value);
      var linked := match env.format
        case Rss => SetAttribute(e, "url", url)
        case Atom => SetAttribute(SetAttribute(e, "rel", "enclosure"), "href", url);
      var kind :- AsString(Offset(d, "type").value);
      var length :- AsString(Offset(d, "length").value);
      Ok(SetAttribute(SetAttribute(linked, "type", kind), "length", length))
  }

  function MediaFormatter(env: Env, field: MediaItemField, item: Item): Value -> Result<Node, Error> {
    d => MediaElement(env, field, item, d)
  }

  /** The elements `formatMediaItemField($field, $item)` returns. */
  function MediaItemFieldElements(env: Env, field: MediaItemField, item: Item): Result<seq<Node>, Error> {
    var values :- Call(item, field.accessor);
    MapAll(MediaFormatter(env, field, item), MediaValues(values))
  }

  // ---------------------------------------------------------------------
  // formatGroupItemField / format

  /** What one child of a group contributes. The switch over the child's
      class only has a media and a plain case; for any other child (a
      nested group) `$itemElements` still holds the nodes the previous
      child appended, or is undefined for the first child, and appending
      those again leaves the group's children as they were: such a child
      contributes nothing. */
  function ChildElements(env: Env, child: Field, item: Item): Result<seq<Node>, Error> {
    match child
    case Media(m) => MediaItemFieldElements(env, m, item)
    case Plain(f) => ItemFieldElements(env, f, item)
    case _ => Ok([])
  }

  function ChildFormatter(env: Env, item: Item): Field -> Result<seq<Node>, Error> {
    c => ChildElements(env, c, item)
  }

  /** The elements `formatGroupItemField($field, $item)` returns. */
  function GroupElements(env: Env, g: GroupField, item: Item): Result<seq<Node>, Error> {
    var e :- WithAttributes(CreateElement(g.name), g.attributes, Some(item));
    var children :- FlatMapAll(ChildFormatter(env, item), g.itemFields);
    Ok([Element(e.name, e.attrs, children)])
  }

  /** What `format($field, $item)` returns: the formatted elements, or
      None (null) for a class the dispatch does not name. A plain channel
      field is refused by the `ItemFieldInterface` type declaration. */
  function Formatted(env: Env, field: Field, item: Item): Result<Option<seq<Node>>, Error> {
    match field
    case Group(g) =>
      if g.kind == ItemGroup then
        var es :- GroupElements(env, g, item);
        Ok(Some(es))
      else Ok(None)
    case Media(m) =>
      var es :- MediaItemFieldElements(env, m, item);
      Ok(Some(es))
    case Plain(f) =>
      var es :- ItemFieldElements(env, f, item);
      Ok(Some(es))
    case Channel(_) => Err(TypeError)
  }

  // ---------------------------------------------------------------------
  // addChannelFields

  /** `createElement($field->getName(), $field->getValue())` with the
      field's literal attributes; only a channel field has `getValue`. */
  function ChannelValueElement(f: Field): Result<Node, Error> {
    match f
    case Channel(c) =>
      var text :- AsString(c.value);
      WithAttributes(CreateTextElement(c.name, text), c.attributes, None)
    case _ => Err(UndefinedMethod("getValue"))
  }

  function ChannelChildFormatter(): Field -> Result<Node, Error> {
    f => ChannelValueElement(f)
  }

  /** The element `addChannelFields` appends for one channel field: a
      group channel field becomes an element holding one element per child;
      any other field a text element. */
  function ChannelFieldElement(f: Field): Result<Node, Error> {
    if f.Group? && f.group.kind == ChannelGroup then
      var children :- MapAll(ChannelChildFormatter(), f.group.itemFields);
      WithAttributes(Element(f.group.name, [], children), f.group.attributes, None)
    else ChannelValueElement(f)
  }

  function ChannelFieldFormatter(): Field -> Result<Node, Error> {
    f => ChannelFieldElement(f)
  }

  /** The channel after `addChannelFields($channel)`. */
  function WithChannelFields(channel: Node, fields: seq<Field>): Result<Node, Error>
    requires channel.Element?
  {
    var es :- MapAll(ChannelFieldFormatter(), fields);
    Ok(Element(channel.name, channel.attrs, channel.children + es))
  }

  // ---------------------------------------------------------------------

  class Formatter {
    const env: Env
    /** The protected `$feed`: null until a formatter assigns it. */
    var feed: Option<FeedFields>
    var itemFields: seq<Field>

    /** `new Formatter($translator, $domain)`, as the formatter of `format`:
        no feed is set and no item field is held. */
    constructor (format: FormatName, translator: (Value, Option<string>) -> string,
                 domain: Option<string>, formatDate: (int, string) -> string)
      ensures env == Env(format, translator, domain, formatDate)
      ensures feed == None && itemFields == []
    {
      env := Env(format, translator, domain, formatDate);
      feed := None;
      itemFields := [];
    }

    /** `$this->feed = $feed`, the assignment a concrete formatter makes to
        the protected property before `initialize`. */
    method SetFeed(f: FeedFields)
      modifies this`feed
      ensures feed == Some(f)
    {
      feed := Some(f);
    }

    /** `initialize()`: the feed's item fields are appended to the ones
        already held, so a second call appends them again; without a feed
        `getItemFields()` is called on null. */
    method Initialize() returns (r: Result<(), Error>)
      modifies this`itemFields
      ensures feed.None? ==> r == Err(CallOnNull) && itemFields == old(itemFields)
      ensures feed.Some? ==> r == Ok(()) && itemFields == old(itemFields) + feed.value.itemFields
    {
      if feed.None? {
        return Err(CallOnNull);
      }
      itemFields := itemFields + feed.value.itemFields;
      return Ok(());
    }

    /** `addAttributes($element, $field, $item)` for a field whose
        `getAttributes()` is `attributes`. */
    method AddAttributes(element: Node, attributes: Attributes, item: Option<Item>) returns (r: Result<Node, Error>)
      requires element.Element?
      ensures r == WithAttributes(element, attributes, item)
    {
      var e := element;
      ghost var pairs: Attrs := [];
      var i := 0;
      while i < |attributes|
        invariant 0 <= i <= |attributes|
        invariant ResolvedAttributes(attributes[..i], item) == Ok(pairs)
        invariant e == SetAttributes(element, pairs)
      {
        var key := Resolve(item, attributes[i].0);
        if key.Err? {
          MapAllStepErr(PairResolver(item), attributes, i, pairs);
          return Err(key.error);
        }
        var value := Resolve(item, attributes[i].1);
        if value.Err? {
          MapAllStepErr(PairResolver(item), attributes, i, pairs);
          return Err(value.error);
        }
        MapAllStep(PairResolver(item), attributes, i, pairs, (key.value, value.value));
        e := SetAttribute(e, key.value, value.value);
        assert (pairs + [(key.value, value.value)])[..|pairs|] == pairs;
        pairs := pairs + [(key.value, value.value)];
        i := i + 1;
      }
      assert attributes[..i] == attributes;
      return Ok(e);
    }

    /** `formatWithOptions($field, $item, $value)`. */
    method FormatWithOptions(field: ItemField, item: Item, value: Value) returns (r: Result<Node, Error>)
      ensures r == OptionElement(env, field, item, value)
    {
      var v := value;
      if Truthy(field.Get("translatable")) {
        v := Translate(env, v);
      }
      assert v == TranslatedValue(env, field, value);
      var element: Node;
      if Truthy(field.Get("cdata")) {
        var data := AsString(v);
        if data.Err? { return Err(data.error); }
        var name := ElementName(field.name);
        if name.Err? { return Err(name.error); }
        element := CreateElement(name.value);
        element := AppendChild(element, CData(data.value));
        assert element.children == [] + [CData(data.value)] == [CData(data.value)];
        assert OptionBranch(env, field, v) == Ok(element);
      } else if Truthy(field.Get("attribute")) {
        if !Truthy(field.Get("attribute_name")) {
          return Err(AttributeNameRequired);
        }
        var name := ElementName(field.name);
        if name.Err? { return Err(name.error); }
        element := CreateElement(name.value);
        var key := AsString(field.Get("attribute_name"));
        if key.Err? { return Err(key.error); }
        var text := AsString(v);
        if text.Err? { return Err(text.error); }
        element := SetAttribute(element, key.value, text.value);
        assert OptionBranch(env, field, v) == Ok(element);
      } else {
        var format := field.Get("date_format");
        ghost var undated := v;
        if Truthy(format) {
          if !v.Date? {
            return Err(NotADateTime(NameText(field.name)));
          }
          var pattern := AsString(format);
          if pattern.Err? { return Err(pattern.error); }
          v := Str(env.formatDate(v.stamp, pattern.value));
        }
        var name := ElementName(field.name);
        if name.Err? { return Err(name.error); }
        var text := AsString(v);
        if text.Err? { return Err(text.error); }
        element := CreateTextElement(name.value, text.value);
        assert DatedValue(env, field, undated) == Ok(v);
        assert OptionBranch(env, field, undated) == Ok(element);
      }
      r := AddAttributes(element, field.attributes, Some(item));
    }

    /** `formatItemField($field, $item)`. */
    method FormatItemField(field: ItemField, item: Item) returns (r: Result<seq<Node>, Error>)
      ensures r == ItemFieldElements(env, field, item)
    {
      if AsciiLower(field.accessor) !in item {
        return Err(UndefinedMethod(field.accessor));
      }
      var values := item[AsciiLower(field.accessor)];
      if values == Null {
        return Ok([]);
      }
      var vs: seq<Value>;
      if !IsArray(values) {
        vs := [values];
      } else {
        vs := ArrayValues(values);
      }
      assert vs == PlainValues(values);
      r := FormatValues(field, item, vs);
    }

    /** The `foreach` of `formatItemField`: one element per value, in order. */
    method FormatValues(field: ItemField, item: Item, vs: seq<Value>) returns (r: Result<seq<Node>, Error>)
      ensures r == MapAll(OptionFormatter(env, field, item), vs)
    {
      var elements: seq<Node> := [];
      var i := 0;
      while i < |vs|
        invariant 0 <= i <= |vs|
        invariant MapAll(OptionFormatter(env, field, item), vs[..i]) == Ok(elements)
      {
        var element := FormatWithOptions(field, item, vs[i]);
        if element.Err? {
          MapAllStepErr(OptionFormatter(env, field, item), vs, i, elements);
          return Err(element.error);
        }
        MapAllStep(OptionFormatter(env, field, item), vs, i, elements, element.value);
        elements := elements + [element.value];
        i := i + 1;
      }
      assert vs[..i] == vs;
      return Ok(elements);
    }

    /** The body of the `foreach` in `formatMediaItemField`, for one descriptor. */
    method FormatMediaValue(field: MediaItemField, item: Item, d: Value) returns (r: Result<Node, Error>)
      ensures r == MediaElement(env, field, item, d)
    {
      if d.Date? {
        return Err(ObjectAsArray);
      }
      if !HasKey(d, "type") || !HasKey(d, "length") || !HasKey(d, "value") {
        return Err(InvalidMedia);
      }
      var elementName := field.Name().names[env.format.Key()];
      var element := CreateElement(elementName);
      var added := AddAttributes(element, field.attributes, Some(item));
      if added.Err? { return Err(added.error); }
      element := added.value;
      var url := AsString(Offset(d, "value").value);
      if url.Err? { return Err(url.error); }
      match env.format {
        case Rss =>
          element := SetAttribute(element, "url", url.value);
        case Atom =>
          element := SetAttribute(element, "rel", "enclosure");
          element := SetAttribute(element, "href", url.value);
      }
      var kind := AsString(Offset(d, "type").value);
      if kind.Err? { return Err(kind.error); }
      element := SetAttribute(element, "type", kind.value);
      var length := AsString(Offset(d, "length").value);
      if length.Err? { return Err(length.error); }
      element := SetAttribute(element, "length", length.value);
      return Ok(element);
    }

    /** `formatMediaItemField($field, $item)`. */
    method FormatMediaItemField(field: MediaItemField, item: Item) returns (r: Result<seq<Node>, Error>)
      ensures r == MediaItemFieldElements(env, field, item)
    {
      if AsciiLower(field.accessor) !in item {
        return Err(UndefinedMethod(field.accessor));
      }
      var values := item[AsciiLower(field.accessor)];
      if values == Null {
        return Ok([]);
      }
      var vs: seq<Value>;
      if !IsArray(values) || HasKey(values, "value") {
        vs := [values];
      } else {
        vs := ArrayValues(values);
      }
      assert vs == MediaValues(values);
      r := FormatMediaValues(field, item, vs);
    }

    /** The `foreach` of `formatMediaItemField`: one element per descriptor, in order. */
    method FormatMediaValues(field: MediaItemField, item: Item, vs: seq<Value>) returns (r: Result<seq<Node>, Error>)
      ensures r == MapAll(MediaFormatter(env, field, item), vs)
    {
      var elements: seq<Node> := [];
      var i := 0;
      while i < |vs|
        invariant 0 <= i <= |vs|
        invariant MapAll(MediaFormatter(env, field, item), vs[..i]) == Ok(elements)
      {
        var element := FormatMediaValue(field, item, vs[i]);
        if element.Err? {
          MapAllStepErr(MediaFormatter(env, field, item), vs, i, elements);
          return Err(element.error);
        }
        MapAllStep(MediaFormatter(env, field, item), vs, i, elements, element.value);
        elements := elements + [element.value];
        i := i + 1;
      }
      assert vs[..i] == vs;
      return Ok(elements);
    }

    /** `formatGroupItemField($field, $item)`. */
    method FormatGroupItemField(g: GroupField, item: Item) returns (r: Result<seq<Node>, Error>)
      ensures r == GroupElements(env, g, item)
    {
      var element := CreateElement(g.name);
      var added := AddAttributes(element, g.attributes, Some(item));
      if added.Err? { return Err(added.error); }
      element := added.value;
      ghost var bare := element;
      var i := 0;
      while i < |g.itemFields|
        invariant 0 <= i <= |g.itemFields|
        invariant element.Element? && element.name == bare.name && element.attrs == bare.attrs
        invariant FlatMapAll(ChildFormatter(env, item), g.itemFields[..i]) == Ok(element.children)
      {
        var itemElements := FormatChild(g.itemFields[i], item);
        assert ChildFormatter(env, item)(g.itemFields[i]) == itemElements;
        if itemElements.Err? {
          FlatMapAllStepErr(ChildFormatter(env, item), g.itemFields, i, element.children);
          return Err(itemElements.error);
        }
        FlatMapAllStep(ChildFormatter(env, item), g.itemFields, i, element.children, itemElements.value);
        element := AppendChildren(element, itemElements.value);
        i := i + 1;
      }
      assert g.itemFields[..i] == g.itemFields;
      return Ok([element]);
    }

    /** The `switch (get_class($itemField))` inside the group loop. */
    method FormatChild(child: Field, item: Item) returns (r: Result<seq<Node>, Error>)
      ensures r == ChildElements(env, child, item)
    {
      match child {
        case Media(m) =>
          r := FormatMediaItemField(m, item);
        case Plain(f) =>
          r := FormatItemField(f, item);
        case _ =>
          r := Ok([]);
      }
    }

    /** `foreach ($nodes as $node) { $element->appendChild($node); }`. */
    method AppendChildren(element: Node, nodes: seq<Node>) returns (e: Node)
      requires element.Element?
      ensures e == Element(element.name, element.attrs, element.children + nodes)
    {
      e := element;
      var j := 0;
      while j < |nodes|
        invariant 0 <= j <= |nodes|
        invariant e == Element(element.name, element.attrs, element.children + nodes[..j])
      {
        e := AppendChild(e, nodes[j]);
        assert nodes[..j + 1] == nodes[..j] + [nodes[j]];
        j := j + 1;
      }
      assert nodes[..j] == nodes;
    }

    /** `format($field, $item)`: dispatch on the field's class. */
    method Format(field: Field, item: Item) returns (r: Result<Option<seq<Node>>, Error>)
      ensures r == Formatted(env, field, item)
    {
      match field {
        case Group(g) =>
          if g.kind != ItemGroup {
            return Ok(None);
          }
          var es := FormatGroupItemField(g, item);
          if es.Err? { return Err(es.error); }
          return Ok(Some(es.value));
        case Media(m) =>
          var es := FormatMediaItemField(m, item);
          if es.Err? { return Err(es.error); }
          return Ok(Some(es.value));
        case Plain(f) =>
          var es := FormatItemField(f, item);
          if es.Err? { return Err(es.error); }
          return Ok(Some(es.value));
        case Channel(_) =>
          return Err(TypeError);
      }
    }

    /** The body of the `foreach` in `addChannelFields`, for one field:
        the element it appends to the channel. */
    method FormatChannelField(field: Field) returns (r: Result<Node, Error>)
      ensures r == ChannelFieldElement(field)
    {
      var parent: Node;
      if field.Group? && field.group.kind == ChannelGroup {
        var children := field.group.itemFields;
        parent := CreateElement(field.group.name);
        var j := 0;
        while j < |children|
          invariant 0 <= j <= |children|
          invariant parent.Element? && parent.name == field.group.name && parent.attrs == []
          invariant MapAll(ChannelChildFormatter(), children[..j]) == Ok(parent.children)
        {
          var childField := children[j];
          if !childField.Channel? {
            MapAllStepErr(ChannelChildFormatter(), children, j, parent.children);
            return Err(UndefinedMethod("getValue"));
          }
          var text := AsString(childField.channel.value);
          if text.Err? {
            MapAllStepErr(ChannelChildFormatter(), children, j, parent.children);
            return Err(text.error);
          }
          var child := CreateTextElement(childField.channel.name, text.value);
          var added := AddAttributes(child, childField.channel.attributes, None);
          if added.Err? {
            MapAllStepErr(ChannelChildFormatter(), children, j, parent.children);
            return Err(added.error);
          }
          MapAllStep(ChannelChildFormatter(), children, j, parent.children, added.value);
          parent := AppendChild(parent, added.value);
          j := j + 1;
        }
        assert children[..j] == children;
      } else {
        if !field.Channel? {
          return Err(UndefinedMethod("getValue"));
        }
        var text := AsString(field.channel.value);
        if text.Err? {
          return Err(text.error);
        }
        parent := CreateTextElement(field.channel.name, text.value);
      }
      r := AddAttributes(parent, field.GetAttributes(), None);
    }

    /** `addChannelFields($channel)`: one element per channel field of the
        feed, in order, appended to the channel; without a feed
        `getChannelFields()` is called on null. */
    method AddChannelFields(channel: Node) returns (r: Result<Node, Error>)
      requires channel.Element?
      ensures feed.None? ==> r == Err(CallOnNull)
      ensures feed.Some? ==> r == WithChannelFields(channel, feed.value.channelFields)
    {
      if feed.None? {
        return Err(CallOnNull);
      }
      var fields := feed.value.channelFields;
      var ch := channel;
      ghost var appended: seq<Node> := [];
      var i := 0;
      while i < |fields|
        invariant 0 <= i <= |fields|
        invariant MapAll(ChannelFieldFormatter(), fields[..i]) == Ok(appended)
        invariant ch == Element(channel.name, channel.attrs, channel.children + appended)
      {
        var element := FormatChannelField(fields[i]);
        if element.Err? {
          MapAllStepErr(ChannelFieldFormatter(), fields, i, appended);
          return Err(element.error);
        }
        MapAllStep(ChannelFieldFormatter(), fields, i, appended, element.value);
        ch := AppendChild(ch, element.value);
        appended := appended + [element.value];
        i := i + 1;
      }
      assert fields[..i] == fields;
      return Ok(ch);
    }
  }
}
