/** What the formatter promises about the elements it builds. */
module FormatterProperties {
  import opened Wrappers
  import opened PhpValues
  import opened FeedErrors
  import opened XmlTree
  import opened Fields
  import opened ResultSeq
  import opened FeedFormatter

  // ---------------------------------------------------------------------
  // Plain item fields

  /** A plain field yields one element per value, in order, or fails as a
      whole: null gives nothing, a scalar exactly one element, an array one
      element per entry. */
  lemma {:induction false} ItemFieldElementsInOrder(env: Env, field: ItemField, item: Item)
    requires AsciiLower(field.accessor) in item
    ensures var r := ItemFieldElements(env, field, item);
            var vs := PlainValues(item[AsciiLower(field.accessor)]);
            (r.Ok? <==> forall i :: 0 <= i < |vs| ==> OptionElement(env, field, item, vs[i]).Ok?) &&
            (r.Ok? ==> |r.value| == |vs| &&
                       forall i :: 0 <= i < |vs| ==> Ok(r.value[i]) == OptionElement(env, field, item, vs[i]))
  {
    var vs := PlainValues(item[AsciiLower(field.accessor)]);
    MapAllSpec(OptionFormatter(env, field, item), vs);
  }

  /** The values a plain field formats: none for null, the value alone for
      a scalar, the entries of an array in order. */
  lemma PlainValuesShape(v: Value)
    ensures v == Null ==> PlainValues(v) == []
    ensures v != Null && !IsArray(v) ==> PlainValues(v) == [v]
    ensures v.List? ==> PlainValues(v) == v.items
    ensures v.Map? ==> |PlainValues(v)| == |v.entries|
  {
  }

  /** An accessor the item does not have, in any case, is an
      undefined-method error naming the accessor as spelled. */
  lemma MissingAccessorFails(env: Env, field: ItemField, m: MediaItemField, item: Item)
    ensures AsciiLower(field.accessor) !in item ==> ItemFieldElements(env, field, item) == Err(UndefinedMethod(field.accessor))
    ensures AsciiLower(m.accessor) !in item ==> MediaItemFieldElements(env, m, item) == Err(UndefinedMethod(m.accessor))
  {
  }

  /** A scalar yields exactly the one element its value formats to. */
  lemma {:induction false} ScalarYieldsOneElement(env: Env, field: ItemField, item: Item)
    requires AsciiLower(field.accessor) in item && item[AsciiLower(field.accessor)] != Null && !IsArray(item[AsciiLower(field.accessor)])
    ensures var r := ItemFieldElements(env, field, item);
            var e := OptionElement(env, field, item, item[AsciiLower(field.accessor)]);
            (r.Ok? <==> e.Ok?) && (r.Ok? ==> r.value == [e.value])
  {
    var v := item[AsciiLower(field.accessor)];
    assert PlainValues(v) == [] + [v];
    MapAllSnoc(OptionFormatter(env, field, item), [], v);
  }

  // ---------------------------------------------------------------------
  // Options: translation first, then exactly one of cdata > attribute >
  // date_format > text

  /** With `translatable`, the value is replaced by its translation before
      any branch sees it: values with the same translation format alike. */
  lemma TranslationComesFirst(env: Env, field: ItemField, item: Item, a: Value, b: Value)
    requires Truthy(field.Get("translatable"))
    requires env.translator(a, env.domain) == env.translator(b, env.domain)
    ensures OptionElement(env, field, item, a) == OptionElement(env, field, item, b)
  {
  }

  /** `cdata` wins: the element holds one CDATA section of the (translated)
      value, whatever `attribute` and `date_format` say. */
  lemma CdataBranch(env: Env, field: ItemField, item: Item, value: Value)
    requires Truthy(field.Get("cdata"))
    ensures var r := OptionElement(env, field, item, value);
            var v := TranslatedValue(env, field, value);
            (r.Ok? <==> ToXmlString(v).Some? && field.name.Named? &&
                        ResolvedAttributes(field.attributes, Some(item)).Ok?) &&
            (r.Ok? ==> r.value.name == field.name.s && r.value.children == [CData(ToXmlString(v).value)])
  {
  }

  /** With `attribute` (and no `cdata`) a falsy `attribute_name` is an
      error; otherwise the element is empty and, before the field's own
      attributes, carries the value under the attribute name. */
  lemma AttributeBranch(env: Env, field: ItemField, item: Item, value: Value)
    requires !Truthy(field.Get("cdata")) && Truthy(field.Get("attribute"))
    ensures !Truthy(field.Get("attribute_name")) ==>
              OptionElement(env, field, item, value) == Err(AttributeNameRequired)
    ensures var r := OptionElement(env, field, item, value);
            var v := TranslatedValue(env, field, value);
            r.Ok? ==> r.value.children == [] && field.name.Named? && r.value.name == field.name.s &&
                      (field.attributes == [] ==>
                         r.value.attrs == [(ToXmlString(field.Get("attribute_name")).value, ToXmlString(v).value)])
  {
  }

  /** With `date_format` (and neither `cdata` nor `attribute`) a value that
      is not a date is an error naming the field; a date becomes the text
      of its formatting. */
  lemma DateFormatBranch(env: Env, field: ItemField, item: Item, value: Value)
    requires !Truthy(field.Get("cdata")) && !Truthy(field.Get("attribute"))
    requires Truthy(field.Get("date_format"))
    ensures var v := TranslatedValue(env, field, value);
            !v.Date? ==> OptionElement(env, field, item, value) == Err(NotADateTime(NameText(field.name)))
    ensures var v := TranslatedValue(env, field, value);
            v.Date? && ToXmlString(field.Get("date_format")).None? ==> OptionElement(env, field, item, value) == Err(TypeError)
    ensures var r := OptionElement(env, field, item, value);
            var v := TranslatedValue(env, field, value);
            r.Ok? ==> v.Date? && field.name.Named? && r.value.name == field.name.s &&
                      ToXmlString(field.Get("date_format")).Some? &&
                      r.value.children == CreateTextElement("", env.formatDate(v.stamp, ToXmlString(field.Get("date_format")).value)).children
  {
  }

  /** With none of the three options the element is a text element holding
      the (translated) value as a string. */
  lemma TextBranch(env: Env, field: ItemField, item: Item, value: Value)
    requires !Truthy(field.Get("cdata")) && !Truthy(field.Get("attribute")) && !Truthy(field.Get("date_format"))
    ensures var r := OptionElement(env, field, item, value);
            var v := TranslatedValue(env, field, value);
            (r.Ok? <==> ToXmlString(v).Some? && field.name.Named? &&
                        ResolvedAttributes(field.attributes, Some(item)).Ok?) &&
            (r.Ok? ==> r.value.name == field.name.s &&
                       r.value.children == CreateTextElement("", ToXmlString(v).value).children)
  {
  }

  // ---------------------------------------------------------------------
  // addAttributes

  /** Without an item, attributes are taken literally. */
  lemma {:induction false} LiteralAttributesWithoutItem(attributes: Attributes)
    ensures ResolvedAttributes(attributes, None) == Ok(attributes)
    decreases |attributes|
  {
    if attributes != [] {
      var init := attributes[..|attributes| - 1];
      LiteralAttributesWithoutItem(init);
      MapAllSnoc(PairResolver(None), init, attributes[|attributes| - 1]);
      assert init + [attributes[|attributes| - 1]] == attributes;
    }
  }

  /** With an item, each key and each value is resolved on its own: the
      result of the accessor of that name when the item has one, else the
      literal; order is kept. */
  lemma {:induction false} AttributesResolvedPairwise(attributes: Attributes, item: Item)
    ensures var r := ResolvedAttributes(attributes, Some(item));
            (r.Ok? <==> forall i :: 0 <= i < |attributes| ==>
                          Resolve(Some(item), attributes[i].0).Ok? && Resolve(Some(item), attributes[i].1).Ok?) &&
            (r.Ok? ==> |r.value| == |attributes| &&
                       forall i :: 0 <= i < |attributes| ==>
                         r.value[i] == (Resolve(Some(item), attributes[i].0).value, Resolve(Some(item), attributes[i].1).value))
  {
    MapAllSpec(PairResolver(Some(item)), attributes);
  }

  /** A key or value names an accessor exactly when the item has a method
      of that name, in any case; otherwise it is kept as spelled. */
  lemma ResolveChoosesAccessor(item: Item, literal: string)
    ensures AsciiLower(literal) in item ==> Resolve(Some(item), literal) == AsString(item[AsciiLower(literal)])
    ensures AsciiLower(literal) !in item ==> Resolve(Some(item), literal) == Ok(literal)
    ensures Resolve(None, literal) == Ok(literal)
  {
  }

  /** Names that differ only in ASCII case call the same method, both as
      a field's accessor and as an attribute key or value. */
  lemma AccessorNameIgnoresCase(item: Item, a: string, b: string)
    requires AsciiLower(a) == AsciiLower(b)
    ensures Call(item, a).Ok? <==> Call(item, b).Ok?
    ensures Call(item, a).Ok? ==> Call(item, a) == Call(item, b)
    ensures AsciiLower(a) in item ==> Resolve(Some(item), a) == Resolve(Some(item), b)
  {
  }

  /** On an element without attributes, distinct resolved keys give
      exactly the resolved attributes, in insertion order. */
  lemma AttributesInInsertionOrder(name: string, children: seq<Node>, attributes: Attributes, item: Option<Item>)
    requires ResolvedAttributes(attributes, item).Ok?
    requires DistinctNames(ResolvedAttributes(attributes, item).value)
    ensures WithAttributes(Element(name, [], children), attributes, item) ==
            Ok(Element(name, ResolvedAttributes(attributes, item).value, children))
  {
    SetAttributesOnBare(name, children, ResolvedAttributes(attributes, item).value);
  }

  // ---------------------------------------------------------------------
  // Media item fields

  /** The media element is `enclosure` under rss and `link` under atom. */
  lemma MediaElementNames(field: MediaItemField)
    ensures MediaElementName(field, Rss) == "enclosure"
    ensures MediaElementName(field, Atom) == "link"
  {
  }

  /** What a media accessor's result is read as: null as no descriptor, a
      non-array or an array with a `value` key as one descriptor, any other
      array as a list of descriptors. */
  lemma MediaValuesShape(v: Value)
    ensures v == Null ==> MediaValues(v) == []
    ensures v != Null && (!IsArray(v) || HasKey(v, "value")) ==> MediaValues(v) == [v]
    ensures IsArray(v) && !HasKey(v, "value") ==> MediaValues(v) == ArrayValues(v)
  {
  }

  /** One element per descriptor, in order; a descriptor lacking `type`,
      `length` or `value` makes the whole field fail. */
  lemma {:induction false} MediaItemFieldElementsInOrder(env: Env, field: MediaItemField, item: Item)
    requires AsciiLower(field.accessor) in item
    ensures var r := MediaItemFieldElements(env, field, item);
            var ds := MediaValues(item[AsciiLower(field.accessor)]);
            (r.Ok? ==> forall i :: 0 <= i < |ds| ==> IsMediaDescriptor(ds[i])) &&
            (r.Ok? <==> forall i :: 0 <= i < |ds| ==> MediaElement(env, field, item, ds[i]).Ok?) &&
            (r.Ok? ==> |r.value| == |ds| &&
                       forall i :: 0 <= i < |ds| ==> Ok(r.value[i]) == MediaElement(env, field, item, ds[i]))
  {
    var ds := MediaValues(item[AsciiLower(field.accessor)]);
    MapAllSpec(MediaFormatter(env, field, item), ds);
  }

  /** A descriptor lacking a key is reported as invalid media; a
      `\DateTime` descriptor already fails at the first `isset`. */
  lemma InvalidDescriptorFails(env: Env, field: MediaItemField, item: Item, d: Value)
    requires !IsMediaDescriptor(d)
    ensures d.Date? ==> MediaElement(env, field, item, d) == Err(ObjectAsArray)
    ensures !d.Date? ==> MediaElement(env, field, item, d) == Err(InvalidMedia)
  {
  }

  /** A media element has no children; it carries `type` and `length` from
      the descriptor and, under rss, `url`, under atom, `rel="enclosure"`
      and `href`, all from the descriptor's `value`. These are set after
      the field's attributes, so they win over same-named ones. */
  lemma MediaElementAttributes(env: Env, field: MediaItemField, item: Item, d: Value)
    requires MediaElement(env, field, item, d).Ok?
    ensures var e := MediaElement(env, field, item, d).value;
            IsMediaDescriptor(d) &&
            e.Element? && e.name == MediaElementName(field, env.format) && e.children == [] &&
            GetAttr(e.attrs, "type") == ToXmlString(Offset(d, "type").value) &&
            GetAttr(e.attrs, "length") == ToXmlString(Offset(d, "length").value) &&
            (env.format == Rss ==> GetAttr(e.attrs, "url") == ToXmlString(Offset(d, "value").value)) &&
            (env.format == Atom ==>
               GetAttr(e.attrs, "rel") == Some("enclosure") &&
               GetAttr(e.attrs, "href") == ToXmlString(Offset(d, "value").value))
  {
    var based := WithAttributes(CreateElement(MediaElementName(field, env.format)), field.attributes, Some(item)).value;
    var url := AsString(Offset(d, "value").value).value;
    var kind := AsString(Offset(d, "type").value).value;
    var length := AsString(Offset(d, "length").value).value;
    var linked := match env.format
      case Rss => SetAttribute(based, "url", url)
      case Atom => SetAttribute(SetAttribute(based, "rel", "enclosure"), "href", url);
    var typed := SetAttribute(linked, "type", kind);
    SetAttrGet(typed.attrs, "length", length, "type");
    SetAttrGet(typed.attrs, "length", length, "length");
    SetAttrGet(linked.attrs, "type", kind, "type");
    match env.format {
      case Rss =>
        SetAttrGet(based.attrs, "url", url, "url");
        SetAttrGet(linked.attrs, "type", kind, "url");
        SetAttrGet(typed.attrs, "length", length, "url");
      case Atom =>
        var rel := SetAttribute(based, "rel", "enclosure");
        SetAttrGet(based.attrs, "rel", "enclosure", "rel");
        SetAttrGet(rel.attrs, "href", url, "rel");
        SetAttrGet(rel.attrs, "href", url, "href");
        SetAttrGet(linked.attrs, "type", kind, "rel");
        SetAttrGet(linked.attrs, "type", kind, "href");
        SetAttrGet(typed.attrs, "length", length, "rel");
        SetAttrGet(typed.attrs, "length", length, "href");
    }
  }

  // ---------------------------------------------------------------------
  // Group item fields and format

  /** A group yields exactly one element, named after the group, carrying
      its attributes; its children are each child's elements concatenated
      in child order. */
  lemma {:induction false} GroupYieldsOneElement(env: Env, g: GroupField, item: Item)
    requires GroupElements(env, g, item).Ok?
    ensures var r := GroupElements(env, g, item).value;
            var kids := MapAll(ChildFormatter(env, item), g.itemFields);
            ResolvedAttributes(g.attributes, Some(item)).Ok? && kids.Ok? &&
            |r| == 1 && r[0].Element? && r[0].name == g.name &&
            r[0].attrs == SetAttributes(CreateElement(g.name), ResolvedAttributes(g.attributes, Some(item)).value).attrs &&
            r[0].children == Flatten(kids.value)
  {
    FlatMapAllIsFlatten(ChildFormatter(env, item), g.itemFields);
  }

  /** A group fails exactly when its attributes or one of its children fail. */
  lemma {:induction false} GroupFailsWithAChild(env: Env, g: GroupField, item: Item)
    requires ResolvedAttributes(g.attributes, Some(item)).Ok?
    ensures GroupElements(env, g, item).Ok? <==>
            forall i :: 0 <= i < |g.itemFields| ==> ChildElements(env, g.itemFields[i], item).Ok?
  {
    FlatMapAllIsFlatten(ChildFormatter(env, item), g.itemFields);
    MapAllSpec(ChildFormatter(env, item), g.itemFields);
  }

  /** Only plain and media children contribute; a nested group contributes
      nothing. */
  lemma NestedGroupContributesNothing(env: Env, child: GroupField, item: Item)
    ensures ChildElements(env, Group(child), item) == Ok([])
  {
  }

  /** `format` dispatches on the field's kind, and a group channel field
      passed as an item field gives null. */
  lemma FormatDispatch(env: Env, field: Field, item: Item)
    ensures field.Plain? ==> Formatted(env, field, item) == MapSome(ItemFieldElements(env, field.item, item))
    ensures field.Media? ==> Formatted(env, field, item) == MapSome(MediaItemFieldElements(env, field.media, item))
    ensures field.Group? && field.group.kind == ItemGroup ==>
              Formatted(env, field, item) == MapSome(GroupElements(env, field.group, item))
    ensures field.Group? && field.group.kind == ChannelGroup ==> Formatted(env, field, item) == Ok(None)
  {
  }

  function MapSome(r: Result<seq<Node>, Error>): Result<Option<seq<Node>>, Error> {
    match r
    case Ok(v) => Ok(Some(v))
    case Err(e) => Err(e)
  }

  // ---------------------------------------------------------------------
  // addChannelFields

  /** One element per channel field, in order, appended after the
      channel's existing children; any failing field fails the whole. */
  lemma {:induction false} ChannelFieldsAppendedInOrder(channel: Node, fields: seq<Field>)
    requires channel.Element?
    ensures var r := WithChannelFields(channel, fields);
            (r.Ok? <==> forall i :: 0 <= i < |fields| ==> ChannelFieldElement(fields[i]).Ok?) &&
            (r.Ok? ==> r.value.name == channel.name && r.value.attrs == channel.attrs &&
                       |r.value.children| == |channel.children| + |fields| &&
                       r.value.children[..|channel.children|] == channel.children &&
                       forall i :: 0 <= i < |fields| ==>
                         Ok(r.value.children[|channel.children| + i]) == ChannelFieldElement(fields[i]))
  {
    MapAllSpec(ChannelFieldFormatter(), fields);
  }

  /** A channel field is a text element of its value carrying its
      attributes literally. */
  lemma ChannelValueLiteral(c: ChannelField)
    requires ToXmlString(c.value).Some?
    ensures ChannelValueElement(Channel(c)) ==
            Ok(SetAttributes(CreateTextElement(c.name, ToXmlString(c.value).value), c.attributes))
  {
    LiteralAttributesWithoutItem(c.attributes);
  }

  /** The children of a group channel field are text elements of their
      values with literal attributes, in order. */
  lemma {:induction false} ChannelGroupChildren(g: GroupField)
    requires g.kind == ChannelGroup
    requires ChannelFieldElement(Group(g)).Ok?
    ensures var e := ChannelFieldElement(Group(g)).value;
            e.Element? && e.name == g.name && |e.children| == |g.itemFields| &&
            forall i :: 0 <= i < |g.itemFields| ==>
              g.itemFields[i].Channel? && ToXmlString(g.itemFields[i].channel.value).Some? &&
              e.children[i] == SetAttributes(CreateTextElement(g.itemFields[i].channel.name,
                                                               ToXmlString(g.itemFields[i].channel.value).value),
                                             g.itemFields[i].channel.attributes)
  {
    MapAllSpec(ChannelChildFormatter(), g.itemFields);
    forall i | 0 <= i < |g.itemFields|
      ensures g.itemFields[i].Channel?
    {
      assert ChannelValueElement(g.itemFields[i]).Ok?;
    }
    forall c | c in g.itemFields && c.Channel? && ToXmlString(c.channel.value).Some?
      ensures ChannelValueElement(c) ==
              Ok(SetAttributes(CreateTextElement(c.channel.name, ToXmlString(c.channel.value).value), c.channel.attributes))
    {
      ChannelValueLiteral(c.channel);
    }
  }

  /** Only channel fields and group channel fields have a value to render:
      a plain, media or item-group field among the channel fields fails. */
  lemma NonChannelFieldFails(f: Field)
    requires !f.Channel? && !(f.Group? && f.group.kind == ChannelGroup)
    ensures ChannelFieldElement(f) == Err(UndefinedMethod("getValue"))
  {
  }
}
