/** The field descriptors: how one value of an item (or of the channel) is
    turned into XML. They are immutable once constructed. */
module Fields {
  import opened Wrappers
  import opened PhpValues
  import opened FeedErrors

  /** An options array (`cdata`, `attribute`, `attribute_name`,
      `date_format`, `translatable`, ...). */
  type Options = map<string, Value>

  /** An attributes array: XML attribute key to value, each a literal or
      the name of an item accessor, in insertion order. */
  type Attributes = seq<(string, string)>

  /** A field name: a plain element name, or one name per format. */
  datatype FieldName = Named(s: string) | ByFormat(names: map<string, string>)

  /** What an options property holds: null when the constructor was given
      an empty array, the array otherwise. */
  function StoredOptions(options: Options): Option<Options> {
    if options == map[] then None else Some(options)
  }

  /** `isset($this->options[$option]) ? $this->options[$option] : $default`. */
  function OptionValue(options: Option<Options>, option: string, default: Value): Value {
    if options.Some? && option in options.value && options.value[option] != Null
    then options.value[option]
    else default
  }

  /** `Field\Item\ItemField`. */
  datatype ItemField = ItemField(name: FieldName, accessor: string, options: Option<Options>, attributes: Attributes)
  {
    /** `get($option, $default = false)`. */
    function Get(option: string, default: Value := Bool(false)): Value {
      OptionValue(options, option, default)
    }
  }

  /** `new ItemField($name, $method, $options = [], $attributes = [])`. */
  function NewItemField(name: FieldName, accessor: string, options: Options := map[],
                        attributes: Attributes := []): (f: ItemField)
    ensures f.name == name && f.accessor == accessor && f.attributes == attributes
    ensures f.options.None? <==> options == map[]
    ensures forall o, d :: f.Get(o, d) == if o in options && options[o] != Null then options[o] else d
  {
    ItemField(name, accessor, StoredOptions(options), attributes)
  }

  /** The name every media field carries, one element name per format. */
  const MediaNames: map<string, string> := map["rss" := "enclosure", "atom" := "link"]

  /** `Field\Item\MediaItemField`: an item field whose name is fixed. */
  datatype MediaItemField = MediaItemField(accessor: string, options: Option<Options>, attributes: Attributes)
  {
    function Name(): FieldName {
      ByFormat(MediaNames)
    }

    /** The `ItemField` this object also is. */
    function AsItemField(): ItemField {
      ItemField(Name(), accessor, options, attributes)
    }

    /** `get`, inherited from `ItemField`. */
    function Get(option: string, default: Value := Bool(false)): Value {
      AsItemField().Get(option, default)
    }
  }

  /** `new MediaItemField($method, $options = [], $attributes = [])`: the
      arguments go to the `ItemField` constructor with the fixed name. */
  function NewMediaItemField(accessor: string, options: Options := map[],
                             attributes: Attributes := []): (m: MediaItemField)
    ensures m.AsItemField() == NewItemField(ByFormat(MediaNames), accessor, options, attributes)
  {
    MediaItemField(accessor, StoredOptions(options), attributes)
  }

  /** `GroupItemField`, or its empty subclass `GroupChannelField`. */
  datatype GroupKind = ItemGroup | ChannelGroup

  /** `Field\Channel\ChannelField`. */
  datatype ChannelField = ChannelField(name: string, value: Value, options: Option<Options>, attributes: Attributes)
  {
    /** `get($option, $default = false)`. */
    function Get(option: string, default: Value := Bool(false)): Value {
      OptionValue(options, option, default)
    }
  }

  /** `new ChannelField($name, $value, $options = [])`; the attributes
      argument defaults to none. */
  function NewChannelField(name: string, value: Value, options: Options := map[],
                           attributes: Attributes := []): (c: ChannelField)
    ensures c.name == name && c.value == value && c.attributes == attributes
    ensures c.options.None? <==> options == map[]
    ensures forall o, d :: c.Get(o, d) == if o in options && options[o] != Null then options[o] else d
  {
    ChannelField(name, value, StoredOptions(options), attributes)
  }

  /** A group of fields; the attributes argument defaults to none. */
  datatype GroupField = GroupField(kind: GroupKind, name: string, itemFields: seq<Field>, attributes: Attributes)

  /** Every field object, by its class. */
  datatype Field =
    | Plain(item: ItemField)
    | Media(media: MediaItemField)
    | Group(group: GroupField)
    | Channel(channel: ChannelField)
  {
    /** `$field instanceof ItemFieldInterface`: group channel fields are
        group item fields too; plain channel fields are not. */
    predicate IsItemFieldInterface() {
      !Channel?
    }

    /** `getAttributes()`. */
    function GetAttributes(): Attributes {
      match this
      case Plain(f) => f.attributes
      case Media(m) => m.attributes
      case Group(g) => g.attributes
      case Channel(c) => c.attributes
    }
  }

  /** The second argument of the group constructor: an array of fields, a
      single field object, or any other value (a scalar or null). */
  datatype GroupArgument = FieldArray(fields: seq<Field>) | SingleField(field: Field) | ScalarArgument

  /** `new GroupItemField($name, $itemFields)` and
      `new GroupChannelField($name, $itemFields)`. */
  function NewGroupField(kind: GroupKind, name: string, itemFields: GroupArgument,
                         attributes: Attributes := []): (r: Result<GroupField, Error>)
    ensures r.Err? <==>
      itemFields.ScalarArgument? || (itemFields.SingleField? && !itemFields.field.IsItemFieldInterface())
    ensures r.Err? ==> r.error == InvalidGroupArgument
    ensures r.Ok? ==> r.value.kind == kind && r.value.name == name && r.value.attributes == attributes
    ensures itemFields.FieldArray? ==> r == Ok(GroupField(kind, name, itemFields.fields, attributes))
    ensures itemFields.SingleField? && r.Ok? ==> r.value.itemFields == [itemFields.field]
  {
    match itemFields
    case ScalarArgument => Err(InvalidGroupArgument)
    case SingleField(f) =>
      if !f.IsItemFieldInterface() then Err(InvalidGroupArgument)
      else Ok(GroupField(kind, name, [f], attributes))
    case FieldArray(fs) => Ok(GroupField(kind, name, fs, attributes))
  }

  /** Option lookups on a field built without options all give the default,
      which is `false` when none is passed. */
  lemma EmptyOptionsGiveDefaults(name: FieldName, accessor: string, option: string, default: Value)
    ensures NewItemField(name, accessor).Get(option, default) == default
    ensures NewItemField(name, accessor).Get(option) == Bool(false)
    ensures NewMediaItemField(accessor).Get(option) == Bool(false)
  {
  }

  /** A group channel field takes only an array: a single channel field is
      not an item field and is rejected. */
  lemma GroupChannelFieldRejectsChannelField(name: string, c: ChannelField)
    ensures NewGroupField(ChannelGroup, name, SingleField(Channel(c))) == Err(InvalidGroupArgument)
  {
  }
}
