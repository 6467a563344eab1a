# eko/FeedBundle feed engine, modelled in Dafny

This project models the feed-rendering core of the Symfony bundle eko/FeedBundle and proves properties of that model.

**Writing side.** A feed is described by field descriptors:
- item fields, media (enclosure) fields and groups of fields, for the items;
- channel fields and group channel fields, for the channel.

The formatter turns each field and each item into XML elements. It reads the item through accessor names and applies per-field options in a fixed order:
1. translation;
2. then one of CDATA, attribute, date format or text.

It then adds the field's attributes, each key and each value possibly resolved through an accessor of the item. Media fields become RSS 2.0 `<enclosure url type length>` elements or Atom `<link rel="enclosure" href type length>` links, the latter per section 4.2.7.2 of RFC 4287. The RSS formatter holds the `rss version="2.0"`/`channel` document skeleton.

**Around the formatter:**
- a registry maps format names to formatters;
- a feed holds its configuration;
- the feed manager creates feeds lazily from the bundle configuration and caches them;
- a routed item is presented through a proxy whose link is generated by the router.

**Reading side.** The reader loads a feed and populates entities through the default hydrator. The dump service validates the ordering, fills the feed from a repository and writes the rendered feed to a file.

**Representation:**
- PHP values are the datatype `PhpValues.Value`.
- An item is a map from method name to the value that method returns. The name is kept in ASCII lower case, because PHP finds a method whatever the case of the name it is called by (`$item->{$method}()`, `method_exists`).
- The XML document is a value tree (`XmlTree.Node`).
- Stateful objects are classes whose methods change their fields.
- Every loop of the source is a method proved equal to a specification function. The specification functions are built from `ResultSeq.MapAll`/`FlatMapAll`, which stop at the first error as a PHP exception does. The properties are then lemmas about those functions.

**Errors.** Every exception, or PHP error, the code can raise is a `FeedErrors.Error` value returned in a `Result`:
- a missing accessor;
- the `attribute_name` requirement;
- a non-DateTime value under `date_format`;
- an invalid media descriptor;
- an undefined feed;
- an illegal array key;
- a PHP `TypeError`.

**Foreign pieces.** The translator, the date formatter, the router, the feed parser, `file_exists`, `class_exists`, the Doctrine repository and the feed's `render` are all parameters: functions the model does not interpret.

| file | module | models |
|---|---|---|
| wrappers.dfy | Wrappers | Option / Result |
| result_seq.dfy | ResultSeq | fail-fast maps over sequences, with their step and shape lemmas |
| php_values.dfy | PhpValues | PHP values, `isset`, truthiness, array keys, string conversion for the DOM, loose comparison |
| errors.dfy | FeedErrors | the exceptions and PHP errors raised |
| xml_tree.dfy | XmlTree | DOM elements, `setAttribute`, `createElement`, `appendChild` |
| fields.dfy | Fields | `Field/Item/*`, `Field/Channel/ChannelField.php`, `GroupChannelField` |
| formatter.dfy | FeedFormatter | `Formatter/Formatter.php` |
| formatter_properties.dfy | FormatterProperties | what `Formatter.php` promises |
| rss_formatter.dfy | RssFormat | `Formatter/RssFormatter.php` |
| formatter_registry.dfy | Registry | `Formatter/FormatterRegistry.php` |
| feed.dfy | FeedConfig | `Feed/Feed.php` |
| feed_manager.dfy | FeedManagement | `Feed/FeedManager.php` |
| proxy_item.dfy | ProxyItems | `Item/ProxyItem.php` |
| hydrator.dfy | Hydration | `Hydrator/DefaultHydrator.php` |
| reader.dfy | FeedReader | `Feed/Reader.php` |
| feed_dump_service.dfy | DumpService | `Service/FeedDumpService.php` |

## Model

| member | source | states |
|---|---|---|
| Fields.NewItemField | Field/Item/ItemField.php:50-59 | name, accessor and attributes are stored unchanged; options are unset exactly when the array is empty; `get(o, d)` is the stored value when present and non-null, otherwise `d` |
| Fields.EmptyOptionsGiveDefaults | Field/Item/ItemField.php:55-57 | a field built without options answers every lookup with the default, which is `false` when none is given, for plain and media fields alike |
| Fields.NewMediaItemField | Field/Item/MediaItemField.php:29-37 | a media field is the item field with the fixed name `{rss: enclosure, atom: link}` and with the accessor, options and attributes forwarded unchanged |
| Fields.NewChannelField | Field/Channel/ChannelField.php:44-52 | name and value are stored unchanged; options are unset exactly when empty; `get` gives the stored non-null option, else the default |
| Fields.NewGroupField | Field/Item/GroupItemField.php:40-53 | the constructor fails exactly for a scalar argument or a single field that is not an item field; an array is kept verbatim; a single field becomes a one-element list; the name is kept |
| Fields.GroupChannelFieldRejectsChannelField | Field/Channel/GroupChannelField.php:22 | a group channel field given a single channel field is rejected, because a channel field is not an item field |
| FeedFormatter.Formatter.constructor | Formatter/Formatter.php:30-65 | the translator and domain are stored; the feed is still null and no item field is held |
| FeedFormatter.Formatter.SetFeed | Formatter/Formatter.php:30-33 | the protected feed property holds the given feed |
| FeedFormatter.Formatter.Initialize | Formatter/Formatter.php:70-73 | the item fields become the old list followed by the feed's item fields, so a second call duplicates them; with no feed set it is a call on null and the fields are unchanged |
| FeedFormatter.Formatter.AddAttributes | Formatter/Formatter.php:324-334 | the loop gives the element with the (resolved) attributes set in order, or the first resolution error |
| FeedFormatter.Formatter.FormatWithOptions | Formatter/Formatter.php:278-315 | the element built equals the option specification: translate first, then cdata, attribute, date_format or text, then the field attributes |
| FeedFormatter.Formatter.FormatItemField | Formatter/Formatter.php:245-265 | the elements built equal the specification: the accessor result is normalised to a list and each value is formatted with options, failing as a whole |
| FeedFormatter.Formatter.FormatValues | Formatter/Formatter.php:260-262 | the foreach loop gives one element per value, in order, or the first error |
| FeedFormatter.Formatter.FormatMediaValue | Formatter/Formatter.php:206-231 | one descriptor gives the media element of the specification, or invalid media; a `\DateTime` descriptor is PHP's error for using an object as an array |
| FeedFormatter.Formatter.FormatMediaItemField | Formatter/Formatter.php:190-235 | the elements built equal the media specification: null gives none, a non-array or an array with `value` is one descriptor, otherwise each entry is one |
| FeedFormatter.Formatter.FormatMediaValues | Formatter/Formatter.php:205-232 | the foreach loop gives one media element per descriptor, in order, or the first error |
| FeedFormatter.Formatter.FormatGroupItemField | Formatter/Formatter.php:150-178 | the result equals the group specification: one element with the group's attributes whose children are the children's elements concatenated |
| FeedFormatter.Formatter.FormatChild | Formatter/Formatter.php:160-170 | one group child gives the elements of the child specification: a media field's, a plain field's, or none for any other class, whose re-append of the previous elements changes nothing |
| FeedFormatter.Formatter.AppendChildren | Formatter/Formatter.php:172-174 | appending nodes one by one gives the element with those nodes after its children |
| FeedFormatter.Formatter.Format | Formatter/Formatter.php:123-140 | dispatch by class: item group, media and plain fields; a group channel field gives null; a channel field is not accepted |
| FeedFormatter.Formatter.FormatChannelField | Formatter/Formatter.php:95-109 | a channel field becomes a text element of its value; a group channel field becomes an element of text children; attributes are literal |
| FeedFormatter.Formatter.AddChannelFields | Formatter/Formatter.php:92-113 | the channel receives one element per channel field of the feed, in order, or the first error; with no feed set it is a call on null |
| FormatterProperties.ItemFieldElementsInOrder | Formatter/Formatter.php:249-264 | a plain field succeeds exactly when every value formats; it then gives one element per value, the i-th being value i's element |
| FormatterProperties.PlainValuesShape | Formatter/Formatter.php:252-258 | null gives no value, a scalar exactly itself, a list its entries in order |
| FormatterProperties.MissingAccessorFails | Formatter/Formatter.php:249-250 | calling an accessor the item does not have under any letter case is an undefined-method error naming the accessor as spelled, for plain and media fields |
| FormatterProperties.ScalarYieldsOneElement | Formatter/Formatter.php:256-262 | a non-null scalar yields exactly the one element its value formats to |
| FormatterProperties.TranslationComesFirst | Formatter/Formatter.php:284-286 | with `translatable`, only the translation of the value matters to every later branch |
| FormatterProperties.CdataBranch | Formatter/Formatter.php:288-292 | `cdata` wins: one CDATA child holding the value, whatever `attribute` and `date_format` say |
| FormatterProperties.AttributeBranch | Formatter/Formatter.php:293-299 | `attribute` without a truthy `attribute_name` fails; otherwise the element is empty and carries the value under that name |
| FormatterProperties.DateFormatBranch | Formatter/Formatter.php:301-309 | `date_format` (without cdata or attribute) fails for a non-date, naming the field; with a date, a format option that is an array or a date is the `TypeError` of `DateTime::format(string)`; otherwise the formatted date is the text |
| FormatterProperties.TextBranch | Formatter/Formatter.php:309 | with no option, the element is a text element of the value's string form, and fails exactly when the value has none |
| FormatterProperties.LiteralAttributesWithoutItem | Formatter/Formatter.php:326-332 | without an item every attribute key and value is taken literally |
| FormatterProperties.AttributesResolvedPairwise | Formatter/Formatter.php:326-330 | with an item, each key and each value is resolved on its own, position by position; failure exactly when one resolution fails |
| FormatterProperties.ResolveChoosesAccessor | Formatter/Formatter.php:328-329 | a key or value that names a method of the item, compared without regard to ASCII case as `method_exists` does, is replaced by its result; otherwise the literal is kept |
| FormatterProperties.AccessorNameIgnoresCase | Formatter/Formatter.php:249-250 | names that differ only in ASCII case call the same method, as a field accessor and as an attribute key or value |
| FormatterProperties.AttributesInInsertionOrder | Formatter/Formatter.php:326-333 | on an element without attributes, distinct keys give exactly the resolved attributes in insertion order |
| FormatterProperties.MediaElementNames | Formatter/Formatter.php:210-211 | the media element is `enclosure` under rss and `link` under atom |
| FormatterProperties.MediaValuesShape | Formatter/Formatter.php:197-203 | null is no descriptor; a non-array or an array with `value` is one; any other array is its entries |
| FormatterProperties.MediaItemFieldElementsInOrder | Formatter/Formatter.php:205-234 | success exactly when every descriptor formats; then every descriptor is valid and gives one element, in order |
| FormatterProperties.InvalidDescriptorFails | Formatter/Formatter.php:206-208 | a descriptor lacking `type`, `length` or `value` is invalid media, except a `\DateTime`, on which the first `isset` is PHP's error for using an object as an array |
| FormatterProperties.MediaElementAttributes | Formatter/Formatter.php:213-229 | a media element has no children; it carries `type` and `length`, and `url` (rss) or `rel="enclosure"` and `href` (atom), from the descriptor, overriding same-named field attributes |
| FormatterProperties.GroupYieldsOneElement | Formatter/Formatter.php:152-177 | a group yields one element named after it, with its attributes, whose children are its children's elements concatenated in order |
| FormatterProperties.GroupFailsWithAChild | Formatter/Formatter.php:159-175 | with valid attributes, a group succeeds exactly when every child does |
| FormatterProperties.NestedGroupContributesNothing | Formatter/Formatter.php:162-174 | a child with no switch case (a nested group) adds no element |
| FormatterProperties.FormatDispatch | Formatter/Formatter.php:125-139 | `format` gives the group, media or plain elements according to the class, and null for a group channel field |
| FormatterProperties.ChannelFieldsAppendedInOrder | Formatter/Formatter.php:94-112 | the channel keeps its name, attributes and earlier children and gains one element per channel field, in order; failure exactly when one field fails |
| FormatterProperties.ChannelValueLiteral | Formatter/Formatter.php:106-109 | a channel field is a text element of its value with its attributes set literally |
| FormatterProperties.ChannelGroupChildren | Formatter/Formatter.php:95-104 | a group channel field's children are text elements of its channel fields' values with literal attributes, in order |
| FormatterProperties.NonChannelFieldFails | Formatter/Formatter.php:99-106 | a field without `getValue` among the channel fields is an undefined-method error |
| XmlTree.SetAttrGet | Formatter/Formatter.php:228-229 | after `setAttribute(k, v)`, `k` reads back as `v` and every other attribute as before |
| RssFormat.RssSkeleton | Formatter/RssFormatter.php:50-57 | the skeleton is an XML 1.0 utf-8 document whose root is `rss`, with the single attribute `version="2.0"` and one empty `channel` child |
| RssFormat.RssFormatter.constructor | Formatter/RssFormatter.php:39-43 | the feed is stored and the formatter already holds the skeleton |
| RssFormat.RssFormatter.Initialize | Formatter/RssFormatter.php:48-58 | whatever the document held, it is replaced by the skeleton |
| Registry.FormatterRegistry.constructor | Formatter/FormatterRegistry.php:25 | a new registry supports no format |
| Registry.FormatterRegistry.AddFormatter | Formatter/FormatterRegistry.php:35-38 | the format maps to the given formatter, replacing any earlier one; it is supported iff the formatter is non-null; other formats are unchanged |
| Registry.FormatterRegistry.SupportsFormat | Formatter/FormatterRegistry.php:47-50 | true iff a non-null formatter is registered under the format |
| Registry.FormatterRegistry.GetFormatter | Formatter/FormatterRegistry.php:59-62 | the very object registered under the format, null when none; non-null exactly when the format is supported |
| FeedConfig.Feed.constructor | Feed/Feed.php:30-33 | the configuration is stored verbatim |
| FeedConfig.Feed.Get | Feed/Feed.php:53-56 | the stored value when present and non-null, otherwise the default (null unless given) |
| FeedConfig.Feed.SetRouter | Feed/FeedManager.php:80 | the feed holds the router the manager attaches |
| FeedConfig.Feed.Set | Feed/Feed.php:41-44 | the key takes the value; a later `get` gives it, or the default after setting null; every other key reads as before |
| FeedManagement.FeedManager.constructor | Feed/FeedManager.php:44-48 | router and configuration are stored; no feed is cached |
| FeedManagement.HasIsIsset | Feed/FeedManager.php:57-59 | a name is configured exactly when `config['feeds'][name]` is set and not null: never without a `feeds` array, by key in an associative array, by canonical index in a list |
| FeedManagement.FeedManager.FeedConfigOf | Feed/FeedManager.php:79 | a feed can be created from the entry exactly when the entry is an array |
| FeedManagement.FeedManager.Get | Feed/FeedManager.php:70-84 | an unknown name fails with "not defined"; a cached feed is returned unchanged; otherwise a fresh feed with the entry as configuration and the router attached is cached under that name only |
| FeedManagement.FeedConfigIsEntry | Feed/FeedManager.php:79 | a feed configured by an associative array gets exactly its entries |
| FeedManagement.FeedConfigOfList | Feed/FeedManager.php:79 | a feed configured by a list keeps each entry under its decimal index |
| ProxyItems.NewProxyItem | Item/ProxyItem.php:39-63 | item and router are stored unchanged; title, description and pubDate are the wrapped item's |
| ProxyItems.RouteParameters | Item/ProxyItem.php:72 | truthy parameters are kept; falsy ones become the empty array |
| ProxyItems.LinkIsAbsoluteRoute | Item/ProxyItem.php:70-75 | the link is the router's absolute URL for the route name and parameters, and depends on nothing else |
| ProxyItems.FalsyParametersGiveEmptyArray | Item/ProxyItem.php:72-74 | null, false or empty parameters give the link for the empty array |
| ProxyItems.ProxyItem.Accessors | Item/ProxyItem.php:50-85 | the proxy offers exactly the four item accessors |
| ProxyItems.ProxyAsFormatterItem | Item/ProxyItem.php:50-85 | looked up by name as the formatter looks up accessors, the proxy's four getters return the proxied title, description, publication date and generated link; the interface's spelling `getFeedItemPubdate` reaches `getFeedItemPubDate`; any name that is not a case variant of the four is undefined |
| Hydration.DefaultHydrator.Hydrate | Hydrator/DefaultHydrator.php:28-50 | no entries give `[]` without any check; otherwise a class error on the first entry, or one fresh, distinct entity per entry, in order, filled from title, content, link and modification date |
| FeedReader.Reader.constructor | Feed/Reader.php:27-35 | a reader starts with no feed and no hydrator (both properties unset) |
| FeedReader.Reader.SetHydrator | Feed/Reader.php:42-45 | the hydrator is stored |
| FeedReader.Reader.Load | Feed/Reader.php:54-63 | a local import if the path exists, a remote one otherwise; the result replaces the feed and the reader itself is returned |
| FeedReader.Reader.Get | Feed/Reader.php:70-75 | the loaded feed, or "not loaded" before any load |
| FeedReader.Reader.CheckIfFeedIsLoaded | Feed/Reader.php:102-107 | fails exactly when no feed is loaded |
| FeedReader.Reader.Populate | Feed/Reader.php:86-95 | the class is checked before the feed is; then the result is the hydrator's on the loaded feed: its error, or fresh, distinct entities filled from the entries in order |
| DumpService.ArrayKey | Service/FeedDumpService.php:55 | the key a value becomes in `array($key => …)`; arrays and objects are illegal offsets |
| DumpService.DirectedOrder | Service/FeedDumpService.php:49-63 | null orderBy is kept; otherwise a direction loosely equal to ASC or DESC makes it `{orderBy: direction}`, and any other direction fails |
| DumpService.FeedDumpService.constructor | Service/FeedDumpService.php:24-29 | collaborators stored, every option unset |
| DumpService.FeedDumpService.InitDirection | Service/FeedDumpService.php:49-63 | orderBy becomes its directed form, or is unchanged and the error returned |
| DumpService.FeedDumpService.Dump | Service/FeedDumpService.php:31-47 | the direction is validated before the feed is looked up; on success the calls made are the optional query and `addFromArray`, then `render`, then the dump to `rootDir . filename`; on any failure nothing is recorded; on success the feed is cached in the feed manager, new feeds created from their configuration entry |
| DumpService.FeedDumpService.SetItems | Service/FeedDumpService.php:65-70 | the items go to the named feed and the service is returned, with the feed cached in the feed manager; or the lookup error, with nothing changed |
| DumpService.FeedDumpService.SetName | Service/FeedDumpService.php:72-76 | stores the name and returns the service |
| DumpService.FeedDumpService.SetEntity | Service/FeedDumpService.php:78-82 | stores the entity and returns the service |
| DumpService.FeedDumpService.SetFilename | Service/FeedDumpService.php:84-88 | stores the file name and returns the service |
| DumpService.FeedDumpService.SetFormat | Service/FeedDumpService.php:90-94 | stores the format and returns the service |
| DumpService.FeedDumpService.SetLimit | Service/FeedDumpService.php:96-100 | stores the limit and returns the service |
| DumpService.FeedDumpService.SetDirection | Service/FeedDumpService.php:102-106 | stores the direction and returns the service |
| DumpService.FeedDumpService.SetOrderBy | Service/FeedDumpService.php:108-112 | stores the ordering and returns the service |
| DumpService.FeedDumpService.SetRootDir | Service/FeedDumpService.php:114-118 | stores the root directory and returns the service |
| DumpService.NoOrderingAcceptsAnyDirection | Service/FeedDumpService.php:51 | without an ordering every direction, null included, is accepted and nothing changes |
| DumpService.OrderingNeedsDirection | Service/FeedDumpService.php:58-60 | with an ordering, a null direction or any word other than ASC/DESC is refused |
| DumpService.ColumnOrdering | Service/FeedDumpService.php:53-56 | a column with ASC or DESC becomes the one-entry array `{column: direction}` |
| DumpService.SecondDirectionFails | Service/FeedDumpService.php:51-55 | once orderBy has been directed, directing it again (a second `dump`) fails with an illegal offset |
| DumpService.RepositoryQueriedOnlyForEntity | Service/FeedDumpService.php:36-40 | no entity means no query and no `addFromArray`; with one, `findBy([], orderBy, limit)` comes first and its result is what is added |
| DumpService.DumpWrittenLast | Service/FeedDumpService.php:42-46 | the last call writes the feed rendered in the format to `rootDir . filename`, right after rendering |

## Left out

- FeedFormatter.Formatter.AddChannelFields: `addAttributes` declares its field parameter as an `ItemFieldInterface` (Formatter/Formatter.php:324). A plain `ChannelField` implements only the channel field interface, so PHP raises a `TypeError` for every plain channel field, at Formatter.php:109 and, for the children of a group channel field, at :101. The model reads the declaration as accepting channel fields and renders them. This is how it bridges the missing attributes of channel fields.
- FeedFormatter.Formatter.FormatChannelField: the same reading of the `addAttributes` declaration; a plain channel field, or a child of a group channel field, gets its text element where PHP raises a `TypeError`.
- FeedFormatter.ChannelValueElement: the same reading of the `addAttributes` declaration.
- FeedFormatter.Formatter.SetFeed: `Formatter.php` has no setter and none of the shown formatters extends it. `SetFeed` stands for the assignment of the protected `$feed` that a concrete formatter would make; until then `initialize` and `addChannelFields` call a method on null.
- FeedFormatter.Formatter: the protected `$dom` (Formatter/Formatter.php:48) is never assigned in `Formatter.php`, so as written every `$this->dom->createElement` (:96, :99, :106, :153, :213, :291, :298, :309) and `createCDATASection` (:289) is a call on null. The model assumes the document a concrete formatter would create and builds its elements with `XmlTree.CreateElement`; unlike `$feed`, the missing document is not modelled as an error.
- RssFormat.RssFormatter.Initialize: as written, `new DOMDocument` at Formatter/RssFormatter.php:50 is unqualified inside the `Eko\FeedBundle\Formatter` namespace. PHP does not fall back to the global class, so it throws an `Error` for the undefined class `Eko\FeedBundle\Formatter\DOMDocument`. The model builds the evident intent, the `\DOMDocument` skeleton `RssSkeleton`.
- RssFormat.RssFormatter.constructor: as written, its `Feed` parameter type resolves through `use Eko\FeedBundle\Feed;` (RssFormatter.php:13) to a class that does not exist; the feed class is `Eko\FeedBundle\Feed\Feed`. No call is ever reached, though: neither `RssFormatter` (RssFormatter.php:22) nor `AtomFormatter` (AtomFormatter.php:22) defines `addItem`, which `FormatterInterface` declares (Formatter/FormatterInterface.php:37), so PHP stops with a fatal error when either class is declared. Were that fixed, the constructor would be a `TypeError` for any argument and would also reach the failing `initialize` above. The model stores the feed and holds the skeleton, as intended.
- XML name validity: `createElement` and `setAttribute` throw a `DOMException` (invalid character) for a name that is not an XML name. Examples are an empty field name, or an attribute key that an item accessor resolves to `""` or `"a b"`. The model accepts any string as an element or attribute name (`XmlTree.CreateElement`, `XmlTree.SetAttr`).
- PHP version: the model follows PHP 8. A DOM string argument that is an array or a `\DateTime` is a `TypeError`, where PHP 7 warns and passes null. The `switch` of the dump service uses PHP 8 loose comparison, where in PHP 7 `0 == "ASC"` also holds.
- DumpService.Collaborators: what the feed's `render` writes depends, here, only on the feed name and the format. Items added with `addFromArray` are recorded in the trace but do not feed into the rendered content, so two dumps that add different items write the same content.
- XML serialisation (`render`, `saveXml`, the XSLT step of the RSS formatter) and libxml's escaping of text: the document is modelled as a tree only.
- DOM identity and aliasing: nodes are values, so `appendChild` of a node already in the tree is modelled only where the source does it. The one place is a group child with no switch case, which re-appends the previous child's elements; those are already the last children, in order, so the tree does not change.
- `DateTime::format` and the translator are uninterpreted parameters of `Env`; a date is its stamp. The format is passed as the string PHP converts the option to.
- ProxyItems.ProxyAsFormatterItem: as written, `ProxyItem` implements `Eko\FeedBundle\Item\ItemInterface` (Item/ProxyItem.php:12, :23), which extends nothing (Item/ItemInterface.php:20). Every formatter entry point declares its item as `Eko\FeedBundle\Item\Writer\ItemInterface` (Formatter/Formatter.php:18, :123, :150, :190, :245, :278, :324), so passing a proxy to the formatter is a `TypeError`. `FeedFormatter.Item` carries no interface, so the model cannot express this check; the lemma states what a formatter would read if the proxy implemented the intended `Writer\ItemInterface`.
- Fields.NewGroupField: a PHP array given to a group is stored verbatim with no check of its elements (Field/Item/GroupItemField.php:40-53). `GroupArgument.FieldArray` holds only fields, so an array with a non-object element is not modelled; in PHP 8, `get_class` on such an element (Formatter/Formatter.php:160) is a `TypeError` when the group is formatted.
- URL generation, the Zend feed parser, `file_exists`, `class_exists`, the Doctrine repository, the filesystem and the feed's `render` are uninterpreted parameters. Their effects on the dump service are a recorded call trace.
- `Formatter.render` and `Formatter/AtomFormatter.php`, which only serialise or create an empty document.
- `Command/FeedDumpCommand.php` (CLI plumbing) and the dependency-injection wiring.
- The shown `ChannelField` and `GroupItemField` keep no attributes, yet `Formatter.php` reads attributes from them. The model gives them an attribute list that defaults to empty.
- The shown `Feed` has no `setRouter`, `addFromArray`, `render`, `getItemFields` or `getChannelFields`, though the feed manager, the dump service and the formatter (Formatter/Formatter.php:72, :94) call them. The router is a field of the model's feed; `addFromArray` and `render` are recorded calls; the two field lists are what `FeedFormatter.FeedFields` holds.
- FeedConfig.Feed.Get: its contract restates the `isset ? : default` lookup, which is all the source promises; `Set` is its partner.
- FeedReader.Reader.Populate: the hydrator is always the default hydrator; other implementations of the hydrator interface are not modelled.
- FeedManagement.FeedManager.Get: only configuration entries that are arrays create a feed; any other entry is the `TypeError` the `Feed` constructor's `array` parameter raises.
- DumpService.ArrayKey: a float key would be truncated; PHP floats are not part of this model.
- PHP integer width: integers are unbounded, as no arithmetic of the core can overflow.
