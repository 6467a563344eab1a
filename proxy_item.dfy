/** `Item\ProxyItem`: presents a routed item as a plain feed item whose
    link is generated from the item's route. */
module ProxyItems {
  import opened Wrappers
  import opened PhpValues
  import opened FeedErrors
  import opened FeedConfig
  import opened FeedFormatter

  /** What a routed item's accessors return. */
  datatype RoutedItem = RoutedItem(
    title: Value,
    description: Value,
    routeName: string,
    routeParameters: Value,
    pubDate: Value)

  /** The parameters the link is generated with: `?: array()` replaces
      falsy ones (null, false, an empty array, ...) by the empty array. */
  function RouteParameters(p: Value): (r: Value)
    ensures Truthy(p) ==> r == p
    ensures !Truthy(p) ==> r == List([])
  {
    if Truthy(p) then p else List([])
  }

  datatype ProxyItem = ProxyItem(item: RoutedItem, router: Router)
  {
    function GetFeedItemTitle(): Value {
      item.title
    }

    function GetFeedItemDescription(): Value {
      item.description
    }

    /** `getFeedItemLink()`: an absolute URL for the item's route. */
    function GetFeedItemLink(): string {
      router.generate(item.routeName, RouteParameters(item.routeParameters), true)
    }

    function GetFeedItemPubDate(): Value {
      item.pubDate
    }

    /** The proxy as the formatter sees an item: exactly its four
        accessors, under their lower-case names. */
    function Accessors(): (r: Item)
      ensures r.Keys == {"getfeeditemtitle", "getfeeditemdescription", "getfeeditemlink", "getfeeditempubdate"}
    {
      map["getfeeditemtitle" := GetFeedItemTitle(),
          "getfeeditemdescription" := GetFeedItemDescription(),
          "getfeeditemlink" := Str(GetFeedItemLink()),
          "getfeeditempubdate" := GetFeedItemPubDate()]
    }
  }

  /** `new ProxyItem($item, $router)`: both are stored unchanged, and the
      getters delegate to the wrapped item. */
  function NewProxyItem(item: RoutedItem, router: Router): (p: ProxyItem)
    ensures p.item == item && p.router == router
    ensures p.GetFeedItemTitle() == item.title && p.GetFeedItemDescription() == item.description
    ensures p.GetFeedItemPubDate() == item.pubDate
  {
    ProxyItem(item, router)
  }

  /** The link is generated for the item's route name, always as an
      absolute URL, and depends on nothing else of the item. */
  lemma LinkIsAbsoluteRoute(p: ProxyItem, q: ProxyItem)
    requires p.router == q.router && p.item.routeName == q.item.routeName
    requires RouteParameters(p.item.routeParameters) == RouteParameters(q.item.routeParameters)
    ensures p.GetFeedItemLink() == q.GetFeedItemLink()
    ensures p.GetFeedItemLink() == p.router.generate(p.item.routeName, RouteParameters(p.item.routeParameters), true)
  {
  }

  /** Null, false and an empty array as route parameters all give the link
      for no parameters. */
  lemma FalsyParametersGiveEmptyArray(router: Router, item: RoutedItem)
    requires !Truthy(item.routeParameters)
    ensures ProxyItem(item, router).GetFeedItemLink() == router.generate(item.routeName, List([]), true)
  {
  }

  /** The accessor names as the formatter spells them, folded to the keys
      of `Accessors`. */
  lemma AccessorNamesLowered()
    ensures AsciiLower("getFeedItemLink") == "getfeeditemlink"
    ensures AsciiLower("getFeedItemTitle") == "getfeeditemtitle"
    ensures AsciiLower("getFeedItemDescription") == "getfeeditemdescription"
    ensures AsciiLower("getFeedItemPubDate") == "getfeeditempubdate"
    ensures AsciiLower("getFeedItemPubdate") == "getfeeditempubdate"
  {
  }

  /** Looked up by name, as the formatter looks up an item's accessors,
      the proxy's four getters return the proxied values, and any other
      accessor of the routed item is not visible. The interface's
      `getFeedItemPubdate` reaches the proxy's `getFeedItemPubDate`. */
  lemma ProxyAsFormatterItem(p: ProxyItem, accessor: string)
    ensures Call(p.Accessors(), "getFeedItemLink") == Ok(Str(p.GetFeedItemLink()))
    ensures Call(p.Accessors(), "getFeedItemTitle") == Ok(p.item.title)
    ensures Call(p.Accessors(), "getFeedItemDescription") == Ok(p.item.description)
    ensures Call(p.Accessors(), "getFeedItemPubDate") == Ok(p.item.pubDate)
    ensures Call(p.Accessors(), "getFeedItemPubdate") == Ok(p.item.pubDate)
    ensures AsciiLower(accessor) !in {"getfeeditemtitle", "getfeeditemdescription", "getfeeditemlink", "getfeeditempubdate"} ==>
              Call(p.Accessors(), accessor) == Err(UndefinedMethod(accessor))
  {
    AccessorNamesLowered();
  }
}
