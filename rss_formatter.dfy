/** `Formatter\RssFormatter`: holds a feed and an RSS 2.0 document skeleton. */
module RssFormat {
  import opened Wrappers
  import opened XmlTree
  import opened FeedConfig

  /** The document `initialize()` leaves: version 1.0, utf-8, an `rss`
      root with `version="2.0"` holding one empty `channel`. */
  function RssSkeleton(): (d: Document)
    ensures d.version == "1.0" && d.encoding == "utf-8"
    ensures d.root.Some? && d.root.value.Element? && d.root.value.name == "rss"
    ensures GetAttr(d.root.value.attrs, "version") == Some("2.0") && |d.root.value.attrs| == 1
    ensures d.root.value.children == [Element("channel", [], [])]
  {
    Document("1.0", "utf-8", Some(Element("rss", [("version", "2.0")], [Element("channel", [], [])])))
  }

  /** `$dom->appendChild($node)` on a document that has no element yet. */
  function AppendRoot(d: Document, node: Node): (r: Document)
    requires d.root.None?
    ensures r.root == Some(node) && r.version == d.version && r.encoding == d.encoding
  {
    Document(d.version, d.encoding, Some(node))
  }

  class RssFormatter {
    const feed: Feed
    var dom: Document

    /** `new RssFormatter($feed)`: stores the feed, then initializes. */
    constructor (feed: Feed)
      ensures this.feed == feed && dom == RssSkeleton()
    {
      this.feed := feed;
      new;
      Initialize();
    }

    /** `initialize()`: a fresh document replaces the previous one, whatever
        it held, and receives the rss/channel skeleton. */
    method Initialize()
      modifies this`dom
      ensures dom == RssSkeleton()
    {
      dom := Document("1.0", "utf-8", None);
      var root := CreateElement("rss");
      root := SetAttribute(root, "version", "2.0");
      var channel := CreateElement("channel");
      root := AppendChild(root, channel);
      assert root.children == [] + [channel] == [channel];
      assert root == Element("rss", [("version", "2.0")], [Element("channel", [], [])]);
      dom := AppendRoot(dom, root);
    }
  }
}
