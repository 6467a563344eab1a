/** `Hydrator\DefaultHydrator`: one new entity per feed entry. */
module Hydration {
  import opened Wrappers
  import opened PhpValues
  import opened FeedErrors

  /** What the parsed-feed entry getters return. */
  datatype Entry = Entry(title: Value, content: Value, link: Value, dateModified: Value)

  /** A parsed feed, iterated entry by entry. */
  datatype ParsedFeed = ParsedFeed(entries: seq<Entry>)

  /** The classes the runtime knows: `class_exists($name)`, and whether an
      instance of the class implements the reader `ItemInterface`. */
  datatype ClassTable = ClassTable(defined: string -> bool, isReaderItem: string -> bool)

  /** An instance of an entity class, with the four values the reader
      `ItemInterface` setters store. */
  class ReaderEntity {
    const className: string
    var title: Value
    var description: Value
    var link: Value
    var pubDate: Value

    /** `new $entityName()`. */
    constructor (className: string)
      ensures this.className == className
      ensures title == Null && description == Null && link == Null && pubDate == Null
    {
      this.className := className;
      title := Null;
      description := Null;
      link := Null;
      pubDate := Null;
    }

    method SetFeedItemTitle(v: Value)
      modifies this`title
      ensures title == v
    {
      title := v;
    }

    method SetFeedItemDescription(v: Value)
      modifies this`description
      ensures description == v
    {
      description := v;
    }

    method SetFeedItemLink(v: Value)
      modifies this`link
      ensures link == v
    {
      link := v;
    }

    method SetFeedItemPubDate(v: Value)
      modifies this`pubDate
      ensures pubDate == v
    {
      pubDate := v;
    }
  }

  /** The entity `i` holds entry `i`'s title, content, link and modification date. */
  ghost predicate Hydrated(e: ReaderEntity, entry: Entry, className: string)
    reads e
  {
    e.className == className && e.title == entry.title && e.description == entry.content &&
    e.link == entry.link && e.pubDate == entry.dateModified
  }

  /** Why `hydrate($feed, $entityName)` fails, if it does: only when there
      is an entry, because the class is only used when an entity is created. */
  function HydrateError(feed: ParsedFeed, className: string, classes: ClassTable): Option<Error> {
    if feed.entries == [] then None
    else if !classes.defined(className) then Some(UndefinedClass(className))
    else if !classes.isReaderItem(className) then Some(NotAReaderItem(className))
    else None
  }

  class DefaultHydrator {
    constructor ()
    {
    }

    /** `hydrate($feed, $entityName)`: a fresh entity per entry, in entry
        order, each filled from its entry. */
    method Hydrate(feed: ParsedFeed, className: string, classes: ClassTable) returns (r: Result<seq<ReaderEntity>, Error>)
      ensures r.Err? <==> HydrateError(feed, className, classes).Some?
      ensures r.Err? ==> r.error == HydrateError(feed, className, classes).value
      ensures feed.entries == [] ==> r == Ok([])
      ensures r.Ok? ==> |r.value| == |feed.entries|
      ensures r.Ok? ==> forall i :: 0 <= i < |r.value| ==>
                          fresh(r.value[i]) && Hydrated(r.value[i], feed.entries[i], className)
      ensures r.Ok? ==> forall i, j :: 0 <= i < j < |r.value| ==> r.value[i] != r.value[j]
    {
      var items: seq<ReaderEntity> := [];
      var i := 0;
      while i < |feed.entries|
        invariant 0 <= i <= |feed.entries|
        invariant i > 0 ==> HydrateError(feed, className, classes).None?
        invariant |items| == i
        invariant forall k :: 0 <= k < i ==> fresh(items[k]) && Hydrated(items[k], feed.entries[k], className)
        invariant forall k, l :: 0 <= k < l < i ==> items[k] != items[l]
      {
        var entry := feed.entries[i];
        if !classes.defined(className) {
          return Err(UndefinedClass(className));
        }
        var entity := new ReaderEntity(className);
        if !classes.isReaderItem(className) {
          return Err(NotAReaderItem(className));
        }
        entity.SetFeedItemTitle(entry.title);
        entity.SetFeedItemDescription(entry.content);
        entity.SetFeedItemLink(entry.link);
        entity.SetFeedItemPubDate(entry.dateModified);
        items := items + [entity];
        i := i + 1;
      }
      return Ok(items);
    }
  }
}
