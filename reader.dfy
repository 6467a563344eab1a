/** `Feed\Reader`: loads a feed and populates entities from it. */
module FeedReader {
  import opened Wrappers
  import opened FeedErrors
  import opened Hydration

  /** Where feeds come from: `file_exists`, and the parser's two imports,
      each of which may reject the document. Parsing is not modelled. */
  datatype FeedSource = FeedSource(
    fileExists: string -> bool,
    importFile: string -> Result<ParsedFeed, Error>,
    importRemote: string -> Result<ParsedFeed, Error>)

  /** The import `load($file)` performs: local when the path exists,
      remote otherwise. */
  function Import(source: FeedSource, file: string): Result<ParsedFeed, Error> {
    if source.fileExists(file) then source.importFile(file) else source.importRemote(file)
  }

  class Reader {
    var feed: Option<ParsedFeed>
    var hydrator: DefaultHydrator?

    /** A new reader holds no feed and no hydrator. */
    constructor ()
      ensures feed == None && hydrator == null
    {
      feed := None;
      hydrator := null;
    }

    /** `setHydrator($hydrator)`. */
    method SetHydrator(h: DefaultHydrator)
      modifies this`hydrator
      ensures hydrator == h
    {
      hydrator := h;
    }

    /** `load($file)`: the imported feed replaces any earlier one and the
        reader itself is returned; a rejected import leaves it unchanged. */
    method Load(file: string, source: FeedSource) returns (r: Result<Reader, Error>)
      modifies this`feed
      ensures Import(source, file).Ok? ==> r == Ok(this) && feed == Some(Import(source, file).value)
      ensures Import(source, file).Err? ==> r == Err(Import(source, file).error) && feed == old(feed)
    {
      var imported: Result<ParsedFeed, Error>;
      if source.fileExists(file) {
        imported := source.importFile(file);
      } else {
        imported := source.importRemote(file);
      }
      if imported.Err? {
        return Err(imported.error);
      }
      feed := Some(imported.value);
      return Ok(this);
    }

    /** `get()`: the loaded feed, or an error before any load. */
    method Get() returns (r: Result<ParsedFeed, Error>)
      ensures feed.None? ==> r == Err(FeedNotLoaded)
      ensures feed.Some? ==> r == Ok(feed.value)
    {
      var checked := CheckIfFeedIsLoaded();
      if checked.Err? {
        return Err(checked.error);
      }
      return Ok(feed.value);
    }

    /** `checkIfFeedIsLoaded()`. */
    method CheckIfFeedIsLoaded() returns (r: Result<(), Error>)
      ensures r.Err? <==> feed.None?
      ensures r.Err? ==> r.error == FeedNotLoaded
    {
      if feed.None? {
        return Err(FeedNotLoaded);
      }
      return Ok(());
    }

    /** `populate($entityName)`: the class is checked first, then the
        loaded feed, then the hydrator hydrates the feed. */
    method Populate(entityName: string, classes: ClassTable) returns (r: Result<seq<ReaderEntity>, Error>)
      ensures !classes.defined(entityName) ==> r == Err(EntityNotFound(entityName))
      ensures classes.defined(entityName) && feed.None? ==> r == Err(FeedNotLoaded)
      ensures classes.defined(entityName) && feed.Some? && hydrator == null ==> r == Err(CallOnNull)
      ensures classes.defined(entityName) && feed.Some? && hydrator != null ==>
                (r.Err? <==> HydrateError(feed.value, entityName, classes).Some?) &&
                (r.Err? ==> r.error == HydrateError(feed.value, entityName, classes).value) &&
                (r.Ok? ==> |r.value| == |feed.value.entries| &&
                           (forall i :: 0 <= i < |r.value| ==>
                              fresh(r.value[i]) && Hydrated(r.value[i], feed.value.entries[i], entityName)) &&
                           forall i, j :: 0 <= i < j < |r.value| ==> r.value[i] != r.value[j])
    {
      if !classes.defined(entityName) {
        return Err(EntityNotFound(entityName));
      }
      var loaded := Get();
      if loaded.Err? {
        return Err(loaded.error);
      }
      if hydrator == null {
        return Err(CallOnNull);
      }
      r := hydrator.Hydrate(loaded.value, entityName, classes);
    }
  }
}
