/** `Service\FeedDumpService`: renders a configured feed, optionally filled
    from an entity repository, and writes it to a file. */
module DumpService {
  import opened Wrappers
  import opened PhpValues
  import opened FeedErrors
  import opened FeedConfig
  import opened FeedManagement

  /** A call the service makes on a collaborator, in the order made: the
      repository query, the feed's `addFromArray` and `render`, and the
      filesystem's `dumpFile`. */
  datatype Effect =
    | FindBy(entity: string, criteria: Value, orderBy: Value, limit: Value)
    | AddFromArray(feed: string, items: seq<Value>)
    | Render(feed: string, format: Value)
    | DumpFile(path: string, content: string)

  /** The collaborators whose answers the service uses: the repository's
      `findBy` and the feed's `render`. Both are foreign and kept abstract;
      what a feed renders depends here only on its name and the format. */
  datatype Collaborators = Collaborators(
    findBy: (string, Value, Value, Value) -> seq<Value>,
    render: (string, Value) -> string)

  /** `$this->direction` as the `switch` compares it with `'ASC'` and `'DESC'`. */
  predicate IsDirection(direction: Value) {
    LooseEqualsWord(direction, "ASC") || LooseEqualsWord(direction, "DESC")
  }

  /** The key a value becomes in `array($key => ...)`; an array or an
      object cannot be a key. */
  function ArrayKey(v: Value): (r: Result<string, Error>)
    ensures r.Err? <==> IsArray(v) || v.Date?
    ensures v.Str? ==> r == Ok(v.s)
  {
    match v
    case Null => Ok("")
    case Bool(b) => Ok(if b then "1" else "0")
    case Int(i) => Ok(IntToString(i))
    case Str(s) => Ok(s)
    case _ => Err(IllegalOffset)
  }

  /** `$this->orderBy` after `initDirection()`. */
  function DirectedOrder(orderBy: Value, direction: Value): (r: Result<Value, Error>)
    ensures orderBy == Null ==> r == Ok(Null)
    ensures orderBy != Null && !IsDirection(direction) ==> r == Err(InvalidDirection)
    ensures orderBy != Null && IsDirection(direction) && ArrayKey(orderBy).Ok? ==>
              r == Ok(Map([(ArrayKey(orderBy).value, direction)]))
    ensures orderBy != Null && IsDirection(direction) && ArrayKey(orderBy).Err? ==> r == Err(IllegalOffset)
  {
    if orderBy == Null then Ok(Null)
    else if !IsDirection(direction) then Err(InvalidDirection)
    else
      var key :- ArrayKey(orderBy);
      Ok(Map([(key, direction)]))
  }

  /** The calls `dump()` makes once the feed is found. */
  function DumpEffects(name: string, entity: Option<string>, orderBy: Value, limit: Value,
                       format: Value, path: string, c: Collaborators): seq<Effect>
  {
    (if entity.Some?
     then [FindBy(entity.value, List([]), orderBy, limit),
           AddFromArray(name, c.findBy(entity.value, List([]), orderBy, limit))]
     else [])
    + [Render(name, format), DumpFile(path, c.render(name, format))]
  }

  class FeedDumpService {
    const feedManager: FeedManager
    const collaborators: Collaborators
    var name: string
    var entity: Option<string>
    var filename: string
    var format: Value
    var limit: Value
    var direction: Value
    var orderBy: Value
    var rootDir: string
    /** The calls made on the collaborators so far. */
    var trace: seq<Effect>

    /** A new service: every option unset. A null name is looked up as "",
        and null paths concatenate as "", so those start empty. */
    constructor (feedManager: FeedManager, collaborators: Collaborators)
      ensures this.feedManager == feedManager && this.collaborators == collaborators
      ensures name == "" && entity == None && filename == "" && format == Null && limit == Null
      ensures direction == Null && orderBy == Null && rootDir == "" && trace == []
    {
      this.feedManager := feedManager;
      this.collaborators := collaborators;
      name := "";
      entity := None;
      filename := "";
      format := Null;
      limit := Null;
      direction := Null;
      orderBy := Null;
      rootDir := "";
      trace := [];
    }

    /** `initDirection()`: with an ordering, a valid direction turns it into
        the one-entry array `{orderBy: direction}`. */
    method InitDirection() returns (r: Result<(), Error>)
      modifies this`orderBy
      ensures var d := DirectedOrder(old(orderBy), direction);
              (d.Ok? ==> r == Ok(()) && orderBy == d.value) &&
              (d.Err? ==> r == Err(d.error) && orderBy == old(orderBy))
    {
      if orderBy != Null {
        if LooseEqualsWord(direction, "ASC") || LooseEqualsWord(direction, "DESC") {
          var key := ArrayKey(orderBy);
          if key.Err? {
            return Err(key.error);
          }
          orderBy := Map([(key.value, direction)]);
        } else {
          return Err(InvalidDirection);
        }
      }
      return Ok(());
    }

    /** `dump()`: the direction is checked before the feed is looked up;
        then the entity's items, if any, are added, and the rendered feed
        is written to `rootDir . filename`. The lookup leaves the feed
        cached in the feed manager. */
    method Dump() returns (r: Result<(), Error>)
      modifies this`orderBy, this`trace, feedManager`feeds
      ensures var d := DirectedOrder(old(orderBy), direction);
              (d.Err? ==> r == Err(d.error) && orderBy == old(orderBy) && trace == old(trace) &&
                          feedManager.feeds == old(feedManager.feeds)) &&
              (d.Ok? ==> orderBy == d.value)
      ensures DirectedOrder(old(orderBy), direction).Ok? ==>
                (r.Ok? <==> old(feedManager.Provides(name))) &&
                (r.Err? ==> trace == old(trace) && feedManager.feeds == old(feedManager.feeds)) &&
                (!feedManager.Has(name) ==> r == Err(FeedNotDefined(name)))
      ensures r.Ok? ==> trace == old(trace) + DumpEffects(name, entity, orderBy, limit, format, rootDir + filename, collaborators)
      ensures r.Ok? ==> name in feedManager.feeds && feedManager.feeds == old(feedManager.feeds)[name := feedManager.feeds[name]]
      ensures r.Ok? && name in old(feedManager.feeds) ==> feedManager.feeds == old(feedManager.feeds)
      ensures r.Ok? && name !in old(feedManager.feeds) ==>
                fresh(feedManager.feeds[name]) && feedManager.Has(name) &&
                feedManager.feeds[name].config == feedManager.FeedConfigOf(name).value &&
                feedManager.feeds[name].router == Some(feedManager.router)
    {
      var checked := InitDirection();
      if checked.Err? {
        return Err(checked.error);
      }
      var feed := feedManager.Get(name);
      if feed.Err? {
        return Err(feed.error);
      }
      if entity.Some? {
        var items := collaborators.findBy(entity.value, List([]), orderBy, limit);
        trace := trace + [FindBy(entity.value, List([]), orderBy, limit)];
        trace := trace + [AddFromArray(name, items)];
      }
      var dump := collaborators.render(name, format);
      trace := trace + [Render(name, format)];
      var filepath := rootDir + filename;
      trace := trace + [DumpFile(filepath, dump)];
      return Ok(());
    }

    /** `setItems($items)`: the items are added to the named feed, which
        the lookup leaves cached in the feed manager. */
    method SetItems(items: seq<Value>) returns (r: Result<FeedDumpService, Error>)
      modifies this`trace, feedManager`feeds
      ensures r.Ok? <==> old(feedManager.Provides(name))
      ensures r.Ok? ==> r.value == this && trace == old(trace) + [AddFromArray(name, items)]
      ensures r.Err? ==> trace == old(trace) && feedManager.feeds == old(feedManager.feeds)
      ensures r.Ok? ==> name in feedManager.feeds && feedManager.feeds == old(feedManager.feeds)[name := feedManager.feeds[name]]
      ensures r.Ok? && name in old(feedManager.feeds) ==> feedManager.feeds == old(feedManager.feeds)
      ensures r.Ok? && name !in old(feedManager.feeds) ==>
                fresh(feedManager.feeds[name]) && feedManager.Has(name) &&
                feedManager.feeds[name].config == feedManager.FeedConfigOf(name).value &&
                feedManager.feeds[name].router == Some(feedManager.router)
    {
      var feed := feedManager.Get(name);
      if feed.Err? {
        return Err(feed.error);
      }
      trace := trace + [AddFromArray(name, items)];
      return Ok(this);
    }

    method SetName(name: string) returns (r: FeedDumpService)
      modifies this`name
      ensures this.name == name && r == this
    {
      this.name := name;
      return this;
    }

    method SetEntity(entity: Option<string>) returns (r: FeedDumpService)
      modifies this`entity
      ensures this.entity == entity && r == this
    {
      this.entity := entity;
      return this;
    }

    method SetFilename(filename: string) returns (r: FeedDumpService)
      modifies this`filename
      ensures this.filename == filename && r == this
    {
      this.filename := filename;
      return this;
    }

    method SetFormat(format: Value) returns (r: FeedDumpService)
      modifies this`format
      ensures this.format == format && r == this
    {
      this.format := format;
      return this;
    }

    method SetLimit(limit: Value) returns (r: FeedDumpService)
      modifies this`limit
      ensures this.limit == limit && r == this
    {
      this.limit := limit;
      return this;
    }

    method SetDirection(direction: Value) returns (r: FeedDumpService)
      modifies this`direction
      ensures this.direction == direction && r == this
    {
      this.direction := direction;
      return this;
    }

    method SetOrderBy(orderBy: Value) returns (r: FeedDumpService)
      modifies this`orderBy
      ensures this.orderBy == orderBy && r == this
    {
      this.orderBy := orderBy;
      return this;
    }

    method SetRootDir(rootDir: string) returns (r: FeedDumpService)
      modifies this`rootDir
      ensures this.rootDir == rootDir && r == this
    {
      this.rootDir := rootDir;
      return this;
    }
  }


  // ---------------------------------------------------------------------

  /** Without an ordering the direction is irrelevant, null included. */
  lemma NoOrderingAcceptsAnyDirection(direction: Value)
    ensures DirectedOrder(Null, direction) == Ok(Null)
  {
  }

  /** With an ordering, a null or any other word than ASC/DESC is refused. */
  lemma OrderingNeedsDirection(orderBy: Value, word: string)
    requires orderBy != Null && word != "ASC" && word != "DESC"
    ensures DirectedOrder(orderBy, Null) == Err(InvalidDirection)
    ensures DirectedOrder(orderBy, Str(word)) == Err(InvalidDirection)
  {
  }

  /** A column name with ASC or DESC becomes `{column: direction}`. */
  lemma ColumnOrdering(column: string, asc: bool)
    ensures var d := Str(if asc then "ASC" else "DESC");
            DirectedOrder(Str(column), d) == Ok(Map([(column, d)]))
  {
  }

  /** `initDirection` is not idempotent: after it turned a column into an
      array, running it again (a second `dump` on the same service) fails,
      because the array is then used as a key. */
  lemma SecondDirectionFails(orderBy: Value, direction: Value)
    requires DirectedOrder(orderBy, direction).Ok? && orderBy != Null
    ensures DirectedOrder(DirectedOrder(orderBy, direction).value, direction) == Err(IllegalOffset)
  {
  }

  /** With no entity there is no repository query; with one there is
      exactly one, with no criteria, and its result is what is added. */
  lemma RepositoryQueriedOnlyForEntity(name: string, entity: Option<string>, orderBy: Value, limit: Value,
                                      format: Value, path: string, c: Collaborators)
    ensures var es := DumpEffects(name, entity, orderBy, limit, format, path, c);
            (entity.None? ==> forall i :: 0 <= i < |es| ==> !es[i].FindBy? && !es[i].AddFromArray?) &&
            (entity.Some? ==> es[0] == FindBy(entity.value, List([]), orderBy, limit) &&
                              es[1] == AddFromArray(name, c.findBy(entity.value, List([]), orderBy, limit)))
  {
  }

  /** The dump is written last, to the root directory joined with the file
      name, and holds the feed rendered in the format. */
  lemma DumpWrittenLast(name: string, entity: Option<string>, orderBy: Value, limit: Value,
                        format: Value, rootDir: string, filename: string, c: Collaborators)
    ensures var es := DumpEffects(name, entity, orderBy, limit, format, rootDir + filename, c);
            |es| >= 2 && es[|es| - 1] == DumpFile(rootDir + filename, c.render(name, format)) &&
            es[|es| - 2] == Render(name, format)
  {
  }
}
