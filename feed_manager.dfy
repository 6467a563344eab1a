/** `Feed\FeedManager`: the feeds named under `feeds` in the bundle's
    configuration, each created on first use and cached by name. */
module FeedManagement {
  import opened Wrappers
  import opened PhpValues
  import opened FeedErrors
  import opened FeedConfig

  class FeedManager {
    const config: map<string, Value>
    const router: Router
    var feeds: map<string, Feed>

    constructor (router: Router, config: map<string, Value>)
      ensures this.config == config && this.router == router && feeds == map[]
    {
      this.config := config;
      this.router := router;
      feeds := map[];
    }

    /** `has($feed)`: `isset($this->config['feeds'][$feed])`. */
    predicate Has(name: string) {
      "feeds" in config && HasKey(config["feeds"], name)
    }

    /** The configuration a feed of that name is created with, when its
        entry is an array. */
    function FeedConfigOf(name: string): (r: Option<map<string, Value>>)
      requires Has(name)
      ensures r.Some? <==> IsArray(Offset(config["feeds"], name).value)
    {
      AsConfig(Offset(config["feeds"], name).value)
    }

    /** Whether `get($name)` returns a feed: the name is configured and the
        feed is cached or its entry is an array the `Feed` constructor takes. */
    predicate Provides(name: string)
      reads this
    {
      Has(name) && (name in feeds || FeedConfigOf(name).Some?)
    }

    /** `get($feed)`: an unknown name is an error; a known one gives the
        cached feed, or a new feed created from its entry and given the
        router, which is cached under that name only. */
    method Get(name: string) returns (r: Result<Feed, Error>)
      modifies this`feeds
      ensures r.Ok? <==> old(Provides(name))
      ensures !Has(name) ==> r == Err(FeedNotDefined(name))
      ensures Has(name) && !old(Provides(name)) ==> r == Err(TypeError)
      ensures r.Err? ==> feeds == old(feeds)
      ensures Has(name) && name in old(feeds) ==> r == Ok(old(feeds)[name]) && feeds == old(feeds)
      ensures r.Ok? && name !in old(feeds) ==>
                fresh(r.value) && r.value.config == FeedConfigOf(name).value &&
                r.value.router == Some(router) && feeds == old(feeds)[name := r.value]
    {
      if !Has(name) {
        return Err(FeedNotDefined(name));
      }
      if name !in feeds {
        var settings := AsConfig(Offset(config["feeds"], name).value);
        if settings.None? {
          return Err(TypeError);
        }
        var feed := new Feed(settings.value);
        feed.SetRouter(router);
        feeds := feeds[name := feed];
      }
      return Ok(feeds[name]);
    }
  }

  /** `has($feed)` is `isset($config['feeds'][$feed])`: with no `feeds`
      entry, or one that is not an array, nothing is configured; in an
      associative array a name is configured exactly when its entry is
      present and not null; in a list, when the name is a canonical index
      of a non-null entry. */
  lemma HasIsIsset(m: FeedManager, name: string)
    ensures "feeds" !in m.config ==> !m.Has(name)
    ensures "feeds" in m.config && !IsArray(m.config["feeds"]) && !m.config["feeds"].Str? ==> !m.Has(name)
    ensures "feeds" in m.config && m.config["feeds"].Map? ==>
              (m.Has(name) <==> var e := Lookup(m.config["feeds"].entries, name); e.Some? && e.value != Null)
    ensures "feeds" in m.config && m.config["feeds"].List? ==>
              (m.Has(name) <==> var i := ParseIndex(name);
                                i.Some? && i.value < |m.config["feeds"].items| && m.config["feeds"].items[i.value] != Null)
  {
  }

  /** A feed configured as an associative array gets exactly its entries. */
  lemma FeedConfigIsEntry(m: FeedManager, name: string, key: string)
    requires m.Has(name) && Offset(m.config["feeds"], name).value.Map?
    ensures var entries := Offset(m.config["feeds"], name).value.entries;
            var c := m.FeedConfigOf(name).value;
            (key in c <==> Lookup(entries, key).Some?) &&
            (key in c ==> c[key] == Lookup(entries, key).value)
  {
  }

  /** A feed configured as a list keeps every position under its decimal key. */
  lemma {:induction false} FeedConfigOfList(m: FeedManager, name: string, i: nat)
    requires m.Has(name) && Offset(m.config["feeds"], name).value.List?
    requires i < |Offset(m.config["feeds"], name).value.items|
    ensures var c := m.FeedConfigOf(name).value;
            NatToString(i) in c && c[NatToString(i)] == Offset(m.config["feeds"], name).value.items[i]
  {
    ParseIndexOfNatToString(i);
  }
}
