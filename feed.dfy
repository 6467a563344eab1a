/** `Feed\Feed`: a feed's configuration, read and redefined by key. */
module FeedConfig {
  import opened Wrappers
  import opened PhpValues

  /** The routing service: `generate($name, $parameters, $absolute)`. URL
      generation is foreign and kept abstract. */
  datatype Router = Router(generate: (string, Value, bool) -> string)

  class Feed {
    var config: map<string, Value>
    /** The router the feed manager attaches; the `setRouter` it calls is
        not defined on the shown `Feed`, so the model adds the field. */
    var router: Option<Router>

    /** `new Feed(array $config)`: the configuration is stored verbatim. */
    constructor (config: map<string, Value>)
      ensures this.config == config && router == None
    {
      this.config := config;
      router := None;
    }

    /** `get($parameter, $default = null)`: the value set under the key,
        unless it is missing or null. */
    function Get(parameter: string, default: Value := Null): (r: Value)
      reads this
      ensures parameter in config && config[parameter] != Null ==> r == config[parameter]
      ensures parameter !in config || config[parameter] == Null ==> r == default
    {
      if parameter in config && config[parameter] != Null then config[parameter] else default
    }

    /** `set($parameter, $value)`: the key takes the value, null included;
        every other key keeps its value. */
    method Set(parameter: string, value: Value)
      modifies this`config
      ensures config == old(config)[parameter := value]
      ensures forall d :: Get(parameter, d) == if value == Null then d else value
      ensures forall q, d :: q != parameter ==> Get(q, d) == old(Get(q, d))
    {
      config := config[parameter := value];
    }

    method SetRouter(r: Router)
      modifies this`router
      ensures router == Some(r)
    {
      router := Some(r);
    }
  }
}
