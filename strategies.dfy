/** `OmniAuth.strategies`: the registry every strategy class joins when it
    includes `OmniAuth::Strategy`. Declaring a class is modelled as an
    explicit call to `Register`. */
module Strategies {
  import opened Values

  /** A strategy class, known by its constant name. */
  type Strategy = string

  class Registry {
    /** The registered strategies, oldest first. */
    var strategies: seq<Strategy>

    constructor ()
      ensures strategies == []
    {
      strategies := [];
    }

    /** `OmniAuth.strategies.size`. */
    function Size(): (n: nat)
      reads this
      ensures n == 0 <==> Last() == None
    {
      |strategies|
    }

    /** `OmniAuth.strategies.last`: the most recently declared strategy. */
    function Last(): (r: Option<Strategy>)
      reads this
      ensures r.Some? <==> strategies != []
      ensures r.Some? ==> strategies == strategies[..|strategies| - 1] + [r.value]
    {
      if strategies == [] then None else Some(strategies[|strategies| - 1])
    }

    /** Including `OmniAuth::Strategy` in a class appends the class; nothing
        is checked and nothing can fail, so a class declared twice is
        registered twice. */
    method Register(s: Strategy)
      modifies this
      ensures strategies == old(strategies) + [s]
      ensures Size() == old(Size()) + 1 && Last() == Some(s)
    {
      strategies := strategies + [s];
    }
  }

  /** Declaring a new strategy class grows the registry by one and makes it
      the last entry. */
  method DeclareExampleStrategy(registry: Registry)
    modifies registry
    ensures registry.Size() == old(registry.Size()) + 1
    ensures registry.Last() == Some("ExampleStrategy")
  {
    registry.Register("ExampleStrategy");
  }
}
