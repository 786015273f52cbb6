/** The two pieces of state the handler changes in place: the `matches`
    list every evaluator pushes onto, and the key-value store. */
module State {
  import opened KeeperTypes

  /** The handler's `matches` array; it only ever grows at the end. */
  class MatchBuffer {
    var items: seq<Match>

    constructor ()
      ensures items == []
    {
      items := [];
    }

    method Push(m: Match)
      modifies this
      ensures items == old(items) + [m]
    {
      items := items + [m];
    }
  }

  /** The key-value store, holding the last equity-per-share of each strategy. */
  class KeyValueStore {
    var eps: EpsTable

    constructor (initial: EpsTable)
      ensures eps == initial
    {
      eps := initial;
    }

    method Set(key: Address, value: int)
      modifies this
      ensures eps == old(eps)[key := value]
    {
      eps := eps[key := value];
    }
  }
}
