/** The step protocol the builder's steps follow: a step returns whether the
    build goes on, and steps share a string-keyed state bag. */
module Multistep {
  import opened Common

  /** `multistep.StepAction`. */
  datatype StepAction = ActionContinue | ActionHalt

  /** `multistep.StateBag`: a mutable map from keys to values. */
  class StateBag<V> {
    var entries: map<string, V>

    /** An empty bag. */
    constructor ()
      ensures entries == map[]
    {
      entries := map[];
    }

    /** `Put`: binds `key` to `value`, replacing any earlier binding. */
    method Put(key: string, value: V)
      modifies this`entries
      ensures entries == old(entries)[key := value]
    {
      entries := entries[key := value];
    }

    /** `GetOk`: the value bound to `key`, or `None` when there is none. */
    function GetOk(key: string): (r: Option<V>)
      reads this
      ensures r.Some? <==> key in entries
      ensures r.Some? ==> r.value == entries[key]
    {
      if key in entries then Some(entries[key]) else None
    }
  }
}
