/** The Some/None datatype used wherever the JavaScript code can hold `undefined`
    (an absent row field, an unset option) or where `parseFloat` yields NaN. */
module Wrappers {

  datatype Option<+T> = None | Some(value: T) {

    /** The held value, or `default` when there is none (JavaScript's
        `x || default` for an option that is never falsy when present). */
    function GetOr(default: T): (r: T)
      ensures Some? ==> r == value
      ensures None? ==> r == default
    {
      match this
      case Some(v) => v
      case None => default
    }
  }

  /** Looks a key up in a map, giving None when it is absent (JavaScript's
      `obj[key]` yielding `undefined`, never an error). */
  function Lookup<K, V>(m: map<K, V>, k: K): (r: Option<V>)
    ensures r.Some? <==> k in m
    ensures r.Some? ==> r.value == m[k]
  {
    if k in m then Some(m[k]) else None
  }
}
