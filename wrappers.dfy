/** Optional values: Python's `None` and the fields a JSON object may lack. */
module Wrappers {

  datatype Option<+T> = None | Some(value: T) {

    /** The value, or `default` when there is none (`dict.get(key, default)`). */
    function GetOr(default: T): T {
      match this
      case Some(v) => v
      case None => default
    }
  }
}

/** The JSON documents passed between the services: objects with string fields ("id", "text"). */
module Payloads {

  type Document = map<string, string>
}

/** Integer helpers shared by the services. */
module Arith {

  function Min(a: int, b: int): int {
    if a <= b then a else b
  }

  function Max(a: int, b: int): int {
    if a >= b then a else b
  }
}
