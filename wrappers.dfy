/** Optional values, standing in for JavaScript's `undefined` / `null`. */
module Wrappers {

  datatype Option<+T> = None | Some(value: T) {

    /** The value, or `default` when absent (JavaScript's `x || default` on a present value). */
    function GetOr(default: T): T {
      match this
      case Some(v) => v
      case None => default
    }
  }
}

/** The three ways an awaited `fetch` ends, as the tool clients and the chat hook see it. */
module Http {

  datatype Outcome<+T> =
    | Ok(data: T)                         // `response.ok`, body decoded
    | NotOk(status: nat, text: string)    // `!response.ok`, with status code and body text
    | Threw(message: string)              // `fetch` or `response.json()` threw
}
