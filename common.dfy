/** Optional values, as for a JSON field that may be absent. */
module Wrappers {
  datatype Option<+T> = None | Some(value: T)
}

/**
 * What a client observes from one `requests.post(...)`, `raise_for_status()`,
 * `.json()` chain: the post itself raised (connection error, timeout), the
 * status check raised (4xx/5xx), the body was not JSON, or a decoded body.
 */
module Http {
  datatype Outcome<+T> = PostFailed | StatusFailed | DecodeFailed | Decoded(body: T)
}

/** The constants of config.py that the modelled code reads. */
module Config {
  const LANGUAGE: string := "en"
  const BEAM_SIZE: int := 1
}
