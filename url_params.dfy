/**
 * A URL query string (`URLSearchParams`, or the `query` object of a request)
 * as a map from parameter name to its single value. Percent-encoding is not
 * modelled: `encodeURIComponent` and `decodeURIComponent` are treated as the
 * identity, so one value round-trips unchanged.
 */
module UrlParams {
  import opened Wrappers

  type Params = map<string, string>

  /** `params.get(key)`: the value, or `null`. */
  function Get(params: Params, key: string): Option<string> {
    if key in params then Some(params[key]) else None
  }

  /** The value of `params.get(key)` is truthy: present and not the empty string. */
  predicate IsSet(params: Params, key: string) {
    key in params && params[key] != ""
  }
}
