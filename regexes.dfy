/**
 * The regular-expression engine the extractors use, as an injected oracle.
 * A pattern is kept as the source's literal pattern text together with the
 * flags it is compiled with; what the engine finds with it is not modelled.
 */
module Regexes {
  import opened Wrappers

  /** A pattern and its flags (`re.IGNORECASE`, `re.DOTALL`). */
  datatype Regex = Regex(source: string, ignoreCase: bool, dotAll: bool)

  /**
   * `search(r, s)` is `re.search(r, s).group(1)` (`None` when nothing
   * matches); `findAll(r, s)` is `re.findall(r, s)` for a one-group pattern,
   * the group texts in order.
   */
  datatype Engine = Engine(
    search: (Regex, string) -> Option<string>,
    findAll: (Regex, string) -> seq<string>)

  /** The same pattern texts compiled with the same flags. */
  function Compile(patterns: seq<string>, ignoreCase: bool, dotAll: bool): seq<Regex>
  {
    seq(|patterns|, i requires 0 <= i < |patterns| => Regex(patterns[i], ignoreCase, dotAll))
  }
}
