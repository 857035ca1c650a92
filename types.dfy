/** Values the task controller works with, and the answers of the browser and
    network calls it makes. The model never performs those calls: every answer
    arrives as an input (an "oracle" value). */
module Types {

  datatype Option<T> = None | Some(value: T)

  /** A proxy endpoint as the proxy list service describes it. */
  datatype Proxy = Proxy(ip: string, port: int, login: string, password: string)

  /** A card slot on the main listing, as drawn by `choice(range(1, 6))`. */
  type Slot = n: int | 1 <= n <= 5 witness 1

  /** One draw of `click_random_item`: the slot drawn, whether its card is an
      advert, and, for a plain card, whether its hover and click returned. */
  datatype Draw = Draw(slot: Slot, advert: bool, clickOk: bool)

  /** How one results page answers `locate_item`: whether the target card could be
      scrolled to, hovered and clicked, and otherwise whether `next_page` moved on. */
  datatype PageProbe = PageProbe(itemFound: bool, nextOk: bool)

  /** How `perform_search` ends: it returns True; it catches a failure, closes the
      browser and returns False; or an exception escapes its own handler. */
  datatype SearchOutcome = Searched | SearchReturnedFalse | SearchThrew

  /** Everything the browser and the page answer during one iteration of the
      controller's loop, in the order the loop asks. */
  datatype CycleOracle = CycleOracle(
    userAgent: string,         // choice(USER_AGENTS)
    launchOk: bool,            // chromium.launch returned
    loadOk: bool,              // new_page and goto returned
    search: SearchOutcome,     // perform_search
    pages: seq<PageProbe>,     // page n of locate_item is pages[n - 1]
    addOk: bool,               // the primary add_to_cart click succeeded
    backOk: bool,              // page.go_back returned
    scrollOk: bool,            // smooth_scroll(3000) returned
    draws: seq<Draw>,          // click_random_item's draws
    secondAddOk: bool)         // the non-primary add_to_cart click succeeded

  /** Browser lifecycle events, in the order they happen. */
  datatype Event = Launched | Closed

  /** The configuration the controller reads: ERROR_LIMIT and PAGE_LIMIT. */
  datatype Config = Config(errorLimit: int, pageLimit: int)

  /** The launch argument that `launch` appends for a chosen user agent. */
  function UserAgentArg(userAgent: string): string
  {
    "--user-agent=" + userAgent
  }
}
