/**
 * How the module joins nginx's output filter chains.
 *
 * nginx keeps the head of each chain in a global (ngx_http_top_header_filter,
 * ngx_http_top_body_filter); every filter module saves the current head in
 * its own static "next" pointer and makes its own filter the new head, so
 * each filter calls the one that was head before it.
 */
module FilterLinkage {

  /** A header filter function pointer; NullHeaderFilter is a static not yet assigned. */
  datatype HeaderFilterRef = NullHeaderFilter | GuessMimeHeaderFilter | OtherHeaderFilter(name: string)

  /** A body filter function pointer; NullBodyFilter is a static not yet assigned. */
  datatype BodyFilterRef = NullBodyFilter | GuessMimeBodyFilter | OtherBodyFilter(name: string)

  /** The two global chain heads and this module's two saved "next" pointers. */
  class Filters {
    var topHeader: HeaderFilterRef
    var topBody: BodyFilterRef
    var nextHeader: HeaderFilterRef
    var nextBody: BodyFilterRef

    /** The pointers before this module's postconfiguration runs: its statics are still NULL. */
    constructor (topHeader: HeaderFilterRef, topBody: BodyFilterRef)
      ensures this.topHeader == topHeader && this.topBody == topBody
      ensures nextHeader == NullHeaderFilter && nextBody == NullBodyFilter
    {
      this.topHeader := topHeader;
      this.topBody := topBody;
      nextHeader := NullHeaderFilter;
      nextBody := NullBodyFilter;
    }

    /** Whether this module heads both chains and forwards to the given filters. */
    predicate InstalledOver(header: HeaderFilterRef, body: BodyFilterRef)
      reads this
    {
      topHeader == GuessMimeHeaderFilter && topBody == GuessMimeBodyFilter
      && nextHeader == header && nextBody == body
    }

    /**
     * ngx_http_guess_mime_init: the former heads become this module's
     * "next" filters and this module's filters become the heads.
     */
    method Init()
      modifies this
      ensures InstalledOver(old(topHeader), old(topBody))
    {
      nextHeader := topHeader;
      nextBody := topBody;
      topHeader := GuessMimeHeaderFilter;
      topBody := GuessMimeBodyFilter;
    }
  }
}
