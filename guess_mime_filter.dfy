/**
 * The guess_mime header and body filters, for one request.
 *
 * State is the part of an ngx_http_request_t the two filters read or
 * write: the location's `enable` flag, the module's per-request context
 * (only ever NULL or the marker 0x1, so a boolean), `keepalive`, the
 * `headers_out.headers` list, and a trace of the calls the filters make
 * into the rest of nginx (the next header filter, the next body filter,
 * ngx_http_filter_finalize_request). HeaderStep and BodyStep say what one
 * call of each filter does to that state; the Request class carries the
 * same state in fields and runs the body filter's scan loop.
 */
module GuessMime {
  import opened ChainScan
  import GuessMimeConf

  /** NGX_HTTP_INTERNAL_SERVER_ERROR. */
  const InternalServerError: int := 500

  /** An ngx_table_elt_t of headers_out.headers; lowcaseKey is None for a NULL lowcase_key. */
  datatype Header = Header(hash: int, key: string, value: string, lowcaseKey: Option<string>)

  const PotatoKey: string := "Potato-Enabled"
  const PotatoValue: string := "true"

  /** ngx_tolower on one character: only 'A'..'Z' change. */
  function LowerChar(c: char): char {
    if 'A' <= c <= 'Z' then (c as int + 32) as char else c
  }

  /** ngx_strlow: the key with every ASCII capital lowered. */
  function LowerCase(s: string): (r: string)
    ensures |r| == |s|
    ensures forall k :: 0 <= k < |s| && !('A' <= s[k] <= 'Z') ==> r[k] == s[k]
    ensures forall k :: 0 <= k < |s| && 'A' <= s[k] <= 'Z' ==> 'a' <= r[k] <= 'z' && r[k] as int == s[k] as int + 32
  {
    seq(|s|, k requires 0 <= k < |s| => LowerChar(s[k]))
  }

  /** The header entry as the filter leaves it when the lowcase_key allocation fails. */
  const PotatoHeaderNoLowcase: Header := Header(1, PotatoKey, PotatoValue, None)

  /** The header entry the filter appends on a hit when every allocation succeeds. */
  const PotatoHeader: Header := Header(1, PotatoKey, PotatoValue, Some(LowerCase(PotatoKey)))

  /** A call the filters make out of this module. */
  datatype Event =
    | NextHeader(headers: seq<Header>, keepalive: bool)
                              // ngx_http_next_header_filter(r): the headers go downstream as they are then
    | NextBody(chain: Chain)  // ngx_http_next_body_filter(r, chain)
    | Finalize(status: int)   // ngx_http_filter_finalize_request(r, module, status)

  /**
   * What a filter call returns. The values the rest of nginx returns are
   * not modelled, only whose value the filter passes back.
   */
  datatype Rc =
    | Ok                          // NGX_OK, without calling downstream
    | Error                       // NGX_ERROR
    | FromNextHeader              // whatever the next header filter returned
    | FromNextBody                // whatever the next body filter returned
    | FromFinalize(status: int)   // whatever ngx_http_filter_finalize_request returned

  /**
   * The request as the filters see it. `inspected` records, in order, the
   * chain positions whose byte the body filter compared with 'X'.
   */
  datatype State = State(
    enable: bool,
    ctx: bool,
    keepalive: bool,
    headers: seq<Header>,
    trace: seq<Event>,
    inspected: seq<Pos>)

  /** A request as it reaches the filters: no context yet, nothing traced. */
  function Fresh(enable: bool, keepalive: bool, headers: seq<Header>): State {
    State(enable, false, keepalive, headers, [], [])
  }

  /** Whether the header filter withholds the headers rather than forwarding them. */
  predicate Withholds(enable: bool, ctx: bool) {
    enable && !ctx
  }

  /** The call of the next header filter, carrying the headers and keepalive it is handed. */
  function Released(s: State): Event {
    NextHeader(s.headers, s.keepalive)
  }

  /** One call of ngx_http_guess_mime_header_filter. */
  function HeaderStep(s: State): (State, Rc) {
    if !s.enable then (s.(trace := s.trace + [Released(s)]), FromNextHeader)
    else if s.ctx then (s.(trace := s.trace + [Released(s)]), FromNextHeader)
    else (s, Ok)
  }

  /**
   * ngx_http_send_header(r): a call of the top header filter. The model
   * takes that to be this module's, which FilterLinkage.Filters.InstalledOver
   * states of the chain heads after Init.
   */
  function SendHeaderStep(s: State): State {
    HeaderStep(s).0
  }

  /** The tail of the body filter: pass the chain to the next body filter and return its value. */
  function ForwardBody(s: State, chain: Chain): (State, Rc) {
    (s.(trace := s.trace + [NextBody(chain)]), FromNextBody)
  }

  /**
   * What the body filter does on finding 'X': clear keepalive, push the
   * Potato-Enabled header, send the headers and forward the chain. pushOk
   * and lowcaseOk say whether ngx_list_push and ngx_pnalloc succeed.
   */
  function TriggerStep(s: State, chain: Chain, pushOk: bool, lowcaseOk: bool): (State, Rc) {
    var closing := s.(keepalive := false);
    if !pushOk then
      (closing.(trace := closing.trace + [Finalize(InternalServerError)]), FromFinalize(InternalServerError))
    else if !lowcaseOk then
      (closing.(headers := closing.headers + [PotatoHeaderNoLowcase]), Error)
    else
      ForwardBody(SendHeaderStep(closing.(headers := closing.headers + [PotatoHeader])), chain)
  }

  /**
   * One call of ngx_http_guess_mime_body_filter with chain `in` (named
   * `chain` here).
   */
  function BodyStep(s: State, chain: Chain, pushOk: bool, lowcaseOk: bool): (State, Rc) {
    if !s.enable || s.ctx then ForwardBody(s, chain)
    else ScanStep(s.(ctx := true), chain, pushOk, lowcaseOk)
  }

  /**
   * The body filter after it has set the marker: scan the chain, then
   * either handle the first 'X' or send the headers and forward the chain.
   */
  function ScanStep(s: State, chain: Chain, pushOk: bool, lowcaseOk: bool): (State, Rc) {
    var scanned := s.(inspected := s.inspected + Scanned(chain));
    if FirstTrigger(chain).None? then ForwardBody(SendHeaderStep(scanned), chain)
    else TriggerStep(scanned, chain, pushOk, lowcaseOk)
  }

  /** The per-request part of ngx_http_request_t that the two filters use. */
  class Request {
    const enable: bool
    var ctx: bool
    var keepalive: bool
    var headers: seq<Header>
    var trace: seq<Event>
    ghost var inspected: seq<Pos>

    ghost function Model(): State
      reads this
    {
      State(enable, ctx, keepalive, headers, trace, inspected)
    }

    /** A request served by a location whose merged guess_mime setting is `flag`. */
    constructor (flag: int, keepalive: bool, headers: seq<Header>)
      ensures Model() == Fresh(GuessMimeConf.Enabled(flag), keepalive, headers)
    {
      this.enable := GuessMimeConf.Enabled(flag);
      this.ctx := false;
      this.keepalive := keepalive;
      this.headers := headers;
      this.trace := [];
      this.inspected := [];
    }

    method CallNextHeader() returns (rc: Rc)
      modifies this
      ensures Model() == old(Model()).(trace := old(trace) + [Released(old(Model()))])
      ensures rc == FromNextHeader
    {
      trace := trace + [NextHeader(headers, keepalive)];
      rc := FromNextHeader;
    }

    method CallNextBody(chain: Chain) returns (rc: Rc)
      modifies this
      ensures (Model(), rc) == ForwardBody(old(Model()), chain)
    {
      trace := trace + [NextBody(chain)];
      rc := FromNextBody;
    }

    /** ngx_http_guess_mime_header_filter. */
    method HeaderFilter() returns (rc: Rc)
      modifies this
      ensures (Model(), rc) == HeaderStep(old(Model()))
      ensures ctx == old(ctx)
      ensures rc == Ok <==> Withholds(enable, ctx)
    {
      if !enable {
        rc := CallNextHeader();
        return;
      }
      if ctx {
        rc := CallNextHeader();
        return;
      }
      rc := Ok;
    }

    /**
     * ngx_http_send_header, reduced to the call of the top header filter.
     * That this filter heads the header chain is what
     * FilterLinkage.Filters.InstalledOver says after Init.
     */
    method SendHeader() returns (rc: Rc)
      modifies this
      ensures Model() == SendHeaderStep(old(Model()))
      ensures rc == HeaderStep(old(Model())).1
    {
      rc := HeaderFilter();
    }

    /** `ngx_http_send_header(r)` followed by passing the chain to the next body filter. */
    method SendAndForward(chain: Chain) returns (rc: Rc)
      modifies this
      ensures (Model(), rc) == ForwardBody(SendHeaderStep(old(Model())), chain)
    {
      var ignored := SendHeader();
      rc := CallNextBody(chain);
    }

    /** The body of the scan loop's `if (*p == 'X')` branch. */
    method OnTrigger(chain: Chain, pushOk: bool, lowcaseOk: bool) returns (rc: Rc)
      modifies this
      ensures (Model(), rc) == TriggerStep(old(Model()), chain, pushOk, lowcaseOk)
    {
      keepalive := false;
      if !pushOk {
        trace := trace + [Finalize(InternalServerError)];
        rc := FromFinalize(InternalServerError);
        return;
      }
      var h := PotatoHeaderNoLowcase;
      if !lowcaseOk {
        headers := headers + [h];
        rc := Error;
        return;
      }
      h := h.(lowcaseKey := Some(LowerCase(h.key)));
      headers := headers + [h];
      rc := SendAndForward(chain);
    }

    /** ngx_http_guess_mime_body_filter. */
    method BodyFilter(chain: Chain, pushOk: bool, lowcaseOk: bool) returns (rc: Rc)
      modifies this
      ensures (Model(), rc) == BodyStep(old(Model()), chain, pushOk, lowcaseOk)
    {
      if !enable {
        rc := CallNextBody(chain);
        return;
      }
      if ctx {
        rc := CallNextBody(chain);
        return;
      }

      ctx := true;
      rc := ScanChain(chain, pushOk, lowcaseOk);
    }

    /** The body filter's scan loop over the buffers of `chain`, and what follows it. */
    method ScanChain(chain: Chain, pushOk: bool, lowcaseOk: bool) returns (rc: Rc)
      modifies this
      ensures (Model(), rc) == ScanStep(old(Model()), chain, pushOk, lowcaseOk)
    {
      var i := 0;
      ghost var todo := Scanned(chain);
      while i < |chain|
        invariant 0 <= i <= |chain|
        invariant ctx == old(ctx) && keepalive == old(keepalive) && headers == old(headers) && trace == old(trace)
        invariant todo == ScanFrom(chain, i, 0) && inspected + todo == old(inspected) + Scanned(chain)
        invariant FindFrom(chain, i, 0) == FirstTrigger(chain)
      {
        var buf := chain[i];
        var j := 0;
        while j < |buf|
          invariant 0 <= j <= |buf|
          invariant ctx == old(ctx) && keepalive == old(keepalive) && headers == old(headers) && trace == old(trace)
          invariant todo == ScanFrom(chain, i, j) && inspected + todo == old(inspected) + Scanned(chain)
          invariant FindFrom(chain, i, j) == FirstTrigger(chain)
        {
          ScanStepInBuffer(chain, i, j);
          Consume(inspected, todo);
          inspected := inspected + [Pos(i, j)];
          todo := todo[1..];
          if buf[j] == TriggerByte {
            rc := OnTrigger(chain, pushOk, lowcaseOk);
            return;
          }
          j := j + 1;
        }
        ScanStepNextBuffer(chain, i, j);
        i := i + 1;
      }
      assert inspected == old(inspected) + Scanned(chain);

      rc := SendAndForward(chain);
    }
  }
}
