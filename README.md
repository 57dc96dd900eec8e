# guess_mime nginx filter, modelled in Dafny

This project models the nginx output filter module `ngx_http_guess_mime_module`.
The module installs one header filter and one body filter. When a location has
`guess_mime on`, the two filters work together as follows:

- **Header filter.** It withholds the response headers. It returns `NGX_OK` and
  does not call the next header filter.
- **Body filter, first call for a request.**
  - It sets the module's per-request context. This is a marker that is never
    cleared.
  - It scans every buffer of the incoming chain, byte by byte, in chain order,
    looking for the byte `'X'`.
  - On the first `'X'`, it clears `keepalive`, appends the header
    `Potato-Enabled: true`, sends the headers and forwards the chain.
  - Without an `'X'`, it just sends the headers and forwards the chain.
- **Sending the headers.** Sending goes through the module's own header filter
  again. Because the marker is now set, the header filter forwards this time.
- **Later calls.** Every later body call forwards its chain untouched.
- **Disabled location.** Both filters only call the next filter.

Three more parts are modelled:

- The `guess_mime` flag. It is a tri-state value (unset, 0 or 1), and a child
  block's value takes precedence over its parent's.
- The creation of the location configuration.
- The installation of the two filters at the heads of nginx's filter chains.

The module is named after MIME-type guessing, and the source includes
`magic.h`. But the code never calls libmagic, never looks at a file signature
and never changes `Content-Type`. It only looks for `'X'` and adds the
`Potato-Enabled` header. The model follows the code, not the module's name. It
also does not model a two-stage type lookup or a classifier.

Layout:

- `chain_scan.dfy` (module `ChainScan`): buffer chains and the byte scan.
  - `FindFrom` is the first `'X'` from a position on.
  - `ScanFrom` is the list of positions the scan compares, in order.
  - Both are recursive, and lemmas characterise them against a plain
    "holds an 'X' somewhere" predicate.
- `guess_mime_filter.dfy` (module `GuessMime`): the per-request state.
  - `HeaderStep` and `BodyStep` are the specification of one filter call.
  - The class `Request` holds the same state in fields.
  - Its methods `HeaderFilter` and `BodyFilter` update the fields in place.
    After setting the marker, `BodyFilter` hands over to `ScanChain`, which
    runs the source's nested scan loop. Each method is proved to leave
    exactly the state its step function gives.
- `filter_properties.dfy` (module `GuessMimeProperties`): the promises of one
  call, and of whole requests made of many calls (`Run`).
- `guess_mime_conf.dfy` (module `GuessMimeConf`): create/merge of the location
  setting, and the value a nested block ends up with.
- `filter_linkage.dfy` (module `FilterLinkage`): the postconfiguration step that
  links the filters into the chains.

Modelling choices:

- A chain is `seq<seq<Byte>>`. There is one inner sequence per buffer, holding
  the bytes from `pos` up to `last`.
- The per-request context is a `bool`, because the code only ever stores NULL
  or the marker `0x1` in it.
- The calls the filters make into the rest of nginx are recorded in a trace, in
  order. These are the next header filter, the next body filter and
  `ngx_http_filter_finalize_request`. A call of the next header filter records
  the headers list and the keepalive flag it is handed, so the trace shows
  what went downstream. A filter's return value is one of the following:
  - `NGX_OK`;
  - `NGX_ERROR`;
  - "whatever the next filter, or the finalizer, returned".
- Whether `ngx_list_push` and `ngx_pnalloc` succeed is a parameter of the body
  filter.
- The filter ignores the return value of `ngx_http_send_header`. The model
  ignores it too.
- `ngx_http_send_header` is modelled as a call of this module's header filter.
  After `Init` that filter is at the head of the header chain.
- The ghost field `inspected` records each chain position whose byte the scan
  compares with `'X'`. This makes the scan order something the proofs can state.

## Model

| member | source | states |
|---|---|---|
| `ChainScan.FindFromIsFirst` | ngx_http_guess_mime_module.c:149-153 | The position `FindFrom` gives holds `'X'` and is not before the start. No byte from the start up to that position (or, with no result, to the end of the chain) is `'X'`. So it is the first `'X'` in chain order. |
| `ChainScan.FirstTriggerIffPresent` | ngx_http_guess_mime_module.c:149-153 | The scan finds a hit exactly when some buffer of the chain holds `'X'`. |
| `ChainScan.ScanFromExactly` | ngx_http_guess_mime_module.c:149-179 | The scan compares exactly the valid positions from its start up to and including the first `'X'`. No byte after a hit is examined. |
| `ChainScan.ScanFromInOrder` | ngx_http_guess_mime_module.c:149-152 | The scan compares positions in strictly increasing chain order: buffers in `next` order, then bytes from `pos` up to `last`. So no byte is compared twice. |
| `ChainScan.ScannedStopsAtFirstTrigger` | ngx_http_guess_mime_module.c:149-179 | For a whole chain, on a hit the last byte compared is the first `'X'` and every earlier byte compared is not `'X'`. Without a hit, every byte of every buffer is compared. |
| `GuessMime.LowerCase` | ngx_http_guess_mime_module.c:170-174 | The lowercase key has the key's length. ASCII capitals become the matching small letters (+32), and every other character is unchanged. |
| `GuessMime.Request.HeaderFilter` | ngx_http_guess_mime_module.c:90-113 | Gives the state of `HeaderStep` and leaves the marker alone. It returns `NGX_OK`, without calling the next header filter, exactly when the location is enabled and the marker is unset. |
| `GuessMime.Request.SendHeader` | ngx_http_guess_mime_module.c:186-187 | Sending the headers has exactly the effect, and returns exactly the value, of one call of this module's header filter. |
| `GuessMime.Request.SendAndForward` | ngx_http_guess_mime_module.c:186-190 | Sending the headers and then passing the chain on gives the state of one header-filter call followed by one call of the next body filter with the chain, and returns that filter's value. |
| `GuessMime.Request.OnTrigger` | ngx_http_guess_mime_module.c:153-179 | The hit branch gives the state of `TriggerStep`. It clears keepalive. If the push fails, it finalizes with 500. If the lowercase key allocation fails, it leaves the pushed entry without a lowercase key and returns `NGX_ERROR`. Otherwise it appends the Potato-Enabled header, sends the headers and forwards the chain. |
| `GuessMime.Request.BodyFilter` | ngx_http_guess_mime_module.c:116-191 | The in-place filter leaves exactly the state and return value that `BodyStep` gives for the old state. |
| `GuessMime.Request.ScanChain` | ngx_http_guess_mime_module.c:149-190 | The nested scan loop, run after the marker is set, records exactly the positions `Scanned` lists, then takes the hit branch exactly when `FirstTrigger` finds an `'X'`, and otherwise sends the headers and forwards the chain: the state and value of `ScanStep`. |
| `GuessMimeProperties.HeaderFilterDecision` | ngx_http_guess_mime_module.c:96-112 | The header filter returns `NGX_OK` if and only if the location is enabled and the marker is unset, and then changes nothing. Otherwise it records one call of the next header filter and passes its value back. It never changes the marker. |
| `GuessMimeProperties.DisabledIsPassThrough` | ngx_http_guess_mime_module.c:130-134 | On a disabled location, the header filter only calls the next header filter. The body filter only passes the unchanged chain to the next body filter. The marker, headers, keepalive and inspected bytes are untouched. |
| `GuessMimeProperties.MarkerSetOnce` | ngx_http_guess_mime_module.c:136-144 | After any body call, the marker is set exactly when it was set before or the location is enabled. Once it is set, a body call forwards the chain and does nothing else: no scan, no header change, no headers sent. |
| `GuessMimeProperties.ReentrantSendForwards` | ngx_http_guess_mime_module.c:102-107 | Once the marker is set, the header filter call that `ngx_http_send_header` makes forwards the headers. |
| `GuessMimeProperties.FirstCallWithoutTrigger` | ngx_http_guess_mime_module.c:143-190 | On the first enabled call with no `'X'` in the chain, the whole chain is scanned. Headers and keepalive are unchanged. The trace gains exactly "headers sent" and then "chain forwarded", in that order. |
| `GuessMimeProperties.FirstCallWithTrigger` | ngx_http_guess_mime_module.c:143-179 | On the first enabled call whose chain holds `'X'`, with allocations succeeding: the scan ends on an `'X'` and compares no later byte, keepalive is cleared, and exactly the Potato-Enabled entry is appended. The trace then gains the headers sent, already carrying that entry and keepalive off, and after that the chain forwarded. |
| `GuessMimeProperties.FirstCallAllocationFailure` | ngx_http_guess_mime_module.c:161-173 | On a hit, a failed `ngx_list_push` finalizes the request with 500 and appends nothing. A failed lowercase key allocation leaves the pushed entry and returns `NGX_ERROR`. In both cases keepalive is cleared, and this filter neither sends the headers nor forwards the chain itself. |
| `GuessMimeProperties.PotatoHeaderFields` | ngx_http_guess_mime_module.c:167-174 | The appended entry has hash 1, key `Potato-Enabled`, value `true` and lowercase key `potato-enabled`. |
| `GuessMimeProperties.PassedInOrder` | ngx_http_guess_mime_module.c:189-190 | Passing calls on produces one event per call, in call order. Each body call's event carries exactly its chain, and each header call's event the request's headers and keepalive. |
| `GuessMimeProperties.SettledRunIsPassThrough` | ngx_http_guess_mime_module.c:130-141 | On a disabled location, or once the marker is set, any sequence of filter calls only forwards each header call and each chain, unchanged and in order. Nothing else in the request changes. |
| `GuessMimeProperties.EnabledBodies` | ngx_http_guess_mime_module.c:136-190 | On an enabled, unmarked request, a run of body calls inspects only the first chain. It sends the headers once, as the request ends up with them, before forwarding every chain in order. The headers and keepalive change only if that first chain holds `'X'`: then the entry is added and keepalive cleared before the headers go out. |
| `GuessMimeProperties.DisabledRun` | ngx_http_guess_mime_module.c:90-134 | On a disabled location, a header call and then any calls leave the request unchanged except for the trace, which gains the headers as they are and then each call passed on in order. |
| `GuessMimeProperties.RequestLifecycle` | ngx_http_guess_mime_module.c:90-191 | For a whole request (one header call, then body calls) the trace is the same whether the location is enabled or not: the headers once, carrying the final headers list and keepalive, then every chain unchanged and in order. When enabled, only the first chain is inspected, and the Potato-Enabled header is added and keepalive cleared exactly when that chain holds `'X'`, so the released headers carry them. An enabled request with no body call never sends its headers. |
| `GuessMimeProperties.ApplyKeepsReleasedAsIs` | ngx_http_guess_mime_module.c:96-190 | One call of either filter, with any allocation outcome, keeps the invariant that every header release so far carried the request's current headers and keepalive, and that an enabled, unmarked request has released nothing. |
| `GuessMimeProperties.HeadersFrozenOnceReleased` | ngx_http_guess_mime_module.c:90-191 | For any sequence of calls on a fresh request, including failed allocations, every release of the headers carried exactly the headers list and keepalive the request ends with: nothing changes them once they have gone downstream. |
| `GuessMimeConf.MergeValue` | ngx_http_guess_mime_module.c:217 | A set child value always wins. With a set default, the merged value is never unset. Merging flags gives a flag. |
| `GuessMimeConf.CreateConf` | ngx_http_guess_mime_module.c:194-209 | Returns a new configuration with the setting unset, or null exactly when the allocation fails. |
| `GuessMimeConf.MergeConf` | ngx_http_guess_mime_module.c:212-220 | Updates the child's setting in place to the merge of the child over the parent with default 0. The result is never unset. |
| `GuessMimeConf.ResolvedIsInnermostSet` | ngx_http_guess_mime_module.c:211-217 | Below the http{} level, a block's setting is the value of the innermost enclosing block that sets it, or 0 when none does. It is never unset, and it is 0 or 1 when every written value is a flag. |
| `GuessMimeConf.MergeIdempotent` | ngx_http_guess_mime_module.c:217 | Merging an already merged setting with the same parent again changes nothing. |
| `GuessMime.Request.constructor` | ngx_http_guess_mime_module.c:125-131 | A request reaches the filters with no context set and nothing traced. It counts as enabled exactly when its location's merged setting is non-zero. |
| `FilterLinkage.Filters.Init` | ngx_http_guess_mime_module.c:223-234 | The former chain heads become this module's next header and body filters, and this module's two filters become the heads. |

## Left out

- libmagic: `magic.h` is included but never called, so there is no MIME
  classification, no `Content-Type` rewrite and no classifier lifecycle to model.
- Debug output (`fprintf` and `ngx_log_debug0`): it has no effect on the
  filter's state or its calls.
- The directive, module-context and module tables, and `ngx_conf_set_flag_slot`:
  these are declarative registration. The merged setting is the input of the
  `Request` constructor, which reads it as `GuessMimeConf.Enabled` (non-zero
  means on).
- `MergeConf` always returns `NGX_CONF_OK`, and `Init` always returns `NGX_OK`.
  The model's methods have no return value for them.
- Memory pools: `ngx_pcalloc`, `ngx_list_push` and `ngx_pnalloc` become success
  flags. Uninitialised fields of a pushed list element, other than the four the
  filter sets, are not modelled.
- The error response `ngx_http_filter_finalize_request` sends after a failed
  `ngx_list_push`: it goes back through the filter chains, and since the marker
  is set this module's filters would forward it. The model records only the
  call of the finalizer.
- The return values of the next filters and of
  `ngx_http_filter_finalize_request`: they are represented only by whose value
  is passed back. What the finalizer does (error page, connection close) is not
  modelled beyond the recorded call.
- `ngx_http_send_header` beyond the call of the top header filter: the
  `header_sent` and `post_action` checks belong to nginx.
- The commented-out status change and `header_sent` reset.
- Concurrency: each request has its own state, and one request is modelled.
- Other filter modules installed after this one are not modelled. With such
  modules, `ngx_http_send_header` reaches this module's header filter through
  them instead of directly.
