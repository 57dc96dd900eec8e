/**
 * What the header and body filters promise, one call at a time and over a
 * whole request: a disabled location is untouched, the marker is set on
 * the first enabled body call and never cleared, the headers are withheld
 * until that call and then sent before the chain is forwarded, and every
 * chain is forwarded unchanged and in order.
 */
module GuessMimeProperties {
  import opened ChainScan
  import opened GuessMime

  /** The header filter withholds exactly when enabled and unmarked, and never touches the marker. */
  lemma HeaderFilterDecision(s: State)
    ensures HeaderStep(s).1 == Ok <==> Withholds(s.enable, s.ctx)
    ensures Withholds(s.enable, s.ctx) ==> HeaderStep(s).0 == s
    ensures !Withholds(s.enable, s.ctx) ==>
              HeaderStep(s) == (s.(trace := s.trace + [NextHeader(s.headers, s.keepalive)]), FromNextHeader)
    ensures HeaderStep(s).0.ctx == s.ctx
  {
  }

  /** On a disabled location both filters only call the next filter. */
  lemma DisabledIsPassThrough(s: State, chain: Chain, pushOk: bool, lowcaseOk: bool)
    requires !s.enable
    ensures HeaderStep(s) == (s.(trace := s.trace + [NextHeader(s.headers, s.keepalive)]), FromNextHeader)
    ensures BodyStep(s, chain, pushOk, lowcaseOk) == (s.(trace := s.trace + [NextBody(chain)]), FromNextBody)
  {
  }

  /**
   * The marker is set by the first enabled body call and by nothing else,
   * and once set the body filter forwards the chain without scanning it or
   * sending headers.
   */
  lemma MarkerSetOnce(s: State, chain: Chain, pushOk: bool, lowcaseOk: bool)
    ensures BodyStep(s, chain, pushOk, lowcaseOk).0.ctx == (s.ctx || s.enable)
    ensures s.ctx ==> BodyStep(s, chain, pushOk, lowcaseOk) == (s.(trace := s.trace + [NextBody(chain)]), FromNextBody)
  {
  }

  /** Once the marker is set, the call ngx_http_send_header makes into this module forwards. */
  lemma ReentrantSendForwards(s: State)
    requires s.ctx
    ensures SendHeaderStep(s) == s.(trace := s.trace + [NextHeader(s.headers, s.keepalive)])
  {
  }

  /**
   * The first enabled body call without a trigger byte: the whole chain is
   * scanned, the headers go out unchanged, then the chain is forwarded.
   */
  lemma FirstCallWithoutTrigger(s: State, chain: Chain, pushOk: bool, lowcaseOk: bool)
    requires s.enable && !s.ctx
    requires !HasTrigger(chain)
    ensures var (r, rc) := BodyStep(s, chain, pushOk, lowcaseOk);
            r.ctx && r.inspected == s.inspected + Scanned(chain)
            && r.headers == s.headers && r.keepalive == s.keepalive
            && r.trace == s.trace + [NextHeader(s.headers, s.keepalive), NextBody(chain)] && rc == FromNextBody
    ensures forall q :: ValidPos(chain, q) ==> q in Scanned(chain)
  {
    FirstTriggerIffPresent(chain);
    ScannedStopsAtFirstTrigger(chain);
  }

  /**
   * The first enabled body call on a chain holding 'X', allocations
   * succeeding: the scan ends at the first 'X', keepalive is cleared,
   * exactly the Potato-Enabled header is added, and only then do the
   * headers go out, carrying that header and keepalive off, before the
   * chain is forwarded.
   */
  lemma FirstCallWithTrigger(s: State, chain: Chain)
    requires s.enable && !s.ctx
    requires HasTrigger(chain)
    ensures var (r, rc) := BodyStep(s, chain, true, true);
            r.ctx && r.inspected == s.inspected + Scanned(chain)
            && r.headers == s.headers + [PotatoHeader] && !r.keepalive
            && r.trace == s.trace + [NextHeader(s.headers + [PotatoHeader], false), NextBody(chain)]
            && rc == FromNextBody
    ensures |Scanned(chain)| > 0
    ensures var last := Scanned(chain)[|Scanned(chain)| - 1];
            ValidPos(chain, last) && chain[last.buf][last.off] == TriggerByte
            && forall q :: ValidPos(chain, q) && Before(last, q) ==> q !in Scanned(chain)
  {
    FirstTriggerIffPresent(chain);
    FindFromIsFirst(chain, 0, 0);
    ScannedStopsAtFirstTrigger(chain);
    ScanFromExactly(chain, 0, 0);
  }

  /**
   * The allocation failures on a hit: keepalive is cleared, and this
   * filter itself neither sends the headers nor forwards the chain. A
   * failed ngx_list_push hands the request to the finalizer with 500 (the
   * error response the finalizer then sends back through the filters is
   * not modelled); a failed lowcase_key allocation leaves the pushed entry
   * in the list and returns NGX_ERROR.
   */
  lemma FirstCallAllocationFailure(s: State, chain: Chain, pushOk: bool, lowcaseOk: bool)
    requires s.enable && !s.ctx
    requires HasTrigger(chain)
    requires !pushOk || !lowcaseOk
    ensures var (r, rc) := BodyStep(s, chain, pushOk, lowcaseOk);
            r.ctx && !r.keepalive
            && (!pushOk ==> r.headers == s.headers && r.trace == s.trace + [Finalize(InternalServerError)]
                            && rc == FromFinalize(InternalServerError))
            && (pushOk ==> r.headers == s.headers + [PotatoHeaderNoLowcase] && r.trace == s.trace
                           && rc == Error)
  {
    FirstTriggerIffPresent(chain);
  }

  /** The entry the filter appends: hash 1, "Potato-Enabled: true", lowercase key "potato-enabled". */
  lemma PotatoHeaderFields()
    ensures PotatoHeader == Header(1, "Potato-Enabled", "true", Some("potato-enabled"))
  {
    var low := LowerCase(PotatoKey);
    assert low[0] == 'p';
    assert low[7] == 'e';
    assert low == "potato-enabled";
  }

  /** A call made on the request by nginx. */
  datatype Call = HeaderCall | BodyCall(chain: Chain, pushOk: bool, lowcaseOk: bool)

  function Apply(s: State, c: Call): State {
    match c
    case HeaderCall => HeaderStep(s).0
    case BodyCall(chain, pushOk, lowcaseOk) => BodyStep(s, chain, pushOk, lowcaseOk).0
  }

  /** The request after a sequence of filter calls. */
  function Run(s: State, calls: seq<Call>): State
    decreases |calls|
  {
    if calls == [] then s else Run(Apply(s, calls[0]), calls[1..])
  }

  /** The event a call on request `s` produces when the filter just passes it on. */
  function PassOn(s: State, c: Call): Event {
    match c
    case HeaderCall => NextHeader(s.headers, s.keepalive)
    case BodyCall(chain, _, _) => NextBody(chain)
  }

  /** The events of passing every call on, in call order. */
  function Passed(s: State, calls: seq<Call>): (r: seq<Event>)
    ensures |r| == |calls|
  {
    if calls == [] then [] else [PassOn(s, calls[0])] + Passed(s, calls[1..])
  }

  /** Passing calls on keeps them in order, one event per call. */
  lemma {:induction false} PassedInOrder(s: State, calls: seq<Call>)
    ensures forall k :: 0 <= k < |calls| ==> Passed(s, calls)[k] == PassOn(s, calls[k])
    decreases |calls|
  {
    if calls != [] {
      PassedInOrder(s, calls[1..]);
      forall k | 0 <= k < |calls|
        ensures Passed(s, calls)[k] == PassOn(s, calls[k])
      {
        if k > 0 {
          assert Passed(s, calls)[k] == Passed(s, calls[1..])[k - 1];
        }
      }
    }
  }

  /** The events of passing calls on depend on the request only through its headers and keepalive. */
  lemma {:induction false} PassedSameHeaders(s: State, t: State, calls: seq<Call>)
    requires s.headers == t.headers && s.keepalive == t.keepalive
    ensures Passed(s, calls) == Passed(t, calls)
    decreases |calls|
  {
    if calls != [] {
      PassedSameHeaders(s, t, calls[1..]);
    }
  }

  /** One call on a disabled location or a marked request only passes the call on. */
  lemma ApplySettled(s: State, c: Call)
    requires !s.enable || s.ctx
    ensures Apply(s, c) == s.(trace := s.trace + [PassOn(s, c)])
  {
  }

  /**
   * On a disabled location, or once the marker is set, any further calls
   * only pass headers and chains on, in order, and change nothing else.
   */
  lemma {:induction false} SettledRunIsPassThrough(s: State, calls: seq<Call>)
    requires !s.enable || s.ctx
    ensures Run(s, calls) == s.(trace := s.trace + Passed(s, calls))
    decreases |calls|
  {
    if calls != [] {
      var s1 := Apply(s, calls[0]);
      assert Run(s, calls) == Run(s1, calls[1..]);
      ApplySettled(s, calls[0]);
      assert Passed(s1, calls[1..]) == Passed(s, calls[1..]) by {
        PassedSameHeaders(s1, s, calls[1..]);
      }
      SettledRunIsPassThrough(s1, calls[1..]);
      assert s.trace + [PassOn(s, calls[0])] + Passed(s, calls[1..]) == s.trace + Passed(s, calls);
    }
  }

  /** The body calls of an enabled request: the first is inspected, the rest pass through. */
  lemma EnabledBodies(s0: State, bodies: seq<Call>)
    requires s0.enable && !s0.ctx && |bodies| > 0 && bodies[0].BodyCall?
    requires bodies[0].pushOk && bodies[0].lowcaseOk
    ensures var r := Run(s0, bodies);
            var hit := HasTrigger(bodies[0].chain);
            r.trace == s0.trace + [NextHeader(r.headers, r.keepalive)] + Passed(r, bodies)
            && r.ctx && r.inspected == s0.inspected + Scanned(bodies[0].chain)
            && r.headers == s0.headers + (if hit then [PotatoHeader] else [])
            && r.keepalive == (s0.keepalive && !hit)
  {
    var b := bodies[0];
    var hit := HasTrigger(b.chain);
    var s2 := Apply(s0, b);
    assert s2.trace == s0.trace + [NextHeader(s2.headers, s2.keepalive), NextBody(b.chain)]
           && s2.ctx && s2.inspected == s0.inspected + Scanned(b.chain)
           && s2.headers == s0.headers + (if hit then [PotatoHeader] else [])
           && s2.keepalive == (s0.keepalive && !hit) by {
      if hit {
        FirstCallWithTrigger(s0, b.chain);
      } else {
        FirstCallWithoutTrigger(s0, b.chain, true, true);
      }
    }
    var r := Run(s0, bodies);
    assert r == s2.(trace := s2.trace + Passed(s2, bodies[1..])) by {
      assert r == Run(s2, bodies[1..]);
      SettledRunIsPassThrough(s2, bodies[1..]);
    }
    var rest := Passed(s2, bodies[1..]);
    assert Passed(r, bodies) == [NextBody(b.chain)] + rest by {
      PassedSameHeaders(r, s2, bodies);
      assert Passed(s2, bodies) == [PassOn(s2, b)] + rest;
    }
    Regroup(s0.trace, NextHeader(r.headers, r.keepalive), NextBody(b.chain), rest);
  }

  /** Regrouping a trace around its released headers. */
  lemma Regroup(a: seq<Event>, x: Event, y: Event, p: seq<Event>)
    ensures a + [x, y] + p == a + [x] + ([y] + p)
  {
    assert [x, y] == [x] + [y];
  }

  /** A disabled request: the headers go out as they are, then every chain, and nothing else changes. */
  lemma DisabledRun(s0: State, bodies: seq<Call>)
    requires !s0.enable
    ensures var r := Run(HeaderStep(s0).0, bodies);
            r == s0.(trace := s0.trace + [NextHeader(s0.headers, s0.keepalive)] + Passed(s0, bodies))
  {
    var s1 := HeaderStep(s0).0;
    SettledRunIsPassThrough(s1, bodies);
    PassedSameHeaders(s1, s0, bodies);
  }

  /** RequestLifecycle on a disabled location. */
  lemma DisabledLifecycle(keepalive: bool, headers: seq<Header>, bodies: seq<Call>)
    ensures var r := Run(Fresh(false, keepalive, headers), [HeaderCall] + bodies);
            r.trace == [NextHeader(r.headers, r.keepalive)] + Passed(r, bodies)
            && !r.ctx && r.inspected == [] && r.headers == headers && r.keepalive == keepalive
  {
    var s0 := Fresh(false, keepalive, headers);
    RunHeaderFirst(s0, bodies);
    var r := Run(HeaderStep(s0).0, bodies);
    assert r == s0.(trace := [NextHeader(s0.headers, s0.keepalive)] + Passed(s0, bodies)) by {
      DisabledRun(s0, bodies);
    }
    PassedSameHeaders(r, s0, bodies);
  }

  /** RequestLifecycle on an enabled location with at least one body call. */
  lemma EnabledLifecycle(keepalive: bool, headers: seq<Header>, bodies: seq<Call>)
    requires |bodies| > 0 && bodies[0].BodyCall? && bodies[0].pushOk && bodies[0].lowcaseOk
    ensures var r := Run(Fresh(true, keepalive, headers), [HeaderCall] + bodies);
            var hit := HasTrigger(bodies[0].chain);
            r.trace == [NextHeader(r.headers, r.keepalive)] + Passed(r, bodies)
            && r.ctx && r.inspected == Scanned(bodies[0].chain)
            && r.headers == headers + (if hit then [PotatoHeader] else [])
            && r.keepalive == (keepalive && !hit)
  {
    var s0 := Fresh(true, keepalive, headers);
    WithheldHeaderCall(s0, bodies);
    EnabledBodies(s0, bodies);
  }

  /** RequestLifecycle on an enabled location with no body call: the headers stay withheld. */
  lemma WithheldWithoutBody(keepalive: bool, headers: seq<Header>)
    ensures Run(Fresh(true, keepalive, headers), [HeaderCall]) == Fresh(true, keepalive, headers)
  {
    RunHeaderFirst(Fresh(true, keepalive, headers), []);
  }

  /** A header call the filter withholds leaves the request as it was. */
  lemma WithheldHeaderCall(s: State, bodies: seq<Call>)
    requires Withholds(s.enable, s.ctx)
    ensures Run(s, [HeaderCall] + bodies) == Run(s, bodies)
  {
    RunHeaderFirst(s, bodies);
  }

  /** A request's first call is its header call. */
  lemma RunHeaderFirst(s: State, bodies: seq<Call>)
    ensures Run(s, [HeaderCall] + bodies) == Run(HeaderStep(s).0, bodies)
  {
    assert ([HeaderCall] + bodies)[1..] == bodies;
  }

  /**
   * A whole request: the handler sends the headers, then the body arrives
   * in chains. Whether the location is enabled or not, nginx sees the
   * headers once, exactly as the request ends up with them, and then every
   * chain unchanged and in order; only the first chain is inspected, and
   * the headers change only when it holds 'X'. So on an enabled location
   * the headers are sent only after the Potato-Enabled entry is added and
   * keepalive cleared. With no body call the headers are never sent.
   */
  lemma RequestLifecycle(enable: bool, keepalive: bool, headers: seq<Header>, bodies: seq<Call>)
    requires forall k :: 0 <= k < |bodies| ==> bodies[k].BodyCall?
    requires |bodies| > 0 ==> bodies[0].pushOk && bodies[0].lowcaseOk
    ensures var r := Run(Fresh(enable, keepalive, headers), [HeaderCall] + bodies);
            var inspects := enable && |bodies| > 0;
            var hit := inspects && HasTrigger(bodies[0].chain);
            r.trace == (if enable && |bodies| == 0 then [] else [NextHeader(r.headers, r.keepalive)] + Passed(r, bodies))
            && r.ctx == inspects
            && r.inspected == (if inspects then Scanned(bodies[0].chain) else [])
            && r.headers == headers + (if hit then [PotatoHeader] else [])
            && r.keepalive == (keepalive && !hit)
  {
    if !enable {
      DisabledLifecycle(keepalive, headers, bodies);
    } else if |bodies| > 0 {
      EnabledLifecycle(keepalive, headers, bodies);
    } else {
      assert [HeaderCall] + bodies == [HeaderCall];
      WithheldWithoutBody(keepalive, headers);
    }
  }

  /**
   * Every header release recorded so far carried the request's current
   * headers and keepalive, and an enabled request that is not yet marked
   * has released nothing.
   */
  ghost predicate ReleasedAsIs(s: State) {
    (forall k :: 0 <= k < |s.trace| && s.trace[k].NextHeader? ==> s.trace[k] == NextHeader(s.headers, s.keepalive))
    && (s.enable && !s.ctx ==> forall k :: 0 <= k < |s.trace| ==> !s.trace[k].NextHeader?)
  }

  /** Appending events that are not releases to the trace keeps ReleasedAsIs. */
  lemma AppendNoRelease(s: State, t: State, tail: seq<Event>)
    requires ReleasedAsIs(s)
    requires t == s.(trace := s.trace + tail)
    requires forall k :: 0 <= k < |tail| ==> !tail[k].NextHeader?
    ensures ReleasedAsIs(t)
  {
    assert forall k :: |s.trace| <= k < |t.trace| ==> t.trace[k] == tail[k - |s.trace|];
  }

  /** One filter call of any kind, with any allocation outcome, keeps ReleasedAsIs. */
  lemma ApplyKeepsReleasedAsIs(s: State, c: Call)
    requires ReleasedAsIs(s)
    ensures ReleasedAsIs(Apply(s, c))
  {
    var t := Apply(s, c);
    match c
    case HeaderCall =>
      if !Withholds(s.enable, s.ctx) {
        assert t.trace == s.trace + [NextHeader(s.headers, s.keepalive)];
      }
    case BodyCall(chain, pushOk, lowcaseOk) =>
      if !s.enable || s.ctx {
        AppendNoRelease(s, t, [NextBody(chain)]);
      } else {
        forall k | 0 <= k < |t.trace| && t.trace[k].NextHeader?
          ensures t.trace[k] == NextHeader(t.headers, t.keepalive)
        {
          assert k >= |s.trace| ==> t.trace[k] == NextHeader(t.headers, t.keepalive);
        }
      }
  }

  lemma {:induction false} RunKeepsReleasedAsIs(s: State, calls: seq<Call>)
    requires ReleasedAsIs(s)
    ensures ReleasedAsIs(Run(s, calls))
    decreases |calls|
  {
    if calls != [] {
      ApplyKeepsReleasedAsIs(s, calls[0]);
      RunKeepsReleasedAsIs(Apply(s, calls[0]), calls[1..]);
    }
  }

  /**
   * Whatever calls a request sees, and whichever allocations fail, the
   * headers and keepalive the next header filter was handed are the ones
   * the request ends with: nothing in the filters changes them once they
   * have been released.
   */
  lemma HeadersFrozenOnceReleased(enable: bool, keepalive: bool, headers: seq<Header>, calls: seq<Call>)
    ensures var r := Run(Fresh(enable, keepalive, headers), calls);
            forall k :: 0 <= k < |r.trace| && r.trace[k].NextHeader? ==>
              r.trace[k].headers == r.headers && r.trace[k].keepalive == r.keepalive
  {
    RunKeepsReleasedAsIs(Fresh(enable, keepalive, headers), calls);
  }
}
