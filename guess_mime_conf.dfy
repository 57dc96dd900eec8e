/**
 * The `guess_mime on|off` location setting.
 *
 * The setting is an ngx_flag_t: NGX_CONF_UNSET (-1) until a directive sets
 * it to 0 or 1 (ngx_conf_set_flag_slot). nginx creates one configuration
 * per http{}, server{} and location{} block and merges each with its
 * enclosing block's, child over parent, with 0 when neither is set.
 */
module GuessMimeConf {

  /** NGX_CONF_UNSET. */
  const ConfUnset: int := -1

  /** The values the setting can hold: unset, off, on. */
  predicate IsFlag(v: int) {
    v == ConfUnset || v == 0 || v == 1
  }

  /** How the filters read the setting: `!gmcf->enable` means off. */
  predicate Enabled(v: int) {
    v != 0
  }

  /**
   * ngx_conf_merge_value(conf, prev, default): the child's value if it is
   * set, else the parent's if that is set, else the default.
   */
  function MergeValue(conf: int, prev: int, default: int): (r: int)
    ensures conf != ConfUnset ==> r == conf
    ensures default != ConfUnset ==> r != ConfUnset
    ensures IsFlag(conf) && IsFlag(prev) && IsFlag(default) ==> IsFlag(r)
  {
    if conf == ConfUnset then (if prev == ConfUnset then default else prev) else conf
  }

  /** ngx_http_guess_mime_conf_t. */
  class LocConf {
    var enable: int

    constructor ()
      ensures enable == ConfUnset
    {
      enable := ConfUnset;
    }
  }

  /**
   * ngx_http_guess_mime_create_conf: a new configuration with the setting
   * unset, or null when ngx_pcalloc fails (allocOk false).
   */
  method CreateConf(allocOk: bool) returns (conf: LocConf?)
    ensures allocOk <==> conf != null
    ensures conf != null ==> fresh(conf) && conf.enable == ConfUnset
  {
    if !allocOk {
      return null;
    }
    conf := new LocConf();
  }

  /** ngx_http_guess_mime_merge_conf: resolve the child's setting against its parent's, in place. */
  method MergeConf(prev: LocConf, curr: LocConf)
    modifies curr
    ensures curr.enable == MergeValue(old(curr.enable), old(prev.enable), 0)
    ensures curr.enable != ConfUnset
  {
    if curr.enable == ConfUnset {
      curr.enable := if prev.enable == ConfUnset then 0 else prev.enable;
    }
  }

  /**
   * The setting a block ends up with: scopes[0] is the http{} level's own
   * value, which is never merged, and each later entry is the value written
   * in the next nested block (server{}, location{}, nested location{}),
   * merged with the already merged value of its parent.
   */
  function Resolved(scopes: seq<int>): int
    requires |scopes| > 0
  {
    if |scopes| == 1 then scopes[0]
    else MergeValue(scopes[|scopes| - 1], Resolved(scopes[..|scopes| - 1]), 0)
  }

  /**
   * Below the http{} level, a block's setting is the one written in the
   * innermost enclosing block that sets it, and 0 when no block sets it;
   * it is never left unset and stays a flag.
   */
  lemma {:induction false} ResolvedIsInnermostSet(scopes: seq<int>)
    requires |scopes| >= 2
    ensures Resolved(scopes) != ConfUnset
    ensures (forall k :: 0 <= k < |scopes| ==> scopes[k] == ConfUnset) ==> Resolved(scopes) == 0
    ensures forall k :: 0 <= k < |scopes| && scopes[k] != ConfUnset &&
                        (forall m :: k < m < |scopes| ==> scopes[m] == ConfUnset)
                        ==> Resolved(scopes) == scopes[k]
    ensures (forall k :: 0 <= k < |scopes| ==> IsFlag(scopes[k])) ==> Resolved(scopes) == 0 || Resolved(scopes) == 1
    decreases |scopes|
  {
    var n := |scopes|;
    var parent := scopes[..n - 1];
    assert Resolved(scopes) == MergeValue(scopes[n - 1], Resolved(parent), 0);
    if n == 2 {
      assert Resolved(parent) == scopes[0];
    } else {
      ResolvedIsInnermostSet(parent);
      forall k | 0 <= k < n && scopes[k] != ConfUnset && (forall m :: k < m < n ==> scopes[m] == ConfUnset)
        ensures Resolved(scopes) == scopes[k]
      {
        if k < n - 1 {
          assert parent[k] == scopes[k];
          assert forall m :: k < m < n - 1 ==> parent[m] == scopes[m];
        }
      }
      if forall k :: 0 <= k < n ==> IsFlag(scopes[k]) {
        assert forall k :: 0 <= k < n - 1 ==> parent[k] == scopes[k];
      }
    }
  }

  /** Merging again with the same parent changes nothing. */
  lemma MergeIdempotent(conf: int, prev: int)
    ensures MergeValue(MergeValue(conf, prev, 0), prev, 0) == MergeValue(conf, prev, 0)
  {
  }
}
