/**
 * The key prefix under which an SMPP transport keeps its Redis state
 * (in particular the sequence-number counter).  An explicitly configured
 * `split_bind_prefix` wins; otherwise the prefix is `<system_id>@<transport_name>`,
 * so that independently configured binds use disjoint counters.
 */
module BindPrefix {
  import opened Wrappers

  /** `'%s@%s' % (system_id, transport_name)`. */
  function DefaultPrefix(systemId: string, transportName: string): (p: string)
    ensures |p| == |systemId| + 1 + |transportName|
    ensures p[|systemId|] == '@'
  {
    systemId + "@" + transportName
  }

  /**
   * `config.split_bind_prefix or default_prefix`: Python's `or` falls through
   * on both `None` and the empty string.
   */
  function RedisPrefix(splitBindPrefix: Option<string>, systemId: string, transportName: string): (p: string)
    ensures p != []
    ensures splitBindPrefix.Some? && splitBindPrefix.value != [] ==> p == splitBindPrefix.value
    ensures splitBindPrefix.None? || splitBindPrefix.value == [] ==> p == DefaultPrefix(systemId, transportName)
  {
    if splitBindPrefix.Some? && splitBindPrefix.value != [] then
      splitBindPrefix.value
    else
      DefaultPrefix(systemId, transportName)
  }

  /** Index of the first '@' in `p`, or `|p|` when there is none. */
  function FirstAt(p: string): (i: nat)
    ensures i <= |p|
    ensures i < |p| ==> p[i] == '@'
    ensures forall j :: 0 <= j < i ==> p[j] != '@'
  {
    if p == [] then 0
    else if p[0] == '@' then 0
    else 1 + FirstAt(p[1..])
  }

  /** Reads a default prefix back as (system id, transport name), splitting at the first '@'. */
  function SplitPrefix(p: string): (parts: (string, string))
    ensures FirstAt(p) < |p| ==> p == DefaultPrefix(parts.0, parts.1)
    ensures '@' !in parts.0
  {
    var i := FirstAt(p);
    if i < |p| then
      assert p == p[..i] + "@" + p[i + 1..];
      (p[..i], p[i + 1..])
    else
      (p, "")
  }

  /** When the system id holds no '@', the default prefix determines both its parts. */
  lemma SplitDefaultPrefix(systemId: string, transportName: string)
    requires '@' !in systemId
    ensures SplitPrefix(DefaultPrefix(systemId, transportName)) == (systemId, transportName)
  {
    var p := DefaultPrefix(systemId, transportName);
    var i := FirstAt(p);
    assert p[..|systemId|] == systemId;
    assert i == |systemId|;
    assert p[i + 1..] == transportName;
  }

  /**
   * Two binds that use the default rule get the same prefix only when they have the
   * same system id and the same transport name (provided system ids hold no '@').
   */
  lemma DefaultPrefixInjective(a: string, t: string, b: string, u: string)
    requires '@' !in a && '@' !in b
    requires DefaultPrefix(a, t) == DefaultPrefix(b, u)
    ensures a == b && t == u
  {
    SplitDefaultPrefix(a, t);
    SplitDefaultPrefix(b, u);
  }

  /**
   * Two binds of the same transport whose system ids differ, and neither of which
   * sets `split_bind_prefix`, are kept under different prefixes (no restriction on '@').
   */
  lemma DistinctSystemIdsDistinctPrefixes(a: string, b: string, transportName: string, split: Option<string>)
    requires a != b
    requires split.None? || split.value == []
    ensures RedisPrefix(split, a, transportName) != RedisPrefix(split, b, transportName)
  {
    var pa, pb := DefaultPrefix(a, transportName), DefaultPrefix(b, transportName);
    assert pa[..|a|] == a;
    assert pb[..|b|] == b;
  }

  /**
   * Across different transport names the default rule is not injective: a system id
   * containing '@' can make two distinct binds share one prefix.
   */
  lemma DefaultPrefixCollision()
    ensures ("ab@c", "d") != ("ab", "c@d")
    ensures DefaultPrefix("ab@c", "d") == DefaultPrefix("ab", "c@d")
  {
  }
}
