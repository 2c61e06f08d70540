/** The validated configuration shape, the `owner:branch` upstream reference
    a sync rule carries, and the encoding of a typed configuration back into
    the untyped object the schema validator reads. */
module Schema {
  import opened Wrappers
  import opened Json

  /** One sync rule: keep local branch `base` in step with `upstream`. */
  datatype SyncRule = SyncRule(base: string, upstream: string, mergeMethod: string)

  /** A schema-valid configuration. Rule order is significant. */
  datatype PullConfig = PullConfig(version: string, rules: seq<SyncRule>)

  /** The branch of an upstream repository a fork follows. */
  datatype Upstream = Upstream(owner: string, branch: string)

  /** The upstream reference written into a rule: `owner:branch`. */
  function UpstreamRef(u: Upstream): string {
    u.owner + ":" + u.branch
  }

  /** Reads an `owner:branch` reference back, splitting at the first colon;
      `None` when the reference has no colon. */
  function SplitUpstream(ref: string): (r: Option<Upstream>)
    ensures r.Some? ==> UpstreamRef(r.value) == ref && ':' !in r.value.owner
    ensures r.None? <==> ':' !in ref
  {
    if ref == [] then None
    else if ref[0] == ':' then Some(Upstream([], ref[1..]))
    else match SplitUpstream(ref[1..])
      case None => None
      case Some(u) => Some(Upstream([ref[0]] + u.owner, u.branch))
  }

  /** Splitting a reference built from an owner without a colon gives back
      that owner and branch; so two such upstreams with the same reference
      are the same upstream. */
  lemma {:induction false} SplitUpstreamRef(u: Upstream)
    requires ':' !in u.owner
    ensures SplitUpstream(UpstreamRef(u)) == Some(u)
    decreases |u.owner|
  {
    var ref := UpstreamRef(u);
    if u.owner == [] {
      assert ref == [':'] + u.branch;
      assert ref[1..] == u.branch;
    } else {
      var rest := Upstream(u.owner[1..], u.branch);
      assert ref[0] == u.owner[0];
      assert ref[1..] == UpstreamRef(rest);
      SplitUpstreamRef(rest);
      assert [ref[0]] + rest.owner == u.owner;
    }
  }

  /** Distinct upstreams whose owners have no colon (true of every account
      login) never share a reference. */
  lemma UpstreamRefInjective(u: Upstream, v: Upstream)
    requires ':' !in u.owner && ':' !in v.owner
    requires UpstreamRef(u) == UpstreamRef(v)
    ensures u == v
  {
    SplitUpstreamRef(u);
    SplitUpstreamRef(v);
  }

  /** The untyped object a sync rule is written as. */
  function EncodeRule(rule: SyncRule): JsValue {
    JObject(map[
      "base" := JString(rule.base),
      "upstream" := JString(rule.upstream),
      "mergeMethod" := JString(rule.mergeMethod)])
  }

  /** The untyped object a configuration is written as. */
  function Encode(config: PullConfig): JsValue {
    JObject(map[
      "version" := JString(config.version),
      "rules" := JArray(seq(|config.rules|, i requires 0 <= i < |config.rules| => EncodeRule(config.rules[i])))])
  }
}
