/** The operation id a dashboard uses to invoke an endpoint (`getEndpointOperationId`). */
module OperationIds {
  import opened Wrappers
  import opened Endpoints

  /**
   * An explicit override annotation wins. Otherwise a top-level group gives
   * the bare endpoint name and any other group `identifier + "." + name`.
   */
  function OperationId(group: ApiGroup, endpoint: Endpoint): (id: string)
    ensures endpoint.operationIdOverride.Some? ==> id == endpoint.operationIdOverride.value
    ensures endpoint.operationIdOverride.None? ==>
      |endpoint.name| <= |id| && id[|id| - |endpoint.name|..] == endpoint.name
    ensures endpoint.operationIdOverride.None? && group.topLevel ==> id == endpoint.name
    ensures endpoint.operationIdOverride.None? && !group.topLevel ==>
      id == group.identifier + "." + endpoint.name
  {
    match endpoint.operationIdOverride
    case Some(explicit) => explicit
    case None =>
      if group.topLevel then endpoint.name
      else group.identifier + "." + endpoint.name
  }

  /** The id reads only the override, `topLevel`, the group identifier and the
      endpoint name: the group's other endpoints, the method and the path do not matter. */
  lemma OperationIdInputs(g1: ApiGroup, e1: Endpoint, g2: ApiGroup, e2: Endpoint)
    requires e1.operationIdOverride == e2.operationIdOverride && e1.name == e2.name
    requires g1.topLevel == g2.topLevel && g1.identifier == g2.identifier
    ensures OperationId(g1, e1) == OperationId(g2, e2)
  {
  }

  /**
   * Round trip: in a well-formed catalog the default id of an endpoint of a
   * group that is not top-level is itself a string identifier that looks up
   * the same group and endpoint, provided neither name holds a dot.
   */
  lemma OperationIdResolves(groups: Groups, g: string, e: string)
    requires WellFormed(groups)
    requires '.' !in g && '.' !in e
    requires Lookup(groups, Pair(g, e)).Some?
    ensures var (grp, ep) := Lookup(groups, Pair(g, e)).value;
      ep.operationIdOverride.None? && !grp.topLevel ==>
        && OperationId(grp, ep) == g + "." + e
        && Lookup(groups, Dotted(OperationId(grp, ep))) == Some((grp, ep))
  {
    var (grp, ep) := Lookup(groups, Pair(g, e)).value;
    if ep.operationIdOverride.None? && !grp.topLevel {
      assert OperationId(grp, ep) == g + "." + e;
      DottedAgreesWithPair(groups, g, e);
    }
  }
}
