/**
 * The endpoint catalog of an API description and the runtime lookup of an
 * endpoint identifier in it (`getEndpointByIdentifier`).
 */
module Endpoints {
  import opened Wrappers
  import opened Strings

  /** One endpoint of a group: its name, HTTP method, path template and the
      explicit operation-id override annotation, if it carries one. */
  datatype Endpoint = Endpoint(
    name: string,
    httpMethod: string,
    pathTemplate: string,
    operationIdOverride: Option<string>)

  /** One group of the API description, with its endpoints keyed by name. */
  datatype ApiGroup = ApiGroup(identifier: string, topLevel: bool, endpoints: map<string, Endpoint>)

  /** The API description's groups, keyed by group identifier. */
  type Groups = map<string, ApiGroup>

  /** An identifier names an endpoint either as `"Group.Endpoint"` or as a pair. */
  datatype EndpointIdentifier =
    | Dotted(text: string)
    | Pair(groupName: string, endpointName: string)

  /**
   * A catalog built by the API framework: every group is stored under its own
   * identifier and every endpoint under its own name.
   */
  predicate WellFormed(groups: Groups) {
    forall g :: g in groups ==>
      && groups[g].identifier == g
      && forall n :: n in groups[g].endpoints ==> groups[g].endpoints[n].name == n
  }

  /**
   * The group name and endpoint name an identifier asks for. A pair is used
   * as it is. A string is split on every `'.'`: piece 0 is the group, piece 1
   * the endpoint and further pieces are dropped; a string without a dot has
   * no endpoint piece.
   */
  function Segments(id: EndpointIdentifier): (r: (string, Option<string>))
    ensures id.Pair? ==> r == (id.groupName, Some(id.endpointName))
    ensures id.Dotted? ==> '.' !in r.0 && (r.1.Some? ==> '.' !in r.1.value)
    ensures id.Dotted? ==> (r.1.Some? <==> '.' in id.text)
  {
    match id
    case Pair(g, e) => (g, Some(e))
    case Dotted(s) =>
      var pieces := Split(s, '.');
      JoinSplit(s, '.');
      assert |pieces| == 1 ==> s == pieces[0];
      assert |pieces| >= 2 ==> s[|pieces[0]|] == '.';
      (pieces[0], if |pieces| >= 2 then Some(pieces[1]) else None)
  }

  /**
   * What the string form asks for, stated on the string itself: with no
   * endpoint piece the whole string is the group name; otherwise the string
   * starts with `group + "." + endpoint` and continues, if at all, with a dot.
   */
  lemma DottedSegments(s: string)
    ensures var (g, e) := Segments(Dotted(s));
      && (e.None? ==> g == s)
      && (e.Some? ==>
            var n := |g| + 1 + |e.value|;
            && n <= |s| && s[..n] == g + "." + e.value
            && (n == |s| || s[n] == '.'))
  {
    var pieces := Split(s, '.');
    JoinSplit(s, '.');
    if |pieces| == 2 {
      assert s == pieces[0] + "." + pieces[1];
    } else if |pieces| > 2 {
      assert pieces[1..][0] == pieces[1];
      assert pieces[1..][1..] == pieces[2..];
      assert s == pieces[0] + "." + (pieces[1] + "." + Join(pieces[2..], '.'));
      assert s == (pieces[0] + "." + pieces[1]) + ("." + Join(pieces[2..], '.'));
    }
  }

  /** Conversely, `group + "." + endpoint`, followed by nothing or by a dot and
      anything, asks for exactly that group and endpoint. */
  lemma SegmentsOfDotted(g: string, e: string, rest: string)
    requires '.' !in g && '.' !in e
    requires rest == [] || rest[0] == '.'
    ensures Segments(Dotted(g + "." + e + rest)) == (g, Some(e))
  {
    SplitAfter(g, e + rest, '.');
    assert g + "." + e + rest == g + ['.'] + (e + rest);
    if rest == [] {
      SplitFree(e, '.');
      assert e + rest == e;
    } else {
      SplitAfter(e, rest[1..], '.');
      assert e + rest == e + ['.'] + rest[1..];
    }
  }

  /**
   * `getEndpointByIdentifier`: the group and endpoint an identifier names,
   * found by exact key match in `groups` and then in the group's endpoints.
   */
  function Lookup(groups: Groups, id: EndpointIdentifier): (r: Option<(ApiGroup, Endpoint)>)
    ensures var (g, e) := Segments(id);
      r.Some? <==> g in groups && e.Some? && e.value in groups[g].endpoints
    ensures var (g, e) := Segments(id);
      r.Some? ==> r.value == (groups[g], groups[g].endpoints[e.value])
    ensures Segments(id).0 !in groups ==> r == None
  {
    var (groupName, endpointName) := Segments(id);
    match Get(groups, groupName)
    case None => None
    case Some(group) =>
      match endpointName
      case None => None
      case Some(name) =>
        match Get(group.endpoints, name)
        case None => None
        case Some(endpoint) => Some((group, endpoint))
  }

  /** In a well-formed catalog a found group and endpoint carry exactly the
      names that were asked for. */
  lemma LookupExact(groups: Groups, id: EndpointIdentifier)
    requires WellFormed(groups)
    requires Lookup(groups, id).Some?
    ensures var (grp, ep) := Lookup(groups, id).value;
      grp.identifier == Segments(id).0 && Some(ep.name) == Segments(id).1
  {
  }

  /** The string form and the pair form agree whenever neither name holds a dot. */
  lemma DottedAgreesWithPair(groups: Groups, g: string, e: string)
    requires '.' !in g && '.' !in e
    ensures Lookup(groups, Dotted(g + "." + e)) == Lookup(groups, Pair(g, e))
  {
    SegmentsOfDotted(g, e, []);
    assert g + "." + e + [] == g + "." + e;
  }
}
