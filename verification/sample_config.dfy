/** The sample API and page configuration shipped with the server, as data. */
module SampleConfig {
  import opened Wrappers
  import opened Strings
  import opened Endpoints
  import opened Contents
  import opened Pages
  import opened VironServer

  const SampleGroups: Groups := map[
    "User" := ApiGroup("User", false, map[
      "getUser" := Endpoint("getUser", "GET", "/users/:id", None),
      "listUsers" := Endpoint("listUsers", "GET", "/users", None)]),
    "Metrics" := ApiGroup("Metrics", false, map[
      "getActiveUserCount" := Endpoint("getActiveUserCount", "GET", "/metrics/active-users", None),
      "getTotalUserCount" := Endpoint("getTotalUserCount", "GET", "/metrics/total-users", None)])]

  const DashboardTitle: string := "\U{30E6}\U{30FC}\U{30B6}\U{30FC}\U{30C0}\U{30C3}\U{30B7}\U{30E5}\U{30DC}\U{30FC}\U{30C9}"
  const DashboardDescription: string := "Example Viron page wiring user endpoints"

  function Dashboard(contents: seq<Content>): ItemPage {
    Item("user-dashboard", DashboardTitle, Some(DashboardDescription), contents)
  }

  // Identifiers are written as concatenations so that the verifier does not
  // try to evaluate the split of a long literal string.
  const ActiveUsersId: string := "Metrics" + "." + "getActiveUserCount"
  const AllUsersId: string := "User" + "." + "listUsers"
  const MissingId: string := "User" + "." + "doesNotExist"

  const SampleContents: seq<Content> := [
    Content(Number, "Active Users", Dotted(ActiveUsersId), "Metrics"),
    Content(Table, "All Users", Dotted(AllUsersId), "User")]

  const SamplePages: Page := Group("Samples", [Dashboard(SampleContents)])

  /**
   * Any catalog the framework builds in which `User.listUsers` and
   * `Metrics.getActiveUserCount` exist without override annotations, in
   * groups that are not top-level; `SampleGroups` is one of them.
   */
  predicate SampleCatalog(groups: Groups) {
    && WellFormed(groups)
    && "User" in groups && !groups["User"].topLevel
    && "listUsers" in groups["User"].endpoints
    && groups["User"].endpoints["listUsers"].operationIdOverride == None
    && "Metrics" in groups && !groups["Metrics"].topLevel
    && "getActiveUserCount" in groups["Metrics"].endpoints
    && groups["Metrics"].endpoints["getActiveUserCount"].operationIdOverride == None
  }

  lemma SampleGroupsIsSampleCatalog()
    ensures SampleCatalog(SampleGroups)
  {
  }

  lemma ResolvesByDefaultId(groups: Groups, g: string, e: string)
    requires WellFormed(groups) && '.' !in g && '.' !in e
    requires g in groups && !groups[g].topLevel
    requires e in groups[g].endpoints && groups[g].endpoints[e].operationIdOverride == None
    ensures ResolveContent(groups, Content(Number, "", Dotted(g + "." + e), "")).Some?
    ensures forall kind, title, resourceId ::
      ResolveContent(groups, Content(kind, title, Dotted(g + "." + e), resourceId))
        == Some(ResolvedContent(kind, title, resourceId, g + "." + e))
  {
    SegmentsOfDotted(g, e, []);
    assert g + "." + e + [] == g + "." + e;
  }

  const SampleResolved: seq<ResolvedContent> := [
    ResolvedContent(Number, "Active Users", "Metrics", ActiveUsersId),
    ResolvedContent(Table, "All Users", "User", AllUsersId)]

  lemma SampleContentsResolve(groups: Groups)
    requires SampleCatalog(groups)
    ensures ResolveContents(groups, SampleContents) == Some(SampleResolved)
  {
    ResolvesByDefaultId(groups, "Metrics", "getActiveUserCount");
    ResolvesByDefaultId(groups, "User", "listUsers");
    assert ResolveContent(groups, SampleContents[0]) == Some(SampleResolved[0]);
    assert ResolveContent(groups, SampleContents[1]) == Some(SampleResolved[1]);
    var r := ResolveContents(groups, SampleContents);
    assert r.Some? && |r.value| == 2;
    assert r.value[0] == SampleResolved[0] && r.value[1] == SampleResolved[1];
    assert r.value == SampleResolved;
  }

  lemma SampleWalk()
    ensures Walk([], SamplePages) == [Entry(["Samples"], Dashboard(SampleContents))]
  {
    var item := Dashboard(SampleContents);
    assert [] + ["Samples"] == ["Samples"];
    assert [item][1..] == [];
    assert WalkAll(["Samples"], [item]) == Walk(["Samples"], item) + WalkAll(["Samples"], []);
  }

  /** The sample configuration builds one descriptor under group `"Samples"`
      whose bindings carry the default operation ids. */
  lemma SampleBuild(groups: Groups)
    requires SampleCatalog(groups)
    ensures BuildVironConfig(groups, SamplePages) == Some([
      PageDescriptor("user-dashboard", DashboardTitle, Some(DashboardDescription), "Samples", SampleResolved)])
  {
    SampleContentsResolve(groups);
    SampleWalk();
    var entry := Entry(["Samples"], Dashboard(SampleContents));
    assert Join(["Samples"], '/') == "Samples";
    var d := PageDescriptor("user-dashboard", DashboardTitle, Some(DashboardDescription), "Samples", SampleResolved);
    assert Describe(groups, entry) == Some(d);
    var r := BuildVironConfig(groups, SamplePages);
    assert Walk([], SamplePages)[0] == entry;
    assert r.Some? && |r.value| == 1 && r.value[0] == d;
    assert r.value == [d];
  }

  /** Binding a missing endpoint of an existing group aborts the whole build. */
  lemma SampleMissingEndpointAborts(groups: Groups)
    requires SampleCatalog(groups) && "doesNotExist" !in groups["User"].endpoints
    ensures BuildVironConfig(groups, Group("Samples", [Dashboard(
      SampleContents + [Content(Table, "Missing", Dotted(MissingId), "User")])])) == None
  {
    SegmentsOfDotted("User", "doesNotExist", []);
    assert MissingId + [] == MissingId;
    var item := Dashboard(SampleContents + [Content(Table, "Missing", Dotted(MissingId), "User")]);
    var pages := Group("Samples", [item]);
    assert Reaches(item, [], item);
    assert [item][0] == item && ["Samples"][1..] == [];
    assert Reaches(pages, ["Samples"], item);
    UnresolvedAborts(groups, pages, ["Samples"], item, 2);
  }
}
