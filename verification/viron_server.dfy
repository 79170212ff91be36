/**
 * The page-metadata builder (`buildVironConfig`) and the OpenAPI transform
 * that `make` registers on the API description.
 */
module VironServer {
  import opened Wrappers
  import opened Strings
  import opened Endpoints
  import opened OperationIds
  import opened Contents
  import opened Pages
  import opened Json

  /** A content binding after its endpoint has been resolved. */
  datatype ResolvedContent = ResolvedContent(
    kind: ContentType,
    title: string,
    resourceId: string,
    operationId: string)

  /** One element of `x-pages`. */
  datatype PageDescriptor = PageDescriptor(
    id: string,
    title: string,
    description: Option<string>,
    group: string,
    contents: seq<ResolvedContent>)

  /** The API description as the transform sees it: its groups and the
      Transform annotation registered on it before, if any (`None` as the
      result of that transform models an exception thrown by it). */
  datatype HttpApi = HttpApi(groups: Groups, transform: Option<Spec -> Option<Spec>>)

  const VironGroupName: string := "Viron"

  /** The group `make` adds to serve the document and the authentication stub. */
  const VironGroup: ApiGroup := ApiGroup(VironGroupName, false, map[
    "getOpenApi" := Endpoint("getOpenApi", "GET", "/oas", None),
    "authentication" := Endpoint("authentication", "GET", "/authentication", None)])

  predicate Resolvable(groups: Groups, c: Content) {
    Lookup(groups, c.endpoint).Some?
  }

  predicate ItemResolvable(groups: Groups, item: ItemPage) {
    forall i :: 0 <= i < |item.contents| ==> Resolvable(groups, item.contents[i])
  }

  /** One content binding: look its endpoint up (failing as `getOrThrow`
      does) and keep type, title and resourceId beside the operation id. */
  function ResolveContent(groups: Groups, c: Content): (r: Option<ResolvedContent>)
    ensures r.Some? <==> Resolvable(groups, c)
    ensures r.Some? ==>
      var (grp, ep) := Lookup(groups, c.endpoint).value;
      && r.value.kind == c.kind && r.value.title == c.title && r.value.resourceId == c.resourceId
      && r.value.operationId == OperationId(grp, ep)
  {
    match Lookup(groups, c.endpoint)
    case None => None
    case Some((grp, ep)) => Some(ResolvedContent(c.kind, c.title, c.resourceId, OperationId(grp, ep)))
  }

  /** `page.contents.map(...)`: all bindings resolved in order, or failure as
      soon as any one of them fails. */
  function ResolveContents(groups: Groups, cs: seq<Content>): (r: Option<seq<ResolvedContent>>)
    ensures r.Some? <==> forall i :: 0 <= i < |cs| ==> Resolvable(groups, cs[i])
    ensures r.Some? ==> |r.value| == |cs|
    ensures r.Some? ==> forall i :: 0 <= i < |cs| ==> ResolveContent(groups, cs[i]) == Some(r.value[i])
    decreases cs
  {
    if cs == [] then Some([])
    else
      match ResolveContent(groups, cs[0])
      case None => None
      case Some(first) =>
        match ResolveContents(groups, cs[1..])
        case None => None
        case Some(rest) => Some([first] + rest)
  }

  /** The descriptor of one walked item; `group` is the path joined with `"/"`. */
  function Describe(groups: Groups, e: Entry): (r: Option<PageDescriptor>)
    ensures r.Some? <==> ItemResolvable(groups, e.page)
    ensures r.Some? ==>
      && r.value.id == e.page.id && r.value.title == e.page.title
      && r.value.description == e.page.description
      && r.value.group == Join(e.path, '/')
      && ResolveContents(groups, e.page.contents) == Some(r.value.contents)
  {
    match ResolveContents(groups, e.page.contents)
    case None => None
    case Some(contents) =>
      Some(PageDescriptor(e.page.id, e.page.title, e.page.description, Join(e.path, '/'), contents))
  }

  /** The `map` over the walk: every entry described in order, or failure. */
  function DescribeAll(groups: Groups, es: seq<Entry>): (r: Option<seq<PageDescriptor>>)
    ensures r.Some? <==> forall i :: 0 <= i < |es| ==> ItemResolvable(groups, es[i].page)
    ensures r.Some? ==> |r.value| == |es|
    ensures r.Some? ==> forall i :: 0 <= i < |es| ==> Describe(groups, es[i]) == Some(r.value[i])
    decreases es
  {
    if es == [] then Some([])
    else
      match Describe(groups, es[0])
      case None => None
      case Some(first) =>
        match DescribeAll(groups, es[1..])
        case None => None
        case Some(rest) => Some([first] + rest)
  }

  /**
   * `buildVironConfig`: one descriptor per item of the tree walked from the
   * empty path, in walk order, or failure when any binding of any item does
   * not resolve.
   */
  function BuildVironConfig(groups: Groups, pages: Page): (r: Option<seq<PageDescriptor>>)
    ensures r.Some? <==> forall e :: e in Walk([], pages) ==> ItemResolvable(groups, e.page)
    ensures r.Some? ==> |r.value| == CountItems(pages) == |Walk([], pages)|
    ensures r.Some? ==> forall i :: 0 <= i < |r.value| ==>
      Describe(groups, Walk([], pages)[i]) == Some(r.value[i])
  {
    WalkCount([], pages);
    DescribeAll(groups, Walk([], pages))
  }

  /** The build succeeds exactly when every item anywhere in the tree has
      only resolvable bindings. */
  lemma BuildSucceedsIff(groups: Groups, pages: Page)
    ensures BuildVironConfig(groups, pages).Some? <==>
      forall names: seq<string>, item: ItemPage :: Reaches(pages, names, item) ==> ItemResolvable(groups, item)
  {
    var entries := Walk([], pages);
    if BuildVironConfig(groups, pages).Some? {
      forall names, item | Reaches(pages, names, item) ensures ItemResolvable(groups, item) {
        WalkComplete([], pages, names, item);
        assert [] + names == names;
      }
    } else {
      var e :| e in entries && !ItemResolvable(groups, e.page);
      var k :| 0 <= k < |entries| && entries[k] == e;
      WalkSound([], pages, k);
      assert e.path[0..] == e.path;
      assert Reaches(pages, e.path, e.page) && !ItemResolvable(groups, e.page);
    }
  }

  /** All or nothing: one unresolvable binding anywhere in the tree makes the
      whole build fail. */
  lemma UnresolvedAborts(groups: Groups, pages: Page, names: seq<string>, item: ItemPage, i: nat)
    requires Reaches(pages, names, item)
    requires i < |item.contents| && Lookup(groups, item.contents[i].endpoint).None?
    ensures BuildVironConfig(groups, pages) == None
  {
    assert !Resolvable(groups, item.contents[i]);
    WalkComplete([], pages, names, item);
    assert [] + names == names;
  }

  /**
   * The `group` string of a descriptor determines the item's ancestors when
   * group names are non-empty and contain no `'/'`: it is `""` exactly for an
   * item at the root, and otherwise splits back into the group path.
   */
  lemma GroupRecoversPath(groups: Groups, pages: Page, k: nat)
    requires PlainNames(pages)
    requires BuildVironConfig(groups, pages).Some? && k < |BuildVironConfig(groups, pages).value|
    ensures var d := BuildVironConfig(groups, pages).value[k];
      var path := Walk([], pages)[k].path;
      (d.group == "" <==> path == []) && (path != [] ==> Split(d.group, '/') == path)
  {
    var e := Walk([], pages)[k];
    WalkSound([], pages, k);
    assert e.path[0..] == e.path;
    ReachesPlain(pages, e.path, e.page);
    if e.path != [] {
      SplitJoin(e.path, '/');
    }
  }

  /** The `type` string a widget kind is written as. */
  function KindName(kind: ContentType): (s: string)
    ensures s == "number" <==> kind == Number
    ensures s == "table" <==> kind == Table
  {
    match kind
    case Number => "number"
    case Table => "table"
  }

  /** A resolved binding as the `{type, title, resourceId, operationId}` object. */
  function ContentJson(c: ResolvedContent): (r: Json)
    ensures r.JObject? && r.fields.Keys == {"type", "title", "resourceId", "operationId"}
    ensures r.fields["type"] == JString("number") <==> c.kind == Number
    ensures r.fields["type"] == JString("table") <==> c.kind == Table
    ensures r.fields["title"] == JString(c.title)
    ensures r.fields["resourceId"] == JString(c.resourceId)
    ensures r.fields["operationId"] == JString(c.operationId)
  {
    JObject(map[
      "type" := JString(KindName(c.kind)),
      "title" := JString(c.title),
      "resourceId" := JString(c.resourceId),
      "operationId" := JString(c.operationId)])
  }

  /** The `contents` array: one object per binding, in order. */
  function ContentsJson(cs: seq<ResolvedContent>): (r: seq<Json>)
    ensures |r| == |cs|
    ensures forall i :: 0 <= i < |cs| ==> r[i] == ContentJson(cs[i])
  {
    if cs == [] then [] else [ContentJson(cs[0])] + ContentsJson(cs[1..])
  }

  /** A descriptor as a JSON object; an absent description is an absent key. */
  function DescriptorJson(d: PageDescriptor): (r: Json)
    ensures r.JObject?
    ensures r.fields.Keys == {"id", "title", "group", "contents"} + (if d.description.Some? then {"description"} else {})
    ensures r.fields["id"] == JString(d.id)
    ensures r.fields["title"] == JString(d.title)
    ensures r.fields["group"] == JString(d.group)
    ensures r.fields["contents"] == JArray(ContentsJson(d.contents))
    ensures "description" in r.fields <==> d.description.Some?
    ensures d.description.Some? ==> r.fields["description"] == JString(d.description.value)
  {
    var fields := map[
      "id" := JString(d.id),
      "title" := JString(d.title),
      "group" := JString(d.group),
      "contents" := JArray(ContentsJson(d.contents))];
    match d.description
    case None => JObject(fields)
    case Some(text) => JObject(fields["description" := JString(text)])
  }

  /** The `x-pages` array: one object per descriptor, in order. */
  function PagesJson(ds: seq<PageDescriptor>): (r: seq<Json>)
    ensures |r| == |ds|
    ensures forall i :: 0 <= i < |ds| ==> r[i] == DescriptorJson(ds[i])
  {
    if ds == [] then [] else [DescriptorJson(ds[0])] + PagesJson(ds[1..])
  }

  /** Reads a string value, if that is what `j` is. */
  function StringOf(j: Json): (r: Option<string>)
    ensures r.Some? <==> j.JString?
    ensures r.Some? ==> j == JString(r.value)
  {
    if j.JString? then Some(j.s) else None
  }

  /** Reads one `contents` object back. */
  function ContentOf(j: Json): Option<ResolvedContent> {
    if j.JObject? && "type" in j.fields && "title" in j.fields
       && "resourceId" in j.fields && "operationId" in j.fields then
      var kind :=
        if j.fields["type"] == JString("number") then Some(Number)
        else if j.fields["type"] == JString("table") then Some(Table)
        else None;
      match (kind, StringOf(j.fields["title"]), StringOf(j.fields["resourceId"]), StringOf(j.fields["operationId"]))
      case (Some(k), Some(t), Some(rid), Some(op)) => Some(ResolvedContent(k, t, rid, op))
      case _ => None
    else None
  }

  /** Reads a `contents` array back, failing if any element does not read. */
  function ContentsOf(items: seq<Json>): Option<seq<ResolvedContent>> {
    if items == [] then Some([])
    else
      match (ContentOf(items[0]), ContentsOf(items[1..]))
      case (Some(c), Some(rest)) => Some([c] + rest)
      case _ => None
  }

  /** Reads one `x-pages` object back. */
  function DescriptorOf(j: Json): Option<PageDescriptor> {
    if j.JObject? && "id" in j.fields && "title" in j.fields && "group" in j.fields
       && "contents" in j.fields && j.fields["contents"].JArray? then
      var description :=
        if "description" in j.fields then
          (match StringOf(j.fields["description"]) case None => None case Some(t) => Some(Some(t)))
        else Some(None);
      match (StringOf(j.fields["id"]), StringOf(j.fields["title"]), StringOf(j.fields["group"]),
             description, ContentsOf(j.fields["contents"].items))
      case (Some(id), Some(t), Some(g), Some(desc), Some(cs)) => Some(PageDescriptor(id, t, desc, g, cs))
      case _ => None
    else None
  }

  /** Reads an `x-pages` array back, failing if any element does not read. */
  function PagesOf(items: seq<Json>): Option<seq<PageDescriptor>> {
    if items == [] then Some([])
    else
      match (DescriptorOf(items[0]), PagesOf(items[1..]))
      case (Some(d), Some(rest)) => Some([d] + rest)
      case _ => None
  }

  /** A binding's object reads back as the same binding. */
  lemma ContentRoundTrip(c: ResolvedContent)
    ensures ContentOf(ContentJson(c)) == Some(c)
  {
  }

  /** A `contents` array reads back as the same bindings, in order. */
  lemma {:induction false} ContentsRoundTrip(cs: seq<ResolvedContent>)
    ensures ContentsOf(ContentsJson(cs)) == Some(cs)
  {
    if cs != [] {
      var js := ContentsJson(cs);
      assert js[1..] == ContentsJson(cs[1..]);
      ContentRoundTrip(cs[0]);
      ContentsRoundTrip(cs[1..]);
      assert [cs[0]] + cs[1..] == cs;
    }
  }

  /** A descriptor's object reads back as the same descriptor, so no field is
      lost and distinct descriptors are written differently. */
  lemma DescriptorRoundTrip(d: PageDescriptor)
    ensures DescriptorOf(DescriptorJson(d)) == Some(d)
  {
    ContentsRoundTrip(d.contents);
  }

  /** An `x-pages` array reads back as the same descriptors, in order. */
  lemma {:induction false} PagesRoundTrip(ds: seq<PageDescriptor>)
    ensures PagesOf(PagesJson(ds)) == Some(ds)
  {
    if ds != [] {
      var js := PagesJson(ds);
      assert js[1..] == PagesJson(ds[1..]);
      DescriptorRoundTrip(ds[0]);
      PagesRoundTrip(ds[1..]);
      assert [ds[0]] + ds[1..] == ds;
    }
  }

  /** The fields that spreading `spec.info` contributes: those of an `info`
      object, and none when `info` is missing or not an object. */
  function InfoFields(spec: Spec): (r: map<string, Json>)
    ensures "info" in spec && spec["info"].JObject? ==> r == spec["info"].fields
    ensures !("info" in spec && spec["info"].JObject?) ==> r == map[]
  {
    if "info" in spec && spec["info"].JObject? then spec["info"].fields else map[]
  }

  const TableJson: Json := JObject(map["responseListKey" := JString("list")])

  /**
   * `{...spec, openapi: "3.0.2", info: {...spec.info, "x-pages": pages,
   * "x-table": {responseListKey: "list"}}}`.
   */
  function Overlay(spec: Spec, pages: seq<Json>): (r: Spec)
    ensures r.Keys == spec.Keys + {"openapi", "info"}
    ensures r["openapi"] == JString("3.0.2")
    ensures forall k :: k in spec && k != "openapi" && k != "info" ==> r[k] == spec[k]
    ensures r["info"].JObject?
    ensures r["info"].fields.Keys == InfoFields(spec).Keys + {"x-pages", "x-table"}
    ensures r["info"].fields["x-pages"] == JArray(pages)
    ensures r["info"].fields["x-table"] == TableJson
    ensures forall k :: k in InfoFields(spec) && k != "x-pages" && k != "x-table" ==>
      r["info"].fields[k] == InfoFields(spec)[k]
  {
    var info := InfoFields(spec)["x-pages" := JArray(pages)]["x-table" := TableJson];
    spec["openapi" := JString("3.0.2")]["info" := JObject(info)]
  }

  /** Overlaying the same pages twice changes nothing more than once. */
  lemma OverlayIdempotent(spec: Spec, pages: seq<Json>)
    ensures Overlay(Overlay(spec, pages), pages) == Overlay(spec, pages)
  {
    var once := Overlay(spec, pages);
    var info := InfoFields(once);
    assert info == once["info"].fields;
    assert info["x-pages" := JArray(pages)]["x-table" := TableJson] == info;
    assert once["openapi" := JString("3.0.2")]["info" := JObject(info)] == once;
  }

  /** The document an earlier Transform annotation produces, or the original. */
  function BaseSpec(self: HttpApi, original: Spec): (r: Option<Spec>)
    ensures self.transform.None? ==> r == Some(original)
    ensures self.transform.Some? ==> r == self.transform.value(original)
  {
    match self.transform
    case None => Some(original)
    case Some(previous) => previous(original)
  }

  /**
   * The transform `make` registers: the earlier transform first, then the
   * Viron overlay with the pages built against `self`'s own groups.
   */
  function VironTransform(self: HttpApi, config: Page, original: Spec): (r: Option<Spec>)
    ensures r.Some? <==> BaseSpec(self, original).Some? && BuildVironConfig(self.groups, config).Some?
    ensures r.Some? ==>
      var base := BaseSpec(self, original).value;
      && r.value.Keys == base.Keys + {"openapi", "info"}
      && (forall k :: k in base && k != "openapi" && k != "info" ==> r.value[k] == base[k])
      && r.value["openapi"] == JString("3.0.2")
      && r.value["info"].JObject? && "x-pages" in r.value["info"].fields
      && r.value["info"].fields["x-pages"] == JArray(PagesJson(BuildVironConfig(self.groups, config).value))
    ensures r.Some? ==>
      r.value == Overlay(BaseSpec(self, original).value, PagesJson(BuildVironConfig(self.groups, config).value))
  {
    match BaseSpec(self, original)
    case None => None
    case Some(base) =>
      match BuildVironConfig(self.groups, config)
      case None => None
      case Some(ds) => Some(Overlay(base, PagesJson(ds)))
  }

  /** The `x-pages` the transform writes read back as exactly the descriptors
      the build produced, in walk order. */
  lemma TransformPagesReadBack(self: HttpApi, config: Page, original: Spec)
    requires VironTransform(self, config, original).Some?
    ensures var r := VironTransform(self, config, original).value;
      && r["info"].fields["x-pages"].JArray?
      && PagesOf(r["info"].fields["x-pages"].items) == BuildVironConfig(self.groups, config)
  {
    PagesRoundTrip(BuildVironConfig(self.groups, config).value);
  }

  /**
   * `make` without its route and layer wiring: the API gains the Viron group
   * and its Transform annotation becomes the Viron transform over `self`.
   */
  function Make(self: HttpApi, config: Page): (api: HttpApi)
    ensures api.groups.Keys == self.groups.Keys + {VironGroupName}
    ensures api.groups[VironGroupName] == VironGroup
    ensures forall g :: g in self.groups && g != VironGroupName ==> api.groups[g] == self.groups[g]
    ensures api.transform.Some?
    ensures forall spec :: api.transform.value(spec) == VironTransform(self, config, spec)
  {
    HttpApi(self.groups[VironGroupName := VironGroup],
            Some((spec: Spec) => VironTransform(self, config, spec)))
  }

  /**
   * Bindings are resolved against the API as it was before the Viron group
   * was added: `"Viron.getOpenApi"` resolves in the API `make` returns, yet a
   * page that binds it makes the transform fail.
   */
  lemma VironEndpointsNotBindable(self: HttpApi, config: Page, names: seq<string>,
                                  item: ItemPage, i: nat, spec: Spec)
    requires VironGroupName !in self.groups
    requires Reaches(config, names, item)
    requires i < |item.contents| && item.contents[i].endpoint == Dotted(VironGroupName + "." + "getOpenApi")
    ensures Lookup(Make(self, config).groups, Dotted(VironGroupName + "." + "getOpenApi")).Some?
    ensures Make(self, config).transform.value(spec) == None
  {
    SegmentsOfDotted(VironGroupName, "getOpenApi", []);
    assert VironGroupName + "." + "getOpenApi" + [] == VironGroupName + "." + "getOpenApi";
    UnresolvedAborts(self.groups, config, names, item, i);
  }
}
