/** The conversions `DevOpsClient` applies to a decoded JSON answer to build
    its records (client.py). Python evaluates a constructor's arguments left to
    right, so each mapper looks its keys up in the order the source writes them
    and raises for the first one that fails: a required key read with `v[key]`
    raises KeyError when absent, an optional key read with
    `v[key] if key in v else None` gives `None` when absent. Every mapper but
    the build links' reads a required key first, so by the time it reads an
    optional key `v` is known to be a dict and `key in v` cannot raise: those
    reads are written with `Member`. */
module Mappers {
  import opened Py
  import opened Json
  import opened Records

  /** Whether `v` is a dict that holds `key`. */
  predicate Has(v: Value, key: string)
  {
    v.Object? && Lookup(v.members, key).Some?
  }

  /** What a dict holds for `key`, `None` when it does not hold it. */
  function Member(v: Value, key: string): Value
  {
    if v.Object? then OrNull(Lookup(v.members, key)) else Null
  }

  /** `f(v[key]) if key in v else None`: a nested record that is left out when
      its key is absent. */
  function OptionalWith<T>(v: Value, key: string, f: Value -> Result<T>): (r: Result<Option<T>>)
    ensures v.Object? && Lookup(v.members, key).None? ==> r == Success(None)
    ensures v.Object? && Lookup(v.members, key).Some? ==> r == Optionally(f(Lookup(v.members, key).value))
    ensures v.Null? || v.Boolean? || v.Number? ==> r == Failure(TypeError)
  {
    var present :- Contains(v, key);
    if present then
      var x :- Get(v, key);
      Optionally(f(x))
    else
      Success(None)
  }

  /** `v[key]["href"]`, the shape every link takes. */
  function Href(v: Value, key: string): (r: Result<Value>)
    ensures r.Success? <==> Has(v, key) && Has(Member(v, key), "href")
    ensures r.Success? ==> r.value == Member(Member(v, key), "href")
  {
    var link :- Get(v, key);
    Get(link, "href")
  }

  /** `v[key]["href"] if key in v else None`. */
  function OptionalHref(v: Value, key: string): (r: Result<Value>)
    ensures v.Object? && !Has(v, key) ==> r == Success(Null)
    ensures v.Object? && Has(v, key) ==> r == Href(v, key)
  {
    var present :- Contains(v, key);
    if present then Href(v, key) else Success(Null)
  }

  /** `[f(x) for x in v[key]]`. */
  function MapEach<T>(v: Value, key: string, f: Value -> Result<T>): (r: Result<seq<T>>)
    ensures !Has(v, key) ==> r.Failure?
    ensures Has(v, key) && Member(v, key).Array? ==> r == MapAll(Member(v, key).items, f)
  {
    var x :- Get(v, key);
    var items :- Elements(x);
    MapAll(items, f)
  }

  // ---------------------------------------------------------------- projects

  function MapTeam(t: Value): (r: Result<DevOpsTeam>)
    ensures r.Success? <==> Has(t, "id") && Has(t, "name") && Has(t, "url")
    ensures !t.Object? ==> r == Failure(TypeError)
    ensures t.Object? && !Has(t, "id") ==> r == Failure(KeyError("id"))
    ensures Has(t, "id") && !Has(t, "name") ==> r == Failure(KeyError("name"))
    ensures Has(t, "id") && Has(t, "name") && !Has(t, "url") ==> r == Failure(KeyError("url"))
    ensures r.Success? ==> r.value == DevOpsTeam(Member(t, "id"), Member(t, "name"), Member(t, "url"))
  {
    var id :- Get(t, "id");
    var name :- Get(t, "name");
    var url :- Get(t, "url");
    Success(DevOpsTeam(id, name, url))
  }

  function MapProjectLinks(l: Value): (r: Result<DevOpsLinks>)
    ensures r.Success? <==> Href(l, "self").Success? && Href(l, "collection").Success? && Href(l, "web").Success?
    ensures r.Success? ==> r.value == DevOpsLinks(
      Member(Member(l, "self"), "href"), Member(Member(l, "collection"), "href"), Member(Member(l, "web"), "href"))
  {
    var linkSelf :- Href(l, "self");
    var collection :- Href(l, "collection");
    var web :- Href(l, "web");
    Success(DevOpsLinks(linkSelf, collection, web))
  }

  /** The project answer: `id` and `name` are required, the rest optional;
      `defaultTeam` and `_links` become nested records. */
  function MapProject(json: Value): (r: Result<DevOpsProject>)
    ensures !json.Object? ==> r == Failure(TypeError)
    ensures json.Object? && !Has(json, "id") ==> r == Failure(KeyError("id"))
    ensures Has(json, "id") && !Has(json, "name") ==> r == Failure(KeyError("name"))
    ensures r.Success? <==>
      Has(json, "id") && Has(json, "name") &&
      (Has(json, "defaultTeam") ==> MapTeam(Member(json, "defaultTeam")).Success?) &&
      (Has(json, "_links") ==> MapProjectLinks(Member(json, "_links")).Success?)
    ensures r.Success? ==>
      var p := r.value;
      p.projectId == Member(json, "id") && p.name == Member(json, "name") &&
      p.description == Member(json, "description") && p.url == Member(json, "url") &&
      p.state == Member(json, "state") && p.revision == Member(json, "revision") &&
      p.visibility == Member(json, "visibility") && p.lastUpdated == Member(json, "lastUpdateTime")
    ensures r.Success? ==>
      (r.value.defaultTeam.Some? <==> Has(json, "defaultTeam")) &&
      (r.value.defaultTeam.Some? ==> MapTeam(Member(json, "defaultTeam")) == Success(r.value.defaultTeam.value)) &&
      (r.value.links.Some? <==> Has(json, "_links")) &&
      (r.value.links.Some? ==> MapProjectLinks(Member(json, "_links")) == Success(r.value.links.value))
  {
    var id :- Get(json, "id");
    var name :- Get(json, "name");
    var description := Member(json, "description");
    var url := Member(json, "url");
    var state := Member(json, "state");
    var revision := Member(json, "revision");
    var visibility := Member(json, "visibility");
    var lastUpdated := Member(json, "lastUpdateTime");
    var defaultTeam :- OptionalWith(json, "defaultTeam", MapTeam);
    var links :- OptionalWith(json, "_links", MapProjectLinks);
    Success(DevOpsProject(id, name, description, url, state, revision, visibility, lastUpdated, defaultTeam, links))
  }

  // ------------------------------------------------------------------ builds

  function MapBuildDefinition(d: Value): (r: Result<DevOpsBuildDefinition>)
    ensures r.Success? <==> Has(d, "id") && Has(d, "name")
    ensures !d.Object? ==> r == Failure(TypeError)
    ensures d.Object? && !Has(d, "id") ==> r == Failure(KeyError("id"))
    ensures Has(d, "id") && !Has(d, "name") ==> r == Failure(KeyError("name"))
    ensures r.Success? ==> r.value == DevOpsBuildDefinition(
      Member(d, "id"), Member(d, "name"), Member(d, "url"), Member(d, "path"),
      Member(d, "type"), Member(d, "queueStatus"), Member(d, "revision"))
  {
    var id :- Get(d, "id");
    var name :- Get(d, "name");
    var url := Member(d, "url");
    var path := Member(d, "path");
    var buildType := Member(d, "type");
    var queueStatus := Member(d, "queueStatus");
    var revision := Member(d, "revision");
    Success(DevOpsBuildDefinition(id, name, url, path, buildType, queueStatus, revision))
  }

  /** The project inside a build: the same keys as a project answer except
      that the team and the links are never read. */
  function MapBuildProject(p: Value): (r: Result<DevOpsProject>)
    ensures r.Success? <==> Has(p, "id") && Has(p, "name")
    ensures !p.Object? ==> r == Failure(TypeError)
    ensures p.Object? && !Has(p, "id") ==> r == Failure(KeyError("id"))
    ensures Has(p, "id") && !Has(p, "name") ==> r == Failure(KeyError("name"))
    ensures r.Success? ==> r.value == DevOpsProject(
      Member(p, "id"), Member(p, "name"), Member(p, "description"), Member(p, "url"),
      Member(p, "state"), Member(p, "revision"), Member(p, "visibility"), Member(p, "lastUpdateTime"),
      None, None)
  {
    var id :- Get(p, "id");
    var name :- Get(p, "name");
    var description := Member(p, "description");
    var url := Member(p, "url");
    var state := Member(p, "state");
    var revision := Member(p, "revision");
    var visibility := Member(p, "visibility");
    var lastUpdated := Member(p, "lastUpdateTime");
    Success(DevOpsProject(id, name, description, url, state, revision, visibility, lastUpdated, None, None))
  }

  /** Whether `v[key]["href"] if key in v else None` succeeds on the dict `v`:
      the link is absent, or it is a dict holding `href`. */
  predicate LinkResolves(v: Value, key: string)
  {
    !Has(v, key) || Has(Member(v, key), "href")
  }

  /** What `link["href"]` raises on a link that does not resolve. */
  function HrefError(link: Value): Exception
  {
    if link.Object? then KeyError("href") else TypeError
  }

  /** The links of a build: each of the five is optional, but a link that is
      present must be a dict holding `href`. They are read in the order
      `self`, `web`, `sourceVersionDisplayUri`, `timeline`, `badge`, and the
      first that does not resolve raises. */
  function MapBuildLinks(l: Value): (r: Result<DevOpsBuildLinks>)
    ensures l.Null? || l.Boolean? || l.Number? ==> r == Failure(TypeError)
    ensures l.Object? ==> (r.Success? <==>
      LinkResolves(l, "self") && LinkResolves(l, "web") && LinkResolves(l, "sourceVersionDisplayUri") &&
      LinkResolves(l, "timeline") && LinkResolves(l, "badge"))
    ensures l.Object? && !LinkResolves(l, "self") ==> r == Failure(HrefError(Member(l, "self")))
    ensures l.Object? && LinkResolves(l, "self") && !LinkResolves(l, "web") ==>
      r == Failure(HrefError(Member(l, "web")))
    ensures (l.Object? && LinkResolves(l, "self") && LinkResolves(l, "web") &&
             !LinkResolves(l, "sourceVersionDisplayUri")) ==>
      r == Failure(HrefError(Member(l, "sourceVersionDisplayUri")))
    ensures (l.Object? && LinkResolves(l, "self") && LinkResolves(l, "web") &&
             LinkResolves(l, "sourceVersionDisplayUri") && !LinkResolves(l, "timeline")) ==>
      r == Failure(HrefError(Member(l, "timeline")))
    ensures (l.Object? && LinkResolves(l, "self") && LinkResolves(l, "web") &&
             LinkResolves(l, "sourceVersionDisplayUri") && LinkResolves(l, "timeline") &&
             !LinkResolves(l, "badge")) ==>
      r == Failure(HrefError(Member(l, "badge")))
    ensures r.Success? ==> r.value == DevOpsBuildLinks(
      LinkOf(l, "self"), LinkOf(l, "web"), LinkOf(l, "sourceVersionDisplayUri"),
      LinkOf(l, "timeline"), LinkOf(l, "badge"))
  {
    var linkSelf :- OptionalHref(l, "self");
    var web :- OptionalHref(l, "web");
    var sourceVersionDisplayUri :- OptionalHref(l, "sourceVersionDisplayUri");
    var timeline :- OptionalHref(l, "timeline");
    var badge :- OptionalHref(l, "badge");
    Success(DevOpsBuildLinks(linkSelf, web, sourceVersionDisplayUri, timeline, badge))
  }

  /** The `href` of the link `key`, `None` when there is no such link. */
  function LinkOf(l: Value, key: string): Value
  {
    Member(Member(l, key), "href")
  }

  /** One build: `id` is required, the rest optional. Both `startTime` and
      `finishTime` are read from the `startTime` key. */
  function MapBuild(b: Value): (r: Result<DevOpsBuild>)
    ensures !b.Object? ==> r == Failure(TypeError)
    ensures b.Object? && !Has(b, "id") ==> r == Failure(KeyError("id"))
    ensures r.Success? <==>
      Has(b, "id") &&
      (Has(b, "definition") ==> MapBuildDefinition(Member(b, "definition")).Success?) &&
      (Has(b, "project") ==> MapBuildProject(Member(b, "project")).Success?) &&
      (Has(b, "_links") ==> MapBuildLinks(Member(b, "_links")).Success?)
    ensures r.Success? ==>
      var x := r.value;
      x.buildId == Member(b, "id") && x.buildNumber == Member(b, "buildNumber") &&
      x.status == Member(b, "status") && x.result == Member(b, "result") &&
      x.sourceBranch == Member(b, "sourceBranch") && x.sourceVersion == Member(b, "sourceVersion") &&
      x.priority == Member(b, "priority") && x.reason == Member(b, "reason") &&
      x.queueTime == Member(b, "queueTime") && x.startTime == Member(b, "startTime")
    ensures r.Success? ==> r.value.finishTime == r.value.startTime
    ensures r.Success? ==>
      (r.value.definition.Some? <==> Has(b, "definition")) &&
      (r.value.definition.Some? ==> MapBuildDefinition(Member(b, "definition")) == Success(r.value.definition.value)) &&
      (r.value.project.Some? <==> Has(b, "project")) &&
      (r.value.project.Some? ==> MapBuildProject(Member(b, "project")) == Success(r.value.project.value)) &&
      (r.value.links.Some? <==> Has(b, "_links")) &&
      (r.value.links.Some? ==> MapBuildLinks(Member(b, "_links")) == Success(r.value.links.value))
  {
    var id :- Get(b, "id");
    var buildNumber := Member(b, "buildNumber");
    var status := Member(b, "status");
    var result := Member(b, "result");
    var sourceBranch := Member(b, "sourceBranch");
    var sourceVersion := Member(b, "sourceVersion");
    var priority := Member(b, "priority");
    var reason := Member(b, "reason");
    var queueTime := Member(b, "queueTime");
    var startTime := Member(b, "startTime");
    var finishTime := Member(b, "startTime");
    var definition :- OptionalWith(b, "definition", MapBuildDefinition);
    var project :- OptionalWith(b, "project", MapBuildProject);
    var links :- OptionalWith(b, "_links", MapBuildLinks);
    Success(DevOpsBuild(
      id, buildNumber, status, result, sourceBranch, sourceVersion, priority, reason,
      queueTime, startTime, finishTime, definition, project, links))
  }

  /** The build list answer: every element of `value`, in order. */
  function MapBuilds(json: Value): Result<seq<DevOpsBuild>>
  {
    MapEach(json, "value", MapBuild)
  }

  // -------------------------------------------------------------------- WIQL

  function MapWiqlColumn(c: Value): (r: Result<DevOpsWiqlColumn>)
    ensures r.Success? <==> Has(c, "referenceName") && Has(c, "name") && Has(c, "url")
    ensures !c.Object? ==> r == Failure(TypeError)
    ensures c.Object? && !Has(c, "referenceName") ==> r == Failure(KeyError("referenceName"))
    ensures Has(c, "referenceName") && !Has(c, "name") ==> r == Failure(KeyError("name"))
    ensures Has(c, "referenceName") && Has(c, "name") && !Has(c, "url") ==> r == Failure(KeyError("url"))
    ensures r.Success? ==> r.value == DevOpsWiqlColumn(Member(c, "referenceName"), Member(c, "name"), Member(c, "url"))
  {
    var referenceName :- Get(c, "referenceName");
    var name :- Get(c, "name");
    var url :- Get(c, "url");
    Success(DevOpsWiqlColumn(referenceName, name, url))
  }

  function MapWiqlWorkItem(w: Value): (r: Result<DevOpsWiqlWorkItem>)
    ensures r.Success? <==> Has(w, "id") && Has(w, "url")
    ensures !w.Object? ==> r == Failure(TypeError)
    ensures w.Object? && !Has(w, "id") ==> r == Failure(KeyError("id"))
    ensures Has(w, "id") && !Has(w, "url") ==> r == Failure(KeyError("url"))
    ensures r.Success? ==> r.value == DevOpsWiqlWorkItem(Member(w, "id"), Member(w, "url"))
  {
    var id :- Get(w, "id");
    var url :- Get(w, "url");
    Success(DevOpsWiqlWorkItem(id, url))
  }

  /** The WIQL answer: three required keys, then every column and every work
      item reference, in order. */
  function MapWiqlResult(data: Value): (r: Result<DevOpsWiqlResult>)
    ensures !data.Object? ==> r == Failure(TypeError)
    ensures data.Object? && !Has(data, "queryType") ==> r == Failure(KeyError("queryType"))
    ensures Has(data, "queryType") && !Has(data, "queryResultType") ==> r == Failure(KeyError("queryResultType"))
    ensures Has(data, "queryType") && Has(data, "queryResultType") && !Has(data, "asOf") ==>
      r == Failure(KeyError("asOf"))
    ensures r.Success? ==>
      r.value.queryType == Member(data, "queryType") &&
      r.value.queryResultType == Member(data, "queryResultType") &&
      r.value.asOf == Member(data, "asOf")
    ensures r.Success? ==>
      MapEach(data, "columns", MapWiqlColumn) == Success(r.value.columns) &&
      MapEach(data, "workItems", MapWiqlWorkItem) == Success(r.value.workItems)
    ensures Has(data, "queryType") && Has(data, "queryResultType") && Has(data, "asOf") ==>
      (r.Success? <==>
        MapEach(data, "columns", MapWiqlColumn).Success? && MapEach(data, "workItems", MapWiqlWorkItem).Success?)
  {
    var queryType :- Get(data, "queryType");
    var queryResultType :- Get(data, "queryResultType");
    var asOf :- Get(data, "asOf");
    var columns :- MapEach(data, "columns", MapWiqlColumn);
    var workItems :- MapEach(data, "workItems", MapWiqlWorkItem);
    Success(DevOpsWiqlResult(queryType, queryResultType, asOf, columns, workItems))
  }

  // -------------------------------------------------------------- work items

  function MapUser(u: Value): (r: Result<DevOpsWorkItemUser>)
    ensures r.Success? <==>
      Has(u, "displayName") && Has(u, "url") && Has(u, "_links") && Has(u, "id") &&
      Has(u, "uniqueName") && Has(u, "imageUrl") && Has(u, "descriptor") &&
      Href(Member(u, "_links"), "avatar").Success?
    ensures r.Success? ==> r.value == DevOpsWorkItemUser(
      Member(u, "displayName"), Member(u, "url"),
      DevOpsWorkItemLinks(DevOpsWorkItemAvatar(Member(Member(Member(u, "_links"), "avatar"), "href"))),
      Member(u, "id"), Member(u, "uniqueName"), Member(u, "imageUrl"), Member(u, "descriptor"))
  {
    var displayName :- Get(u, "displayName");
    var url :- Get(u, "url");
    var links :- Get(u, "_links");
    var href :- Href(links, "avatar");
    var id :- Get(u, "id");
    var uniqueName :- Get(u, "uniqueName");
    var imageUrl :- Get(u, "imageUrl");
    var descriptor :- Get(u, "descriptor");
    Success(DevOpsWorkItemUser(
      displayName, url, DevOpsWorkItemLinks(DevOpsWorkItemAvatar(href)), id, uniqueName, imageUrl, descriptor))
  }

  /** Whether a work item's `fields` name a user under `key`: the key is
      present and its value is truthy. */
  predicate NamesUser(fields: Value, key: string)
  {
    Has(fields, key) && Truthy(Member(fields, key))
  }

  /** `User(f[key]) if key in f and f[key] else None`: no user when the key
      is absent or its value is falsy (`None`, empty, zero). */
  function OptionalUser(f: Value, key: string): (r: Result<Option<DevOpsWorkItemUser>>)
    ensures f.Object? && !NamesUser(f, key) ==> r == Success(None)
    ensures NamesUser(f, key) ==> r == Optionally(MapUser(Member(f, key)))
    ensures f.Object? && r.Success? ==> (r.value.Some? <==> NamesUser(f, key))
  {
    var present :- Contains(f, key);
    if !present then Success(None)
    else
      var u :- Get(f, key);
      if !Truthy(u) then Success(None)
      else Optionally(MapUser(u))
  }

  /** The `fields` of a work item. The state change date is the whole `fields`
      dict, not its `Microsoft.VSTS.Common.StateChangeDate` entry. */
  function MapFields(f: Value): (r: Result<DevOpsWorkItemValueFields>)
    ensures !f.Object? ==> r == Failure(TypeError)
    ensures r.Success? <==>
      Has(f, "System.AreaPath") && Has(f, "System.TeamProject") && Has(f, "System.IterationPath") &&
      Has(f, "System.WorkItemType") && Has(f, "System.State") && Has(f, "System.Reason") &&
      Has(f, "System.CreatedDate") && Has(f, "System.ChangedDate") && Has(f, "System.CommentCount") &&
      Has(f, "System.Title") && Has(f, "Microsoft.VSTS.Common.Priority") &&
      OptionalUser(f, "System.AssignedTo").Success? && OptionalUser(f, "System.CreatedBy").Success? &&
      OptionalUser(f, "System.ChangedBy").Success?
    ensures r.Success? ==>
      var x := r.value;
      x.areaPath == Member(f, "System.AreaPath") && x.teamProject == Member(f, "System.TeamProject") &&
      x.iterationPath == Member(f, "System.IterationPath") && x.workItemType == Member(f, "System.WorkItemType") &&
      x.state == Member(f, "System.State") && x.reason == Member(f, "System.Reason") &&
      x.createdDate == Member(f, "System.CreatedDate") && x.changedDate == Member(f, "System.ChangedDate") &&
      x.commentCount == Member(f, "System.CommentCount") && x.title == Member(f, "System.Title") &&
      x.priority == Member(f, "Microsoft.VSTS.Common.Priority")
    ensures r.Success? ==>
      OptionalUser(f, "System.AssignedTo") == Success(r.value.assignedTo) &&
      OptionalUser(f, "System.CreatedBy") == Success(r.value.createdBy) &&
      OptionalUser(f, "System.ChangedBy") == Success(r.value.changedBy)
    ensures r.Success? ==> r.value.stateChangeDate == f
  {
    var areaPath :- Get(f, "System.AreaPath");
    var teamProject :- Get(f, "System.TeamProject");
    var iterationPath :- Get(f, "System.IterationPath");
    var workItemType :- Get(f, "System.WorkItemType");
    var state :- Get(f, "System.State");
    var reason :- Get(f, "System.Reason");
    var assignedTo :- OptionalUser(f, "System.AssignedTo");
    var createdDate :- Get(f, "System.CreatedDate");
    var createdBy :- OptionalUser(f, "System.CreatedBy");
    var changedDate :- Get(f, "System.ChangedDate");
    var changedBy :- OptionalUser(f, "System.ChangedBy");
    var commentCount :- Get(f, "System.CommentCount");
    var title :- Get(f, "System.Title");
    var priority :- Get(f, "Microsoft.VSTS.Common.Priority");
    Success(DevOpsWorkItemValueFields(
      areaPath, teamProject, iterationPath, workItemType, state, reason, assignedTo,
      createdDate, createdBy, changedDate, changedBy, commentCount, title, f, priority))
  }

  function MapWorkItemValue(w: Value): (r: Result<DevOpsWorkItemValue>)
    ensures !w.Object? ==> r == Failure(TypeError)
    ensures w.Object? && !Has(w, "id") ==> r == Failure(KeyError("id"))
    ensures Has(w, "id") && !Has(w, "rev") ==> r == Failure(KeyError("rev"))
    ensures Has(w, "id") && Has(w, "rev") && !Has(w, "fields") ==> r == Failure(KeyError("fields"))
    ensures Has(w, "id") && Has(w, "rev") && Has(w, "fields") && MapFields(Member(w, "fields")).Failure? ==>
      r == Failure(MapFields(Member(w, "fields")).error)
    ensures Has(w, "id") && Has(w, "rev") && Has(w, "fields") && MapFields(Member(w, "fields")).Success? ==>
      (r.Success? <==> Has(w, "url"))
    ensures (Has(w, "id") && Has(w, "rev") && Has(w, "fields") && MapFields(Member(w, "fields")).Success? &&
             !Has(w, "url")) ==> r == Failure(KeyError("url"))
    ensures r.Success? ==> Has(w, "id") && Has(w, "rev") && Has(w, "fields") && Has(w, "url")
    ensures r.Success? ==>
      r.value.id == Member(w, "id") && r.value.rev == Member(w, "rev") && r.value.url == Member(w, "url") &&
      MapFields(Member(w, "fields")) == Success(r.value.fields)
    ensures r.Success? ==>
      var fields := Member(w, "fields");
      r.value.fields.stateChangeDate == fields &&
      (r.value.fields.assignedTo.Some? <==> NamesUser(fields, "System.AssignedTo")) &&
      (r.value.fields.createdBy.Some? <==> NamesUser(fields, "System.CreatedBy")) &&
      (r.value.fields.changedBy.Some? <==> NamesUser(fields, "System.ChangedBy"))
  {
    var id :- Get(w, "id");
    var rev :- Get(w, "rev");
    var f :- Get(w, "fields");
    var fields :- MapFields(f);
    var url :- Get(w, "url");
    Success(DevOpsWorkItemValue(id, rev, fields, url))
  }

  /** The work item answer: `count` as given and one value per element of
      `value`, in order. */
  function MapWorkItems(data: Value): (r: Result<DevOpsWorkItem>)
    ensures !Has(data, "count") ==> r.Failure?
    ensures r.Success? ==> r.value.count == Member(data, "count")
    ensures r.Success? ==> MapEach(data, "value", MapWorkItemValue) == Success(r.value.value)
    ensures Has(data, "count") ==> (r.Success? <==> MapEach(data, "value", MapWorkItemValue).Success?)
  {
    var count :- Get(data, "count");
    var value :- MapEach(data, "value", MapWorkItemValue);
    Success(DevOpsWorkItem(count, value))
  }

  // ------------------------------------------------------- list answers

  /** The builds of a build list answer: one per element of `value`, in
      order, and each finishes when it starts. */
  lemma MappedBuilds(json: Value)
    requires MapBuilds(json).Success?
    ensures Has(json, "value") && Elements(Member(json, "value")).Success?
    ensures var items := Elements(Member(json, "value")).value;
      var builds := MapBuilds(json).value;
      |builds| == |items| &&
      forall i :: 0 <= i < |items| ==> MapBuild(items[i]) == Success(builds[i])
    ensures forall b :: b in MapBuilds(json).value ==> b.finishTime == b.startTime
  {
    var items := Elements(Member(json, "value")).value;
    MapAllSuccess(items, MapBuild);
  }

  /** The columns and work item references of a WIQL answer: one per element
      of `columns` and of `workItems`, in order. */
  lemma MappedWiql(data: Value)
    requires MapWiqlResult(data).Success?
    ensures Elements(Member(data, "columns")).Success? && Elements(Member(data, "workItems")).Success?
    ensures var items := Elements(Member(data, "columns")).value;
      var columns := MapWiqlResult(data).value.columns;
      |columns| == |items| &&
      forall i :: 0 <= i < |items| ==> MapWiqlColumn(items[i]) == Success(columns[i])
    ensures var items := Elements(Member(data, "workItems")).value;
      var refs := MapWiqlResult(data).value.workItems;
      |refs| == |items| &&
      forall i :: 0 <= i < |items| ==> MapWiqlWorkItem(items[i]) == Success(refs[i])
  {
    MapAllSuccess(Elements(Member(data, "columns")).value, MapWiqlColumn);
    MapAllSuccess(Elements(Member(data, "workItems")).value, MapWiqlWorkItem);
  }

  /** The values of a work item answer: one per element of `value`, in order;
      each keeps its whole `fields` dict as its state change date, and has a
      user exactly where its `fields` name one. */
  lemma MappedWorkItems(data: Value)
    requires MapWorkItems(data).Success?
    ensures Elements(Member(data, "value")).Success?
    ensures var items := Elements(Member(data, "value")).value;
      var values := MapWorkItems(data).value.value;
      |values| == |items| &&
      forall i :: 0 <= i < |items| ==> MapWorkItemValue(items[i]) == Success(values[i])
    ensures var items := Elements(Member(data, "value")).value;
      var values := MapWorkItems(data).value.value;
      forall i :: 0 <= i < |items| ==>
        var fields := Member(items[i], "fields");
        values[i].fields.stateChangeDate == fields &&
        (values[i].fields.assignedTo.Some? <==> NamesUser(fields, "System.AssignedTo")) &&
        (values[i].fields.createdBy.Some? <==> NamesUser(fields, "System.CreatedBy")) &&
        (values[i].fields.changedBy.Some? <==> NamesUser(fields, "System.ChangedBy"))
  {
    var items := Elements(Member(data, "value")).value;
    MapAllSuccess(items, MapWorkItemValue);
  }
}
