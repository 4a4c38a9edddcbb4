/** The records the client builds from the service's JSON answers. A field the
    client copies from the answer holds the decoded JSON value as it came (the
    client never converts or checks it); `Null` in such a field is Python's
    `None`, which is what the client stores when an optional key is absent.
    A nested record the client leaves out when its key is absent is an `Option`. */
module Records {
  import opened Py
  import opened Json

  /** The `_links` of a project: the three `href`s. */
  datatype DevOpsLinks = DevOpsLinks(linkSelf: Value, collection: Value, web: Value)

  datatype DevOpsTeam = DevOpsTeam(teamId: Value, name: Value, url: Value)

  datatype DevOpsProject = DevOpsProject(
    projectId: Value,
    name: Value,
    description: Value,
    url: Value,
    state: Value,
    revision: Value,
    visibility: Value,
    lastUpdated: Value,
    defaultTeam: Option<DevOpsTeam>,
    links: Option<DevOpsLinks>)

  datatype DevOpsBuildLinks = DevOpsBuildLinks(
    linkSelf: Value,
    web: Value,
    sourceVersionDisplayUri: Value,
    timeline: Value,
    badge: Value)

  datatype DevOpsBuildDefinition = DevOpsBuildDefinition(
    buildId: Value,
    name: Value,
    url: Value,
    path: Value,
    buildType: Value,
    queueStatus: Value,
    revision: Value)

  datatype DevOpsBuild = DevOpsBuild(
    buildId: Value,
    buildNumber: Value,
    status: Value,
    result: Value,
    sourceBranch: Value,
    sourceVersion: Value,
    priority: Value,
    reason: Value,
    queueTime: Value,
    startTime: Value,
    finishTime: Value,
    definition: Option<DevOpsBuildDefinition>,
    project: Option<DevOpsProject>,
    links: Option<DevOpsBuildLinks>)

  datatype DevOpsWiqlColumn = DevOpsWiqlColumn(referenceName: Value, name: Value, url: Value)

  datatype DevOpsWiqlWorkItem = DevOpsWiqlWorkItem(id: Value, url: Value)

  datatype DevOpsWiqlResult = DevOpsWiqlResult(
    queryType: Value,
    queryResultType: Value,
    asOf: Value,
    columns: seq<DevOpsWiqlColumn>,
    workItems: seq<DevOpsWiqlWorkItem>)

  datatype DevOpsWorkItemAvatar = DevOpsWorkItemAvatar(href: Value)

  datatype DevOpsWorkItemLinks = DevOpsWorkItemLinks(avatar: DevOpsWorkItemAvatar)

  datatype DevOpsWorkItemUser = DevOpsWorkItemUser(
    displayName: Value,
    url: Value,
    links: DevOpsWorkItemLinks,
    id: Value,
    uniqueName: Value,
    imageUrl: Value,
    descriptor: Value)

  datatype DevOpsWorkItemValueFields = DevOpsWorkItemValueFields(
    areaPath: Value,
    teamProject: Value,
    iterationPath: Value,
    workItemType: Value,
    state: Value,
    reason: Value,
    assignedTo: Option<DevOpsWorkItemUser>,
    createdDate: Value,
    createdBy: Option<DevOpsWorkItemUser>,
    changedDate: Value,
    changedBy: Option<DevOpsWorkItemUser>,
    commentCount: Value,
    title: Value,
    stateChangeDate: Value,
    priority: Value)

  datatype DevOpsWorkItemValue = DevOpsWorkItemValue(
    id: Value,
    rev: Value,
    fields: DevOpsWorkItemValueFields,
    url: Value)

  datatype DevOpsWorkItem = DevOpsWorkItem(count: Value, value: seq<DevOpsWorkItemValue>)
}
