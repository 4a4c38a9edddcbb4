/** The records the helper functions work on (iterations, work item types and
    work items). Dates, UUIDs and the other values the helpers never look at are
    kept as opaque strings. */
module Models {
  import opened Py

  datatype IterationTimeFrame = Current | Future | Past

  datatype IterationAttributes = IterationAttributes(
    startDate: string,
    finishDate: string,
    timeFrame: IterationTimeFrame)

  datatype Iteration = Iteration(
    id: string,
    name: string,
    path: string,
    attributes: IterationAttributes,
    url: string)

  /** The closed set of categories a work item state belongs to. */
  datatype Category = Completed | InProgress | Proposed | Removed | Resolved

  datatype State = State(name: string, color: string, category: Category)

  datatype Field = Field(
    alwaysRequired: bool,
    referenceName: string,
    name: string,
    url: string,
    defaultValue: Option<string>,
    helpText: Option<string>)

  datatype Transition = Transition(to: string, actions: Option<seq<string>>)

  datatype Icon = Icon(id: string, url: string)

  datatype WorkItemType = WorkItemType(
    name: string,
    referenceName: string,
    description: string,
    color: string,
    icon: Icon,
    isDisabled: bool,
    xmlForm: string,
    fields: seq<Field>,
    fieldInstances: seq<Field>,
    transitions: map<string, seq<Transition>>,
    states: seq<State>,
    url: string)

  datatype WorkItemAvatar = WorkItemAvatar(href: string)

  datatype WorkItemLinks = WorkItemLinks(avatar: WorkItemAvatar)

  datatype WorkItemUser = WorkItemUser(
    displayName: string,
    url: string,
    id: string,
    uniqueName: string,
    imageUrl: string,
    descriptor: string,
    links: Option<WorkItemLinks>)

  datatype WorkItemFields = WorkItemFields(
    areaPath: string,
    teamProject: string,
    iterationPath: string,
    workItemType: string,
    state: string,
    reason: string,
    assignedTo: Option<WorkItemUser>,
    createdDate: string,
    createdBy: Option<WorkItemUser>,
    changedDate: string,
    changedBy: Option<WorkItemUser>,
    commentCount: int,
    title: string,
    stateChangeDate: string,
    priority: int)

  datatype WorkItem = WorkItem(id: int, rev: int, fields: WorkItemFields, url: string)
}
