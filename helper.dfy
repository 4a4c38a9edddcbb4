/** Post-processing of already fetched collections: locating the current
    iteration and its neighbours, and selecting work item states by category. */
module Helper {
  import opened Py
  import opened Models

  // ---------------------------------------------------------------------------
  // Iterations
  // ---------------------------------------------------------------------------

  predicate IsCurrent(iteration: Iteration) {
    iteration.attributes.timeFrame == Current
  }

  /** `iterations[n]` is the first current iteration of the list. */
  predicate IsFirstCurrent(iterations: seq<Iteration>, n: int)
  {
    0 <= n < |iterations| && IsCurrent(iterations[n])
    && forall i :: 0 <= i < n ==> !IsCurrent(iterations[i])
  }

  /** The index at which a scan over `enumerate(iterations)` stops: that of the
      first current iteration, if there is one. */
  function FirstCurrent(iterations: seq<Iteration>): (k: Option<nat>)
    ensures k.None? <==> forall i :: 0 <= i < |iterations| ==> !IsCurrent(iterations[i])
    ensures k.Some? ==> IsFirstCurrent(iterations, k.value)
    ensures forall n :: IsFirstCurrent(iterations, n) ==> k == Some(n)
  {
    if iterations == [] then None
    else if IsCurrent(iterations[0]) then Some(0)
    else
      match FirstCurrent(iterations[1..])
      case None => None
      case Some(k) => Some(k + 1)
  }

  /** `current_iteration`: the first iteration whose time frame is current. */
  function CurrentIteration(iterations: seq<Iteration>): (r: Option<Iteration>)
    ensures r.None? <==> forall i :: 0 <= i < |iterations| ==> !IsCurrent(iterations[i])
    ensures r.Some? ==> exists n :: IsFirstCurrent(iterations, n) && iterations[n] == r.value
  {
    match FirstCurrent(iterations)
    case None => None
    case Some(k) => Some(iterations[k])
  }

  /** `previous_iteration` as written: `iterations[key - 1]` for the index `key`
      of the first current iteration. With `key == 0` Python's negative index
      selects the LAST iteration. */
  function PreviousIteration(iterations: seq<Iteration>): (r: Option<Iteration>)
    ensures r.None? <==> forall i :: 0 <= i < |iterations| ==> !IsCurrent(iterations[i])
    ensures var k := FirstCurrent(iterations);
      k.Some? && k.value > 0 ==> r == Some(iterations[k.value - 1])
    ensures FirstCurrent(iterations) == Some(0) ==> r == Some(iterations[|iterations| - 1])
  {
    match FirstCurrent(iterations)
    case None => None
    case Some(k) =>
      match Subscript(iterations, k - 1)
      case Success(previous) => Some(previous)
      case Failure(_) => None
  }

  /** `next_iteration` as written: `iterations[key + 1]`, which raises
      IndexError when the first current iteration is the last one. */
  function NextIteration(iterations: seq<Iteration>): (r: Result<Option<Iteration>>)
    ensures (forall i :: 0 <= i < |iterations| ==> !IsCurrent(iterations[i])) ==> r == Success(None)
    ensures var k := FirstCurrent(iterations);
      k.Some? && k.value + 1 < |iterations| ==> r == Success(Some(iterations[k.value + 1]))
    ensures var k := FirstCurrent(iterations);
      k.Some? && k.value + 1 == |iterations| ==> r == Failure(IndexError)
  {
    match FirstCurrent(iterations)
    case None => Success(None)
    case Some(k) => Optionally(Subscript(iterations, k + 1))
  }

  /** The evidently intended `previous_iteration`: there is no previous
      iteration when the current one comes first. */
  function PreviousIterationIntended(iterations: seq<Iteration>): (r: Option<Iteration>)
    ensures r.Some? <==> exists n :: IsFirstCurrent(iterations, n) && n > 0
    ensures r.Some? ==> exists n :: IsFirstCurrent(iterations, n) && n > 0 && iterations[n - 1] == r.value
  {
    match FirstCurrent(iterations)
    case None => None
    case Some(k) => if k > 0 then Some(iterations[k - 1]) else None
  }

  /** The evidently intended `next_iteration`: there is no next iteration when
      the current one comes last, instead of an IndexError. */
  function NextIterationIntended(iterations: seq<Iteration>): (r: Option<Iteration>)
    ensures r.Some? <==> exists n :: IsFirstCurrent(iterations, n) && n + 1 < |iterations|
    ensures r.Some? ==> exists n :: IsFirstCurrent(iterations, n) && n + 1 < |iterations| && iterations[n + 1] == r.value
  {
    match FirstCurrent(iterations)
    case None => None
    case Some(k) => if k + 1 < |iterations| then Some(iterations[k + 1]) else None
  }

  /** When the current iteration comes first, `previous_iteration` answers with
      the last iteration of the list where no previous iteration exists. */
  lemma PreviousIterationWrapsAround(iterations: seq<Iteration>)
    requires |iterations| >= 2 && IsCurrent(iterations[0])
    ensures PreviousIteration(iterations) == Some(iterations[|iterations| - 1])
    ensures PreviousIterationIntended(iterations) == None
  {
  }

  /** When the current iteration comes last, `next_iteration` raises. */
  lemma NextIterationRaisesAtEnd(iterations: seq<Iteration>)
    requires |iterations| >= 1 && IsCurrent(iterations[|iterations| - 1])
    requires forall i :: 0 <= i < |iterations| - 1 ==> !IsCurrent(iterations[i])
    ensures NextIteration(iterations) == Failure(IndexError)
    ensures NextIterationIntended(iterations) == None
  {
  }

  /** Away from the two edges the written and the intended lookups agree. */
  lemma NeighboursAgreeAwayFromEdges(iterations: seq<Iteration>)
    ensures FirstCurrent(iterations) != Some(0) ==>
      PreviousIteration(iterations) == PreviousIterationIntended(iterations)
    ensures var k := FirstCurrent(iterations);
      k.None? || k.value + 1 < |iterations| ==>
        NextIteration(iterations) == Success(NextIterationIntended(iterations))
  {
  }

  // ---------------------------------------------------------------------------
  // Selecting states by category
  // ---------------------------------------------------------------------------

  /** The inclusion rule both state filters apply: the category is among
      `categories` when those are given, or else it is not among
      `ignoredCategories` when those are given. */
  predicate Kept(category: Category, categories: Option<seq<Category>>, ignoredCategories: Option<seq<Category>>)
  {
    || (categories.Some? && category in categories.value)
    || (ignoredCategories.Some? && category !in ignoredCategories.value)
  }

  /** Names of the kept states of one work item type, in state order. */
  function KeptNames(states: seq<State>, categories: Option<seq<Category>>, ignoredCategories: Option<seq<Category>>): seq<string>
  {
    if states == [] then []
    else
      var last := states[|states| - 1];
      KeptNames(states[..|states| - 1], categories, ignoredCategories)
        + (if Kept(last.category, categories, ignoredCategories) then [last.name] else [])
  }

  /** Names of the kept states of all types, type after type. */
  function FilteredStateNames(types: seq<WorkItemType>, categories: Option<seq<Category>>, ignoredCategories: Option<seq<Category>>): seq<string>
  {
    if types == [] then []
    else
      FilteredStateNames(types[..|types| - 1], categories, ignoredCategories)
        + KeptNames(types[|types| - 1].states, categories, ignoredCategories)
  }

  /** The number of states over all types. */
  function StateCount(types: seq<WorkItemType>): nat
  {
    if types == [] then 0 else StateCount(types[..|types| - 1]) + |types[|types| - 1].states|
  }

  /** `work_item_types_states_filter`. */
  method WorkItemTypesStatesFilter(
    workItemTypes: seq<WorkItemType>,
    categories: Option<seq<Category>>,
    ignoredCategories: Option<seq<Category>>)
    returns (states: seq<string>)
    ensures states == FilteredStateNames(workItemTypes, categories, ignoredCategories)
  {
    if categories.None? && ignoredCategories.None? {
      NoFilterKeepsNoName(workItemTypes);
      return [];
    }
    states := [];
    for i := 0 to |workItemTypes|
      invariant states == FilteredStateNames(workItemTypes[..i], categories, ignoredCategories)
    {
      var workItemType := workItemTypes[i];
      ghost var before := states;
      for j := 0 to |workItemType.states|
        invariant states == before + KeptNames(workItemType.states[..j], categories, ignoredCategories)
      {
        var state := workItemType.states[j];
        if categories.Some? && state.category in categories.value {
          states := states + [state.name];
        } else if ignoredCategories.Some? && state.category !in ignoredCategories.value {
          states := states + [state.name];
        }
        assert workItemType.states[..j + 1][..j] == workItemType.states[..j];
      }
      assert workItemType.states[..|workItemType.states|] == workItemType.states;
      assert workItemTypes[..i + 1][..i] == workItemTypes[..i];
    }
    assert workItemTypes[..|workItemTypes|] == workItemTypes;
  }

  /** Without either filter no state is kept. */
  lemma {:induction false} NoFilterKeepsNoState(states: seq<State>)
    ensures KeptNames(states, None, None) == []
  {
    if states != [] {
      NoFilterKeepsNoState(states[..|states| - 1]);
    }
  }

  /** Without either filter the result is empty, as the early return says. */
  lemma {:induction false} NoFilterKeepsNoName(types: seq<WorkItemType>)
    ensures FilteredStateNames(types, None, None) == []
  {
    if types != [] {
      NoFilterKeepsNoName(types[..|types| - 1]);
      NoFilterKeepsNoState(types[|types| - 1].states);
    }
  }

  lemma {:induction false} KeptNamesLength(states: seq<State>, categories: Option<seq<Category>>, ignoredCategories: Option<seq<Category>>)
    ensures |KeptNames(states, categories, ignoredCategories)| <= |states|
  {
    if states != [] {
      KeptNamesLength(states[..|states| - 1], categories, ignoredCategories);
    }
  }

  /** At most one name is emitted per state. */
  lemma {:induction false} FilteredStateNamesLength(types: seq<WorkItemType>, categories: Option<seq<Category>>, ignoredCategories: Option<seq<Category>>)
    ensures |FilteredStateNames(types, categories, ignoredCategories)| <= StateCount(types)
  {
    if types != [] {
      FilteredStateNamesLength(types[..|types| - 1], categories, ignoredCategories);
      KeptNamesLength(types[|types| - 1].states, categories, ignoredCategories);
    }
  }

  lemma {:induction false} KeptNamesMembership(states: seq<State>, categories: Option<seq<Category>>, ignoredCategories: Option<seq<Category>>, name: string)
    ensures name in KeptNames(states, categories, ignoredCategories) <==>
      exists j :: 0 <= j < |states| && states[j].name == name && Kept(states[j].category, categories, ignoredCategories)
  {
    if states != [] {
      var init := states[..|states| - 1];
      KeptNamesMembership(init, categories, ignoredCategories, name);
      if exists j :: 0 <= j < |states| && states[j].name == name && Kept(states[j].category, categories, ignoredCategories) {
        var j :| 0 <= j < |states| && states[j].name == name && Kept(states[j].category, categories, ignoredCategories);
        if j < |init| {
          assert init[j] == states[j];
        }
      }
    }
  }

  /** A name is emitted exactly when some state of some type carries it and
      the state's category is kept. */
  lemma {:induction false} FilteredStateNamesMembership(types: seq<WorkItemType>, categories: Option<seq<Category>>, ignoredCategories: Option<seq<Category>>, name: string)
    ensures name in FilteredStateNames(types, categories, ignoredCategories) <==>
      exists i, j :: 0 <= i < |types| && 0 <= j < |types[i].states|
        && types[i].states[j].name == name && Kept(types[i].states[j].category, categories, ignoredCategories)
  {
    if types != [] {
      var init := types[..|types| - 1];
      var last := types[|types| - 1];
      FilteredStateNamesMembership(init, categories, ignoredCategories, name);
      KeptNamesMembership(last.states, categories, ignoredCategories, name);
      if exists i, j :: (0 <= i < |types| && 0 <= j < |types[i].states|
                         && types[i].states[j].name == name && Kept(types[i].states[j].category, categories, ignoredCategories))
      {
        var i, j :| 0 <= i < |types| && 0 <= j < |types[i].states|
          && types[i].states[j].name == name && Kept(types[i].states[j].category, categories, ignoredCategories);
        if i < |init| {
          assert init[i] == types[i];
        }
      }
      if name in FilteredStateNames(init, categories, ignoredCategories) {
        var i, j :| 0 <= i < |init| && 0 <= j < |init[i].states|
          && init[i].states[j].name == name && Kept(init[i].states[j].category, categories, ignoredCategories);
        assert types[i] == init[i];
      }
    }
  }

  /** Within a type, names come out in state order. */
  lemma {:induction false} KeptNamesAppend(a: seq<State>, b: seq<State>, categories: Option<seq<Category>>, ignoredCategories: Option<seq<Category>>)
    ensures KeptNames(a + b, categories, ignoredCategories)
      == KeptNames(a, categories, ignoredCategories) + KeptNames(b, categories, ignoredCategories)
  {
    if b == [] {
      assert a + b == a;
    } else {
      var b' := b[..|b| - 1];
      assert (a + b)[..|a + b| - 1] == a + b';
      KeptNamesAppend(a, b', categories, ignoredCategories);
    }
  }

  /** Across types, names come out in type order. */
  lemma {:induction false} FilteredStateNamesAppend(a: seq<WorkItemType>, b: seq<WorkItemType>, categories: Option<seq<Category>>, ignoredCategories: Option<seq<Category>>)
    ensures FilteredStateNames(a + b, categories, ignoredCategories)
      == FilteredStateNames(a, categories, ignoredCategories) + FilteredStateNames(b, categories, ignoredCategories)
  {
    if b == [] {
      assert a + b == a;
    } else {
      var b' := b[..|b| - 1];
      assert (a + b)[..|a + b| - 1] == a + b';
      FilteredStateNamesAppend(a, b', categories, ignoredCategories);
    }
  }

  /** The fixture type "testname" with states New (Proposed) and Closed
      (Completed), filtered by ignoring Completed and Removed, yields ["New"]. */
  lemma FixtureIgnoringCompletedAndRemoved()
    ensures var t := WorkItemType("testname", "testrefname", "testdescription", "testcolor",
                                  Icon("testid", "testurl"), false, "testform", [], [], map[],
                                  [State("New", "b2b2b2", Proposed), State("Closed", "339933", Completed)], "testurl");
      FilteredStateNames([t], None, Some([Completed, Removed])) == ["New"]
  {
    var ignored := Some([Completed, Removed]);
    var states := [State("New", "b2b2b2", Proposed), State("Closed", "339933", Completed)];
    var t := WorkItemType("testname", "testrefname", "testdescription", "testcolor",
                          Icon("testid", "testurl"), false, "testform", [], [], map[], states, "testurl");
    assert states[..1][..0] == [];
    assert KeptNames(states[..1], None, ignored) == ["New"];
    assert states[..1] == states[..|states| - 1];
    assert KeptNames(states, None, ignored) == ["New"];
    assert [t][..0] == [];
  }

  // ---------------------------------------------------------------------------
  // Work items grouped by type and state
  // ---------------------------------------------------------------------------

  /** A kept state together with the work items in that state. */
  datatype WorkItemState = WorkItemState(
    name: string,
    color: string,
    category: Category,
    workItems: seq<WorkItem>)

  /** A work item type together with its kept states and their work items. */
  datatype WorkItemTypeAndState = WorkItemTypeAndState(
    name: string,
    referenceName: string,
    description: string,
    color: string,
    icon: Icon,
    isDisabled: bool,
    xmlForm: string,
    fields: seq<Field>,
    fieldInstances: seq<Field>,
    transitions: map<string, seq<Transition>>,
    states: seq<State>,
    url: string,
    stateItems: seq<WorkItemState>)

  /** Every attribute of the work item type is carried over unchanged. */
  predicate CopiesType(entry: WorkItemTypeAndState, t: WorkItemType)
  {
    && entry.name == t.name
    && entry.referenceName == t.referenceName
    && entry.description == t.description
    && entry.color == t.color
    && entry.icon == t.icon
    && entry.isDisabled == t.isDisabled
    && entry.xmlForm == t.xmlForm
    && entry.fields == t.fields
    && entry.fieldInstances == t.fieldInstances
    && entry.transitions == t.transitions
    && entry.states == t.states
    && entry.url == t.url
  }

  /** `[item for item in work_items if item.fields.state == name]`. */
  function ItemsInState(workItems: seq<WorkItem>, name: string): seq<WorkItem>
  {
    if workItems == [] then []
    else
      var last := workItems[|workItems| - 1];
      ItemsInState(workItems[..|workItems| - 1], name) + (if last.fields.state == name then [last] else [])
  }

  /** The selection holds exactly the work items in the named state. */
  lemma {:induction false} ItemsInStateMembers(workItems: seq<WorkItem>, name: string)
    ensures |ItemsInState(workItems, name)| <= |workItems|
    ensures forall item :: item in ItemsInState(workItems, name) <==> item in workItems && item.fields.state == name
  {
    if workItems != [] {
      var init := workItems[..|workItems| - 1];
      ItemsInStateMembers(init, name);
      assert workItems == init + [workItems[|workItems| - 1]];
    }
  }

  /** The selection keeps the order of the work items. */
  lemma {:induction false} ItemsInStateAppend(a: seq<WorkItem>, b: seq<WorkItem>, name: string)
    ensures ItemsInState(a + b, name) == ItemsInState(a, name) + ItemsInState(b, name)
  {
    if b == [] {
      assert a + b == a;
    } else {
      var b' := b[..|b| - 1];
      assert (a + b)[..|a + b| - 1] == a + b';
      ItemsInStateAppend(a, b', name);
    }
  }

  /** The entry built for one state. */
  function StateEntry(state: State, workItems: seq<WorkItem>): WorkItemState
  {
    WorkItemState(state.name, state.color, state.category, ItemsInState(workItems, state.name))
  }

  /** The kept states of one type, in state order, each with its work items. */
  function KeptStateItems(states: seq<State>, workItems: seq<WorkItem>, categories: Option<seq<Category>>, ignoredCategories: Option<seq<Category>>): seq<WorkItemState>
  {
    if states == [] then []
    else
      var state := states[|states| - 1];
      KeptStateItems(states[..|states| - 1], workItems, categories, ignoredCategories)
        + (if Kept(state.category, categories, ignoredCategories) then [StateEntry(state, workItems)] else [])
  }

  /** Every entry is a kept state of the type, carrying exactly the work items
      in that state. */
  lemma {:induction false} KeptStateItemsEntries(states: seq<State>, workItems: seq<WorkItem>, categories: Option<seq<Category>>, ignoredCategories: Option<seq<Category>>)
    ensures var r := KeptStateItems(states, workItems, categories, ignoredCategories);
      && |r| <= |states|
      && (forall k :: 0 <= k < |r| ==> r[k].workItems == ItemsInState(workItems, r[k].name))
      && (forall k :: 0 <= k < |r| ==> Kept(r[k].category, categories, ignoredCategories))
      && (forall k :: 0 <= k < |r| ==> State(r[k].name, r[k].color, r[k].category) in states)
  {
    if states != [] {
      var init := states[..|states| - 1];
      KeptStateItemsEntries(init, workItems, categories, ignoredCategories);
      assert states == init + [states[|states| - 1]];
    }
  }

  /** Without either filter no state entry is built. */
  lemma {:induction false} NoFilterKeepsNoStateItem(states: seq<State>, workItems: seq<WorkItem>)
    ensures KeptStateItems(states, workItems, None, None) == []
  {
    if states != [] {
      NoFilterKeepsNoStateItem(states[..|states| - 1], workItems);
    }
  }

  /** The entry built for one work item type. */
  function TypeAndState(t: WorkItemType, stateItems: seq<WorkItemState>): WorkItemTypeAndState
  {
    WorkItemTypeAndState(t.name, t.referenceName, t.description, t.color, t.icon, t.isDisabled,
                         t.xmlForm, t.fields, t.fieldInstances, t.transitions, t.states, t.url, stateItems)
  }

  /** What `work_items_by_type_and_state` returns. */
  function ByTypeAndState(types: seq<WorkItemType>, workItems: seq<WorkItem>, categories: Option<seq<Category>>, ignoredCategories: Option<seq<Category>>): seq<WorkItemTypeAndState>
  {
    if types == [] then []
    else
      var t := types[|types| - 1];
      ByTypeAndState(types[..|types| - 1], workItems, categories, ignoredCategories)
        + [TypeAndState(t, KeptStateItems(t.states, workItems, categories, ignoredCategories))]
  }

  /** One entry per type, in type order: the type's attributes copied unchanged
      and its kept states with their work items. */
  lemma {:induction false} ByTypeAndStateEntries(types: seq<WorkItemType>, workItems: seq<WorkItem>, categories: Option<seq<Category>>, ignoredCategories: Option<seq<Category>>)
    ensures var r := ByTypeAndState(types, workItems, categories, ignoredCategories);
      && |r| == |types|
      && forall i :: 0 <= i < |types| ==>
           CopiesType(r[i], types[i]) && r[i].stateItems == KeptStateItems(types[i].states, workItems, categories, ignoredCategories)
  {
    if types != [] {
      ByTypeAndStateEntries(types[..|types| - 1], workItems, categories, ignoredCategories);
    }
  }

  /** `work_items_by_type_and_state`. */
  method WorkItemsByTypeAndState(
    workItemTypes: seq<WorkItemType>,
    workItems: seq<WorkItem>,
    categories: Option<seq<Category>>,
    ignoredCategories: Option<seq<Category>>)
    returns (result: seq<WorkItemTypeAndState>)
    ensures result == ByTypeAndState(workItemTypes, workItems, categories, ignoredCategories)
  {
    result := [];
    for i := 0 to |workItemTypes|
      invariant result == ByTypeAndState(workItemTypes[..i], workItems, categories, ignoredCategories)
    {
      var workItemType := workItemTypes[i];
      var states: seq<WorkItemState> := [];
      for j := 0 to |workItemType.states|
        invariant states == KeptStateItems(workItemType.states[..j], workItems, categories, ignoredCategories)
      {
        var items := ItemsInState(workItems, workItemType.states[j].name);
        var state := WorkItemState(workItemType.states[j].name, workItemType.states[j].color,
                                   workItemType.states[j].category, items);
        assert state == StateEntry(workItemType.states[j], workItems);
        if categories.Some? && state.category in categories.value {
          states := states + [state];
        } else if ignoredCategories.Some? && state.category !in ignoredCategories.value {
          states := states + [state];
        }
        assert workItemType.states[..j + 1][..j] == workItemType.states[..j];
      }
      assert workItemType.states[..|workItemType.states|] == workItemType.states;
      result := result + [TypeAndState(workItemType, states)];
      assert workItemTypes[..i + 1][..i] == workItemTypes[..i];
    }
    assert workItemTypes[..|workItemTypes|] == workItemTypes;
  }

  /** Names of a list of state entries, in order. */
  function EntryNames(entries: seq<WorkItemState>): seq<string>
  {
    if entries == [] then [] else EntryNames(entries[..|entries| - 1]) + [entries[|entries| - 1].name]
  }

  /** Names of the kept states of all entries, entry after entry. */
  function AllEntryNames(result: seq<WorkItemTypeAndState>): seq<string>
  {
    if result == [] then []
    else AllEntryNames(result[..|result| - 1]) + EntryNames(result[|result| - 1].stateItems)
  }

  lemma {:induction false} EntryNamesAppend(a: seq<WorkItemState>, b: seq<WorkItemState>)
    ensures EntryNames(a + b) == EntryNames(a) + EntryNames(b)
  {
    if b == [] {
      assert a + b == a;
    } else {
      var b' := b[..|b| - 1];
      assert (a + b)[..|a + b| - 1] == a + b';
      EntryNamesAppend(a, b');
    }
  }

  lemma {:induction false} KeptStateItemsNames(states: seq<State>, workItems: seq<WorkItem>, categories: Option<seq<Category>>, ignoredCategories: Option<seq<Category>>)
    ensures EntryNames(KeptStateItems(states, workItems, categories, ignoredCategories)) == KeptNames(states, categories, ignoredCategories)
  {
    if states != [] {
      var state := states[|states| - 1];
      var init := states[..|states| - 1];
      KeptStateItemsNames(init, workItems, categories, ignoredCategories);
      var tail := if Kept(state.category, categories, ignoredCategories) then [StateEntry(state, workItems)] else [];
      EntryNamesAppend(KeptStateItems(init, workItems, categories, ignoredCategories), tail);
      assert EntryNames(tail) == if Kept(state.category, categories, ignoredCategories) then [state.name] else [] by {
        if tail != [] {
          assert tail[..0] == [];
        }
      }
    }
  }

  /** The grouping keeps exactly the states the filter names: the kept state
      names of all entries, concatenated, are `work_item_types_states_filter`'s
      output for the same filters. */
  lemma {:induction false} GroupingAgreesWithFilter(types: seq<WorkItemType>, workItems: seq<WorkItem>, categories: Option<seq<Category>>, ignoredCategories: Option<seq<Category>>)
    ensures AllEntryNames(ByTypeAndState(types, workItems, categories, ignoredCategories))
      == FilteredStateNames(types, categories, ignoredCategories)
  {
    if types != [] {
      var init := types[..|types| - 1];
      var t := types[|types| - 1];
      GroupingAgreesWithFilter(init, workItems, categories, ignoredCategories);
      KeptStateItemsNames(t.states, workItems, categories, ignoredCategories);
      var r := ByTypeAndState(types, workItems, categories, ignoredCategories);
      assert r[..|r| - 1] == ByTypeAndState(init, workItems, categories, ignoredCategories);
    }
  }

  /** Without either filter every entry has no kept states. */
  lemma NoFilterGroupsNothing(types: seq<WorkItemType>, workItems: seq<WorkItem>)
    ensures var r := ByTypeAndState(types, workItems, None, None);
      |r| == |types| && forall i :: 0 <= i < |r| ==> r[i].stateItems == []
  {
    ByTypeAndStateEntries(types, workItems, None, None);
    var r := ByTypeAndState(types, workItems, None, None);
    forall i | 0 <= i < |r|
      ensures r[i].stateItems == []
    {
      NoFilterKeepsNoStateItem(types[i].states, workItems);
    }
  }
}
