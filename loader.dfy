/** Model of So_Hydrogen_Loader (includes/class-so-hydrogen-loader.php): a
    deferred registry that buffers WordPress actions, filters and sidebar
    (widget) areas in three append-only, ordered collections and later
    replays them, in insertion order, into the host's add_filter,
    add_action and register_sidebar primitives.

    The host primitives are not implemented here: each flush returns the
    sequence of host calls it makes, as HostCall values, in the order it
    makes them. The component reference is the opaque type parameter C. */
module HydrogenLoader {

  datatype Option<T> = None | Some(value: T)

  /** Defaults of add_action and add_filter when the caller omits them. */
  const DefaultPriority: int := 10
  const DefaultAcceptedArgs: int := 1

  /** The four template strings load_widget_areas hands to register_sidebar
      for every area, verbatim. */
  const BeforeWidget: string := "<div id=\"%1$s\" class=\"col-md widget-container align-self-center %2$s\">"
  const AfterWidget: string := "</div>"
  const BeforeTitle: string := "<h3 class=\"widget-title\">"
  const AfterTitle: string := "</h3>"

  /** One entry of $actions or $filters. */
  datatype Hook<C> = Hook(hook: string, component: C, callback: string, priority: int, acceptedArgs: int)

  /** One entry of $widget_areas; a null description is None. */
  datatype Area = Area(name: string, id: string, description: Option<string>)

  /** The PHP callable array( $component, $callback ) passed to the host. */
  datatype Callable<C> = Callable(component: C, callback: string)

  /** One call into the host: add_filter, add_action or register_sidebar. */
  datatype HostCall<C> =
    | AddFilterCall(hook: string, callable: Callable<C>, priority: int, acceptedArgs: int)
    | AddActionCall(hook: string, callable: Callable<C>, priority: int, acceptedArgs: int)
    | RegisterSidebarCall(name: string, id: string, description: Option<string>,
                          beforeWidget: string, afterWidget: string,
                          beforeTitle: string, afterTitle: string)

  /** Which of the two hook collections a record comes from. */
  datatype HookKind = Filter | Action

  // ---------------------------------------------------------------------
  // The private helpers add() and areas(): append one record to a copy.
  // ---------------------------------------------------------------------

  /** add(): the given collection with one hook record appended. */
  function Add<C>(hooks: seq<Hook<C>>, hook: string, component: C, callback: string,
                  priority: int, acceptedArgs: int): (r: seq<Hook<C>>)
    ensures |r| == |hooks| + 1
    ensures r[..|hooks|] == hooks
    ensures r[|hooks|] == Hook(hook, component, callback, priority, acceptedArgs)
  {
    hooks + [Hook(hook, component, callback, priority, acceptedArgs)]
  }

  /** areas(): the given collection with one area record appended. */
  function Areas(areas: seq<Area>, widgetName: string, widgetId: string,
                 widgetDescription: Option<string>): (r: seq<Area>)
    ensures |r| == |areas| + 1
    ensures r[..|areas|] == areas
    ensures r[|areas|] == Area(widgetName, widgetId, widgetDescription)
  {
    areas + [Area(widgetName, widgetId, widgetDescription)]
  }

  // ---------------------------------------------------------------------
  // What the host receives, and what a recording host can read back.
  // ---------------------------------------------------------------------

  /** True of the host calls run() makes (add_filter / add_action). */
  predicate IsBinding<C>(c: HostCall<C>)
  {
    c.AddFilterCall? || c.AddActionCall?
  }

  /** The hook record a recording host reconstructs from one binding call. */
  function Unbind<C>(c: HostCall<C>): Hook<C>
    requires IsBinding(c)
  {
    Hook(c.hook, c.callable.component, c.callable.callback, c.priority, c.acceptedArgs)
  }

  /** The kind of primitive a binding call went to. */
  function KindOf<C>(c: HostCall<C>): HookKind
    requires IsBinding(c)
  {
    if c.AddFilterCall? then Filter else Action
  }

  /** The host call run() makes for one hook record. */
  function Bind<C>(kind: HookKind, h: Hook<C>): (c: HostCall<C>)
    ensures IsBinding(c) && KindOf(c) == kind && Unbind(c) == h
  {
    match kind
    case Filter => AddFilterCall(h.hook, Callable(h.component, h.callback), h.priority, h.acceptedArgs)
    case Action => AddActionCall(h.hook, Callable(h.component, h.callback), h.priority, h.acceptedArgs)
  }

  /** True of a register_sidebar call carrying the four fixed template strings. */
  predicate HasTemplate<C>(c: HostCall<C>)
  {
    c.RegisterSidebarCall? &&
    c.beforeWidget == BeforeWidget && c.afterWidget == AfterWidget &&
    c.beforeTitle == BeforeTitle && c.afterTitle == AfterTitle
  }

  /** The area record a recording host reconstructs from a register_sidebar call. */
  function AreaOf<C>(c: HostCall<C>): Area
    requires c.RegisterSidebarCall?
  {
    Area(c.name, c.id, c.description)
  }

  /** The register_sidebar call load_widget_areas() makes for one area. */
  function SidebarCall<C>(a: Area): (c: HostCall<C>)
    ensures HasTemplate(c) && AreaOf(c) == a
  {
    RegisterSidebarCall(a.name, a.id, a.description, BeforeWidget, AfterWidget, BeforeTitle, AfterTitle)
  }

  /** The calls one foreach loop of run() makes, in collection order. */
  function HookCalls<C>(kind: HookKind, hooks: seq<Hook<C>>): seq<HostCall<C>>
  {
    if hooks == [] then [] else [Bind(kind, hooks[0])] + HookCalls(kind, hooks[1..])
  }

  /** The calls run() makes: the filter loop, then the action loop. */
  function RunCalls<C>(filters: seq<Hook<C>>, actions: seq<Hook<C>>): seq<HostCall<C>>
  {
    HookCalls(Filter, filters) + HookCalls(Action, actions)
  }

  /** The calls load_widget_areas() makes, in collection order. */
  function SidebarCalls<C>(areas: seq<Area>): seq<HostCall<C>>
  {
    if areas == [] then [] else [SidebarCall<C>(areas[0])] + SidebarCalls<C>(areas[1..])
  }

  /** The hook records of one kind a host recording every call would hold. */
  function Recorded<C>(kind: HookKind, calls: seq<HostCall<C>>): seq<Hook<C>>
  {
    if calls == [] then []
    else (if IsBinding(calls[0]) && KindOf(calls[0]) == kind then [Unbind(calls[0])] else [])
         + Recorded(kind, calls[1..])
  }

  /** The area records a host recording every call would hold. */
  function RecordedAreas<C>(calls: seq<HostCall<C>>): seq<Area>
  {
    if calls == [] then []
    else (if calls[0].RegisterSidebarCall? then [AreaOf(calls[0])] else [])
         + RecordedAreas(calls[1..])
  }

  // ---------------------------------------------------------------------
  // Properties of the replay.
  // ---------------------------------------------------------------------

  /** One host call per hook record. */
  lemma {:induction false} HookCallsLength<C>(kind: HookKind, hooks: seq<Hook<C>>)
    ensures |HookCalls(kind, hooks)| == |hooks|
  {
    if hooks != [] {
      HookCallsLength(kind, hooks[1..]);
    }
  }

  /** The i-th call carries the i-th record's hook, callable, priority and
      accepted_args, and goes to the primitive of the record's kind. */
  lemma {:induction false} HookCallsAt<C>(kind: HookKind, hooks: seq<Hook<C>>, i: int)
    requires 0 <= i < |hooks|
    ensures |HookCalls(kind, hooks)| == |hooks|
    ensures HookCalls(kind, hooks)[i] == Bind(kind, hooks[i])
  {
    HookCallsLength(kind, hooks);
    if i > 0 {
      HookCallsAt(kind, hooks[1..], i - 1);
    }
  }

  /** Replaying a concatenation replays the parts one after the other. */
  lemma {:induction false} HookCallsAppend<C>(kind: HookKind, s: seq<Hook<C>>, t: seq<Hook<C>>)
    ensures HookCalls(kind, s + t) == HookCalls(kind, s) + HookCalls(kind, t)
  {
    if s == [] {
      assert s + t == t;
    } else {
      assert (s + t)[1..] == s[1..] + t;
      HookCallsAppend(kind, s[1..], t);
    }
  }

  /** run() makes exactly |filters| + |actions| calls: the i-th filter's
      add_filter call at position i, then the j-th action's add_action call
      at position |filters| + j. */
  lemma RunCallsShape<C>(filters: seq<Hook<C>>, actions: seq<Hook<C>>)
    ensures |RunCalls(filters, actions)| == |filters| + |actions|
    ensures forall i :: 0 <= i < |filters| ==>
      RunCalls(filters, actions)[i] == Bind(Filter, filters[i])
    ensures forall j :: 0 <= j < |actions| ==>
      RunCalls(filters, actions)[|filters| + j] == Bind(Action, actions[j])
  {
    HookCallsLength(Filter, filters);
    HookCallsLength(Action, actions);
    forall i | 0 <= i < |filters|
      ensures RunCalls(filters, actions)[i] == Bind(Filter, filters[i])
    {
      HookCallsAt(Filter, filters, i);
    }
    forall j | 0 <= j < |actions|
      ensures RunCalls(filters, actions)[|filters| + j] == Bind(Action, actions[j])
    {
      HookCallsAt(Action, actions, j);
    }
  }

  /** run() makes only add_filter and add_action calls, and every add_filter
      call precedes every add_action call. */
  lemma FiltersBeforeActions<C>(filters: seq<Hook<C>>, actions: seq<Hook<C>>)
    ensures forall k :: 0 <= k < |RunCalls(filters, actions)| ==>
      IsBinding(RunCalls(filters, actions)[k])
    ensures forall i, j ::
      0 <= i < |RunCalls(filters, actions)| && 0 <= j < |RunCalls(filters, actions)| &&
      RunCalls(filters, actions)[i].AddFilterCall? && RunCalls(filters, actions)[j].AddActionCall?
      ==> i < j
  {
    RunCallsShape(filters, actions);
    var r := RunCalls(filters, actions);
    forall k | 0 <= k < |r|
      ensures IsBinding(r[k]) && (r[k].AddFilterCall? <==> k < |filters|)
    {
      if k < |filters| {
        assert r[k] == Bind(Filter, filters[k]);
      } else {
        assert r[|filters| + (k - |filters|)] == Bind(Action, actions[k - |filters|]);
      }
    }
  }

  /** Recording preserves concatenation. */
  lemma {:induction false} RecordedAppend<C>(kind: HookKind, s: seq<HostCall<C>>, t: seq<HostCall<C>>)
    ensures Recorded(kind, s + t) == Recorded(kind, s) + Recorded(kind, t)
  {
    if s == [] {
      assert s + t == t;
    } else {
      assert (s + t)[1..] == s[1..] + t;
      RecordedAppend(kind, s[1..], t);
    }
  }

  /** A host recording one loop's calls holds exactly that loop's records, in
      order, under that loop's kind, and nothing under the other kind. */
  lemma {:induction false} RecordedHookCalls<C>(kind: HookKind, other: HookKind, hooks: seq<Hook<C>>)
    requires other != kind
    ensures Recorded(kind, HookCalls(kind, hooks)) == hooks
    ensures Recorded(other, HookCalls(kind, hooks)) == []
  {
    if hooks != [] {
      RecordedHookCalls(kind, other, hooks[1..]);
    }
  }

  /** run() loses nothing and mixes nothing up: from its calls a recording
      host gets back exactly the filters and exactly the actions, each in
      insertion order. */
  lemma RunRoundTrip<C>(filters: seq<Hook<C>>, actions: seq<Hook<C>>)
    ensures Recorded(Filter, RunCalls(filters, actions)) == filters
    ensures Recorded(Action, RunCalls(filters, actions)) == actions
  {
    RecordedAppend(Filter, HookCalls(Filter, filters), HookCalls(Action, actions));
    RecordedAppend(Action, HookCalls(Filter, filters), HookCalls(Action, actions));
    RecordedHookCalls(Filter, Action, filters);
    RecordedHookCalls(Action, Filter, actions);
  }

  /** Adding one filter inserts its add_filter call after the earlier
      filters' calls and before every add_action call. */
  lemma RunAfterAddFilter<C>(filters: seq<Hook<C>>, actions: seq<Hook<C>>, hook: string, component: C,
                             callback: string, priority: int, acceptedArgs: int)
    ensures RunCalls(Add(filters, hook, component, callback, priority, acceptedArgs), actions) ==
      HookCalls(Filter, filters) + [AddFilterCall(hook, Callable(component, callback), priority, acceptedArgs)]
      + HookCalls(Action, actions)
  {
    HookCallsAppend(Filter, filters, [Hook(hook, component, callback, priority, acceptedArgs)]);
  }

  /** Adding one action appends its add_action call to the end of run(). */
  lemma RunAfterAddAction<C>(filters: seq<Hook<C>>, actions: seq<Hook<C>>, hook: string, component: C,
                             callback: string, priority: int, acceptedArgs: int)
    ensures RunCalls(filters, Add(actions, hook, component, callback, priority, acceptedArgs)) ==
      RunCalls(filters, actions) + [AddActionCall(hook, Callable(component, callback), priority, acceptedArgs)]
  {
    HookCallsAppend(Action, actions, [Hook(hook, component, callback, priority, acceptedArgs)]);
  }

  /** No deduplication: registering the same tuple twice stores two records
      and replays two identical host calls. */
  lemma NoDeduplication<C>(kind: HookKind, hooks: seq<Hook<C>>, hook: string, component: C,
                           callback: string, priority: int, acceptedArgs: int)
    ensures var twice := Add(Add(hooks, hook, component, callback, priority, acceptedArgs),
                             hook, component, callback, priority, acceptedArgs);
      |twice| == |hooks| + 2 &&
      HookCalls(kind, twice) == HookCalls(kind, hooks)
        + [Bind(kind, Hook(hook, component, callback, priority, acceptedArgs))]
        + [Bind(kind, Hook(hook, component, callback, priority, acceptedArgs))]
  {
    var h := Hook(hook, component, callback, priority, acceptedArgs);
    assert Add(Add(hooks, hook, component, callback, priority, acceptedArgs),
               hook, component, callback, priority, acceptedArgs) == hooks + [h, h];
    HookCallsAppend(kind, hooks, [h, h]);
    assert HookCalls(kind, [h, h]) == [Bind(kind, h)] + HookCalls(kind, [h]);
  }

  /** One register_sidebar call per area, so zero areas make zero calls. */
  lemma {:induction false} SidebarCallsLength<C>(areas: seq<Area>)
    ensures |SidebarCalls<C>(areas)| == |areas|
  {
    if areas != [] {
      SidebarCallsLength<C>(areas[1..]);
    }
  }

  /** The i-th register_sidebar call carries the i-th area's name, id and
      description and the four fixed template strings. */
  lemma {:induction false} SidebarCallsAt<C>(areas: seq<Area>, i: int)
    requires 0 <= i < |areas|
    ensures |SidebarCalls<C>(areas)| == |areas|
    ensures SidebarCalls<C>(areas)[i] ==
      RegisterSidebarCall(areas[i].name, areas[i].id, areas[i].description,
                          BeforeWidget, AfterWidget, BeforeTitle, AfterTitle)
  {
    SidebarCallsLength<C>(areas);
    if i > 0 {
      SidebarCallsAt<C>(areas[1..], i - 1);
    }
  }

  /** From load_widget_areas()' calls a recording host gets back exactly the
      areas, in insertion order. */
  lemma {:induction false} SidebarRoundTrip<C>(areas: seq<Area>)
    ensures RecordedAreas(SidebarCalls<C>(areas)) == areas
  {
    if areas != [] {
      SidebarRoundTrip<C>(areas[1..]);
    }
  }

  /** An area added without a description reaches register_sidebar with a
      null description, not an empty string. */
  lemma OmittedDescriptionReplaysAsNull<C>(areas: seq<Area>, widgetName: string, widgetId: string)
    ensures var calls := SidebarCalls<C>(Areas(areas, widgetName, widgetId, None));
      |calls| == |areas| + 1 &&
      calls[|areas|].RegisterSidebarCall? &&
      calls[|areas|].description == None && calls[|areas|].description != Some("")
  {
    SidebarCallsAt<C>(Areas(areas, widgetName, widgetId, None), |areas|);
  }

  // ---------------------------------------------------------------------
  // The loader object.
  // ---------------------------------------------------------------------

  class Loader<C> {
    /** $actions, $filters and $widget_areas, in insertion order. */
    var actions: seq<Hook<C>>
    var filters: seq<Hook<C>>
    var widgetAreas: seq<Area>

    /** __construct(): all three collections start empty. */
    constructor ()
      ensures actions == [] && filters == [] && widgetAreas == []
    {
      actions := [];
      filters := [];
      widgetAreas := [];
    }

    /** add_action(): appends one record to the actions, nothing else changes. */
    method AddAction(hook: string, component: C, callback: string,
                     priority: int := DefaultPriority, acceptedArgs: int := DefaultAcceptedArgs)
      modifies this
      ensures actions == old(actions) + [Hook(hook, component, callback, priority, acceptedArgs)]
      ensures filters == old(filters) && widgetAreas == old(widgetAreas)
    {
      actions := Add(actions, hook, component, callback, priority, acceptedArgs);
    }

    /** add_filter(): appends one record to the filters, nothing else changes. */
    method AddFilter(hook: string, component: C, callback: string,
                     priority: int := DefaultPriority, acceptedArgs: int := DefaultAcceptedArgs)
      modifies this
      ensures filters == old(filters) + [Hook(hook, component, callback, priority, acceptedArgs)]
      ensures actions == old(actions) && widgetAreas == old(widgetAreas)
    {
      filters := Add(filters, hook, component, callback, priority, acceptedArgs);
    }

    /** add_sidebar(): appends one record to the widget areas, nothing else changes. */
    method AddSidebar(widgetName: string, widgetId: string, widgetDescription: Option<string> := None)
      modifies this
      ensures widgetAreas == old(widgetAreas) + [Area(widgetName, widgetId, widgetDescription)]
      ensures actions == old(actions) && filters == old(filters)
    {
      widgetAreas := Areas(widgetAreas, widgetName, widgetId, widgetDescription);
    }

    /** run(): one add_filter call per filter, then one add_action call per
        action, each loop in insertion order; no collection changes. */
    method Run() returns (calls: seq<HostCall<C>>)
      ensures calls == RunCalls(filters, actions)
    {
      calls := [];
      for i := 0 to |filters|
        invariant calls == HookCalls(Filter, filters[..i])
      {
        assert filters[..i + 1] == filters[..i] + [filters[i]];
        HookCallsAppend(Filter, filters[..i], [filters[i]]);
        calls := calls + [Bind(Filter, filters[i])];
      }
      assert filters[..|filters|] == filters;
      for i := 0 to |actions|
        invariant calls == HookCalls(Filter, filters) + HookCalls(Action, actions[..i])
      {
        assert actions[..i + 1] == actions[..i] + [actions[i]];
        HookCallsAppend(Action, actions[..i], [actions[i]]);
        calls := calls + [Bind(Action, actions[i])];
      }
      assert actions[..|actions|] == actions;
    }

    /** load_widget_areas(): one register_sidebar call per area, in
        insertion order; the collection does not change. */
    method LoadWidgetAreas() returns (calls: seq<HostCall<C>>)
      ensures calls == SidebarCalls<C>(widgetAreas)
    {
      calls := [];
      for i := 0 to |widgetAreas|
        invariant |calls| == i
        invariant forall k :: 0 <= k < i ==> calls[k] == SidebarCall<C>(widgetAreas[k])
      {
        calls := calls + [SidebarCall<C>(widgetAreas[i])];
      }
      SidebarCallsLength<C>(widgetAreas);
      forall k | 0 <= k < |widgetAreas|
        ensures calls[k] == SidebarCalls<C>(widgetAreas)[k]
      {
        SidebarCallsAt<C>(widgetAreas, k);
      }
    }
  }

  /** A whole bootstrap: a filter with priority 5, an action and an area with
      the defaults left out, then both flushes. The host sees the filter, the
      action with priority 10 and accepted_args 1, and the areas with the
      fixed template, the second one with a null description. */
  method DefaultsScenario<C>(obj: C) returns (calls: seq<HostCall<C>>)
    ensures calls == [
      AddFilterCall("the_content", Callable(obj, "render"), 5, 1),
      AddActionCall("init", Callable(obj, "setup"), 10, 1),
      RegisterSidebarCall("Sidebar", "sidebar-1", Some("Main sidebar"),
                          BeforeWidget, AfterWidget, BeforeTitle, AfterTitle),
      RegisterSidebarCall("Footer", "footer-1", None,
                          BeforeWidget, AfterWidget, BeforeTitle, AfterTitle)]
  {
    var loader := new Loader<C>();
    loader.AddFilter("the_content", obj, "render", 5);
    loader.AddAction("init", obj, "setup");
    loader.AddSidebar("Sidebar", "sidebar-1", Some("Main sidebar"));
    loader.AddSidebar("Footer", "footer-1");
    var hookCalls := loader.Run();
    var areaCalls := loader.LoadWidgetAreas();
    assert HookCalls(Filter, loader.filters) == [Bind(Filter, loader.filters[0])] + HookCalls(Filter, []);
    assert HookCalls(Action, loader.actions) == [Bind(Action, loader.actions[0])] + HookCalls(Action, []);
    SidebarCallsAt<C>(loader.widgetAreas, 0);
    SidebarCallsAt<C>(loader.widgetAreas, 1);
    calls := hookCalls + areaCalls;
  }
}
