# So_Hydrogen_Loader, modelled in Dafny

This project models `So_Hydrogen_Loader` (`includes/class-so-hydrogen-loader.php`) in
`loader.dfy`, module `HydrogenLoader`. The class is the deferred hook registry of the
So Hydrogen WordPress plugin. It buffers action, filter and sidebar (widget area)
registrations in three ordered, append-only collections. Later it replays them into
WordPress's `add_filter`, `add_action` and `register_sidebar`.

- `Loader<C>` is the class. It has the fields `actions`, `filters` and `widgetAreas`, each a
  `seq` that `AddAction`, `AddFilter` and `AddSidebar` reassign. The component reference is
  the opaque type parameter `C`.
- The omitted-argument defaults of the PHP methods are Dafny default-value parameters:
  priority `DefaultPriority` = 10, accepted_args `DefaultAcceptedArgs` = 1, description `None`.
  PHP `null` is `None`.
- The private helpers `add` and `areas` are the pure functions `Add` and `Areas`.
- WordPress's three primitives are not implemented. Each flush (`Run`, `LoadWidgetAreas`)
  returns the sequence of `HostCall` values it hands to the host, in the order its `foreach`
  loops make the calls.
- Each flush is specified by a function: `RunCalls` (the filter loop's `HookCalls`, then the
  action loop's) and `SidebarCalls`. The lemmas state what these promise.
- The partner of each replay is a recording host. `Recorded` and `RecordedAreas` read the
  records back from the calls. The round-trip lemmas show the replay is a lossless,
  order-preserving, one-to-one image of the collections.

## Model

| member | source | states |
|---|---|---|
| HydrogenLoader.Loader.constructor | includes/class-so-hydrogen-loader.php:58-64 | all three collections start empty |
| HydrogenLoader.Loader.AddAction | includes/class-so-hydrogen-loader.php:76-78 | appends exactly one record with the given hook, component, callback, priority (default 10) and accepted_args (default 1) to the end of `actions`; `filters` and `widgetAreas` are unchanged |
| HydrogenLoader.Loader.AddFilter | includes/class-so-hydrogen-loader.php:90-92 | appends exactly one record (same defaults) to the end of `filters`; `actions` and `widgetAreas` are unchanged |
| HydrogenLoader.Loader.AddSidebar | includes/class-so-hydrogen-loader.php:102-104 | appends exactly one `{name, id, description}` record to `widgetAreas`, with description null (`None`) when omitted; `actions` and `filters` are unchanged |
| HydrogenLoader.Add | includes/class-so-hydrogen-loader.php:120-132 | the result is one longer, keeps the earlier records as its prefix, and ends with the new record |
| HydrogenLoader.Areas | includes/class-so-hydrogen-loader.php:146-156 | the result is one longer, keeps the earlier areas as its prefix, and ends with the new area |
| HydrogenLoader.Bind | includes/class-so-hydrogen-loader.php:166-170 | the call for one hook record goes to the primitive of the record's kind, and the record's hook, (component, callback), priority and accepted_args can be read back from it unchanged |
| HydrogenLoader.SidebarCall | includes/class-so-hydrogen-loader.php:184-192 | the register_sidebar call for one area carries the four fixed template strings, and the area's name, id and description can be read back from it unchanged |
| HydrogenLoader.Loader.Run | includes/class-so-hydrogen-loader.php:163-173 | the calls made are the filter loop's calls followed by the action loop's (`RunCalls`); no collection changes |
| HydrogenLoader.Loader.LoadWidgetAreas | includes/class-so-hydrogen-loader.php:180-195 | the calls made are one register_sidebar call per area, in order (`SidebarCalls`); the collection does not change |
| HydrogenLoader.HookCallsLength | includes/class-so-hydrogen-loader.php:165-171 | each `foreach` loop of `run` makes exactly one host call per record |
| HydrogenLoader.HookCallsAt | includes/class-so-hydrogen-loader.php:165-171 | the i-th call of a loop carries the i-th record's values |
| HydrogenLoader.HookCallsAppend | includes/class-so-hydrogen-loader.php:165-171 | replaying a concatenation of records makes the calls for the first part, then the calls for the second |
| HydrogenLoader.RunCallsShape | includes/class-so-hydrogen-loader.php:163-173 | `run` makes exactly \|filters\| + \|actions\| calls: the i-th filter's add_filter call at position i, and the j-th action's add_action call at position \|filters\| + j |
| HydrogenLoader.FiltersBeforeActions | includes/class-so-hydrogen-loader.php:163-173 | `run` makes only add_filter and add_action calls, and every add_filter call comes before every add_action call |
| HydrogenLoader.RecordedAppend | includes/class-so-hydrogen-loader.php:163-173 | what a recording host holds for a concatenation of call sequences is what it holds for each part, in order |
| HydrogenLoader.RecordedHookCalls | includes/class-so-hydrogen-loader.php:165-171 | a host recording one loop's calls holds exactly that loop's records, in order, under that kind, and nothing under the other kind |
| HydrogenLoader.RunRoundTrip | includes/class-so-hydrogen-loader.php:163-173 | from the calls of `run`, a recording host gets back exactly `filters` as filters and exactly `actions` as actions, each in insertion order |
| HydrogenLoader.RunAfterAddFilter | includes/class-so-hydrogen-loader.php:90-92 | after adding one filter, `run` makes its add_filter call after the earlier filters' calls and before every add_action call |
| HydrogenLoader.RunAfterAddAction | includes/class-so-hydrogen-loader.php:76-78 | after adding one action, `run` makes its add_action call last, after all the earlier calls |
| HydrogenLoader.NoDeduplication | includes/class-so-hydrogen-loader.php:120-130 | adding the same tuple twice makes the collection two longer, and the replay makes two identical host calls |
| HydrogenLoader.SidebarCallsLength | includes/class-so-hydrogen-loader.php:182-194 | `load_widget_areas` makes exactly one register_sidebar call per area, so zero areas make zero calls |
| HydrogenLoader.SidebarCallsAt | includes/class-so-hydrogen-loader.php:182-194 | the i-th register_sidebar call carries the i-th area's name, id and description, plus the fixed before_widget, after_widget, before_title and after_title strings |
| HydrogenLoader.SidebarRoundTrip | includes/class-so-hydrogen-loader.php:180-195 | from the calls of `load_widget_areas`, a recording host gets back exactly the areas, in insertion order |
| HydrogenLoader.OmittedDescriptionReplaysAsNull | includes/class-so-hydrogen-loader.php:102-104 | an area added without a description reaches register_sidebar with a null description, not an empty string |
| HydrogenLoader.DefaultsScenario | includes/class-so-hydrogen-loader.php:76-104 | a filter with priority 5, an action and two areas with defaults, then both flushes: the host sees the filter, then the action with priority 10 and accepted_args 1, then both areas with the fixed template, the second with a null description |

## Left out

- The other files of the plugin are not part of this model. `includes/class-so-hydrogen-i18n.php` is a single call to WordPress `load_plugin_textdomain`. `includes/class-so-hydrogen-activator.php` and `includes/class-so-hydrogen-deactivator.php` are empty static stubs.
- WordPress's `add_filter`, `add_action` and `register_sidebar` are not implemented. The model does not sort by priority, dispatch hooks or render sidebars. Each flush returns the calls it makes as a sequence instead of performing them.
- Failures of the host primitives in the middle of a loop are not modelled. The loader neither catches nor handles them, so the model assumes every call returns.
- The `%1$s` and `%2$s` placeholders in `before_widget` are not interpreted. The string is forwarded verbatim.
- PHP is dynamically typed. The model gives hook names, callbacks, sidebar names and ids the type `string`, priority and accepted_args the type `int`, and the description the type `Option<string>`. The loader stores any PHP value it is given without checking it.
