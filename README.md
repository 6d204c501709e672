# nova-resource-hierarchy, modelled in Dafny

This project models the core of a Laravel Nova tool that shows one resource's
records as a tree and lets users drag them into a new order. It proves
properties of that model.

- **buildHierarchy** turns a flat source of records into a nested forest in
  one depth-first pass. Each record names its parent by id. Every record that
  a level matches is removed from the shared source before the call recurses
  into it. The model is an imperative method over a `Collection` class whose
  `live` key set is shared by all levels, and each level's loop iterates a
  snapshot of those keys. The method is proved equal to the specification
  functions `Build`/`Scan`, and the module `HierarchyFacts` proves what those
  functions guarantee.
- **parseHierarchy** goes back from a forest to one record per node. Each
  record carries the node's id, its parent's id (or a default at the top
  level) and its rank among its siblings. The module `Parse` states only what
  the repository's tests pin down: the records that come out, up to order.
  `RoundTrip` proves that flattening what `buildHierarchy` built gives back
  every record's id and parent.
- **ResourceHierarchy** is the tool object. The class
  `Tool.ResourceHierarchy` has the tool's fields and fluent setters. Each
  setter's new state is a pure transition on a `Settings` value. The getters
  (`GetKeyNames`, `GetPageTitle`, `GetMenuTitle`, `GetConfig`) are functions
  of that value.
- **UpdateHierarchyRequest** is the request that saves a reordered tree.
  `UpdateRequest` models its `authorize` checks and its two validation rules.

The PHP values involved:

- An id or parent is a `Scalar`, either an integer or a string.
- A `null` or unset column is an absent map key.
- The falsy scalars are `0`, `''` and `'0'`.
- The formatter's "not an array" answer is `None`.
- Nova's answers (the resource's label, URI key and model key name, the
  right-to-left flag, the tool's reorder permission and the parent request's
  authorisation) are parameters.

## Model

| member | source | states |
|---|---|---|
| Hierarchy.IdOf | src/Traits/HandlesHierarchy.php:24 | a record has an id exactly when the id field is present (set and not null), and the id is that field's value |
| Hierarchy.ParentOf | src/Traits/HandlesHierarchy.php:27-28 | the parent read from a record is null exactly when the field is missing or falsy (0, '', '0'); otherwise it is the field's value |
| Hierarchy.Build | src/Traits/HandlesHierarchy.php:15-51 | one call `buildHierarchy($source, ..., $parentId)`: it leaves in the shared source a subset of the keys it found; the HierarchyFacts lemmas state what it returns |
| Hierarchy.Scan | src/Traits/HandlesHierarchy.php:22-50 | one call's loop only ever removes keys from the shared source: what it leaves is a subset of what it found |
| Hierarchy.Collection.constructor | src/Traits/HandlesHierarchy.php:16 | a fresh source holds every entry, under the keys 0 .. n-1 |
| Hierarchy.BuildHierarchy | src/Traits/HandlesHierarchy.php:15-51 | the returned arrays are the rendering of `Build` on the keys present at the call; afterwards the shared source holds exactly the keys that `Build` leaves |
| HierarchyFacts.SiblingsSpec | src/Traits/HandlesHierarchy.php:23-38 | the reference level lists the keys from k on that are still in the source, have an id, name the level's parent and are kept by the formatter, in increasing key order |
| HierarchyFacts.LevelExact | src/Traits/HandlesHierarchy.php:23-47 | for any parent id, a call returns as its top level exactly the reference siblings, in source order, and consumes every child with an id, kept or not |
| HierarchyFacts.FalsyParentsAreRoots | src/Traits/HandlesHierarchy.php:26-31 | at the top level, a record with an id whose parent is missing, 0, '' or '0' is consumed, and is a root exactly when the formatter keeps it |
| HierarchyFacts.MissingIdNeverAppears | src/Traits/HandlesHierarchy.php:24 | a record without an id is never removed from the source and never appears in the result |
| HierarchyFacts.BuildAttached | src/Traits/HandlesHierarchy.php:24-46 | at every depth, each node's record has an id, names that level's parent, is kept by the formatter, and is the formatter's array without its 'children' key; the node's children were built with the node's own id |
| HierarchyFacts.SiblingsInSourceOrder | src/Traits/HandlesHierarchy.php:23-47 | at every level, siblings appear in the order of their source keys |
| HierarchyFacts.EmittedAreConsumed | src/Traits/HandlesHierarchy.php:34-38 | every consumed record has an id; a record appears in the forest exactly when it was consumed and the formatter kept it; no node occurs inside its own subtree |
| HierarchyFacts.NoDuplicates | src/Traits/HandlesHierarchy.php:34-46 | with unique ids, no record appears twice anywhere in the forest |
| HierarchyFacts.ParentIsReturned | src/Traits/HandlesHierarchy.php:31-46 | a record that appears below the top level has its parent's record in the forest too |
| HierarchyFacts.RejectedDropsSubtree | src/Traits/HandlesHierarchy.php:37-38 | with unique ids, when the formatter rejects a record, none of its descendants appears in the result |
| HierarchyFacts.ConsumedByDepth | src/Traits/HandlesHierarchy.php:34-46 | on a source with unique ids where every record has an id, every parent exists, parents sit at smaller depth and every record is kept, each record is consumed by the top-level call |
| HierarchyFacts.WellFormedSourceNestsCompletely | src/Traits/HandlesHierarchy.php:15-51 | on a source with unique ids where every record has an id, every parent exists and sits at smaller depth, and every record is kept, the top-level call empties the source and returns every record exactly once |
| Parse.Flatten | tests/Unit/Traits/HandlesHierarchyTest.php:34-53 | the reference flattening standing for parseHierarchy: one (id, parent, rank) record per node; its lemmas below state what the tests pin down, up to order |
| Parse.OneRecordPerNode | tests/Unit/Traits/HandlesHierarchyTest.php:34-53 | flattening yields exactly one record per node of the forest |
| Parse.LevelRecords | tests/Unit/Traits/HandlesHierarchyTest.php:34-53 | the i-th node of a level yields a record with its id, the level's parent value and rank i, and its subtree's records are flattened with its own id as parent |
| Parse.RecordsComeFromNodes | tests/Unit/Traits/HandlesHierarchyTest.php:34-53 | every record's parent is the top-level default or the id of another record |
| Parse.ThreeLevelsFlattened | tests/Unit/Traits/HandlesHierarchyTest.php:317-391 | the three-level test forest flattens to the test's eleven records, ranks and parents, as a multiset |
| Parse.AlternateKeysFlattened | tests/Unit/Traits/HandlesHierarchyTest.php:483-550 | the same forest keyed by 'key', with no parent field and 0 as the default parent, flattens to the test's records |
| RoundTrip.FlattenedLinks | src/Traits/HandlesHierarchy.php:37-47 | when the formatter keeps the id, flattening a built forest yields, as a multiset, exactly the (id, normalised parent) links of the records in the forest, one per node |
| RoundTrip.BuildThenParse | src/Traits/HandlesHierarchy.php:15-51 | on a source with unique ids where every record has an id, every parent exists and sits at smaller depth, every record is kept and the formatter keeps the id field, building and then flattening yields one record per source record, and its (id, parent) links are exactly the source's links |
| Tool.Defaults | src/ResourceHierarchy.php:38-87 | the settings of a new tool: no key mappings, menu shown, icon 'square-3-stack-3d', no titles or description, depth 10, reordering off, the four actions (see DefaultsSettled and FreshConfig) |
| Tool.LowerSpec | src/ResourceHierarchy.php:292-295 | lower-casing turns each ASCII upper-case letter into its own lower-case letter, keeps every other character, leaves no upper-case letter, and leaves a string unchanged exactly when it has no upper-case letter |
| Tool.LowerAll | src/ResourceHierarchy.php:292-295 | the actions keep their number and order, each one lower-cased |
| Tool.GetKeyNames | src/ResourceHierarchy.php:172-179 | a set id or parent mapping is used as is; an unset id mapping falls back to the model's key name, an unset parent mapping to 'parent_id'; the order key is the mapping as set (possibly null) |
| Tool.GetConfig | src/ResourceHierarchy.php:145-161 | each of the four action flags is on exactly when its action name is in the tool's actions |
| Tool.DefaultsSettled | src/ResourceHierarchy.php:38-87 | a new tool's depth is not negative and its actions are lower case |
| Tool.SettersKeepSettled | src/ResourceHierarchy.php:196-298 | keyNames, maxDepth, enableReordering and actions each keep the depth non-negative and the actions lower case |
| Tool.FreshConfig | src/ResourceHierarchy.php:38-161 | a new tool has all four actions on, depth 10 and reordering off; its key names fall back to the model's key, 'parent_id' and null; its page title is the singular label followed by ' Hierarchy' |
| Tool.KeyNamesReplaceAll | src/ResourceHierarchy.php:196-208 | after keyNames, the reported key names are exactly its three arguments, whatever was set before, a null order key included |
| Tool.MaxDepthClamped | src/ResourceHierarchy.php:263-268 | the stored depth is the argument when it is positive and 0 otherwise, so it is never negative |
| Tool.ReorderingOrderKey | src/ResourceHierarchy.php:273-283 | enableReordering stores the flag; it sets the order key to 'rank' only when none was set and keeps a set one (even ''); the id and parent names are unchanged |
| Tool.ReorderingIdempotent | src/ResourceHierarchy.php:273-283 | calling enableReordering twice with the same flag is the same as calling it once |
| Tool.ActionFlags | src/ResourceHierarchy.php:290-298 | after actions(list), an action flag is on exactly when some listed name lower-cases to that action |
| Tool.UpperCaseActions | src/ResourceHierarchy.php:290-298 | actions(['CREATE', 'View']) switches on the create and view flags and leaves update and delete off |
| Tool.GetPageTitle | src/ResourceHierarchy.php:134-140 | the custom page title, else the singular label followed by ' Hierarchy' (stated by MenuTitleOrder) |
| Tool.GetMenuTitle | src/ResourceHierarchy.php:123-129 | the custom menu title, else the page title (stated by MenuTitleOrder) |
| Tool.MenuTitleOrder | src/ResourceHierarchy.php:123-140 | the menu title is the custom menu title, else the custom page title, else the singular label followed by ' Hierarchy'; the configuration's page title is the page title, whatever the right-to-left setting |
| Tool.SettledConfig | src/ResourceHierarchy.php:145-161 | for settings every setter keeps, the configuration's depth is never negative and every stored action is already lower case |
| Tool.ResourceHierarchy.constructor | src/ResourceHierarchy.php:89-98 | a new tool manages the given resource, has no item-title formatter and holds the default settings |
| Tool.ResourceHierarchy.FormatItemTitle | src/ResourceHierarchy.php:186-191 | stores the formatter, changes no setting and returns the same tool |
| Tool.ResourceHierarchy.KeyNames | src/ResourceHierarchy.php:196-208 | replaces all three key mappings (defaults 'id', 'parent_id', null), so the reported key names are the arguments; nothing else changes |
| Tool.ResourceHierarchy.HideMenu | src/ResourceHierarchy.php:213-218 | stores the flag (default true) and nothing else |
| Tool.ResourceHierarchy.MenuTitle | src/ResourceHierarchy.php:223-228 | stores the menu title, which then becomes the menu title reported; nothing else changes |
| Tool.ResourceHierarchy.MenuIcon | src/ResourceHierarchy.php:233-238 | stores the icon and nothing else |
| Tool.ResourceHierarchy.PageTitle | src/ResourceHierarchy.php:243-248 | stores the page title, which becomes the page title, and also the menu title when none was set; nothing else changes |
| Tool.ResourceHierarchy.PageDescription | src/ResourceHierarchy.php:253-258 | stores the description and nothing else |
| Tool.ResourceHierarchy.MaxDepth | src/ResourceHierarchy.php:263-268 | stores the depth clamped at 0 and nothing else, keeping the tool's invariant |
| Tool.ResourceHierarchy.EnableReordering | src/ResourceHierarchy.php:273-283 | stores the flag (default true) and defaults an unset order key to 'rank'; nothing else changes |
| Tool.ResourceHierarchy.Actions | src/ResourceHierarchy.php:290-298 | stores the actions lower-cased, in the same number and order; nothing else changes |
| UpdateRequest.HasOrderKey | src/Http/Requests/UpdateHierarchyRequest.php:16 | the order key is set and truthy: neither null nor '' nor '0' (used by Authorize and its lemmas) |
| UpdateRequest.Authorize | src/Http/Requests/UpdateHierarchyRequest.php:10-28 | authorised only when the order key is set and truthy, reordering is enabled and the tool grants the reorder permission; when all three hold, the answer is the parent request's authorisation |
| UpdateRequest.FreshToolRefuses | src/Http/Requests/UpdateHierarchyRequest.php:15-18 | a tool left at its defaults never authorises an update |
| UpdateRequest.EnabledReorderingDefers | src/Http/Requests/UpdateHierarchyRequest.php:15-27 | after enableReordering(), with the order key unset or truthy, the answer is exactly the tool's permission and the parent's authorisation together |
| UpdateRequest.DisabledReorderingRefuses | src/Http/Requests/UpdateHierarchyRequest.php:20-22 | with reordering switched off, no update is authorised, whatever the order key |
| UpdateRequest.FalsyOrderKeyRefuses | src/Http/Requests/UpdateHierarchyRequest.php:15-18 | an order key set to '' or '0' survives enableReordering() but fails the authorisation |
| UpdateRequest.Rules | src/Http/Requests/UpdateHierarchyRequest.php:35-40 | the one field 'hierarchy' with the rules 'required' and 'array' (see AcceptsExactlyHierarchyArrays) |
| UpdateRequest.Passes | src/Http/Requests/UpdateHierarchyRequest.php:38 | 'required' passes only a present, non-null value; 'array' passes a present value exactly when it is an array |
| UpdateRequest.AcceptsExactlyHierarchyArrays | src/Http/Requests/UpdateHierarchyRequest.php:35-40 | a payload passes the rules exactly when it has a 'hierarchy' field holding a non-empty array |

## Left out

- Plain PHP arrays as the source of buildHierarchy: a plain array is copied when it is passed, so removals made in a nested call do not reach the caller. Only the shared-object semantics of a collection, which the repository passes in, is modelled. With unique ids and a well-formed source the two give the same forest.
- PHP loose equality (`!=`) between a record's parent and the level's parent id is modelled as plain equality of integer-or-string scalars. Under loose comparison `2 == '2'` holds, and `0 == null` and `'' == null` hold. So a record whose id is 0 or '' (both pass `isset`) makes its nested call match the top-level records still in the source, and adopts them as its children. Those adopted records are still in the top-level loop's snapshot, where they match `null` again, so PHP emits them a second time at the top level. The model has none of these coercions, so it neither adopts nor re-emits them.
- The key order of the formatter's array is not modelled: an item is a map, so overwriting 'children' is removing it and setting the built list beside it.
- The body of parseHierarchy is not part of this model; only its tests are. `Parse.Flatten` is a reference flattening in pre-order, an order this model chooses. The members that stand for parseHierarchy's promises state their results up to order (multisets or membership); the helper lemmas that fix the order (`RoundTrip.FlattenRendered`, `Parse.ThreeLevelsInOrder`) are steps of their proofs, and the five-level test's expected list is not in pre-order. What it does with a node without an id, with a callback that returns a falsy value, and the order of its output are not modelled. The callback's output shape is abstracted to the (id, parent, rank) triple it is handed.
- The expected records of the three-level parse test give the top-level parent as 0 while the default parent value is null. The test's loose comparison makes the two equal, and `Parse.ThreeLevelsFlattened` states null.
- The five-level parse test case is covered by the general `Parse` lemmas, not by a lemma of its own.
- The tests call buildHierarchy with an extra third argument, for a sorting hook the source shown does not have; that hook is not modelled.
- The `(string)` cast in actions: the model's actions are already strings.
- Only ASCII letters are lower-cased, as `strtolower` does; no other case mapping is modelled.
- The HTTP controllers, the service provider, the routes, the request's tool lookup (`tool()`), the menu entry (`menu`), `boot`, and the constructor's check that the class is a Nova resource are glue around the core and are not modelled.
- The tool's reorder permission (`authorizedToReorderHierarchy`) and the parent request's `authorize()` are outside this model; they are parameters of `UpdateRequest.Authorize`.
- Nova's right-to-left setting is a parameter of `Tool.GetConfig`; the resource's label, URI key and model key name are opaque values.
- Laravel's validator is modelled only for the two rules this request uses, and only as far as they look at the one field.
