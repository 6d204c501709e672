/** ResourceHierarchy: the Nova tool that manages one resource's hierarchy. Its
    fluent setters store settings on the tool; its getters derive the key names,
    the page and menu titles and the configuration handed to the front end. */
module Tool {
  import opened Values

  /** The answers the tool reads from the Nova resource it manages; Nova itself
      is outside this model, so these are opaque values. */
  datatype Resource = Resource(singularLabel: string, uriKey: string, modelKeyName: string)

  /** The custom item key to column name mappings; `None` is an unset (null) mapping. */
  datatype KeyMappings = KeyMappings(idKey: Option<string>, parentKey: Option<string>, orderKey: Option<string>)

  /** The key names the tool reports: id and parent always resolve, the order key may be null. */
  datatype KeyNames = KeyNames(idKey: string, parentKey: string, orderKey: Option<string>)

  /** Every setting the fluent setters write, except the item title formatter. */
  datatype Settings = Settings(
    customKeyMappings: KeyMappings,
    hideMenu: bool,
    menuTitle: Option<string>,
    menuIcon: string,
    pageTitle: Option<string>,
    pageDescription: Option<string>,
    maxDepth: int,
    enableReordering: bool,
    actions: seq<string>)

  /** The configuration array: the key names merged with the page settings. */
  datatype Config = Config(
    idKey: string,
    parentKey: string,
    orderKey: Option<string>,
    pageTitle: string,
    pageDescription: Option<string>,
    resourceUriKey: string,
    maxDepth: int,
    enableRtl: bool,
    enableReordering: bool,
    enableCreateAction: bool,
    enableViewAction: bool,
    enableUpdateAction: bool,
    enableDeleteAction: bool)

  const DefaultActions: seq<string> := ["create", "view", "update", "delete"]

  /** The settings of a newly made tool. */
  function Defaults(): Settings {
    Settings(KeyMappings(None, None, None), false, None, "square-3-stack-3d",
      None, None, 10, false, DefaultActions)
  }

  // ---------------------------------------------------------------------------
  // ASCII lower-casing, as `strtolower` does

  function LowerChar(c: char): char {
    if 'A' <= c <= 'Z' then (c as int + 32) as char else c
  }

  predicate IsLower(s: string) {
    forall i :: 0 <= i < |s| ==> !('A' <= s[i] <= 'Z')
  }

  function Lower(s: string): (t: string)
    ensures |t| == |s|
  {
    seq(|s|, i requires 0 <= i < |s| => LowerChar(s[i]))
  }

  /** Lower-casing turns each upper-case letter into its own lower-case letter,
      changes nothing else, and leaves an already lower-case string as it is. */
  lemma LowerSpec(s: string)
    ensures forall i :: 0 <= i < |s| && 'A' <= s[i] <= 'Z' ==>
      Lower(s)[i] as int == s[i] as int + ('a' as int - 'A' as int)
    ensures IsLower(Lower(s))
    ensures forall i :: 0 <= i < |s| && !('A' <= s[i] <= 'Z') ==> Lower(s)[i] == s[i]
    ensures Lower(s) == s <==> IsLower(s)
  {
    if Lower(s) == s {
      forall i | 0 <= i < |s| ensures !('A' <= s[i] <= 'Z') {
        assert Lower(s)[i] == s[i];
      }
    }
  }

  /** Each action lower-cased, same length and order. */
  function LowerAll(actions: seq<string>): (r: seq<string>)
    ensures |r| == |actions|
    ensures forall i :: 0 <= i < |actions| ==> r[i] == Lower(actions[i])
  {
    seq(|actions|, i requires 0 <= i < |actions| => Lower(actions[i]))
  }

  // ---------------------------------------------------------------------------
  // The setters, on the settings value

  /** Every mapping is replaced, including a null order key. */
  function WithKeyNames(s: Settings, idKey: string, parentKey: string, orderKey: Option<string>): Settings {
    s.(customKeyMappings := KeyMappings(Some(idKey), Some(parentKey), orderKey))
  }

  function WithMaxDepth(s: Settings, maxDepth: int): Settings {
    s.(maxDepth := (if maxDepth > 0 then maxDepth else 0))
  }

  /** The flag is stored, and an unset order key becomes 'rank' whichever way the flag goes. */
  function WithReordering(s: Settings, enable: bool): Settings {
    var m := s.customKeyMappings;
    s.(enableReordering := enable,
       customKeyMappings := (if m.orderKey.None? then m.(orderKey := Some("rank")) else m))
  }

  function WithActions(s: Settings, actions: seq<string>): Settings {
    s.(actions := LowerAll(actions))
  }

  /** What every setter keeps true: a depth that is not negative and lower-case actions. */
  ghost predicate Settled(s: Settings) {
    s.maxDepth >= 0 && forall i :: 0 <= i < |s.actions| ==> IsLower(s.actions[i])
  }

  // ---------------------------------------------------------------------------
  // The getters, on the settings value

  function GetKeyNames(s: Settings, r: Resource): (k: KeyNames)
    ensures s.customKeyMappings.idKey.Some? ==> k.idKey == s.customKeyMappings.idKey.value
    ensures s.customKeyMappings.idKey.None? ==> k.idKey == r.modelKeyName
    ensures s.customKeyMappings.parentKey.Some? ==> k.parentKey == s.customKeyMappings.parentKey.value
    ensures s.customKeyMappings.parentKey.None? ==> k.parentKey == "parent_id"
    ensures k.orderKey == s.customKeyMappings.orderKey
  {
    KeyNames(
      s.customKeyMappings.idKey.GetOr(r.modelKeyName),
      s.customKeyMappings.parentKey.GetOr("parent_id"),
      s.customKeyMappings.orderKey)
  }

  function GetPageTitle(s: Settings, r: Resource): string {
    match s.pageTitle
    case Some(t) => t
    case None => r.singularLabel + " Hierarchy"
  }

  function GetMenuTitle(s: Settings, r: Resource): string {
    match s.menuTitle
    case Some(t) => t
    case None => GetPageTitle(s, r)
  }

  /** The configuration; `rtl` is Nova's right-to-left setting. */
  function GetConfig(s: Settings, r: Resource, rtl: bool): (c: Config)
    ensures c.enableCreateAction <==> "create" in s.actions
    ensures c.enableViewAction <==> "view" in s.actions
    ensures c.enableUpdateAction <==> "update" in s.actions
    ensures c.enableDeleteAction <==> "delete" in s.actions
  {
    var k := GetKeyNames(s, r);
    Config(k.idKey, k.parentKey, k.orderKey, GetPageTitle(s, r), s.pageDescription, r.uriKey,
      s.maxDepth, rtl, s.enableReordering,
      "create" in s.actions, "view" in s.actions, "update" in s.actions, "delete" in s.actions)
  }

  // ---------------------------------------------------------------------------
  // Properties of the setters and getters

  lemma DefaultsSettled()
    ensures Settled(Defaults())
  {
    assert IsLower("create") && IsLower("view") && IsLower("update") && IsLower("delete");
  }

  /** Every setter keeps the settings settled. */
  lemma SettersKeepSettled(s: Settings, maxDepth: int, enable: bool, actions: seq<string>,
                           idKey: string, parentKey: string, orderKey: Option<string>)
    requires Settled(s)
    ensures Settled(WithMaxDepth(s, maxDepth))
    ensures Settled(WithReordering(s, enable))
    ensures Settled(WithActions(s, actions))
    ensures Settled(WithKeyNames(s, idKey, parentKey, orderKey))
  {
    forall i | 0 <= i < |actions| ensures IsLower(LowerAll(actions)[i]) {
      LowerSpec(actions[i]);
    }
  }

  /** A new tool: all four actions on, depth 10, reordering off, and key names
      that fall back to the model's key, 'parent_id' and no order key. */
  lemma FreshConfig(r: Resource, rtl: bool)
    ensures var c := GetConfig(Defaults(), r, rtl);
      && c.enableCreateAction && c.enableViewAction && c.enableUpdateAction && c.enableDeleteAction
      && c.maxDepth == 10 && !c.enableReordering
      && c.idKey == r.modelKeyName && c.parentKey == "parent_id" && c.orderKey.None?
      && c.pageTitle == r.singularLabel + " Hierarchy"
  {
  }

  /** keyNames replaces all three mappings: afterwards the key names are exactly
      its arguments, whatever was set before and whatever the model's key is. */
  lemma KeyNamesReplaceAll(s: Settings, r: Resource, idKey: string, parentKey: string, orderKey: Option<string>)
    ensures GetKeyNames(WithKeyNames(s, idKey, parentKey, orderKey), r) == KeyNames(idKey, parentKey, orderKey)
  {
  }

  /** The maximum depth is never negative: a positive argument is kept, any other becomes 0. */
  lemma MaxDepthClamped(s: Settings, maxDepth: int)
    ensures WithMaxDepth(s, maxDepth).maxDepth >= 0
    ensures maxDepth > 0 ==> WithMaxDepth(s, maxDepth).maxDepth == maxDepth
    ensures maxDepth <= 0 ==> WithMaxDepth(s, maxDepth).maxDepth == 0
  {
  }

  /** enableReordering sets the flag and defaults the order key to 'rank' only
      when none was set; a set order key, even an empty one, is kept. */
  lemma ReorderingOrderKey(s: Settings, r: Resource, enable: bool)
    ensures var k := GetKeyNames(WithReordering(s, enable), r);
      && WithReordering(s, enable).enableReordering == enable
      && (s.customKeyMappings.orderKey.None? ==> k.orderKey == Some("rank"))
      && (s.customKeyMappings.orderKey.Some? ==> k.orderKey == s.customKeyMappings.orderKey)
      && k.idKey == GetKeyNames(s, r).idKey && k.parentKey == GetKeyNames(s, r).parentKey
  {
  }

  /** Enabling reordering twice is the same as enabling it once. */
  lemma ReorderingIdempotent(s: Settings, enable: bool)
    ensures WithReordering(WithReordering(s, enable), enable) == WithReordering(s, enable)
  {
  }

  /** After actions(list), an action flag is on exactly when some listed name
      lower-cases to it. */
  lemma ActionFlags(s: Settings, r: Resource, rtl: bool, actions: seq<string>)
    ensures var c := GetConfig(WithActions(s, actions), r, rtl);
      && (c.enableCreateAction <==> exists i :: 0 <= i < |actions| && Lower(actions[i]) == "create")
      && (c.enableViewAction <==> exists i :: 0 <= i < |actions| && Lower(actions[i]) == "view")
      && (c.enableUpdateAction <==> exists i :: 0 <= i < |actions| && Lower(actions[i]) == "update")
      && (c.enableDeleteAction <==> exists i :: 0 <= i < |actions| && Lower(actions[i]) == "delete")
  {
    var lowered := LowerAll(actions);
    forall name | name in ["create", "view", "update", "delete"]
      ensures name in lowered <==> exists i :: 0 <= i < |actions| && Lower(actions[i]) == name
    {
      if name in lowered {
        var i :| 0 <= i < |lowered| && lowered[i] == name;
        assert Lower(actions[i]) == name;
      }
    }
  }

  /** Case does not matter: actions(['CREATE', 'View']) switches on create and
      view, and leaves update and delete off. */
  lemma UpperCaseActions(s: Settings, r: Resource, rtl: bool)
    ensures var c := GetConfig(WithActions(s, ["CREATE", "View"]), r, rtl);
      c.enableCreateAction && c.enableViewAction && !c.enableUpdateAction && !c.enableDeleteAction
  {
    LowerSpec("CREATE");
    LowerSpec("View");
    assert Lower("CREATE") == "create";
    assert Lower("View") == "view";
    assert LowerAll(["CREATE", "View"]) == ["create", "view"];
  }

  /** The menu title is the custom menu title, else the custom page title, else
      the resource's singular label followed by ' Hierarchy'. */
  lemma MenuTitleOrder(s: Settings, r: Resource, rtl: bool)
    ensures s.menuTitle.Some? ==> GetMenuTitle(s, r) == s.menuTitle.value
    ensures s.menuTitle.None? && s.pageTitle.Some? ==> GetMenuTitle(s, r) == s.pageTitle.value
    ensures s.menuTitle.None? && s.pageTitle.None? ==> GetMenuTitle(s, r) == r.singularLabel + " Hierarchy"
    ensures GetConfig(s, r, rtl).pageTitle == GetPageTitle(s, r)
  {
  }

  /** What a caller gets from settled settings: the configuration never reports
      a negative depth, and an action flag is on exactly when its lower-case
      name is among the actions. */
  lemma SettledConfig(s: Settings, r: Resource, rtl: bool)
    requires Settled(s)
    ensures GetConfig(s, r, rtl).maxDepth >= 0
    ensures forall i :: 0 <= i < |s.actions| ==> Lower(s.actions[i]) == s.actions[i]
  {
    forall i | 0 <= i < |s.actions| ensures Lower(s.actions[i]) == s.actions[i] {
      LowerSpec(s.actions[i]);
    }
  }

  // ---------------------------------------------------------------------------
  // The tool object

  class ResourceHierarchy {
    /** The managed resource, fixed when the tool is made. */
    const resource: Resource
    var formatItemTitle: Option<Record -> string>
    var customKeyMappings: KeyMappings
    var hideMenu: bool
    var menuTitle: Option<string>
    var menuIcon: string
    var pageTitle: Option<string>
    var pageDescription: Option<string>
    var maxDepth: int
    var enableReordering: bool
    var actions: seq<string>

    /** The tool's settings as one value. */
    ghost function State(): Settings
      reads this
    {
      Settings(customKeyMappings, hideMenu, menuTitle, menuIcon, pageTitle, pageDescription,
        maxDepth, enableReordering, actions)
    }

    /** The invariant the constructor sets up and every setter keeps; see
        SettledConfig for what it gives a reader of the configuration. */
    ghost predicate Valid()
      reads this
    {
      Settled(State())
    }

    constructor (resource: Resource)
      ensures this.resource == resource && formatItemTitle.None?
      ensures State() == Defaults() && Valid()
    {
      this.resource := resource;
      formatItemTitle := None;
      customKeyMappings := KeyMappings(None, None, None);
      hideMenu := false;
      menuTitle := None;
      menuIcon := "square-3-stack-3d";
      pageTitle := None;
      pageDescription := None;
      maxDepth := 10;
      enableReordering := false;
      actions := DefaultActions;
      new;
      DefaultsSettled();
    }

    method FormatItemTitle(f: Record -> string) returns (self: ResourceHierarchy)
      modifies this
      ensures self == this && formatItemTitle == Some(f) && State() == old(State())
    {
      formatItemTitle := Some(f);
      self := this;
    }

    method KeyNames(idKey: string := "id", parentKey: string := "parent_id", orderKey: Option<string> := None)
      returns (self: ResourceHierarchy)
      requires Valid()
      modifies this
      ensures self == this && Valid() && formatItemTitle == old(formatItemTitle)
      ensures State() == WithKeyNames(old(State()), idKey, parentKey, orderKey)
      ensures var k := GetKeyNames(State(), resource);
        k.idKey == idKey && k.parentKey == parentKey && k.orderKey == orderKey
    {
      customKeyMappings := KeyMappings(Some(idKey), Some(parentKey), orderKey);
      self := this;
      SettersKeepSettled(old(State()), 0, false, [], idKey, parentKey, orderKey);
    }

    method HideMenu(hidden: bool := true) returns (self: ResourceHierarchy)
      modifies this
      ensures self == this && formatItemTitle == old(formatItemTitle)
      ensures State() == old(State()).(hideMenu := hidden)
    {
      hideMenu := hidden;
      self := this;
    }

    method MenuTitle(title: string) returns (self: ResourceHierarchy)
      modifies this
      ensures self == this && formatItemTitle == old(formatItemTitle)
      ensures State() == old(State()).(menuTitle := Some(title))
      ensures GetMenuTitle(State(), resource) == title
    {
      menuTitle := Some(title);
      self := this;
    }

    method MenuIcon(icon: string) returns (self: ResourceHierarchy)
      modifies this
      ensures self == this && formatItemTitle == old(formatItemTitle)
      ensures State() == old(State()).(menuIcon := icon)
    {
      menuIcon := icon;
      self := this;
    }

    method PageTitle(title: string) returns (self: ResourceHierarchy)
      modifies this
      ensures self == this && formatItemTitle == old(formatItemTitle)
      ensures State() == old(State()).(pageTitle := Some(title))
      ensures GetPageTitle(State(), resource) == title
      ensures old(menuTitle).None? ==> GetMenuTitle(State(), resource) == title
    {
      pageTitle := Some(title);
      self := this;
    }

    method PageDescription(description: string) returns (self: ResourceHierarchy)
      modifies this
      ensures self == this && formatItemTitle == old(formatItemTitle)
      ensures State() == old(State()).(pageDescription := Some(description))
    {
      pageDescription := Some(description);
      self := this;
    }

    method MaxDepth(depth: int) returns (self: ResourceHierarchy)
      requires Valid()
      modifies this
      ensures self == this && Valid() && formatItemTitle == old(formatItemTitle)
      ensures State() == WithMaxDepth(old(State()), depth)
    {
      maxDepth := if depth > 0 then depth else 0;
      self := this;
      SettersKeepSettled(old(State()), depth, false, [], "", "", None);
    }

    method EnableReordering(enable: bool := true) returns (self: ResourceHierarchy)
      requires Valid()
      modifies this
      ensures self == this && Valid() && formatItemTitle == old(formatItemTitle)
      ensures State() == WithReordering(old(State()), enable)
    {
      enableReordering := enable;
      if customKeyMappings.orderKey.None? {
        customKeyMappings := customKeyMappings.(orderKey := Some("rank"));
      }
      self := this;
      SettersKeepSettled(old(State()), 0, enable, [], "", "", None);
    }

    method Actions(names: seq<string>) returns (self: ResourceHierarchy)
      requires Valid()
      modifies this
      ensures self == this && Valid() && formatItemTitle == old(formatItemTitle)
      ensures State() == WithActions(old(State()), names)
    {
      actions := LowerAll(names);
      self := this;
      SettersKeepSettled(old(State()), 0, false, names, "", "", None);
    }
  }
}
