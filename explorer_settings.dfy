/** The settings of the file explorer: an enumeration whose every constant
    carries a unique identifier (the preference key) and a default value. */
module ExplorerSettings {
  import opened Wrappers

  /** The constants of `NavigationLayoutMode` and `NavigationSortMode` that
      the settings table uses as defaults. */
  datatype NavigationLayoutMode = Details
  datatype NavigationSortMode = NameAsc

  /** The default value of a setting (a Java `Object`). */
  datatype DefaultValue =
    | BoolValue(b: bool)
    | StringValue(s: string)
    | LayoutModeValue(layout: NavigationLayoutMode)
    | SortModeValue(sort: NavigationSortMode)

  /** The enumeration constants, in declaration order. */
  datatype Setting =
    | SuperuserMode
    | InitialDir
    | LayoutMode
    | SortMode
    | ShowDirsFirst
    | ShowHidden
    | ShowSystem
    | ShowSymlinks

  /** `values()`: every constant, in declaration order. */
  const Values: seq<Setting> :=
    [SuperuserMode, InitialDir, LayoutMode, SortMode, ShowDirsFirst, ShowHidden, ShowSystem, ShowSymlinks]

  /** `ordinal()`: the position of a constant in `values()`. */
  function Ordinal(s: Setting): (i: nat)
    ensures i < |Values| && Values[i] == s
  {
    match s
    case SuperuserMode => 0
    case InitialDir => 1
    case LayoutMode => 2
    case SortMode => 3
    case ShowDirsFirst => 4
    case ShowHidden => 5
    case ShowSystem => 6
    case ShowSymlinks => 7
  }

  /** Whether a setting is one of the boolean switches. */
  predicate IsSwitch(s: Setting)
  {
    s in {SuperuserMode, ShowDirsFirst, ShowHidden, ShowSystem, ShowSymlinks}
  }

  /** The pair each constant passes to the enum constructor: its identifier,
      a preference key in the "cm_explorer_" namespace, and its default, a
      boolean exactly for the switches. */
  function Definition(s: Setting): (d: (string, DefaultValue))
    ensures |d.0| > 12 && d.0[..12] == "cm_explorer_"
    ensures d.1.BoolValue? <==> IsSwitch(s)
  {
    match s
    case SuperuserMode => ("cm_explorer_superuser_mode", BoolValue(false))
    case InitialDir => ("cm_explorer_initial_dir", StringValue("/sdcard"))
    case LayoutMode => ("cm_explorer_layout_mode", LayoutModeValue(Details))
    case SortMode => ("cm_explorer_sort_mode", SortModeValue(NameAsc))
    case ShowDirsFirst => ("cm_explorer_show_dirs_first", BoolValue(true))
    case ShowHidden => ("cm_explorer_show_hidden", BoolValue(false))
    case ShowSystem => ("cm_explorer_show_system", BoolValue(false))
    case ShowSymlinks => ("cm_explorer_show_symlinks", BoolValue(true))
  }

  /** `getId`: the identifier the constant was constructed with. Identifiers
      are unique, so the identifier determines the setting. */
  function GetId(s: Setting): (id: string)
    ensures forall t: Setting :: Definition(t).0 == id ==> t == s
  {
    Definition(s).0
  }

  /** `getDefaultValue`: the default value the constant was constructed with;
      `Defaults` lists them. The initial directory defaults to a string and the
      layout and sort modes to their enumeration constants. */
  function GetDefaultValue(s: Setting): (v: DefaultValue)
    ensures v.BoolValue? <==> IsSwitch(s)
    ensures v.StringValue? <==> s == InitialDir
    ensures v.LayoutModeValue? <==> s == LayoutMode
    ensures v.SortModeValue? <==> s == SortMode
  {
    Definition(s).1
  }

  /** The defaults documented by the table. */
  lemma Defaults()
    ensures GetDefaultValue(SuperuserMode) == BoolValue(false)
    ensures GetDefaultValue(InitialDir) == StringValue("/sdcard")
    ensures GetDefaultValue(LayoutMode) == LayoutModeValue(Details)
    ensures GetDefaultValue(SortMode) == SortModeValue(NameAsc)
    ensures GetDefaultValue(ShowDirsFirst) == BoolValue(true) && GetDefaultValue(ShowSymlinks) == BoolValue(true)
    ensures GetDefaultValue(ShowHidden) == BoolValue(false) && GetDefaultValue(ShowSystem) == BoolValue(false)
  {
  }

  /** `values()` lists each of the eight constants exactly once. */
  lemma ValuesEnumerateSettings()
    ensures |Values| == 8
    ensures forall s: Setting :: s in Values
    ensures forall i, j :: 0 <= i < j < |Values| ==> Values[i] != Values[j]
  {
    forall s: Setting ensures s in Values {
      assert Values[Ordinal(s)] == s;
    }
  }

  /** The specification of `fromId`: the first setting of `settings`, in order,
      whose identifier is `id`, or `None`. */
  function FirstWithId(settings: seq<Setting>, id: string): (r: Option<Setting>)
    ensures r.Some? ==> r.value in settings && GetId(r.value) == id
    ensures r.None? <==> forall k :: 0 <= k < |settings| ==> GetId(settings[k]) != id
  {
    if settings == [] then None
    else if GetId(settings[0]) == id then Some(settings[0])
    else FirstWithId(settings[1..], id)
  }

  /** `fromId`: a scan of `values()` in declaration order that returns the
      first constant whose identifier is `id`, and null (`None`) when there is
      none. The Java code compares identifiers by reference; this model
      compares them by value. */
  method FromId(id: string) returns (r: Option<Setting>)
    ensures r == FirstWithId(Values, id)
    ensures r.Some? ==> GetId(r.value) == id
    ensures r.None? <==> forall s: Setting :: GetId(s) != id
  {
    var values := Values;
    for i := 0 to |values|
      invariant forall k :: 0 <= k < i ==> GetId(values[k]) != id
      invariant FirstWithId(values, id) == FirstWithId(values[i..], id)
    {
      if GetId(values[i]) == id {
        return Some(values[i]);
      }
      assert values[i..][1..] == values[i + 1..];
    }
    return None;
  }

  /** Round trip: looking a setting up by its own identifier gives it back. */
  lemma FromIdOfGetId(s: Setting)
    ensures FirstWithId(Values, GetId(s)) == Some(s)
  {
  }
}
