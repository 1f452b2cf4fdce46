/** The plugin's settings (ObsidianInfluxSettings), their defaults, the merge
    of stored settings over the defaults at load time, and the sort-order toggle. */
module Settings {

  import opened Vault

  datatype SortingPrinciple = NewestFirst | OldestFirst
  datatype SortingAttribute = CTime | MTime
  datatype Behaviour = OptOut | OptIn
  datatype Variant = CenterAligned | Rows

  datatype Settings = Settings(
    liveUpdate: bool,
    sortingPrinciple: SortingPrinciple,
    sortingAttribute: SortingAttribute,
    showBehaviour: Behaviour,
    exclusionPattern: seq<string>,
    inclusionPattern: seq<string>,
    collapsedPattern: seq<string>,
    sourceBehaviour: Behaviour,
    sourceInclusionPattern: seq<string>,
    sourceExclusionPattern: seq<string>,
    listLimit: int,
    variant: Variant,
    fontSize: int,
    entryHeaderVisible: bool)

  /** Settings as read back from the data file: any key may be missing. */
  datatype StoredSettings = StoredSettings(
    liveUpdate: Option<bool>,
    sortingPrinciple: Option<SortingPrinciple>,
    sortingAttribute: Option<SortingAttribute>,
    showBehaviour: Option<Behaviour>,
    exclusionPattern: Option<seq<string>>,
    inclusionPattern: Option<seq<string>>,
    collapsedPattern: Option<seq<string>>,
    sourceBehaviour: Option<Behaviour>,
    sourceInclusionPattern: Option<seq<string>>,
    sourceExclusionPattern: Option<seq<string>>,
    listLimit: Option<int>,
    variant: Option<Variant>,
    fontSize: Option<int>,
    entryHeaderVisible: Option<bool>)

  /** The plugin's Data object. */
  datatype Data = Data(settings: Settings)

  /** What loadData returns: nothing, or an object that may lack `settings`. */
  datatype StoredData = StoredData(settings: Option<StoredSettings>)

  const DEFAULT_SETTINGS := Settings(
    liveUpdate := true,
    sortingPrinciple := NewestFirst,
    sortingAttribute := CTime,
    showBehaviour := OptOut,
    exclusionPattern := [],
    inclusionPattern := [],
    collapsedPattern := [],
    sourceBehaviour := OptOut,
    sourceInclusionPattern := [],
    sourceExclusionPattern := [],
    listLimit := 0,
    variant := CenterAligned,
    fontSize := 13,
    entryHeaderVisible := true)

  /** The settings object seen key by key, as Object.assign sees it. */
  datatype Key =
    | LiveUpdate | SortingPrincipleKey | SortingAttributeKey | ShowBehaviour
    | ExclusionPattern | InclusionPattern | CollapsedPattern | SourceBehaviour
    | SourceInclusionPattern | SourceExclusionPattern | ListLimit | VariantKey
    | FontSize | EntryHeaderVisible

  datatype Value =
    | Flag(b: bool)
    | Principle(p: SortingPrinciple)
    | Attribute(a: SortingAttribute)
    | Mode(m: Behaviour)
    | Patterns(ps: seq<string>)
    | Number(n: int)
    | Layout(v: Variant)

  /** The value a full settings object holds under `k`. */
  function Get(s: Settings, k: Key): Value
  {
    match k
    case LiveUpdate => Flag(s.liveUpdate)
    case SortingPrincipleKey => Principle(s.sortingPrinciple)
    case SortingAttributeKey => Attribute(s.sortingAttribute)
    case ShowBehaviour => Mode(s.showBehaviour)
    case ExclusionPattern => Patterns(s.exclusionPattern)
    case InclusionPattern => Patterns(s.inclusionPattern)
    case CollapsedPattern => Patterns(s.collapsedPattern)
    case SourceBehaviour => Mode(s.sourceBehaviour)
    case SourceInclusionPattern => Patterns(s.sourceInclusionPattern)
    case SourceExclusionPattern => Patterns(s.sourceExclusionPattern)
    case ListLimit => Number(s.listLimit)
    case VariantKey => Layout(s.variant)
    case FontSize => Number(s.fontSize)
    case EntryHeaderVisible => Flag(s.entryHeaderVisible)
  }

  function Wrap<T>(o: Option<T>, f: T -> Value): Option<Value>
  {
    match o
    case None => None
    case Some(x) => Some(f(x))
  }

  /** The value stored under `k`, or None when the data file lacks that key. */
  function Lookup(p: StoredSettings, k: Key): Option<Value>
  {
    match k
    case LiveUpdate => Wrap(p.liveUpdate, b => Flag(b))
    case SortingPrincipleKey => Wrap(p.sortingPrinciple, x => Principle(x))
    case SortingAttributeKey => Wrap(p.sortingAttribute, x => Attribute(x))
    case ShowBehaviour => Wrap(p.showBehaviour, x => Mode(x))
    case ExclusionPattern => Wrap(p.exclusionPattern, x => Patterns(x))
    case InclusionPattern => Wrap(p.inclusionPattern, x => Patterns(x))
    case CollapsedPattern => Wrap(p.collapsedPattern, x => Patterns(x))
    case SourceBehaviour => Wrap(p.sourceBehaviour, x => Mode(x))
    case SourceInclusionPattern => Wrap(p.sourceInclusionPattern, x => Patterns(x))
    case SourceExclusionPattern => Wrap(p.sourceExclusionPattern, x => Patterns(x))
    case ListLimit => Wrap(p.listLimit, x => Number(x))
    case VariantKey => Wrap(p.variant, x => Layout(x))
    case FontSize => Wrap(p.fontSize, x => Number(x))
    case EntryHeaderVisible => Wrap(p.entryHeaderVisible, b => Flag(b))
  }

  function Or<T>(o: Option<T>, default: T): T
  {
    match o
    case None => default
    case Some(x) => x
  }

  /** `Object.assign({}, defaults, stored)`: a key present in the stored
      settings overrides the default, every other key keeps its default. */
  function Assign(defaults: Settings, stored: Option<StoredSettings>): (r: Settings)
    ensures forall k: Key ::
              Get(r, k) == if stored.Some? && Lookup(stored.value, k).Some?
                           then Lookup(stored.value, k).value
                           else Get(defaults, k)
  {
    match stored
    case None => defaults
    case Some(p) =>
      Settings(
        liveUpdate := Or(p.liveUpdate, defaults.liveUpdate),
        sortingPrinciple := Or(p.sortingPrinciple, defaults.sortingPrinciple),
        sortingAttribute := Or(p.sortingAttribute, defaults.sortingAttribute),
        showBehaviour := Or(p.showBehaviour, defaults.showBehaviour),
        exclusionPattern := Or(p.exclusionPattern, defaults.exclusionPattern),
        inclusionPattern := Or(p.inclusionPattern, defaults.inclusionPattern),
        collapsedPattern := Or(p.collapsedPattern, defaults.collapsedPattern),
        sourceBehaviour := Or(p.sourceBehaviour, defaults.sourceBehaviour),
        sourceInclusionPattern := Or(p.sourceInclusionPattern, defaults.sourceInclusionPattern),
        sourceExclusionPattern := Or(p.sourceExclusionPattern, defaults.sourceExclusionPattern),
        listLimit := Or(p.listLimit, defaults.listLimit),
        variant := Or(p.variant, defaults.variant),
        fontSize := Or(p.fontSize, defaults.fontSize),
        entryHeaderVisible := Or(p.entryHeaderVisible, defaults.entryHeaderVisible))
  }

  /** loadDataInitially: the stored settings, if any, merged over DEFAULT_SETTINGS. */
  function LoadDataInitially(stored: Option<StoredData>): (d: Data)
    ensures forall k: Key ::
              Get(d.settings, k) ==
                if stored.Some? && stored.value.settings.Some? && Lookup(stored.value.settings.value, k).Some?
                then Lookup(stored.value.settings.value, k).value
                else Get(DEFAULT_SETTINGS, k)
  {
    Data(Assign(DEFAULT_SETTINGS, if stored.Some? then stored.value.settings else None))
  }

  /** What saveData writes for `d`: every key present. */
  function Persisted(d: Data): (stored: StoredData)
    ensures stored.settings.Some?
    ensures forall k: Key :: Lookup(stored.settings.value, k) == Some(Get(d.settings, k))
  {
    var s := d.settings;
    StoredData(Some(StoredSettings(
      Some(s.liveUpdate), Some(s.sortingPrinciple), Some(s.sortingAttribute),
      Some(s.showBehaviour), Some(s.exclusionPattern), Some(s.inclusionPattern),
      Some(s.collapsedPattern), Some(s.sourceBehaviour), Some(s.sourceInclusionPattern),
      Some(s.sourceExclusionPattern), Some(s.listLimit), Some(s.variant),
      Some(s.fontSize), Some(s.entryHeaderVisible))))
  }

  /** Two settings objects that agree on every key are equal. */
  lemma {:induction false} SettingsExtensional(s: Settings, t: Settings)
    requires forall k: Key :: Get(s, k) == Get(t, k)
    ensures s == t
  {
    assert Get(s, LiveUpdate) == Get(t, LiveUpdate);
    assert Get(s, SortingPrincipleKey) == Get(t, SortingPrincipleKey);
    assert Get(s, SortingAttributeKey) == Get(t, SortingAttributeKey);
    assert Get(s, ShowBehaviour) == Get(t, ShowBehaviour);
    assert Get(s, ExclusionPattern) == Get(t, ExclusionPattern);
    assert Get(s, InclusionPattern) == Get(t, InclusionPattern);
    assert Get(s, CollapsedPattern) == Get(t, CollapsedPattern);
    assert Get(s, SourceBehaviour) == Get(t, SourceBehaviour);
    assert Get(s, SourceInclusionPattern) == Get(t, SourceInclusionPattern);
    assert Get(s, SourceExclusionPattern) == Get(t, SourceExclusionPattern);
    assert Get(s, ListLimit) == Get(t, ListLimit);
    assert Get(s, VariantKey) == Get(t, VariantKey);
    assert Get(s, FontSize) == Get(t, FontSize);
    assert Get(s, EntryHeaderVisible) == Get(t, EntryHeaderVisible);
  }

  /** Loading what was saved gives back the same data. */
  lemma {:induction false} LoadAfterSave(d: Data)
    ensures LoadDataInitially(Some(Persisted(d))) == d
  {
    SettingsExtensional(LoadDataInitially(Some(Persisted(d))).settings, d.settings);
  }

  /** With no data file, or one without settings, the defaults apply. */
  lemma {:induction false} LoadWithoutStoredSettings(stored: Option<StoredData>)
    requires stored.None? || stored.value.settings.None?
    ensures LoadDataInitially(stored).settings == DEFAULT_SETTINGS
  {
    SettingsExtensional(LoadDataInitially(stored).settings, DEFAULT_SETTINGS);
  }

  /** The other of the two sorting principles (toggleSortOrder's choice). */
  function Toggled(p: SortingPrinciple): (r: SortingPrinciple)
    ensures r != p
  {
    if p == NewestFirst then OldestFirst else NewestFirst
  }

  lemma ToggledTwice(p: SortingPrinciple)
    ensures Toggled(Toggled(p)) == p
  {
  }

  /** The settings after toggleSortOrder: only the sorting principle differs. */
  function WithToggledOrder(s: Settings): (r: Settings)
    ensures r.sortingPrinciple != s.sortingPrinciple
    ensures forall k: Key :: k != SortingPrincipleKey ==> Get(r, k) == Get(s, k)
  {
    s.(sortingPrinciple := Toggled(s.sortingPrinciple))
  }

  /** Toggling twice restores the original settings. */
  lemma {:induction false} ToggleOrderTwice(s: Settings)
    ensures WithToggledOrder(WithToggledOrder(s)) == s
  {
    var t := WithToggledOrder(WithToggledOrder(s));
    ToggledTwice(s.sortingPrinciple);
    assert Get(t, SortingPrincipleKey) == Get(s, SortingPrincipleKey);
    SettingsExtensional(t, s);
  }
}
