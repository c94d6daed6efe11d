/** The persisted display-preferences store (`useSettingsStore`).

    The store holds the settings as a JavaScript object: the typed
    `Settings` record only describes what a well-formed one looks like,
    because `update` installs whatever object it is given (clipboard JSON
    included) without checking or completing it. */
module SettingsState {
  import opened Js

  datatype Diagram = Balance | Usage
  datatype TimeRange = Day | Week | Month

  /** The eight preferences, in the order the `Settings` class declares them. */
  datatype Settings = Settings(
    diagramDays: int,
    diagramType: Diagram,
    chartTimeRange: TimeRange,
    chartItemsCount: int,
    usageSmoothing: bool,
    usageSpreading: bool,
    usagePreHourUnit: bool,
    usageSmartMerge: bool)

  /** `new Settings()`. */
  const Defaults: Settings := Settings(1, Usage, Day, 7, true, true, true, true)

  /** `keyof Settings`. */
  datatype Key =
    | DiagramDays | DiagramType | ChartTimeRange | ChartItemsCount
    | UsageSmoothing | UsageSpreading | UsagePreHourUnit | UsageSmartMerge

  const AllKeys: seq<Key> := [DiagramDays, DiagramType, ChartTimeRange, ChartItemsCount,
                              UsageSmoothing, UsageSpreading, UsagePreHourUnit, UsageSmartMerge]

  function Name(k: Key): string
  {
    match k
    case DiagramDays => "diagramDays"
    case DiagramType => "diagramType"
    case ChartTimeRange => "chartTimeRange"
    case ChartItemsCount => "chartItemsCount"
    case UsageSmoothing => "usageSmoothing"
    case UsageSpreading => "usageSpreading"
    case UsagePreHourUnit => "usagePreHourUnit"
    case UsageSmartMerge => "usageSmartMerge"
  }

  function DiagramText(d: Diagram): string
  {
    match d
    case Balance => "balance"
    case Usage => "usage"
  }

  function RangeText(r: TimeRange): string
  {
    match r
    case Day => "day"
    case Week => "week"
    case Month => "month"
  }

  function AsDiagram(v: JsValue): (d: Option<Diagram>)
    ensures d.Some? ==> v == Str(DiagramText(d.value))
    ensures forall e :: v == Str(DiagramText(e)) ==> d == Some(e)
  {
    if v == Str("balance") then Some(Balance)
    else if v == Str("usage") then Some(Usage)
    else None
  }

  function AsRange(v: JsValue): (r: Option<TimeRange>)
    ensures r.Some? ==> v == Str(RangeText(r.value))
    ensures forall e :: v == Str(RangeText(e)) ==> r == Some(e)
  {
    if v == Str("day") then Some(Day)
    else if v == Str("week") then Some(Week)
    else if v == Str("month") then Some(Month)
    else None
  }

  /** The value field k of s has in the settings object. */
  function FieldValue(s: Settings, k: Key): JsValue
  {
    match k
    case DiagramDays => Num(s.diagramDays)
    case DiagramType => Str(DiagramText(s.diagramType))
    case ChartTimeRange => Str(RangeText(s.chartTimeRange))
    case ChartItemsCount => Num(s.chartItemsCount)
    case UsageSmoothing => Bool(s.usageSmoothing)
    case UsageSpreading => Bool(s.usageSpreading)
    case UsagePreHourUnit => Bool(s.usagePreHourUnit)
    case UsageSmartMerge => Bool(s.usageSmartMerge)
  }

  /** `Settings[k]`: the values the type of field k admits. */
  predicate Fits(k: Key, v: JsValue)
  {
    match k
    case DiagramDays => v.Num?
    case ChartItemsCount => v.Num?
    case DiagramType => AsDiagram(v).Some?
    case ChartTimeRange => AsRange(v).Some?
    case _ => v.Bool?
  }

  /** The typed record with field k set to v and every other field kept. */
  function With(s: Settings, k: Key, v: JsValue): (r: Settings)
    requires Fits(k, v)
    ensures FieldValue(r, k) == v
    ensures forall k' :: k' != k ==> FieldValue(r, k') == FieldValue(s, k')
  {
    match k
    case DiagramDays => s.(diagramDays := v.n)
    case DiagramType => s.(diagramType := AsDiagram(v).value)
    case ChartTimeRange => s.(chartTimeRange := AsRange(v).value)
    case ChartItemsCount => s.(chartItemsCount := v.n)
    case UsageSmoothing => s.(usageSmoothing := v.b)
    case UsageSpreading => s.(usageSpreading := v.b)
    case UsagePreHourUnit => s.(usagePreHourUnit := v.b)
    case UsageSmartMerge => s.(usageSmartMerge := v.b)
  }

  /** The object a `Settings` instance is: its eight fields in declaration order. */
  function ToProps(s: Settings): (p: Props)
    ensures |p| == |AllKeys|
  {
    seq(|AllKeys|, i requires 0 <= i < |AllKeys| => (Name(AllKeys[i]), FieldValue(s, AllKeys[i])))
  }

  /** The typed reading of a settings object: present exactly when each of the
      eight fields is there with a value its type admits. Other keys are ignored. */
  function FromProps(p: Props): Option<Settings>
  {
    var dd := Lookup(p, "diagramDays");
    var dt := Lookup(p, "diagramType");
    var tr := Lookup(p, "chartTimeRange");
    var ic := Lookup(p, "chartItemsCount");
    var sm := Lookup(p, "usageSmoothing");
    var sp := Lookup(p, "usageSpreading");
    var ph := Lookup(p, "usagePreHourUnit");
    var mg := Lookup(p, "usageSmartMerge");
    if && dd.Some? && dd.value.Num?
       && dt.Some? && AsDiagram(dt.value).Some?
       && tr.Some? && AsRange(tr.value).Some?
       && ic.Some? && ic.value.Num?
       && sm.Some? && sm.value.Bool?
       && sp.Some? && sp.value.Bool?
       && ph.Some? && ph.value.Bool?
       && mg.Some? && mg.value.Bool?
    then Some(Settings(dd.value.n, AsDiagram(dt.value).value, AsRange(tr.value).value, ic.value.n,
                       sm.value.b, sp.value.b, ph.value.b, mg.value.b))
    else None
  }

  /** The names of the eight known fields. */
  function KnownNames(): (ns: set<string>)
    ensures forall k :: Name(k) in ns
  {
    set k: Key | k in AllKeys :: Name(k)
  }

  lemma NamesAreDistinct()
    ensures forall i, j :: 0 <= i < j < |AllKeys| ==> Name(AllKeys[i]) != Name(AllKeys[j])
  {
  }

  lemma NameIsInjective(a: Key, b: Key)
    ensures Name(a) == Name(b) ==> a == b
  {
    NamesAreDistinct();
    assert AllKeys[Index(a)] == a && AllKeys[Index(b)] == b;
  }

  /** The position of k in the declaration order. */
  function Index(k: Key): (i: nat)
    ensures i < |AllKeys| && AllKeys[i] == k
  {
    match k
    case DiagramDays => 0
    case DiagramType => 1
    case ChartTimeRange => 2
    case ChartItemsCount => 3
    case UsageSmoothing => 4
    case UsageSpreading => 5
    case UsagePreHourUnit => 6
    case UsageSmartMerge => 7
  }

  lemma ToPropsReads(s: Settings, k: Key)
    ensures Lookup(ToProps(s), Name(k)) == Some(FieldValue(s, k))
  {
    ToPropsHasDistinctKeys(s);
    LookupDistinct(ToProps(s), Index(k));
  }

  lemma ToPropsHasDistinctKeys(s: Settings)
    ensures DistinctKeys(ToProps(s))
  {
    NamesAreDistinct();
  }

  lemma FromPropsFields(p: Props, s: Settings)
    requires FromProps(p) == Some(s)
    ensures forall k :: Lookup(p, Name(k)) == Some(FieldValue(s, k))
  {
  }

  lemma FieldsFromProps(p: Props, s: Settings)
    requires forall k :: Lookup(p, Name(k)) == Some(FieldValue(s, k))
    ensures FromProps(p) == Some(s)
  {
    assert Lookup(p, Name(DiagramDays)) == Some(FieldValue(s, DiagramDays));
    assert Lookup(p, Name(DiagramType)) == Some(FieldValue(s, DiagramType));
    assert Lookup(p, Name(ChartTimeRange)) == Some(FieldValue(s, ChartTimeRange));
    assert Lookup(p, Name(ChartItemsCount)) == Some(FieldValue(s, ChartItemsCount));
    assert Lookup(p, Name(UsageSmoothing)) == Some(FieldValue(s, UsageSmoothing));
    assert Lookup(p, Name(UsageSpreading)) == Some(FieldValue(s, UsageSpreading));
    assert Lookup(p, Name(UsagePreHourUnit)) == Some(FieldValue(s, UsagePreHourUnit));
    assert Lookup(p, Name(UsageSmartMerge)) == Some(FieldValue(s, UsageSmartMerge));
  }

  /** The typed reading succeeds with s exactly when every known field reads as s's. */
  lemma FromPropsReadsEveryField(p: Props, s: Settings)
    ensures FromProps(p) == Some(s) <==> forall k :: Lookup(p, Name(k)) == Some(FieldValue(s, k))
  {
    if FromProps(p) == Some(s) {
      FromPropsFields(p, s);
    }
    if forall k :: Lookup(p, Name(k)) == Some(FieldValue(s, k)) {
      FieldsFromProps(p, s);
    }
  }

  /** A `Settings` instance turned into an object reads back as itself. */
  lemma ToPropsRoundTrip(s: Settings)
    ensures FromProps(ToProps(s)) == Some(s)
  {
    forall k ensures Lookup(ToProps(s), Name(k)) == Some(FieldValue(s, k)) {
      ToPropsReads(s, k);
    }
    FromPropsReadsEveryField(ToProps(s), s);
  }

  /** An object that lacks one of the eight fields has no typed reading. */
  lemma MissingFieldIsNotFilledIn(p: Props, k: Key)
    requires Lookup(p, Name(k)).None?
    ensures FromProps(p).None?
  {
    if FromProps(p).Some? {
      FromPropsReadsEveryField(p, FromProps(p).value);
    }
  }

  /** The object a fresh store starts with. */
  lemma DefaultObject()
    ensures ToProps(Defaults) == [("diagramDays", Num(1)), ("diagramType", Str("usage")),
                                  ("chartTimeRange", Str("day")), ("chartItemsCount", Num(7)),
                                  ("usageSmoothing", Bool(true)), ("usageSpreading", Bool(true)),
                                  ("usagePreHourUnit", Bool(true)), ("usageSmartMerge", Bool(true))]
  {
  }

  /** `updateKey` on a well-formed object sets field k in its typed reading
      and leaves the other seven as they were. */
  lemma UpdateKeyTyped(p: Props, s: Settings, k: Key, v: JsValue)
    requires FromProps(p) == Some(s) && Fits(k, v)
    ensures FromProps(Assign(p, Name(k), v)) == Some(With(s, k, v))
  {
    FromPropsFields(p, s);
    var q := Assign(p, Name(k), v);
    var t := With(s, k, v);
    forall k' ensures Lookup(q, Name(k')) == Some(FieldValue(t, k')) {
      LookupAssign(p, Name(k), v, Name(k'));
      NameIsInjective(k, k');
    }
    FieldsFromProps(q, t);
  }

  /** After `reset` every known field holds its default, whatever the object
      held before, and every other key keeps its value. */
  lemma ResetRestoresDefaults(p: Props)
    ensures FromProps(Spread(p, ToProps(Defaults))) == Some(Defaults)
    ensures forall n :: n !in KnownNames() ==> Lookup(Spread(p, ToProps(Defaults)), n) == Lookup(p, n)
  {
    var d := ToProps(Defaults);
    ToPropsHasDistinctKeys(Defaults);
    forall k ensures Lookup(Spread(p, d), Name(k)) == Some(FieldValue(Defaults, k)) {
      LookupSpread(p, d, Name(k));
      ToPropsReads(Defaults, k);
    }
    FromPropsReadsEveryField(Spread(p, d), Defaults);
    forall n | n !in KnownNames() ensures Lookup(Spread(p, d), n) == Lookup(p, n) {
      LookupSpread(p, d, n);
      LookupFindsKey(d, n);
      assert n !in Keys(d) by {
        forall i | 0 <= i < |d| ensures Keys(d)[i] != n {
          assert Keys(d)[i] == Name(AllKeys[i]);
        }
      }
    }
  }

  /** What `importFromClipboard` reported. */
  datatype ImportOutcome =
    | NoClient      // rendered on the server: nothing happens
    | Imported      // "Successfully import settings from clipboard"
    | ParseFailed   // "Could not parse settings data from clipboard"

  /** The outcome of an import, given the client context, the clipboard's text
      (None when reading it fails) and the JSON parser. */
  function ImportOutcomeOf(hasWindow: bool, clipboard: Option<string>,
                           parse: string -> Option<Props>): ImportOutcome
  {
    if !hasWindow then NoClient
    else if clipboard.Some? && parse(clipboard.value).Some? then Imported
    else ParseFailed
  }

  /** The settings object after an import. */
  function AfterImport(current: Props, hasWindow: bool, clipboard: Option<string>,
                       parse: string -> Option<Props>): Props
  {
    if hasWindow && clipboard.Some? && parse(clipboard.value).Some?
    then parse(clipboard.value).value
    else current
  }

  /** Failing to read or parse the clipboard, or having no client, keeps the settings. */
  lemma FailedImportKeepsSettings(current: Props, hasWindow: bool, clipboard: Option<string>,
                                  parse: string -> Option<Props>)
    requires ImportOutcomeOf(hasWindow, clipboard, parse) != Imported
    ensures AfterImport(current, hasWindow, clipboard, parse) == current
  {
  }

  /** A parsed object is installed as it is: unchecked and not completed from defaults. */
  lemma ImportInstallsParsed(current: Props, text: string, parse: string -> Option<Props>)
    requires parse(text).Some?
    ensures ImportOutcomeOf(true, Some(text), parse) == Imported
    ensures AfterImport(current, true, Some(text), parse) == parse(text).value
  {
  }

  /** How `exportToClipboard` ended. */
  datatype ExportOutcome =
    | Skipped              // rendered on the server: nothing happens
    | Copied(text: string) // the serialised settings were handed to the clipboard
    | ClipboardMissing     // no `navigator.clipboard`: a TypeError escapes the call

  /** The store: the current settings object and the operations on it.
      Persistence to local storage and the toasts are not modelled. */
  class SettingsStore {
    var settings: Props

    constructor ()
      ensures settings == ToProps(Defaults)
      ensures FromProps(settings) == Some(Defaults)
    {
      settings := ToProps(Defaults);
      ToPropsRoundTrip(Defaults);
    }

    /** Replaces the whole object and returns the new one. */
    method Update(newSettings: Props) returns (r: Props)
      modifies this
      ensures settings == newSettings && r == newSettings
    {
      settings := newSettings;
      r := settings;
    }

    /** Sets one field. */
    method UpdateKey(key: Key, value: JsValue)
      requires Fits(key, value)
      modifies this
      ensures settings == Assign(old(settings), Name(key), value)
      ensures forall n :: n != Name(key) ==> Lookup(settings, n) == Lookup(old(settings), n)
      ensures Lookup(settings, Name(key)) == Some(value)
      ensures forall s :: FromProps(old(settings)) == Some(s) ==> FromProps(settings) == Some(With(s, key, value))
    {
      ghost var before := settings;
      settings := Assign(settings, Name(key), value);
      forall n ensures Lookup(settings, n) == if n == Name(key) then Some(value) else Lookup(before, n) {
        LookupAssign(before, Name(key), value, n);
      }
      forall s | FromProps(before) == Some(s) ensures FromProps(settings) == Some(With(s, key, value)) {
        UpdateKeyTyped(before, s, key, value);
      }
    }

    /** Spreads the defaults over the current object and returns the result. */
    method Reset() returns (r: Props)
      modifies this
      ensures settings == Spread(old(settings), ToProps(Defaults)) && r == settings
      ensures FromProps(settings) == Some(Defaults)
    {
      ResetRestoresDefaults(settings);
      settings := Spread(settings, ToProps(Defaults));
      r := settings;
    }

    /** Serialises the current object for the clipboard. `hasClipboard` says
        whether `navigator.clipboard` exists (it does not outside a secure
        context); the settings never change. */
    method ExportToClipboard(hasWindow: bool, hasClipboard: bool, stringify: JsValue -> string)
      returns (outcome: ExportOutcome)
      ensures outcome.Skipped? <==> !hasWindow
      ensures outcome.ClipboardMissing? <==> hasWindow && !hasClipboard
      ensures outcome.Copied? <==> hasWindow && hasClipboard
      ensures outcome.Copied? ==> outcome.text == stringify(Obj(settings))
    {
      if !hasWindow {
        return Skipped;
      }
      if !hasClipboard {
        return ClipboardMissing;
      }
      outcome := Copied(stringify(Obj(settings)));
    }

    /** Reads the clipboard text, parses it and installs it with `Update`. */
    method ImportFromClipboard(hasWindow: bool, clipboard: Option<string>,
                               parse: string -> Option<Props>) returns (outcome: ImportOutcome)
      modifies this
      ensures outcome == ImportOutcomeOf(hasWindow, clipboard, parse)
      ensures settings == AfterImport(old(settings), hasWindow, clipboard, parse)
    {
      if !hasWindow {
        return NoClient;
      }
      if clipboard.None? {
        return ParseFailed;
      }
      var parsed := parse(clipboard.value);
      if parsed.None? {
        return ParseFailed;
      }
      var _ := Update(parsed.value);
      outcome := Imported;
    }
  }

  /** Exporting and then importing the copied text leaves the store as it was,
      provided the parser reads back what the serialiser wrote for this object
      (`JSON.stringify` drops undefined-valued keys, so not every object has
      this property). */
  method ExportThenImport(store: SettingsStore, stringify: JsValue -> string,
                          parse: string -> Option<Props>) returns (outcome: ImportOutcome)
    requires parse(stringify(Obj(store.settings))) == Some(store.settings)
    modifies store
    ensures outcome == Imported
    ensures store.settings == old(store.settings)
  {
    var exported := store.ExportToClipboard(true, true, stringify);
    outcome := store.ImportFromClipboard(true, Some(exported.text), parse);
  }
}
