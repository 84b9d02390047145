/**
 * The persisted controller settings (src/settings.h, src/settings.cpp).
 *
 * `SettingsManager` holds the 17-field record and the `Preferences`
 * namespace "r2d2cfg" it is saved to. The namespace is a map from key to a
 * typed value; the getters of the Preferences library are modelled as
 * returning the caller's default when the key is missing or holds a value
 * of another width. The compiled `DEFAULT_*` constants are not part of this
 * model: the manager takes its defaults as a construction parameter, so
 * everything proved here holds for any choice of them.
 */
module Settings {
  import opened Fixed

  datatype ControllerSettings = ControllerSettings(
    powerMultiplier: U8,
    moveLegDnPower: I16,
    moveLegUpPower: I16,
    moveTiltDnPower: I16,
    moveTiltUpPower: I16,
    twoToThreeLegPower: I16,
    twoToThreeTiltPower: I16,
    threeToTwoLegSlowPower: I16,
    threeToTwoLegFastPower: I16,
    threeToTwoTiltPower: I16,
    stanceInterval: U16,
    showTimeInterval: U16,
    commandEnableTimeout: U32,
    buttonDebounceTime: U16,
    phase1Start: U16,
    phase1End: U16,
    phase2Start: U16)

  /** A value in the key/value store, tagged with the width it was put with. */
  datatype Value = UChar(u8: U8) | Short(i16: I16) | UShort(u16: U16) | ULong(u32: U32)

  /** The contents of one Preferences namespace. */
  type Store = map<string, Value>

  datatype Width = UInt8 | Int16 | UInt16 | UInt32

  function WidthOfValue(v: Value): Width
  {
    match v
    case UChar(_) => UInt8
    case Short(_) => Int16
    case UShort(_) => UInt16
    case ULong(_) => UInt32
  }

  function IntOfValue(v: Value): int
  {
    match v
    case UChar(x) => x
    case Short(x) => x
    case UShort(x) => x
    case ULong(x) => x
  }

  // The Preferences getters: the stored value when the key holds one of the
  // requested width, otherwise the default supplied by the caller.

  function GetUChar(store: Store, key: string, default: U8): U8
  {
    if key in store && store[key].UChar? then store[key].u8 else default
  }

  function GetShort(store: Store, key: string, default: I16): I16
  {
    if key in store && store[key].Short? then store[key].i16 else default
  }

  function GetUShort(store: Store, key: string, default: U16): U16
  {
    if key in store && store[key].UShort? then store[key].u16 else default
  }

  function GetULong(store: Store, key: string, default: U32): U32
  {
    if key in store && store[key].ULong? then store[key].u32 else default
  }

  /** The 17 settings, named so that properties can be stated once for all of them. */
  datatype Field =
    | PowerMultiplier
    | MoveLegDnPower | MoveLegUpPower | MoveTiltDnPower | MoveTiltUpPower
    | TwoToThreeLegPower | TwoToThreeTiltPower
    | ThreeToTwoLegSlowPower | ThreeToTwoLegFastPower | ThreeToTwoTiltPower
    | StanceInterval | ShowTimeInterval | CommandEnableTimeout | ButtonDebounceTime
    | Phase1Start | Phase1End | Phase2Start

  /** The store key of each field, as `Load` and `Save` use it. */
  function Key(f: Field): string
  {
    match f
    case PowerMultiplier => "pwrMult"
    case MoveLegDnPower => "legDnPwr"
    case MoveLegUpPower => "legUpPwr"
    case MoveTiltDnPower => "tiltDnPwr"
    case MoveTiltUpPower => "tiltUpPwr"
    case TwoToThreeLegPower => "23legPwr"
    case TwoToThreeTiltPower => "23tiltPwr"
    case ThreeToTwoLegSlowPower => "32legSlwPwr"
    case ThreeToTwoLegFastPower => "32legFstPwr"
    case ThreeToTwoTiltPower => "32tiltPwr"
    case StanceInterval => "stanceInt"
    case ShowTimeInterval => "showTimeInt"
    case CommandEnableTimeout => "cmdTimeout"
    case ButtonDebounceTime => "btnDebounce"
    case Phase1Start => "ph1Start"
    case Phase1End => "ph1End"
    case Phase2Start => "ph2Start"
  }

  /** The declared C++ width of each field. */
  function WidthOf(f: Field): Width
  {
    match f
    case PowerMultiplier => UInt8
    case MoveLegDnPower | MoveLegUpPower | MoveTiltDnPower | MoveTiltUpPower
      | TwoToThreeLegPower | TwoToThreeTiltPower
      | ThreeToTwoLegSlowPower | ThreeToTwoLegFastPower | ThreeToTwoTiltPower => Int16
    case CommandEnableTimeout => UInt32
    case _ => UInt16
  }

  /** The value of field `f` in `s`. */
  function Get(s: ControllerSettings, f: Field): int
  {
    match f
    case PowerMultiplier => s.powerMultiplier
    case MoveLegDnPower => s.moveLegDnPower
    case MoveLegUpPower => s.moveLegUpPower
    case MoveTiltDnPower => s.moveTiltDnPower
    case MoveTiltUpPower => s.moveTiltUpPower
    case TwoToThreeLegPower => s.twoToThreeLegPower
    case TwoToThreeTiltPower => s.twoToThreeTiltPower
    case ThreeToTwoLegSlowPower => s.threeToTwoLegSlowPower
    case ThreeToTwoLegFastPower => s.threeToTwoLegFastPower
    case ThreeToTwoTiltPower => s.threeToTwoTiltPower
    case StanceInterval => s.stanceInterval
    case ShowTimeInterval => s.showTimeInterval
    case CommandEnableTimeout => s.commandEnableTimeout
    case ButtonDebounceTime => s.buttonDebounceTime
    case Phase1Start => s.phase1Start
    case Phase1End => s.phase1End
    case Phase2Start => s.phase2Start
  }

  /** The integer assigned to a field of width `w` converted to that width. */
  function Narrow(w: Width, v: int): int
  {
    match w
    case UInt8 => ToU8(v)
    case Int16 => ToI16(v)
    case UInt16 => ToU16(v)
    case UInt32 => ToU32(v)
  }

  /**
   * What a read of field `f` yields from `store`: the stored value when the
   * field's key holds a value of the field's width, otherwise `default`.
   */
  function Fetch(store: Store, f: Field, default: int): int
  {
    if Key(f) in store && WidthOfValue(store[Key(f)]) == WidthOf(f) then IntOfValue(store[Key(f)]) else default
  }

  /** Every key `Save` writes. */
  const StoreKeys: set<string> :=
    {"pwrMult", "legDnPwr", "legUpPwr", "tiltDnPwr", "tiltUpPwr", "23legPwr", "23tiltPwr",
     "32legSlwPwr", "32legFstPwr", "32tiltPwr", "stanceInt", "showTimeInt", "cmdTimeout",
     "btnDebounce", "ph1Start", "ph1End", "ph2Start"}

  /** No two fields share a key, so no write can overwrite another field's value. */
  lemma KeysDistinct(f: Field, g: Field)
    ensures Key(f) == Key(g) ==> f == g
    ensures Key(f) in StoreKeys
  {
  }

  /** Two settings records that agree on every field are equal. */
  lemma SameFields(a: ControllerSettings, b: ControllerSettings)
    requires forall f :: Get(a, f) == Get(b, f)
    ensures a == b
  {
    assert Get(a, PowerMultiplier) == Get(b, PowerMultiplier);
    assert Get(a, MoveLegDnPower) == Get(b, MoveLegDnPower);
    assert Get(a, MoveLegUpPower) == Get(b, MoveLegUpPower);
    assert Get(a, MoveTiltDnPower) == Get(b, MoveTiltDnPower);
    assert Get(a, MoveTiltUpPower) == Get(b, MoveTiltUpPower);
    assert Get(a, TwoToThreeLegPower) == Get(b, TwoToThreeLegPower);
    assert Get(a, TwoToThreeTiltPower) == Get(b, TwoToThreeTiltPower);
    assert Get(a, ThreeToTwoLegSlowPower) == Get(b, ThreeToTwoLegSlowPower);
    assert Get(a, ThreeToTwoLegFastPower) == Get(b, ThreeToTwoLegFastPower);
    assert Get(a, ThreeToTwoTiltPower) == Get(b, ThreeToTwoTiltPower);
    assert Get(a, StanceInterval) == Get(b, StanceInterval);
    assert Get(a, ShowTimeInterval) == Get(b, ShowTimeInterval);
    assert Get(a, CommandEnableTimeout) == Get(b, CommandEnableTimeout);
    assert Get(a, ButtonDebounceTime) == Get(b, ButtonDebounceTime);
    assert Get(a, Phase1Start) == Get(b, Phase1Start);
    assert Get(a, Phase1End) == Get(b, Phase1End);
    assert Get(a, Phase2Start) == Get(b, Phase2Start);
  }

  /**
   * The settings `Load` produces from `store` when the compiled defaults are
   * `d`: each field independently takes its stored value or its default.
   */
  function Loaded(store: Store, d: ControllerSettings): ControllerSettings
  {
    ControllerSettings(
      GetUChar(store, "pwrMult", d.powerMultiplier),
      GetShort(store, "legDnPwr", d.moveLegDnPower),
      GetShort(store, "legUpPwr", d.moveLegUpPower),
      GetShort(store, "tiltDnPwr", d.moveTiltDnPower),
      GetShort(store, "tiltUpPwr", d.moveTiltUpPower),
      GetShort(store, "23legPwr", d.twoToThreeLegPower),
      GetShort(store, "23tiltPwr", d.twoToThreeTiltPower),
      GetShort(store, "32legSlwPwr", d.threeToTwoLegSlowPower),
      GetShort(store, "32legFstPwr", d.threeToTwoLegFastPower),
      GetShort(store, "32tiltPwr", d.threeToTwoTiltPower),
      GetUShort(store, "stanceInt", d.stanceInterval),
      GetUShort(store, "showTimeInt", d.showTimeInterval),
      GetULong(store, "cmdTimeout", d.commandEnableTimeout),
      GetUShort(store, "btnDebounce", d.buttonDebounceTime),
      GetUShort(store, "ph1Start", d.phase1Start),
      GetUShort(store, "ph1End", d.phase1End),
      GetUShort(store, "ph2Start", d.phase2Start))
  }

  /** Each field of a loaded record is read on its own: stored value, or default. */
  lemma LoadedField(store: Store, d: ControllerSettings, f: Field)
    ensures Get(Loaded(store, d), f) == Fetch(store, f, Get(d, f))
  {
    if WidthOf(f) == Int16 {
      LoadedShortField(store, d, f);
    } else {
      LoadedOtherField(store, d, f);
    }
  }

  lemma LoadedShortField(store: Store, d: ControllerSettings, f: Field)
    requires WidthOf(f) == Int16
    ensures Get(Loaded(store, d), f) == Fetch(store, f, Get(d, f))
  {
    match f
    case MoveLegDnPower =>
    case MoveLegUpPower =>
    case MoveTiltDnPower =>
    case MoveTiltUpPower =>
    case TwoToThreeLegPower =>
    case TwoToThreeTiltPower =>
    case ThreeToTwoLegSlowPower =>
    case ThreeToTwoLegFastPower =>
    case ThreeToTwoTiltPower =>
  }

  lemma LoadedOtherField(store: Store, d: ControllerSettings, f: Field)
    requires WidthOf(f) != Int16
    ensures Get(Loaded(store, d), f) == Fetch(store, f, Get(d, f))
  {
    match f
    case PowerMultiplier =>
    case StanceInterval =>
    case ShowTimeInterval =>
    case CommandEnableTimeout =>
    case ButtonDebounceTime =>
    case Phase1Start =>
    case Phase1End =>
    case Phase2Start =>
  }

  /**
   * The namespace after `Save` has written `s` into `store`: each of the 17
   * keys holds its field's value at the field's declared width.
   */
  function SaveInto(store: Store, s: ControllerSettings): Store
  {
    store
      ["pwrMult" := UChar(s.powerMultiplier)]
      ["legDnPwr" := Short(s.moveLegDnPower)]
      ["legUpPwr" := Short(s.moveLegUpPower)]
      ["tiltDnPwr" := Short(s.moveTiltDnPower)]
      ["tiltUpPwr" := Short(s.moveTiltUpPower)]
      ["23legPwr" := Short(s.twoToThreeLegPower)]
      ["23tiltPwr" := Short(s.twoToThreeTiltPower)]
      ["32legSlwPwr" := Short(s.threeToTwoLegSlowPower)]
      ["32legFstPwr" := Short(s.threeToTwoLegFastPower)]
      ["32tiltPwr" := Short(s.threeToTwoTiltPower)]
      ["stanceInt" := UShort(s.stanceInterval)]
      ["showTimeInt" := UShort(s.showTimeInterval)]
      ["cmdTimeout" := ULong(s.commandEnableTimeout)]
      ["btnDebounce" := UShort(s.buttonDebounceTime)]
      ["ph1Start" := UShort(s.phase1Start)]
      ["ph1End" := UShort(s.phase1End)]
      ["ph2Start" := UShort(s.phase2Start)]
  }

  /** After a save, each field's key holds the field's value at the field's declared width. */
  lemma SavedField(store: Store, s: ControllerSettings, f: Field)
    ensures var r := SaveInto(store, s);
            Key(f) in r && WidthOfValue(r[Key(f)]) == WidthOf(f) && IntOfValue(r[Key(f)]) == Get(s, f)
  {
    if WidthOf(f) == Int16 {
      SavedShortField(store, s, f);
    } else {
      SavedOtherField(store, s, f);
    }
  }

  lemma SavedShortField(store: Store, s: ControllerSettings, f: Field)
    requires WidthOf(f) == Int16
    ensures var r := SaveInto(store, s);
            Key(f) in r && WidthOfValue(r[Key(f)]) == WidthOf(f) && IntOfValue(r[Key(f)]) == Get(s, f)
  {
    if f.MoveLegDnPower? || f.MoveLegUpPower? || f.MoveTiltDnPower? || f.MoveTiltUpPower? {
      SavedMovePower(store, s, f);
    } else {
      SavedStancePower(store, s, f);
    }
  }

  lemma SavedMovePower(store: Store, s: ControllerSettings, f: Field)
    requires f.MoveLegDnPower? || f.MoveLegUpPower? || f.MoveTiltDnPower? || f.MoveTiltUpPower?
    ensures var r := SaveInto(store, s);
            Key(f) in r && WidthOfValue(r[Key(f)]) == WidthOf(f) && IntOfValue(r[Key(f)]) == Get(s, f)
  {
    match f
    case MoveLegDnPower =>
    case MoveLegUpPower =>
    case MoveTiltDnPower =>
    case MoveTiltUpPower =>
  }

  lemma SavedStancePower(store: Store, s: ControllerSettings, f: Field)
    requires f.TwoToThreeLegPower? || f.TwoToThreeTiltPower? || f.ThreeToTwoLegSlowPower?
             || f.ThreeToTwoLegFastPower? || f.ThreeToTwoTiltPower?
    ensures var r := SaveInto(store, s);
            Key(f) in r && WidthOfValue(r[Key(f)]) == WidthOf(f) && IntOfValue(r[Key(f)]) == Get(s, f)
  {
    match f
    case TwoToThreeLegPower =>
    case TwoToThreeTiltPower =>
    case ThreeToTwoLegSlowPower =>
    case ThreeToTwoLegFastPower =>
    case ThreeToTwoTiltPower =>
  }

  lemma SavedOtherField(store: Store, s: ControllerSettings, f: Field)
    requires WidthOf(f) != Int16
    ensures var r := SaveInto(store, s);
            Key(f) in r && WidthOfValue(r[Key(f)]) == WidthOf(f) && IntOfValue(r[Key(f)]) == Get(s, f)
  {
    match f
    case PowerMultiplier =>
    case StanceInterval =>
    case ShowTimeInterval =>
    case CommandEnableTimeout =>
    case ButtonDebounceTime =>
    case Phase1Start =>
    case Phase1End =>
    case Phase2Start =>
  }

  /** `Save` adds exactly the 17 settings keys and leaves every other key as it was. */
  lemma SaveIntoFrame(store: Store, s: ControllerSettings)
    ensures SaveInto(store, s).Keys == store.Keys + StoreKeys
    ensures forall k :: k in store && k !in StoreKeys ==> SaveInto(store, s)[k] == store[k]
  {
  }

  /**
   * Whatever the namespace held before, loading after a save gives back
   * exactly the saved settings, and the defaults play no part.
   */
  lemma SaveThenLoad(store: Store, s: ControllerSettings, d: ControllerSettings)
    ensures Loaded(SaveInto(store, s), d) == s
  {
    var m := SaveInto(store, s);
    forall f ensures Get(Loaded(m, d), f) == Get(s, f) {
      LoadedField(m, d, f);
      SavedField(store, s, f);
    }
    SameFields(Loaded(m, d), s);
  }

  /** Loading from an empty namespace (after a reset) gives the defaults. */
  lemma LoadFromEmpty(d: ControllerSettings)
    ensures Loaded(map[], d) == d
  {
    forall f ensures Get(Loaded(map[], d), f) == Get(d, f) {
      LoadedField(map[], d, f);
    }
    SameFields(Loaded(map[], d), d);
  }

  /** Keys of the namespace that are not settings keys play no part in a load. */
  lemma LoadIgnoresForeignKeys(store: Store, extra: Store, d: ControllerSettings)
    requires extra.Keys !! StoreKeys
    ensures Loaded(store + extra, d) == Loaded(store, d)
  {
    forall f ensures Get(Loaded(store + extra, d), f) == Get(Loaded(store, d), f) {
      KeysDistinct(f, f);
      LoadedField(store + extra, d, f);
      LoadedField(store, d, f);
    }
    SameFields(Loaded(store + extra, d), Loaded(store, d));
  }

  /** The settings record and the Preferences namespace it is persisted to. */
  class SettingsManager {
    /** The compiled `DEFAULT_*` constants. */
    const defaults: ControllerSettings
    /** The active settings. */
    var settings: ControllerSettings
    /** Set whenever the settings change; only the control loop (not modelled) clears it. */
    var pendingApply: bool
    /** The "r2d2cfg" namespace of the non-volatile store. */
    var store: Store

    /** `persisted` is what the non-volatile store holds at power-up. */
    constructor (defaults: ControllerSettings, persisted: Store)
      ensures this.defaults == defaults
      ensures settings == defaults && !pendingApply && store == persisted
    {
      this.defaults := defaults;
      settings := defaults;
      pendingApply := false;
      store := persisted;
    }

    method SetDefaults()
      modifies this`settings
      ensures settings == defaults
    {
      settings := settings.(powerMultiplier := defaults.powerMultiplier);
      settings := settings.(moveLegDnPower := defaults.moveLegDnPower);
      settings := settings.(moveLegUpPower := defaults.moveLegUpPower);
      settings := settings.(moveTiltDnPower := defaults.moveTiltDnPower);
      settings := settings.(moveTiltUpPower := defaults.moveTiltUpPower);
      settings := settings.(twoToThreeLegPower := defaults.twoToThreeLegPower);
      settings := settings.(twoToThreeTiltPower := defaults.twoToThreeTiltPower);
      settings := settings.(threeToTwoLegSlowPower := defaults.threeToTwoLegSlowPower);
      settings := settings.(threeToTwoLegFastPower := defaults.threeToTwoLegFastPower);
      settings := settings.(threeToTwoTiltPower := defaults.threeToTwoTiltPower);
      settings := settings.(stanceInterval := defaults.stanceInterval);
      settings := settings.(showTimeInterval := defaults.showTimeInterval);
      settings := settings.(commandEnableTimeout := defaults.commandEnableTimeout);
      settings := settings.(buttonDebounceTime := defaults.buttonDebounceTime);
      settings := settings.(phase1Start := defaults.phase1Start);
      settings := settings.(phase1End := defaults.phase1End);
      settings := settings.(phase2Start := defaults.phase2Start);
    }

    /** Reads every field from the store, falling back to its default field by field. */
    method Load()
      modifies this`settings
      ensures settings == Loaded(store, defaults)
    {
      SetDefaults();
      settings := settings.(powerMultiplier := GetUChar(store, "pwrMult", settings.powerMultiplier));
      settings := settings.(moveLegDnPower := GetShort(store, "legDnPwr", settings.moveLegDnPower));
      settings := settings.(moveLegUpPower := GetShort(store, "legUpPwr", settings.moveLegUpPower));
      settings := settings.(moveTiltDnPower := GetShort(store, "tiltDnPwr", settings.moveTiltDnPower));
      settings := settings.(moveTiltUpPower := GetShort(store, "tiltUpPwr", settings.moveTiltUpPower));
      settings := settings.(twoToThreeLegPower := GetShort(store, "23legPwr", settings.twoToThreeLegPower));
      settings := settings.(twoToThreeTiltPower := GetShort(store, "23tiltPwr", settings.twoToThreeTiltPower));
      settings := settings.(threeToTwoLegSlowPower := GetShort(store, "32legSlwPwr", settings.threeToTwoLegSlowPower));
      settings := settings.(threeToTwoLegFastPower := GetShort(store, "32legFstPwr", settings.threeToTwoLegFastPower));
      settings := settings.(threeToTwoTiltPower := GetShort(store, "32tiltPwr", settings.threeToTwoTiltPower));
      settings := settings.(stanceInterval := GetUShort(store, "stanceInt", settings.stanceInterval));
      settings := settings.(showTimeInterval := GetUShort(store, "showTimeInt", settings.showTimeInterval));
      settings := settings.(commandEnableTimeout := GetULong(store, "cmdTimeout", settings.commandEnableTimeout));
      settings := settings.(buttonDebounceTime := GetUShort(store, "btnDebounce", settings.buttonDebounceTime));
      settings := settings.(phase1Start := GetUShort(store, "ph1Start", settings.phase1Start));
      settings := settings.(phase1End := GetUShort(store, "ph1End", settings.phase1End));
      settings := settings.(phase2Start := GetUShort(store, "ph2Start", settings.phase2Start));
    }

    /** Writes all 17 fields under their keys and flags the change. */
    method Save()
      modifies this`store, this`pendingApply
      ensures store == SaveInto(old(store), settings)
      ensures pendingApply
    {
      store := store["pwrMult" := UChar(settings.powerMultiplier)];
      store := store["legDnPwr" := Short(settings.moveLegDnPower)];
      store := store["legUpPwr" := Short(settings.moveLegUpPower)];
      store := store["tiltDnPwr" := Short(settings.moveTiltDnPower)];
      store := store["tiltUpPwr" := Short(settings.moveTiltUpPower)];
      store := store["23legPwr" := Short(settings.twoToThreeLegPower)];
      store := store["23tiltPwr" := Short(settings.twoToThreeTiltPower)];
      store := store["32legSlwPwr" := Short(settings.threeToTwoLegSlowPower)];
      store := store["32legFstPwr" := Short(settings.threeToTwoLegFastPower)];
      store := store["32tiltPwr" := Short(settings.threeToTwoTiltPower)];
      store := store["stanceInt" := UShort(settings.stanceInterval)];
      store := store["showTimeInt" := UShort(settings.showTimeInterval)];
      store := store["cmdTimeout" := ULong(settings.commandEnableTimeout)];
      store := store["btnDebounce" := UShort(settings.buttonDebounceTime)];
      store := store["ph1Start" := UShort(settings.phase1Start)];
      store := store["ph1End" := UShort(settings.phase1End)];
      store := store["ph2Start" := UShort(settings.phase2Start)];
      pendingApply := true;
    }

    /** Erases the whole namespace, restores the defaults and flags the change. */
    method ResetToDefaults()
      modifies this
      ensures store == map[] && settings == defaults && pendingApply
    {
      store := map[];
      SetDefaults();
      pendingApply := true;
    }
  }

  /** Saving and then loading leaves the manager's settings as they were. */
  method SaveThenReload(m: SettingsManager)
    modifies m
    ensures m.settings == old(m.settings) && m.pendingApply
    ensures m.store == SaveInto(old(m.store), old(m.settings))
  {
    m.Save();
    m.Load();
    SaveThenLoad(old(m.store), old(m.settings), m.defaults);
  }

  /** After a reset, a later load (for instance at the next power-up) yields the defaults. */
  method ResetThenReload(m: SettingsManager)
    modifies m
    ensures m.settings == m.defaults && m.store == map[] && m.pendingApply
  {
    m.ResetToDefaults();
    m.Load();
    LoadFromEmpty(m.defaults);
  }
}
