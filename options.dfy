/** The LoRa and deployment option panels of the front end
    (`src/utils/options.tsx`) and the shared, nullable device-settings value
    they edit (`src/context/SettingsProvider.tsx`).

    The front end receives device settings as the host serialises them: an
    object with a `type` tag and a `data` object. Nothing in JavaScript ties
    the keys present in `data` to the tag, so the model keeps both keys
    optional and states the well-shaped case as a predicate. */
module Options {
  import opened Common
  import Settings
  import Device

  /** The front end's LoRa record: plain numbers. */
  datatype LoraSettings = LoraSettings(
    frequency: int,
    bandwidth: int,
    spreadingFactor: int,
    syncWord: int,
    codingRate: int)

  /** The front end's deployment record. */
  datatype DeploymentSettings = DeploymentSettings(
    apogee: bool,
    main: bool,
    apogeeDelay: real,
    mainAltitude: real)

  /** The `data` object: which of the two keys it has, and their values. */
  datatype Data = Data(lora: Option<LoraSettings>, deployment: Option<DeploymentSettings>)

  /** The device settings object: the `type` tag and the `data` object. */
  datatype DeviceSettings = DeviceSettings(kind: string, data: Data)

  /** The object has exactly the payload its tag calls for. */
  predicate WellShaped(settings: DeviceSettings)
  {
    || (settings.kind == "Entangler" && settings.data.lora.Some? && settings.data.deployment.None?)
    || (settings.kind == "Warp" && settings.data.deployment.Some? && settings.data.lora.None?)
  }

  /** The host's settings as the front end receives them (the serde
      `tag = "type"`, `content = "data"` form). */
  function FromHost(settings: Device.DeviceSettings): (r: DeviceSettings)
    ensures WellShaped(r) && r.kind == Device.VariantName(settings)
    ensures settings.Entangler? <==> r.data.lora.Some?
    ensures settings.Warp? <==> r.data.deployment.Some?
  {
    match settings
    case Entangler(e) =>
      var l := e.lora;
      DeviceSettings("Entangler", Data(Some(LoraSettings(l.frequency, l.bandwidth, l.spreadingFactor, l.syncWord, l.codingRate)), None))
    case Warp(w) =>
      var d := w.deployment;
      DeviceSettings("Warp", Data(None, Some(DeploymentSettings(d.apogee, d.main, d.apogeeDelay, d.mainAltitude))))
  }

  // ---------------------------------------------------------------------
  // Field access and single-field update (`{...record, [key]: value}`)
  // ---------------------------------------------------------------------

  datatype LoraField = Frequency | Bandwidth | SpreadingFactor | SyncWord | CodingRate

  function LoraGet(l: LoraSettings, key: LoraField): int
  {
    match key
    case Frequency => l.frequency
    case Bandwidth => l.bandwidth
    case SpreadingFactor => l.spreadingFactor
    case SyncWord => l.syncWord
    case CodingRate => l.codingRate
  }

  /** The spread with one computed key: that key takes the value and every
      other key keeps its own. */
  function WithLoraField(l: LoraSettings, key: LoraField, value: int): (r: LoraSettings)
    ensures LoraGet(r, key) == value
    ensures forall k :: k != key ==> LoraGet(r, k) == LoraGet(l, k)
  {
    match key
    case Frequency => l.(frequency := value)
    case Bandwidth => l.(bandwidth := value)
    case SpreadingFactor => l.(spreadingFactor := value)
    case SyncWord => l.(syncWord := value)
    case CodingRate => l.(codingRate := value)
  }

  datatype DeploymentField = Apogee | Main | ApogeeDelay | MainAltitude

  /** A deployment field's value: the two toggles are flags, the delay and
      the altitude are numbers. */
  datatype FieldValue = Flag(on: bool) | Amount(x: real)

  /** An edit of one deployment field, its value of the field's own type. */
  datatype DeploymentEdit =
    | SetApogee(on: bool)
    | SetMain(on: bool)
    | SetApogeeDelay(seconds: real)
    | SetMainAltitude(metres: real)
  {
    function Key(): DeploymentField
    {
      match this
      case SetApogee(_) => Apogee
      case SetMain(_) => Main
      case SetApogeeDelay(_) => ApogeeDelay
      case SetMainAltitude(_) => MainAltitude
    }

    function Value(): FieldValue
    {
      match this
      case SetApogee(on) => Flag(on)
      case SetMain(on) => Flag(on)
      case SetApogeeDelay(seconds) => Amount(seconds)
      case SetMainAltitude(metres) => Amount(metres)
    }
  }

  function DeploymentGet(d: DeploymentSettings, key: DeploymentField): FieldValue
  {
    match key
    case Apogee => Flag(d.apogee)
    case Main => Flag(d.main)
    case ApogeeDelay => Amount(d.apogeeDelay)
    case MainAltitude => Amount(d.mainAltitude)
  }

  /** The spread with one computed key, for the deployment record. */
  function WithDeploymentField(d: DeploymentSettings, edit: DeploymentEdit): (r: DeploymentSettings)
    ensures DeploymentGet(r, edit.Key()) == edit.Value()
    ensures forall k :: k != edit.Key() ==> DeploymentGet(r, k) == DeploymentGet(d, k)
  {
    match edit
    case SetApogee(on) => d.(apogee := on)
    case SetMain(on) => d.(main := on)
    case SetApogeeDelay(seconds) => d.(apogeeDelay := seconds)
    case SetMainAltitude(metres) => d.(mainAltitude := metres)
  }

  // ---------------------------------------------------------------------
  // The panels' guards and update handlers
  // ---------------------------------------------------------------------

  const LoraLoadError := "Failed to load LoRa settings."
  const DeploymentLoadError := "Failed to load Deployment settings."

  /** What the LoRa panel shows: the LoRa record, or the load error when
      there are no settings or they carry no `lora` key. */
  function LoraPanel(current: Option<DeviceSettings>): (r: Result<LoraSettings, string>)
    ensures r.Ok? <==> current.Some? && current.value.data.lora.Some?
    ensures r.Ok? ==> r.value == current.value.data.lora.value
    ensures r.Err? ==> r.error == LoraLoadError
  {
    if current.Some? && current.value.data.lora.Some? then Ok(current.value.data.lora.value)
    else Err(LoraLoadError)
  }

  /** What the deployment panel shows, by the same guard on `deployment`. */
  function DeploymentPanel(current: Option<DeviceSettings>): (r: Result<DeploymentSettings, string>)
    ensures r.Ok? <==> current.Some? && current.value.data.deployment.Some?
    ensures r.Ok? ==> r.value == current.value.data.deployment.value
    ensures r.Err? ==> r.error == DeploymentLoadError
  {
    if current.Some? && current.value.data.deployment.Some? then Ok(current.value.data.deployment.value)
    else Err(DeploymentLoadError)
  }

  /** `updateLoRaSetting(key, value)`: the settings that the handler hands to
      `setDeviceSettings`, or the current ones when it does not call it (no
      setter, no settings, or no `lora` key). The new object keeps the tag and
      every other top-level key; its `data` holds the edited `lora` only. */
  function UpdateLoRa(current: Option<DeviceSettings>, setterPresent: bool, key: LoraField, value: int)
    : (next: Option<DeviceSettings>)
    ensures !setterPresent || LoraPanel(current).Err? ==> next == current
    ensures setterPresent && LoraPanel(current).Ok? ==>
              next.Some? && next.value.kind == current.value.kind
              && next.value.data.deployment.None?
              && next.value.data.lora == Some(WithLoraField(LoraPanel(current).value, key, value))
  {
    if setterPresent && current.Some? && current.value.data.lora.Some? then
      var s := current.value;
      Some(s.(data := Data(Some(WithLoraField(s.data.lora.value, key, value)), None)))
    else current
  }

  /** `updateDeploymentSetting(key, value)`, by the same pattern. */
  function UpdateDeployment(current: Option<DeviceSettings>, setterPresent: bool, edit: DeploymentEdit)
    : (next: Option<DeviceSettings>)
    ensures !setterPresent || DeploymentPanel(current).Err? ==> next == current
    ensures setterPresent && DeploymentPanel(current).Ok? ==>
              next.Some? && next.value.kind == current.value.kind
              && next.value.data.lora.None?
              && next.value.data.deployment == Some(WithDeploymentField(DeploymentPanel(current).value, edit))
  {
    if setterPresent && current.Some? && current.value.data.deployment.Some? then
      var s := current.value;
      Some(s.(data := Data(None, Some(WithDeploymentField(s.data.deployment.value, edit)))))
    else current
  }

  /** Variant isolation: on well-shaped settings an edit keeps the shape and
      the tag; a LoRa edit never touches a Warp board's settings and a
      deployment edit never touches an Entangler board's. */
  lemma UpdatesKeepShape(current: DeviceSettings, key: LoraField, value: int, edit: DeploymentEdit)
    requires WellShaped(current)
    ensures var next := UpdateLoRa(Some(current), true, key, value);
            next.Some? && WellShaped(next.value) && next.value.kind == current.kind
    ensures var next := UpdateDeployment(Some(current), true, edit);
            next.Some? && WellShaped(next.value) && next.value.kind == current.kind
    ensures current.kind == "Warp" ==> UpdateLoRa(Some(current), true, key, value) == Some(current)
    ensures current.kind == "Entangler" ==> UpdateDeployment(Some(current), true, edit) == Some(current)
  {
  }

  /** Applying the same edit twice leaves the settings as applying it once. */
  lemma UpdatesIdempotent(current: Option<DeviceSettings>, setterPresent: bool, key: LoraField, value: int,
                          edit: DeploymentEdit)
    ensures var once := UpdateLoRa(current, setterPresent, key, value);
            UpdateLoRa(once, setterPresent, key, value) == once
    ensures var once := UpdateDeployment(current, setterPresent, edit);
            UpdateDeployment(once, setterPresent, edit) == once
  {
  }

  /** An edit made in the panel matches the same edit made on the host's
      record: editing the received form of an Entangler's settings gives the
      received form of the host settings with that one field replaced. */
  lemma FrequencyEditMatchesHost(lora: Settings.LoRaSettings, frequency: Common.u32)
    ensures var host := Device.Entangler(Device.EntanglerSettings(lora));
            var edited := Device.Entangler(Device.EntanglerSettings(lora.(frequency := frequency)));
            UpdateLoRa(Some(FromHost(host)), true, Frequency, frequency) == Some(FromHost(edited))
  {
  }

  // ---------------------------------------------------------------------
  // The values the panels offer
  // ---------------------------------------------------------------------

  const SpreadingFactorOptions: seq<int> := [7, 8, 9, 10, 11, 12]
  const CodingRateOptions: seq<int> := [5, 6, 7, 8]
  const BandwidthOptions: seq<int> :=
    [7800, 10400, 15600, 20800, 31250, 41700, 62500, 125000, 250000, 500000]

  /** The offered spreading factors are 7 to 12 and the coding rates 4/5 to
      4/8; every offered bandwidth is a LoRa bandwidth between 7.8 kHz and
      500 kHz, listed in increasing order. */
  lemma OfferedDomains(x: int)
    ensures x in SpreadingFactorOptions <==> 7 <= x <= 12
    ensures x in CodingRateOptions <==> 5 <= x <= 8
    ensures x in BandwidthOptions ==> 7800 <= x <= 500000
    ensures forall i, j :: 0 <= i < j < |BandwidthOptions| ==> BandwidthOptions[i] < BandwidthOptions[j]
  {
  }

  // ---------------------------------------------------------------------
  // The shared store and the panels acting on it
  // ---------------------------------------------------------------------

  /** The settings context: the nullable device settings that every panel
      reads and replaces, and the messages passed to `showError`, in order. */
  class SettingsStore {
    var deviceSettings: Option<DeviceSettings>
    var errors: seq<string>

    /** The provider starts with no settings. */
    constructor ()
      ensures deviceSettings == None && errors == []
    {
      deviceSettings := None;
      errors := [];
    }

    /** `setDeviceSettings`: the value is replaced wholesale. */
    method SetDeviceSettings(settings: Option<DeviceSettings>)
      modifies this
      ensures deviceSettings == settings && errors == old(errors)
    {
      deviceSettings := settings;
    }

    /** Rendering the LoRa panel: its guard reports the load error when it
        fails; it never changes the settings. */
    method RenderLoraOptions() returns (view: Result<LoraSettings, string>)
      modifies this
      ensures view == LoraPanel(deviceSettings) && deviceSettings == old(deviceSettings)
      ensures errors == old(errors) + (if view.Err? then [LoraLoadError] else [])
    {
      view := LoraPanel(deviceSettings);
      if view.Err? {
        errors := errors + [view.error];
      }
    }

    /** Rendering the deployment panel, by the same guard. */
    method RenderDeploymentOptions() returns (view: Result<DeploymentSettings, string>)
      modifies this
      ensures view == DeploymentPanel(deviceSettings) && deviceSettings == old(deviceSettings)
      ensures errors == old(errors) + (if view.Err? then [DeploymentLoadError] else [])
    {
      view := DeploymentPanel(deviceSettings);
      if view.Err? {
        errors := errors + [view.error];
      }
    }

    /** The LoRa panel's change handler for one field. */
    method UpdateLoRaSetting(key: LoraField, value: int, setterPresent: bool)
      modifies this
      ensures deviceSettings == UpdateLoRa(old(deviceSettings), setterPresent, key, value)
      ensures errors == old(errors)
    {
      deviceSettings := UpdateLoRa(deviceSettings, setterPresent, key, value);
    }

    /** The deployment panel's change handler for one field. */
    method UpdateDeploymentSetting(edit: DeploymentEdit, setterPresent: bool)
      modifies this
      ensures deviceSettings == UpdateDeployment(old(deviceSettings), setterPresent, edit)
      ensures errors == old(errors)
    {
      deviceSettings := UpdateDeployment(deviceSettings, setterPresent, edit);
    }
  }
}
