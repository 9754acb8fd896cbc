/** Variant device settings and their commands
    (`src-tauri/src/settings/device.rs`). The settings are a sum type: an
    Entangler board carries LoRa radio settings and nothing else, a Warp board
    carries deployment settings and nothing else. The application state holds
    them as an optional value, absent until a board is chosen or downloaded.
    The LoRa and deployment records are the ones of `settings.rs`, which this
    file declares again field for field. */
module Device {
  import opened Common
  import opened Settings
  import Serial

  datatype EntanglerSettings = EntanglerSettings(lora: LoRaSettings)
  datatype WarpSettings = WarpSettings(deployment: DeploymentSettings)

  datatype DeviceSettings = Entangler(entangler: EntanglerSettings) | Warp(warp: WarpSettings)

  const DefaultEntangler := Entangler(EntanglerSettings(DefaultLoRa))
  const DefaultWarp := Warp(WarpSettings(DefaultDeployment))

  /** The variant's tag, as the front end sees it in the `type` field. */
  function VariantName(settings: DeviceSettings): string
  {
    match settings
    case Entangler(_) => "Entangler"
    case Warp(_) => "Warp"
  }

  /** `get_device_variants`: one default instance of each variant, in order.
      The Entangler's radio numbers are all 0; the Warp's flags are both
      false and its quantities both 0. */
  function DeviceVariants(): (variants: seq<DeviceSettings>)
    ensures |variants| == 2
    ensures variants[0].Entangler? && variants[1].Warp?
    ensures variants[0].entangler.lora.frequency == 0 && variants[0].entangler.lora.bandwidth == 0
    ensures variants[0].entangler.lora.spreadingFactor == 0 && variants[0].entangler.lora.syncWord == 0
    ensures variants[0].entangler.lora.codingRate == 0
    ensures !variants[1].warp.deployment.apogee && !variants[1].warp.deployment.main
    ensures variants[1].warp.deployment.apogeeDelay == 0.0 && variants[1].warp.deployment.mainAltitude == 0.0
  {
    [DefaultEntangler, DefaultWarp]
  }

  /** The settings `set_device_variant` selects for a tag: the default
      instance of the variant with that name, or an error naming the tag. */
  function VariantFromName(device: string): (r: Result<DeviceSettings, string>)
    ensures r.Ok? ==> VariantName(r.value) == device
    ensures r.Err? ==> r.error == "No matching device in backend: " + device
  {
    match device
    case "Entangler" => Ok(DefaultEntangler)
    case "Warp" => Ok(DefaultWarp)
    case _ => Err("No matching device in backend: " + device)
  }

  /** The tags the front end reads off `get_device_variants` are exactly the
      names `set_device_variant` accepts, and selecting one stores the very
      instance that was listed. */
  lemma VariantNamesRoundTrip(device: string)
    ensures VariantFromName(device).Ok? <==>
            exists i :: 0 <= i < |DeviceVariants()| && VariantName(DeviceVariants()[i]) == device
    ensures forall i :: 0 <= i < |DeviceVariants()| ==>
              VariantFromName(VariantName(DeviceVariants()[i])) == Ok(DeviceVariants()[i])
  {
    if device == "Entangler" {
      assert VariantName(DeviceVariants()[0]) == device;
    } else if device == "Warp" {
      assert VariantName(DeviceVariants()[1]) == device;
    }
  }

  /** The `board_settings` field of the application state, in its
      `Option<DeviceSettings>` form. */
  class DeviceState {
    var boardSettings: Option<DeviceSettings>

    constructor ()
      ensures boardSettings == None
    {
      boardSettings := None;
    }

    /** `get_device_settings`: the stored settings, or an error when none
        are stored; it changes nothing. */
    method GetDeviceSettings() returns (r: Result<DeviceSettings, string>)
      ensures boardSettings.Some? ==> r == Ok(boardSettings.value)
      ensures boardSettings.None? ==> r == Err("No board selected")
    {
      match boardSettings
      case Some(s) => r := Ok(s);
      case None => r := Err("No board selected");
    }

    /** `set_device_settings`: the stored value is replaced wholesale. */
    method SetDeviceSettings(settings: DeviceSettings)
      modifies this
      ensures boardSettings == Some(settings)
    {
      boardSettings := Some(settings);
    }

    /** `upload_device_settings`: never succeeds and never changes the
        stored settings; the error says whether a port is connected. */
    method UploadDeviceSettings(settings: DeviceSettings, serial: Serial.SerialData)
      returns (r: Result<(), string>)
      ensures r.Err?
      ensures serial.connectedPort.None? ==> r.error == "No device connected"
      ensures serial.connectedPort.Some? ==> r.error == "Upload not implemented"
    {
      if serial.connectedPort.None? {
        return Err("No device connected");
      }
      return Err("Upload not implemented");
    }

    /** `download_device_settings`: without a connected port it fails and
        changes nothing; otherwise it stores a default Entangler and returns
        exactly what it stored. */
    method DownloadDeviceSettings(serial: Serial.SerialData) returns (r: Result<DeviceSettings, string>)
      modifies this
      ensures serial.connectedPort.None? ==>
                r == Err("No device connected") && boardSettings == old(boardSettings)
      ensures serial.connectedPort.Some? ==>
                boardSettings == Some(DefaultEntangler) && r == Ok(boardSettings.value)
    {
      if serial.connectedPort.None? {
        return Err("No device connected");
      }
      boardSettings := Some(DefaultEntangler);
      r := Ok(boardSettings.value);
    }

    /** `set_device_variant`: a known tag stores that variant's default
        instance; any other tag is refused before the state is touched. */
    method SetDeviceVariant(device: string) returns (r: Result<(), string>)
      modifies this
      ensures VariantFromName(device).Ok? ==>
                r == Ok(()) && boardSettings == Some(VariantFromName(device).value)
      ensures VariantFromName(device).Err? ==>
                r == Err(VariantFromName(device).error) && boardSettings == old(boardSettings)
    {
      var settings := VariantFromName(device);
      if settings.Err? {
        return Err(settings.error);
      }
      boardSettings := Some(settings.value);
      r := Ok(());
    }

    /** A get after a set returns exactly the value that was set. */
    method SetThenGetDeviceSettings(settings: DeviceSettings) returns (r: Result<DeviceSettings, string>)
      modifies this
      ensures r == Ok(settings)
    {
      SetDeviceSettings(settings);
      r := GetDeviceSettings();
    }
  }
}
