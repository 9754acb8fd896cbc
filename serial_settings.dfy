/** The link-settings commands (`src-tauri/src/settings/serial.rs`) over the
    `settings` field of the serial session. The file re-declares the
    one-field `SerialSettings` record of `settings.rs`; the model uses that
    one definition, `Settings.SerialSettings`. */
module SerialSettingsCommands {
  import opened Common
  import opened Settings
  import opened Serial

  /** `get_serial_settings`: always succeeds with the stored settings. */
  method GetSerialSettings(serial: SerialData) returns (r: Result<SerialSettings, string>)
    ensures r.Ok? && r.value == serial.settings
  {
    r := Ok(serial.settings);
  }

  /** `set_serial_settings`: always succeeds and replaces the settings
      wholesale, without touching the transcript or the connected port. */
  method SetSerialSettings(serial: SerialData, settings: SerialSettings) returns (r: Result<(), string>)
    modifies serial
    ensures serial.settings == settings && r == Ok(())
    ensures serial.content == old(serial.content) && serial.connectedPort == old(serial.connectedPort)
  {
    serial.settings := settings;
    r := Ok(());
  }

  /** A get after a set returns exactly the value that was set. */
  method SetThenGetSerialSettings(serial: SerialData, settings: SerialSettings)
    returns (r: Result<SerialSettings, string>)
    modifies serial
    ensures r == Ok(settings)
  {
    var _ := SetSerialSettings(serial, settings);
    r := GetSerialSettings(serial);
  }
}
