/** The host's legacy board settings (`src-tauri/src/settings.rs`): the LoRa
    radio and deployment records, the serial link settings, and the commands
    over the single `BoardSettings` value held in the application state. */
module Settings {
  import opened Common

  /** LoRa radio parameters, at their Rust widths. */
  datatype LoRaSettings = LoRaSettings(
    frequency: u32,
    bandwidth: u32,
    spreadingFactor: u8,
    syncWord: u8,
    codingRate: u8)

  /** Parachute deployment parameters. The two `f32` quantities are kept as
      reals: the commands only store, compare and copy them. */
  datatype DeploymentSettings = DeploymentSettings(
    apogee: bool,
    main: bool,
    apogeeDelay: real,
    mainAltitude: real)

  datatype BoardSettings = BoardSettings(lora: LoRaSettings, deployment: DeploymentSettings)

  /** The serial link settings: only the baud rate. */
  datatype SerialSettings = SerialSettings(baudRate: u32)

  /** The derived `Default` values: every number 0, every flag false. */
  const DefaultLoRa := LoRaSettings(0, 0, 0, 0, 0)
  const DefaultDeployment := DeploymentSettings(false, false, 0.0, 0.0)
  const DefaultBoardSettings := BoardSettings(DefaultLoRa, DefaultDeployment)
  const DefaultSerialSettings := SerialSettings(0)

  /** The `board_settings` field of the application state. */
  class LegacySettings {
    var boardSettings: BoardSettings

    /** The state starts from `BoardSettings::default()`. */
    constructor ()
      ensures boardSettings.lora.frequency == 0 && boardSettings.lora.bandwidth == 0
      ensures boardSettings.lora.spreadingFactor == 0 && boardSettings.lora.syncWord == 0
      ensures boardSettings.lora.codingRate == 0
      ensures !boardSettings.deployment.apogee && !boardSettings.deployment.main
      ensures boardSettings.deployment.apogeeDelay == 0.0 && boardSettings.deployment.mainAltitude == 0.0
    {
      boardSettings := DefaultBoardSettings;
    }

    /** `get_board_settings`: always succeeds with a copy of the stored value. */
    method GetBoardSettings() returns (r: Result<BoardSettings, string>)
      ensures r.Ok? && r.value == boardSettings
    {
      r := Ok(boardSettings);
    }

    /** `upload_board_settings`: a stub that always fails. With no `modifies`
        clause it cannot change the state. */
    method UploadBoardSettings(settings: BoardSettings) returns (r: Result<(), string>)
      ensures r.Err? && r.error == "Upload not implemented"
    {
      r := Err("Upload not implemented");
    }

    /** `download_board_settings`: a stub that always fails and changes nothing. */
    method DownloadBoardSettings() returns (r: Result<BoardSettings, string>)
      ensures r.Err? && r.error == "Download not implemented"
    {
      r := Err("Download not implemented");
    }

    /** `set_lora_frequency`: the one field is replaced and nothing else moves. */
    method SetLoraFrequency(frequency: u32) returns (r: Result<string, string>)
      modifies this
      ensures boardSettings.lora.frequency == frequency
      ensures boardSettings.lora.bandwidth == old(boardSettings.lora.bandwidth)
      ensures boardSettings.lora.spreadingFactor == old(boardSettings.lora.spreadingFactor)
      ensures boardSettings.lora.syncWord == old(boardSettings.lora.syncWord)
      ensures boardSettings.lora.codingRate == old(boardSettings.lora.codingRate)
      ensures boardSettings.deployment == old(boardSettings.deployment)
      ensures r == Ok("")
    {
      boardSettings := boardSettings.(lora := boardSettings.lora.(frequency := frequency));
      r := Ok("");
    }

    /** `set_lora_bandwidth`: takes no value, succeeds and changes nothing. */
    method SetLoraBandwidth() returns (r: Result<string, string>)
      ensures r.Ok? && r.value == ""
    {
      r := Ok("");
    }

    /** `set_lora_spreading_factor`: succeeds and changes nothing. */
    method SetLoraSpreadingFactor() returns (r: Result<string, string>)
      ensures r.Ok? && r.value == ""
    {
      r := Ok("");
    }

    /** `set_lora_sync_word`: succeeds and changes nothing. */
    method SetLoraSyncWord() returns (r: Result<string, string>)
      ensures r.Ok? && r.value == ""
    {
      r := Ok("");
    }
  }
}
