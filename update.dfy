/** The firmware update entity of car diffusers: the installed version the
    device reports and the latest version parsed from the vendor's firmware
    details. */
module Update {
  import opened Text
  import opened PyJson
  import opened Entity
  import opened Firmware

  /** Only cars get a firmware entity. */
  const UpdateGroups: seq<(Group, seq<string>)> := [(Names(["car"]), ["firmware"])]

  /** The entity is made for car devices and no others. */
  lemma UpdatePerCategory()
    ensures KeysFor("car", UpdateGroups) == ["firmware"]
    ensures KeysFor("wall", UpdateGroups) == []
    ensures KeysFor("plus", UpdateGroups) == []
    ensures KeysFor("mini", UpdateGroups) == []
  {
  }

  /** `installed_version`: the device's `fw_version`, None when it has none. */
  function InstalledVersion(device: Json): (r: Py<Json>)
    ensures r.Ok? <==> device.Object?
    ensures r.Ok? ==> r.value == ValueAt(device, "fw_version")
  {
    Get(device, "fw_version", Null)
  }

  /** The version `async_update` computes from the result of
      `get_latest_firmware_details("car", "v1")`: the details parsed line by
      line into a dict, then major, minor and patch joined with dots. */
  function VersionOf(details: Py<string>): (r: Py<string>)
    ensures r.Ok? ==> details.Ok? && Parse(details.value).Ok? && r == LatestVersion(Parse(details.value).value)
    ensures details.Ok? && Parse(details.value).Ok? ==> r == LatestVersion(Parse(details.value).value)
  {
    var text :- details;
    var firmware :- Parse(text);
    LatestVersion(firmware)
  }

  /** Details written out from a dict with a major, minor and patch part give
      those parts back, joined with dots. */
  lemma VersionOfRendered(fs: seq<Field>)
    requires Renderable(fs)
    requires LatestVersion(fs).Ok?
    ensures VersionOf(Ok(Render(fs))) == LatestVersion(fs)
  {
    ParseRender(fs);
  }

  /** Details ending in a newline have an empty last line, which has no `=`,
      so no version is ever read from them. */
  lemma TrailingNewlineNoVersion(details: string)
    ensures VersionOf(Ok(details + "\n")).Raise?
  {
    TrailingNewlineFails(details);
  }

  class PuraUpdateEntity {
    /** `_attr_latest_version`: None until an update succeeds. */
    var latestVersion: Option<string>

    constructor()
      ensures latestVersion == None
    {
      latestVersion := None;
    }

    /** `async_update`: a version computed from the details replaces the
        latest version; any exception is logged and swallowed, and the
        latest version stays as it was. */
    method AsyncUpdate(details: Py<string>)
      modifies this
      ensures VersionOf(details).Ok? ==> latestVersion == Some(VersionOf(details).value)
      ensures VersionOf(details).Raise? ==> latestVersion == old(latestVersion)
    {
      match VersionOf(details)
      case Ok(version) =>
        latestVersion := Some(version);
      case Raise(_) =>
    }
  }
}
