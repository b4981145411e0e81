/** `get_house_system_code`: the name of a house system to the one-letter
    code the Swiss Ephemeris expects, and ValueError for any other name. */
module HouseSystems {
  import opened Wrappers

  /** The `house_system_codes` dictionary. */
  const HouseSystemCodes: map<string, string> := map[
    "Placidus" := "P",
    "Whole Sign" := "W",
    "Regiomontanus" := "R",
    "Koch" := "K",
    "Porphyry" := "O",
    "Equal (MC)" := "E",
    "Axial Rotation" := "X",
    "Horizontal System" := "H"
  ]

  /** `.get` gives None for a missing name, and `not code` then raises; an
      empty code would raise too, but the table holds none. */
  function GetHouseSystemCode(houseSystemName: string): (r: Result<string, PyError>)
    ensures r.Success? <==> houseSystemName in HouseSystemCodes
    ensures r.Success? ==> |r.value| == 1
    ensures r.Failure? ==> r.error == ValueError("Unsupported house system: " + houseSystemName)
  {
    if houseSystemName in HouseSystemCodes && HouseSystemCodes[houseSystemName] != "" then
      Success(HouseSystemCodes[houseSystemName])
    else
      Failure(ValueError("Unsupported house system: " + houseSystemName))
  }

  /** The reverse table, written out independently: which house system a
      code stands for. */
  function HouseSystemOfCode(code: string): Option<string> {
    if code == "P" then Some("Placidus")
    else if code == "W" then Some("Whole Sign")
    else if code == "R" then Some("Regiomontanus")
    else if code == "K" then Some("Koch")
    else if code == "O" then Some("Porphyry")
    else if code == "E" then Some("Equal (MC)")
    else if code == "X" then Some("Axial Rotation")
    else if code == "H" then Some("Horizontal System")
    else None
  }

  /** The lookup and the reverse table are inverses, in both directions. */
  lemma HouseSystemCodeRoundTrip(houseSystemName: string, code: string)
    ensures GetHouseSystemCode(houseSystemName) == Success(code)
        <==> HouseSystemOfCode(code) == Some(houseSystemName)
  {
  }

  /** No two house systems share a code. */
  lemma HouseSystemCodeInjective(a: string, b: string)
    requires GetHouseSystemCode(a).Success? && GetHouseSystemCode(b).Success?
    requires GetHouseSystemCode(a).value == GetHouseSystemCode(b).value
    ensures a == b
  {
    HouseSystemCodeRoundTrip(a, GetHouseSystemCode(a).value);
    HouseSystemCodeRoundTrip(b, GetHouseSystemCode(b).value);
  }
}
