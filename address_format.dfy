/** `shortenAddress`: the abbreviated form of an account address shown in notifications. */
module AddressFormat {
  import opened JsString

  /**
   * The empty address stays empty; any other address becomes its first six
   * characters, "...", and its last four (`substring` clamps both for short
   * addresses, so these may overlap or be the whole address).
   */
  function ShortenAddress(address: string): (r: string)
    ensures address == "" ==> r == ""
    ensures address != "" ==>
      var head := if |address| < 6 then |address| else 6;
      var tail := if |address| < 4 then |address| else 4;
      && |r| == head + 3 + tail
      && r[..head] == address[..head]
      && r[head..head + 3] == "..."
      && r[head + 3..] == address[|address| - tail..]
  {
    if address == "" then ""
    else Substring(address, 0, 6) + "..." + Substring(address, |address| - 4, |address|)
  }

  /** A full-length address (ten characters or more) abbreviates to exactly thirteen. */
  lemma ShortenedLongAddress(address: string)
    requires |address| >= 10
    ensures var r := ShortenAddress(address);
      && |r| == 13
      && r[..6] == address[..6]
      && r[6..9] == "..."
      && r[9..] == address[|address| - 4..]
  {
  }
}
