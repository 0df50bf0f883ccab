/** `TssConfig`: the options bound from configuration; the callback URL is computed from the
    port each time it is read. */
module Config {

  import opened Wrappers
  import opened Decimal

  newtype Int32 = x: int | -0x8000_0000 <= x < 0x8000_0000

  const DefaultCallbackPort: Int32 := 8123
  const UrlPrefix: string := "http://localhost:"
  const UrlSuffix: string := "/callback"

  /** The local callback address: the prefix, the port in decimal, then the callback path. */
  function CallbackUrlFor(port: Int32): (url: string)
    ensures |url| == |UrlPrefix| + |FromInt(port as int)| + |UrlSuffix|
    ensures url[..|UrlPrefix|] == UrlPrefix && url[|url| - |UrlSuffix|..] == UrlSuffix
    ensures url[|UrlPrefix|..|url| - |UrlSuffix|] == FromInt(port as int)
  {
    UrlPrefix + FromInt(port as int) + UrlSuffix
  }

  /** Reads the port back from a callback URL. */
  function PortOf(url: string): Option<int>
  {
    if |url| >= |UrlPrefix| + |UrlSuffix| && url[..|UrlPrefix|] == UrlPrefix && url[|url| - |UrlSuffix|..] == UrlSuffix
    then ParseInt(url[|UrlPrefix|..|url| - |UrlSuffix|])
    else None
  }

  /** The URL names the port it was made from, so different ports give different URLs. */
  lemma CallbackUrlRoundTrip(port: Int32)
    ensures PortOf(CallbackUrlFor(port)) == Some(port as int)
  {
    IntRoundTrip(port as int);
  }

  /** Equal URLs hold equal decimal texts between prefix and suffix, hence equal ports. */
  lemma CallbackUrlInjective(p: Int32, q: Int32)
    ensures CallbackUrlFor(p) == CallbackUrlFor(q) <==> p == q
  {
    FromIntInjective(p as int, q as int);
  }

  /** With the default port the URL is "http://localhost:8123/callback". */
  lemma DefaultCallbackUrl()
    ensures CallbackUrlFor(DefaultCallbackPort) == "http://localhost:8123/callback"
  {
    assert FromNat(8) == "8";
    assert FromNat(81) == FromNat(8) + ['1'];
    assert FromNat(812) == FromNat(81) + ['2'];
    assert FromNat(8123) == FromNat(812) + ['3'];
  }

  class TssConfig {
    var clientId: string
    var credentialsPath: string
    var mappingsPath: string
    var callbackPort: Int32

    /** The port starts at its default; the other options are whatever configuration binds. */
    constructor (clientId: string, credentialsPath: string, mappingsPath: string)
      ensures this.clientId == clientId && this.credentialsPath == credentialsPath && this.mappingsPath == mappingsPath
      ensures callbackPort == DefaultCallbackPort
      ensures CallbackUrl() == "http://localhost:8123/callback"
    {
      this.clientId := clientId;
      this.credentialsPath := credentialsPath;
      this.mappingsPath := mappingsPath;
      callbackPort := DefaultCallbackPort;
      DefaultCallbackUrl();
    }

    /** Computed, not stored: it always reflects the current port. */
    function CallbackUrl(): (url: string)
      reads this
      ensures url == CallbackUrlFor(callbackPort)
      ensures PortOf(url) == Some(callbackPort as int)
    {
      CallbackUrlRoundTrip(callbackPort);
      CallbackUrlFor(callbackPort)
    }

    method SetCallbackPort(port: Int32)
      modifies this
      ensures callbackPort == port && CallbackUrl() == CallbackUrlFor(port)
      ensures old(callbackPort) != port ==> CallbackUrl() != old(CallbackUrl())
      ensures clientId == old(clientId) && credentialsPath == old(credentialsPath) && mappingsPath == old(mappingsPath)
    {
      CallbackUrlInjective(old(callbackPort), port);
      callbackPort := port;
    }
  }
}

/** `TssMappings`: for each source playlist id, the good and the not-good target playlist ids,
    and a default pair. */
module Mappings {

  datatype Mapping = Mapping(good: string, notGood: string)

  datatype TssMappings = TssMappings(mappings: map<string, Mapping>, default: Mapping)
}
