/** `IpService`: the visitor's public address, with a default until the
    lookup settles and the empty string if it fails. */
module IpService {
  import opened Wrappers

  const IpifyUrl: string := "https://api.ipify.org"

  /** The value `publicIP` holds before any lookup. */
  const DefaultPublicIP: string := "Cebu, Philippines"

  datatype IpifyResponse = IpifyResponse(ip: string)

  /** `getPublicIP()`: the address of the JSON lookup. */
  function PublicIPUrl(): string {
    IpifyUrl + "?format=json"
  }

  /** What `publicIP` holds once the lookup settles: the reported address, or ''. */
  function SettledIP(o: Outcome<IpifyResponse>): (ip: string)
    ensures o.Ok? ==> ip == o.response.ip
    ensures o.Fail? ==> ip == ""
  {
    match o
    case Ok(r) => r.ip
    case Fail(_) => ""
  }

  /** A failed lookup never leaves the default in place. */
  lemma FailureClearsDefault(o: Outcome<IpifyResponse>)
    requires o.Fail?
    ensures SettledIP(o) != DefaultPublicIP
  {
  }

  class IpService {
    var publicIP: string

    constructor()
      ensures publicIP == DefaultPublicIP
    {
      publicIP := DefaultPublicIP;
    }

    /** `getPublicIPAsync()`: requests the lookup and, whatever its outcome,
        settles without rejecting. */
    method GetPublicIPAsync(o: Outcome<IpifyResponse>) returns (url: string)
      modifies this
      ensures url == "https://api.ipify.org?format=json"
      ensures publicIP == SettledIP(o)
    {
      url := PublicIPUrl();
      if o.Ok? {
        publicIP := o.response.ip;
      } else {
        publicIP := "";
      }
    }
  }
}
