/** Values shared by the poller, the notifier and the polling service: an
    optional value (a configuration key that may be absent, an attribute that
    may be null) and the configuration surface the three services read. */
module Settings {

  /** A value that may be missing; `None` stands for a C# `null`. */
  datatype Option<+T> = None | Some(value: T) {

    /** The null-coalescing `x ?? default`. */
    function GetOr(default: T): T {
      match this
      case Some(v) => v
      case None => default
    }
  }

  /** The configuration keys the core reads, each `None` when the key is
      absent. The key names are those of IConfiguration:
        targetUrl            "TargetUrl"
        tierNames            section "TierNames", bound as a list of strings
        pollIntervalSeconds  "PollIntervalSeconds", read as an `int?`
        toPhoneNumber        "WhatsAppBusinessCloudApiConfiguration:ToPhoneNumber"
        accessToken          "WhatsAppBusinessCloudApiConfiguration:AccessToken"
        phoneNumberId        "WhatsAppBusinessCloudApiConfiguration:WhatsAppBusinessPhoneNumberId" */
  datatype Configuration = Configuration(
    targetUrl: Option<string>,
    tierNames: Option<seq<string>>,
    pollIntervalSeconds: Option<int>,
    toPhoneNumber: Option<string>,
    accessToken: Option<string>,
    phoneNumberId: Option<string>)
}
