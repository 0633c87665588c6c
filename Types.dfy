/** The data the extension passes around: the VM descriptor handed over by
    the web page, the stored user preferences, the proxy configuration it
    applies, and the replies of the background worker. */
module Types {
  import opened Text

  datatype ProfileType = OpenVPN | SoftEther | SS | Socks5

  /** One connection profile of a VM; `url` is optional in the descriptor. */
  datatype Profile = Profile(kind: ProfileType, name: string, filename: string, url: Option<string>)

  datatype Provider = Google | Azure

  datatype ReadOnlyMode = StartOnly | StopOnly | ReadOnly | Disabled

  /** The VM (session) descriptor. `expired` is the expiry instant in
      milliseconds since the epoch, `None` for a null `_expired`. */
  datatype VM = VM(
    name: string,
    status: string,
    id: string,
    zone: string,
    url: string,
    country: string,
    profiles: seq<Profile>,
    provider: Provider,
    isPowerOn: bool,
    readonly: ReadOnlyMode,
    expired: Option<int>)

  /** The `proxyMode` preference; absent in storage means disabled. */
  datatype ProxyMode = Whitelist | Blacklist | Disable

  /** The preferences the proxy builder reads: `proxyMode` and
      `chatGPTOnly` from local storage, the two URL lists from sync storage.
      `None` is a key that is absent from storage. */
  datatype Prefs = Prefs(
    proxyMode: Option<ProxyMode>,
    chatGPTOnly: Option<bool>,
    whitelist: Option<seq<string>>,
    blacklist: Option<seq<string>>)

  /** The stored list for a list mode. */
  function StoredList(prefs: Prefs, mode: ProxyMode): Option<seq<string>>
  {
    if mode == Whitelist then prefs.whitelist else prefs.blacklist
  }

  /** `singleProxy` of a fixed-servers configuration; `port` is `None`
      when `parseInt` gave NaN. */
  datatype ProxyServer = ProxyServer(scheme: string, host: string, port: Option<int>)

  /** The three kinds of configuration the extension applies. */
  datatype ProxyConfig =
    | Direct
    | FixedServers(singleProxy: ProxyServer)
    | PacScript(data: string)

  /** The `mode` field of any proxy setting the browser reports. */
  datatype ProxyModeName = DirectMode | AutoDetectMode | PacScriptMode | FixedServersMode | SystemMode

  function ModeOf(c: ProxyConfig): ProxyModeName
  {
    match c
    case Direct => DirectMode
    case FixedServers(_) => FixedServersMode
    case PacScript(_) => PacScriptMode
  }

  /** What the background worker answers to a runtime message. */
  datatype Reply = ConnectedReply(connected: bool) | UpdatedReply(updated: bool)
}
