/** The popup's mirror of the extension state: whether this extension's
    proxy is in force, the country of the stored session, the stored
    session itself, and (in the older hook) the single-service flag. The
    fields are overwritten by the initial reads and by the change events of
    the proxy setting and of storage, each of which is a method here. */
module ProxyStatus {
  import opened Text
  import opened Types
  import ProxyConfigBuilder

  /** `levelOfControl` of a browser setting. */
  datatype LevelOfControl = NotControllable | ControlledByOther | Controllable | ControlledByThis

  /** The proxy setting as the browser reports it. */
  datatype ProxySetting = ProxySetting(level: LevelOfControl, mode: ProxyModeName)

  /** What a reported setting does to the mirror: mark connected, mark
      disconnected keeping the country, or mark disconnected and forget the
      country. */
  datatype Classification = Connected | NotConnected | Released

  function Classify(s: ProxySetting): (c: Classification)
    ensures c == Connected <==> s.level == ControlledByThis && (s.mode == FixedServersMode || s.mode == PacScriptMode)
    ensures c == Released <==> s.level != ControlledByThis
  {
    if s.level == ControlledByThis then
      if s.mode == FixedServersMode || s.mode == PacScriptMode then Connected else NotConnected
    else Released
  }

  /** `vm?._country || null`: no country for no session or an empty one. */
  function CountryOf(vm: Option<VM>): (c: Option<string>)
    ensures c.Some? <==> vm.Some? && vm.value.country != ""
    ensures c.Some? ==> c.value == vm.value.country
  {
    if vm.Some? && vm.value.country != "" then Some(vm.value.country) else None
  }

  /** Every configuration the builder produces reads as connected once this
      extension applies it, except the direct one, which reads as not
      connected. */
  lemma BuiltConfigStatus(vm: VM, prefs: Prefs)
    requires ProxyConfigBuilder.FixedUrlPresent(vm, prefs)
    ensures var config := ProxyConfigBuilder.CreateProxyConfig(vm, prefs).config;
            Classify(ProxySetting(ControlledByThis, ModeOf(config))) == Connected <==> !config.Direct?
  {
  }

  /** The current hook (`useProxyData`). */
  class ProxyData {
    var connected: bool
    var country: Option<string>
    var vmData: Option<VM>

    constructor()
      ensures !connected && country == None && vmData == None
    {
      connected := false;
      country := None;
      vmData := None;
    }

    /** The initial read of the proxy setting and its change listener,
        which apply the same classification. */
    method OnProxySetting(s: ProxySetting)
      modifies this
      ensures connected <==> Classify(s) == Connected
      ensures country == (if Classify(s) == Released then None else old(country))
      ensures vmData == old(vmData)
    {
      if s.level == ControlledByThis {
        if s.mode == FixedServersMode || s.mode == PacScriptMode {
          connected := true;
        } else {
          connected := false;
        }
      } else {
        connected := false;
        country := None;
      }
    }

    /** The initial read of the stored session (`?? null`). */
    method OnStorageRead(stored: Option<VM>)
      modifies this
      ensures vmData == stored && country == CountryOf(stored) && connected == old(connected)
    {
      vmData := stored;
      country := CountryOf(stored);
    }

    /** A storage change. `vmDataChange` is `None` when the change does not
        touch `vmData`, and otherwise carries its new value (`None` when
        the key was removed). */
    method OnStorageChange(vmDataChange: Option<Option<VM>>)
      modifies this
      ensures connected == old(connected)
      ensures vmDataChange.None? ==> vmData == old(vmData) && country == old(country)
      ensures vmDataChange.Some? ==> vmData == vmDataChange.value && country == CountryOf(vmDataChange.value)
    {
      if vmDataChange.Some? {
        var next := vmDataChange.value;
        vmData := next;
        country := CountryOf(next);
      }
    }
  }

  /** The older hooks (`useProxyData` and `useChatGPTOnlyData`). A stored
      value that is absent is `None` here, so the older hook's keeping of
      `undefined` and the newer one's `?? null` coincide. */
  class LegacyProxyData {
    var connected: bool
    var country: Option<string>
    var vmData: Option<VM>
    /** `None` where the state holds `undefined` (the key was absent). */
    var chatGPTOnly: Option<bool>

    constructor()
      ensures !connected && country == None && vmData == None && chatGPTOnly == Some(false)
    {
      connected := false;
      country := None;
      vmData := None;
      chatGPTOnly := Some(false);
    }

    method OnProxySetting(s: ProxySetting)
      modifies this
      ensures connected <==> Classify(s) == Connected
      ensures country == (if Classify(s) == Released then None else old(country))
      ensures vmData == old(vmData) && chatGPTOnly == old(chatGPTOnly)
    {
      if s.level == ControlledByThis {
        if s.mode == FixedServersMode || s.mode == PacScriptMode {
          connected := true;
        } else {
          connected := false;
        }
      } else {
        connected := false;
        country := None;
      }
    }

    method OnStorageRead(stored: Option<VM>)
      modifies this
      ensures vmData == stored && country == CountryOf(stored)
      ensures connected == old(connected) && chatGPTOnly == old(chatGPTOnly)
    {
      vmData := stored;
      country := CountryOf(stored);
    }

    /** A change of `vmData` reads the new value's country with no guard,
        so a removal (no new value) would throw: it is excluded. */
    method OnStorageChange(vmDataChange: Option<Option<VM>>)
      requires vmDataChange.Some? ==> vmDataChange.value.Some?
      modifies this
      ensures connected == old(connected) && chatGPTOnly == old(chatGPTOnly)
      ensures vmDataChange.None? ==> vmData == old(vmData) && country == old(country)
      ensures vmDataChange.Some? ==> vmData == vmDataChange.value && country == CountryOf(vmDataChange.value)
    {
      if vmDataChange.Some? {
        vmData := vmDataChange.value;
        country := CountryOf(vmDataChange.value);
      }
    }

    /** The initial read of the flag: the stored value, absent included. */
    method OnChatGptRead(stored: Option<bool>)
      modifies this
      ensures chatGPTOnly == stored
      ensures connected == old(connected) && country == old(country) && vmData == old(vmData)
    {
      chatGPTOnly := stored;
    }

    /** A storage change: only one that touches `chatGPTOnly` updates it. */
    method OnChatGptChange(flagChange: Option<Option<bool>>)
      modifies this
      ensures chatGPTOnly == (if flagChange.Some? then flagChange.value else old(chatGPTOnly))
      ensures connected == old(connected) && country == old(country) && vmData == old(vmData)
    {
      if flagChange.Some? {
        chatGPTOnly := flagChange.value;
      }
    }
  }
}
