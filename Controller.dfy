/** The current background worker: the session controller that applies the
    proxy, probes the connection, keeps the stored session, arms the two
    expiry alarms and shows notifications.

    The browser APIs are fields: the proxy setting, the stored `vmData`,
    the alarms and notifications by name, the tabs opened, and the replies
    sent. The interval timer is the `pingTarget` slot (the VM its callback
    captured, `None` once cleared) with its `tryCount`; each firing of the
    timer is a call of `PingTick`, with the outcome of the ping request as a
    parameter. `now` is the clock reading of the event. */
module SessionController {
  import opened Text
  import opened Types
  import opened ProxyConfigBuilder

  const HourMs: int := 3600000
  const HalfHourMs: int := 1800000
  /** Failed pings tolerated; the next failure gives up. */
  const MaxTries: nat := 60

  const CheckAlarm: string := "offline-time-check"
  const ReachedAlarm: string := "offline-time-rached"

  const OfflineTimeNotify: string := "offlineTimeNotify"
  const ConnectedNotify: string := "connectedNotify"
  const DisconnectedNotify: string := "disconnectedNotify"

  /** The production web address; the development address is not modelled. */
  const WebUrl: string := "https://vpn.cocomine.cc"

  /** An alarm: its first firing time, and its period when it repeats. */
  datatype Alarm = Alarm(when: int, periodMinutes: Option<nat>)

  /** What a notification says. The localized texts are abstracted to the
      facts they carry. */
  datatype Notice =
    | TimeLeft(country: string, name: string, minutes: nat)  // with an "extend" button
    | ConnectedNotice
    | SessionEnded(country: string, name: string)
    | DisconnectedNotice

  datatype RuntimeMessage =
    | ConnectMessage(vm: VM)
    | DisconnectMessage
    | AlarmsUpdateMessage(vm: VM)
    | OtherMessage(kind: string)

  /** `new Date(vm._expired ?? Date.now()).getTime()`. */
  function ExpiresAt(vm: VM, now: int): int
  {
    vm.expired.GetOr(now)
  }

  /** The alarms `createAlarms` leaves behind: a check every 15 minutes from
      an hour before expiry, and a one-shot alarm at expiry. */
  function AlarmsFor(vm: VM, now: int): map<string, Alarm>
  {
    map[CheckAlarm := Alarm(ExpiresAt(vm, now) - HourMs, Some(15)),
        ReachedAlarm := Alarm(ExpiresAt(vm, now), None)]
  }

  /** Where the remaining time of a session falls for the periodic check. */
  datatype TimeBand = MoreThanHour | WithinHour | WithinHalfHour | Over

  function Band(remaining: int): (b: TimeBand)
    ensures b == WithinHour ==> HalfHourMs < remaining <= HourMs
    ensures b == WithinHalfHour ==> 0 < remaining <= HalfHourMs
    ensures b == Over ==> remaining <= 0
    ensures b == MoreThanHour ==> remaining > HourMs
  {
    if remaining <= HourMs && remaining > HalfHourMs then WithinHour
    else if remaining <= HalfHourMs && remaining > 0 then WithinHalfHour
    else if remaining <= 0 then Over
    else MoreThanHour
  }

  function BandRank(b: TimeBand): nat
  {
    match b
    case MoreThanHour => 3
    case WithinHour => 2
    case WithinHalfHour => 1
    case Over => 0
  }

  /** The page that lets the user extend a session. */
  function ExtendUrl(id: string): string
  {
    WebUrl + "/" + id + "#extendTime"
  }

  class Controller {
    var proxy: Option<ProxyConfig>
    var vmData: Option<VM>
    var prefs: Prefs
    var alarms: map<string, Alarm>
    var notifications: map<string, Notice>
    var tabs: seq<string>
    var pingTarget: Option<VM>
    var tryCount: nat
    var replies: seq<Reply>

    /** Only the two expiry alarms and the three notification ids ever
        exist, and a running probe has not yet exhausted its budget. */
    predicate Valid()
      reads this
    {
      && alarms.Keys <= {CheckAlarm, ReachedAlarm}
      && notifications.Keys <= {OfflineTimeNotify, ConnectedNotify, DisconnectedNotify}
      && (pingTarget.Some? ==> tryCount <= MaxTries)
    }

    constructor(prefs: Prefs, vmData: Option<VM>)
      ensures Valid()
      ensures this.prefs == prefs && this.vmData == vmData
      ensures proxy == None && alarms == map[] && notifications == map[] && tabs == []
      ensures pingTarget == None && tryCount == 0 && replies == []
    {
      this.proxy := None;
      this.vmData := vmData;
      this.prefs := prefs;
      this.alarms := map[];
      this.notifications := map[];
      this.tabs := [];
      this.pingTarget := None;
      this.tryCount := 0;
      this.replies := [];
    }

    /** `notifications.clear(id)` then `notifications.create(id, ...)`: the
        new notice replaces any earlier one under that id. */
    method Notify(id: string, n: Notice)
      requires Valid() && id in {OfflineTimeNotify, ConnectedNotify, DisconnectedNotify}
      modifies this
      ensures Valid()
      ensures notifications == old(notifications)[id := n]
      ensures proxy == old(proxy) && vmData == old(vmData) && prefs == old(prefs) && alarms == old(alarms)
      ensures tabs == old(tabs) && pingTarget == old(pingTarget) && tryCount == old(tryCount)
      ensures replies == old(replies)
    {
      notifications := notifications - {id};
      notifications := notifications[id := n];
    }

    /** `createAlarms`: every alarm is removed, then the two expiry alarms
        are created. */
    method CreateAlarms(vm: VM, now: int)
      requires Valid()
      modifies this
      ensures Valid()
      ensures alarms == AlarmsFor(vm, now)
      ensures proxy == old(proxy) && vmData == old(vmData) && prefs == old(prefs)
      ensures notifications == old(notifications) && tabs == old(tabs)
      ensures pingTarget == old(pingTarget) && tryCount == old(tryCount) && replies == old(replies)
    {
      alarms := map[];
      var expiresAt := ExpiresAt(vm, now);
      alarms := alarms[CheckAlarm := Alarm(expiresAt - HourMs, Some(15))];
      alarms := alarms[ReachedAlarm := Alarm(expiresAt, None)];
    }

    /** Connect: apply the configuration built for `vm`, cancel any running
        probe and start a new one with a fresh budget. No reply yet. */
    method Connect(vm: VM)
      requires Valid()
      requires FixedUrlPresent(vm, prefs)
      modifies this
      ensures Valid() && prefs == old(prefs)
      ensures proxy == Some(CreateProxyConfig(vm, prefs).config)
      ensures pingTarget == Some(vm) && tryCount == 0
      ensures vmData == old(vmData) && alarms == old(alarms)
      ensures notifications == old(notifications) && tabs == old(tabs) && replies == old(replies)
    {
      var result := CreateProxyConfig(vm, prefs);
      proxy := Some(result.config);
      tryCount := 0;
      pingTarget := None;
      pingTarget := Some(result.vmData);
    }

    /** One firing of the probe timer. On success the probe stops, the
        session is stored, announced and given its alarms, and the page
        hears `{connected: true}`. On failure the count goes up, and the
        failure after the sixtieth gives up with `{connected: false}`,
        leaving the applied proxy and the stored session as they are. */
    method PingTick(ok: bool, now: int)
      requires Valid() && pingTarget.Some?
      modifies this
      ensures Valid()
      ensures prefs == old(prefs) && proxy == old(proxy) && tabs == old(tabs)
      ensures ok ==>
        && pingTarget == None && tryCount == old(tryCount)
        && vmData == old(pingTarget)
        && notifications == old(notifications)[ConnectedNotify := ConnectedNotice]
        && alarms == AlarmsFor(old(pingTarget).value, now)
        && replies == old(replies) + [ConnectedReply(true)]
      ensures !ok ==>
        && tryCount == old(tryCount) + 1
        && vmData == old(vmData) && alarms == old(alarms) && notifications == old(notifications)
        && (tryCount > MaxTries ==> pingTarget == None && replies == old(replies) + [ConnectedReply(false)])
        && (tryCount <= MaxTries ==> pingTarget == old(pingTarget) && replies == old(replies))
    {
      if ok {
        var vm := pingTarget.value;
        pingTarget := None;
        vmData := Some(vm);
        Notify(ConnectedNotify, ConnectedNotice);
        CreateAlarms(vm, now);
        replies := replies + [ConnectedReply(true)];
      } else {
        tryCount := tryCount + 1;
        if tryCount > MaxTries {
          replies := replies + [ConnectedReply(false)];
          pingTarget := None;
        }
      }
    }

    /** Disconnect: clear the proxy and the stored session, announce it,
        remove every alarm and reply `{connected: false}`. A running probe
        is not stopped. */
    method Disconnect()
      requires Valid()
      modifies this
      ensures Valid()
      ensures proxy == None && vmData == None && alarms == map[]
      ensures notifications == old(notifications)[DisconnectedNotify := DisconnectedNotice]
      ensures replies == old(replies) + [ConnectedReply(false)]
      ensures prefs == old(prefs) && tabs == old(tabs)
      ensures pingTarget == old(pingTarget) && tryCount == old(tryCount)
    {
      proxy := None;
      vmData := None;
      Notify(DisconnectedNotify, DisconnectedNotice);
      alarms := map[];
      replies := replies + [ConnectedReply(false)];
    }

    /** AlarmsUpdate: re-arm the alarms for `vm`, store it without probing,
        and reply `{updated: true}`. */
    method AlarmsUpdate(vm: VM, now: int)
      requires Valid()
      modifies this
      ensures Valid()
      ensures alarms == AlarmsFor(vm, now) && vmData == Some(vm)
      ensures replies == old(replies) + [UpdatedReply(true)]
      ensures proxy == old(proxy) && prefs == old(prefs) && notifications == old(notifications)
      ensures tabs == old(tabs) && pingTarget == old(pingTarget) && tryCount == old(tryCount)
    {
      CreateAlarms(vm, now);
      vmData := Some(vm);
      replies := replies + [UpdatedReply(true)];
    }

    /** The `onMessage` listener, dispatching on the message type; other
        types change nothing. */
    method OnMessage(m: RuntimeMessage, now: int)
      requires Valid()
      requires m.ConnectMessage? ==> FixedUrlPresent(m.vm, prefs)
      modifies this
      ensures Valid() && prefs == old(prefs) && tabs == old(tabs)
      ensures m.OtherMessage? ==>
        && proxy == old(proxy) && vmData == old(vmData) && alarms == old(alarms)
        && notifications == old(notifications) && replies == old(replies)
        && pingTarget == old(pingTarget) && tryCount == old(tryCount)
      ensures m.ConnectMessage? ==>
        && proxy == Some(CreateProxyConfig(m.vm, prefs).config)
        && pingTarget == Some(m.vm) && tryCount == 0
        && vmData == old(vmData) && alarms == old(alarms)
        && notifications == old(notifications) && replies == old(replies)
      ensures m.DisconnectMessage? ==>
        && proxy == None && vmData == None && alarms == map[]
        && notifications == old(notifications)[DisconnectedNotify := DisconnectedNotice]
        && replies == old(replies) + [ConnectedReply(false)]
        && pingTarget == old(pingTarget) && tryCount == old(tryCount)
      ensures m.AlarmsUpdateMessage? ==>
        && vmData == Some(m.vm) && alarms == AlarmsFor(m.vm, now)
        && replies == old(replies) + [UpdatedReply(true)]
        && proxy == old(proxy) && notifications == old(notifications)
        && pingTarget == old(pingTarget) && tryCount == old(tryCount)
    {
      match m
      case ConnectMessage(vm) => Connect(vm);
      case DisconnectMessage => Disconnect();
      case AlarmsUpdateMessage(vm) => AlarmsUpdate(vm, now);
      case OtherMessage(_) =>
    }

    /** The `onAlarm` listener. The periodic check warns once per firing
        according to the remaining time, or removes itself once the session
        is over; the expiry alarm ends a stored session and removes itself.
        Without a stored session nothing happens. */
    method OnAlarm(name: string, now: int)
      requires Valid()
      modifies this
      ensures Valid()
      ensures prefs == old(prefs) && tabs == old(tabs) && replies == old(replies)
      ensures pingTarget == old(pingTarget) && tryCount == old(tryCount)
      ensures old(vmData).None? || name !in {CheckAlarm, ReachedAlarm} ==>
        proxy == old(proxy) && vmData == old(vmData) && alarms == old(alarms)
        && notifications == old(notifications)
      ensures old(vmData).Some? && name == CheckAlarm ==>
        var vm := old(vmData).value;
        var band := Band(ExpiresAt(vm, now) - now);
        && proxy == old(proxy) && vmData == old(vmData)
        && alarms == (if band == Over then old(alarms) - {CheckAlarm} else old(alarms))
        && notifications == (match band
                             case WithinHour => old(notifications)[OfflineTimeNotify := TimeLeft(vm.country, vm.name, 60)]
                             case WithinHalfHour => old(notifications)[OfflineTimeNotify := TimeLeft(vm.country, vm.name, 30)]
                             case _ => old(notifications))
      ensures old(vmData).Some? && name == ReachedAlarm ==>
        var vm := old(vmData).value;
        && proxy == None && vmData == None
        && alarms == old(alarms) - {ReachedAlarm}
        && notifications == old(notifications)[DisconnectedNotify := SessionEnded(vm.country, vm.name)]
    {
      if name == CheckAlarm {
        if vmData.None? {
          return;
        }
        var vm := vmData.value;
        var band := Band(ExpiresAt(vm, now) - now);
        if band == WithinHour {
          Notify(OfflineTimeNotify, TimeLeft(vm.country, vm.name, 60));
          return;
        }
        if band == WithinHalfHour {
          Notify(OfflineTimeNotify, TimeLeft(vm.country, vm.name, 30));
          return;
        }
        if band == Over {
          alarms := alarms - {CheckAlarm};
        }
      }
      if name == ReachedAlarm {
        if vmData.None? {
          return;
        }
        var vm := vmData.value;
        proxy := None;
        vmData := None;
        Notify(DisconnectedNotify, SessionEnded(vm.country, vm.name));
        alarms := alarms - {ReachedAlarm};
      }
    }

    /** A click on a notification opens the extend page of the stored
        session, only for the time-left notification. */
    method NotificationClicked(id: string)
      requires Valid()
      modifies this
      ensures Valid()
      ensures id == OfflineTimeNotify && vmData.Some? ==> tabs == old(tabs) + [ExtendUrl(vmData.value.id)]
      ensures !(id == OfflineTimeNotify && vmData.Some?) ==> tabs == old(tabs)
      ensures proxy == old(proxy) && vmData == old(vmData) && prefs == old(prefs) && alarms == old(alarms)
      ensures notifications == old(notifications) && pingTarget == old(pingTarget)
      ensures tryCount == old(tryCount) && replies == old(replies)
    {
      if id != OfflineTimeNotify {
        return;
      }
      if vmData.None? {
        return;
      }
      tabs := tabs + [ExtendUrl(vmData.value.id)];
    }

    /** A click on a notification button: the same, for the first button
        of the time-left notification only. */
    method ButtonClicked(id: string, buttonIndex: int)
      requires Valid()
      modifies this
      ensures Valid()
      ensures id == OfflineTimeNotify && buttonIndex == 0 && vmData.Some? ==>
        tabs == old(tabs) + [ExtendUrl(vmData.value.id)]
      ensures !(id == OfflineTimeNotify && buttonIndex == 0 && vmData.Some?) ==> tabs == old(tabs)
      ensures proxy == old(proxy) && vmData == old(vmData) && prefs == old(prefs) && alarms == old(alarms)
      ensures notifications == old(notifications) && pingTarget == old(pingTarget)
      ensures tryCount == old(tryCount) && replies == old(replies)
    {
      if id != OfflineTimeNotify || buttonIndex != 0 {
        return;
      }
      if vmData.None? {
        return;
      }
      tabs := tabs + [ExtendUrl(vmData.value.id)];
    }
  }

  /** A probe that never succeeds: starting from a fresh budget the timer
      fires exactly 61 times before the page hears `{connected: false}`;
      the proxy stays applied and no session is stored. */
  method ProbeAlwaysFailing(c: Controller, now: int) returns (ticks: nat)
    requires c.Valid() && c.pingTarget.Some? && c.tryCount == 0
    modifies c
    ensures c.Valid()
    ensures ticks == MaxTries + 1
    ensures c.pingTarget == None && c.replies == old(c.replies) + [ConnectedReply(false)]
    ensures c.proxy == old(c.proxy) && c.vmData == old(c.vmData) && c.alarms == old(c.alarms)
  {
    ticks := 0;
    while c.pingTarget.Some?
      invariant c.Valid()
      invariant c.pingTarget.Some? ==> c.tryCount == ticks && c.replies == old(c.replies)
      invariant c.pingTarget.None? ==> ticks == MaxTries + 1 && c.replies == old(c.replies) + [ConnectedReply(false)]
      invariant c.proxy == old(c.proxy) && c.vmData == old(c.vmData) && c.alarms == old(c.alarms)
      decreases if c.pingTarget.Some? then MaxTries + 1 - c.tryCount else 0
    {
      c.PingTick(false, now);
      ticks := ticks + 1;
    }
  }

  // ---------------------------------------------------------------------
  // Lemmas

  /** Exactly the two expiry alarms are armed: the check, repeating every
      15 minutes from one hour before the one-shot expiry alarm. */
  lemma AlarmsForShape(vm: VM, now: int)
    ensures AlarmsFor(vm, now).Keys == {CheckAlarm, ReachedAlarm}
    ensures AlarmsFor(vm, now)[ReachedAlarm].when - AlarmsFor(vm, now)[CheckAlarm].when == HourMs
    ensures AlarmsFor(vm, now)[CheckAlarm].periodMinutes == Some(15)
    ensures AlarmsFor(vm, now)[ReachedAlarm].periodMinutes.None?
    ensures vm.expired.Some? ==> AlarmsFor(vm, now)[ReachedAlarm].when == vm.expired.value
    ensures vm.expired.None? ==> AlarmsFor(vm, now)[ReachedAlarm].when == now
  {
    assert CheckAlarm != ReachedAlarm;
  }

  /** The bands partition the remaining time: every value falls in exactly
      the band whose interval holds it. */
  lemma BandExact(remaining: int)
    ensures Band(remaining) == WithinHour <==> HalfHourMs < remaining <= HourMs
    ensures Band(remaining) == WithinHalfHour <==> 0 < remaining <= HalfHourMs
    ensures Band(remaining) == Over <==> remaining <= 0
    ensures Band(remaining) == MoreThanHour <==> remaining > HourMs
  {
  }

  /** As the remaining time shrinks the band never moves back up, so the
      one-hour warning cannot follow the half-hour warning. */
  lemma BandMonotone(r1: int, r2: int)
    requires r1 <= r2
    ensures BandRank(Band(r1)) <= BandRank(Band(r2))
  {
  }
}
