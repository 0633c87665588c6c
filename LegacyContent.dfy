/** The older content script. It has the same three branches as the
    current one, but no guard for a message without a type, no guard for
    null entries or a missing entry, and it relays the worker's
    `connected` field without converting it. Its Connect payload is the
    endpoint url the older worker reads. */
module LegacyPageBridge {
  import opened Text
  import opened Types
  import PageBridge
  import LegacyWorker

  datatype LegacyPageData =
    | Untyped
    | InstalledMessage(ask: bool)
    | ConnectRequest(ask: bool, url: Option<string>)
    | PostVMData(ask: bool, entries: seq<VM>)
    | OtherType(kind: string, ask: bool)

  datatype LegacyPageEvent = LegacyPageEvent(fromWindow: bool, data: LegacyPageData)

  /** `connected` is `None` where the page receives `undefined`. */
  datatype LegacyPost =
    | InstalledPost(installed: bool, version: string)
    | ConnectedPost(connected: Option<bool>)

  datatype LegacyOutgoing = ForwardConnect(message: LegacyWorker.LegacyMessage) | SendDisconnect(vm: VM)

  /** `list.find((d) => d._id === id)`. */
  function LegacyFind(list: seq<VM>, id: string): (r: Option<VM>)
    ensures r.None? <==> forall i :: 0 <= i < |list| ==> list[i].id != id
    ensures r.Some? ==> exists i :: 0 <= i < |list| && list[i] == r.value
                                    && forall j :: 0 <= j < i ==> list[j].id != id
    ensures r.Some? ==> r.value.id == id
  {
    if |list| == 0 then None
    else if list[0].id == id then Some(list[0])
    else
      var r := LegacyFind(list[1..], id);
      assert r.Some? ==> exists i :: 0 <= i < |list| && list[i] == r.value
                                    && forall j :: 0 <= j < i ==> list[j].id != id by {
        if r.Some? {
          var i :| 0 <= i < |list[1..]| && list[1..][i] == r.value
                   && forall j :: 0 <= j < i ==> list[1..][j].id != id;
          assert list[i + 1] == r.value;
          forall j | 0 <= j < i + 1 ensures list[j].id != id {
            if j > 0 { assert list[j] == list[1..][j - 1]; }
          }
        }
      }
      assert r.None? ==> forall i :: 0 <= i < |list| ==> list[i].id != id by {
        if r.None? {
          forall i | 1 <= i < |list| ensures list[i].id != id {
            assert list[i] == list[1..][i - 1];
          }
        }
      }
      r
  }

  /** `response.connected`: the field of a Connect answer, `undefined` for
      any other answer. */
  function ConnectedField(response: Reply): (c: Option<bool>)
    ensures c.Some? <==> response.ConnectedReply?
    ensures c.Some? ==> c.value == response.connected
  {
    match response
    case ConnectedReply(b) => Some(b)
    case UpdatedReply(_) => None
  }

  /** The entries as the current script sees them: none of them null. */
  function Lift(list: seq<VM>): (r: seq<Option<VM>>)
    ensures |r| == |list| && forall i :: 0 <= i < |list| ==> r[i] == Some(list[i])
  {
    seq(|list|, i requires 0 <= i < |list| => Some(list[i]))
  }

  class LegacyContentScript {
    var vmData: Option<VM>
    var posts: seq<LegacyPost>
    var sent: seq<LegacyOutgoing>
    const version: string

    constructor(version: string, vmData: Option<VM>)
      ensures this.version == version && this.vmData == vmData && posts == [] && sent == []
    {
      this.version := version;
      this.vmData := vmData;
      this.posts := [];
      this.sent := [];
    }

    /** The window `message` listener. A posted list must hold the stored
        session: the script reads `_isPowerOn` of the lookup result with no
        check. */
    method OnPageMessage(e: LegacyPageEvent)
      requires e.fromWindow && e.data.PostVMData? && !e.data.ask && vmData.Some? ==>
        exists i :: 0 <= i < |e.data.entries| && e.data.entries[i].id == vmData.value.id
      modifies this
      ensures !e.fromWindow || e.data.Untyped? || e.data.OtherType? ==>
        vmData == old(vmData) && posts == old(posts) && sent == old(sent)
      ensures e.fromWindow && e.data.InstalledMessage? ==>
        vmData == old(vmData) && sent == old(sent)
        && posts == old(posts) + (if e.data.ask then [InstalledPost(true, version)] else [])
      ensures e.fromWindow && e.data.ConnectRequest? ==>
        vmData == old(vmData) && posts == old(posts)
        && sent == old(sent) + (if e.data.ask then [ForwardConnect(LegacyWorker.ConnectMessage(e.data.url))] else [])
      ensures e.fromWindow && e.data.PostVMData? && (e.data.ask || old(vmData).None?) ==>
        vmData == old(vmData) && posts == old(posts) && sent == old(sent)
      ensures e.fromWindow && e.data.PostVMData? && !e.data.ask && old(vmData).Some? ==>
        var found := LegacyFind(e.data.entries, old(vmData).value.id);
        && found.Some? && posts == old(posts)
        && (found.value.isPowerOn ==> vmData == found && sent == old(sent))
        && (!found.value.isPowerOn ==> vmData == old(vmData) && sent == old(sent) + [SendDisconnect(found.value)])
    {
      if !e.fromWindow {
        return;
      }
      match e.data
      case Untyped =>
      case OtherType(_, _) =>
      case InstalledMessage(ask) =>
        if ask {
          posts := posts + [InstalledPost(true, version)];
        }
      case ConnectRequest(ask, url) =>
        if ask {
          sent := sent + [ForwardConnect(LegacyWorker.ConnectMessage(url))];
        }
      case PostVMData(ask, entries) =>
        if !ask && vmData.Some? {
          var found := LegacyFind(entries, vmData.value.id);
          var vm := found.value;
          if vm.isPowerOn {
            vmData := Some(vm);
          } else {
            sent := sent + [SendDisconnect(vm)];
          }
        }
    }

    /** The worker's answer to a forwarded Connect; an absent answer makes
        the script throw, so one is required. */
    method OnConnectResponse(response: Reply)
      modifies this
      ensures posts == old(posts) + [ConnectedPost(ConnectedField(response))]
      ensures vmData == old(vmData) && sent == old(sent)
    {
      posts := posts + [ConnectedPost(ConnectedField(response))];
    }
  }

  // ---------------------------------------------------------------------
  // Lemmas

  /** On a list without nulls the older lookup finds what the current one
      finds, and the two scripts decide alike once the entry exists. */
  lemma {:induction false} LegacyFindAgrees(list: seq<VM>, id: string)
    ensures PageBridge.FindVmById(Lift(list), id) == LegacyFind(list, id)
  {
    if |list| > 0 {
      LegacyFindAgrees(list[1..], id);
      assert Lift(list)[1..] == Lift(list[1..]);
    }
  }

  /** The older relay agrees with the current one on every answer the
      older worker gives (`{connected: true}`), and passes `undefined`
      through where the current one says false. */
  lemma RelayDifference(response: Reply)
    ensures response.ConnectedReply? ==>
      ConnectedField(response) == Some(PageBridge.ConnectedFlag(Some(response)))
    ensures response.UpdatedReply? ==>
      ConnectedField(response).None? && !PageBridge.ConnectedFlag(Some(response))
  {
  }
}
