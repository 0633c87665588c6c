/** The content script: the bridge between the web page and the extension.
    It answers the page's "is the extension installed" question, forwards
    Connect requests to the background worker and relays the answer, and
    reconciles the stored session with the list of sessions the page posts.

    The page's `window.postMessage` traffic is the `posts` field, runtime
    messages to the worker are `sent`, and the stored `vmData` is a field.
    The worker's asynchronous answer to a forwarded Connect arrives through
    `OnConnectResponse`. */
module PageBridge {
  import opened Text
  import opened Types

  /** The `data` of a window message, by its `type`. `PostVMData` entries
      may be null. */
  datatype PageData =
    | Untyped
    | InstalledMessage(ask: bool)
    | ConnectRequest(ask: bool, vm: VM)
    | PostVMData(ask: bool, entries: seq<Option<VM>>)
    | OtherType(kind: string, ask: bool)

  /** A window `message` event: whether its source is this window. */
  datatype PageEvent = PageEvent(fromWindow: bool, data: PageData)

  /** What the content script posts back to the page. */
  datatype PagePost =
    | InstalledPost(installed: bool, version: string)
    | ConnectedPost(connected: bool)

  /** What it sends to the background worker. */
  datatype Outgoing = ForwardConnect(vm: VM) | SendDisconnect(vm: VM)

  /** How a posted session list is reconciled with the stored session. */
  datatype Reconcile = Ignore | Store(vm: VM) | Disconnect(vm: VM)

  /** `list.find((entry) => entry?._id === id)`: the first non-null entry
      with the id. */
  function FindVmById(list: seq<Option<VM>>, id: string): (r: Option<VM>)
    ensures r.None? <==> forall i :: 0 <= i < |list| ==> list[i].None? || list[i].value.id != id
    ensures r.Some? ==> r.value.id == id
    ensures r.Some? ==> exists i :: 0 <= i < |list| && list[i] == r
                                    && forall j :: 0 <= j < i ==> list[j].None? || list[j].value.id != id
  {
    if |list| == 0 then None
    else if list[0].Some? && list[0].value.id == id then list[0]
    else
      var r := FindVmById(list[1..], id);
      assert r.Some? ==> exists i :: 0 <= i < |list| && list[i] == r
                                    && forall j :: 0 <= j < i ==> list[j].None? || list[j].value.id != id by {
        if r.Some? {
          var i :| 0 <= i < |list[1..]| && list[1..][i] == r
                   && forall j :: 0 <= j < i ==> list[1..][j].None? || list[1..][j].value.id != id;
          assert list[i + 1] == r;
          forall j | 0 <= j < i + 1 ensures list[j].None? || list[j].value.id != id {
            if j > 0 { assert list[j] == list[1..][j - 1]; }
          }
        }
      }
      assert r.None? ==> forall i :: 0 <= i < |list| ==> list[i].None? || list[i].value.id != id by {
        if r.None? {
          forall i | 1 <= i < |list| ensures list[i].None? || list[i].value.id != id {
            assert list[i] == list[1..][i - 1];
          }
        }
      }
      r
  }

  /** The PostVMData decision: nothing without a stored session or without
      an entry for it; otherwise store the entry when it is powered on, and
      ask the worker to disconnect when it is not. */
  function ReconcileWith(stored: Option<VM>, entries: seq<Option<VM>>): (r: Reconcile)
    ensures r.Store? ==> stored.Some? && r.vm.id == stored.value.id && r.vm.isPowerOn
                         && FindVmById(entries, stored.value.id) == Some(r.vm)
    ensures r.Disconnect? ==> stored.Some? && r.vm.id == stored.value.id && !r.vm.isPowerOn
                              && FindVmById(entries, stored.value.id) == Some(r.vm)
    ensures r.Ignore? <==> stored.None? || FindVmById(entries, stored.value.id).None?
  {
    match stored
    case None => Ignore
    case Some(s) =>
      match FindVmById(entries, s.id)
      case None => Ignore
      case Some(incoming) => if incoming.isPowerOn then Store(incoming) else Disconnect(incoming)
  }

  /** `Boolean(response?.connected)`: only a `{connected: true}` answer
      reads as connected; a missing answer, or one without the field, reads
      as not connected. */
  function ConnectedFlag(response: Option<Reply>): (b: bool)
    ensures b <==> response == Some(ConnectedReply(true))
  {
    match response
    case Some(ConnectedReply(c)) => c
    case _ => false
  }

  class ContentScript {
    var vmData: Option<VM>
    var posts: seq<PagePost>
    var sent: seq<Outgoing>
    const version: string

    constructor(version: string, vmData: Option<VM>)
      ensures this.version == version && this.vmData == vmData && posts == [] && sent == []
    {
      this.version := version;
      this.vmData := vmData;
      this.posts := [];
      this.sent := [];
    }

    /** The window `message` listener. */
    method OnPageMessage(e: PageEvent)
      modifies this
      ensures !e.fromWindow || e.data.Untyped? || e.data.OtherType? ==>
        vmData == old(vmData) && posts == old(posts) && sent == old(sent)
      ensures e.fromWindow && e.data.InstalledMessage? ==>
        vmData == old(vmData) && sent == old(sent)
        && posts == old(posts) + (if e.data.ask then [InstalledPost(true, version)] else [])
      ensures e.fromWindow && e.data.ConnectRequest? ==>
        vmData == old(vmData) && posts == old(posts)
        && sent == old(sent) + (if e.data.ask then [ForwardConnect(e.data.vm)] else [])
      ensures e.fromWindow && e.data.PostVMData? && e.data.ask ==>
        vmData == old(vmData) && posts == old(posts) && sent == old(sent)
      ensures e.fromWindow && e.data.PostVMData? && !e.data.ask ==>
        var r := ReconcileWith(old(vmData), e.data.entries);
        && posts == old(posts)
        && vmData == (if r.Store? then Some(r.vm) else old(vmData))
        && sent == old(sent) + (if r.Disconnect? then [SendDisconnect(r.vm)] else [])
    {
      if !e.fromWindow {
        return;
      }
      match e.data
      case Untyped =>
      case OtherType(_, _) =>
      case InstalledMessage(ask) =>
        if ask {
          posts := posts + [InstalledPost(true, version)];
        }
      case ConnectRequest(ask, vm) =>
        if ask {
          sent := sent + [ForwardConnect(vm)];
        }
      case PostVMData(ask, entries) =>
        if !ask {
          var r := ReconcileWith(vmData, entries);
          match r
          case Ignore =>
          case Store(vm) => vmData := Some(vm);
          case Disconnect(vm) => sent := sent + [SendDisconnect(vm)];
        }
    }

    /** The worker's answer to a forwarded Connect, relayed to the page. */
    method OnConnectResponse(response: Option<Reply>)
      modifies this
      ensures posts == old(posts) + [ConnectedPost(ConnectedFlag(response))]
      ensures vmData == old(vmData) && sent == old(sent)
    {
      posts := posts + [ConnectedPost(ConnectedFlag(response))];
    }
  }

  // ---------------------------------------------------------------------
  // Lemmas

  /** Reconciling is idempotent: once the powered-on entry is stored,
      posting the same list again stores the same entry. */
  lemma {:induction false} ReconcileIdempotent(stored: Option<VM>, entries: seq<Option<VM>>)
    requires ReconcileWith(stored, entries).Store?
    ensures var v := ReconcileWith(stored, entries).vm;
            ReconcileWith(Some(v), entries) == Store(v)
  {
    var v := ReconcileWith(stored, entries).vm;
    assert FindVmById(entries, v.id) == Some(v);
  }

  /** Entries for other sessions, and null entries, never matter: the
      decision depends only on the first entry with the stored id. */
  lemma {:induction false} ReconcileIgnoresOthers(stored: VM, before: seq<Option<VM>>, entry: VM, after: seq<Option<VM>>)
    requires forall i :: 0 <= i < |before| ==> before[i].None? || before[i].value.id != stored.id
    requires entry.id == stored.id
    ensures ReconcileWith(Some(stored), before + [Some(entry)] + after)
         == (if entry.isPowerOn then Store(entry) else Disconnect(entry))
  {
    FindAfterMisses(before, entry, after, stored.id);
  }

  lemma {:induction false} FindAfterMisses(before: seq<Option<VM>>, entry: VM, after: seq<Option<VM>>, id: string)
    requires forall i :: 0 <= i < |before| ==> before[i].None? || before[i].value.id != id
    requires entry.id == id
    ensures FindVmById(before + [Some(entry)] + after, id) == Some(entry)
  {
    if |before| == 0 {
      assert (before + [Some(entry)] + after)[0] == Some(entry);
    } else {
      assert (before + [Some(entry)] + after)[1..] == before[1..] + [Some(entry)] + after;
      FindAfterMisses(before[1..], entry, after, id);
    }
  }
}
