/** The allow/deny list editor of the popup: deleting an entry, switching
    the proxy mode, picking a host suffix from the labels of the current
    tab's host, adding it (and its wildcard) to a list, and the example
    hosts shown as passing or rejected by the entry being added.

    The two synchronised lists and the stored proxy mode are fields of
    `ListStore`; `available` is whether the storage API exists. */
module ListEditor {
  import opened Text
  import opened Types

  // ---------------------------------------------------------------------
  // Deleting

  /** `list.filter((item) => item !== url)`. */
  function Without(list: seq<string>, url: string): (r: seq<string>)
    ensures url !in r
    ensures multiset(r) == multiset(list)[url := 0]
  {
    if |list| == 0 then []
    else
      assert list == [list[0]] + list[1..];
      if list[0] == url then Without(list[1..], url)
      else [list[0]] + Without(list[1..], url)
  }

  /** Filtering distributes over concatenation, so the kept entries stay in
      their order. */
  lemma {:induction false} WithoutConcat(a: seq<string>, b: seq<string>, url: string)
    ensures Without(a + b, url) == Without(a, url) + Without(b, url)
  {
    if |a| == 0 {
      assert a + b == b;
    } else {
      assert (a + b)[1..] == a[1..] + b;
      WithoutConcat(a[1..], b, url);
    }
  }

  /** Deleting twice is deleting once. */
  lemma {:induction false} WithoutIdempotent(list: seq<string>, url: string)
    ensures Without(Without(list, url), url) == Without(list, url)
  {
    if |list| > 0 {
      WithoutIdempotent(list[1..], url);
    }
  }

  // ---------------------------------------------------------------------
  // Adding

  /** `'*.' + selectedURL`; a null selection prints as "null". */
  function Wildcard(selected: Option<string>): string
  {
    "*." + selected.GetOr("null")
  }

  /** The two pushes of `onAdd`: the selection if it is a non-empty string
      not yet listed, then its wildcard unless only this host is wanted or
      it is already listed. */
  function Added(list: seq<string>, selected: Option<string>, thisHostOnly: bool): (r: seq<string>)
    ensures |r| >= |list| && r[..|list|] == list
    ensures selected.Some? && selected.value != "" ==> selected.value in r
    ensures !thisHostOnly ==> Wildcard(selected) in r
    ensures forall x :: x in r && x !in list ==>
              (selected.Some? && selected.value != "" && x == selected.value)
              || (!thisHostOnly && x == Wildcard(selected))
    ensures forall i :: |list| <= i < |r| ==> r[i] !in r[..i]
    ensures |r| <= |list| + 2
    ensures |r| == |list| + 2 ==>
              selected.Some? && r[|list|] == selected.value && r[|list| + 1] == Wildcard(selected)
  {
    var l1 := if selected.Some? && selected.value != "" && selected.value !in list then list + [selected.value] else list;
    if !thisHostOnly && Wildcard(selected) !in l1 then l1 + [Wildcard(selected)] else l1
  }

  predicate NoDuplicates(list: seq<string>)
  {
    forall i, j :: 0 <= i < j < |list| ==> list[i] != list[j]
  }

  /** Adding never introduces a duplicate. */
  lemma AddedNoDuplicates(list: seq<string>, selected: Option<string>, thisHostOnly: bool)
    requires NoDuplicates(list)
    ensures NoDuplicates(Added(list, selected, thisHostOnly))
  {
    var s := selected.GetOr("null");
    WildcardDiffers(s);
    var l1 := if selected.Some? && selected.value != "" && selected.value !in list then list + [selected.value] else list;
    assert NoDuplicates(l1);
  }

  lemma WildcardDiffers(s: string)
    ensures "*." + s != s
  {
    assert |"*." + s| == |s| + 2;
  }

  /** Adding the same selection twice gives the list of adding it once. */
  lemma AddedIdempotent(list: seq<string>, selected: Option<string>, thisHostOnly: bool)
    ensures Added(Added(list, selected, thisHostOnly), selected, thisHostOnly) == Added(list, selected, thisHostOnly)
  {
  }

  // ---------------------------------------------------------------------
  // Choosing a host suffix

  /** The dot-separated labels of a host. */
  function Labels(host: string): seq<string>
  {
    Split(host, '.')
  }

  /** `host.split('.').slice(index).join('.')`: the host from label `index`
      on (empty past the last label). */
  function SelectSuffix(host: string, index: nat): string
  {
    var labels := Labels(host);
    if index >= |labels| then "" else Join(".", labels[index..])
  }

  /** The parts the selector shows: the labels with the last two merged
      (`splice(length - 2, 2, slice(-2).join('.'))`); a single label stays
      as it is. */
  function DisplayParts(labels: seq<string>): (r: seq<string>)
    requires |labels| > 0
    ensures |r| == if |labels| >= 2 then |labels| - 1 else 1
    ensures |labels| == 1 ==> r == labels
    ensures |labels| >= 2 ==>
      r == labels[..|labels| - 2] + [labels[|labels| - 2] + "." + labels[|labels| - 1]]
  {
    var start := if |labels| >= 2 then |labels| - 2 else 0;
    var last := labels[start..];
    assert |labels| >= 2 ==>
      last[1..] == [labels[|labels| - 1]] && Join(".", last) == last[0] + "." + last[1];
    labels[..start] + [Join(".", last)]
  }

  /** The shown parts, joined with dots, read as the host itself. */
  lemma DisplayPartsJoin(host: string)
    ensures Join(".", DisplayParts(Labels(host))) == host
  {
    var labels := Labels(host);
    var start := if |labels| >= 2 then |labels| - 2 else 0;
    JoinSplit(host, '.');
    JoinAppend(".", labels[..start], labels[start..]);
    assert labels[..start] + labels[start..] == labels;
  }

  /** Joining a prefix and a non-empty rest is joining the prefix, then the
      joined rest as one part. */
  lemma {:induction false} JoinAppend(sep: string, a: seq<string>, b: seq<string>)
    requires |b| > 0
    ensures Join(sep, a + [Join(sep, b)]) == Join(sep, a + b)
  {
    if |a| > 0 {
      JoinAppend(sep, a[1..], b);
      assert (a + [Join(sep, b)])[1..] == a[1..] + [Join(sep, b)];
      assert (a + b)[1..] == a[1..] + b;
      if |a| == 1 {
        assert a[1..] + b == b;
        assert a[1..] + [Join(sep, b)] == [Join(sep, b)];
      }
    } else {
      assert a + b == b;
      assert a + [Join(sep, b)] == [Join(sep, b)];
    }
  }

  /** Clicking any shown part of a host with two or more labels selects the
      labels from that part on, which always include the last two. */
  lemma SuffixKeepsLastTwo(host: string, index: nat)
    requires |Labels(host)| >= 2 && index < |DisplayParts(Labels(host))|
    ensures var labels := Labels(host);
            && Labels(SelectSuffix(host, index)) == labels[index..]
            && |labels[index..]| >= 2
            && labels[index..][|labels[index..]| - 2..] == labels[|labels| - 2..]
  {
    var labels := Labels(host);
    SplitJoin(labels[index..], '.');
  }

  // ---------------------------------------------------------------------
  // Example hosts

  /** `pass`: the host itself, and, when subdomains are included, an
      example subdomain and the wildcard. `None` when nothing is selected. */
  function Pass(demo: Option<string>, selected: Option<string>, thisHostOnly: bool): Option<seq<string>>
  {
    var h := if demo.Some? then demo else selected;
    match h
    case None => None
    case Some(host) =>
      var shown := Join(".", Labels(host));
      Some([shown] + (if !thisHostOnly then ["example." + shown, "*." + shown] else []))
  }

  /** `reject`: the example subdomain and wildcard when only this host is
      wanted, then the parent domain when there are more than two labels,
      and an example sibling when there are more than one. */
  function Reject(demo: Option<string>, selected: Option<string>, thisHostOnly: bool): Option<seq<string>>
  {
    var h := if demo.Some? then demo else selected;
    match h
    case None => None
    case Some(host) =>
      var labels := Labels(host);
      var shown := Join(".", labels);
      var parent := Join(".", labels[1..]);
      Some((if thisHostOnly then ["example." + shown, "*." + shown] else [])
           + (if |labels| > 2 then [parent] else [])
           + (if |labels| > 1 then ["example." + parent] else []))
  }

  /** The host always passes. Its example subdomain and wildcard pass
      exactly when subdomains are included and are rejected exactly when
      they are not. The parent domain is rejected exactly when the host has
      more than two labels; an example sibling under the parent is rejected
      whenever there is more than one label (for a single label it is
      "example.", which only the empty host with this host only rejects).
      Nothing else is rejected. */
  lemma PassRejectSplit(demo: Option<string>, selected: Option<string>, thisHostOnly: bool)
    requires demo.Some? || selected.Some?
    ensures var host := if demo.Some? then demo.value else selected.value;
            var labels := Labels(host);
            var parent := Join(".", labels[1..]);
            var p, r := Pass(demo, selected, thisHostOnly).value, Reject(demo, selected, thisHostOnly).value;
            && host in p
            && ("example." + host in p <==> !thisHostOnly)
            && ("*." + host in p <==> !thisHostOnly)
            && ("example." + host in r <==> thisHostOnly)
            && ("*." + host in r <==> thisHostOnly)
            && (parent in r <==> |labels| > 2)
            && (|labels| > 1 ==> "example." + parent in r)
            && (|labels| == 1 ==> ("example." + parent in r <==> thisHostOnly && host == ""))
            && |r| == (if thisHostOnly then 2 else 0) + (if |labels| > 2 then 1 else 0) + (if |labels| > 1 then 1 else 0)
  {
    var host := if demo.Some? then demo.value else selected.value;
    var labels := Labels(host);
    var parent := Join(".", labels[1..]);
    JoinSplit(host, '.');
    WildcardDiffers(host);
    ExampleLonger(host);
    RejectDistinct(host);
    var ex, wc, sib := "example." + host, "*." + host, "example." + parent;
    var front: seq<string> := if thisHostOnly then [ex, wc] else [];
    var mid: seq<string> := if |labels| > 2 then [parent] else [];
    var back: seq<string> := if |labels| > 1 then [sib] else [];
    assert Reject(demo, selected, thisHostOnly).value == front + mid + back;
  }

  /** The candidates for rejection differ from one another, except the
      example subdomain and sibling of the empty host. */
  lemma RejectDistinct(host: string)
    ensures var labels := Labels(host);
            var parent := Join(".", labels[1..]);
            && "example." + host != parent && "*." + host != parent
            && "*." + host != "example." + parent && parent != "example." + parent
            && ("example." + host == "example." + parent <==> |labels| == 1 && host == "")
            && "example." + host != "*." + host
            && (|labels| == 1 ==> parent == "")
  {
    var labels := Labels(host);
    var parent := Join(".", labels[1..]);
    ParentShorter(host);
    assert ("*." + host)[0] == '*';
    assert ("example." + parent)[0] == 'e';
    assert |"example." + host| == |host| + 8 && |"*." + host| == |host| + 2;
    assert |"example." + parent| == |parent| + 8;
    if "example." + host == "example." + parent {
      assert host == ("example." + host)[8..] == ("example." + parent)[8..] == parent;
    }
    if |labels| == 1 && host == "" {
      assert "example." + host == "example." + parent;
    }
  }

  /** Dropping the first label of a host with several labels shortens it;
      with one label there is no parent left. */
  lemma ParentShorter(host: string)
    ensures var labels := Labels(host);
            && (|labels| >= 2 ==> |Join(".", labels[1..])| < |host|)
            && (|labels| == 1 ==> Join(".", labels[1..]) == "")
  {
    var labels := Labels(host);
    JoinSplit(host, '.');
    if |labels| >= 2 {
      assert host == labels[0] + "." + Join(".", labels[1..]);
    }
  }

  lemma ExampleLonger(s: string)
    ensures "example." + s != s && "example." + s != "*." + s
  {
    assert |"example." + s| == |s| + 8;
  }

  // ---------------------------------------------------------------------
  // The storage-backed handlers

  class ListStore {
    const available: bool
    var whitelist: Option<seq<string>>
    var blacklist: Option<seq<string>>
    var proxyMode: Option<ProxyMode>
    /** Connect requests sent to the background worker. */
    var sent: seq<VM>

    constructor(available: bool, whitelist: Option<seq<string>>, blacklist: Option<seq<string>>)
      ensures this.available == available && this.whitelist == whitelist && this.blacklist == blacklist
      ensures proxyMode == None && sent == []
    {
      this.available := available;
      this.whitelist := whitelist;
      this.blacklist := blacklist;
      this.proxyMode := None;
      this.sent := [];
    }

    /** `onDelete`: remove every occurrence of `url` from the whitelist in
        whitelist mode, from the blacklist otherwise (an absent list reads
        as empty). The other list is untouched. */
    method OnDelete(mode: ProxyMode, url: string)
      modifies this
      ensures proxyMode == old(proxyMode) && sent == old(sent)
      ensures !available ==> whitelist == old(whitelist) && blacklist == old(blacklist)
      ensures available && mode == Whitelist ==>
        whitelist == Some(Without(old(whitelist).GetOr([]), url)) && blacklist == old(blacklist)
      ensures available && mode != Whitelist ==>
        blacklist == Some(Without(old(blacklist).GetOr([]), url)) && whitelist == old(whitelist)
    {
      if !available {
        return;
      }
      if mode == Whitelist {
        whitelist := Some(Without(whitelist.GetOr([]), url));
      } else {
        blacklist := Some(Without(blacklist.GetOr([]), url));
      }
    }

    /** `onAdd`: read the chosen list (absent reads as empty), push the
        selection and its wildcard as `Added` says, and write it back. */
    method OnAdd(listType: ProxyMode, selected: Option<string>, thisHostOnly: bool)
      requires listType != Disable
      modifies this
      ensures proxyMode == old(proxyMode) && sent == old(sent)
      ensures !available ==> whitelist == old(whitelist) && blacklist == old(blacklist)
      ensures available && listType == Whitelist ==>
        whitelist == Some(Added(old(whitelist).GetOr([]), selected, thisHostOnly)) && blacklist == old(blacklist)
      ensures available && listType == Blacklist ==>
        blacklist == Some(Added(old(blacklist).GetOr([]), selected, thisHostOnly)) && whitelist == old(whitelist)
    {
      if !available {
        return;
      }
      var list := StoredList(Prefs(None, None, whitelist, blacklist), listType).GetOr([]);
      if selected.Some? && selected.value != "" && selected.value !in list {
        list := list + [selected.value];
      }
      if !thisHostOnly && Wildcard(selected) !in list {
        list := list + [Wildcard(selected)];
      }
      if listType == Whitelist {
        whitelist := Some(list);
      } else {
        blacklist := Some(list);
      }
    }

    /** `onProxyModeChange`: store the mode, then reconnect the current
        session, if any, so the new mode takes effect. */
    method OnProxyModeChange(mode: ProxyMode, vmData: Option<VM>)
      modifies this
      ensures whitelist == old(whitelist) && blacklist == old(blacklist)
      ensures !available ==> proxyMode == old(proxyMode) && sent == old(sent)
      ensures available ==> proxyMode == Some(mode)
      ensures available ==> sent == old(sent) + (if vmData.Some? then [vmData.value] else [])
    {
      if !available {
        return;
      }
      proxyMode := Some(mode);
      if vmData.None? {
        return;
      }
      sent := sent + [vmData.value];
    }
  }
}
