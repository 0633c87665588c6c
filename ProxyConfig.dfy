/** The proxy-configuration builder of the background worker
    (`createProxyConfig`, `createChatGPTPac`, `createCustomPac`), and its
    compiled twin, which has the same logic.

    The two storage reads become the `prefs` argument. */
module ProxyConfigBuilder {
  import opened Text
  import opened Types
  import opened Pac

  /** The control-plane host, always sent through the proxy by the scripts. */
  const ApiHost: string := "api.cocomine.cc"

  /** The hosts the single-service script sends through the proxy, in the
      order the script tests them. */
  const ChatGptHosts: seq<string> := ["openai.com", "chatgpt.com", "api.cocomine.cc", "sora.com"]

  /** The condition of the single-service script: one `dnsDomainIs` call
      per host, joined with " || ". */
  const ChatGptCondition: string := Join(" || ", Calls(DnsTests(ChatGptHosts)))

  /** What the builder returns: the configuration to apply and the VM it was
      built for. */
  datatype ProxyConfigResult = ProxyConfigResult(config: ProxyConfig, vmData: VM)

  predicate HasSocks5(profiles: seq<Profile>)
  {
    exists i :: 0 <= i < |profiles| && profiles[i].kind == Socks5
  }

  /** `profiles.find((p) => p.type === 'socks5')`: the first SOCKS5 profile. */
  function FirstSocks5(profiles: seq<Profile>): (r: Option<Profile>)
    ensures r.None? <==> !HasSocks5(profiles)
    ensures r.Some? ==> exists i :: 0 <= i < |profiles| && profiles[i] == r.value
                                    && r.value.kind == Socks5
                                    && forall j :: 0 <= j < i ==> profiles[j].kind != Socks5
  {
    if |profiles| == 0 then None
    else if profiles[0].kind == Socks5 then Some(profiles[0])
    else
      var r := FirstSocks5(profiles[1..]);
      assert r.Some? ==> exists i :: 0 <= i < |profiles| && profiles[i] == r.value
                                    && forall j :: 0 <= j < i ==> profiles[j].kind != Socks5 by {
        if r.Some? {
          var i :| 0 <= i < |profiles[1..]| && profiles[1..][i] == r.value
                   && forall j :: 0 <= j < i ==> profiles[1..][j].kind != Socks5;
          assert profiles[i + 1] == r.value;
          assert forall j :: 0 <= j < i + 1 ==> profiles[j].kind != Socks5 by {
            forall j | 0 <= j < i + 1 ensures profiles[j].kind != Socks5 {
              if j > 0 { assert profiles[j] == profiles[1..][j - 1]; }
            }
          }
        }
      }
      assert r.None? ==> !HasSocks5(profiles) by {
        if r.None? {
          forall i | 1 <= i < |profiles| ensures profiles[i].kind != Socks5 {
            assert profiles[i] == profiles[1..][i - 1];
          }
        }
      }
      r
  }

  /** `${profile.url}`: an absent url prints as "undefined". */
  function UrlText(p: Profile): string
  {
    p.url.GetOr("undefined")
  }

  /** The proxy directive of a script, `SOCKS5 <url>`. */
  function Socks5Directive(p: Profile): string
  {
    "SOCKS5 " + UrlText(p)
  }

  /** The tests the single-service script combines with `||`. */
  function DnsTests(hosts: seq<string>): (r: seq<PacTest>)
    ensures |r| == |hosts| && forall i :: 0 <= i < |hosts| ==> r[i] == DnsDomainIs(hosts[i])
  {
    seq(|hosts|, i requires 0 <= i < |hosts| => DnsDomainIs(hosts[i]))
  }

  /** One `shExpMatch` test per list entry, in list order. */
  function Patterns(urls: seq<string>): (r: seq<PacTest>)
    ensures |r| == |urls| && forall i :: 0 <= i < |urls| ==> r[i] == ShExpMatch(urls[i])
  {
    seq(|urls|, i requires 0 <= i < |urls| => ShExpMatch(urls[i]))
  }

  /** `createChatGPTPac`: empty without a SOCKS5 profile, otherwise the
      single-service script with its line feeds removed. */
  function ChatGptPac(vm: VM): (r: string)
    ensures r == "" <==> !HasSocks5(vm.profiles)
    ensures '\n' !in r
    ensures HasSocks5(vm.profiles) ==>
      r == ScriptText(Render(AnyOf(DnsTests(ChatGptHosts))),
                      StripNewlines(Socks5Directive(FirstSocks5(vm.profiles).value)))
  {
    match FirstSocks5(vm.profiles)
    case None => ""
    case Some(p) =>
      ChatGptConditionRendered();
      OneLine(ChatGptCondition, Socks5Directive(p));
      ChatGptConditionOneLine();
      StripNewlinesNoop(ChatGptCondition);
      ScriptTextNonEmpty(Render(AnyOf(DnsTests(ChatGptHosts))), StripNewlines(Socks5Directive(p)));
      StripNewlines(Template(ChatGptCondition, Socks5Directive(p)))
  }

  /** The list part of a custom-rule condition: the whitelist joins
      `shExpMatch` tests with " || ", the blacklist joins negated tests with
      " && ". An empty list gives the empty string. */
  function ListCondition(mode: ProxyMode, urls: seq<string>): string
  {
    if mode == Whitelist then Join(" || ", Calls(Patterns(urls)))
    else Join(" && ", NegatedCalls(Patterns(urls)))
  }

  /** The whole custom-rule condition: the control-plane host first. */
  function CustomCondition(mode: ProxyMode, urls: seq<string>): string
  {
    CallText(DnsDomainIs(ApiHost)) + " || " + ListCondition(mode, urls)
  }

  /** Every entry with its line feeds removed. */
  function StripEach(urls: seq<string>): (r: seq<string>)
    ensures |r| == |urls| && forall i :: 0 <= i < |urls| ==> r[i] == StripNewlines(urls[i])
  {
    seq(|urls|, i requires 0 <= i < |urls| => StripNewlines(urls[i]))
  }

  /** `createCustomPac`: empty without a SOCKS5 profile, otherwise the
      custom-rule script with its line feeds removed (including any inside
      the list entries or the url). */
  function CustomPac(vm: VM, mode: ProxyMode, urls: seq<string>): (r: string)
    ensures r == "" <==> !HasSocks5(vm.profiles)
    ensures '\n' !in r
    ensures HasSocks5(vm.profiles) ==>
      r == ScriptText(CustomCondition(mode, StripEach(urls)),
                      StripNewlines(Socks5Directive(FirstSocks5(vm.profiles).value)))
  {
    match FirstSocks5(vm.profiles)
    case None => ""
    case Some(p) =>
      OneLine(CustomCondition(mode, urls), Socks5Directive(p));
      StripCustomCondition(mode, urls);
      ScriptTextNonEmpty(CustomCondition(mode, StripEach(urls)), StripNewlines(Socks5Directive(p)));
      StripNewlines(Template(CustomCondition(mode, urls), Socks5Directive(p)))
  }

  predicate IsListMode(m: Option<ProxyMode>)
  {
    m == Some(Whitelist) || m == Some(Blacklist)
  }

  /** The builder takes the fixed-proxy branch: no list mode, and the
      single-service flag not set. */
  predicate UsesFixedProxy(prefs: Prefs)
  {
    !IsListMode(prefs.proxyMode) && prefs.chatGPTOnly != Some(true)
  }

  /** The fixed-proxy branch reads `profile.url.split(':')`, which throws
      when the first SOCKS5 profile has no url. */
  predicate FixedUrlPresent(vm: VM, prefs: Prefs)
  {
    UsesFixedProxy(prefs) && FirstSocks5(vm.profiles).Some? ==> FirstSocks5(vm.profiles).value.url.Some?
  }

  /** `const [host, port] = url.split(':')` and
      `{scheme: 'socks5', host, port: parseInt(port, 10)}`. */
  function Endpoint(url: string): (s: ProxyServer)
    ensures s.scheme == "socks5"
    ensures ':' !in s.host && |s.host| <= |url| && url[..|s.host|] == s.host
    ensures |s.host| < |url| ==> url[|s.host|] == ':'
  {
    var fields := Split(url, ':');
    SplitFirstField(url, ':');
    ProxyServer("socks5", fields[0], ParseInt(if |fields| > 1 then Some(fields[1]) else None, false))
  }

  /** `createProxyConfig`. */
  function CreateProxyConfig(vm: VM, prefs: Prefs): (r: ProxyConfigResult)
    requires FixedUrlPresent(vm, prefs)
    ensures r.vmData == vm
    ensures r.config.PacScript? <==> !UsesFixedProxy(prefs)
    ensures r.config.PacScript? ==> '\n' !in r.config.data
    ensures r.config.Direct? <==> UsesFixedProxy(prefs) && !HasSocks5(vm.profiles)
    ensures IsListMode(prefs.proxyMode) ==>
      r.config.data == CustomPac(vm, prefs.proxyMode.value,
                                 StoredList(prefs, prefs.proxyMode.value).GetOr([]))
    ensures !IsListMode(prefs.proxyMode) && prefs.chatGPTOnly == Some(true) ==>
      r.config.data == ChatGptPac(vm)
    ensures r.config.FixedServers? ==>
      r.config.singleProxy == Endpoint(FirstSocks5(vm.profiles).value.url.value)
  {
    var mode := prefs.proxyMode;
    if IsListMode(mode) then
      var urls := StoredList(prefs, mode.value).GetOr([]);
      ProxyConfigResult(PacScript(CustomPac(vm, mode.value, urls)), vm)
    else if prefs.chatGPTOnly == Some(true) then
      ProxyConfigResult(PacScript(ChatGptPac(vm)), vm)
    else
      match FirstSocks5(vm.profiles)
      case None => ProxyConfigResult(Direct, vm)
      case Some(p) => ProxyConfigResult(FixedServers(Endpoint(p.url.value)), vm)
  }

  // ---------------------------------------------------------------------
  // Lemmas

  /** The single-service condition is the disjunction of the four host
      tests, in order. */
  lemma ChatGptConditionRendered()
    ensures ChatGptCondition == Render(AnyOf(DnsTests(ChatGptHosts)))
  {
    RenderAnyOf(DnsTests(ChatGptHosts));
  }

  /** The single-service script sends a request through the proxy exactly
      when the host is in one of the four domains. */
  lemma ChatGptRuleMeaning(holds: PacTest -> bool)
    ensures Eval(AnyOf(DnsTests(ChatGptHosts)), holds)
        <==> exists i :: 0 <= i < |ChatGptHosts| && holds(DnsDomainIs(ChatGptHosts[i]))
  {
    var ts := DnsTests(ChatGptHosts);
    EvalAnyOf(ts, holds);
    assert forall i :: 0 <= i < |ts| ==> ts[i] == DnsDomainIs(ChatGptHosts[i]);
  }

  /** The condition a non-empty list produces, as a syntax tree: a
      disjunction of tests for the whitelist, a conjunction of negated tests
      for the blacklist. */
  function ListRule(mode: ProxyMode, urls: seq<string>): PacCond
    requires |urls| > 0
  {
    if mode == Whitelist then AnyOf(Patterns(urls)) else NoneOf(Patterns(urls))
  }

  /** The custom rule: the control-plane host, or the list rule. */
  function CustomRule(mode: ProxyMode, urls: seq<string>): PacCond
    requires |urls| > 0
  {
    Or(Test(DnsDomainIs(ApiHost)), ListRule(mode, urls))
  }

  /** For a non-empty list the list condition is the text of `ListRule`. */
  lemma ListConditionRendered(mode: ProxyMode, urls: seq<string>)
    requires |urls| > 0
    ensures ListCondition(mode, urls) == Render(ListRule(mode, urls))
  {
    if mode == Whitelist {
      RenderAnyOf(Patterns(urls));
    } else {
      RenderNoneOf(Patterns(urls));
    }
  }

  /** What a list rule means: the whitelist proxies a host matching some
      entry, the blacklist a host matching no entry. */
  lemma ListRuleMeaning(mode: ProxyMode, urls: seq<string>, holds: PacTest -> bool)
    requires |urls| > 0
    ensures mode == Whitelist ==>
      (Eval(ListRule(mode, urls), holds) <==> exists i :: 0 <= i < |urls| && holds(ShExpMatch(urls[i])))
    ensures mode != Whitelist ==>
      (Eval(ListRule(mode, urls), holds) <==> forall i :: 0 <= i < |urls| ==> !holds(ShExpMatch(urls[i])))
  {
    var ts := Patterns(urls);
    if mode == Whitelist {
      EvalAnyOf(ts, holds);
    } else {
      EvalNoneOf(ts, holds);
    }
  }

  /** For a non-empty list the condition text is that of `CustomRule`: the
      blacklist's conjunction needs no parentheses after the `||`. */
  lemma CustomConditionRendered(mode: ProxyMode, urls: seq<string>)
    requires |urls| > 0
    ensures CustomCondition(mode, urls) == Render(CustomRule(mode, urls))
  {
    ListConditionRendered(mode, urls);
  }

  /** What a custom rule means: the control-plane host always goes through
      the proxy; otherwise the whitelist proxies a host matching some entry
      and the blacklist proxies a host matching no entry. */
  lemma CustomRuleMeaning(mode: ProxyMode, urls: seq<string>, holds: PacTest -> bool)
    requires |urls| > 0
    ensures mode == Whitelist ==>
      (Eval(CustomRule(mode, urls), holds)
       <==> holds(DnsDomainIs(ApiHost)) || exists i :: 0 <= i < |urls| && holds(ShExpMatch(urls[i])))
    ensures mode != Whitelist ==>
      (Eval(CustomRule(mode, urls), holds)
       <==> holds(DnsDomainIs(ApiHost)) || forall i :: 0 <= i < |urls| ==> !holds(ShExpMatch(urls[i])))
  {
    ListRuleMeaning(mode, urls, holds);
  }

  /** With an empty (or absent) list the condition ends in a dangling
      `|| `, so it is the text of no condition at all: the script the
      browser receives does not parse. */
  lemma EmptyListCondition(mode: ProxyMode)
    ensures CustomCondition(mode, []) == CallText(DnsDomainIs(ApiHost)) + " || "
    ensures forall c :: Render(c) != CustomCondition(mode, [])
  {
    var t := CustomCondition(mode, []);
    assert t[|t| - 1] == ' ';
    forall c ensures Render(c) != t {
      RenderEndsWithParen(c);
    }
  }

  /** A url of the form `host:port...` gives that host and port. */
  lemma EndpointOfHostPort(host: string, port: nat, rest: string)
    requires ':' !in host
    requires rest == [] || rest[0] == ':'
    ensures Endpoint(host + ":" + DecimalText(port) + rest) == ProxyServer("socks5", host, Some(port))
  {
    var d := DecimalText(port);
    var url := host + ":" + DecimalText(port) + rest;
    assert url == host + [':'] + (d + rest);
    SplitAtFirst(host, ':', d + rest);
    var fields := Split(url, ':');
    assert fields == [host] + Split(d + rest, ':');
    FirstFieldDigits(d, rest);
    assert fields[1] == d;
    ParseDecimalText(port, [], false);
    assert d + [] == d;
  }

  lemma FirstFieldDigits(d: string, rest: string)
    requires forall i :: 0 <= i < |d| ==> '0' <= d[i] <= '9'
    requires rest == [] || rest[0] == ':'
    ensures Split(d + rest, ':')[0] == d
  {
    assert ':' !in d;
    if rest == [] {
      assert d + rest == d;
      SplitNoSeparator(d, ':');
    } else {
      assert d + rest == d + [':'] + rest[1..];
      SplitAtFirst(d, ':', rest[1..]);
    }
  }

  /** A url without a colon is all host, and the missing port is NaN. */
  lemma EndpointWithoutPort(url: string)
    requires ':' !in url
    ensures Endpoint(url) == ProxyServer("socks5", url, None)
  {
    SplitNoSeparator(url, ':');
    ParseIntUndefined(false);
  }

  /** With the proxy mode off and the single-service flag unset, a VM
      whose first SOCKS5 profile is at `host:port` gets a fixed SOCKS5 proxy
      at that host and port. */
  lemma FixedProxyEndpoint(vm: VM, prefs: Prefs, host: string, port: nat)
    requires UsesFixedProxy(prefs)
    requires FirstSocks5(vm.profiles).Some?
    requires FirstSocks5(vm.profiles).value.url == Some(host + ":" + DecimalText(port))
    requires ':' !in host
    ensures FixedUrlPresent(vm, prefs)
    ensures CreateProxyConfig(vm, prefs).config == FixedServers(ProxyServer("socks5", host, Some(port)))
  {
    EndpointOfHostPort(host, port, []);
    assert host + ":" + DecimalText(port) + [] == host + ":" + DecimalText(port);
  }

  lemma ScriptTextNonEmpty(cond: string, directive: string)
    ensures ScriptText(cond, directive) != ""
  {
    assert |Head| > 0;
    assert ScriptLines(cond, directive)[0] == Head;
  }

  /** Removing line feeds from a custom-rule condition is the condition over
      the entries with their line feeds removed. */
  lemma StripCustomCondition(mode: ProxyMode, urls: seq<string>)
    ensures StripNewlines(CustomCondition(mode, urls)) == CustomCondition(mode, StripEach(urls))
  {
    StripPrefix(CallText(DnsDomainIs(ApiHost)) + " || ", ListCondition(mode, urls));
    if mode == Whitelist {
      StripJoin(" || ", Calls(Patterns(urls)));
      StripCalls(urls);
    } else {
      StripJoin(" && ", NegatedCalls(Patterns(urls)));
      StripNegatedCalls(urls);
    }
  }

  lemma StripPrefix(p: string, x: string)
    requires '\n' !in p
    ensures StripNewlines(p + x) == p + StripNewlines(x)
  {
    StripNewlinesConcat(p, x);
    StripNewlinesNoop(p);
  }

  lemma StripCalls(urls: seq<string>)
    ensures StripAll(Calls(Patterns(urls))) == Calls(Patterns(StripEach(urls)))
  {
    var ts, ts' := Patterns(urls), Patterns(StripEach(urls));
    forall i | 0 <= i < |urls| ensures StripAll(Calls(ts))[i] == Calls(ts')[i] {
      CallsAt(ts, i);
      CallsAt(ts', i);
      StripPatternCall(urls[i]);
    }
  }

  lemma StripNegatedCalls(urls: seq<string>)
    ensures StripAll(NegatedCalls(Patterns(urls))) == NegatedCalls(Patterns(StripEach(urls)))
  {
    var ts, ts' := Patterns(urls), Patterns(StripEach(urls));
    forall i | 0 <= i < |urls| ensures StripAll(NegatedCalls(ts))[i] == NegatedCalls(ts')[i] {
      NegatedCallsAt(ts, i);
      NegatedCallsAt(ts', i);
      StripPatternCall(urls[i]);
      StripPrefix("!", CallText(ShExpMatch(urls[i])));
    }
  }

  lemma StripPatternCall(u: string)
    ensures StripNewlines(CallText(ShExpMatch(u))) == CallText(ShExpMatch(StripNewlines(u)))
  {
    StripBetween("shExpMatch(host, \"", u, "\")");
  }

  /** A call on an argument without line feeds has none. */
  lemma DnsCallNoNewline(d: string)
    requires '\n' !in d
    ensures '\n' !in CallText(DnsDomainIs(d))
  {
  }

  /** Joining pieces without line feeds on a separator without any gives
      text without any. */
  lemma {:induction false} JoinNoNewline(sep: string, parts: seq<string>)
    requires '\n' !in sep
    requires forall i :: 0 <= i < |parts| ==> '\n' !in parts[i]
    ensures '\n' !in Join(sep, parts)
  {
    if |parts| > 1 {
      JoinNoNewline(sep, parts[1..]);
    }
  }

  /** The single-service condition has no line feed. */
  lemma ChatGptConditionOneLine()
    ensures '\n' !in ChatGptCondition
  {
    var ts := DnsTests(ChatGptHosts);
    forall i | 0 <= i < |ts| ensures '\n' !in Calls(ts)[i] {
      CallsAt(ts, i);
      DnsCallNoNewline(ChatGptHosts[i]);
    }
    JoinNoNewline(" || ", Calls(ts));
  }

  lemma {:induction false} CallsAt(ts: seq<PacTest>, i: nat)
    requires i < |ts|
    ensures Calls(ts)[i] == CallText(ts[i])
  {
    if i > 0 { CallsAt(ts[1..], i - 1); }
  }

  lemma {:induction false} NegatedCallsAt(ts: seq<PacTest>, i: nat)
    requires i < |ts|
    ensures NegatedCalls(ts)[i] == "!" + CallText(ts[i])
  {
    if i > 0 { NegatedCallsAt(ts[1..], i - 1); }
  }

  /** Removing line feeds commutes with joining on a separator without any. */
  lemma {:induction false} StripJoin(sep: string, parts: seq<string>)
    requires '\n' !in sep
    ensures StripNewlines(Join(sep, parts)) == Join(sep, StripAll(parts))
  {
    if |parts| > 1 {
      StripJoin(sep, parts[1..]);
      StripNewlinesConcat(parts[0] + sep, Join(sep, parts[1..]));
      StripNewlinesConcat(parts[0], sep);
      StripNewlinesNoop(sep);
      assert StripAll(parts)[1..] == StripAll(parts[1..]);
    }
  }
}
