# CocomineVPN browser extension — a Dafny model of its proxy logic

This project models the decision-making core of the CocomineVPN browser extension. The extension connects the browser to a VPN node (a "VM" session) of the service through a SOCKS5 proxy. The model covers:

- the **proxy-configuration builder**. It chooses a fixed SOCKS5 proxy, a one-line PAC script (whitelist, blacklist or single-service), or a direct connection. The current TypeScript builder and its compiled JavaScript twin share the same logic, so one model serves both.
- the **older background worker**: its builder, its Connect handler and its start-up expiry purge.
- the **session controller** of the current background worker. It applies the proxy, probes the connection up to 60 failures, stores the session, arms the two expiry alarms, shows notifications and handles notification clicks.
- the **content scripts**, current and older. They answer the page's "installed" question, forward Connect and relay the answer, and reconcile the stored session with the list the page posts.
- the **allow/deny list editor**: deleting, adding an entry and its wildcard, choosing a host suffix from its labels, and the pass/reject example lists.
- the popup's **connection status mirrors**, current and older, including the older single-service flag.
- the popup's older **`getProxyData`**, which reads a fixed proxy host and extracts a country code from it.

Modules and files:

- `Text.dfy` (`Text`): the JavaScript string operations the code relies on. These are `split`, `join`, `replace(/\n/g, '')`, `endsWith` and `parseInt`, with and without a radix.
- `Types.dfy` (`Types`): the session descriptor, profiles, preferences, proxy configurations and worker replies.
- `Pac.dfy` (`Pac`): PAC conditions as syntax trees, their rendering to text, their meaning for given test outcomes, and the six-line script template.
- `ProxyConfig.dfy` (`ProxyConfigBuilder`): `createProxyConfig`, `createChatGPTPac` and `createCustomPac`.
- `LegacyWorker.dfy` (`LegacyWorker`): the older worker.
- `Controller.dfy` (`SessionController`): the current worker, as a class.
- `Content.dfy` (`PageBridge`) and `LegacyContent.dfy` (`LegacyPageBridge`): the content scripts.
- `ListEditor.dfy` (`ListEditor`): the list editor.
- `ProxyStatus.dfy` (`ProxyStatus`): the status hooks.
- `AppStatus.dfy` (`AppStatus`): `getProxyData`.

Browser APIs are fields of the classes: the proxy setting, storage, alarms, notifications, tabs and runtime replies. Each API call is an update of those fields. The clock is a `now` parameter. The ping request's outcome is the `ok` parameter of `PingTick`. Each firing of the interval timer is one call of `PingTick`.

## Model

| member | source | states |
|---|---|---|
| ProxyConfigBuilder.FirstSocks5 | src/extension/createProxyConfig.ts:38 | `None` exactly when no profile is SOCKS5; otherwise a SOCKS5 profile of the list with no SOCKS5 profile before it |
| ProxyConfigBuilder.ChatGptPac | src/extension/createProxyConfig.ts:55-64 | empty exactly when there is no SOCKS5 profile; never contains a line feed; otherwise the one-line script whose condition is the or-chain of the four `dnsDomainIs` tests and whose directive is `SOCKS5 <url>` with line feeds removed |
| ProxyConfigBuilder.CustomPac | src/extension/createProxyConfig.ts:66-79 | empty exactly when there is no SOCKS5 profile; never contains a line feed; otherwise the one-line script over the control-plane test, `" \|\| "`, and the list condition built from the entries with their line feeds removed |
| ProxyConfigBuilder.Endpoint | src/extension/createProxyConfig.ts:43-47 | scheme `socks5`; the host is the part of the url before its first `:`, holds no `:`, and is followed by `:` when the url is longer |
| ProxyConfigBuilder.CreateProxyConfig | src/extension/createProxyConfig.ts:9-53 | the VM is returned unchanged; a PAC script exactly when a list mode or the single-service flag is set, with no line feed in it; list mode takes precedence and uses the stored list or `[]`; direct exactly in the fixed branch without a SOCKS5 profile; otherwise the endpoint of the first SOCKS5 url |
| ProxyConfigBuilder.ChatGptConditionRendered | src/extension/createProxyConfig.ts:59 | the single-service condition text is the rendering of the or-chain of `dnsDomainIs` tests on the four hosts, in order |
| ProxyConfigBuilder.ChatGptRuleMeaning | public/worker/proxy.js:48-52 | the single-service condition holds exactly when one of the four host tests holds |
| ProxyConfigBuilder.ListConditionRendered | src/extension/createProxyConfig.ts:69-72 | for a non-empty list the condition is the rendering of an or-chain of `shExpMatch` tests (whitelist) or an and-chain of negated tests (blacklist), in list order |
| ProxyConfigBuilder.ListRuleMeaning | public/worker/proxy.js:59-61 | the whitelist rule holds exactly when some entry matches; the blacklist rule holds exactly when no entry matches |
| ProxyConfigBuilder.CustomConditionRendered | src/extension/createProxyConfig.ts:74 | for a non-empty list the custom condition is the rendering of `dnsDomainIs(host, "api.cocomine.cc") \|\| <list rule>` |
| ProxyConfigBuilder.CustomRuleMeaning | public/worker/proxy.js:62-63 | the control-plane host always goes through the proxy, in both list modes; other hosts follow the list rule |
| ProxyConfigBuilder.EmptyListCondition | src/extension/createProxyConfig.ts:69-74 | with an empty list the condition is the control-plane test followed by a dangling `" \|\| "`, which is the rendering of no condition |
| ProxyConfigBuilder.EndpointOfHostPort | src/extension/createProxyConfig.ts:43-47 | a url `host:port` with further `:`-fields or nothing after gives exactly that host and the decimal port |
| ProxyConfigBuilder.EndpointWithoutPort | src/extension/createProxyConfig.ts:43-47 | a url with no `:` gives the whole url as host and a NaN port |
| ProxyConfigBuilder.FixedProxyEndpoint | public/worker/proxy.js:28-40 | in the fixed branch, a first SOCKS5 profile at `host:port` yields `fixed_servers` with scheme socks5, that host and that port |
| ProxyConfigBuilder.StripCustomCondition | public/worker/proxy.js:62-67 | removing line feeds from the custom condition is building it from the entries with their line feeds removed |
| Pac.RenderAnyOf | src/extension/createProxyConfig.ts:71 | an or-chain of tests renders as the call texts joined by `" \|\| "` |
| Pac.RenderNoneOf | src/extension/createProxyConfig.ts:72 | an and-chain of negated tests renders as the `!`-prefixed call texts joined by `" && "` |
| Pac.EvalAnyOf | src/extension/createProxyConfig.ts:71 | an or-chain holds exactly when one of its tests holds |
| Pac.EvalNoneOf | src/extension/createProxyConfig.ts:72 | an and-chain of negations holds exactly when none of its tests holds |
| Pac.OneLine | src/extension/createProxyConfig.ts:73-78 | removing the line feeds of the six-line template gives the one-line script over the condition and directive with their own line feeds removed |
| Text.StripNewlinesIdentityIff | src/extension/createProxyConfig.ts:63 | `replace(/\n/g, '')` leaves a string unchanged exactly when it has no line feed |
| Text.SplitJoin | src/extension/createProxyConfig.ts:43 | splitting a join of separator-free parts gives the parts back |
| Text.JoinSplit | src/components/BlackWhiteList.tsx:181 | joining the split of a string with the same separator gives the string back |
| Text.ParseDecimalText | src/extension/createProxyConfig.ts:47 | `parseInt` of a number's decimal text followed by a non-digit gives the number, with or without a radix |
| Text.ParseNonNumeric | src/extension/createProxyConfig.ts:47 | `parseInt` of a text starting with no sign, white space or digit is NaN; white space is ECMAScript's, the Unicode space separators (Zs) and line terminators included |
| Text.ParseSkipsSpace | src/extension/createProxyConfig.ts:47 | leading white space, such as U+3000, is skipped before the number |
| Text.ParseIntUndefined | src/extension/createProxyConfig.ts:47 | `parseInt(undefined)` (no second field) is NaN |
| LegacyWorker.LegacyEndpoint | public/service-worker.js:54-61 | scheme socks5, and the same host as the current builder's endpoint |
| LegacyWorker.LegacyConfig | public/service-worker.js:28-67 | fails exactly when the chosen list is absent from storage or the fixed branch has no url; a PAC script exactly outside the fixed branch; list mode before the flag; the fixed branch uses the message's url |
| LegacyWorker.LegacyBackground.OnMessage | public/service-worker.js:12-25 | only Connect keeps the channel open; a Connect whose configuration builds applies it and replies `{connected: true}`; nothing else changes |
| LegacyWorker.LegacyBackground.OnStartup | public/service-worker.js:70-84 | the proxy and session are cleared exactly when a stored session's expiry is strictly before now; afterwards no expired session is stored |
| LegacyWorker.LegacyScriptLines | public/service-worker.js:88-93 | the older script, line feeds kept, is exactly six lines with the condition on the second and the directive on the third |
| LegacyWorker.LegacyChatRuleMeaning | public/service-worker.js:87-94 | the older single-service script proxies exactly openai.com and chatgpt.com, the first two of the current four |
| LegacyWorker.LegacyCustomCondition | public/service-worker.js:97-104 | the older custom script has six lines and its `if` line holds the list rule alone, with no control-plane test; an empty list gives `if ()` |
| LegacyWorker.LegacyEndpointOfHostPort | public/service-worker.js:54-61 | a decimal `host:port` url gives that host and port, as the current builder does |
| LegacyWorker.HexPortDiffers | public/service-worker.js:61 | a port written `0x` plus hex digits is read in base 16 here and as 0 by the current builder |
| SessionController.Band | src/extension/service-worker.ts:39-67 | the band chosen for a remaining time lies in that band's interval |
| SessionController.BandExact | src/extension/service-worker.ts:39-67 | the four bands partition the remaining time: over an hour, (30 min, 1 h], (0, 30 min], at most 0 |
| SessionController.BandMonotone | src/extension/service-worker.ts:39-64 | as the remaining time shrinks the band never moves back up |
| SessionController.AlarmsForShape | src/extension/service-worker.ts:211-225 | exactly two alarms: the check, every 15 minutes, one hour before the one-shot expiry alarm; a null expiry counts as now |
| SessionController.Controller.Notify | src/extension/service-worker.ts:41-42 | clear then create: the new notice replaces any earlier one under the id; nothing else changes |
| SessionController.Controller.CreateAlarms | src/extension/service-worker.ts:211-225 | every alarm is removed and exactly the two expiry alarms remain; nothing else changes |
| SessionController.Controller.Connect | src/extension/service-worker.ts:134-144 | the built configuration is applied; any running probe is replaced by one for this VM with a fresh count; no reply yet |
| SessionController.Controller.PingTick | src/extension/service-worker.ts:144-173 | success stops the probe, stores the VM, shows the connected notice, arms the alarms and replies true; failure counts up; the 61st failure replies false and stops the probe, leaving proxy and storage as they were |
| SessionController.Controller.Disconnect | src/extension/service-worker.ts:178-193 | proxy, session and every alarm are cleared, the disconnected notice is shown and false is replied; a running probe is not stopped |
| SessionController.Controller.AlarmsUpdate | src/extension/service-worker.ts:196-203 | alarms re-armed for the VM, the VM stored without a probe, `{updated: true}` replied |
| SessionController.Controller.OnMessage | src/extension/service-worker.ts:130-205 | dispatches Connect, Disconnect and AlarmsUpdate, each with the full new state of its handler (proxy, probe and count, session, alarms, notices, replies); any other type changes nothing |
| SessionController.Controller.OnAlarm | src/extension/service-worker.ts:28-91 | without a stored session nothing changes; the check warns with 60 or 30 minutes by band, or removes itself once the time is over; the expiry alarm clears proxy and session, shows the ended notice and removes only itself |
| SessionController.Controller.NotificationClicked | src/extension/service-worker.ts:98-107 | the extend page opens only for the time-left notification with a stored session |
| SessionController.Controller.ButtonClicked | src/extension/service-worker.ts:114-123 | the same, for the first button only |
| SessionController.ProbeAlwaysFailing | src/extension/service-worker.ts:165-171 | a probe that never succeeds fires exactly 61 times, then replies `{connected: false}`; the proxy stays applied and no session is stored |
| PageBridge.FindVmById | src/extension/content.ts:39 | the first non-null entry with the id, or `None` exactly when no non-null entry has it |
| PageBridge.ReconcileWith | src/extension/content.ts:23-36 | ignored exactly without a stored session or a matching entry; a powered-on match is stored; a powered-off match is disconnected |
| PageBridge.ConnectedFlag | src/extension/content.ts:18 | `Boolean(response?.connected)` is true exactly for a `{connected: true}` answer |
| PageBridge.ContentScript.OnPageMessage | src/extension/content.ts:4-37 | foreign or untyped messages change nothing; an asked install question is answered with the version; an asked Connect is forwarded; a posted list is reconciled |
| PageBridge.ContentScript.OnConnectResponse | src/extension/content.ts:17-19 | the worker's answer reaches the page as a boolean |
| PageBridge.ReconcileIdempotent | src/extension/content.ts:27-31 | posting the same list again after a store stores the same entry |
| PageBridge.ReconcileIgnoresOthers | src/extension/content.ts:27-34 | only the first entry with the stored id decides; null and other entries before it do not matter |
| PageBridge.FindAfterMisses | src/extension/content.ts:39 | the lookup skips leading entries without the id |
| LegacyPageBridge.LegacyFind | public/content.js:24 | the first entry with the id, or `None` exactly when none has it |
| LegacyPageBridge.ConnectedField | public/content.js:15 | `response.connected` is defined exactly for a Connect answer and is its value |
| LegacyPageBridge.LegacyContentScript.OnPageMessage | public/content.js:1-36 | the same three branches, with no type guard; a posted list must contain the stored id, since the lookup is not checked |
| LegacyPageBridge.LegacyContentScript.OnConnectResponse | public/content.js:13-16 | the answer's `connected` field is relayed unconverted |
| LegacyPageBridge.LegacyFindAgrees | public/content.js:24 | on lists without nulls the older lookup returns what the current one returns |
| LegacyPageBridge.RelayDifference | public/content.js:15 | both relays agree on Connect answers; on other answers the older one passes `undefined` where the current one says false |
| ListEditor.Without | src/components/BlackWhiteList.tsx:33 | the url no longer occurs, and every other entry keeps its count |
| ListEditor.WithoutConcat | src/components/BlackWhiteList.tsx:33 | filtering distributes over concatenation, so the kept entries stay in order |
| ListEditor.WithoutIdempotent | src/components/BlackWhiteList.tsx:33 | deleting twice is deleting once |
| ListEditor.Added | src/components/BlackWhiteList.tsx:266-268 | the old list is a prefix of the result; a non-empty selection is in it; the wildcard is in it unless only this host is wanted; nothing else is new; each appended entry was absent before it, at most two are appended, and when two are, the selection comes before the wildcard |
| ListEditor.AddedNoDuplicates | src/components/BlackWhiteList.tsx:267-268 | adding never introduces a duplicate |
| ListEditor.AddedIdempotent | src/components/BlackWhiteList.tsx:267-268 | adding the same selection twice gives the list of adding it once |
| ListEditor.DisplayParts | src/components/BlackWhiteList.tsx:204-208 | the parts are the labels in order with the last two merged into `a.b`; a single label stays as it is |
| ListEditor.DisplayPartsJoin | src/components/BlackWhiteList.tsx:206-208 | the shown parts joined with dots read as the host |
| ListEditor.SuffixKeepsLastTwo | src/components/BlackWhiteList.tsx:178-181 | clicking any shown part of a host with two or more labels selects the labels from that part on, which include the last two |
| ListEditor.PassRejectSplit | src/components/BlackWhiteList.tsx:288-321 | the host always passes; its example subdomain and wildcard pass exactly when subdomains are included and are rejected exactly when they are not; the parent is rejected exactly when there are more than two labels; the example sibling is rejected whenever there are two or more; nothing else is rejected |
| ListEditor.ListStore.OnDelete | src/components/BlackWhiteList.tsx:27-43 | removes the url from the whitelist in whitelist mode and from the blacklist otherwise; the other list is untouched; nothing happens without storage |
| ListEditor.ListStore.OnAdd | src/components/BlackWhiteList.tsx:258-275 | the chosen list (absent reads as empty) becomes `Added` of it; the other list is untouched; nothing happens without storage |
| ListEditor.ListStore.OnProxyModeChange | src/components/BlackWhiteList.tsx:52-63 | stores the mode and sends Connect only with a current session; nothing happens without storage |
| ProxyStatus.Classify | src/hooks/useProxyData.ts:31-42 | connected exactly when this extension controls the proxy in fixed or PAC mode; the country is forgotten exactly when another party controls it |
| ProxyStatus.CountryOf | src/hooks/useProxyData.ts:80 | the session's country, or none when there is no session or an empty country |
| ProxyStatus.BuiltConfigStatus | src/hooks/useProxyData.ts:31-37 | once applied by this extension, every configuration the builder produces reads as connected except the direct one |
| ProxyStatus.ProxyData.OnProxySetting | src/hooks/useProxyData.ts:26-63 | the initial read and the change listener apply the classification; the session is untouched |
| ProxyStatus.ProxyData.OnStorageRead | src/hooks/useProxyData.ts:77-81 | the stored session or none, and its country |
| ProxyStatus.ProxyData.OnStorageChange | src/hooks/useProxyData.ts:84-91 | a change to the session (removal included) sets session and country; other changes are ignored |
| ProxyStatus.LegacyProxyData.constructor | src/proxyData.ts:163 | the single-service flag starts false |
| ProxyStatus.LegacyProxyData.OnProxySetting | src/proxyData.ts:79-123 | the same classification as the current hook |
| ProxyStatus.LegacyProxyData.OnStorageRead | src/proxyData.ts:131-135 | the session as read, and its country |
| ProxyStatus.LegacyProxyData.OnStorageChange | src/proxyData.ts:138-144 | a session change sets session and country; a removal is excluded because it would throw |
| ProxyStatus.LegacyProxyData.OnChatGptRead | src/proxyData.ts:170-173 | the flag becomes the stored value, absent included |
| ProxyStatus.LegacyProxyData.OnChatGptChange | src/proxyData.ts:176-181 | only a change of the flag's key updates it |
| AppStatus.GetProxyData | src/App.tsx:177-201 | rejects exactly without the proxy API; connected exactly for a fixed proxy whose host the first expression accepts; the country is present exactly when the second expression matches, and then it is its group 2 upper-cased; not connected means no country |
| AppStatus.ServiceHostMatches | src/App.tsx:188 | `/^(.*)(vpn\.cocomine\.cc)$/` accepts exactly the one-line hosts ending in `vpn.cocomine.cc` |
| AppStatus.CountryCodeMatches | src/App.tsx:190-191 | the country code exists exactly when `/^(.*)(.{2})(\.vpn\.cocomine\.cc)$/` matches, and it is group 2 upper-cased |
| AppStatus.AnyPrefixConnects | src/App.tsx:188 | the test is a plain suffix test: any one-line prefix such as `evil` before `vpn.cocomine.cc` reads as connected |
| AppStatus.BareDomainHasNoCountry | src/App.tsx:190-194 | the host `vpn.cocomine.cc` reads as connected with no country |
| AppStatus.OtherModesDisconnected | src/App.tsx:195-198 | any mode but fixed servers, PAC script included, reads as not connected with no country |
| AppStatus.CountryHostStatus | src/App.tsx:188-194 | a host `<cc>.vpn.cocomine.cc` reads as connected with country `CC` |
| AppStatus.BuiltServiceEndpoint | src/App.tsx:188-194 | a fixed proxy the builder makes from `<cc>.vpn.cocomine.cc:<port>` reads as connected with country `CC` |

## Notes on behaviour

The model follows the code. Places where the code's behaviour is easy to misread:

- Only two alarms exist: `offline-time-check` and `offline-time-rached`.
- A Connect whose probe gives up does not clear the applied proxy.
- Host and port are split at the first `:`, not the last.
- In the PAC branches, a VM without a SOCKS5 profile gives an empty PAC script, not a direct connection. Only the fixed branch falls back to `direct`.
- An empty or absent list gives an `if` condition ending in `|| )` in the current builder. An empty list gives `if ()` in the older one, where an absent list throws (`LegacyConfig` returns `None`). Neither text is a valid condition (`EmptyListCondition`, `LegacyCustomCondition`).
- Disconnect does not stop a running probe.
- For a powered-on match, the content script writes the entry to storage itself. It does not send an AlarmsUpdate.
- The older worker's custom rule has no control-plane carve-out.
- The older worker's single-service script proxies only two domains.

## Left out

- The browser APIs themselves (storage, proxy, alarms, notifications, tabs, runtime messaging). They are fields, and each call is an update of those fields.
- Asynchrony. Listeners run to completion one at a time, and ticks of the probe timer are sequential. Overlapping ticks and listener return-value semantics are not modelled, apart from the older worker's `keepOpen`.
- The `fetch` ping. It is the `ok` parameter of `PingTick`.
- Date parsing. Expiry is milliseconds since the epoch, with `None` for a null `_expired`. The current worker reads null as now; the older worker reads it as the epoch. An `undefined` expiry is not distinguished from null.
- PAC evaluation in the browser. `shExpMatch` and `dnsDomainIs` are abstract tests, passed as the `holds` function.
- JavaScript `toUpperCase` beyond ASCII. `AppStatus.Upper` maps `a`–`z` only; other characters stay as they are.
- The port part of `URL.host` in the suffix selector. The host is taken as a dot-separated name.
- The outer `onAdd` that opens the add dialog from the active tab, and all React rendering, styling, flags, countdown text and font sizing.
- Notification titles and texts. They are reduced to the facts they carry (country, name, minutes).
- The development web address. Only the production `https://vpn.cocomine.cc` is modelled.
- The `onInstalled` listeners that open the README on GitHub.
- The `cleanup` callback of the builder's result. The builder never sets it.
- The `window.postMessage` helper and the runtime-ready wait.
- `null` and `undefined` are one `None`, except where the code prints or tests them differently. Those cases are modelled: `"undefined"` in a script, `"null"` in a wildcard, and `undefined` in the older relay.
- ProxyConfigBuilder.CreateProxyConfig: requires that, in the fixed branch, the first SOCKS5 profile has a url, since `url.split` would throw otherwise.
- SessionController.Controller.Connect: requires the same of the VM it connects.
- LegacyPageBridge.LegacyContentScript.OnPageMessage: requires a posted list to contain the stored id, since `_isPowerOn` of a missing entry would throw. It also leaves out messages whose `data` is not an object.
- ProxyStatus.LegacyProxyData.OnStorageChange: requires a new value, since a removal would throw.
- LegacyPageBridge.LegacyContentScript.OnConnectResponse: takes an answer, since a missing one would throw.
- Text.ParseInt: returns a mathematical integer. JavaScript's `parseInt` returns a double, so it rounds a digit run above 2^53 (`"9007199254740993"` reads as 9007199254740992) and gives -0 for `"-0"`; the model gives the exact value and 0. Such ports are invalid for the proxy either way.
- ParseDecimalText: gives the exact number for every `n`, where JavaScript rounds above 2^53, as for `Text.ParseInt`.
- EndpointOfHostPort: gives the exact decimal port, where JavaScript's `parseInt` rounds above 2^53, as for `Text.ParseInt`.
- FixedProxyEndpoint: the same 2^53 rounding gap as `EndpointOfHostPort`.
- LegacyEndpointOfHostPort: the same 2^53 rounding gap as `EndpointOfHostPort`.
- GetProxyData: reads the host as a sequence of code points. JavaScript strings are UTF-16 code units and the country expression has no `u` flag, so `.{2}` takes two code units; for a host with characters outside the Basic Multilingual Plane (such as an emoji) the model's country differs from the popup's.
- CountryCodeMatches: matches the country expression over code points, with the same UTF-16 gap as `GetProxyData`.
- CountryHostStatus: a `cc` of two characters outside the Basic Multilingual Plane is four code units in JavaScript, whose group 2 is not `cc`; the lemma states the code-point reading.
- BuiltServiceEndpoint: carries the same UTF-16 gap as `CountryHostStatus`.
- ListRuleMeaning: describes the condition tree. List entries are pasted into the script text without escaping, so an entry holding `"` or `\` makes the browser parse a different script, which the lemma does not describe.
- CustomRuleMeaning: the same gap as `ListRuleMeaning` for the custom rule.
- The older worker reads storage when a message arrives. The model passes those reads as the stored `prefs`.
