/** `superScanRuntime.myCallback`: a finding from a protocol plugin becomes an
    `analysisEntity` record and a one-line log message built from optional
    fragments. */
module Callback {
  import opened GoFmt

  datatype NetBios = NetBios(ip: string, os: string, shares: string)
  datatype Web = Web(url: string, title: string, server: string, code: int)
  datatype Cracked = Cracked(username: string, password: string)
  datatype PluginResult = PluginResult(serviceName: string, netBios: NetBios, web: Web, cracked: Cracked)

  /** The plugin state handed to the callback. */
  datatype Plugin = Plugin(targetIp: string, targetPort: string, result: PluginResult)

  datatype AnalysisEntity = AnalysisEntity(
    ip: string,
    port: string,
    service: string,
    os: string,
    netBios: string,
    url: string,
    title: string,
    webServer: string,
    webResponseCode: int,
    weakAccount: string)

  /** The entity's NetBios field, `[Ip:'%s' Shares:'%s']`. */
  function NetBiosSummary(nb: NetBios): string
  {
    "[Ip:'" + nb.ip + "' Shares:'" + nb.shares + "']"
  }

  /** The entity's weak-account field, `[%s/%s]`. */
  function AccountSummary(c: Cracked): string
  {
    "[" + c.username + "/" + c.password + "]"
  }

  /** The record handed to the aggregator: every field is a copy of the
      plugin's, except the two summaries, which are always bracketed and
      never empty, whatever the plugin reported. */
  function ToEntity(p: Plugin): (e: AnalysisEntity)
    ensures e.ip == p.targetIp && e.port == p.targetPort && e.service == p.result.serviceName
    ensures e.os == p.result.netBios.os
    ensures e.url == p.result.web.url && e.title == p.result.web.title
    ensures e.webServer == p.result.web.server && e.webResponseCode == p.result.web.code
    ensures |e.netBios| >= 17 && e.netBios[..5] == "[Ip:'" && e.netBios[|e.netBios| - 2..] == "']"
    ensures |e.weakAccount| >= 3 && e.weakAccount[0] == '[' && e.weakAccount[|e.weakAccount| - 1] == ']'
  {
    AnalysisEntity(
      p.targetIp, p.targetPort, p.result.serviceName, p.result.netBios.os,
      NetBiosSummary(p.result.netBios),
      p.result.web.url, p.result.web.title, p.result.web.server, p.result.web.code,
      AccountSummary(p.result.cracked))
  }

  predicate HasNetBios(nb: NetBios)
  {
    nb.ip != "" || nb.os != "" || nb.shares != ""
  }

  predicate HasCredential(c: Cracked)
  {
    c.username != "" || c.password != ""
  }

  /** ` ['%s' '%s' '%d' '%s']` of title, server, code and URL. */
  function WebText(title: string, server: string, code: int, url: string): (s: string)
    ensures |s| > 0 && s[0] == ' '
  {
    " ['" + title + "' '" + server + "' '" + Decimal(code) + "' '" + url + "']"
  }

  /** ` ['%s' '%s' '%s']` of the NetBios address, OS and shares. */
  function NetBiosText(ip: string, os: string, shares: string): (s: string)
    ensures |s| > 0 && s[0] == ' '
  {
    " ['" + ip + "' '" + os + "' '" + shares + "']"
  }

  /** ` crack:['%s' '%s']` of the cracked user name and password. */
  function CrackText(username: string, password: string): (s: string)
    ensures |s| > 0 && s[0] == ' '
  {
    " crack:['" + username + "' '" + password + "']"
  }

  /** The log message, built as the callback builds it: the service name, then
      each fragment whose condition holds, appended in turn. It is the service
      name followed by the rendered fragments that are present. */
  function Message(p: Plugin): (m: string)
    ensures m == p.result.serviceName + RenderAll(FragmentsOf(p.result))
  {
    var e := ToEntity(p);
    var nb := p.result.netBios;
    var c := p.result.cracked;
    var m0 := e.service;
    var m1 := if e.title != "" then m0 + WebText(e.title, e.webServer, e.webResponseCode, e.url) else m0;
    var m2 := if HasNetBios(nb) then m1 + NetBiosText(nb.ip, nb.os, nb.shares) else m1;
    var m := if HasCredential(c) then m2 + CrackText(c.username, c.password) else m2;
    RenderFragments(p.result);
    var tw := if e.title != "" then WebText(e.title, e.webServer, e.webResponseCode, e.url) else "";
    var tn := if HasNetBios(nb) then NetBiosText(nb.ip, nb.os, nb.shares) else "";
    var tc := if HasCredential(c) then CrackText(c.username, c.password) else "";
    assert m1 == m0 + tw;
    assert m2 == m0 + tw + tn;
    assert m == m0 + tw + tn + tc;
    ConcatAssoc(m0, tw, tn, tc);
    m
  }

  /** `net.JoinHostPort`: the host, bracketed when it holds a colon (an IPv6
      address), then a colon and the port. */
  function JoinHostPort(host: string, port: string): (hp: string)
    ensures |hp| > |port| && hp[|hp| - |port| - 1..] == ":" + port
    ensures hp[..|hp| - |port| - 1] == if ':' in host then "[" + host + "]" else host
  {
    var h := if ':' in host then "[" + host + "]" else host;
    assert (h + ":" + port)[..|h|] == h;
    h + ":" + port
  }

  /** What one call of the callback produces: the log line's tag and message,
      and the record passed to the aggregator. */
  datatype Effect = Effect(tag: string, message: string, record: AnalysisEntity)

  function OnFinding(p: Plugin): (f: Effect)
    ensures f.record == ToEntity(p) && f.message == Message(p)
    ensures |f.tag| >= 8 && f.tag[|f.tag| - 8..] == "[Opened]"
  {
    var e := ToEntity(p);
    Effect(JoinHostPort(e.ip, e.port) + "[Opened]", Message(p), e)
  }

  // ---------------------------------------------------------------------
  // Reference description of the message

  /** The optional parts of a message, told apart by kind. */
  datatype Fragment =
    | WebFragment(title: string, server: string, code: int, url: string)
    | NetBiosFragment(ip: string, os: string, shares: string)
    | CrackFragment(username: string, password: string)

  function Render(f: Fragment): (s: string)
    ensures |s| > 0
  {
    match f
    case WebFragment(t, s, c, u) => WebText(t, s, c, u)
    case NetBiosFragment(i, o, s) => NetBiosText(i, o, s)
    case CrackFragment(u, pw) => CrackText(u, pw)
  }

  function RenderAll(fs: seq<Fragment>): string
  {
    if |fs| == 0 then "" else Render(fs[0]) + RenderAll(fs[1..])
  }

  function Rank(f: Fragment): nat
  {
    match f
    case WebFragment(_, _, _, _) => 0
    case NetBiosFragment(_, _, _) => 1
    case CrackFragment(_, _) => 2
  }

  /** The fragments present for a plugin result, in message order. */
  function FragmentsOf(r: PluginResult): seq<Fragment>
  {
    var w := r.web;
    var nb := r.netBios;
    var c := r.cracked;
    (if w.title != "" then [WebFragment(w.title, w.server, w.code, w.url)] else [])
      + (if HasNetBios(nb) then [NetBiosFragment(nb.ip, nb.os, nb.shares)] else [])
      + (if HasCredential(c) then [CrackFragment(c.username, c.password)] else [])
  }

  lemma {:induction false} RenderAllAppend(a: seq<Fragment>, b: seq<Fragment>)
    ensures RenderAll(a + b) == RenderAll(a) + RenderAll(b)
    decreases |a|
  {
    if |a| > 0 {
      assert (a + b)[0] == a[0];
      assert (a + b)[1..] == a[1..] + b;
      RenderAllAppend(a[1..], b);
      var h := Render(a[0]);
      assert RenderAll(a + b) == h + (RenderAll(a[1..]) + RenderAll(b));
      assert h + (RenderAll(a[1..]) + RenderAll(b)) == (h + RenderAll(a[1..])) + RenderAll(b);
    } else {
      assert a + b == b;
    }
  }

  /** Regrouping four strings; stated apart so that the message proof does
      not search for it among its other facts. */
  lemma ConcatAssoc(a: string, b: string, c: string, d: string)
    ensures a + b + c + d == a + (b + c + d)
  {
  }

  lemma RenderOne(f: Fragment)
    ensures RenderAll([f]) == Render(f)
  {
    assert [f][1..] == [];
  }

  /** The rendered fragments are the three optional texts, in order. */
  lemma RenderFragments(r: PluginResult)
    ensures RenderAll(FragmentsOf(r)) ==
      (if r.web.title != "" then WebText(r.web.title, r.web.server, r.web.code, r.web.url) else "")
      + (if HasNetBios(r.netBios) then NetBiosText(r.netBios.ip, r.netBios.os, r.netBios.shares) else "")
      + (if HasCredential(r.cracked) then CrackText(r.cracked.username, r.cracked.password) else "")
  {
    var wf := WebFragment(r.web.title, r.web.server, r.web.code, r.web.url);
    var nf := NetBiosFragment(r.netBios.ip, r.netBios.os, r.netBios.shares);
    var cf := CrackFragment(r.cracked.username, r.cracked.password);
    var w: seq<Fragment> := if r.web.title != "" then [wf] else [];
    var n: seq<Fragment> := if HasNetBios(r.netBios) then [nf] else [];
    var c: seq<Fragment> := if HasCredential(r.cracked) then [cf] else [];
    RenderOne(wf);
    RenderOne(nf);
    RenderOne(cf);
    RenderAllAppend(w, n);
    RenderAllAppend(w + n, c);
    assert FragmentsOf(r) == w + n + c;
  }

  /** Which fragments appear: the web fragment iff a title was found, the
      NetBios fragment iff any NetBios field is set, the credential fragment
      iff a user name or password was cracked; in that order, each at most
      once. */
  lemma FragmentsPresentIff(r: PluginResult)
    ensures var fs := FragmentsOf(r);
      && ((exists i :: 0 <= i < |fs| && fs[i].WebFragment?) <==> r.web.title != "")
      && ((exists i :: 0 <= i < |fs| && fs[i].NetBiosFragment?) <==> HasNetBios(r.netBios))
      && ((exists i :: 0 <= i < |fs| && fs[i].CrackFragment?) <==> HasCredential(r.cracked))
      && (forall i, j :: 0 <= i < j < |fs| ==> Rank(fs[i]) < Rank(fs[j]))
  {
    var fs := FragmentsOf(r);
    if r.web.title != "" {
      assert fs[0].WebFragment?;
    }
    if HasNetBios(r.netBios) {
      assert fs[if r.web.title != "" then 1 else 0].NetBiosFragment?;
    }
    if HasCredential(r.cracked) {
      assert fs[|fs| - 1].CrackFragment?;
    }
  }

  /** The message always starts with the service name. */
  lemma MessageStartsWithService(p: Plugin)
    ensures |p.result.serviceName| <= |Message(p)|
    ensures Message(p)[..|p.result.serviceName|] == p.result.serviceName
  {
  }

  /** The message is the bare service name exactly when the plugin found no
      title, no NetBios data and no credential. */
  lemma MessageIsServiceIff(p: Plugin)
    ensures Message(p) == p.result.serviceName <==>
      p.result.web.title == "" && !HasNetBios(p.result.netBios) && !HasCredential(p.result.cracked)
  {
  }

  /** For a plugin that reported nothing, the summaries are still present. */
  lemma EmptyResultSummaries(p: Plugin)
    requires p.result.netBios == NetBios("", "", "") && p.result.cracked == Cracked("", "")
    ensures ToEntity(p).netBios == "[Ip:'' Shares:'']"
    ensures ToEntity(p).weakAccount == "[/]"
  {
  }

  /** The tag names the target as `host:port`, with IPv6 hosts bracketed. */
  lemma TagNamesTarget(p: Plugin)
    ensures ':' !in p.targetIp ==> OnFinding(p).tag == p.targetIp + ":" + p.targetPort + "[Opened]"
    ensures ':' in p.targetIp ==> OnFinding(p).tag == "[" + p.targetIp + "]:" + p.targetPort + "[Opened]"
  {
  }
}
