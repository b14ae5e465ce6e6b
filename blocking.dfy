/** The focus-mode blocker's policy in `background.js`: which URLs count as
    blocked, the redirect rules installed for a blocklist, how a rule update
    acts on the installed rules, and what the tab sweeps record and request.
    The worker that performs these steps is in module Background. */
module Blocking {
  import opened Prelude
  import opened Records

  /** What `new URL(s)` yields: a protocol such as `https:` and a hostname. */
  datatype Location = Location(protocol: string, hostname: string)

  /** A URL string with its parse; `location` is None when `new URL` throws.
      The parser itself is not modelled. */
  datatype Url = Url(href: string, location: Option<Location>)

  /** A hostname is on a blocked domain when it is that domain or one of its
      subdomains. */
  predicate OnDomain(hostname: string, domain: string) {
    hostname == domain || EndsWith(hostname, "." + domain)
  }

  /** `domains.some((d) => ...)` for one hostname. */
  function AnyDomain(hostname: string, domains: seq<string>): (b: bool)
    ensures b <==> exists i :: 0 <= i < |domains| && OnDomain(hostname, domains[i])
  {
    if |domains| == 0 then false
    else if OnDomain(hostname, domains[0]) then true
    else
      var b := AnyDomain(hostname, domains[1..]);
      assert b ==> exists i :: 1 <= i < |domains| && OnDomain(hostname, domains[i]) by {
        if b {
          var i :| 0 <= i < |domains[1..]| && OnDomain(hostname, domains[1..][i]);
          assert domains[i + 1] == domains[1..][i];
        }
      }
      assert (exists i :: 1 <= i < |domains| && OnDomain(hostname, domains[i])) ==> b by {
        if exists i :: 1 <= i < |domains| && OnDomain(hostname, domains[i]) {
          var i :| 1 <= i < |domains| && OnDomain(hostname, domains[i]);
          assert domains[1..][i - 1] == domains[i];
        }
      }
      b
  }

  /** `isBlockedUrl(url, domains)`: the URL parses and its hostname is on some
      blocked domain; a URL that does not parse is never blocked. */
  function IsBlockedUrl(url: Url, domains: seq<string>): (b: bool)
    ensures b <==> (url.location.Some?
      && exists i :: 0 <= i < |domains| && OnDomain(url.location.value.hostname, domains[i]))
    ensures url.location.None? ==> !b
  {
    match url.location
    case None => false
    case Some(loc) => AnyDomain(loc.hostname, domains)
  }

  // --- Redirect rules ---

  /** The page blocked tabs are sent to, as an extension path, and the part of
      its address the fallback listener looks for. */
  const BlockedPagePath: string := "/blocked/blocked.html"
  const BlockedPageSuffix: string := "blocked/blocked.html"

  datatype ResourceType = MainFrame | SubFrame | OtherResource

  /** A dynamic `declarativeNetRequest` rule that redirects requests. */
  datatype Rule = Rule(
    id: int,
    priority: int,
    redirectPath: string,
    requestDomains: seq<string>,
    resourceTypes: seq<ResourceType>)

  /** The rules `activateBlocking` builds: one per domain, numbered from 1. */
  function BlockingRules(domains: seq<string>): (r: seq<Rule>)
    ensures |r| == |domains|
    ensures forall i, j :: 0 <= i < j < |r| ==> r[i].id != r[j].id
  {
    seq(|domains|, i requires 0 <= i < |domains| => Rule(i + 1, 1, BlockedPagePath, [domains[i]], [MainFrame]))
  }

  /** When a rule applies to a request, as `declarativeNetRequest` defines it:
      the request's host is one of the rule's domains or a subdomain of one,
      and the request's resource type is listed. */
  predicate RuleMatches(rule: Rule, url: Url, resourceType: ResourceType) {
    && url.location.Some?
    && AnyDomain(url.location.value.hostname, rule.requestDomains)
    && resourceType in rule.resourceTypes
  }

  /** The rules for a blocklist are numbered 1..n, one domain each, all
      redirecting top-level navigations to the blocked page. */
  lemma BlockingRulesShape(domains: seq<string>)
    ensures |BlockingRules(domains)| == |domains|
    ensures forall i :: 0 <= i < |domains| ==>
      var r := BlockingRules(domains)[i];
      && r.id == i + 1 && r.priority == 1 && r.redirectPath == BlockedPagePath
      && r.requestDomains == [domains[i]] && r.resourceTypes == [MainFrame]
    ensures forall i, j :: 0 <= i < j < |domains| ==> BlockingRules(domains)[i].id != BlockingRules(domains)[j].id
  {
  }

  /** A top-level navigation is redirected by some installed rule exactly when
      `isBlockedUrl` calls its URL blocked; no other resource type is ever
      redirected. */
  lemma RulesAgreeWithIsBlockedUrl(domains: seq<string>, url: Url, resourceType: ResourceType)
    ensures (exists i :: 0 <= i < |domains| && RuleMatches(BlockingRules(domains)[i], url, MainFrame))
      <==> IsBlockedUrl(url, domains)
    ensures resourceType != MainFrame ==>
      forall i :: 0 <= i < |domains| ==> !RuleMatches(BlockingRules(domains)[i], url, resourceType)
  {
    var rules := BlockingRules(domains);
    if IsBlockedUrl(url, domains) {
      var i :| 0 <= i < |domains| && OnDomain(url.location.value.hostname, domains[i]);
      assert rules[i].requestDomains == [domains[i]];
      assert AnyDomain(url.location.value.hostname, rules[i].requestDomains);
      assert RuleMatches(rules[i], url, MainFrame);
    }
    if exists i :: 0 <= i < |domains| && RuleMatches(rules[i], url, MainFrame) {
      var i :| 0 <= i < |domains| && RuleMatches(rules[i], url, MainFrame);
      assert rules[i].requestDomains == [domains[i]];
      assert OnDomain(url.location.value.hostname, domains[i]);
    }
  }

  /** One `updateDynamicRules` call: ids to remove, then rules to add. */
  datatype RuleUpdate = RuleUpdate(removeRuleIds: seq<int>, addRules: seq<Rule>)

  /** `existingRules.map((r) => r.id)`. */
  function RuleIds(rules: seq<Rule>): (ids: seq<int>)
    ensures |ids| == |rules|
    ensures forall i :: 0 <= i < |rules| ==> ids[i] == rules[i].id
  {
    seq(|rules|, i requires 0 <= i < |rules| => rules[i].id)
  }

  function Kept(removeRuleIds: seq<int>): Rule -> bool {
    (r: Rule) => r.id !in removeRuleIds
  }

  /** What an update does to the installed rules: the listed ids go, then the
      new rules are added. */
  function ApplyUpdate(installed: seq<Rule>, update: RuleUpdate): (r: seq<Rule>)
    ensures forall x :: x in r ==> x in update.addRules || (x in installed && x.id !in update.removeRuleIds)
    ensures forall x :: x in update.addRules ==> x in r
  {
    Filter(installed, Kept(update.removeRuleIds)) + update.addRules
  }

  /** Removing every installed id and adding `rules` leaves exactly `rules`,
      whatever was installed before. */
  lemma ReplaceAllRules(installed: seq<Rule>, rules: seq<Rule>)
    ensures ApplyUpdate(installed, RuleUpdate(RuleIds(installed), rules)) == rules
  {
    var ids := RuleIds(installed);
    forall j | 0 <= j < |installed|
      ensures !Kept(ids)(installed[j])
    {
      assert ids[j] == installed[j].id;
    }
    FilterNone(installed, Kept(ids));
  }

  // --- Tabs ---

  type TabId = int

  /** An open tab as `chrome.tabs` reports it; `url` is None when the tab has
      no address (an empty one included). */
  datatype Tab = Tab(id: TabId, url: Option<Url>)

  /** Where a `chrome.tabs.update` request sends a tab. */
  datatype Target = BlockedPage | Address(href: string)

  datatype TabUpdate = TabUpdate(tabId: TabId, target: Target)

  /** One entry of `blockedTabUrls`: a redirected tab and its original URL. */
  datatype SavedTab = SavedTab(tabId: TabId, href: string)

  /** The activation sweep's test: `tab.url && isBlockedUrl(tab.url, domains)`. */
  predicate ShouldBlockTab(tab: Tab, domains: seq<string>) {
    tab.url.Some? && IsBlockedUrl(tab.url.value, domains)
  }

  function BlockedTab(domains: seq<string>): Tab -> bool {
    (tab: Tab) => ShouldBlockTab(tab, domains)
  }

  /** The redirect requests of a sweep over `tabs`, in tab order. */
  function SweepRedirects(tabs: seq<Tab>, domains: seq<string>): seq<TabUpdate>
    decreases |tabs|
  {
    if |tabs| == 0 then []
    else
      var tab := tabs[|tabs| - 1];
      SweepRedirects(tabs[..|tabs| - 1], domains)
        + (if ShouldBlockTab(tab, domains) then [TabUpdate(tab.id, BlockedPage)] else [])
  }

  /** The sweep requests a redirect to the blocked page for exactly the tabs
      whose URL is blocked, in their order, and for no other tab. */
  lemma {:induction false} SweepRedirectsBlockedTabs(tabs: seq<Tab>, domains: seq<string>)
    ensures var blocked := Filter(tabs, BlockedTab(domains));
      && |SweepRedirects(tabs, domains)| == |blocked|
      && forall i :: 0 <= i < |blocked| ==> SweepRedirects(tabs, domains)[i] == TabUpdate(blocked[i].id, BlockedPage)
    decreases |tabs|
  {
    if |tabs| > 0 {
      var init := tabs[..|tabs| - 1];
      var tab := tabs[|tabs| - 1];
      SweepRedirectsBlockedTabs(init, domains);
      assert init + [tab] == tabs;
      FilterSnoc(init, tab, BlockedTab(domains));
      assert SweepRedirects(tabs, domains) == SweepRedirects(init, domains)
        + (if BlockedTab(domains)(tab) then [TabUpdate(tab.id, BlockedPage)] else []);
    }
  }

  /** The index of the first entry for `tabId` (a `Map` key lookup). */
  function IndexOfTab(saved: seq<SavedTab>, tabId: TabId): (r: Option<nat>)
    ensures r.Some? ==> r.value < |saved| && saved[r.value].tabId == tabId
    ensures r.Some? ==> forall j :: 0 <= j < r.value ==> saved[j].tabId != tabId
    ensures r.None? ==> forall j :: 0 <= j < |saved| ==> saved[j].tabId != tabId
  {
    FirstIndex(saved, (e: SavedTab) => e.tabId == tabId)
  }

  /** `blockedTabUrls.get(tabId)`. */
  function SavedUrl(saved: seq<SavedTab>, tabId: TabId): Option<string> {
    match IndexOfTab(saved, tabId)
    case None => None
    case Some(i) => Some(saved[i].href)
  }

  /** Two lists with the same tab id at every position give every id the
      same index. */
  lemma {:induction false} SameIdsSameIndex(a: seq<SavedTab>, b: seq<SavedTab>, tabId: TabId)
    requires |a| == |b|
    requires forall j :: 0 <= j < |a| ==> a[j].tabId == b[j].tabId
    ensures IndexOfTab(a, tabId) == IndexOfTab(b, tabId)
    decreases |a|
  {
    if |a| > 0 && a[0].tabId != tabId {
      SameIdsSameIndex(a[1..], b[1..], tabId);
    }
  }

  /** `blockedTabUrls.set(tabId, href)`: an existing entry keeps its place and
      takes the new URL; a new one goes at the end. */
  function Remember(saved: seq<SavedTab>, tabId: TabId, href: string): (r: seq<SavedTab>)
    ensures SavedUrl(r, tabId) == Some(href)
    ensures forall k :: k != tabId ==> SavedUrl(r, k) == SavedUrl(saved, k)
  {
    match IndexOfTab(saved, tabId)
    case Some(i) =>
      var r := saved[i := SavedTab(tabId, href)];
      assert forall k :: IndexOfTab(r, k) == IndexOfTab(saved, k) by {
        forall k {
          SameIdsSameIndex(r, saved, k);
        }
      }
      r
    case None =>
      var r := saved + [SavedTab(tabId, href)];
      assert forall k :: k != tabId ==> IndexOfTab(r, k) == IndexOfTab(saved, k) by {
        forall k | k != tabId {
          AppendOtherIndex(saved, SavedTab(tabId, href), k);
        }
      }
      assert IndexOfTab(r, tabId) == Some(|saved|) by {
        AppendOtherIndex(saved, SavedTab(tabId, href), tabId);
      }
      r
  }

  /** Appending an entry does not move the first entry of any id already
      present, and is found for an id that was absent. */
  lemma {:induction false} AppendOtherIndex(saved: seq<SavedTab>, x: SavedTab, k: TabId)
    ensures IndexOfTab(saved, k).Some? ==> IndexOfTab(saved + [x], k) == IndexOfTab(saved, k)
    ensures IndexOfTab(saved, k).None? ==>
      IndexOfTab(saved + [x], k) == if x.tabId == k then Some(|saved|) else None
    decreases |saved|
  {
    if |saved| > 0 && saved[0].tabId != k {
      assert (saved + [x])[1..] == saved[1..] + [x];
      AppendOtherIndex(saved[1..], x, k);
    }
  }

  /** What the activation sweep leaves in `blockedTabUrls`. */
  function SweepSaved(saved: seq<SavedTab>, tabs: seq<Tab>, domains: seq<string>): seq<SavedTab>
    decreases |tabs|
  {
    if |tabs| == 0 then saved
    else
      var tab := tabs[|tabs| - 1];
      var before := SweepSaved(saved, tabs[..|tabs| - 1], domains);
      if ShouldBlockTab(tab, domains) then Remember(before, tab.id, tab.url.value.href) else before
  }

  /** One more tab changes the saved URL of `k` only when that tab is blocked
      and has id `k`, and then to that tab's URL. */
  lemma SweepSavedStep(saved: seq<SavedTab>, tabs: seq<Tab>, domains: seq<string>, k: TabId)
    requires |tabs| > 0
    ensures var tab := tabs[|tabs| - 1];
      SavedUrl(SweepSaved(saved, tabs, domains), k)
        == if ShouldBlockTab(tab, domains) && tab.id == k then Some(tab.url.value.href)
           else SavedUrl(SweepSaved(saved, tabs[..|tabs| - 1], domains), k)
  {
  }

  /** After a sweep, a tab id has a saved URL exactly when it had one before or
      some blocked tab has that id; the saved URL of a blocked tab is that of
      its last blocked occurrence; ids of no blocked tab keep what they had. */
  lemma {:induction false} SweepSavedRecords(saved: seq<SavedTab>, tabs: seq<Tab>, domains: seq<string>, k: TabId)
    ensures SavedUrl(SweepSaved(saved, tabs, domains), k).Some? <==>
      SavedUrl(saved, k).Some? || exists i :: 0 <= i < |tabs| && ShouldBlockTab(tabs[i], domains) && tabs[i].id == k
    ensures (forall i :: 0 <= i < |tabs| && ShouldBlockTab(tabs[i], domains) ==> tabs[i].id != k) ==>
      SavedUrl(SweepSaved(saved, tabs, domains), k) == SavedUrl(saved, k)
    ensures forall i ::
      (0 <= i < |tabs| && ShouldBlockTab(tabs[i], domains) && tabs[i].id == k
       && (forall j :: i < j < |tabs| && ShouldBlockTab(tabs[j], domains) ==> tabs[j].id != k))
      ==> SavedUrl(SweepSaved(saved, tabs, domains), k) == Some(tabs[i].url.value.href)
    decreases |tabs|
  {
    if |tabs| > 0 {
      var init := tabs[..|tabs| - 1];
      var tab := tabs[|tabs| - 1];
      SweepSavedRecords(saved, init, domains, k);
      SweepSavedStep(saved, tabs, domains, k);
      assert forall i :: 0 <= i < |init| ==> init[i] == tabs[i];
    }
  }

  /** The restore requests `deactivateBlocking` makes, in the map's order. */
  function RestoreUpdates(saved: seq<SavedTab>): (r: seq<TabUpdate>)
    ensures |r| == |saved|
    ensures forall i :: 0 <= i < |saved| ==> r[i] == TabUpdate(saved[i].tabId, Address(saved[i].href))
  {
    seq(|saved|, i requires 0 <= i < |saved| => TabUpdate(saved[i].tabId, Address(saved[i].href)))
  }

  // --- The fallback listener ---

  /** Whether the top-level `tabs.onUpdated` listener redirects a tab whose
      address changed (`changedUrl` is None when the change carries none). */
  predicate FallbackRedirects(changedUrl: Option<Url>, ts: TimerState, domains: seq<string>) {
    && changedUrl.Some?
    && !Contains(changedUrl.value.href, BlockedPageSuffix)
    && ts.status == Running && ts.sessionType == Some(Focus)
    && IsBlockedUrl(changedUrl.value, domains)
  }

  /** A string contains each of its suffixes. */
  lemma {:induction false} ContainsSuffix(s: string, suffix: string)
    requires EndsWith(s, suffix)
    ensures Contains(s, suffix)
    decreases |s|
  {
    if |s| > |suffix| {
      assert s[1..][|s[1..]| - |suffix|..] == s[|s| - |suffix|..];
      ContainsSuffix(s[1..], suffix);
    } else {
      assert s == suffix;
    }
  }

  /** The redirect target, an extension address ending in the blocked page's
      path, never triggers another redirect: the listener cannot loop. */
  lemma BlockedPageIsNotRedirected(origin: string, location: Option<Location>, ts: TimerState, domains: seq<string>)
    ensures !FallbackRedirects(Some(Url(origin + BlockedPagePath, location)), ts, domains)
  {
    var href := origin + BlockedPagePath;
    assert href[|href| - |BlockedPageSuffix|..] == BlockedPageSuffix;
    ContainsSuffix(href, BlockedPageSuffix);
  }

  /** During a focus session the fallback listener and the activation sweep
      agree: an address other than the blocked page is redirected by one
      exactly when it would be by the other. */
  lemma FallbackAgreesWithSweep(tabId: TabId, url: Url, ts: TimerState, domains: seq<string>)
    requires ts.status == Running && ts.sessionType == Some(Focus)
    requires !Contains(url.href, BlockedPageSuffix)
    ensures FallbackRedirects(Some(url), ts, domains) <==> ShouldBlockTab(Tab(tabId, Some(url)), domains)
  {
  }
}
