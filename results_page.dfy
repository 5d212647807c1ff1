/** The results page: its own copy of the snapshot read, the load of every
    configured poll, the folds behind its statistics, the descending sort of the
    detailed results, its two listeners and the "reset all" action. */
module Results {
  import opened PollModel
  import opened WebStorage
  import UsePollData

  /** One entry of the page's poll table (icon and styling classes left out). */
  datatype PollConfig = PollConfig(key: string, title: string, description: string, storageKey: string, route: string)

  /** The page's poll table, in declaration order. */
  const PollConfigs: seq<PollConfig> := [
    PollConfig("frontend", "Frontend Frameworks", "Most popular frontend frameworks and libraries",
               "frontendPollData", "/frontend-poll"),
    PollConfig("backend", "Backend Technologies", "Preferred backend technologies and frameworks",
               "backendPollData", "/backend-poll"),
    PollConfig("devtools", "Developer Tools", "Essential development tools and editors",
               "devToolsPollData", "/devtools-poll")
  ]

  /** The `storageKey` values of the poll table. */
  const ConfigStorageKeys: set<string> := set c | c in PollConfigs :: c.storageKey

  /** The page's own copy of the seed snapshots. */
  function DefaultData(pollType: string): Option<PollData>
  {
    if pollType == "frontend" then
      Some(PollData([
        PollOption("react", "React", "JavaScript library for building user interfaces", 245, "hsl(193, 95%, 68%)"),
        PollOption("vue", "Vue.js", "Progressive framework for building UIs", 189, "hsl(153, 47%, 49%)"),
        PollOption("angular", "Angular", "Platform for building mobile and desktop apps", 156, "hsl(348, 86%, 61%)"),
        PollOption("svelte", "Svelte", "Cybernetically enhanced web apps", 87, "hsl(15, 100%, 50%)")
      ]))
    else if pollType == "backend" then
      Some(PollData([
        PollOption("nodejs", "Node.js", "JavaScript runtime built on Chrome's V8", 312, "hsl(120, 100%, 25%)"),
        PollOption("python", "Python", "High-level programming language", 298, "hsl(55, 100%, 50%)"),
        PollOption("java", "Java", "Object-oriented programming language", 201, "hsl(25, 100%, 50%)"),
        PollOption("csharp", "C#", "Modern language by Microsoft", 167, "hsl(280, 100%, 50%)")
      ]))
    else if pollType == "devtools" then
      Some(PollData([
        PollOption("vscode", "VS Code", "Free source-code editor by Microsoft", 423, "hsl(210, 100%, 60%)"),
        PollOption("webstorm", "WebStorm", "Powerful IDE for JavaScript development", 156, "hsl(45, 100%, 50%)"),
        PollOption("vim", "Vim/Neovim", "Highly configurable text editor", 134, "hsl(120, 50%, 40%)"),
        PollOption("sublime", "Sublime Text", "Sophisticated text editor", 89, "hsl(30, 100%, 50%)")
      ]))
    else
      None
  }

  /** The page's own copy of the snapshot read: stored value, then seed, then empty. */
  function GetPollData(storage: map<string, PollData>, pollType: string): (r: PollData)
    ensures UsePollData.StorageKey(pollType) in storage ==> r == storage[UsePollData.StorageKey(pollType)]
    ensures UsePollData.StorageKey(pollType) !in storage && DefaultData(pollType).Some? ==> r == DefaultData(pollType).value
    ensures UsePollData.StorageKey(pollType) !in storage && DefaultData(pollType).None? ==> r.options == []
  {
    var key := "poll_" + pollType;
    if key in storage then storage[key]
    else match DefaultData(pollType)
      case Some(seed) => seed
      case None => PollData([])
  }

  /** The two copies of the read agree on every storage and every poll. */
  lemma GetPollDataMatchesHook(storage: map<string, PollData>, pollType: string)
    ensures GetPollData(storage, pollType) == UsePollData.GetPollData(storage, pollType)
  {
    assert DefaultData(pollType) == UsePollData.DefaultData(pollType);
  }

  /** One entry of the page's `allPolls` object, in insertion order. */
  datatype PollEntry = PollEntry(pollType: string, data: PollData)

  /** What a load builds from `configs`: one entry per configured poll, in order. */
  function LoadPolls(storage: map<string, PollData>, configs: seq<PollConfig>): seq<PollEntry>
  {
    if configs == [] then []
    else
      var last := configs[|configs| - 1];
      LoadPolls(storage, configs[..|configs| - 1]) + [PollEntry(last.key, GetPollData(storage, last.key))]
  }

  /** A load holds exactly one entry per configured poll, keyed by it and equal to its read. */
  lemma {:induction false} LoadPollsEntries(storage: map<string, PollData>, configs: seq<PollConfig>)
    ensures |LoadPolls(storage, configs)| == |configs|
    ensures forall i :: 0 <= i < |configs| ==>
              LoadPolls(storage, configs)[i] == PollEntry(configs[i].key, GetPollData(storage, configs[i].key))
    decreases |configs|
  {
    if configs != [] {
      var p, last := configs[..|configs| - 1], configs[|configs| - 1];
      LoadPollsEntries(storage, p);
      var loaded := LoadPolls(storage, configs);
      assert loaded == LoadPolls(storage, p) + [PollEntry(last.key, GetPollData(storage, last.key))];
      forall i | 0 <= i < |configs|
        ensures loaded[i] == PollEntry(configs[i].key, GetPollData(storage, configs[i].key))
      {
        if i < |p| {
          assert configs[i] == p[i];
        }
      }
    }
  }

  /** Removing keys that no poll is stored under leaves every loaded tally as it was. */
  lemma {:induction false} LoadPollsIgnoresOtherKeys(storage: map<string, PollData>, configs: seq<PollConfig>, removed: set<string>)
    requires forall t :: UsePollData.StorageKey(t) !in removed
    ensures LoadPolls(storage - removed, configs) == LoadPolls(storage, configs)
    decreases |configs|
  {
    if configs != [] {
      var t := configs[|configs| - 1].key;
      assert UsePollData.StorageKey(t) !in removed;
      assert GetPollData(storage - removed, t) == GetPollData(storage, t);
      LoadPollsIgnoresOtherKeys(storage, configs[..|configs| - 1], removed);
    }
  }

  /** The storage keys of a prefix of the poll table, collected in order. */
  function StorageKeysOf(configs: seq<PollConfig>): set<string>
  {
    if configs == [] then {}
    else StorageKeysOf(configs[..|configs| - 1]) + {configs[|configs| - 1].storageKey}
  }

  /** Collecting the keys in order gives exactly the table's storage keys. */
  lemma {:induction false} StorageKeysOfConfigs(configs: seq<PollConfig>)
    ensures StorageKeysOf(configs) == set c | c in configs :: c.storageKey
    decreases |configs|
  {
    if configs != [] {
      var p := configs[..|configs| - 1];
      StorageKeysOfConfigs(p);
      assert configs == p + [configs[|configs| - 1]];
    }
  }

  /** None of the configured storage keys is a poll's key: they all start with a letter other than `p`. */
  lemma ConfigKeysAreNotPollKeys()
    ensures forall t :: UsePollData.StorageKey(t) !in ConfigStorageKeys
  {
    forall t ensures UsePollData.StorageKey(t) !in ConfigStorageKeys {
      assert UsePollData.StorageKey(t)[0] == 'p';
      forall c | c in PollConfigs ensures c.storageKey != UsePollData.StorageKey(t) {
        assert c.storageKey[0] in {'f', 'b', 'd'};
      }
    }
  }

  /** The per-poll total: zero for a poll without options, else the sum of the tallies. */
  function GetTotalVotes(options: Option<seq<PollOption>>): (r: nat)
    ensures options.None? ==> r == 0
    ensures options.Some? ==> r == TotalVotes(options.value)
  {
    match options
    case None => 0
    case Some(s) => TotalVotes(s)
  }

  /** `k` is the earliest position holding the largest tally of `s`. */
  predicate IsFirstMax(s: seq<PollOption>, k: int)
  {
    && 0 <= k < |s|
    && (forall j :: 0 <= j < |s| ==> s[j].votes <= s[k].votes)
    && (forall j :: 0 <= j < k ==> s[j].votes < s[k].votes)
  }

  /** Each list has at most one earliest maximum. */
  lemma FirstMaxUnique(s: seq<PollOption>, k: int, k': int)
    requires IsFirstMax(s, k) && IsFirstMax(s, k')
    ensures k == k'
  {
    assert s[k].votes == s[k'].votes;
  }

  /** The reduce without an initial value: an option replaces the current
      leader only when its tally is strictly larger. */
  function ReduceLeading(leading: PollOption, rest: seq<PollOption>): PollOption
    decreases |rest|
  {
    if rest == [] then leading
    else ReduceLeading(if rest[0].votes > leading.votes then rest[0] else leading, rest[1..])
  }

  /** One reduce step keeps the earliest maximum of the options seen so far. */
  lemma FirstMaxExtend(seen: seq<PollOption>, k: int, x: PollOption)
    requires IsFirstMax(seen, k)
    ensures IsFirstMax(seen + [x], if x.votes > seen[k].votes then |seen| else k)
  {
    var s' := seen + [x];
    assert forall j :: 0 <= j < |seen| ==> s'[j] == seen[j];
  }

  /** Carrying the earliest maximum of the options seen so far, the reduce
      ends with the earliest maximum of the whole list, found at `last`. */
  lemma {:induction false} ReduceLeadingFirstMax(seen: seq<PollOption>, k: int, rest: seq<PollOption>) returns (last: int)
    requires IsFirstMax(seen, k)
    ensures IsFirstMax(seen + rest, last) && ReduceLeading(seen[k], rest) == (seen + rest)[last]
    decreases |rest|
  {
    if rest == [] {
      assert seen + rest == seen;
      last := k;
    } else {
      var x := rest[0];
      var seen' := seen + [x];
      var k2 := if x.votes > seen[k].votes then |seen| else k;
      FirstMaxExtend(seen, k, x);
      assert seen'[k2] == if x.votes > seen[k].votes then x else seen[k];
      assert ReduceLeading(seen[k], rest) == ReduceLeading(seen'[k2], rest[1..]);
      last := ReduceLeadingFirstMax(seen', k2, rest[1..]);
      assert seen' + rest[1..] == seen + rest;
    }
  }

  /** The reduce over a non-empty list returns its earliest maximum. */
  lemma ReduceLeadingIsFirstMax(s: seq<PollOption>)
    requires s != []
    ensures exists k :: IsFirstMax(s, k) && ReduceLeading(s[0], s[1..]) == s[k]
  {
    assert IsFirstMax([s[0]], 0);
    assert [s[0]] + s[1..] == s;
    var k := ReduceLeadingFirstMax([s[0]], 0, s[1..]);
    assert IsFirstMax(s, k);
  }

  /** The leading option: none for a missing or empty list, else the earliest
      option whose tally no other option exceeds. */
  function GetLeadingOption(options: Option<seq<PollOption>>): (r: Option<PollOption>)
    ensures r.None? <==> options.None? || options.value == []
    ensures r.Some? ==> exists k :: IsFirstMax(options.value, k) && r.value == options.value[k]
  {
    match options
    case None => None
    case Some(s) =>
      if s == [] then None
      else
        ReduceLeadingIsFirstMax(s);
        Some(ReduceLeading(s[0], s[1..]))
  }

  /** The reduce over a list extended by one option takes one more step at the end. */
  lemma {:induction false} ReduceLeadingSnoc(leading: PollOption, rest: seq<PollOption>, x: PollOption)
    ensures ReduceLeading(leading, rest + [x]) ==
            (var r := ReduceLeading(leading, rest); if x.votes > r.votes then x else r)
    decreases |rest|
  {
    if rest == [] {
      assert rest + [x] == [x];
    } else {
      assert (rest + [x])[0] == rest[0];
      assert (rest + [x])[1..] == rest[1..] + [x];
      ReduceLeadingSnoc(if rest[0].votes > leading.votes then rest[0] else leading, rest[1..], x);
    }
  }

  /** Non-increasing by tally: the order the detailed results are shown in. */
  predicate SortedByVotesDesc(s: seq<PollOption>)
  {
    forall i, j :: 0 <= i < j < |s| ==> s[i].votes >= s[j].votes
  }

  /** On a list sorted by the page's comparator, the leader is the first option. */
  lemma SortedLeaderIsFirst(s: seq<PollOption>)
    requires SortedByVotesDesc(s) && s != []
    ensures GetLeadingOption(Some(s)) == Some(s[0])
  {
    assert IsFirstMax(s, 0);
    var k :| IsFirstMax(s, k) && GetLeadingOption(Some(s)).value == s[k];
    FirstMaxUnique(s, 0, k);
  }

  /** Exchanges two neighbouring options. */
  method SwapDown(a: array<PollOption>, j: int)
    requires 0 < j < a.Length
    modifies a
    ensures a[j - 1] == old(a[j]) && a[j] == old(a[j - 1])
    ensures forall m :: 0 <= m < a.Length && m != j - 1 && m != j ==> a[m] == old(a[m])
    ensures multiset(a[..]) == multiset(old(a[..]))
  {
    a[j - 1], a[j] := a[j], a[j - 1];
  }

  /** Moves the option at `i` up past every strictly smaller tally before it,
      extending the sorted prefix by one. */
  method InsertIntoSorted(a: array<PollOption>, i: int)
    requires 0 <= i < a.Length
    requires SortedByVotesDesc(a[..i])
    modifies a
    ensures SortedByVotesDesc(a[..i + 1])
    ensures forall m :: i < m < a.Length ==> a[m] == old(a[m])
    ensures multiset(a[..]) == multiset(old(a[..]))
    ensures a[0] == if old(a[i]).votes > old(a[0]).votes then old(a[i]) else old(a[0])
  {
    var j := i;
    while j > 0 && a[j - 1].votes < a[j].votes
      invariant 0 <= j <= i
      invariant forall m :: i < m < a.Length ==> a[m] == old(a[m])
      invariant forall m :: 0 <= m < j ==> a[m] == old(a[m])
      invariant a[j] == old(a[i])
      invariant j < i ==> old(a[j]).votes < old(a[i]).votes
      invariant multiset(a[..]) == multiset(old(a[..]))
      invariant forall k, l :: 0 <= k < l <= i && k != j && l != j ==> a[k].votes >= a[l].votes
      invariant forall l :: j < l <= i ==> a[l].votes < a[j].votes
    {
      SwapDown(a, j);
      j := j - 1;
    }
    if 0 < j {
      assert old(a[..i])[0].votes >= old(a[..i])[j - 1].votes;
    }
  }

  /** The in-place sort by descending tally (an insertion sort that moves an
      option up only past strictly smaller tallies, so equal tallies keep their
      order): the first option afterwards is the leading option of the input. */
  method SortByVotesDescending(a: array<PollOption>)
    modifies a
    ensures SortedByVotesDesc(a[..])
    ensures multiset(a[..]) == multiset(old(a[..]))
    ensures a.Length > 0 ==> GetLeadingOption(Some(old(a[..]))) == Some(a[0])
  {
    ghost var s := a[..];
    var i := 0;
    while i < a.Length
      invariant 0 <= i <= a.Length
      invariant SortedByVotesDesc(a[..i])
      invariant multiset(a[..]) == multiset(old(a[..]))
      invariant forall m :: i <= m < a.Length ==> a[m] == s[m]
      invariant 0 < i ==> a[0] == ReduceLeading(s[0], s[1..i])
    {
      InsertIntoSorted(a, i);
      if 0 < i {
        ReduceLeadingSnoc(s[0], s[1..i], s[i]);
        assert s[1..i + 1] == s[1..i] + [s[i]];
      }
      i := i + 1;
    }
    assert a[..i] == a[..];
    if 0 < a.Length {
      assert s[1..i] == s[1..];
    }
  }

  /** Sum of the per-poll totals. */
  function SumTotals(polls: seq<PollEntry>): nat
  {
    if polls == [] then 0
    else SumTotals(polls[..|polls| - 1]) + TotalVotes(polls[|polls| - 1].data.options)
  }

  /** Sum of the option-list lengths. */
  function SumOptionCounts(polls: seq<PollEntry>): nat
  {
    if polls == [] then 0
    else SumOptionCounts(polls[..|polls| - 1]) + |polls[|polls| - 1].data.options|
  }

  /** Number of polls with a positive total. */
  function CountActive(polls: seq<PollEntry>): nat
  {
    if polls == [] then 0
    else CountActive(polls[..|polls| - 1]) + (if TotalVotes(polls[|polls| - 1].data.options) > 0 then 1 else 0)
  }

  /** No more polls are active than there are polls, and none is active exactly when no vote exists at all. */
  lemma {:induction false} ActivePollsBounds(polls: seq<PollEntry>)
    ensures CountActive(polls) <= |polls|
    ensures CountActive(polls) == 0 <==> SumTotals(polls) == 0
    decreases |polls|
  {
    if polls != [] {
      ActivePollsBounds(polls[..|polls| - 1]);
    }
  }

  datatype OverallStats = OverallStats(totalVotes: nat, totalOptions: nat, activePolls: nat)

  /** The dashboard figures, accumulated over the loaded polls in order. */
  method GetOverallStats(allPolls: seq<PollEntry>) returns (stats: OverallStats)
    ensures stats.totalVotes == SumTotals(allPolls)
    ensures stats.totalOptions == SumOptionCounts(allPolls)
    ensures stats.activePolls == CountActive(allPolls)
    ensures stats.activePolls <= |allPolls|
    ensures stats.activePolls == 0 <==> stats.totalVotes == 0
  {
    var totalVotes, totalOptions, activePolls := 0, 0, 0;
    var i := 0;
    while i < |allPolls|
      invariant 0 <= i <= |allPolls|
      invariant totalVotes == SumTotals(allPolls[..i])
      invariant totalOptions == SumOptionCounts(allPolls[..i])
      invariant activePolls == CountActive(allPolls[..i])
    {
      var poll := allPolls[i].data;
      var votes := GetTotalVotes(Some(poll.options));
      totalVotes := totalVotes + votes;
      totalOptions := totalOptions + |poll.options|;
      if votes > 0 {
        activePolls := activePolls + 1;
      }
      assert allPolls[..i + 1][..i] == allPolls[..i];
      i := i + 1;
    }
    assert allPolls[..i] == allPolls;
    ActivePollsBounds(allPolls);
    stats := OverallStats(totalVotes, totalOptions, activePolls);
  }

  /** The `storage` filter: the changed key is one of the configured storage keys. */
  predicate IsConfigStorageKey(key: Option<string>)
  {
    key.Some? && key.value in ConfigStorageKeys
  }

  /** A poll's own key never passes the filter, so a vote written in another
      tab never makes this page reload. */
  lemma PollWritesNeverReload(pollType: string)
    ensures !IsConfigStorageKey(Some(UsePollData.StorageKey(pollType)))
  {
    ConfigKeysAreNotPollKeys();
  }

  /** The page's state: the loaded polls and the loading flag. */
  class ResultsPage {
    const browser: Browser
    var allPolls: seq<PollEntry>
    var loading: bool

    constructor (browser: Browser)
      ensures this.browser == browser && allPolls == [] && loading
    {
      this.browser := browser;
      allPolls := [];
      loading := true;
    }

    /** Reads every configured poll, in table order, into `allPolls`. */
    method LoadAllPollResults()
      modifies this
      ensures allPolls == LoadPolls(browser.localStorage, PollConfigs)
      ensures |allPolls| == |PollConfigs|
      ensures forall i :: 0 <= i < |PollConfigs| ==>
                allPolls[i] == PollEntry(PollConfigs[i].key, GetPollData(browser.localStorage, PollConfigs[i].key))
      ensures !loading
    {
      loading := true;
      var polls := [];
      var i := 0;
      while i < |PollConfigs|
        invariant 0 <= i <= |PollConfigs|
        invariant polls == LoadPolls(browser.localStorage, PollConfigs[..i])
      {
        var key := PollConfigs[i].key;
        assert PollConfigs[..i + 1][..i] == PollConfigs[..i];
        polls := polls + [PollEntry(key, GetPollData(browser.localStorage, key))];
        i := i + 1;
      }
      assert PollConfigs[..i] == PollConfigs;
      allPolls := polls;
      LoadPollsEntries(browser.localStorage, PollConfigs);
      loading := false;
    }

    /** The `storage` listener: reloads only when the changed key is a configured storage key. */
    method HandleStorageChange(key: Option<string>)
      modifies this
      ensures IsConfigStorageKey(key) ==> allPolls == LoadPolls(browser.localStorage, PollConfigs) && !loading
      ensures !IsConfigStorageKey(key) ==> allPolls == old(allPolls) && loading == old(loading)
    {
      if IsConfigStorageKey(key) {
        LoadAllPollResults();
      }
    }

    /** The custom-event listener: reloads only on an event named `pollDataUpdated`. */
    method HandleWindowEvent(e: WindowEvent)
      modifies this
      ensures e.name == "pollDataUpdated" ==> allPolls == LoadPolls(browser.localStorage, PollConfigs) && !loading
      ensures e.name != "pollDataUpdated" ==> allPolls == old(allPolls) && loading == old(loading)
    {
      if e.name == "pollDataUpdated" {
        LoadAllPollResults();
      }
    }

    /** "Reset all": when confirmed, removes every configured storage key and
        reloads. No poll's key is among them, so every tally reloads unchanged. */
    method ResetAllPolls(confirmed: bool)
      modifies this, browser
      ensures confirmed ==> browser.localStorage == old(browser.localStorage) - ConfigStorageKeys
      ensures confirmed ==> allPolls == LoadPolls(old(browser.localStorage), PollConfigs) && !loading
      ensures !confirmed ==> allPolls == old(allPolls) && loading == old(loading)
      ensures !confirmed ==> browser.localStorage == old(browser.localStorage)
      ensures browser.sessionStorage == old(browser.sessionStorage) && browser.dispatched == old(browser.dispatched)
    {
      if confirmed {
        RemoveConfigStorageKeys();
        ConfigKeysAreNotPollKeys();
        LoadPollsIgnoresOtherKeys(old(browser.localStorage), PollConfigs, ConfigStorageKeys);
        LoadAllPollResults();
      }
    }

    /** The removal loop of "reset all": one removal per entry of the poll table. */
    method RemoveConfigStorageKeys()
      modifies browser
      ensures browser.localStorage == old(browser.localStorage) - ConfigStorageKeys
      ensures browser.sessionStorage == old(browser.sessionStorage) && browser.dispatched == old(browser.dispatched)
    {
      var i := 0;
      while i < |PollConfigs|
        invariant 0 <= i <= |PollConfigs|
        invariant browser.localStorage == old(browser.localStorage) - StorageKeysOf(PollConfigs[..i])
        invariant browser.sessionStorage == old(browser.sessionStorage) && browser.dispatched == old(browser.dispatched)
      {
        browser.RemoveItem(PollConfigs[i].storageKey);
        assert PollConfigs[..i + 1][..i] == PollConfigs[..i];
        i := i + 1;
      }
      assert PollConfigs[..i] == PollConfigs;
      StorageKeysOfConfigs(PollConfigs);
    }

    /** The detailed-results render sorts each loaded poll's option list in
        place, so the page's own state ends up ordered by descending tally with
        each poll's leading option unchanged. */
    method SortDetailedResults()
      modifies this
      ensures |allPolls| == |old(allPolls)| && loading == old(loading)
      ensures forall i :: 0 <= i < |allPolls| ==>
                && allPolls[i].pollType == old(allPolls[i].pollType)
                && SortedByVotesDesc(allPolls[i].data.options)
                && multiset(allPolls[i].data.options) == multiset(old(allPolls[i].data.options))
                && TotalVotes(allPolls[i].data.options) == TotalVotes(old(allPolls[i].data.options))
                && GetLeadingOption(Some(allPolls[i].data.options)) == GetLeadingOption(Some(old(allPolls[i].data.options)))
    {
      var i := 0;
      while i < |allPolls|
        invariant 0 <= i <= |allPolls| == |old(allPolls)|
        invariant loading == old(loading)
        invariant forall k :: i <= k < |allPolls| ==> allPolls[k] == old(allPolls[k])
        invariant forall k :: 0 <= k < i ==>
                    && allPolls[k].pollType == old(allPolls[k].pollType)
                    && SortedByVotesDesc(allPolls[k].data.options)
                    && multiset(allPolls[k].data.options) == multiset(old(allPolls[k].data.options))
                    && TotalVotes(allPolls[k].data.options) == TotalVotes(old(allPolls[k].data.options))
                    && GetLeadingOption(Some(allPolls[k].data.options)) == GetLeadingOption(Some(old(allPolls[k].data.options)))
      {
        var options := allPolls[i].data.options;
        var a := new PollOption[|options|](k requires 0 <= k < |options| => options[k]);
        assert a[..] == options;
        SortByVotesDescending(a);
        TotalVotesPermutation(a[..], options);
        if a.Length > 0 {
          SortedLeaderIsFirst(a[..]);
        }
        allPolls := allPolls[i := PollEntry(allPolls[i].pollType, PollData(a[..]))];
        i := i + 1;
      }
    }
  }
}
