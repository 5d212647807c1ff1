/** The poll hook: the built-in seed polls, the read of one poll's snapshot
    from local storage, and the per-poll state object with its vote, reset and
    refresh operations. */
module UsePollData {
  import opened PollModel
  import opened WebStorage

  /** The local-storage key a poll's snapshot lives under. */
  function StorageKey(pollType: string): string
  {
    "poll_" + pollType
  }

  /** Distinct polls never share a storage key. */
  lemma StorageKeyInjective(a: string, b: string)
    requires StorageKey(a) == StorageKey(b)
    ensures a == b
  {
    assert a == StorageKey(a)[5..];
    assert b == StorageKey(b)[5..];
  }

  /** The built-in seed snapshot of each poll the app knows; `None` for any other poll. */
  function DefaultData(pollType: string): Option<PollData>
  {
    if pollType == "frontend" then
      Some(PollData([
        PollOption("react", "React", "JavaScript library for building user interfaces", 245, "hsl(193, 95%, 68%)"),
        PollOption("vue", "Vue.js", "Progressive framework for building UIs", 189, "hsl(153, 47%, 49%)"),
        PollOption("angular", "Angular", "Platform for building mobile and desktop apps", 156, "hsl(348, 86%, 61%)"),
        PollOption("svelte", "Svelte", "Cybernetically enhanced web apps", 87, "hsl(15, 100%, 50%)")
      ]))
    else if pollType == "backend" then
      Some(PollData([
        PollOption("nodejs", "Node.js", "JavaScript runtime built on Chrome's V8", 312, "hsl(120, 100%, 25%)"),
        PollOption("python", "Python", "High-level programming language", 298, "hsl(55, 100%, 50%)"),
        PollOption("java", "Java", "Object-oriented programming language", 201, "hsl(25, 100%, 50%)"),
        PollOption("csharp", "C#", "Modern language by Microsoft", 167, "hsl(280, 100%, 50%)")
      ]))
    else if pollType == "devtools" then
      Some(PollData([
        PollOption("vscode", "VS Code", "Free source-code editor by Microsoft", 423, "hsl(210, 100%, 60%)"),
        PollOption("webstorm", "WebStorm", "Powerful IDE for JavaScript development", 156, "hsl(45, 100%, 50%)"),
        PollOption("vim", "Vim/Neovim", "Highly configurable text editor", 134, "hsl(120, 50%, 40%)"),
        PollOption("sublime", "Sublime Text", "Sophisticated text editor", 89, "hsl(30, 100%, 50%)")
      ]))
    else
      None
  }

  /** A seed a poll can start from: non-empty, distinct ids, every tally positive. */
  predicate WellFormedSeed(options: seq<PollOption>)
  {
    |options| > 0 && UniqueIds(options) && forall i :: 0 <= i < |options| ==> options[i].votes > 0
  }

  /** Four options whose ids differ pairwise and whose tallies are positive form a well-formed seed. */
  lemma FourOptionSeed(options: seq<PollOption>)
    requires |options| == 4
    requires forall i :: 0 <= i < 4 ==> options[i].votes > 0
    requires options[0].id != options[1].id && options[0].id != options[2].id && options[0].id != options[3].id
    requires options[1].id != options[2].id && options[1].id != options[3].id && options[2].id != options[3].id
    ensures WellFormedSeed(options)
  {
  }

  /** Exactly the three polls have seeds, and each seed is well formed. */
  lemma SeedsWellFormed(pollType: string)
    ensures DefaultData(pollType).Some? <==> pollType in {"frontend", "backend", "devtools"}
    ensures DefaultData(pollType).Some? ==> WellFormedSeed(DefaultData(pollType).value.options)
  {
    if DefaultData(pollType).Some? {
      var options := DefaultData(pollType).value.options;
      if pollType == "frontend" {
        assert Ids(options) == ["react", "vue", "angular", "svelte"];
      } else if pollType == "backend" {
        assert Ids(options) == ["nodejs", "python", "java", "csharp"];
      } else {
        assert Ids(options) == ["vscode", "webstorm", "vim", "sublime"];
      }
      FourOptionSeed(options);
    }
  }

  /** One poll's snapshot: the stored one when its key is present, else the
      seed, else an empty option list for a poll without a seed. */
  function GetPollData(storage: map<string, PollData>, pollType: string): (r: PollData)
    ensures StorageKey(pollType) in storage ==> r == storage[StorageKey(pollType)]
    ensures StorageKey(pollType) !in storage && DefaultData(pollType).Some? ==> r == DefaultData(pollType).value
    ensures StorageKey(pollType) !in storage && DefaultData(pollType).None? ==> r.options == []
  {
    var key := StorageKey(pollType);
    if key in storage then storage[key]
    else match DefaultData(pollType)
      case Some(seed) => seed
      case None => PollData([])
  }

  /** A read right after a write of the poll's own key returns what was written. */
  lemma GetPollDataAfterWrite(storage: map<string, PollData>, pollType: string, data: PollData)
    ensures GetPollData(storage[StorageKey(pollType) := data], pollType) == data
  {
  }

  /** The read depends on the poll's own key only: writing or removing any other key changes nothing. */
  lemma GetPollDataOtherKey(storage: map<string, PollData>, pollType: string, key: string, data: PollData)
    requires key != StorageKey(pollType)
    ensures GetPollData(storage[key := data], pollType) == GetPollData(storage, pollType)
    ensures GetPollData(storage - {key}, pollType) == GetPollData(storage, pollType)
  {
  }

  /** An unknown poll with nothing stored has no options and no votes. */
  lemma UnknownPollIsEmpty(storage: map<string, PollData>, pollType: string)
    requires StorageKey(pollType) !in storage
    requires pollType !in {"frontend", "backend", "devtools"}
    ensures GetPollData(storage, pollType).options == []
    ensures TotalVotes(GetPollData(storage, pollType).options) == 0
  {
    SeedsWellFormed(pollType);
  }

  /** The snapshot a reset writes: whatever the read returns now, tallies zeroed. */
  function ResetData(storage: map<string, PollData>, pollType: string): (r: PollData)
    ensures Ids(r.options) == Ids(GetPollData(storage, pollType).options)
    ensures TotalVotes(r.options) == 0
    ensures forall i :: 0 <= i < |r.options| ==> r.options[i].votes == 0
  {
    PollData(ZeroVotes(GetPollData(storage, pollType).options))
  }

  /** A reset starts from the stored snapshot, not from the seed: with a
      one-option snapshot stored for the frontend poll, the reset keeps that
      one option instead of restoring the four seeded ones. */
  lemma ResetKeepsStoredOptions()
    ensures var stored := PollData([PollOption("solid", "Solid", "", 3, "")]);
            var storage := map[StorageKey("frontend") := stored];
            Ids(ResetData(storage, "frontend").options) == ["solid"] &&
            Ids(ResetData(storage, "frontend").options) != Ids(DefaultData("frontend").value.options)
  {
    var stored := PollData([PollOption("solid", "Solid", "", 3, "")]);
    var storage := map[StorageKey("frontend") := stored];
    assert Ids(ResetData(storage, "frontend").options) == Ids(stored.options);
    assert |Ids(DefaultData("frontend").value.options)| == 4;
  }

  /** The state `usePollData(pollType)` keeps for one mounted component. */
  class PollDataHook {
    const pollType: string
    const browser: Browser
    var pollData: PollData

    /** The lazy initial state: the current read of the poll. */
    constructor (pollType: string, browser: Browser)
      ensures this.pollType == pollType && this.browser == browser
      ensures pollData == GetPollData(browser.localStorage, pollType)
    {
      this.pollType := pollType;
      this.browser := browser;
      pollData := GetPollData(browser.localStorage, pollType);
    }

    /** The derived total the hook hands to its callers: it bounds every
        option's tally and is zero exactly when no option has a vote. */
    function CurrentTotal(): (t: nat)
      reads this
      ensures forall i :: 0 <= i < |pollData.options| ==> pollData.options[i].votes <= t
      ensures t == 0 <==> forall i :: 0 <= i < |pollData.options| ==> pollData.options[i].votes == 0
    {
      TotalVotes(pollData.options)
    }

    /** Casts one vote: the new snapshot replaces the state, is written under
        the poll's key and is announced as a `pollUpdate` event. */
    method UpdateVotes(optionId: string)
      modifies this, browser
      ensures pollData == PollData(IncrementVotes(old(pollData).options, optionId))
      ensures browser.localStorage == old(browser.localStorage)[StorageKey(pollType) := pollData]
      ensures GetPollData(browser.localStorage, pollType) == pollData
      ensures browser.sessionStorage == old(browser.sessionStorage)
      ensures browser.dispatched == old(browser.dispatched) + [CustomEvent("pollUpdate", pollType, pollData)]
      ensures UniqueIds(old(pollData).options) ==>
                CurrentTotal() == old(CurrentTotal()) + (if HasId(old(pollData).options, optionId) then 1 else 0)
    {
      var newData := PollData(IncrementVotes(pollData.options, optionId));
      if UniqueIds(pollData.options) {
        VoteAddsOne(pollData.options, optionId);
      }
      browser.SetItem(StorageKey(pollType), newData);
      browser.DispatchEvent(CustomEvent("pollUpdate", pollType, newData));
      pollData := newData;
    }

    /** Zeroes every tally of the current read of the poll (the stored
        snapshot when there is one), then stores and announces it. */
    method ResetPoll()
      modifies this, browser
      ensures pollData == ResetData(old(browser.localStorage), pollType)
      ensures CurrentTotal() == 0
      ensures Ids(pollData.options) == Ids(GetPollData(old(browser.localStorage), pollType).options)
      ensures browser.localStorage == old(browser.localStorage)[StorageKey(pollType) := pollData]
      ensures browser.sessionStorage == old(browser.sessionStorage)
      ensures browser.dispatched == old(browser.dispatched) + [CustomEvent("pollUpdate", pollType, pollData)]
    {
      var resetData := ResetData(browser.localStorage, pollType);
      pollData := resetData;
      browser.SetItem(StorageKey(pollType), resetData);
      browser.DispatchEvent(CustomEvent("pollUpdate", pollType, resetData));
    }

    /** The `storage` listener: re-reads the poll when, and only when, the
        changed key is this poll's key (`None` is a cleared storage). */
    method HandleStorageChange(key: Option<string>)
      modifies this
      ensures key == Some(StorageKey(pollType)) ==> pollData == GetPollData(browser.localStorage, pollType)
      ensures key != Some(StorageKey(pollType)) ==> pollData == old(pollData)
    {
      if key == Some(StorageKey(pollType)) {
        pollData := GetPollData(browser.localStorage, pollType);
      }
    }

    /** The two-second fallback: replaces the state only when the current read
        differs from it, and says whether it did. */
    method IntervalTick() returns (replaced: bool)
      modifies this
      ensures replaced <==> GetPollData(browser.localStorage, pollType) != old(pollData)
      ensures pollData == GetPollData(browser.localStorage, pollType)
    {
      var newData := GetPollData(browser.localStorage, pollType);
      replaced := newData != pollData;
      if replaced {
        pollData := newData;
      }
    }
  }

  /** Two ticks with no write between them: the second one replaces nothing. */
  method IntervalTickIdempotent(hook: PollDataHook) returns (first: bool, second: bool)
    modifies hook
    ensures !second
    ensures hook.pollData == GetPollData(hook.browser.localStorage, hook.pollType)
  {
    first := hook.IntervalTick();
    var settled := hook.pollData;
    second := hook.IntervalTick();
    assert hook.pollData == settled;
  }
}
