/** The frontend poll component's session vote guard: the `hasVoted` and
    `selectedOption` state, mirrored under two session-storage keys, which lets
    the component call the hook's vote at most once until the guard is reset. */
module FrontendGuard {
  import opened PollModel
  import opened WebStorage
  import opened UsePollData

  const HasVotedKey: string := "hasVotedFrontend"
  const SelectedOptionKey: string := "selectedFrontendOption"

  /** The component's two state fields. */
  datatype Guard = Guard(hasVoted: bool, selectedOption: string)

  /** The state a freshly mounted component starts in. */
  const Fresh: Guard := Guard(false, "")

  /** The session records a vote: the flag is the text "true" and the recorded
      option is present and non-empty (an empty text counts as absent). */
  predicate SessionSaysVoted(session: map<string, string>)
  {
    && HasVotedKey in session && session[HasVotedKey] == "true"
    && SelectedOptionKey in session && session[SelectedOptionKey] != ""
  }

  /** The mount effect: adopt the recorded vote when the session has one, else keep the state. */
  function Restore(g: Guard, session: map<string, string>): Guard
  {
    if SessionSaysVoted(session) then Guard(true, session[SelectedOptionKey]) else g
  }

  /** Restoring from a fresh state yields a voted state exactly when the session
      records a vote, with the recorded option; otherwise the fresh state. */
  lemma RestoreFromFresh(session: map<string, string>)
    ensures Restore(Fresh, session).hasVoted <==> SessionSaysVoted(session)
    ensures SessionSaysVoted(session) ==> Restore(Fresh, session).selectedOption == session[SelectedOptionKey]
    ensures !SessionSaysVoted(session) ==> Restore(Fresh, session) == Fresh
  {
  }

  /** One vote click: the new guard state, and whether the hook's vote is called. */
  function Vote(g: Guard, optionId: string): (r: (Guard, bool))
  {
    if g.hasVoted then (g, false) else (Guard(true, optionId), true)
  }

  /** The session after a counted vote: the flag, then the chosen option. */
  function VoteSession(session: map<string, string>, optionId: string): map<string, string>
  {
    session[HasVotedKey := "true"][SelectedOptionKey := optionId]
  }

  /** Replays a sequence of vote clicks: the final guard state and how many
      times the hook's vote was called. */
  function Clicks(g: Guard, optionIds: seq<string>): (Guard, nat)
    decreases |optionIds|
  {
    if optionIds == [] then (g, 0)
    else
      var (g', called) := Vote(g, optionIds[0]);
      var (final, calls) := Clicks(g', optionIds[1..]);
      (final, calls + if called then 1 else 0)
  }

  /** Any sequence of clicks calls the vote at most once: never if the guard is
      already set, exactly once from an unset guard, and the first click's
      option is the one that stays selected. */
  lemma {:induction false} ClicksVoteAtMostOnce(g: Guard, optionIds: seq<string>)
    ensures Clicks(g, optionIds).1 <= 1
    ensures g.hasVoted ==> Clicks(g, optionIds) == (g, 0)
    ensures !g.hasVoted && optionIds != [] ==> Clicks(g, optionIds) == (Guard(true, optionIds[0]), 1)
    decreases |optionIds|
  {
    if optionIds != [] {
      var g' := Vote(g, optionIds[0]).0;
      assert g'.hasVoted;
      ClicksVoteAtMostOnce(g', optionIds[1..]);
    }
  }

  /** After a vote from a fresh state, the mount restore reproduces the same
      state from the session, provided the option id is non-empty. */
  lemma RestoreAfterVote(session: map<string, string>, optionId: string)
    requires optionId != ""
    ensures Restore(Fresh, VoteSession(session, optionId)) == Vote(Fresh, optionId).0
  {
    assert HasVotedKey != SelectedOptionKey;
  }

  /** With an empty option id the vote is recorded but not restored: the
      restored state is fresh while the voted one is not. */
  lemma EmptyOptionNotRestored(session: map<string, string>)
    ensures Restore(Fresh, VoteSession(session, "")) == Fresh
    ensures Vote(Fresh, "").0 != Fresh
  {
  }

  /** Once the guard's two session keys are removed, a remount restores nothing. */
  lemma RestoreAfterReset(g: Guard, session: map<string, string>)
    ensures Restore(g, session - {HasVotedKey, SelectedOptionKey}) == g
  {
  }

  /** The frontend poll component's state over the hook it votes through. */
  class FrontendPoll {
    const poll: PollDataHook
    var hasVoted: bool
    var selectedOption: string
    /** How many times the hook's vote was called since mount or the last reset. */
    ghost var updateCalls: nat

    ghost predicate Valid()
      reads this
    {
      updateCalls <= 1 && (!hasVoted ==> updateCalls == 0)
    }

    function State(): Guard
      reads this
    {
      Guard(hasVoted, selectedOption)
    }

    constructor (poll: PollDataHook)
      requires poll.pollType == "frontend"
      ensures this.poll == poll && Valid() && State() == Fresh && updateCalls == 0
    {
      this.poll := poll;
      hasVoted := false;
      selectedOption := "";
      updateCalls := 0;
    }

    /** The mount effect over the tab's session storage. */
    method RestoreSession()
      requires Valid()
      modifies this
      ensures Valid() && State() == Restore(old(State()), poll.browser.sessionStorage)
      ensures updateCalls == old(updateCalls)
    {
      var session := poll.browser.sessionStorage;
      if HasVotedKey in session && session[HasVotedKey] == "true"
         && SelectedOptionKey in session && session[SelectedOptionKey] != "" {
        hasVoted := true;
        selectedOption := session[SelectedOptionKey];
      }
    }

    /** A vote click: ignored once voted; otherwise one call of the hook's
        vote, then the guard and both session keys are set. */
    method HandleVote(optionId: string)
      requires Valid()
      modifies this, poll, poll.browser
      ensures Valid() && State() == Vote(old(State()), optionId).0
      ensures updateCalls == old(updateCalls) + if Vote(old(State()), optionId).1 then 1 else 0
      ensures old(hasVoted) ==> unchanged(poll) && unchanged(poll.browser)
      ensures !old(hasVoted) ==> poll.pollData == PollData(IncrementVotes(old(poll.pollData).options, optionId))
      ensures !old(hasVoted) ==>
                poll.browser.localStorage == old(poll.browser.localStorage)[StorageKey(poll.pollType) := poll.pollData]
      ensures !old(hasVoted) ==> poll.browser.sessionStorage == VoteSession(old(poll.browser.sessionStorage), optionId)
      ensures !old(hasVoted) ==>
                poll.browser.dispatched == old(poll.browser.dispatched) + [CustomEvent("pollUpdate", poll.pollType, poll.pollData)]
    {
      if hasVoted {
        return;
      }
      poll.UpdateVotes(optionId);
      updateCalls := updateCalls + 1;
      hasVoted := true;
      selectedOption := optionId;
      poll.browser.SetSessionItem(HasVotedKey, "true");
      poll.browser.SetSessionItem(SelectedOptionKey, optionId);
    }

    /** The component's reset: forgets the session vote and clears the guard;
        the tallies are left alone. */
    method ResetPoll()
      requires Valid()
      modifies this, poll.browser
      ensures Valid() && State() == Fresh && updateCalls == 0
      ensures poll.browser.sessionStorage == old(poll.browser.sessionStorage) - {HasVotedKey, SelectedOptionKey}
      ensures poll.browser.localStorage == old(poll.browser.localStorage)
      ensures poll.browser.dispatched == old(poll.browser.dispatched)
      ensures unchanged(poll)
    {
      poll.browser.RemoveSessionItem(HasVotedKey);
      poll.browser.RemoveSessionItem(SelectedOptionKey);
      hasVoted := false;
      selectedOption := "";
      updateCalls := 0;
    }
  }

  /** Two clicks in a row on a fresh component record one vote: the second
      click leaves the tallies as the first one set them. */
  method TwoClicksOneVote(view: FrontendPoll, first: string, second: string)
    requires view.Valid() && !view.hasVoted
    modifies view, view.poll, view.poll.browser
    ensures view.Valid() && view.State() == Guard(true, first) && view.updateCalls == 1
    ensures view.poll.pollData == PollData(IncrementVotes(old(view.poll.pollData).options, first))
  {
    view.HandleVote(first);
    var afterFirst := view.poll.pollData;
    view.HandleVote(second);
    assert view.poll.pollData == afterFirst;
  }
}
