/** Values shared by the poll hook, the results page and the frontend vote guard:
    one option of a poll, a poll's snapshot, and the folds over option lists. */
module PollModel {

  datatype Option<T> = None | Some(value: T)

  /** One choice in a poll. The app only ever changes `votes`; the other fields
      are display data fixed by the seed lists. */
  datatype PollOption = PollOption(id: string, title: string, description: string, votes: nat, color: string)

  /** A poll's snapshot: the object stored under `poll_<type>` and held in the
      hook's state. Its only field is the ordered option list. */
  datatype PollData = PollData(options: seq<PollOption>)

  /** Two options are the same choice shown the same way (everything but the tally agrees). */
  predicate SameIdentity(a: PollOption, b: PollOption)
  {
    a.id == b.id && a.title == b.title && a.description == b.description && a.color == b.color
  }

  /** The option ids, in list order. */
  function Ids(options: seq<PollOption>): (r: seq<string>)
    ensures |r| == |options|
    ensures forall i :: 0 <= i < |options| ==> r[i] == options[i].id
  {
    seq(|options|, i requires 0 <= i < |options| => options[i].id)
  }

  predicate UniqueIds(options: seq<PollOption>)
  {
    forall i, j :: 0 <= i < j < |options| ==> options[i].id != options[j].id
  }

  predicate HasId(options: seq<PollOption>, id: string)
  {
    exists i :: 0 <= i < |options| && options[i].id == id
  }

  /** The running sum of the tallies, folded from the left as the source's reduce does:
      no tally exceeds it, and it is zero exactly when every tally is. */
  function TotalVotes(options: seq<PollOption>): (t: nat)
    ensures forall i :: 0 <= i < |options| ==> options[i].votes <= t
    ensures t == 0 <==> forall i :: 0 <= i < |options| ==> options[i].votes == 0
  {
    if options == [] then 0
    else TotalVotes(options[..|options| - 1]) + options[|options| - 1].votes
  }

  /** How many options carry the id `id`. */
  function CountId(options: seq<PollOption>, id: string): nat
  {
    if options == [] then 0
    else CountId(options[..|options| - 1], id) + (if options[|options| - 1].id == id then 1 else 0)
  }

  /** The vote step of the poll hook: every option whose id is `optionId`
      gains one vote; every other option, the length and the order stay. */
  function IncrementVotes(options: seq<PollOption>, optionId: string): (r: seq<PollOption>)
    ensures |r| == |options| && Ids(r) == Ids(options)
    ensures forall i :: 0 <= i < |options| ==>
              SameIdentity(r[i], options[i]) &&
              r[i].votes == options[i].votes + (if options[i].id == optionId then 1 else 0)
  {
    seq(|options|, i requires 0 <= i < |options| =>
          if options[i].id == optionId then options[i].(votes := options[i].votes + 1) else options[i])
  }

  /** The reset step of the poll hook: the same options with every tally at zero. */
  function ZeroVotes(options: seq<PollOption>): (r: seq<PollOption>)
    ensures |r| == |options| && Ids(r) == Ids(options)
    ensures forall i :: 0 <= i < |options| ==> SameIdentity(r[i], options[i]) && r[i].votes == 0
  {
    seq(|options|, i requires 0 <= i < |options| => options[i].(votes := 0))
  }

  /** The total of a concatenation is the sum of the totals. */
  lemma {:induction false} TotalVotesAppend(a: seq<PollOption>, b: seq<PollOption>)
    ensures TotalVotes(a + b) == TotalVotes(a) + TotalVotes(b)
    decreases |b|
  {
    if b == [] {
      assert a + b == a;
    } else {
      var b' := b[..|b| - 1];
      assert (a + b)[..|a + b| - 1] == a + b';
      assert (a + b)[|a + b| - 1] == b[|b| - 1];
      TotalVotesAppend(a, b');
    }
  }

  /** Taking one option out of a list takes exactly its votes out of the total. */
  lemma TotalVotesRemove(s: seq<PollOption>, k: nat)
    requires k < |s|
    ensures TotalVotes(s) == TotalVotes(s[..k] + s[k + 1..]) + s[k].votes
  {
    var front, x, back := s[..k], s[k], s[k + 1..];
    assert s == front + ([x] + back);
    TotalVotesAppend(front, [x] + back);
    TotalVotesAppend([x], back);
    TotalVotesAppend(front, back);
    assert [x][..0] == [];
    assert TotalVotes([x]) == x.votes;
  }

  /** Taking the element at `k` out of a list takes exactly one copy of it out of its multiset. */
  lemma MultisetRemoveAt(t: seq<PollOption>, k: nat)
    requires k < |t|
    ensures multiset(t[..k] + t[k + 1..]) == multiset(t) - multiset{t[k]}
  {
    assert t == t[..k] + [t[k]] + t[k + 1..];
  }

  /** Reordering the options (the results page's sort does) leaves the total unchanged. */
  lemma {:induction false} TotalVotesPermutation(s: seq<PollOption>, t: seq<PollOption>)
    requires multiset(s) == multiset(t)
    ensures TotalVotes(s) == TotalVotes(t)
    decreases |s|
  {
    if s == [] {
      assert |t| == |multiset(t)| == 0;
    } else {
      var x := s[|s| - 1];
      var s' := s[..|s| - 1];
      assert s == s' + [x];
      assert multiset(s') == multiset(s) - multiset{x};
      assert x in multiset(t);
      var k :| 0 <= k < |t| && t[k] == x;
      MultisetRemoveAt(t, k);
      TotalVotesPermutation(s', t[..k] + t[k + 1..]);
      TotalVotesRemove(t, k);
    }
  }

  /** A vote adds to the total exactly as many votes as there are options with that id. */
  lemma {:induction false} IncrementVotesTotal(options: seq<PollOption>, optionId: string)
    ensures TotalVotes(IncrementVotes(options, optionId)) == TotalVotes(options) + CountId(options, optionId)
    decreases |options|
  {
    if options != [] {
      var p := options[..|options| - 1];
      var r := IncrementVotes(options, optionId);
      assert r[..|r| - 1] == IncrementVotes(p, optionId);
      IncrementVotesTotal(p, optionId);
    }
  }

  /** With pairwise distinct ids, an id occurs once if present and never otherwise. */
  lemma {:induction false} CountIdUnique(options: seq<PollOption>, id: string)
    requires UniqueIds(options)
    ensures CountId(options, id) == if HasId(options, id) then 1 else 0
    decreases |options|
  {
    if options != [] {
      var n := |options| - 1;
      var p := options[..n];
      assert UniqueIds(p);
      CountIdUnique(p, id);
      if options[n].id == id {
        assert forall i :: 0 <= i < |p| ==> p[i].id != id by {
          forall i | 0 <= i < |p| ensures p[i].id != id {
            assert p[i] == options[i];
          }
        }
      } else {
        if HasId(options, id) {
          var i :| 0 <= i < |options| && options[i].id == id;
          assert i < n && p[i].id == id;
        }
      }
    }
  }

  /** The guarantee of a vote: with distinct ids, the total rises by exactly one
      when the id is present and is unchanged when it is absent. */
  lemma VoteAddsOne(options: seq<PollOption>, optionId: string)
    requires UniqueIds(options)
    ensures UniqueIds(IncrementVotes(options, optionId))
    ensures TotalVotes(IncrementVotes(options, optionId))
            == TotalVotes(options) + (if HasId(options, optionId) then 1 else 0)
  {
    IncrementVotesTotal(options, optionId);
    CountIdUnique(options, optionId);
  }

  /** After a reset every tally is zero, so the total is zero: a corollary of
      the zero-iff clause of `TotalVotes`. */
  lemma ZeroVotesTotal(options: seq<PollOption>)
    ensures TotalVotes(ZeroVotes(options)) == 0
  {
  }
}
