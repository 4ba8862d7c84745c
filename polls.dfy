/** The poll record as the app stores it, the vote counting that several
    components share, and the two stores the components write to: the poll
    collection (id to record) and the browser's local storage (key to a vote
    ledger, which maps a poll id to the index of the option chosen). */
module Polls {
  import opened Common

  const MS_PER_MINUTE: nat := 60000
  const MS_PER_HOUR: nat := 3600000
  const MS_PER_DAY: nat := 86400000

  /** One answer of a poll. `votes` may be missing from a stored record;
      every reader treats a missing count as 0 (`votes || 0`). */
  datatype PollOption = PollOption(text: string, votes: Option<nat>)

  /** A poll document. Times are integer milliseconds. `createdAt` is a
      server timestamp that nothing in the model reads, so it is not kept. */
  datatype Poll = Poll(
    question: string,
    category: Option<string>,
    options: seq<PollOption>,
    endTime: int,
    totalVotes: nat,
    creatorAddress: string,
    creatorUsername: Option<string>,
    voters: seq<string>)

  /** A document as a collection query returns it: its fields plus its id. */
  datatype Listed = Listed(id: string, poll: Poll)

  /** `opt.votes || 0` */
  function VotesOf(o: PollOption): nat {
    match o.votes
    case Some(v) => v
    case None => 0
  }

  /** `options.reduce((sum, opt) => sum + (opt.votes || 0), 0)`: a left fold. */
  function SumVotes(opts: seq<PollOption>): nat {
    if opts == [] then 0 else SumVotes(opts[..|opts| - 1]) + VotesOf(opts[|opts| - 1])
  }

  /** The stored counter agrees with the per-option counts. */
  predicate Consistent(p: Poll) {
    p.totalVotes == SumVotes(p.options)
  }

  /** `poll.category || "General"` */
  function CategoryLabel(p: Poll): (r: string)
    ensures r != ""
    ensures Truthy(p.category) ==> r == p.category.value
    ensures !Truthy(p.category) ==> r == "General"
  {
    OrElse(p.category, "General")
  }

  /** `poll.creatorUsername || "anonymous"` */
  function CreatorLabel(p: Poll): (r: string)
    ensures r != ""
    ensures Truthy(p.creatorUsername) ==> r == p.creatorUsername.value
    ensures !Truthy(p.creatorUsername) ==> r == "anonymous"
  {
    OrElse(p.creatorUsername, "anonymous")
  }

  /** The sum over a concatenation is the sum of the sums. */
  lemma {:induction false} SumVotesAppend(a: seq<PollOption>, b: seq<PollOption>)
    ensures SumVotes(a + b) == SumVotes(a) + SumVotes(b)
    decreases |b|
  {
    if b != [] {
      assert (a + b)[..|a + b| - 1] == a + b[..|b| - 1];
      SumVotesAppend(a, b[..|b| - 1]);
    } else {
      assert a + b == a;
    }
  }

  /** The sum is zero exactly when every option has no votes. */
  lemma {:induction false} SumVotesZeroIff(opts: seq<PollOption>)
    ensures SumVotes(opts) == 0 <==> forall i :: 0 <= i < |opts| ==> VotesOf(opts[i]) == 0
  {
    if opts != [] {
      var init := opts[..|opts| - 1];
      SumVotesZeroIff(init);
      assert forall i :: 0 <= i < |init| ==> init[i] == opts[i];
    }
  }

  /** No single option has more votes than the sum. */
  lemma {:induction false} SumVotesBounds(opts: seq<PollOption>, i: nat)
    requires i < |opts|
    ensures VotesOf(opts[i]) <= SumVotes(opts)
  {
    if i < |opts| - 1 {
      SumVotesBounds(opts[..|opts| - 1], i);
    }
  }

  /** The vote the poll view writes: option `i` gets `(votes || 0) + 1`. */
  function IncrementAt(opts: seq<PollOption>, i: nat): (r: seq<PollOption>)
    requires i < |opts|
    ensures |r| == |opts|
    ensures r[i].text == opts[i].text && VotesOf(r[i]) == VotesOf(opts[i]) + 1
    ensures forall j :: 0 <= j < |opts| && j != i ==> r[j] == opts[j]
  {
    opts[i := opts[i].(votes := Some(VotesOf(opts[i]) + 1))]
  }

  /** One increment adds exactly one to the sum. */
  lemma {:induction false} SumVotesIncrement(opts: seq<PollOption>, i: nat)
    requires i < |opts|
    ensures SumVotes(IncrementAt(opts, i)) == SumVotes(opts) + 1
  {
    var r := IncrementAt(opts, i);
    assert opts == opts[..i] + [opts[i]] + opts[i + 1..];
    assert r == opts[..i] + [r[i]] + opts[i + 1..];
    SumVotesAppend(opts[..i] + [opts[i]], opts[i + 1..]);
    SumVotesAppend(opts[..i], [opts[i]]);
    SumVotesAppend(opts[..i] + [r[i]], opts[i + 1..]);
    SumVotesAppend(opts[..i], [r[i]]);
    assert SumVotes([opts[i]]) == VotesOf(opts[i]) by {
      assert [opts[i]][..0] == [];
    }
    assert SumVotes([r[i]]) == VotesOf(r[i]) by {
      assert [r[i]][..0] == [];
    }
  }

  /** The poll collection: document id to poll record. */
  class PollStore {
    var docs: map<string, Poll>

    constructor (docs: map<string, Poll>)
      ensures this.docs == docs
    {
      this.docs := docs;
    }

    /** Every stored poll's counter agrees with its option counts. */
    ghost predicate AllConsistent()
      reads this
    {
      forall id :: id in docs ==> Consistent(docs[id])
    }
  }

  /** `localStorage`, restricted to the vote ledgers the app keeps in it:
      key to (poll id to chosen option index). */
  class LocalStorage {
    var items: map<string, map<string, int>>

    constructor (items: map<string, map<string, int>>)
      ensures this.items == items
    {
      this.items := items;
    }
  }
}
