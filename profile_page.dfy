/** The profile page: the viewer's name and short address, and three
    lifetime totals computed from the poll collection and the browser's
    vote ledgers. A disconnected visitor is sent back to the home page. */
module ProfileStats {
  import opened Common
  import opened Polls
  import opened Identity
  import Voting

  datatype Stats = Stats(votesCast: nat, usdEarned: nat, pollsCreated: nat)

  /** `where("creatorAddress", "==", address)` followed by `.size`. */
  function PollsCreatedBy(docs: map<string, Poll>, address: string): nat {
    |set id | id in docs && docs[id].creatorAddress == address|
  }

  /** The storage keys that start with `votedPolls_<address>`, counted. */
  function VotesCast(keys: set<string>, address: string): nat {
    |set k | k in keys && StartsWith(k, Voting.LedgerKey(address))|
  }

  /** The totals the page sets after a successful fetch; earnings are a
      fixed 0. */
  function StatsFor(docs: map<string, Poll>, keys: set<string>, address: string): (s: Stats)
    ensures s.pollsCreated == PollsCreatedBy(docs, address)
    ensures s.votesCast == VotesCast(keys, address)
    ensures s.usdEarned == 0
    ensures s.pollsCreated <= |docs| && s.votesCast <= |keys|
  {
    CountBounds(docs, keys, address);
    Stats(VotesCast(keys, address), 0, PollsCreatedBy(docs, address))
  }

  lemma CountBounds(docs: map<string, Poll>, keys: set<string>, address: string)
    ensures PollsCreatedBy(docs, address) <= |docs|
    ensures VotesCast(keys, address) <= |keys|
  {
    var created := set id | id in docs && docs[id].creatorAddress == address;
    assert created <= docs.Keys;
    assert |docs.Keys| == |docs|;
    SubsetCard(created, docs.Keys);
    var voted := set k | k in keys && StartsWith(k, Voting.LedgerKey(address));
    SubsetCard(voted, keys);
  }

  lemma {:induction false} SubsetCard(a: set<string>, b: set<string>)
    requires a <= b
    ensures |a| <= |b|
  {
    if a != {} {
      var x :| x in a;
      SubsetCard(a - {x}, b - {x});
    }
  }

  /** Storing a new poll document raises its creator's count by one and no
      one else's. */
  lemma CreatingAPollCounts(docs: map<string, Poll>, newId: string, p: Poll, address: string)
    requires newId !in docs
    ensures PollsCreatedBy(docs[newId := p], address)
            == PollsCreatedBy(docs, address) + (if p.creatorAddress == address then 1 else 0)
  {
    var before := set id | id in docs && docs[id].creatorAddress == address;
    var docs' := docs[newId := p];
    var after := set id | id in docs' && docs'[id].creatorAddress == address;
    if p.creatorAddress == address {
      assert after == before + {newId};
    } else {
      assert after == before;
    }
  }

  /** The vote count counts ledger KEYS, not ledger entries: with only the
      viewer's own ledger under that prefix, it is 1 however many polls the
      ledger records, and 0 without it. */
  lemma VotesCastCountsKeys(items: map<string, map<string, int>>, address: string)
    requires forall k :: k in items && StartsWith(k, Voting.LedgerKey(address)) ==> k == Voting.LedgerKey(address)
    ensures VotesCast(items.Keys, address) == if Voting.LedgerKey(address) in items then 1 else 0
  {
    var key := Voting.LedgerKey(address);
    var voted := set k | k in items.Keys && StartsWith(k, key);
    if key in items {
      assert voted == {key};
    } else {
      assert voted == {};
    }
  }

  /** Voting in a second poll leaves the count where the first vote put it. */
  lemma SecondVoteDoesNotCount(items: map<string, map<string, int>>, address: string,
                               firstPoll: string, secondPoll: string, first: int, second: int)
    requires forall k :: k in items ==> !StartsWith(k, Voting.LedgerKey(address))
    ensures var once := Voting.RecordVote(items, address, firstPoll, first);
            var twice := Voting.RecordVote(once, address, secondPoll, second);
            VotesCast(once.Keys, address) == 1 && VotesCast(twice.Keys, address) == 1
  {
    var key := Voting.LedgerKey(address);
    var once := Voting.RecordVote(items, address, firstPoll, first);
    var twice := Voting.RecordVote(once, address, secondPoll, second);
    assert StartsWith(key, key);
    VotesCastCountsKeys(once, address);
    VotesCastCountsKeys(twice, address);
  }

  class ProfilePage {
    var user: Option<Profile>
    var stats: Stats
    var loading: bool

    constructor ()
      ensures user == None && stats == Stats(0, 0, 0) && loading
    {
      user, stats, loading := None, Stats(0, 0, 0), true;
    }

    /** The `initSDK` effect: the user is taken only from a context that has one. */
    method InitSdk(h: Handshake)
      modifies this`user
      ensures user == (if h.Resolved? && h.contextUser.Some? then h.contextUser else old(user))
    {
      if h.Resolved? && h.contextUser.Some? {
        user := h.contextUser;
      }
    }

    /** The stats effect. Returns whether the page redirects home: then it
        computes nothing and stays loading. Otherwise loading ends, and the
        totals are set when the fetch succeeds (`fetchOk`) and kept when it
        throws. */
    method LoadStats(isConnected: bool, address: Option<string>, store: PollStore,
                     storage: LocalStorage, fetchOk: bool) returns (redirect: bool)
      modifies this`stats, this`loading
      ensures redirect <==> !isConnected || !Truthy(address)
      ensures redirect ==> stats == old(stats) && loading == old(loading)
      ensures !redirect ==> !loading
      ensures !redirect ==> stats == (if fetchOk then StatsFor(store.docs, storage.items.Keys, address.value) else old(stats))
    {
      if !isConnected || !Truthy(address) {
        return true;
      }
      if fetchOk {
        var pollsCreated := PollsCreatedBy(store.docs, address.value);
        var votesCast := VotesCast(storage.items.Keys, address.value);
        stats := Stats(votesCast, 0, pollsCreated);
      }
      loading := false;
      return false;
    }

    /** The header the page shows: the name and the shortened address. */
    function Header(address: Option<string>): (r: (string, string))
      reads this
      ensures r.0 == DisplayName(user) && r.0 != ""
      ensures r.1 == ShortAddress(address)
    {
      (DisplayName(user), ShortAddress(address))
    }
  }
}
