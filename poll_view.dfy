/** The single-poll view: it reloads this wallet's vote ledger from local
    storage, keeps the latest snapshot of the poll, commits a vote, and
    derives whether the poll has ended and how much time is left. */
module Voting {
  import opened Common
  import opened Polls

  // ---------------------------------------------------------------------------
  // The vote ledger in local storage

  /** `votedPolls_${address}` */
  function LedgerKey(address: string): (k: string)
    ensures StartsWith(k, "votedPolls_") && k[|"votedPolls_"|..] == address
  {
    "votedPolls_" + address
  }

  /** What the mount effect recognises as an earlier vote: the ledger of a
      truthy address holds a truthy value for this poll. A stored 0 is falsy
      and is not recognised. */
  function RecognisedChoice(items: map<string, map<string, int>>, address: Option<string>, pollId: string): Option<int> {
    if !Truthy(address) then None
    else
      var key := LedgerKey(address.value);
      if key in items && pollId in items[key] && items[key][pollId] != 0 then Some(items[key][pollId])
      else None
  }

  /** The ledger write after a successful vote: read the ledger (an empty one
      when the key is missing), set this poll's entry, store it back. */
  function RecordVote(items: map<string, map<string, int>>, address: string, pollId: string,
                      optionIndex: int): (r: map<string, map<string, int>>)
    ensures r.Keys == items.Keys + {LedgerKey(address)}
    ensures pollId in r[LedgerKey(address)] && r[LedgerKey(address)][pollId] == optionIndex
    ensures r[LedgerKey(address)].Keys
            == (if LedgerKey(address) in items then items[LedgerKey(address)].Keys else {}) + {pollId}
    ensures forall k :: k in items && k != LedgerKey(address) ==> r[k] == items[k]
    ensures forall p :: LedgerKey(address) in items && p in items[LedgerKey(address)] && p != pollId
              ==> p in r[LedgerKey(address)] && r[LedgerKey(address)][p] == items[LedgerKey(address)][p]
  {
    var key := LedgerKey(address);
    var ledger := if key in items then items[key] else map[];
    items[key := ledger[pollId := optionIndex]]
  }

  /** Recording a vote and loading the ledger again gives back the choice,
      except that a choice of the first option (index 0) is read as no vote
      at all: after a reload that wallet sees the voting buttons again. */
  lemma RecordThenReload(items: map<string, map<string, int>>, address: string, pollId: string, optionIndex: int)
    requires address != ""
    ensures RecognisedChoice(RecordVote(items, address, pollId, optionIndex), Some(address), pollId)
            == if optionIndex != 0 then Some(optionIndex) else None
  {
  }

  // ---------------------------------------------------------------------------
  // Time

  /** `endTime < new Date()`: strictly before now. */
  predicate IsEnded(endTime: int, now: int) {
    endTime < now
  }

  /** The vote buttons are shown instead of the results. */
  predicate ShowVoteButtons(hasVoted: bool, isEnded: bool) {
    !hasVoted && !isEnded
  }

  /** The parts `getTimeLeft` prints. */
  datatype TimeLeft =
    | PollEnded
    | DaysHours(days: nat, hours: nat)
    | HoursMinutes(hours: nat, minutes: nat)
    | MinutesOnly(minutes: nat)

  /** Whole hours times 60 plus the minutes of the hour started is the number
      of whole minutes. */
  lemma WholeMinutes(diff: nat)
    ensures (diff / MS_PER_HOUR) * 60 + (diff % MS_PER_HOUR) / MS_PER_MINUTE == diff / MS_PER_MINUTE
  {
    var h, r := diff / MS_PER_HOUR, diff % MS_PER_HOUR;
    var m, q := r / MS_PER_MINUTE, r % MS_PER_MINUTE;
    assert diff == MS_PER_HOUR * h + r;
    assert r == MS_PER_MINUTE * m + q;
    assert diff == MS_PER_MINUTE * (h * 60 + m) + q;
    assert diff / MS_PER_MINUTE == h * 60 + m;
  }

  /** At least one whole day is left exactly when the whole hours reach 24. */
  lemma WholeDays(diff: nat)
    ensures (diff / MS_PER_HOUR) / 24 == diff / MS_PER_DAY
  {
    var h, r := diff / MS_PER_HOUR, diff % MS_PER_HOUR;
    var d, s := h / 24, h % 24;
    assert diff == MS_PER_HOUR * h + r;
    assert h == 24 * d + s;
    assert diff == MS_PER_DAY * d + (MS_PER_HOUR * s + r);
    assert diff / MS_PER_DAY == d;
  }

  /** The branch `getTimeLeft` takes, with floor division on milliseconds.
      The parts are the remaining time broken into whole units: days and
      hours of the day, or hours and minutes of the hour, or minutes. */
  function TimeLeftOf(diff: int): (t: TimeLeft)
    ensures t.PollEnded? <==> diff <= 0
    ensures t.DaysHours? <==> diff >= MS_PER_DAY
    ensures t.HoursMinutes? <==> MS_PER_HOUR <= diff < MS_PER_DAY
    ensures t.MinutesOnly? <==> 0 < diff < MS_PER_HOUR
    ensures t.DaysHours? ==> t.days >= 1 && t.days == diff / MS_PER_DAY && t.hours < 24
                             && t.days * 24 + t.hours == diff / MS_PER_HOUR
    ensures t.HoursMinutes? ==> 1 <= t.hours < 24 && t.minutes < 60
                                && t.hours * 60 + t.minutes == diff / MS_PER_MINUTE
    ensures t.MinutesOnly? ==> t.minutes < 60 && t.minutes == diff / MS_PER_MINUTE
  {
    if diff <= 0 then PollEnded
    else
      var hours := diff / MS_PER_HOUR;
      var days := hours / 24;
      var minutes := (diff % MS_PER_HOUR) / MS_PER_MINUTE;
      WholeMinutes(diff);
      WholeDays(diff);
      if days > 0 then DaysHours(days, hours % 24)
      else if hours > 0 then HoursMinutes(hours, minutes)
      else MinutesOnly(minutes)
  }

  function Render(t: TimeLeft): string {
    match t
    case PollEnded => "Poll ended"
    case DaysHours(d, h) => NatToDecimal(d) + "d " + NatToDecimal(h) + "h left"
    case HoursMinutes(h, m) => NatToDecimal(h) + "h " + NatToDecimal(m) + "m left"
    case MinutesOnly(m) => NatToDecimal(m) + "m left"
  }

  /** `getTimeLeft(endTime)` at time `now`. */
  function GetTimeLeft(endTime: int, now: int): string {
    Render(TimeLeftOf(endTime - now))
  }

  /** The label reads "Poll ended" exactly when no time is left; otherwise it
      ends in "left". */
  lemma GetTimeLeftEndedIff(endTime: int, now: int)
    ensures GetTimeLeft(endTime, now) == "Poll ended" <==> endTime - now <= 0
    ensures endTime - now > 0 ==> var s := GetTimeLeft(endTime, now);
                                  |s| >= 4 && s[|s| - 4..] == "left"
  {
    var s := GetTimeLeft(endTime, now);
    if endTime - now > 0 {
      assert s[|s| - 4..] == "left";
      assert s != "Poll ended" by {
        assert s[|s| - 1] == 't';
      }
    }
  }

  /** The two end tests disagree at the boundary: when the end time is exactly
      now, the view does not count the poll as ended and still offers the
      vote buttons, while its own time label already says "Poll ended". */
  lemma EndBoundaryDisagreement(t: int)
    ensures !IsEnded(t, t) && ShowVoteButtons(false, IsEnded(t, t))
    ensures GetTimeLeft(t, t) == "Poll ended"
    ensures forall now :: now > t ==> IsEnded(t, now) && GetTimeLeft(t, now) == "Poll ended"
  {
  }

  // ---------------------------------------------------------------------------
  // Committing a vote

  datatype VoteOutcome = NotConnected | Ignored | Failed | Recorded

  /** The local poll after `updatedOptions[optionIndex].votes = ...`: the
      array is copied but the option objects are not, so the option in the
      view's own snapshot is incremented too, before the write and whatever
      its outcome. An index with no option throws before any change. */
  function LocalAfterVote(poll: Option<Poll>, optionIndex: int): Option<Poll> {
    if poll.Some? && 0 <= optionIndex < |poll.value.options|
    then Some(poll.value.(options := IncrementAt(poll.value.options, optionIndex)))
    else poll
  }

  /** `updateDoc` succeeds: the snapshot and the option exist, the document
      exists, and the backend accepts the write. */
  predicate WriteSucceeds(poll: Option<Poll>, optionIndex: int, pollId: string,
                          docs: map<string, Poll>, backendAccepts: bool) {
    poll.Some? && 0 <= optionIndex < |poll.value.options| && pollId in docs && backendAccepts
  }

  /** The stored document after `updateDoc(pollRef, { options: updatedOptions,
      totalVotes: increment(1) })`: the options array is replaced by the view's
      incremented copy, the counter is incremented on the stored value. */
  function AppliedVote(stored: Poll, localOptions: seq<PollOption>, optionIndex: nat): Poll
    requires optionIndex < |localOptions|
  {
    stored.(options := IncrementAt(localOptions, optionIndex), totalVotes := stored.totalVotes + 1)
  }

  /** A vote written from an up-to-date snapshot adds one vote to the chosen
      option, leaves the other options alone, adds one to the counter, and
      keeps the counter equal to the sum of the option counts. */
  lemma VoteKeepsCountsConsistent(stored: Poll, optionIndex: nat)
    requires Consistent(stored) && optionIndex < |stored.options|
    ensures var after := AppliedVote(stored, stored.options, optionIndex);
            && Consistent(after)
            && after.totalVotes == stored.totalVotes + 1
            && |after.options| == |stored.options|
            && VotesOf(after.options[optionIndex]) == VotesOf(stored.options[optionIndex]) + 1
            && (forall j :: 0 <= j < |stored.options| && j != optionIndex ==> after.options[j] == stored.options[j])
  {
    SumVotesIncrement(stored.options, optionIndex);
  }

  /** `poll.options?.reduce((sum, opt) => sum + (opt.votes || 0), 0) || 0`:
      the total the view shows is the sum of the option counts, not the
      stored counter. */
  function DisplayedTotal(p: Poll): (n: nat)
    ensures n == 0 <==> forall i :: 0 <= i < |p.options| ==> VotesOf(p.options[i]) == 0
  {
    SumVotesZeroIff(p.options);
    SumVotes(p.options)
  }

  /** After a failed vote the view keeps its locally incremented snapshot, so
      it shows one vote more than the stored counter holds. */
  lemma FailedVoteShowsOneMore(p: Poll, optionIndex: nat)
    requires Consistent(p) && optionIndex < |p.options|
    ensures var shown := LocalAfterVote(Some(p), optionIndex).value;
            && shown.totalVotes == p.totalVotes
            && DisplayedTotal(shown) == p.totalVotes + 1
  {
    SumVotesIncrement(p.options, optionIndex);
  }

  /** A retry after a failed write, with no snapshot in between, writes back
      options that already carry the failed attempt's increment: the chosen
      option gains two votes, the counter one, and the document's counter no
      longer equals its option sum. */
  lemma RetryAfterFailedWriteDoubleCounts(stored: Poll, optionIndex: nat)
    requires Consistent(stored) && optionIndex < |stored.options|
    ensures var local := LocalAfterVote(Some(stored), optionIndex).value;
            var after := AppliedVote(stored, local.options, optionIndex);
            && VotesOf(after.options[optionIndex]) == VotesOf(stored.options[optionIndex]) + 2
            && after.totalVotes == stored.totalVotes + 1
            && SumVotes(after.options) == after.totalVotes + 1
            && !Consistent(after)
  {
    var once := IncrementAt(stored.options, optionIndex);
    SumVotesIncrement(stored.options, optionIndex);
    SumVotesIncrement(once, optionIndex);
  }

  /** The view's snapshot is the stored document's current options. */
  predicate SnapshotIsCurrent(poll: Option<Poll>, pollId: string, docs: map<string, Poll>) {
    poll.Some? && pollId in docs && docs[pollId].options == poll.value.options
  }

  class PollView {
    const pollId: string
    var poll: Option<Poll>
    var loading: bool
    var voting: bool
    var hasVoted: bool
    var selectedOption: Option<int>

    constructor (pollId: string)
      ensures this.pollId == pollId && poll == None && loading
      ensures !voting && !hasVoted && selectedOption == None
    {
      this.pollId := pollId;
      poll, loading := None, true;
      voting, hasVoted, selectedOption := false, false, None;
    }

    /** The ledger part of the mount effect. It only ever sets `hasVoted`;
        when nothing is recognised the state is left as it was. */
    method LoadLedger(address: Option<string>, storage: LocalStorage)
      modifies this`hasVoted, this`selectedOption
      ensures RecognisedChoice(storage.items, address, pollId).Some?
              ==> hasVoted && selectedOption == RecognisedChoice(storage.items, address, pollId)
      ensures RecognisedChoice(storage.items, address, pollId).None?
              ==> hasVoted == old(hasVoted) && selectedOption == old(selectedOption)
    {
      if Truthy(address) {
        var key := LedgerKey(address.value);
        var ledger := if key in storage.items then storage.items[key] else map[];
        if pollId in ledger && ledger[pollId] != 0 {
          hasVoted := true;
          selectedOption := Some(ledger[pollId]);
        }
      }
    }

    /** A snapshot arrives: an existing document replaces the view's copy,
        a missing one leaves it; loading ends either way. */
    method OnSnapshot(doc: Option<Poll>)
      modifies this`poll, this`loading
      ensures poll == (if doc.Some? then doc else old(poll)) && !loading
    {
      if doc.Some? {
        poll := doc;
      }
      loading := false;
    }

    /** The subscription reports an error: loading ends, nothing else changes. */
    method OnSnapshotError()
      modifies this`loading
      ensures !loading
    {
      loading := false;
    }

    /** `handleVote(optionIndex)`. `backendAccepts` says whether the backend
        takes the write. The end time is not consulted here: the buttons are
        simply not shown once `IsEnded` holds. */
    method HandleVote(optionIndex: int, isConnected: bool, address: Option<string>,
                      store: PollStore, storage: LocalStorage, backendAccepts: bool)
      returns (outcome: VoteOutcome)
      modifies this`poll, this`voting, this`hasVoted, this`selectedOption, store, storage
      ensures outcome == NotConnected <==> (!isConnected || !Truthy(address))
      ensures outcome == Ignored <==> (isConnected && Truthy(address) && (old(hasVoted) || old(voting)))
      ensures (outcome == NotConnected || outcome == Ignored) ==>
                && poll == old(poll) && voting == old(voting)
                && hasVoted == old(hasVoted) && selectedOption == old(selectedOption)
                && store.docs == old(store.docs) && storage.items == old(storage.items)
      ensures (outcome == Failed || outcome == Recorded) ==>
                && !voting && poll == LocalAfterVote(old(poll), optionIndex)
                && (outcome == Recorded <==> WriteSucceeds(old(poll), optionIndex, pollId, old(store.docs), backendAccepts))
      ensures outcome == Recorded ==>
                && store.docs == old(store.docs)[pollId :=
                     AppliedVote(old(store.docs)[pollId], old(poll).value.options, optionIndex)]
                && storage.items == RecordVote(old(storage.items), address.value, pollId, optionIndex)
                && hasVoted && selectedOption == Some(optionIndex)
      ensures outcome == Failed ==>
                && store.docs == old(store.docs) && storage.items == old(storage.items)
                && hasVoted == old(hasVoted) && selectedOption == old(selectedOption)
      ensures old(store.AllConsistent()) && SnapshotIsCurrent(old(poll), pollId, old(store.docs))
              ==> store.AllConsistent()
    {
      if !isConnected || !Truthy(address) {
        return NotConnected;
      }
      if hasVoted || voting {
        return Ignored;
      }
      voting := true;
      if poll.Some? && 0 <= optionIndex < |poll.value.options| {
        var local := poll.value.options;
        poll := LocalAfterVote(poll, optionIndex);
        if pollId in store.docs && backendAccepts {
          var stored := store.docs[pollId];
          if stored.options == local && Consistent(stored) {
            VoteKeepsCountsConsistent(stored, optionIndex);
          }
          store.docs := store.docs[pollId := AppliedVote(stored, local, optionIndex)];
          storage.items := RecordVote(storage.items, address.value, pollId, optionIndex);
          hasVoted := true;
          selectedOption := Some(optionIndex);
          outcome := Recorded;
        } else {
          outcome := Failed;
        }
      } else {
        outcome := Failed;
      }
      voting := false;
    }
  }

  /** A vote whose write fails, retried on the same view before any new
      snapshot arrives: the retry is recorded, the chosen option has gained
      two votes in the store, the counter one, and the stored document is no
      longer consistent. */
  method RetryAfterFailedVote(view: PollView, store: PollStore, storage: LocalStorage,
                              address: string, optionIndex: nat)
    returns (first: VoteOutcome, second: VoteOutcome)
    requires view.poll.Some? && view.pollId in store.docs && store.docs[view.pollId] == view.poll.value
    requires Consistent(view.poll.value) && optionIndex < |view.poll.value.options|
    requires !view.hasVoted && !view.voting && address != ""
    modifies view, store, storage
    ensures first == Failed && second == Recorded
    ensures view.pollId in store.docs && optionIndex < |store.docs[view.pollId].options|
    ensures VotesOf(store.docs[view.pollId].options[optionIndex])
            == VotesOf(old(view.poll.value.options[optionIndex])) + 2
    ensures store.docs[view.pollId].totalVotes == old(view.poll.value.totalVotes) + 1
    ensures !Consistent(store.docs[view.pollId])
  {
    ghost var before := view.poll.value;
    first := view.HandleVote(optionIndex, true, Some(address), store, storage, false);
    second := view.HandleVote(optionIndex, true, Some(address), store, storage, true);
    RetryAfterFailedWriteDoubleCounts(before, optionIndex);
  }
}
