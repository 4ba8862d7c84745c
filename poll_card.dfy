/** The summary card shown for each poll in the catalogs: category, a preview
    of the first options, the vote total, the creator and a coarse time-left
    label. */
module Card {
  import opened Common
  import opened Polls
  import Voting

  const PREVIEW_COUNT: nat := 3

  /** `poll.options.slice(0, 3)` */
  function Preview(opts: seq<PollOption>): (r: seq<PollOption>)
    ensures |r| <= PREVIEW_COUNT && |r| <= |opts|
    ensures |opts| >= PREVIEW_COUNT ==> |r| == PREVIEW_COUNT
    ensures |opts| < PREVIEW_COUNT ==> r == opts
    ensures forall i :: 0 <= i < |r| ==> r[i] == opts[i]
  {
    if |opts| <= PREVIEW_COUNT then opts else opts[..PREVIEW_COUNT]
  }

  /** The branches of the card's `getTimeLeft`. */
  datatype CoarseTimeLeft = Ended | DaysLeft(days: nat) | HoursLeft(hours: nat) | EndingSoon

  /** Whole days when at least one is left, else whole hours when at least
      one is left, else "soon"; floor division on milliseconds. */
  function CoarseTimeLeftOf(diff: int): (t: CoarseTimeLeft)
    ensures t.Ended? <==> diff <= 0
    ensures t.DaysLeft? <==> diff >= MS_PER_DAY
    ensures t.HoursLeft? <==> MS_PER_HOUR <= diff < MS_PER_DAY
    ensures t.EndingSoon? <==> 0 < diff < MS_PER_HOUR
    ensures t.DaysLeft? ==> t.days >= 1 && t.days == diff / MS_PER_DAY
    ensures t.HoursLeft? ==> 1 <= t.hours < 24 && t.hours == diff / MS_PER_HOUR
  {
    if diff <= 0 then Ended
    else
      var hours := diff / MS_PER_HOUR;
      var days := hours / 24;
      Voting.WholeDays(diff);
      if days > 0 then DaysLeft(days)
      else if hours > 0 then HoursLeft(hours)
      else EndingSoon
  }

  function RenderCoarse(t: CoarseTimeLeft): string {
    match t
    case Ended => "Ended"
    case DaysLeft(d) => NatToDecimal(d) + "d left"
    case HoursLeft(h) => NatToDecimal(h) + "h left"
    case EndingSoon => "Ending soon"
  }

  /** The card's `getTimeLeft(poll.endTime)` at time `now`. */
  function CardTimeLeft(endTime: int, now: int): string {
    RenderCoarse(CoarseTimeLeftOf(endTime - now))
  }

  /** The card reads "Ended" exactly when no time is left. */
  lemma CardTimeLeftEndedIff(endTime: int, now: int)
    ensures CardTimeLeft(endTime, now) == "Ended" <==> endTime - now <= 0
  {
    var s := CardTimeLeft(endTime, now);
    if endTime - now > 0 && !CoarseTimeLeftOf(endTime - now).EndingSoon? {
      assert s[|s| - 1] == 't';
    }
  }

  /** The card's coarse label and the poll view's detailed one describe the
      same remaining time: both say ended at the same moments, the card's
      days are the view's days, the card's hours are the view's hours, and
      "Ending soon" is exactly when the view counts minutes only. */
  lemma CardAgreesWithView(diff: int)
    ensures var c, v := CoarseTimeLeftOf(diff), Voting.TimeLeftOf(diff);
            && (c.Ended? <==> v.PollEnded?)
            && (c.DaysLeft? <==> v.DaysHours?)
            && (c.DaysLeft? ==> c.days == v.days)
            && (c.HoursLeft? <==> v.HoursMinutes?)
            && (c.HoursLeft? ==> c.hours == v.hours)
            && (c.EndingSoon? <==> v.MinutesOnly?)
  {
    var c, v := CoarseTimeLeftOf(diff), Voting.TimeLeftOf(diff);
    if c.HoursLeft? {
      assert v.hours * 60 + v.minutes == diff / MS_PER_MINUTE;
      Voting.WholeMinutes(diff);
    }
  }

  /** What one card shows. */
  datatype CardView = CardView(
    category: string,
    preview: seq<PollOption>,
    totalVotes: nat,
    timeLeft: string,
    creator: string)

  function CardOf(poll: Poll, now: int): (c: CardView)
    ensures c.category == CategoryLabel(poll) && c.creator == CreatorLabel(poll)
    ensures c.preview == Preview(poll.options)
    ensures c.totalVotes == SumVotes(poll.options)
    ensures c.timeLeft == CardTimeLeft(poll.endTime, now)
  {
    CardView(CategoryLabel(poll), Preview(poll.options), SumVotes(poll.options),
             CardTimeLeft(poll.endTime, now), CreatorLabel(poll))
  }

  /** The card's total counts every option, not only the previewed ones. */
  lemma CardTotalCoversPreview(poll: Poll, now: int)
    ensures var c := CardOf(poll, now);
            SumVotes(c.preview) <= c.totalVotes
            && (|poll.options| <= PREVIEW_COUNT ==> SumVotes(c.preview) == c.totalVotes)
  {
    var opts := poll.options;
    var k := |Preview(opts)|;
    assert opts == opts[..k] + opts[k..];
    assert Preview(opts) == opts[..k];
    SumVotesAppend(opts[..k], opts[k..]);
  }
}
