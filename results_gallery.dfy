/** The results page's gallery of ended polls: one ended-poll query when it
    mounts; it stops showing the loading skeleton whatever happens. */
module Gallery {
  import opened Polls
  import opened Catalog

  /** The skeleton shows six placeholder cards. */
  const PLACEHOLDERS: nat := 6

  class ResultsGallery {
    var polls: seq<Listed>
    var loading: bool

    constructor ()
      ensures polls == [] && loading
    {
      polls, loading := [], true;
    }

    /** The mount effect: `collection` is the poll collection as the query
        sees it at `now`; `queryOk` is false when the fetch throws, and then
        the gallery stays empty. */
    method Mount(collection: seq<Listed>, now: int, queryOk: bool)
      modifies this`polls, this`loading
      ensures !loading
      ensures polls == (if queryOk then EndedPolls(collection, now) else old(polls))
    {
      if queryOk {
        polls := EndedPolls(collection, now);
      }
      loading := false;
    }
  }

  /** The gallery shows at most twelve polls, all ended at `now`, latest
      end time first, and never a poll the active list shows at the same
      `now`; it shows the "no completed polls" message exactly when no poll
      has ended. */
  lemma GalleryPollsAreEnded(collection: seq<Listed>, now: int)
    ensures var polls := EndedPolls(collection, now);
            && |polls| <= ENDED_LIMIT
            && (forall i :: 0 <= i < |polls| ==> polls[i].poll.endTime <= now)
            && SortedDesc(polls)
            && (forall d :: d in polls ==> d !in ActivePolls(collection, now))
            && (Screen(PLACEHOLDERS, false, polls) == NoPolls <==> forall d :: d in collection ==> d.poll.endTime > now)
  {
    QueryEmptyIff(collection, Ended, now, ENDED_LIMIT);
    QueryIsLatestMatches(collection, Ended, now, ENDED_LIMIT);
    CatalogsDisjoint(collection, now);
  }
}
