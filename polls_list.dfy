/** The home page's list of active polls. It waits for the authentication
    listener; each time that reports a user it runs the active-poll query,
    and it stops showing the loading skeleton whatever happens. */
module ActiveList {
  import opened Polls
  import opened Catalog

  /** The skeleton shows three placeholder cards. */
  const PLACEHOLDERS: nat := 3

  class PollsList {
    var polls: seq<Listed>
    var loading: bool

    constructor ()
      ensures polls == [] && loading
    {
      polls, loading := [], true;
    }

    /** One call of the `onAuthStateChanged` listener. `collection` is the
        poll collection as the query sees it at `now`; `queryOk` is false when
        the fetch throws. Without a user, or when the fetch fails, the polls
        already shown stay; either way loading ends. */
    method OnAuthStateChanged(authenticated: bool, collection: seq<Listed>, now: int, queryOk: bool)
      modifies this`polls, this`loading
      ensures !loading
      ensures polls == (if authenticated && queryOk then ActivePolls(collection, now) else old(polls))
    {
      if authenticated {
        if queryOk {
          polls := ActivePolls(collection, now);
        }
        loading := false;
      } else {
        loading := false;
      }
    }
  }

  /** After the listener has reported a user and the fetch succeeded, the
      list shows at most six cards, all for polls still open at `now`,
      latest end time first, and the "no active polls" message exactly when
      no poll is open. */
  lemma ListedPollsAreOpen(collection: seq<Listed>, now: int)
    ensures var polls := ActivePolls(collection, now);
            && |polls| <= ACTIVE_LIMIT
            && (forall i :: 0 <= i < |polls| ==> polls[i].poll.endTime > now)
            && SortedDesc(polls)
            && (Screen(PLACEHOLDERS, false, polls) == NoPolls <==> forall d :: d in collection ==> d.poll.endTime <= now)
  {
    QueryIsLatestMatches(collection, Active, now, ACTIVE_LIMIT);
    QueryEmptyIff(collection, Active, now, ACTIVE_LIMIT);
  }
}
