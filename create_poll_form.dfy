/** The poll-creation form: the form state (question, category, time limit and
    an editable list of 2 to 6 option texts), its validity test, and the poll
    record a submission writes to the poll collection. */
module CreateForm {
  import opened Common
  import opened Polls
  import opened Identity

  const CATEGORIES: seq<string> := ["Crypto", "Tech", "Culture", "Gaming", "DeFi", "NFTs", "General"]

  datatype TimeLimit = TimeLimit(caption: string, hours: nat)

  const TIME_LIMITS: seq<TimeLimit> := [
    TimeLimit("1 hour", 1),
    TimeLimit("6 hours", 6),
    TimeLimit("24 hours", 24),
    TimeLimit("3 days", 72),
    TimeLimit("7 days", 168)
  ]

  const MIN_OPTIONS: nat := 2
  const MAX_OPTIONS: nat := 6
  const DEFAULT_TIME_LIMIT: nat := 24
  const DEFAULT_CATEGORY: string := "General"

  /** `hours` is one of the offered time limits. */
  predicate IsOfferedHours(hours: int) {
    exists t :: t in TIME_LIMITS && t.hours == hours
  }

  /** The offered limits are exactly 1 hour, 6 hours, 1 day, 3 days and 7 days,
      and the default is one of them. */
  lemma OfferedHoursAre(hours: int)
    ensures IsOfferedHours(hours) <==> hours in {1, 6, 24, 72, 168}
    ensures IsOfferedHours(DEFAULT_TIME_LIMIT) && DEFAULT_CATEGORY in CATEGORIES
  {
    assert TIME_LIMITS[0].hours == 1 && TIME_LIMITS[1].hours == 6 && TIME_LIMITS[2].hours == 24;
    assert TIME_LIMITS[3].hours == 72 && TIME_LIMITS[4].hours == 168;
  }

  // ---------------------------------------------------------------------------
  // Editing the option list

  /** `formData.options.filter((_, i) => i !== index)`: drops the entry at
      `index` and keeps the others in order; an index that is not a position
      drops nothing. */
  function WithoutIndex(s: seq<string>, index: int): (r: seq<string>)
    ensures 0 <= index < |s| ==> r == s[..index] + s[index + 1..]
    ensures !(0 <= index < |s|) ==> r == s
  {
    if s == [] then []
    else
      var init := s[..|s| - 1];
      var r := WithoutIndex(init, index) + (if index == |s| - 1 then [] else [s[|s| - 1]]);
      assert 0 <= index < |s| - 1 ==> s[..index] == init[..index] && s[index + 1..] == init[index + 1..] + [s[|s| - 1]];
      assert s == init + [s[|s| - 1]];
      r
  }

  /** `addOption`: one more empty entry, unless there are already six. */
  function AfterAdd(opts: seq<string>): seq<string> {
    if |opts| < MAX_OPTIONS then opts + [""] else opts
  }

  /** `removeOption(index)`: drops entry `index`, unless only two remain. */
  function AfterRemove(opts: seq<string>, index: int): seq<string> {
    if |opts| > MIN_OPTIONS then WithoutIndex(opts, index) else opts
  }

  /** One user action on the option list. `Update` is only ever issued for
      the index of an input that is on screen. */
  datatype OptionEdit = Add | Remove(index: int) | Update(index: int, value: string)

  function ApplyEdit(opts: seq<string>, e: OptionEdit): seq<string> {
    match e
    case Add => AfterAdd(opts)
    case Remove(i) => AfterRemove(opts, i)
    case Update(i, v) => if 0 <= i < |opts| then opts[i := v] else opts
  }

  /** The option list after a session of edits, starting from the form's
      initial `["", ""]`. */
  function Replay(edits: seq<OptionEdit>): seq<string> {
    if edits == [] then ["", ""] else ApplyEdit(Replay(edits[..|edits| - 1]), edits[|edits| - 1])
  }

  /** Whatever the user does, the form holds between two and six options. */
  lemma {:induction false} EditsKeepOptionCount(edits: seq<OptionEdit>)
    ensures MIN_OPTIONS <= |Replay(edits)| <= MAX_OPTIONS
  {
    if edits != [] {
      EditsKeepOptionCount(edits[..|edits| - 1]);
    }
  }

  // ---------------------------------------------------------------------------
  // Validity and the record a submission writes

  /** `formData.options.filter((opt) => opt.trim())`: the entries with a
      non-whitespace character, untrimmed, in their original order. */
  function NonBlank(opts: seq<string>): (r: seq<string>)
    ensures |r| <= |opts|
    ensures forall i :: 0 <= i < |r| ==> HasContent(r[i])
  {
    if opts == [] then []
    else (if HasContent(opts[0]) then [opts[0]] else []) + NonBlank(opts[1..])
  }

  /** The filter keeps every occurrence of an entry with content and no
      occurrence of a blank one. */
  lemma {:induction false} NonBlankCounts(opts: seq<string>, s: string)
    ensures multiset(NonBlank(opts))[s] == if HasContent(s) then multiset(opts)[s] else 0
  {
    if opts != [] {
      NonBlankCounts(opts[1..], s);
      assert opts == [opts[0]] + opts[1..];
    }
  }

  /** Filtering a concatenation filters each part: the kept entries keep
      their relative order. */
  lemma {:induction false} NonBlankAppend(a: seq<string>, b: seq<string>)
    ensures NonBlank(a + b) == NonBlank(a) + NonBlank(b)
  {
    if a != [] {
      var head := if HasContent(a[0]) then [a[0]] else [];
      assert (a + b)[0] == a[0] && (a + b)[1..] == a[1..] + b;
      assert NonBlank(a + b) == head + NonBlank(a[1..] + b);
      NonBlankAppend(a[1..], b);
      assert NonBlank(a) == head + NonBlank(a[1..]);
    } else {
      assert a + b == b;
    }
  }

  /** `isValid`: the question has a non-whitespace character, at least two
      options do, and there are at most six options. */
  predicate IsValid(question: string, options: seq<string>) {
    HasContent(question) && |NonBlank(options)| >= MIN_OPTIONS && |options| <= MAX_OPTIONS
  }

  /** `farcasterUser?.username || farcasterUser?.displayName || "anonymous"`.
      Note the order: the username is preferred here, the display name in
      the wallet menu. */
  function CreatorUsername(user: Option<Profile>): (r: string)
    ensures r != ""
    ensures user.Some? && Truthy(user.value.username) ==> r == user.value.username.value
    ensures (user.Some? && !Truthy(user.value.username) && Truthy(user.value.displayName))
            ==> r == user.value.displayName.value
    ensures (user.None? || (!Truthy(user.value.username) && !Truthy(user.value.displayName)))
            ==> r == "anonymous"
  {
    match user
    case None => "anonymous"
    case Some(u) => OrElse(u.username, OrElse(u.displayName, "anonymous"))
  }

  /** A creator with both a username and a different display name is stored
      under the username but greeted in the menu by the display name. */
  lemma CreatorNameDiffersFromMenuName(u: Profile)
    requires Truthy(u.username) && Truthy(u.displayName) && u.username != u.displayName
    ensures CreatorUsername(Some(u)) != DisplayName(Some(u))
  {
  }

  /** `endTime.setHours(endTime.getHours() + hours)`, on millisecond time. */
  function EndTime(now: int, hours: nat): (r: int)
    ensures hours > 0 ==> r > now
    ensures (r - now) / MS_PER_HOUR == hours && (r - now) % MS_PER_HOUR == 0
  {
    now + hours * MS_PER_HOUR
  }

  /** `.map((text) => ({ text, votes: 0 }))` */
  function ZeroVoteOptions(texts: seq<string>): (r: seq<PollOption>)
    ensures |r| == |texts|
    ensures forall i :: 0 <= i < |r| ==> r[i].text == texts[i] && r[i].votes == Some(0)
    ensures SumVotes(r) == 0
  {
    var r := seq(|texts|, i requires 0 <= i < |texts| => PollOption(texts[i], Some(0)));
    SumVotesZeroIff(r);
    r
  }

  /** The `pollData` record `handleSubmit` adds to the collection. */
  function BuildPoll(question: string, category: string, timeLimit: nat, options: seq<string>,
                     now: int, address: string, user: Option<Profile>): (p: Poll)
    ensures p.question == question && p.category == Some(category)
    ensures |p.options| == |NonBlank(options)|
    ensures forall i :: 0 <= i < |p.options| ==>
              p.options[i].text == NonBlank(options)[i] && p.options[i].votes == Some(0)
    ensures p.totalVotes == 0 && Consistent(p)
    ensures p.endTime == EndTime(now, timeLimit)
    ensures p.creatorAddress == address && p.creatorUsername == Some(CreatorUsername(user))
    ensures p.voters == []
  {
    Poll(question, Some(category), ZeroVoteOptions(NonBlank(options)), EndTime(now, timeLimit),
         0, address, Some(CreatorUsername(user)), [])
  }

  /** A valid form with an offered time limit yields a poll that meets the
      data model: two to six options, none blank, counts consistent, and an
      end time in the future. */
  lemma ValidFormBuildsWellFormedPoll(question: string, category: string, timeLimit: nat,
                                                         options: seq<string>, now: int, address: string,
                                                         user: Option<Profile>)
    requires IsValid(question, options) && IsOfferedHours(timeLimit)
    ensures var p := BuildPoll(question, category, timeLimit, options, now, address, user);
            && MIN_OPTIONS <= |p.options| <= MAX_OPTIONS
            && HasContent(p.question)
            && (forall i :: 0 <= i < |p.options| ==> HasContent(p.options[i].text))
            && Consistent(p)
            && p.endTime > now
  {
    OfferedHoursAre(timeLimit);
  }

  // ---------------------------------------------------------------------------
  // The form component's state

  class CreatePollForm {
    var question: string
    var category: string
    var timeLimit: nat
    var options: seq<string>
    var loading: bool

    ghost predicate Valid()
      reads this
    {
      MIN_OPTIONS <= |options| <= MAX_OPTIONS && category in CATEGORIES && IsOfferedHours(timeLimit)
    }

    constructor ()
      ensures Valid()
      ensures question == "" && category == DEFAULT_CATEGORY && timeLimit == DEFAULT_TIME_LIMIT
      ensures options == ["", ""] && !loading
    {
      question, category, timeLimit := "", DEFAULT_CATEGORY, DEFAULT_TIME_LIMIT;
      options, loading := ["", ""], false;
      OfferedHoursAre(DEFAULT_TIME_LIMIT);
    }

    method AddOption()
      requires Valid()
      modifies this`options
      ensures Valid()
      ensures options == ApplyEdit(old(options), Add)
      ensures |old(options)| < MAX_OPTIONS ==> options == old(options) + [""]
      ensures |old(options)| == MAX_OPTIONS ==> options == old(options)
    {
      if |options| < MAX_OPTIONS {
        options := options + [""];
      }
    }

    method RemoveOption(index: int)
      requires Valid()
      modifies this`options
      ensures Valid()
      ensures options == ApplyEdit(old(options), Remove(index))
      ensures |old(options)| > MIN_OPTIONS && 0 <= index < |old(options)|
              ==> options == old(options)[..index] + old(options)[index + 1..]
      ensures |old(options)| == MIN_OPTIONS ==> options == old(options)
    {
      if |options| > MIN_OPTIONS {
        options := WithoutIndex(options, index);
      }
    }

    method UpdateOption(index: nat, value: string)
      requires Valid() && index < |options|
      modifies this`options
      ensures Valid()
      ensures options == ApplyEdit(old(options), Update(index, value))
      ensures |options| == |old(options)| && options[index] == value
      ensures forall j :: 0 <= j < |options| && j != index ==> options[j] == old(options)[j]
    {
      options := options[index := value];
    }

    method SetQuestion(value: string)
      modifies this`question
      ensures question == value
    {
      question := value;
    }

    method SetCategory(value: string)
      requires Valid() && value in CATEGORIES
      modifies this`category
      ensures Valid() && category == value
    {
      category := value;
    }

    method SetTimeLimit(hours: nat)
      requires Valid() && IsOfferedHours(hours)
      modifies this`timeLimit
      ensures Valid() && timeLimit == hours
    {
      timeLimit := hours;
    }

    /** `handleSubmit`. Without a connected wallet address it returns before
        anything else; otherwise it adds the built record under the id the
        collection assigns (`newId`), or adds nothing when the write fails,
        and ends with `loading` false. The form itself is not checked here:
        the submit button is disabled while `IsValid` is false. */
    method HandleSubmit(isConnected: bool, address: Option<string>, farcasterUser: Option<Profile>,
                        now: int, store: PollStore, newId: string, addSucceeds: bool)
      returns (created: Option<string>)
      requires newId !in store.docs
      modifies this`loading, store
      ensures (!isConnected || !Truthy(address)) ==> loading == old(loading)
      ensures (isConnected && Truthy(address)) ==> !loading
      ensures created.Some? <==> isConnected && Truthy(address) && addSucceeds
      ensures created.Some? ==> created == Some(newId) && store.docs == old(store.docs)[newId :=
                BuildPoll(question, category, timeLimit, options, now, address.value, farcasterUser)]
      ensures created.None? ==> store.docs == old(store.docs)
      ensures old(store.AllConsistent()) ==> store.AllConsistent()
    {
      if !isConnected || !Truthy(address) {
        return None;
      }
      loading := true;
      if addSucceeds {
        var p := BuildPoll(question, category, timeLimit, options, now, address.value, farcasterUser);
        store.docs := store.docs[newId := p];
        created := Some(newId);
      } else {
        created := None;
      }
      loading := false;
    }
  }
}
