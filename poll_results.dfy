/** The results panel of a poll: the vote total, the chart values, the
    leading option, and which rows are flagged as the winner and as the
    viewer's own choice. */
module Results {
  import opened Common
  import opened Polls

  /** One slice of the chart; the percentage is left out. */
  datatype ChartEntry = ChartEntry(name: string, value: nat)

  /** `poll.options.map((option) => ({ name: option.text, value: option.votes || 0, ... }))` */
  function ChartData(opts: seq<PollOption>): (r: seq<ChartEntry>)
    ensures |r| == |opts|
    ensures forall i :: 0 <= i < |r| ==> r[i].name == opts[i].text && r[i].value == VotesOf(opts[i])
  {
    if opts == [] then []
    else ChartData(opts[..|opts| - 1]) + [ChartEntry(opts[|opts| - 1].text, VotesOf(opts[|opts| - 1]))]
  }

  function ChartTotal(entries: seq<ChartEntry>): nat {
    if entries == [] then 0 else ChartTotal(entries[..|entries| - 1]) + entries[|entries| - 1].value
  }

  /** The chart's slices add up to the vote total the panel shows. */
  lemma {:induction false} ChartTotalIsTotalVotes(opts: seq<PollOption>)
    ensures ChartTotal(ChartData(opts)) == SumVotes(opts)
  {
    if opts != [] {
      var r := ChartData(opts);
      assert r[..|r| - 1] == ChartData(opts[..|opts| - 1]);
      ChartTotalIsTotalVotes(opts[..|opts| - 1]);
    }
  }

  /** `options.reduce((prev, current) => (current.votes || 0) > (prev.votes || 0) ? current : prev)`,
      as the index of the option it returns. Without a seed, `reduce` throws
      on an empty array, so there must be an option. The result is the first
      option with the largest count. */
  function WinnerIndex(opts: seq<PollOption>): (w: nat)
    requires |opts| > 0
    ensures w < |opts|
    ensures forall j :: 0 <= j < |opts| ==> VotesOf(opts[j]) <= VotesOf(opts[w])
    ensures forall j :: 0 <= j < w ==> VotesOf(opts[j]) < VotesOf(opts[w])
  {
    if |opts| == 1 then 0
    else
      var w := WinnerIndex(opts[..|opts| - 1]);
      assert opts[..|opts| - 1][w] == opts[w];
      if VotesOf(opts[|opts| - 1]) > VotesOf(opts[w]) then |opts| - 1 else w
  }

  function Winner(opts: seq<PollOption>): PollOption
    requires |opts| > 0
  {
    opts[WinnerIndex(opts)]
  }

  /** `isWinner`: the row's text is the winner's text and some vote was cast. */
  predicate IsWinner(opts: seq<PollOption>, i: nat)
    requires i < |opts|
  {
    opts[i].text == Winner(opts).text && SumVotes(opts) > 0
  }

  /** `isSelected`: the row is the viewer's own choice (`selectedOption === index`). */
  predicate IsSelected(selectedOption: Option<int>, i: int) {
    selectedOption == Some(i)
  }

  /** The pie chart and the stats summary are rendered. */
  predicate ShowsChartAndSummary(opts: seq<PollOption>) {
    SumVotes(opts) > 0
  }

  /** While nobody has voted no row is flagged; once somebody has, the
      winner's own row is flagged, the winner has at least one vote, and a
      row is flagged exactly when its text equals the winner's, so options
      that share the winner's text are flagged with it. */
  lemma WinnerFlags(opts: seq<PollOption>)
    requires |opts| > 0
    ensures SumVotes(opts) == 0 ==> forall i :: 0 <= i < |opts| ==> !IsWinner(opts, i)
    ensures SumVotes(opts) > 0 ==> IsWinner(opts, WinnerIndex(opts)) && VotesOf(Winner(opts)) > 0
    ensures SumVotes(opts) > 0 ==> forall i :: 0 <= i < |opts| ==> (IsWinner(opts, i) <==> opts[i].text == Winner(opts).text)
  {
    if SumVotes(opts) > 0 {
      SumVotesZeroIff(opts);
      var j :| 0 <= j < |opts| && VotesOf(opts[j]) != 0;
      assert VotesOf(opts[j]) <= VotesOf(Winner(opts));
    }
  }

  /** With a choice on record exactly one row is marked as the viewer's,
      without one none is. */
  lemma SelectedRows(selectedOption: Option<int>, n: nat)
    ensures selectedOption.Some? && 0 <= selectedOption.value < n ==>
              forall i :: 0 <= i < n ==> (IsSelected(selectedOption, i) <==> i == selectedOption.value)
    ensures selectedOption.None? ==> forall i :: !IsSelected(selectedOption, i)
  {
  }
}
