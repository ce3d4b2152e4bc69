/** Choosing one of the locally stored campaigns (`choose_local_campaign` of
    `src/campaign.rs`): the numbered menu and the check of the number the
    user typed. Reading the line from the terminal is a parameter. */
module Selection {
  import opened Wrappers
  import opened Decimal
  import opened Text
  import opened Campaigns

  /** What one round of the prompt ends in: the source exits when there is
      nothing to choose, asks again on input it cannot use, and otherwise
      returns the chosen record. */
  datatype Choice = NoLocalCampaigns | Reprompt | Chosen(record: LocalCampaign)

  /** The note a backed record's menu line ends with. */
  const BACKED_NOTE: string := " - (You Backed This Campaign Previously)"

  /** `print_choice_text`: the menu line for a record. It starts with the
      number and ". ", then the campaign's name; only a backed record's line
      goes on, with the note that the user backed it. */
  function ChoiceText(r: LocalCampaign, n: nat): (line: string)
    ensures var d := ToDecimal(n); var name := r.Terms().name;
      && |d| + 2 + |name| <= |line|
      && line[..|d|] == d && line[|d|..|d| + 2] == ". " && line[|d| + 2..|d| + 2 + |name|] == name
      && (r.Backed? <==> |d| + 2 + |name| < |line|)
      && (r.Backed? ==> line[|d| + 2 + |name|..] == BACKED_NOTE)
  {
    match r
    case Tracked(c) => ToDecimal(n) + ". " + c.name
    case Backed(bc) => ToDecimal(n) + ". " + bc.campaign.name + BACKED_NOTE
  }

  /** The menu `choose_local_campaign` prints, numbering the records from 1. */
  method ChoiceMenu(campaigns: seq<LocalCampaign>) returns (lines: seq<string>)
    ensures |lines| == |campaigns|
    ensures forall k :: 0 <= k < |campaigns| ==> lines[k] == ChoiceText(campaigns[k], k + 1)
  {
    lines := [];
    var n := 0;
    for i := 0 to |campaigns|
      invariant n == i
      invariant |lines| == i
      invariant forall k :: 0 <= k < i ==> lines[k] == ChoiceText(campaigns[k], k + 1)
    {
      n := n + 1;
      lines := lines + [ChoiceText(campaigns[i], n)];
    }
  }

  /** The range check on the typed number: 1 up to the number of records. */
  function SelectIndex(campaigns: seq<LocalCampaign>, n: U64): (r: Option<LocalCampaign>)
    ensures r.Some? <==> 1 <= n <= |campaigns|
    ensures r.Some? ==> r.value == campaigns[n - 1]
  {
    if n > |campaigns| || n < 1 then None else Some(campaigns[n - 1])
  }

  /** One round of `choose_local_campaign`: `line` is what `read_line`
      produced, `None` when reading failed. */
  function ChooseLocalCampaign(campaigns: seq<LocalCampaign>, line: Option<string>): (choice: Choice)
    ensures choice == NoLocalCampaigns <==> campaigns == []
    ensures choice.Chosen? <==>
      && campaigns != [] && line.Some?
      && ParseU64(Trim(line.value)).Success?
      && 1 <= ParseU64(Trim(line.value)).value <= |campaigns|
    ensures choice.Chosen? ==> choice.record == campaigns[ParseU64(Trim(line.value)).value - 1]
  {
    if campaigns == [] then NoLocalCampaigns
    else match line
    case None => Reprompt
    case Some(text) =>
      match ParseU64(Trim(text))
      case Failure(_) => Reprompt
      case Success(n) =>
        match SelectIndex(campaigns, n)
        case None => Reprompt
        case Some(r) => Chosen(r)
  }

  lemma TrimNumberLine(n: nat)
    ensures Trim(ToDecimal(n) + "\n") == ToDecimal(n)
  {
    var d := ToDecimal(n);
    assert IsDigit(d[0]) && IsDigit(d[|d| - 1]);
    TrimDropsLineEnd(d);
  }

  /** Typing the number the menu shows beside a record, and Enter, chooses
      that record. */
  lemma MenuNumberChooses(campaigns: seq<LocalCampaign>, k: nat)
    requires k < |campaigns| < U64_LIMIT
    ensures ChoiceText(campaigns[k], k + 1)[..|ToDecimal(k + 1)|] == ToDecimal(k + 1)
    ensures ChooseLocalCampaign(campaigns, Some(ToDecimal(k + 1) + "\n")) == Chosen(campaigns[k])
  {
    var d := ToDecimal(k + 1);
    TrimNumberLine(k + 1);
    ParseToDecimal(k + 1);
    assert ParseU64(Trim(d + "\n")) == Success(k + 1);
    assert SelectIndex(campaigns, k + 1) == Some(campaigns[k]);
  }

  /** Zero and any number past the last record are refused. */
  lemma OutOfRangeReprompts(campaigns: seq<LocalCampaign>, n: U64)
    requires campaigns != []
    requires n == 0 || n > |campaigns|
    ensures ChooseLocalCampaign(campaigns, Some(ToDecimal(n) + "\n")) == Reprompt
  {
    TrimNumberLine(n);
    ParseToDecimal(n);
  }
}
