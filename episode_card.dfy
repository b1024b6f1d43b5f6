/**
 * One episode in the season list (src/Component/shows/EpisodeCard.tsx): the
 * overview shown for it, cut at 200 characters until the viewer expands it.
 */
module EpisodeCard {
  import opened Types
  import opened JsText

  const NoDescription := "No description available"
  const OverviewLimit := 200
  const Ellipsis := '…'

  /** `episode.overview || 'No description available'`. */
  function OverviewText(overview: string): (text: string)
    ensures text != ""
    ensures overview != "" ==> text == overview
  {
    if overview == "" then NoDescription else overview
  }

  predicate IsLongOverview(text: string) {
    |text| > OverviewLimit
  }

  /** `` `${text.slice(0, 200).trimEnd()}…` ``. */
  function TruncatedOverview(text: string): string {
    TrimEnd(text[..if |text| < OverviewLimit then |text| else OverviewLimit]) + [Ellipsis]
  }

  /** The full text when expanded or short, the truncated text otherwise. */
  function DisplayOverview(text: string, expanded: bool): string {
    if expanded || !IsLongOverview(text) then text else TruncatedOverview(text)
  }

  /**
   * A long, collapsed overview is shown as at most 200 characters of its
   * beginning, without trailing whitespace, followed by the ellipsis: at most
   * 201 characters, and the part before the ellipsis is a prefix of the text.
   */
  lemma TruncatedOverviewBounds(text: string)
    requires IsLongOverview(text)
    ensures var shown := DisplayOverview(text, false);
      && |shown| <= OverviewLimit + 1
      && shown[|shown| - 1] == Ellipsis
      && shown[..|shown| - 1] <= text
      && (shown[..|shown| - 1] == [] || !IsWhitespace(shown[|shown| - 2]))
      && (forall i | |shown| - 1 <= i < OverviewLimit :: IsWhitespace(text[i]))
  {
    var cut := text[..OverviewLimit];
    var kept := TrimEnd(cut);
    var shown := DisplayOverview(text, false);
    assert shown == kept + [Ellipsis];
    assert shown[..|shown| - 1] == kept;
  }

  /**
   * Expanded, or at most 200 characters long, the overview is shown exactly;
   * collapsed, an overview of more than 201 characters is shown shortened.
   */
  lemma DisplayOverviewFull(text: string, expanded: bool)
    ensures expanded || |text| <= 200 ==> DisplayOverview(text, expanded) == text
    ensures |text| > 201 && !expanded ==> |DisplayOverview(text, expanded)| < |text|
  {
    if |text| > 200 && !expanded {
      TruncatedOverviewBounds(text);
    }
  }

  /** The card's own state: `showFullOverview`, false until the "..." button is clicked. */
  class EpisodeCardView {
    const episode: Episode
    var showFullOverview: bool

    constructor (episode: Episode)
      ensures this.episode == episode && !showFullOverview
    {
      this.episode := episode;
      showFullOverview := false;
    }

    function Overview(): string
      reads this
    {
      DisplayOverview(OverviewText(episode.overview), showFullOverview)
    }

    /** The "..." button shows for a long overview that is not yet expanded. */
    predicate ExpandButtonVisible()
      reads this
    {
      IsLongOverview(OverviewText(episode.overview)) && !showFullOverview
    }

    /**
     * Clicking the button expands the overview for good: no handler ever
     * sets the flag back, and the button disappears.
     */
    method ClickExpand()
      requires ExpandButtonVisible()
      modifies this
      ensures showFullOverview && !ExpandButtonVisible()
      ensures Overview() == OverviewText(episode.overview)
    {
      showFullOverview := true;
    }
  }
}
