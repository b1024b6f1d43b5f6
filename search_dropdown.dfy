/**
 * The navbar's suggestion dropdown (src/components/navbar/SearchDropdown.tsx):
 * five blocks guarded by conditions over its props.
 */
module SearchDropdown {

  datatype Panel = StartTyping | Loading | LoadError | SuggestionList | NoResults

  /** The condition the component writes in front of each block. */
  predicate Renders(panel: Panel, hasQuery: bool, isLoading: bool, isError: bool, suggestionCount: nat) {
    match panel
    case StartTyping => !hasQuery
    case Loading => hasQuery && isLoading
    case LoadError => hasQuery && !isLoading && isError
    case SuggestionList => hasQuery && !isLoading && !isError && suggestionCount > 0
    case NoResults => hasQuery && !isLoading && !isError && suggestionCount == 0
  }

  /** The same choice as a decision list: query, then loading, then error, then the list. */
  function ChosenPanel(hasQuery: bool, isLoading: bool, isError: bool, suggestionCount: nat): Panel {
    if !hasQuery then StartTyping
    else if isLoading then Loading
    else if isError then LoadError
    else if suggestionCount > 0 then SuggestionList
    else NoResults
  }

  /** For every combination of props exactly one block renders: the one the decision list picks. */
  lemma ExactlyOnePanel(hasQuery: bool, isLoading: bool, isError: bool, suggestionCount: nat)
    ensures forall p: Panel ::
      (Renders(p, hasQuery, isLoading, isError, suggestionCount) <==> p == ChosenPanel(hasQuery, isLoading, isError, suggestionCount))
  {
  }
}
