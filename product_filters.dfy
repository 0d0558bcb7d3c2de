/** The tag toggle of the product filter panel (src/components/ProductFilters.tsx). */
module ProductFilters {
  import opened SeqUtil

  /**
   * `handleTagToggle`: a selected tag is removed, every occurrence of it, and
   * every other tag stays as often as it was, in order; an unselected one is
   * appended at the end.
   */
  function ToggleTag(selectedTags: seq<string>, tag: string): (newTags: seq<string>)
    ensures tag in newTags <==> tag !in selectedTags
    ensures tag !in selectedTags ==> newTags == selectedTags + [tag]
    ensures tag in selectedTags ==>
              IsSubsequence(newTags, selectedTags) &&
              (forall k :: 0 <= k < |selectedTags| && selectedTags[k] != tag ==> selectedTags[k] in newTags) &&
              multiset(newTags) == multiset(selectedTags)[tag := 0]
  {
    var keep := (t: string) => t != tag;
    if tag in selectedTags then
      FilterCounts(selectedTags, keep);
      Filter(selectedTags, keep)
    else selectedTags + [tag]
  }

  /** Toggling an unselected tag twice gives back the selection it started from. */
  lemma ToggleTwiceRestores(selectedTags: seq<string>, tag: string)
    requires tag !in selectedTags
    ensures ToggleTag(ToggleTag(selectedTags, tag), tag) == selectedTags
  {
    var added := selectedTags + [tag];
    FilterAppend(selectedTags, [tag], (t: string) => t != tag);
    FilterAll(selectedTags, (t: string) => t != tag);
    assert Filter([tag], (t: string) => t != tag) == [] by {
      assert [tag][1..] == [];
    }
  }
}
