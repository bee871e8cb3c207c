/** The small list editors behind the tag box of the submission form and the keyword box
    of the search-engine panel: add the trimmed input when it is new, remove every copy
    of a value. */
module ListEdits {
  import opened Text
  import opened Seqs

  /** The add button's guard: `input.trim()` is non-empty and not in the list yet. */
  predicate Accepts(list: seq<string>, input: string)
  {
    Trim(input) != "" && Trim(input) !in list
  }

  /** `[...list, input.trim()]` when the guard holds, the list unchanged otherwise. */
  function AddTrimmed(list: seq<string>, input: string): (r: seq<string>)
    ensures Accepts(list, input) ==> |r| == |list| + 1 && r[..|list|] == list && r[|list|] == Trim(input)
    ensures !Accepts(list, input) ==> r == list
  {
    if Accepts(list, input) then list + [Trim(input)] else list
  }

  /** Every entry is non-empty and has no white space at either end. */
  predicate Clean(list: seq<string>)
  {
    forall i :: 0 <= i < |list| ==> list[i] != "" && Trim(list[i]) == list[i]
  }

  /** Adding keeps the list free of repeats and of untrimmed or empty entries. */
  lemma AddTrimmedKeeps(list: seq<string>, input: string)
    requires Distinct(list) && Clean(list)
    ensures Distinct(AddTrimmed(list, input)) && Clean(AddTrimmed(list, input))
  {
    if Accepts(list, input) {
      var t := Trim(input);
      TrimNoop(t);
      DistinctAppend(list, [t]);
    }
  }

  /** A second press of the add button with the same input changes nothing. */
  lemma AddTrimmedTwice(list: seq<string>, input: string)
    ensures AddTrimmed(AddTrimmed(list, input), input) == AddTrimmed(list, input)
  {
  }

  /** Removing a value that was just added gives back the list before the add. */
  lemma RemoveUndoesAdd(list: seq<string>, input: string)
    requires Accepts(list, input)
    ensures RemoveAll(AddTrimmed(list, input), Trim(input)) == list
  {
    RemoveAppended(list, Trim(input));
  }
}
