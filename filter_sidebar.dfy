/** The sidebar's checkbox lists of cities, age groups and tags. Its three toggles are
    the same operation on different lists; the new list goes to the parent's callback. */
module FilterSidebar {
  import opened Wrappers
  import opened Seqs

  /** `toggleCity`, `toggleAgeGroup` and `toggleTag`: a selected value is removed
      everywhere, an unselected one appended. */
  function Toggle(selected: seq<string>, value: string): seq<string>
  {
    if value in selected then RemoveAll(selected, value) else selected + [value]
  }

  /** After a toggle the value is selected exactly when it was not before, and every
      other value is selected exactly as before. */
  lemma ToggleFlips(selected: seq<string>, value: string)
    ensures value in Toggle(selected, value) <==> value !in selected
    ensures forall other :: other != value ==> (other in Toggle(selected, value) <==> other in selected)
  {
  }

  /** Selecting a value and unselecting it again gives back the list. */
  lemma ToggleTwice(selected: seq<string>, value: string)
    requires value !in selected
    ensures Toggle(Toggle(selected, value), value) == selected
  {
    RemoveAppended(selected, value);
  }

  /** A list without repeats stays without repeats: an appended value is new, and a
      removal only drops elements. */
  lemma {:induction false} ToggleDistinct(selected: seq<string>, value: string)
    requires Distinct(selected)
    ensures Distinct(Toggle(selected, value))
  {
    if value in selected {
      FilterDistinct(selected, Unequal(value));
    } else {
      DistinctAppend(selected, [value]);
    }
  }

  /** On a list without repeats a toggle changes the length by exactly one. */
  lemma ToggleLength(selected: seq<string>, value: string)
    requires Distinct(selected)
    ensures value !in selected ==> |Toggle(selected, value)| == |selected| + 1
    ensures value in selected ==> |Toggle(selected, value)| == |selected| - 1
  {
    if value in selected {
      var i :| 0 <= i < |selected| && selected[i] == value;
      RemoveOne(selected, i);
    }
  }

  /** Removing a value that occurs only at `i` removes one element. */
  lemma {:induction false} RemoveOne(s: seq<string>, i: nat)
    requires Distinct(s) && i < |s|
    ensures |RemoveAll(s, s[i])| == |s| - 1
  {
    var v := s[i];
    assert s == s[..i] + [v] + s[i + 1..];
    FilterAppend(s[..i] + [v], s[i + 1..], Unequal(v));
    FilterAppend(s[..i], [v], Unequal(v));
    assert v !in s[..i] && v !in s[i + 1..];
    FilterAll(s[..i], Unequal(v));
    FilterAll(s[i + 1..], Unequal(v));
  }

  /** The count badge beside a section title: the number of selected values, shown only
      when there is at least one. */
  function Badge(selected: seq<string>): (r: Option<nat>)
    ensures r.Some? <==> |selected| > 0
    ensures r.Some? ==> r.value == |selected|
  {
    if |selected| > 0 then Some(|selected|) else None
  }

  /** The badge follows the toggles: selecting a new value shows one more, unselecting
      the only value hides the badge, and on a list without repeats unselecting a value
      hides it exactly when that value was the only one. */
  lemma BadgeAfterToggle(selected: seq<string>, value: string)
    ensures value !in selected ==> Badge(Toggle(selected, value)) == Some(|selected| + 1)
    ensures selected == [value] ==> Badge(Toggle(selected, value)).None?
    ensures Distinct(selected) && value in selected ==>
      (Badge(Toggle(selected, value)).None? <==> |selected| == 1)
  {
    if selected == [value] {
      assert Toggle(selected, value) == [];
    }
    if Distinct(selected) {
      ToggleLength(selected, value);
    }
  }
}
