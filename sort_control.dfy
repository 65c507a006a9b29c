/**
  The column-sort control both list views keep in component state
  (`handleSort` in components/organisms/order-table.tsx and
  components/organisms/top-selling-products.tsx): a sort field, or none, and
  a direction `'asc' | 'desc' | null`. Clicking the current field steps the
  direction asc, desc, none, asc; clicking another field selects it,
  ascending. `F` is the view's field type.
*/
module SortControl {
  import opened Common
  import opened Sorting

  /** The direction after another click on the current field. */
  function NextDirection(d: Option<Direction>): Option<Direction> {
    match d
    case Some(Asc) => Some(Desc)
    case Some(Desc) => None
    case None => Some(Asc)
  }

  /** The three directions form one cycle: every direction comes back after
      exactly three clicks and not before, so each of the three is reached. */
  lemma NextDirectionCycle(d: Option<Direction>)
    ensures NextDirection(NextDirection(NextDirection(d))) == d
    ensures NextDirection(d) != d
    ensures NextDirection(NextDirection(d)) != d
  {
  }

  /** The pair of state variables `sortField` and `sortDirection`. */
  datatype SortState<F> = SortState(field: Option<F>, direction: Option<Direction>)

  /** The sort applies only when both a field and a direction are set. */
  predicate Active<F>(s: SortState<F>) {
    s.field.Some? && s.direction.Some?
  }

  /** The state after `handleSort(f)`. */
  function AfterSort<F(==)>(s: SortState<F>, f: F): SortState<F> {
    if s.field == Some(f) then SortState(s.field, NextDirection(s.direction))
    else SortState(Some(f), Some(Asc))
  }

  /** A click always leaves `f` selected. A click on another field sorts by it
      ascending; on the current field it advances the direction only. Three
      clicks on the current field restore the state, and once a field is
      selected the sort is active on two clicks out of every three. */
  lemma AfterSortLaws<F>(s: SortState<F>, f: F)
    ensures AfterSort(s, f).field == Some(f)
    ensures s.field != Some(f) ==> AfterSort(s, f) == SortState(Some(f), Some(Asc)) && Active(AfterSort(s, f))
    ensures s.field == Some(f) ==> AfterSort(s, f).direction == NextDirection(s.direction)
    ensures s.field == Some(f) ==> AfterSort(AfterSort(AfterSort(s, f), f), f) == s
    ensures var s1 := AfterSort(s, f); var s2 := AfterSort(s1, f); var s3 := AfterSort(s2, f);
      (Active(s1) && Active(s2) && !Active(s3)) || (Active(s1) && !Active(s2) && Active(s3))
        || (!Active(s1) && Active(s2) && Active(s3))
  {
    if s.field == Some(f) {
      NextDirectionCycle(s.direction);
    }
  }

  /** The component's two state variables and the click handler. */
  class Control<F(==)> {
    var field: Option<F>
    var direction: Option<Direction>

    function State(): SortState<F>
      reads this
    {
      SortState(field, direction)
    }

    /** The initial state: no field and no direction, so nothing is sorted. */
    constructor()
      ensures field == None && direction == None
      ensures !Active(State())
    {
      field := None;
      direction := None;
    }

    /** `handleSort(f)`: the same field steps the direction, another field
        is selected with direction asc. */
    method HandleSort(f: F)
      modifies this
      ensures State() == AfterSort(old(State()), f)
    {
      if field == Some(f) {
        direction := match direction
          case Some(Asc) => Some(Desc)
          case Some(Desc) => None
          case None => Some(Asc);
      } else {
        field := Some(f);
        direction := Some(Asc);
      }
    }
  }
}
