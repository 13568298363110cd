/** The table sorting helpers of the frontend: the comparator on cell values, sorting a
    copy of the rows by one column in either direction, the three-state toggle of a column
    header, and the icon it shows. Cell values are numbers, strings or missing; dates are
    not part of this model. */
module TableSorting {
  import opened Text
  import opened Sequences

  /** A cell value: missing (`null` or `undefined`), a number, or a string. */
  datatype SortableValue = Null | Num(n: int) | Str(s: string)

  datatype SortDirection = Asc | Desc | Unsorted

  /** The active sort: a column key and a direction; `("", Unsorted)` is no sort. */
  datatype SortConfig = SortConfig(key: string, direction: SortDirection)

  datatype SortIcon = ArrowUpDown | ArrowUp | ArrowDown

  // ---------------------------------------------------------------------------
  // The comparator

  /** `String(v)` of a present value, lower-cased as the comparator reads it. */
  function LoweredText(v: SortableValue): string
    requires !v.Null?
  {
    match v
    case Num(n) => Lower(IntToString(n))
    case Str(s) => Lower(s)
  }

  /** `compareValues`: missing values first, numbers by value, anything else by its
      lower-cased text. Negative, zero or positive as `a` sorts before, with or after `b`. */
  function CompareValues(a: SortableValue, b: SortableValue): (c: int)
    ensures a.Null? && b.Null? ==> c == 0
    ensures a.Null? && !b.Null? ==> c < 0
    ensures !a.Null? && b.Null? ==> c > 0
    ensures a.Num? && b.Num? ==> (c < 0 <==> a.n < b.n) && (c == 0 <==> a.n == b.n)
    ensures !a.Null? && !b.Null? && !(a.Num? && b.Num?) ==>
              (c < 0 <==> StrLess(LoweredText(a), LoweredText(b)))
              && (c > 0 <==> StrLess(LoweredText(b), LoweredText(a)))
  {
    if a.Null? && b.Null? then 0
    else if a.Null? then -1
    else if b.Null? then 1
    else if a.Num? && b.Num? then a.n - b.n
    else
      var x := LoweredText(a);
      var y := LoweredText(b);
      if StrLess(x, y) then StrLessAsymmetric(x, y); -1
      else if StrLess(y, x) then 1
      else 0
  }

  lemma StrLessAsymmetric(x: string, y: string)
    requires StrLess(x, y)
    ensures !StrLess(y, x)
  {
    if StrLess(y, x) {
      StrLessTransitive(x, y, x);
      StrLessIrreflexive(x);
    }
  }

  /** Swapping the operands flips the comparison. */
  lemma CompareAntisymmetric(a: SortableValue, b: SortableValue)
    ensures CompareValues(a, b) < 0 <==> CompareValues(b, a) > 0
    ensures CompareValues(a, b) == 0 <==> CompareValues(b, a) == 0
  {
    if !a.Null? && !b.Null? && !(a.Num? && b.Num?) {
      var x := LoweredText(a);
      var y := LoweredText(b);
      if StrLess(x, y) { StrLessAsymmetric(x, y); }
      if StrLess(y, x) { StrLessAsymmetric(y, x); }
    }
  }

  /** The values of a column do not mix numbers with strings. */
  predicate Uniform(a: SortableValue, b: SortableValue, c: SortableValue) {
    !((a.Num? || b.Num? || c.Num?) && (a.Str? || b.Str? || c.Str?))
  }

  /** Within a column that does not mix numbers with strings, "not after" is transitive. */
  lemma CompareTransitive(a: SortableValue, b: SortableValue, c: SortableValue)
    requires Uniform(a, b, c)
    requires CompareValues(a, b) <= 0 && CompareValues(b, c) <= 0
    ensures CompareValues(a, c) <= 0
  {
    if a.Str? && b.Str? && c.Str? {
      var x, y, z := LoweredText(a), LoweredText(b), LoweredText(c);
      if StrLess(z, x) && x != y {
        StrLessTotal(x, y);
        StrLessTransitive(z, x, y);
      }
    }
  }

  /** Mixing numbers with strings breaks transitivity: 9 sorts before 10 by value, 10
      before "5" and "5" before 9 by text, so such a column has no order the comparator
      agrees with throughout. */
  lemma MixedColumnCycles()
    ensures CompareValues(Num(9), Num(10)) < 0
    ensures CompareValues(Num(10), Str("5")) < 0
    ensures CompareValues(Str("5"), Num(9)) < 0
  {
    assert IntToString(10) == "10";
    assert IntToString(9) == "9";
    assert Lower("10") == "10";
    assert Lower("5") == "5";
    assert Lower("9") == "9";
  }

  // ---------------------------------------------------------------------------
  // Sorting rows

  /** The comparison `sortData` hands to the sort: the comparator, negated for a
      descending sort. */
  function Directed(direction: SortDirection, c: int): int {
    if direction == Asc then c else -c
  }

  /** Row `x` may stay ahead of row `y`: their comparison, in the configured direction, is
      not positive. `valueOf` reads a row's cell in a column. */
  function Precedes<T>(config: SortConfig, valueOf: (T, string) -> SortableValue): (T, T) -> bool {
    (x: T, y: T) => Directed(config.direction, CompareValues(valueOf(x, config.key), valueOf(y, config.key))) <= 0
  }

  /** Sorting descending orders rows exactly the opposite way to sorting ascending. */
  lemma DescendingIsReversed<T>(key: string, valueOf: (T, string) -> SortableValue, x: T, y: T)
    ensures var asc := Precedes(SortConfig(key, Asc), valueOf);
            var desc := Precedes(SortConfig(key, Desc), valueOf);
            desc(x, y) <==> asc(y, x)
  {
    CompareAntisymmetric(valueOf(x, key), valueOf(y, key));
  }

  /** `sortData`: the rows as given when no column or no direction is set, otherwise a
      sorted copy; the browser's sort is stable, so rows that compare equal keep their
      order. Either way the result holds exactly the input rows. */
  function SortData<T>(data: seq<T>, config: SortConfig, valueOf: (T, string) -> SortableValue): (r: seq<T>)
    ensures config.key == [] || config.direction == Unsorted ==> r == data
    ensures multiset(r) == multiset(data)
  {
    if config.key == [] || config.direction == Unsorted then data
    else Sort(data, Precedes(config, valueOf))
  }

  /** The column holds no number next to a string. */
  ghost predicate UniformColumn<T>(data: seq<T>, key: string, valueOf: (T, string) -> SortableValue) {
    (forall x | x in data :: !valueOf(x, key).Str?) || (forall x | x in data :: !valueOf(x, key).Num?)
  }

  /** A sorted copy is in order: every row may stay ahead of every later row, for a column
      that does not mix numbers with strings. */
  lemma SortDataSorted<T>(data: seq<T>, config: SortConfig, valueOf: (T, string) -> SortableValue)
    requires config.key != [] && config.direction != Unsorted
    requires UniformColumn(data, config.key, valueOf)
    ensures Sorted(SortData(data, config, valueOf), Precedes(config, valueOf))
  {
    var le := Precedes(config, valueOf);
    var key := config.key;
    forall x, y | x in data && y in data ensures le(x, y) || le(y, x) {
      CompareAntisymmetric(valueOf(x, key), valueOf(y, key));
    }
    forall x, y, z | x in data && y in data && z in data && le(x, y) && le(y, z)
      ensures le(x, z)
    {
      var a, b, c := valueOf(x, key), valueOf(y, key), valueOf(z, key);
      assert Uniform(a, b, c);
      if config.direction == Asc {
        CompareTransitive(a, b, c);
      } else {
        CompareAntisymmetric(a, b);
        CompareAntisymmetric(b, c);
        CompareAntisymmetric(a, c);
        assert Uniform(c, b, a);
        CompareTransitive(c, b, a);
      }
    }
    SortSorted(data, le);
  }

  // ---------------------------------------------------------------------------
  // The column header

  /** `toggleSort`: on the active column ascending turns descending, descending clears the
      sort, and no direction turns ascending; any other column starts ascending. */
  function ToggleSort(current: SortConfig, column: string): (r: SortConfig)
    ensures current.key != column ==> r == SortConfig(column, Asc)
    ensures r.direction == Unsorted <==> current.key == column && current.direction == Desc
    ensures r.direction == Unsorted ==> r.key == []
    ensures r.direction != Unsorted ==> r.key == column
  {
    if current.key == column then
      match current.direction
      case Asc => SortConfig(column, Desc)
      case Desc => SortConfig([], Unsorted)
      case Unsorted => SortConfig(column, Asc)
    else SortConfig(column, Asc)
  }

  /** Three clicks on a column sorted ascending go through descending and unsorted back to
      ascending. */
  lemma ToggleCycles(column: string)
    ensures ToggleSort(SortConfig(column, Asc), column) == SortConfig(column, Desc)
    ensures ToggleSort(SortConfig(column, Desc), column) == SortConfig([], Unsorted)
    ensures ToggleSort(SortConfig([], Unsorted), column) == SortConfig(column, Asc)
  {
  }

  /** `getSortIcon`: the neutral arrows on inactive columns, up when ascending and down
      otherwise. */
  function GetSortIcon(current: SortConfig, column: string): (icon: SortIcon)
    ensures icon == ArrowUpDown <==> current.key != column
    ensures icon == ArrowUp <==> current.key == column && current.direction == Asc
  {
    if current.key != column then ArrowUpDown
    else if current.direction == Asc then ArrowUp
    else ArrowDown
  }

  /** After a click the clicked column's icon matches the new sort: up after turning
      ascending, down after turning descending, neutral once the sort is cleared (for a
      column with a name). */
  lemma IconFollowsToggle(current: SortConfig, column: string)
    requires column != []
    ensures var next := ToggleSort(current, column);
            GetSortIcon(next, column) == match next.direction
              case Asc => ArrowUp
              case Desc => ArrowDown
              case Unsorted => ArrowUpDown
  {
  }
}
