/** The two category-list editors of the multinomial panel
    (Simulador/static/js/simulador.js:536-606, 998-1025): "simulate" rows carry
    a name and a probability and keep the probability-sum warning up to date;
    "probability calculator" rows also carry a desired frequency. Each editor
    numbers its rows with its own counter, starting at 3. */
module UiCategories {
  import opened Wrappers
  import opened JsNumbers
  import opened Text
  import opened UiGuards

  /** One row: its `data-index`, and the parsed values of its fields. */
  datatype CategoryRow = CategoryRow(index: int, name: string, probability: JsNum, desired: Option<JsNum>)

  /** The row addCategory / addCategoryProb appends for counter value i:
      name `Cat{i+1}`, probability 0.1 and, in the calculator, frequency 1. */
  function DefaultRow(i: nat, withFrequency: bool): (r: CategoryRow)
    ensures r.index == i && r.probability == Num(0.1)
    ensures r.name == "Cat" + NatToString(i + 1)
    ensures DecimalValue(r.name[3..]) == i + 1
    ensures r.desired.Some? <==> withFrequency
  {
    CategoryRow(i, "Cat" + NatToString(i + 1), Num(0.1), if withFrequency then Some(Num(1.0)) else None)
  }

  function Probabilities(rows: seq<CategoryRow>): (ps: seq<JsNum>)
    ensures |ps| == |rows|
    ensures forall i :: 0 <= i < |rows| ==> ps[i] == rows[i].probability
  {
    seq(|rows|, i requires 0 <= i < |rows| => rows[i].probability)
  }

  predicate IndicesIncreasing(rows: seq<CategoryRow>)
  {
    forall i, j :: 0 <= i < j < |rows| ==> rows[i].index < rows[j].index
  }

  /** `querySelector('[data-index="index"]')?.remove()`: drop the first row
      carrying that index, if any. */
  function RemoveIndex(rows: seq<CategoryRow>, index: int): seq<CategoryRow>
  {
    if rows == [] then []
    else if rows[0].index == index then rows[1..]
    else [rows[0]] + RemoveIndex(rows[1..], index)
  }

  /** RemoveIndex with no matching row changes nothing. */
  lemma {:induction false} RemoveAbsent(rows: seq<CategoryRow>, index: int)
    requires forall k :: 0 <= k < |rows| ==> rows[k].index != index
    ensures RemoveIndex(rows, index) == rows
  {
    if rows != [] {
      RemoveAbsent(rows[1..], index);
    }
  }

  /** RemoveIndex deletes exactly the row at the first matching position p
      and keeps every other row in order. */
  lemma {:induction false} RemoveAt(rows: seq<CategoryRow>, index: int, p: nat)
    requires p < |rows| && rows[p].index == index
    requires forall k :: 0 <= k < p ==> rows[k].index != index
    ensures RemoveIndex(rows, index) == rows[..p] + rows[p + 1..]
  {
    if p == 0 {
      assert rows[..0] + rows[1..] == rows[1..];
    } else {
      RemoveAt(rows[1..], index, p - 1);
      assert [rows[0]] + (rows[1..][..p - 1] + rows[1..][p..]) == rows[..p] + rows[p + 1..];
    }
  }

  /** Rows well numbered below `bound` and all of one shape. */
  predicate RowsOk(rows: seq<CategoryRow>, bound: int, withFrequency: bool)
  {
    && IndicesIncreasing(rows)
    && (forall i :: 0 <= i < |rows| ==> rows[i].index < bound)
    && (forall i :: 0 <= i < |rows| ==> (rows[i].desired.Some? <==> withFrequency))
  }

  /** Appending a row numbered by the bound keeps the rows well numbered
      under the next bound. */
  lemma AppendKeepsRowsOk(rows: seq<CategoryRow>, row: CategoryRow, bound: int, withFrequency: bool)
    requires RowsOk(rows, bound, withFrequency)
    requires row.index == bound && (row.desired.Some? <==> withFrequency)
    ensures RowsOk(rows + [row], bound + 1, withFrequency)
  {
  }

  /** Deleting one row keeps the rows well numbered. */
  lemma DeleteKeepsRowsOk(rows: seq<CategoryRow>, p: nat, bound: int, withFrequency: bool)
    requires p < |rows| && RowsOk(rows, bound, withFrequency)
    ensures RowsOk(rows[..p] + rows[p + 1..], bound, withFrequency)
  {
    var r := rows[..p] + rows[p + 1..];
    assert forall i :: 0 <= i < |r| ==> r[i] == rows[if i < p then i else i + 1];
  }

  /** In a well-numbered list, removal by index drops the one matching row,
      if there is one, and keeps the list well numbered. */
  lemma RemoveIndexKeepsRowsOk(rows: seq<CategoryRow>, index: int, bound: int, withFrequency: bool)
    requires RowsOk(rows, bound, withFrequency)
    ensures RowsOk(RemoveIndex(rows, index), bound, withFrequency)
    ensures |RemoveIndex(rows, index)| >= |rows| - 1
  {
    if p :| 0 <= p < |rows| && rows[p].index == index {
      RemoveAt(rows, index, p);
      DeleteKeepsRowsOk(rows, p, bound, withFrequency);
    } else {
      RemoveAbsent(rows, index);
    }
  }

  class CategoryEditor {
    /** The calculator editor (rows with a desired frequency) or the simulate editor. */
    const withFrequency: bool
    var rows: seq<CategoryRow>
    /** categoryIndex / categoryProbIndex: the index the next added row gets. */
    var nextIndex: nat
    /** Whether `#prob-sum-warning` is displayed (simulate editor only). */
    var warningVisible: bool

    ghost predicate Valid()
      reads this
    {
      && |rows| >= 2
      && RowsOk(rows, nextIndex, withFrequency)
      && (!withFrequency ==> warningVisible == SumWarningVisible(Probabilities(rows)))
    }

    /** The page's initial rows, numbered below 3; checkProbSum runs once at start-up. */
    constructor (withFrequency: bool, initial: seq<CategoryRow>)
      requires |initial| >= 2 && RowsOk(initial, 3, withFrequency)
      ensures Valid()
      ensures this.withFrequency == withFrequency && rows == initial && nextIndex == 3
    {
      this.withFrequency := withFrequency;
      rows := initial;
      nextIndex := 3;
      warningVisible := SumWarningVisible(Probabilities(initial));
    }

    /** addCategory / addCategoryProb: append one default row numbered by the
        counter, then advance the counter. */
    method Add()
      requires Valid()
      modifies this
      ensures Valid()
      ensures rows == old(rows) + [DefaultRow(old(nextIndex), withFrequency)]
      ensures nextIndex == old(nextIndex) + 1
    {
      var row := DefaultRow(nextIndex, withFrequency);
      AppendKeepsRowsOk(rows, row, nextIndex, withFrequency);
      rows := rows + [row];
      nextIndex := nextIndex + 1;
      if !withFrequency {
        warningVisible := SumWarningVisible(Probabilities(rows));
      }
    }

    /** removeCategory / removeCategoryProb: with two rows or fewer, alert
        and change nothing; otherwise drop the row carrying `index`, if any. */
    method Remove(index: int) returns (alerted: bool)
      requires Valid()
      modifies this
      ensures Valid()
      ensures alerted <==> |old(rows)| <= 2
      ensures alerted ==> rows == old(rows)
      ensures !alerted ==> rows == RemoveIndex(old(rows), index)
      ensures nextIndex == old(nextIndex)
    {
      if |rows| <= 2 {
        return true;
      }
      RemoveIndexKeepsRowsOk(rows, index, nextIndex, withFrequency);
      rows := RemoveIndex(rows, index);
      if !withFrequency {
        warningVisible := SumWarningVisible(Probabilities(rows));
      }
      alerted := false;
    }

    /** Typing into the probability field of the row at `position`: the
        `input` listener re-runs checkProbSum for the simulate editor. */
    method EditProbability(position: nat, value: JsNum)
      requires Valid() && position < |rows|
      modifies this
      ensures Valid()
      ensures rows == old(rows)[position := old(rows)[position].(probability := value)]
      ensures nextIndex == old(nextIndex)
    {
      rows := rows[position := rows[position].(probability := value)];
      if !withFrequency {
        warningVisible := SumWarningVisible(Probabilities(rows));
      }
    }
  }
}
