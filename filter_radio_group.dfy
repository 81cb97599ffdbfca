/**
 * The filter radio group (storefront/src/modules/common/components/filter-radio-group/index.tsx):
 * one row per item, and the per-row flags derived from `i.value === value`.
 */
module FilterRadioGroup {
  import opened Wrappers
  import Flags

  datatype Item = Item(value: string, caption: string)

  /**
   * A rendered row: its key and label, whether the radio item is checked, and the parts that
   * appear only on the checked row (the marker icon, the negative offset class, the base text
   * class and `data-active`).
   */
  datatype Row = Row(key: string, caption: string, checked: bool, marker: bool, offset: bool, baseText: bool, dataActive: bool)

  /**
   * `items?.map(...)`. The selected `value` is untyped; `None` stands for anything that is not
   * a string, which `===` never equates with an item's value.
   */
  function Rows(items: Option<seq<Item>>, selected: Option<string>): (rows: seq<Row>)
    ensures items.None? ==> rows == []
    ensures items.Some? ==> |rows| == |items.value|
    ensures items.Some? ==> forall i :: 0 <= i < |rows| ==>
      && rows[i].key == items.value[i].value
      && rows[i].caption == items.value[i].caption
      && (rows[i].checked <==> selected == Some(items.value[i].value))
      && rows[i].marker == rows[i].offset == rows[i].baseText == rows[i].dataActive == rows[i].checked
  {
    match items
    case None => []
    case Some(xs) =>
      seq(|xs|, i requires 0 <= i < |xs| =>
        var on := selected == Some(xs[i].value);
        Row(xs[i].value, xs[i].caption, on, on, on, on, on))
  }

  function CheckedFlags(rows: seq<Row>): (flags: seq<bool>)
    ensures |flags| == |rows|
    ensures forall i :: 0 <= i < |rows| ==> flags[i] == rows[i].checked
  {
    seq(|rows|, i requires 0 <= i < |rows| => rows[i].checked)
  }

  predicate DistinctValues(items: seq<Item>)
  {
    forall i, j :: 0 <= i < |items| && 0 <= j < |items| && items[i].value == items[j].value ==> i == j
  }

  /** With distinct item values at most one row is checked. */
  lemma AtMostOneChecked(items: seq<Item>, selected: Option<string>)
    requires DistinctValues(items)
    ensures Flags.CountTrue(CheckedFlags(Rows(Some(items), selected))) <= 1
  {
    Flags.CountAtMostOne(CheckedFlags(Rows(Some(items), selected)));
  }

  /** A selected value that matches no item checks no row. */
  lemma NoMatchNoneChecked(items: seq<Item>, selected: Option<string>)
    requires forall i :: 0 <= i < |items| ==> selected != Some(items[i].value)
    ensures Flags.CountTrue(CheckedFlags(Rows(Some(items), selected))) == 0
  {
    Flags.CountNone(CheckedFlags(Rows(Some(items), selected)));
  }

  /** With distinct values, selecting item `k`'s value checks exactly that row. */
  lemma SelectingItemChecksIt(items: seq<Item>, k: nat)
    requires DistinctValues(items) && k < |items|
    ensures Rows(Some(items), Some(items[k].value))[k].checked
    ensures Flags.CountTrue(CheckedFlags(Rows(Some(items), Some(items[k].value)))) == 1
  {
    Flags.CountOneHot(CheckedFlags(Rows(Some(items), Some(items[k].value))), k);
  }
}
