/**
 * The colour grid of `components/test/start/ColorChoice.tsx`: the colour
 * groups are flattened into one list of boxes (group by group, each group's
 * colours from low to high strength); pressing box k reports k + 1, and the
 * box at `selectedColor - 1` is highlighted.
 */
module ColorChoice {
  import opened Wrappers

  /** `ColorGroup`. */
  datatype ColorGroup = ColorGroup(colors: seq<string>, caption: Option<string>)

  /** One box of the grid: its colour and where it came from. */
  datatype ColorCell = ColorCell(color: string, groupIndex: nat, strengthIndex: nat)

  /** `group.colors.map((color, strengthIndex) => ...)` for group number `g`. */
  function GroupCells(group: ColorGroup, g: nat): (r: seq<ColorCell>)
    ensures |r| == |group.colors|
    ensures forall s :: 0 <= s < |r| ==> r[s] == ColorCell(group.colors[s], g, s)
  {
    seq(|group.colors|, s requires 0 <= s < |group.colors| => ColorCell(group.colors[s], g, s))
  }

  /** `allColors`: the `reduce` that appends each group's cells, first group first. */
  function Flatten(groups: seq<ColorGroup>): seq<ColorCell> {
    if groups == [] then []
    else Flatten(groups[..|groups| - 1]) + GroupCells(groups[|groups| - 1], |groups| - 1)
  }

  /** The number of colours in all groups. */
  function Total(groups: seq<ColorGroup>): nat {
    if groups == [] then 0 else |groups[0].colors| + Total(groups[1..])
  }

  lemma {:induction false} TotalAppend(groups: seq<ColorGroup>, last: ColorGroup)
    ensures Total(groups + [last]) == Total(groups) + |last.colors|
  {
    if groups != [] {
      assert (groups + [last])[1..] == groups[1..] + [last];
      TotalAppend(groups[1..], last);
    }
  }

  /** The grid has one box per colour: as many as all groups' colours together. */
  lemma {:induction false} FlattenLength(groups: seq<ColorGroup>)
    ensures |Flatten(groups)| == Total(groups)
  {
    if groups != [] {
      var init := groups[..|groups| - 1];
      FlattenLength(init);
      assert groups == init + [groups[|groups| - 1]];
      TotalAppend(init, groups[|groups| - 1]);
    }
  }

  lemma PrefixOfPrefix(groups: seq<ColorGroup>, g: nat)
    requires g < |groups|
    ensures groups[..|groups| - 1][..g] == groups[..g]
  {
  }

  /**
   * Colour s of group g is box `Total(groups[..g]) + s`: the boxes are group
   * by group, then by strength, and each carries its own colour and indices.
   */
  lemma {:induction false} FlattenAt(groups: seq<ColorGroup>, g: nat, s: nat)
    requires g < |groups| && s < |groups[g].colors|
    ensures Total(groups[..g]) + s < |Flatten(groups)|
    ensures Flatten(groups)[Total(groups[..g]) + s] == ColorCell(groups[g].colors[s], g, s)
  {
    var n := |groups|;
    var init := groups[..n - 1];
    FlattenLength(init);
    FlattenLength(groups);
    if g == n - 1 {
      assert groups[..g] == init;
    } else {
      FlattenAt(init, g, s);
      PrefixOfPrefix(groups, g);
    }
    assert groups[..g + 1] == groups[..g] + [groups[g]];
    TotalAppend(groups[..g], groups[g]);
    PrefixTotalBound(groups, g + 1);
  }

  /** The groups before g hold no more colours than all of them. */
  lemma {:induction false} PrefixTotalBound(groups: seq<ColorGroup>, k: nat)
    requires k <= |groups|
    ensures Total(groups[..k]) <= Total(groups)
    decreases |groups| - k
  {
    if k < |groups| {
      PrefixTotalBound(groups, k + 1);
      assert groups[..k + 1] == groups[..k] + [groups[k]];
      TotalAppend(groups[..k], groups[k]);
    } else {
      assert groups[..k] == groups;
    }
  }

  /**
   * Conversely every box is one colour of one group, at the position the
   * group and strength index determine.
   */
  lemma {:induction false} FlattenEntry(groups: seq<ColorGroup>, k: nat)
    requires k < |Flatten(groups)|
    ensures var c := Flatten(groups)[k];
      && c.groupIndex < |groups| && c.strengthIndex < |groups[c.groupIndex].colors|
      && c.color == groups[c.groupIndex].colors[c.strengthIndex]
      && k == Total(groups[..c.groupIndex]) + c.strengthIndex
  {
    var n := |groups|;
    var init := groups[..n - 1];
    FlattenLength(init);
    if k < |Flatten(init)| {
      FlattenEntry(init, k);
      var c := Flatten(groups)[k];
      assert c == Flatten(init)[k];
      PrefixOfPrefix(groups, c.groupIndex);
    } else {
      assert groups[..n - 1] == init;
    }
  }

  /** No two boxes share a (groupIndex, strengthIndex) pair, so the keys are unique. */
  lemma CellKeysDistinct(groups: seq<ColorGroup>, i: nat, j: nat)
    requires i < |Flatten(groups)| && j < |Flatten(groups)|
    requires Flatten(groups)[i].groupIndex == Flatten(groups)[j].groupIndex
    requires Flatten(groups)[i].strengthIndex == Flatten(groups)[j].strengthIndex
    ensures i == j
  {
    FlattenEntry(groups, i);
    FlattenEntry(groups, j);
  }

  /** `onSelect(index + 1)`: pressing box `index` reports a 1-based number within the grid. */
  function OnSelect(groups: seq<ColorGroup>, index: nat): (r: int)
    requires index < |Flatten(groups)|
    ensures 1 <= r <= Total(groups)
    ensures r - 1 == index
  {
    FlattenLength(groups);
    index + 1
  }

  /**
   * Whether box `index` is highlighted: a selection that is set and not 0
   * (`selectedColor ? ... : null`) highlights box `selectedColor - 1`.
   */
  predicate Highlighted(selectedColor: Option<int>, index: nat) {
    selectedColor.Some? && selectedColor.value != 0 && selectedColor.value - 1 == index
  }

  /** At most one box is highlighted, and none for a missing or 0 selection. */
  lemma AtMostOneHighlighted(selectedColor: Option<int>, i: nat, j: nat)
    ensures Highlighted(selectedColor, i) && Highlighted(selectedColor, j) ==> i == j
    ensures selectedColor.None? || selectedColor == Some(0) ==> !Highlighted(selectedColor, i)
  {
  }

  /** The box that was pressed is the one, and the only one, highlighted afterwards. */
  lemma SelectThenHighlight(groups: seq<ColorGroup>, pressed: nat, j: nat)
    requires pressed < |Flatten(groups)|
    ensures Highlighted(Some(OnSelect(groups, pressed)), j) <==> j == pressed
  {
  }
}
