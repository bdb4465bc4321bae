/**
  `AdjustmentAdapter`, the list adapter of the sample app: it shows the
  tools and, on a click, marks the clicked tool as the only selected one
  before reporting it to the app. View binding and redraw requests are not
  modelled; what remains is the selection state kept in the tools.
 */
module Adapter {
  import opened Tools

  /** The selection pattern `selectItem(p)` leaves on a list of `n` tools:
      entry i is true exactly when i == p. */
  function Selection(n: nat, p: int): (f: seq<bool>)
    ensures |f| == n
  {
    seq(n, i => i == p)
  }

  /** How many entries of `f` are set. */
  function CountSelected(f: seq<bool>): (c: nat)
    ensures c <= |f|
  {
    if f == [] then 0 else CountSelected(f[..|f| - 1]) + (if f[|f| - 1] then 1 else 0)
  }

  /** After `selectItem(p)` exactly one tool is selected when p is a
      position of the list, and none when it is not. */
  lemma {:induction false} SelectionCount(n: nat, p: int)
    ensures CountSelected(Selection(n, p)) == if 0 <= p < n then 1 else 0
  {
    if n > 0 {
      SelectionCount(n - 1, p);
      assert Selection(n, p)[..n - 1] == Selection(n - 1, p);
    }
  }

  class AdjustmentAdapter {
    const items: seq<AdjustmentTool>

    constructor (items: seq<AdjustmentTool>)
      ensures this.items == items
    {
      this.items := items;
    }

    /** `getItemCount`: the positions the list binds are 0 .. count-1. */
    function ItemCount(): (n: nat)
      ensures n == |items|
    {
      |items|
    }

    /** The `isSelected` flags of the tools, in list order. */
    function Flags(): (f: seq<bool>)
      reads items
      ensures |f| == |items|
      ensures forall i :: 0 <= i < |items| ==> f[i] == items[i].isSelected
    {
      seq(|items|, i reads items => if 0 <= i < |items| then items[i].isSelected else false)
    }

    /** `selectItem(position)`: every tool's flag becomes `index == position`.
        Only the flags change; a second call with the same position changes
        nothing more. */
    method SelectItem(position: int)
      requires Distinct(items)
      modifies items
      ensures forall i :: 0 <= i < |items| ==> (items[i].isSelected <==> i == position)
      ensures Flags() == Selection(|items|, position)
      ensures forall i :: 0 <= i < |items| ==> items[i].progressValue == old(items[i].progressValue)
      ensures old(Flags()) == Selection(|items|, position) ==> Flags() == old(Flags())
    {
      var index := 0;
      while index < |items|
        invariant 0 <= index <= |items|
        invariant forall i :: 0 <= i < index ==> items[i].isSelected == (i == position)
        invariant forall i :: 0 <= i < |items| ==> items[i].progressValue == old(items[i].progressValue)
      {
        items[index].isSelected := index == position;
        index := index + 1;
      }
    }

    /** The click listener of the row at `position`: first `selectItem`, then
        the callback receives that row's tool, already marked selected and
        the only one so marked. */
    method OnClick(position: int) returns (tool: AdjustmentTool)
      requires Distinct(items)
      requires 0 <= position < ItemCount()
      modifies items
      ensures tool == items[position] && tool.isSelected
      ensures Flags() == Selection(|items|, position)
      ensures CountSelected(Flags()) == 1
      ensures forall i :: 0 <= i < |items| && i != position ==> !items[i].isSelected
    {
      var item := items[position];
      SelectItem(position);
      SelectionCount(|items|, position);
      tool := item;
    }
  }

  /** The app's list built from the `tools` table can be handed to the
      adapter, and a click at any of its ten positions selects that tool. */
  method ClickOnTable(position: int) returns (tool: AdjustmentTool)
    requires 0 <= position < 10
    ensures tool.name == ToolNames[position] && tool.isSelected
  {
    var ts := NewTools();
    var adapter := new AdjustmentAdapter(ts);
    tool := adapter.OnClick(position);
  }
}
