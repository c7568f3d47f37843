/** The difficulty selector of the exercise screen: a row of buttons, each
    carrying a value (`data-val`) and a selected flag (`data-selected`). The
    flags are an array indexed like the buttons in document order. */
module Difficulty {
  import opened Common

  /** Every flag cleared. */
  function NoneSelected(n: nat): seq<bool> {
    seq(n, _ => false)
  }

  /** Only the flag of button `k` set. */
  function OnlySelected(n: nat, k: nat): seq<bool> {
    seq(n, i => i == k)
  }

  /** How many buttons are selected. */
  function NumSelected(flags: seq<bool>): nat {
    if flags == [] then 0
    else NumSelected(flags[..|flags| - 1]) + (if flags[|flags| - 1] then 1 else 0)
  }

  /** The save handler's reading of the row: the value of the first selected
      button in document order, or "OK" when none is selected. */
  function SelectedValue(values: seq<string>, flags: seq<bool>): (r: string)
    requires |flags| == |values|
    ensures (forall i | 0 <= i < |flags| :: !flags[i]) ==> r == "OK"
    ensures forall i | 0 <= i < |flags| && flags[i] && (forall j | 0 <= j < i :: !flags[j]) ::
      r == values[i]
  {
    match FirstIndexOf(flags, true)
    case None => "OK"
    case Some(i) =>
      assert forall j | 0 <= j < i :: flags[j] in flags[..i];
      values[i]
  }

  /** The flags after the exercise screen opens with the saved difficulty `d`
      of the latest log: all cleared, then, when `d` is not empty (an empty
      string is falsy), the first button whose value is `d`. */
  function Preselected(values: seq<string>, d: string): seq<bool> {
    if d == "" then NoneSelected(|values|)
    else match FirstIndexOf(values, d)
      case None => NoneSelected(|values|)
      case Some(k) => OnlySelected(|values|, k)
  }

  lemma {:induction false} NoneSelectedCount(n: nat)
    ensures NumSelected(NoneSelected(n)) == 0
  {
    if n > 0 {
      assert NoneSelected(n)[..n - 1] == NoneSelected(n - 1);
      NoneSelectedCount(n - 1);
    }
  }

  /** After a click exactly one button is selected. */
  lemma {:induction false} ClickLeavesOneSelected(n: nat, k: nat)
    requires k < n
    ensures NumSelected(OnlySelected(n, k)) == 1
  {
    var init := OnlySelected(n, k)[..n - 1];
    if k == n - 1 {
      assert init == NoneSelected(n - 1);
      NoneSelectedCount(n - 1);
    } else {
      assert init == OnlySelected(n - 1, k);
      ClickLeavesOneSelected(n - 1, k);
    }
  }

  /** After a click on button `k`, saving reads that button's value. */
  lemma ClickReadsBack(values: seq<string>, k: nat)
    requires k < |values|
    ensures SelectedValue(values, OnlySelected(|values|, k)) == values[k]
  {
    var flags := OnlySelected(|values|, k);
    assert flags[k];
    assert forall j | 0 <= j < k :: !flags[j];
  }

  /** With nothing selected, saving reads "OK". */
  lemma NothingSelectedReadsOK(values: seq<string>)
    ensures SelectedValue(values, NoneSelected(|values|)) == "OK"
  {
    assert forall i | 0 <= i < |values| :: !NoneSelected(|values|)[i];
  }

  /** Opening an exercise proposes the difficulty saved last time: saving
      again without touching the row reads back that difficulty when some
      button carries it, and "OK" otherwise. */
  lemma PreselectReadsBack(values: seq<string>, d: string)
    ensures SelectedValue(values, Preselected(values, d)) == if d != "" && d in values then d else "OK"
  {
    if d == "" || d !in values {
      NothingSelectedReadsOK(values);
    } else {
      var k := FirstIndexOf(values, d).value;
      ClickReadsBack(values, k);
    }
  }

  class DifficultyRow {
    /** The buttons' `data-val`, in document order. */
    const values: seq<string>
    /** The buttons' `data-selected` flags. */
    const selected: array<bool>

    ghost predicate Valid() {
      selected.Length == |values|
    }

    /** The buttons as the page declares them, none selected. */
    constructor (values: seq<string>)
      ensures Valid() && this.values == values
      ensures fresh(selected) && selected[..] == NoneSelected(|values|)
    {
      this.values := values;
      selected := new bool[|values|](_ => false);
    }

    /** `$$(".diff-btn").forEach(b => b.dataset.selected = "false")`. */
    method ClearAll()
      requires Valid()
      modifies selected
      ensures selected[..] == NoneSelected(|values|)
    {
      var i := 0;
      while i < selected.Length
        invariant 0 <= i <= selected.Length
        invariant forall j | 0 <= j < i :: !selected[j]
      {
        selected[i] := false;
        i := i + 1;
      }
      assert selected[..] == NoneSelected(|values|);
    }

    /** The row's click handler. `target` is the button the click landed in
        (`closest(".diff-btn")`), None when it landed outside every button,
        which changes nothing. */
    method Click(target: Option<nat>)
      requires Valid()
      requires target.Some? ==> target.value < |values|
      modifies selected
      ensures target.None? ==> selected[..] == old(selected[..])
      ensures target.Some? ==> selected[..] == OnlySelected(|values|, target.value)
    {
      if target.None? {
        return;
      }
      ClearAll();
      selected[target.value] := true;
      assert selected[..] == OnlySelected(|values|, target.value);
    }

    /** `$(".diff-btn[data-val=...]")` followed by `if (btn) btn.dataset.selected = "true"`:
        the first button carrying `v` is selected, the others keep their flags. */
    method SelectValue(v: string)
      requires Valid()
      modifies selected
      ensures match FirstIndexOf(values, v)
        case None => selected[..] == old(selected[..])
        case Some(k) => selected[..] == old(selected[..])[k := true]
    {
      var k := FirstIndexOf(values, v);
      if k.Some? {
        selected[k.value] := true;
      }
    }

    /** The difficulty part of `openExercise`: clear the row, then select the
        saved difficulty `d` of the latest log when it is not empty. */
    method Preselect(d: string)
      requires Valid()
      modifies selected
      ensures selected[..] == Preselected(values, d)
    {
      ClearAll();
      if d != "" {
        SelectValue(d);
        match FirstIndexOf(values, d)
        case None =>
        case Some(k) =>
          assert selected[..] == OnlySelected(|values|, k);
      }
    }

    /** `$$(".diff-btn").find(b => b.dataset.selected === "true")`, then its
        value or "OK". */
    method Read() returns (d: string)
      requires Valid()
      ensures d == SelectedValue(values, selected[..])
    {
      var i := 0;
      while i < selected.Length
        invariant 0 <= i <= selected.Length
        invariant forall j | 0 <= j < i :: !selected[j]
      {
        if selected[i] {
          return values[i];
        }
        i := i + 1;
      }
      return "OK";
    }
  }
}
