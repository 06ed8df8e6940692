/*
 * The multi-select dropdowns of the logs and dashboard filters. A
 * selection is a list of option values in which the empty list means
 * "everything"; the dropdown renders a checkbox per option, and a change
 * stores the checked values, normalising "all checked" back to the empty
 * list.
 */
module MultiSelect {
  import opened JsValues

  /** The checkbox states rendered for a stored selection: every box when
      the selection is empty, otherwise the boxes of the selected values. */
  function Rendered(options: seq<string>, selected: seq<string>): (flags: seq<bool>)
    ensures |flags| == |options|
    ensures forall i :: 0 <= i < |options| ==> (flags[i] <==> selected == [] || options[i] in selected)
  {
    seq(|options|, i requires 0 <= i < |options| => selected == [] || options[i] in selected)
  }

  predicate AllChecked(flags: seq<bool>) {
    forall i :: 0 <= i < |flags| ==> flags[i]
  }

  /** The values of the checked boxes, in option order. */
  function Checked(options: seq<string>, flags: seq<bool>): (r: seq<string>)
    requires |flags| == |options|
    ensures |r| <= |options|
    ensures |r| == |options| <==> AllChecked(flags)
    ensures forall x :: x in r <==> exists i :: 0 <= i < |options| && flags[i] && options[i] == x
    ensures r == [] <==> forall i :: 0 <= i < |options| ==> !flags[i]
    decreases |options|
  {
    if options == [] then []
    else
      var rest := Checked(options[1..], flags[1..]);
      assert forall i :: 1 <= i < |options| ==> flags[i] == flags[1..][i - 1] && options[i] == options[1..][i - 1];
      if flags[0] then [options[0]] + rest else rest
  }

  /** The selection a change handler stores: `[]` when every box is
      checked, the checked values otherwise. */
  function Normalise(options: seq<string>, flags: seq<bool>): (r: seq<string>)
    requires |flags| == |options|
    ensures AllChecked(flags) ==> r == []
    ensures !AllChecked(flags) ==> r == Checked(options, flags)
  {
    var checked := Checked(options, flags);
    if |checked| == |options| then [] else checked
  }

  /** The dropdown button's text. */
  function ButtonLabel(options: seq<string>, flags: seq<bool>, defaultLabel: string, getLabel: string -> string): (r: string)
    requires |flags| == |options|
    ensures |Checked(options, flags)| == 0 || AllChecked(flags) ==> r == defaultLabel
    ensures |Checked(options, flags)| == 1 && !AllChecked(flags) ==> r == getLabel(Checked(options, flags)[0])
    ensures |Checked(options, flags)| > 1 && !AllChecked(flags) ==> r == NatToString(|Checked(options, flags)|) + " sel."
  {
    var checked := Checked(options, flags);
    if |checked| == 0 || |checked| == |options| then defaultLabel
    else if |checked| == 1 then getLabel(checked[0])
    else NatToString(|checked|) + " sel."
  }

  predicate Distinct(s: seq<string>) {
    forall i, j :: 0 <= i < j < |s| ==> s[i] != s[j]
  }

  /** With distinct options, a stored selection that came from a change
      renders back to the boxes that produced it, except that "nothing
      checked" and "everything checked" both render as everything checked. */
  lemma {:induction false} RenderedAfterChange(options: seq<string>, flags: seq<bool>)
    requires |flags| == |options| && Distinct(options)
    requires exists i :: 0 <= i < |flags| && flags[i]
    ensures Rendered(options, Normalise(options, flags)) == flags
  {
    var n := Normalise(options, flags);
    var back := Rendered(options, n);
    if AllChecked(flags) {
      assert n == [];
    } else {
      var c := Checked(options, flags);
      var k :| 0 <= k < |flags| && flags[k];
      assert options[k] in c;
      forall i | 0 <= i < |options| ensures back[i] == flags[i] {
        if options[i] in c {
          var j :| 0 <= j < |options| && flags[j] && options[j] == options[i];
          assert i == j;
        }
      }
    }
  }

  /** Submitting the boxes of a stored selection without touching them
      stores the same selection again: the stored state is a fixed point. */
  lemma {:induction false} ChangeIsIdempotent(options: seq<string>, flags: seq<bool>)
    requires |flags| == |options| && Distinct(options)
    ensures Normalise(options, Rendered(options, Normalise(options, flags))) == Normalise(options, flags)
  {
    if exists i :: 0 <= i < |flags| && flags[i] {
      RenderedAfterChange(options, flags);
    } else if options != [] {
      var n := Normalise(options, flags);
      assert Checked(options, flags) == [];
      assert !AllChecked(flags) by { assert !flags[0]; }
      assert n == [];
      assert AllChecked(Rendered(options, n));
    }
  }
}
