/**
 * The multi-select list of server names shared by the proper-BDIX page
 * and the comparison panel: toggle one name, select all, clear.
 */
module Selection {

  predicate NoDuplicates(s: seq<string>) {
    forall i, j :: 0 <= i < j < |s| ==> s[i] != s[j]
  }

  /** `prev.filter(name => name !== serverName)`. */
  function Remove(sel: seq<string>, name: string): (r: seq<string>)
    ensures forall x :: x in r <==> x in sel && x != name
    ensures |r| <= |sel|
    ensures name !in sel ==> r == sel
  {
    if |sel| == 0 then []
    else if sel[0] == name then Remove(sel[1..], name)
    else [sel[0]] + Remove(sel[1..], name)
  }

  /** `toggleServerSelection`: drop the name when selected, append it otherwise. */
  function Toggle(sel: seq<string>, name: string): (r: seq<string>)
    ensures name in r <==> name !in sel
    ensures forall x :: x != name ==> (x in r <==> x in sel)
  {
    if name in sel then Remove(sel, name) else sel + [name]
  }

  /** Removing keeps the list free of duplicates. */
  lemma {:induction false} RemoveKeepsNoDuplicates(sel: seq<string>, name: string)
    requires NoDuplicates(sel)
    ensures NoDuplicates(Remove(sel, name))
  {
    if |sel| > 0 {
      assert NoDuplicates(sel[1..]) by {
        forall i, j | 0 <= i < j < |sel[1..]| ensures sel[1..][i] != sel[1..][j] {
          assert sel[1..][i] == sel[i + 1] && sel[1..][j] == sel[j + 1];
        }
      }
      RemoveKeepsNoDuplicates(sel[1..], name);
      if sel[0] != name {
        var rest := Remove(sel[1..], name);
        forall i, j | 0 <= i < j < |[sel[0]] + rest| ensures ([sel[0]] + rest)[i] != ([sel[0]] + rest)[j] {
          if i == 0 {
            assert ([sel[0]] + rest)[j] == rest[j - 1];
            assert rest[j - 1] in rest;
            assert sel[0] !in sel[1..];
          }
        }
      }
    }
  }

  /** Toggling keeps the selection free of duplicates, so its length is the number of selected servers. */
  lemma ToggleKeepsNoDuplicates(sel: seq<string>, name: string)
    requires NoDuplicates(sel)
    ensures NoDuplicates(Toggle(sel, name))
  {
    if name in sel {
      RemoveKeepsNoDuplicates(sel, name);
    }
  }

  /** Selecting an unselected server and toggling it again restores the selection exactly. */
  lemma ToggleTwice(sel: seq<string>, name: string)
    requires name !in sel
    ensures Toggle(Toggle(sel, name), name) == sel
  {
    RemoveAppended(sel, name);
  }

  lemma {:induction false} RemoveAppended(sel: seq<string>, name: string)
    requires name !in sel
    ensures Remove(sel + [name], name) == sel
  {
    if |sel| == 0 {
      assert Remove([name], name) == Remove([], name);
    } else {
      assert (sel + [name])[1..] == sel[1..] + [name];
      RemoveAppended(sel[1..], name);
    }
  }

  /** `selectAllServers`: every catalogue name, in catalogue order. */
  function SelectAll(names: seq<string>): (r: seq<string>)
    ensures forall x :: x in r <==> x in names
  {
    names
  }

  /** `clearSelection`. */
  function Clear(): (r: seq<string>)
    ensures forall x :: x !in r
  {
    []
  }
}
