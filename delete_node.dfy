/**
 * The delete-node dialog (`DeleteNodeWidgets`).
 *
 * The dialog owns a fixed pool of five name rows, each an editable combo box.
 * A counter says how many of them (a prefix of the pool) are shown; `+` and `-`
 * move it, `updateUI` pre-fills rows from the names selected on the canvas, and
 * `accept` collects the non-blank names of the shown rows. Combo boxes are
 * modelled by their current text and their suggestion list, the row widgets by a
 * visibility flag, the two buttons by their enabled flags.
 */
module DeleteNode {
  import opened Wrappers

  /** `_MAX_REMOVE_NODE_NAMES_COUNT`: the size of the pool of name rows. */
  const MaxRows: nat := 5

  /** The one error line `accept` reports. */
  const NotSetMessage: string := "- remove_node_names is not set."

  function Min(a: int, b: int): int { if a <= b then a else b }

  function Max(a: int, b: int): int { if a <= b then b else a }

  // ---------------------------------------------------------------------------
  // The row counter, the rows it shows and the buttons it enables
  // ---------------------------------------------------------------------------

  /** The counter after `+`: `min(max(0, count + 1), 5)`. */
  function AddCount(count: int): (r: int)
    ensures 0 <= r <= MaxRows
    ensures -1 <= count < MaxRows ==> r == count + 1
    ensures MaxRows <= count ==> r == MaxRows
  {
    Min(Max(0, count + 1), MaxRows)
  }

  /** The counter after `-`: `min(max(0, count - 1), 5)`. */
  function DelCount(count: int): (r: int)
    ensures 0 <= r <= MaxRows
    ensures 1 <= count <= MaxRows + 1 ==> r == count - 1
    ensures count <= 1 ==> r == 0
  {
    Min(Max(0, count - 1), MaxRows)
  }

  /** The counter after `n` clicks on `+`. */
  function AddClicks(count: int, n: nat): int
    decreases n
  {
    if n == 0 then count else AddClicks(AddCount(count), n - 1)
  }

  /** The counter after `n` clicks on `-`. */
  function DelClicks(count: int, n: nat): int
    decreases n
  {
    if n == 0 then count else DelClicks(DelCount(count), n - 1)
  }

  /** Repeated `+` climbs one row per click and then stays at the cap. */
  lemma {:induction false} AddClicksSaturate(count: int, n: nat)
    requires 0 <= count <= MaxRows
    ensures AddClicks(count, n) == Min(count + n, MaxRows)
    decreases n
  {
    if n > 0 {
      AddClicksSaturate(AddCount(count), n - 1);
    }
  }

  /** Repeated `-` drops one row per click and then stays at 0. */
  lemma {:induction false} DelClicksFloor(count: int, n: nat)
    requires 0 <= count <= MaxRows
    ensures DelClicks(count, n) == Max(count - n, 0)
    decreases n
  {
    if n > 0 {
      DelClicksFloor(DelCount(count), n - 1);
    }
  }

  /** The enabled flags of the `+` and `-` buttons. */
  datatype Buttons = Buttons(addEnabled: bool, delEnabled: bool)

  /** The button states `set_visible` derives from the counter. */
  function ButtonStates(count: int): (b: Buttons)
    ensures b.addEnabled <==> count < MaxRows
    ensures b.delEnabled <==> count != 1
  {
    if count == 1 then Buttons(true, false)
    else if count >= MaxRows then Buttons(false, true)
    else Buttons(true, true)
  }

  /** The visibility `set_visible` gives each row of the pool. */
  function VisibleRows(count: int): (v: seq<bool>)
    ensures |v| == MaxRows
    ensures forall k :: 0 <= k < MaxRows ==> (v[k] <==> k < count)
  {
    seq(MaxRows, k => k < count)
  }

  /** The shown rows are always a prefix of the pool: `c` shown rows, then hidden ones. */
  lemma VisibleRowsArePrefix(count: int)
    ensures var c := Min(Max(count, 0), MaxRows);
      VisibleRows(count) == seq(c, _ => true) + seq(MaxRows - c, _ => false)
  {
    var c := Min(Max(count, 0), MaxRows);
    var p := seq(c, _ => true) + seq(MaxRows - c, _ => false);
    assert forall k :: 0 <= k < MaxRows ==> VisibleRows(count)[k] == p[k];
  }

  /** Starting from one shown row, four `+` clicks reach the cap and disable `+`;
      four `-` clicks from the cap come back to one row and disable `-`. */
  lemma GrowThenShrink()
    ensures AddClicks(1, 4) == MaxRows && !ButtonStates(AddClicks(1, 4)).addEnabled
    ensures AddClicks(1, 10) == MaxRows
    ensures DelClicks(MaxRows, 4) == 1 && !ButtonStates(DelClicks(MaxRows, 4)).delEnabled
  {
    AddClicksSaturate(1, 4);
    AddClicksSaturate(1, 10);
    DelClicksFloor(MaxRows, 4);
  }

  /** Clicking only enabled buttons keeps the counter between 1 and 5. */
  lemma EnabledClicksKeepARow(count: int)
    requires 1 <= count <= MaxRows
    ensures ButtonStates(count).addEnabled ==> 1 <= AddCount(count) <= MaxRows
    ensures ButtonStates(count).delEnabled ==> 1 <= DelCount(count) <= MaxRows
  {
  }

  // ---------------------------------------------------------------------------
  // Python's str.strip and the names get_properties collects
  // ---------------------------------------------------------------------------

  /** Python's `str.isspace` for one character: the code points `str.strip()` removes. */
  predicate IsSpace(c: char)
  {
    var n := c as int;
    (9 <= n <= 13) || (28 <= n <= 32) || n == 0x85 || n == 0xA0 || n == 0x1680
    || (0x2000 <= n <= 0x200A) || n == 0x2028 || n == 0x2029 || n == 0x202F
    || n == 0x205F || n == 0x3000
  }

  /** `s` without its leading whitespace. */
  function TrimStart(s: string): string
  {
    if s != [] && IsSpace(s[0]) then TrimStart(s[1..]) else s
  }

  /** `s` without its trailing whitespace. */
  function TrimEnd(s: string): string
  {
    if s != [] && IsSpace(s[|s| - 1]) then TrimEnd(s[..|s| - 1]) else s
  }

  /** Python's `str.strip(s)`. */
  function Strip(s: string): string
  {
    TrimEnd(TrimStart(s))
  }

  /** Trimming the front leaves a suffix, removes only whitespace, and stops at a
      character that is not whitespace. */
  lemma {:induction false} TrimStartSpec(s: string)
    ensures var r := TrimStart(s);
      |r| <= |s| && r == s[|s| - |r|..]
      && (forall i :: 0 <= i < |s| - |r| ==> IsSpace(s[i]))
      && (r != [] ==> !IsSpace(r[0]))
  {
    if s != [] && IsSpace(s[0]) {
      TrimStartSpec(s[1..]);
      var r := TrimStart(s);
      forall i | 0 < i < |s| - |r| ensures IsSpace(s[i]) {
        assert s[i] == s[1..][i - 1];
      }
    }
  }

  /** Trimming the back leaves a prefix, removes only whitespace, and stops at a
      character that is not whitespace. */
  lemma {:induction false} TrimEndSpec(s: string)
    ensures var r := TrimEnd(s);
      |r| <= |s| && r == s[..|r|]
      && (forall i :: |r| <= i < |s| ==> IsSpace(s[i]))
      && (r != [] ==> !IsSpace(r[|r| - 1]))
  {
    if s != [] && IsSpace(s[|s| - 1]) {
      TrimEndSpec(s[..|s| - 1]);
      var r := TrimEnd(s);
      forall i | |r| <= i < |s| - 1 ensures IsSpace(s[i]) {
        assert s[i] == s[..|s| - 1][i];
      }
    }
  }

  /** A stripped text is empty exactly when the text is all whitespace. */
  lemma StripEmptyIff(s: string)
    ensures Strip(s) == [] <==> forall i :: 0 <= i < |s| ==> IsSpace(s[i])
  {
    var t := TrimStart(s);
    TrimStartSpec(s);
    TrimEndSpec(t);
    assert t != [] ==> Strip(s) != [] by {
      if t != [] {
        assert !IsSpace(t[0]);
      }
    }
    if Strip(s) == [] {
      forall i | 0 <= i < |s| ensures IsSpace(s[i]) {
        if i >= |s| - |t| {
          assert false;
        }
      }
    }
  }

  /** The names `get_properties` collects from the given rows: the rows whose
      stripped text is non-empty, untrimmed, in row order. */
  function Collect(rows: seq<string>): (names: seq<string>)
    ensures |names| <= |rows|
  {
    if rows == [] then []
    else
      var last := rows[|rows| - 1];
      Collect(rows[..|rows| - 1]) + (if Strip(last) != [] then [last] else [])
  }

  /** Nothing is collected exactly when every row is blank. */
  lemma {:induction false} CollectEmptyIff(rows: seq<string>)
    ensures Collect(rows) == [] <==> forall i :: 0 <= i < |rows| ==> Strip(rows[i]) == []
  {
    if rows != [] {
      var front := rows[..|rows| - 1];
      CollectEmptyIff(front);
      if Collect(rows) == [] {
        forall i | 0 <= i < |rows| ensures Strip(rows[i]) == [] {
          if i < |front| { assert rows[i] == front[i]; }
        }
      } else if Collect(front) != [] {
        var i :| 0 <= i < |front| && Strip(front[i]) != [];
        assert rows[i] == front[i];
      }
    }
  }

  /** Reading one more row. */
  lemma CollectStep(rows: seq<string>, i: nat)
    requires i < |rows|
    ensures Collect(rows[..i + 1])
            == Collect(rows[..i]) + (if Strip(rows[i]) != [] then [rows[i]] else [])
  {
    assert rows[..i + 1][..i] == rows[..i];
  }

  /** Only non-blank row texts are collected, and they are collected untrimmed. */
  lemma {:induction false} CollectSound(rows: seq<string>)
    ensures forall x :: x in Collect(rows) ==> x in rows && Strip(x) != []
  {
    if rows != [] {
      var last := rows[|rows| - 1];
      assert rows == rows[..|rows| - 1] + [last];
      CollectSound(rows[..|rows| - 1]);
    }
  }

  /** Every non-blank row text is collected as often as it occurs: duplicates are kept. */
  lemma {:induction false} CollectKeepsDuplicates(rows: seq<string>, x: string)
    requires Strip(x) != []
    ensures multiset(Collect(rows))[x] == multiset(rows)[x]
  {
    if rows != [] {
      var last := rows[|rows| - 1];
      assert rows == rows[..|rows| - 1] + [last];
      CollectKeepsDuplicates(rows[..|rows| - 1], x);
    }
  }

  /** Collecting keeps row order: the names of `a + b` are those of `a`, then those of `b`. */
  lemma {:induction false} CollectAppend(a: seq<string>, b: seq<string>)
    ensures Collect(a + b) == Collect(a) + Collect(b)
  {
    if b != [] {
      var last := b[|b| - 1];
      assert (a + b)[..|a + b| - 1] == a + b[..|b| - 1];
      CollectAppend(a, b[..|b| - 1]);
    } else {
      assert a + b == a;
    }
  }

  /** One row is collected exactly when its stripped text is non-empty. */
  lemma CollectOne(row: string)
    ensures Collect([row]) == if Strip(row) != [] then [row] else []
  {
    assert [row][..0] == [];
  }

  /** Rows holding a name, a blank and the same name again give that name twice:
      blank rows are dropped, duplicates and order kept. */
  lemma CollectDropsBlankKeepsDuplicates(x: string, blank: string)
    requires Strip(x) != [] && Strip(blank) == []
    ensures Collect([x, blank, x]) == [x, x]
  {
    var rows := [x, blank, x];
    assert rows[..2] == [x, blank] && [x, blank][..1] == [x] && [x][..0] == [];
    assert Collect([x]) == [x];
    assert Collect([x, blank]) == [x];
    assert Collect(rows) == Collect([x, blank]) + [x];
  }

  // ---------------------------------------------------------------------------
  // The pre-fill loop of updateUI
  // ---------------------------------------------------------------------------

  /** The names of `s` that are nodes of the graph, in order. */
  function Present(graphNames: seq<string>, s: seq<string>): (r: seq<string>)
    ensures |r| <= |s|
  {
    if s == [] then []
    else
      var last := s[|s| - 1];
      Present(graphNames, s[..|s| - 1]) + (if last in graphNames then [last] else [])
  }

  /** A name is dropped exactly when it is missing from the graph: all of `s` is
      kept when every name exists, and keeping as many names as `s` has means
      every name exists. */
  lemma {:induction false} PresentAll(graphNames: seq<string>, s: seq<string>)
    ensures (forall i :: 0 <= i < |s| ==> s[i] in graphNames) ==> Present(graphNames, s) == s
    ensures |Present(graphNames, s)| == |s| ==> forall i :: 0 <= i < |s| ==> s[i] in graphNames
  {
    if s != [] {
      var front := s[..|s| - 1];
      var last := s[|s| - 1];
      PresentAll(graphNames, front);
      assert s == front + [last];
      if forall i :: 0 <= i < |s| ==> s[i] in graphNames {
        forall i | 0 <= i < |front| ensures front[i] in graphNames {
          assert front[i] == s[i];
        }
      }
      if |Present(graphNames, s)| == |s| {
        assert |Present(graphNames, front)| <= |front|;
        assert last in graphNames && |Present(graphNames, front)| == |front|;
        forall i | 0 <= i < |s| ensures s[i] in graphNames {
          if i < |front| { assert s[i] == front[i]; }
        }
      }
    }
  }

  /** Every selected name the graph has is pre-filled: nothing is dropped but
      names missing from the graph. */
  lemma {:induction false} PresentComplete(graphNames: seq<string>, s: seq<string>, x: string)
    requires x in s && x in graphNames
    ensures x in Present(graphNames, s)
  {
    var front := s[..|s| - 1];
    assert s == front + [s[|s| - 1]];
    if x != s[|s| - 1] {
      PresentComplete(graphNames, front, x);
    }
  }

  /** Only names of the graph are pre-filled, each taken from the selection. */
  lemma {:induction false} PresentSound(graphNames: seq<string>, s: seq<string>)
    ensures forall x :: x in Present(graphNames, s) ==> x in s && x in graphNames
  {
    if s != [] {
      assert s == s[..|s| - 1] + [s[|s| - 1]];
      PresentSound(graphNames, s[..|s| - 1]);
    }
  }

  /** The first `MaxRows` entries of `s`: all the loop ever looks at. */
  function Take(s: seq<string>): (r: seq<string>)
    ensures |r| == Min(|s|, MaxRows) && r == s[..|r|]
  {
    s[..Min(|s|, MaxRows)]
  }

  /** The pre-fill loop run from position `index`, `filled` being the names
      written so far. With `guardOnIndex` false the loop stops when
      `len(selected) < visible_count + 1`, as written; with it true it stops when
      `len(selected) < index + 1`. `None`: the loop read `selected[index]` past
      the end of the list, which raises an IndexError. */
  function PrefillScan(graphNames: seq<string>, selected: seq<string>, index: nat,
                       filled: seq<string>, guardOnIndex: bool): Option<seq<string>>
    decreases MaxRows - index
  {
    if index >= MaxRows then Some(filled)
    else if |selected| < (if guardOnIndex then index else |filled|) + 1 then Some(filled)
    else if index >= |selected| then None
    else
      var node := selected[index];
      PrefillScan(graphNames, selected, index + 1,
                  if node in graphNames then filled + [node] else filled, guardOnIndex)
  }

  /** The pre-fill loop as written. */
  function PrefillAsWritten(graphNames: seq<string>, selected: seq<string>): Option<seq<string>>
  {
    PrefillScan(graphNames, selected, 0, [], false)
  }

  /** The pre-fill loop with its guard testing the index it reads. */
  function PrefillCorrected(graphNames: seq<string>, selected: seq<string>): Option<seq<string>>
  {
    PrefillScan(graphNames, selected, 0, [], true)
  }

  /** When the loop as written reads past the end of the selection. */
  predicate PrefillIndexError(graphNames: seq<string>, selected: seq<string>)
  {
    |selected| < MaxRows && exists i :: 0 <= i < |selected| && selected[i] !in graphNames
  }

  lemma {:induction false} AsWrittenFrom(graphNames: seq<string>, selected: seq<string>, index: nat)
    requires index <= MaxRows && index <= |selected|
    ensures PrefillScan(graphNames, selected, index, Present(graphNames, selected[..index]), false)
         == if PrefillIndexError(graphNames, selected) then None
            else Some(Present(graphNames, Take(selected)))
    decreases MaxRows - index
  {
    var filled := Present(graphNames, selected[..index]);
    var scan := PrefillScan(graphNames, selected, index, filled, false);
    if index == MaxRows {
      assert scan == Some(filled);
      assert Take(selected) == selected[..index];
      assert !PrefillIndexError(graphNames, selected);
    } else if |selected| < |filled| + 1 {
      assert scan == Some(filled);
      assert index == |selected| && selected[..index] == selected;
      assert Take(selected) == selected;
      PresentAll(graphNames, selected);
      assert !PrefillIndexError(graphNames, selected);
    } else if index >= |selected| {
      assert scan == None;
      assert selected[..index] == selected;
      PresentAll(graphNames, selected);
      assert filled != selected;
      assert PrefillIndexError(graphNames, selected);
    } else {
      var node := selected[index];
      var next := if node in graphNames then filled + [node] else filled;
      assert scan == PrefillScan(graphNames, selected, index + 1, next, false);
      assert selected[..index + 1][..index] == selected[..index];
      assert Present(graphNames, selected[..index + 1]) == next;
      AsWrittenFrom(graphNames, selected, index + 1);
    }
  }

  lemma {:induction false} CorrectedFrom(graphNames: seq<string>, selected: seq<string>, index: nat)
    requires index <= MaxRows && index <= |selected|
    ensures PrefillScan(graphNames, selected, index, Present(graphNames, selected[..index]), true)
         == Some(Present(graphNames, Take(selected)))
    decreases MaxRows - index
  {
    var filled := Present(graphNames, selected[..index]);
    var scan := PrefillScan(graphNames, selected, index, filled, true);
    if index == MaxRows {
      assert scan == Some(filled);
      assert Take(selected) == selected[..index];
    } else if |selected| < index + 1 {
      assert scan == Some(filled);
      assert selected[..index] == selected == Take(selected);
    } else {
      var node := selected[index];
      var next := if node in graphNames then filled + [node] else filled;
      assert scan == PrefillScan(graphNames, selected, index + 1, next, true);
      assert selected[..index + 1][..index] == selected[..index];
      assert Present(graphNames, selected[..index + 1]) == next;
      CorrectedFrom(graphNames, selected, index + 1);
    }
  }

  /** The loop as written raises exactly when fewer than five names are selected
      and one of them is not in the graph; otherwise it fills the graph's names
      among the first five selected, in order. */
  lemma PrefillAsWrittenExact(graphNames: seq<string>, selected: seq<string>)
    ensures PrefillAsWritten(graphNames, selected)
         == if PrefillIndexError(graphNames, selected) then None
            else Some(Present(graphNames, Take(selected)))
  {
    assert selected[..0] == [];
    AsWrittenFrom(graphNames, selected, 0);
  }

  /** The loop guarded by its index never raises and fills the graph's names among
      the first five selected, in order; at most five, so a row exists for each. */
  lemma PrefillCorrectedExact(graphNames: seq<string>, selected: seq<string>)
    ensures PrefillCorrected(graphNames, selected) == Some(Present(graphNames, Take(selected)))
    ensures |Present(graphNames, Take(selected))| <= MaxRows
  {
    assert selected[..0] == [];
    CorrectedFrom(graphNames, selected, 0);
  }

  /** Wherever the loop as written finishes, it agrees with the corrected one. */
  lemma PrefillAgreeWithoutError(graphNames: seq<string>, selected: seq<string>)
    requires !PrefillIndexError(graphNames, selected)
    ensures PrefillAsWritten(graphNames, selected) == PrefillCorrected(graphNames, selected)
  {
    PrefillAsWrittenExact(graphNames, selected);
    PrefillCorrectedExact(graphNames, selected);
  }

  /** One selected name missing from the graph is enough: the loop as written
      raises while the corrected one pre-fills nothing. */
  lemma PrefillAsWrittenRaises()
    ensures PrefillAsWritten(["A"], ["B"]) == None
    ensures PrefillCorrected(["A"], ["B"]) == Some([])
  {
    PrefillAsWrittenExact(["A"], ["B"]);
    assert ["B"][0] !in ["A"];
    PrefillCorrectedExact(["A"], ["B"]);
    assert Take(["B"]) == ["B"];
    assert ["B"][..0] == [];
  }

  /** The five rows after pre-filling: the pre-filled names, then empty text. */
  function PadRows(filled: seq<string>): (rows: seq<string>)
    requires |filled| <= MaxRows
    ensures |rows| == MaxRows && rows[..|filled|] == filled
    ensures forall k :: |filled| <= k < MaxRows ==> rows[k] == ""
  {
    filled + seq(MaxRows - |filled|, _ => "")
  }

  /** Writing the next name into the first empty row extends the filled prefix. */
  lemma PadRowsStep(filled: seq<string>, x: string)
    requires |filled| < MaxRows
    ensures PadRows(filled)[|filled| := x] == PadRows(filled + [x])
  {
    var a := PadRows(filled)[|filled| := x];
    var b := PadRows(filled + [x]);
    forall k | 0 <= k < MaxRows ensures a[k] == b[k] {
      if k < |filled| {
        assert a[k] == PadRows(filled)[..|filled|][k];
        assert b[k] == b[..|filled| + 1][k];
      } else if k == |filled| {
        assert b[k] == b[..|filled| + 1][k];
      }
    }
  }

  /** One iteration of the loop as written that neither stops nor raises. */
  lemma ScanStep(graphNames: seq<string>, selected: seq<string>, index: nat, filled: seq<string>)
    requires index < MaxRows && |filled| + 1 <= |selected| && index < |selected|
    ensures PrefillScan(graphNames, selected, index, filled, false)
         == PrefillScan(graphNames, selected, index + 1,
                        if selected[index] in graphNames then filled + [selected[index]] else filled, false)
  {
  }

  /** One more selected name read by the pre-fill loop. */
  lemma PresentStep(graphNames: seq<string>, s: seq<string>, i: nat)
    requires i < |s|
    ensures Present(graphNames, s[..i + 1])
            == Present(graphNames, s[..i]) + (if s[i] in graphNames then [s[i]] else [])
  {
    assert s[..i + 1][..i] == s[..i];
  }

  // ---------------------------------------------------------------------------
  // The dialog
  // ---------------------------------------------------------------------------

  /** The graph the dialog offers names from: its node names, in the order of
      `graph.nodes`. */
  datatype Graph = Graph(nodeNames: seq<string>)

  /** Whether the modal dialog is still open, or how it was closed; `NotBuilt`
      when `__init__` raised, so that no dialog reaches the caller. */
  datatype DialogState = Open | Accepted | Rejected | NotBuilt

  /** `DeleteNodeProperties`: what the dialog hands to its host. */
  datatype DeleteNodeProperties = DeleteNodeProperties(removeNodeNames: seq<string>)

  class DeleteNodeWidgets {
    var graph: Option<Graph>
    var selectedNodes: seq<string>
    /** The current text of each row's combo box. */
    var removeNodeNames: seq<string>
    /** The suggestion list of each row's combo box. */
    var rowItems: seq<seq<string>>
    /** Whether each row is shown. */
    var rowVisible: seq<bool>
    var addEnabled: bool
    var delEnabled: bool
    /** `visible_remove_node_names_count`. */
    var visibleRemoveNodeNamesCount: int
    /** `__init__` raised the IndexError of `updateUI`: in Python no dialog exists. */
    var initRaised: bool
    var state: DialogState
    /** The error dialogs shown so far, each as its list of lines. */
    var errorsShown: seq<seq<string>>

    /** The pool has its five rows and the counter is in range. */
    ghost predicate Shaped()
      reads this
    {
      |removeNodeNames| == MaxRows && |rowItems| == MaxRows && |rowVisible| == MaxRows
      && 0 <= visibleRemoveNodeNamesCount <= MaxRows
    }

    /** ... and what is shown and enabled follows the counter. */
    ghost predicate Valid()
      reads this
    {
      Shaped()
      && rowVisible == VisibleRows(visibleRemoveNodeNamesCount)
      && Buttons(addEnabled, delEnabled) == ButtonStates(visibleRemoveNodeNamesCount)
    }

    /** `__init__` with `initUI`: one shown row, empty rows, then `updateUI`.
        `initRaised` records that `updateUI` raised, so that Python's `__init__`
        raised too and the rows and counter are those left behind at that point. */
    constructor (g: Option<Graph>, selected: seq<string>)
      ensures Valid() && errorsShown == []
      ensures state == if initRaised then NotBuilt else Open
      ensures graph == g && selectedNodes == selected
      ensures initRaised <==> g.Some? && PrefillIndexError(g.value.nodeNames, selected)
      ensures g.None? ==> visibleRemoveNodeNamesCount == 1 && removeNodeNames == PadRows([])
                          && rowItems == seq(MaxRows, _ => [])
      ensures initRaised ==> removeNodeNames == PadRows(Present(g.value.nodeNames, selected))
                             && visibleRemoveNodeNamesCount == 1
      ensures g.Some? && !initRaised ==>
        var filled := Present(g.value.nodeNames, Take(selected));
        removeNodeNames == PadRows(filled)
        && visibleRemoveNodeNamesCount == Min(|filled| + 1, MaxRows)
        && rowItems == seq(MaxRows, _ => g.value.nodeNames)
    {
      graph := g;
      selectedNodes := selected;
      removeNodeNames := PadRows([]);
      rowItems := seq(MaxRows, _ => []);
      rowVisible := seq(MaxRows, _ => true);
      addEnabled, delEnabled := true, true;
      visibleRemoveNodeNamesCount := 1;
      state := Open;
      errorsShown := [];
      initRaised := false;
      new;
      SetVisible();
      initRaised := UpdateUI(g, selected);
      if initRaised {
        state := NotBuilt;
      }
    }

    /** `set_visible`: show row k exactly when k < count, and enable the buttons. */
    method SetVisible()
      requires Shaped() && !initRaised
      modifies this`rowVisible, this`addEnabled, this`delEnabled
      ensures Valid()
    {
      var k := 0;
      while k < MaxRows
        invariant 0 <= k <= MaxRows && |rowVisible| == MaxRows
        invariant forall j :: 0 <= j < k ==> (rowVisible[j] <==> j < visibleRemoveNodeNamesCount)
      {
        rowVisible := rowVisible[k := k < visibleRemoveNodeNamesCount];
        k := k + 1;
      }
      assert rowVisible == VisibleRows(visibleRemoveNodeNamesCount);
      if visibleRemoveNodeNamesCount == 1 {
        addEnabled, delEnabled := true, false;
      } else if visibleRemoveNodeNamesCount >= MaxRows {
        addEnabled, delEnabled := false, true;
      } else {
        addEnabled, delEnabled := true, true;
      }
    }

    /** `updateUI`. Without a graph only `set_visible` runs. With one, every row's
        suggestions become the graph's names with no current text, the selected
        names found in the graph are written to rows 0, 1, ... and the counter
        shows one more row than was filled. `raised`: the pre-fill loop read past
        the end of `selected` (IndexError); the rows are then cleared and
        partly filled, and neither the counter nor `set_visible` has run. */
    method UpdateUI(g: Option<Graph>, selected: seq<string>) returns (raised: bool)
      requires Valid() && !initRaised
      modifies this`removeNodeNames, this`rowItems, this`visibleRemoveNodeNamesCount,
               this`rowVisible, this`addEnabled, this`delEnabled
      ensures Valid()
      ensures g.None? ==> !raised && removeNodeNames == old(removeNodeNames)
                          && rowItems == old(rowItems)
                          && visibleRemoveNodeNamesCount == old(visibleRemoveNodeNamesCount)
      ensures g.Some? ==> rowItems == seq(MaxRows, _ => g.value.nodeNames)
      ensures g.Some? ==> (raised <==> PrefillAsWritten(g.value.nodeNames, selected).None?)
      ensures g.Some? ==> (raised <==> PrefillIndexError(g.value.nodeNames, selected))
      ensures g.Some? && !raised ==>
        var filled := Present(g.value.nodeNames, Take(selected));
        Some(filled) == PrefillAsWritten(g.value.nodeNames, selected)
        && removeNodeNames == PadRows(filled)
        && visibleRemoveNodeNamesCount == Min(|filled| + 1, MaxRows)
      ensures raised ==> removeNodeNames == PadRows(Present(g.value.nodeNames, selected))
                         && visibleRemoveNodeNamesCount == old(visibleRemoveNodeNamesCount)
    {
      raised := false;
      if g.Some? {
        var names := g.value.nodeNames;
        PrefillAsWrittenExact(names, selected);
        RefreshRows(names);
        var visibleCount;
        raised, visibleCount := PrefillRows(names, selected);
        if raised {
          return;
        }
        visibleRemoveNodeNamesCount := Min(visibleCount + 1, MaxRows);
      }
      SetVisible();
    }

    /** The first loop of `updateUI`: every row's combo box is cleared, given the
        graph's names as suggestions, and left with no current text. */
    method RefreshRows(names: seq<string>)
      requires Valid() && !initRaised
      modifies this`removeNodeNames, this`rowItems
      ensures Valid()
      ensures rowItems == seq(MaxRows, _ => names) && removeNodeNames == PadRows([])
    {
      var index := 0;
      while index < MaxRows
        invariant 0 <= index <= MaxRows && Valid()
        invariant forall k :: 0 <= k < index ==> rowItems[k] == names && removeNodeNames[k] == ""
      {
        var items: seq<string> := [];
        var j := 0;
        while j < |names|
          invariant 0 <= j <= |names| && items == names[..j]
        {
          items := items + [names[j]];
          j := j + 1;
        }
        rowItems := rowItems[index := items];
        removeNodeNames := removeNodeNames[index := ""];
        index := index + 1;
      }
      assert rowItems == seq(MaxRows, _ => names);
      assert removeNodeNames == PadRows([]);
    }

    /** The pre-fill loop of `updateUI`, as written: its guard tests the number
        of rows filled while it reads `selected[index]`. Returns the number of
        rows filled, or `raised` when the read falls past the end of the list. */
    method PrefillRows(names: seq<string>, selected: seq<string>) returns (raised: bool, visibleCount: int)
      requires Valid() && !initRaised && removeNodeNames == PadRows([])
      modifies this`removeNodeNames
      ensures Valid()
      ensures raised <==> PrefillAsWritten(names, selected).None?
      ensures !raised ==> 0 <= visibleCount <= MaxRows
                          && PrefillAsWritten(names, selected) == Some(removeNodeNames[..visibleCount])
                          && removeNodeNames == PadRows(removeNodeNames[..visibleCount])
      ensures raised ==> removeNodeNames == PadRows(Present(names, selected))
    {
      raised := false;
      ghost var filled: seq<string> := [];
      visibleCount := 0;
      var index := 0;
      assert selected[..0] == [];
      while index < MaxRows
        invariant 0 <= index <= MaxRows && index <= |selected| && Valid()
        invariant visibleCount == |filled| <= index
        invariant filled == Present(names, selected[..index])
        invariant removeNodeNames == PadRows(filled)
        invariant PrefillAsWritten(names, selected) == PrefillScan(names, selected, index, filled, false)
      {
        if |selected| < visibleCount + 1 {
          break;
        }
        if index >= |selected| {
          assert selected[..index] == selected;
          raised := true;
          return;
        }
        var node := selected[index];
        ScanStep(names, selected, index, filled);
        PresentStep(names, selected, index);
        if node in names {
          PadRowsStep(filled, node);
          removeNodeNames := removeNodeNames[visibleCount := node];
          visibleCount := visibleCount + 1;
          filled := filled + [node];
        }
        index := index + 1;
      }
    }

    /** `btn_add_clicked`. */
    method BtnAddClicked()
      requires Valid() && !initRaised
      modifies this`visibleRemoveNodeNamesCount, this`rowVisible, this`addEnabled, this`delEnabled
      ensures Valid()
      ensures visibleRemoveNodeNamesCount == AddCount(old(visibleRemoveNodeNamesCount))
    {
      visibleRemoveNodeNamesCount := AddCount(visibleRemoveNodeNamesCount);
      SetVisible();
    }

    /** `btn_del_clicked`. */
    method BtnDelClicked()
      requires Valid() && !initRaised
      modifies this`visibleRemoveNodeNamesCount, this`rowVisible, this`addEnabled, this`delEnabled
      ensures Valid()
      ensures visibleRemoveNodeNamesCount == DelCount(old(visibleRemoveNodeNamesCount))
    {
      visibleRemoveNodeNamesCount := DelCount(visibleRemoveNodeNamesCount);
      SetVisible();
    }

    /** The user types `text` into the combo box of row `k` (the Qt widget's own
        behaviour, which `get_properties` later reads). */
    method EditRow(k: nat, text: string)
      requires Valid() && !initRaised && k < MaxRows
      modifies this`removeNodeNames
      ensures Valid()
      ensures removeNodeNames == old(removeNodeNames)[k := text]
    {
      removeNodeNames := removeNodeNames[k := text];
    }

    /** `get_properties`: the shown rows whose stripped text is non-empty, in row
        order, untrimmed; hidden rows are never read. */
    method GetProperties() returns (props: DeleteNodeProperties)
      requires Valid() && !initRaised
      ensures props.removeNodeNames == Collect(removeNodeNames[..visibleRemoveNodeNamesCount])
    {
      var names: seq<string> := [];
      for i := 0 to visibleRemoveNodeNamesCount
        invariant names == Collect(removeNodeNames[..i])
      {
        var name := removeNodeNames[i];
        CollectStep(removeNodeNames, i);
        if Strip(name) != [] {
          names := names + [name];
        }
      }
      props := DeleteNodeProperties(names);
    }

    /** `accept`: with nothing collected, show the single "not set" error and stay
        open; otherwise close the dialog as accepted. */
    method Accept() returns (closed: bool)
      requires Valid() && !initRaised
      modifies this`state, this`errorsShown
      ensures Valid()
      ensures closed <==> Collect(removeNodeNames[..visibleRemoveNodeNamesCount]) != []
      ensures closed ==> state == Accepted && errorsShown == old(errorsShown)
      ensures !closed ==> state == old(state) && errorsShown == old(errorsShown) + [[NotSetMessage]]
    {
      var invalid := false;
      var props := GetProperties();
      var errMsgs: seq<string> := [];
      if |props.removeNodeNames| == 0 {
        errMsgs := errMsgs + [NotSetMessage];
        invalid := true;
      }
      assert invalid ==> errMsgs == [NotSetMessage];
      if invalid {
        errorsShown := errorsShown + [errMsgs];
        return false;
      }
      state := Accepted;
      return true;
    }

    /** The Cancel button: Qt's `reject` closes the dialog with no result. */
    method Reject()
      requires Valid() && !initRaised
      modifies this`state
      ensures Valid() && state == Rejected
    {
      state := Rejected;
    }
  }

  /** Opening the dialog on two selected names that both exist pre-fills them in
      rows 0 and 1 and shows three rows. */
  method OpenWithTwoSelected(g: Graph) returns (d: DeleteNodeWidgets)
    requires "A" in g.nodeNames && "B" in g.nodeNames
    ensures !d.initRaised && d.state == Open && d.visibleRemoveNodeNamesCount == 3
    ensures d.removeNodeNames == ["A", "B", "", "", ""]
    ensures d.rowVisible == [true, true, true, false, false]
  {
    var selected := ["A", "B"];
    assert Take(selected) == selected;
    PresentAll(g.nodeNames, selected);
    d := new DeleteNodeWidgets(Some(g), selected);
  }

  /** Opening the dialog on a graph whose only node is `A` with `B` selected
      raises from `__init__`. */
  method OpenWithMissingSelected() returns (d: DeleteNodeWidgets)
    ensures d.initRaised && d.state == NotBuilt && d.visibleRemoveNodeNamesCount == 1
    ensures d.removeNodeNames == ["", "", "", "", ""]
  {
    assert ["B"][0] !in ["A"];
    assert ["B"][..1] == ["B"] && ["B"][..0] == [];
    d := new DeleteNodeWidgets(Some(Graph(["A"])), ["B"]);
  }
}
