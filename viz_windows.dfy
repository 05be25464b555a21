// Visualizer naming and the name -> window registry of the visualizer window
// manager (apps/vaporgui/VizWinMgr.cpp).  Qt widgets are opaque values here:
// a visualizer window only remembers its name, a sub-window only the widget it
// wraps.  Signals, focus, tiling and redraws are not modelled.
module VizWindows {

  /* ---------------------------------------------------------------------
   * Decimal rendering of an index, as `stringstream << int` does for n >= 0
   * --------------------------------------------------------------------- */

  function DigitChar(d: nat): char
    requires d < 10
  {
    ('0' as int + d) as char
  }

  /** The decimal digits of n, most significant first, without leading zeros. */
  function NatToDecimal(n: nat): (s: string)
    ensures |s| >= 1
    decreases n
  {
    if n < 10 then [DigitChar(n)] else NatToDecimal(n / 10) + [DigitChar(n % 10)]
  }

  /** Reads a string of decimal digits back as a number. */
  function DecimalValue(s: string): int
  {
    if |s| == 0 then 0 else DecimalValue(s[..|s| - 1]) * 10 + (s[|s| - 1] as int - '0' as int)
  }

  lemma {:induction false} DecimalRoundTrip(n: nat)
    ensures DecimalValue(NatToDecimal(n)) == n
    decreases n
  {
    var s := NatToDecimal(n);
    if n < 10 {
      assert s[..|s| - 1] == [];
    } else {
      DecimalRoundTrip(n / 10);
      assert s[..|s| - 1] == NatToDecimal(n / 10);
    }
  }

  /* ---------------------------------------------------------------------
   * Visualizer names
   * --------------------------------------------------------------------- */

  const VizNamePrefix: string := "Visualizer_No._"

  /** The k-th candidate name tried by make_viz_name. */
  function VizName(k: nat): string
  {
    VizNamePrefix + NatToDecimal(k)
  }

  /** Distinct indices give distinct names. */
  lemma VizNameInjective(a: nat, b: nat)
    ensures VizName(a) == VizName(b) <==> a == b
  {
    if VizName(a) == VizName(b) {
      assert NatToDecimal(a) == VizName(a)[|VizNamePrefix|..];
      assert NatToDecimal(b) == VizName(b)[|VizNamePrefix|..];
      DecimalRoundTrip(a);
      DecimalRoundTrip(b);
    }
  }

  /** The names of the first n candidates, as a set. */
  function CandidateNames(n: nat): set<string>
  {
    set k | 0 <= k < n :: VizName(k)
  }

  lemma {:induction false} CandidateNamesSize(n: nat)
    ensures |CandidateNames(n)| == n
  {
    if n > 0 {
      CandidateNamesSize(n - 1);
      assert CandidateNames(n) == CandidateNames(n - 1) + {VizName(n - 1)};
      forall k | 0 <= k < n - 1
        ensures VizName(k) != VizName(n - 1)
      {
        VizNameInjective(k, n - 1);
      }
    }
  }

  lemma {:induction false} SeqElementsBound(s: seq<string>)
    ensures |set x | x in s| <= |s|
  {
    if s != [] {
      SeqElementsBound(s[1..]);
      assert (set x | x in s) == (set x | x in s[1..]) + {s[0]};
    }
  }

  /** Pigeonhole: if the first n candidates are all taken, there are at least n names. */
  lemma UsedCandidatesBound(names: seq<string>, n: nat)
    requires forall k :: 0 <= k < n ==> VizName(k) in names
    ensures n <= |names|
  {
    var used := CandidateNames(n);
    var present := set x | x in names;
    CandidateNamesSize(n);
    SeqElementsBound(names);
    assert used <= present;
    assert present == used + (present - used);
  }

  /**
   * make_viz_name: the first name "Visualizer_No._<k>", k = 0, 1, 2, ...,
   * that does not occur in currentNames.  The loop ends after at most
   * |currentNames| + 1 rounds, which is why k <= |currentNames|.
   */
  method MakeVizName(currentNames: seq<string>) returns (name: string)
    ensures name !in currentNames
    ensures exists k :: 0 <= k <= |currentNames| && name == VizName(k)
                        && forall j :: 0 <= j < k ==> VizName(j) in currentNames
  {
    var index := 0;
    var found := false;
    name := "";
    while !found
      invariant 0 <= index <= |currentNames| + 1
      invariant !found ==> index <= |currentNames|
      invariant !found ==> forall j :: 0 <= j < index ==> VizName(j) in currentNames
      invariant found ==> 1 <= index && name == VizName(index - 1) && name !in currentNames
                          && forall j :: 0 <= j < index - 1 ==> VizName(j) in currentNames
      decreases |currentNames| + 1 - index
    {
      name := VizNamePrefix + NatToDecimal(index);
      found := true;
      var i := 0;
      while i < |currentNames|
        invariant 0 <= i <= |currentNames|
        invariant found <==> forall m :: 0 <= m < i ==> currentNames[m] != name
      {
        if currentNames[i] == name {
          found := false;
        }
        i := i + 1;
      }
      if !found {
        UsedCandidatesBound(currentNames, index + 1);
      }
      index := index + 1;
    }
  }

  /* ---------------------------------------------------------------------
   * Key order of std::map<string, ...>: lexicographic by character
   * (byte order of UTF-8 text coincides with code-point order)
   * --------------------------------------------------------------------- */

  predicate StrLessEq(a: string, b: string)
    decreases |a|
  {
    |a| == 0 || (|b| > 0 && (a[0] < b[0] || (a[0] == b[0] && StrLessEq(a[1..], b[1..]))))
  }

  predicate StrLess(a: string, b: string)
  {
    StrLessEq(a, b) && a != b
  }

  lemma {:induction false} StrLessEqReflexive(a: string)
    ensures StrLessEq(a, a)
    decreases |a|
  {
    if |a| > 0 {
      StrLessEqReflexive(a[1..]);
    }
  }

  lemma {:induction false} StrLessEqTotal(a: string, b: string)
    ensures StrLessEq(a, b) || StrLessEq(b, a)
    decreases |a|
  {
    if |a| > 0 && |b| > 0 && a[0] == b[0] {
      StrLessEqTotal(a[1..], b[1..]);
    }
  }

  lemma {:induction false} StrLessEqAntisymmetric(a: string, b: string)
    requires StrLessEq(a, b) && StrLessEq(b, a)
    ensures a == b
    decreases |a|
  {
    if |a| > 0 && |b| > 0 {
      StrLessEqAntisymmetric(a[1..], b[1..]);
      assert a == [a[0]] + a[1..] && b == [b[0]] + b[1..];
    }
  }

  lemma {:induction false} StrLessEqTransitive(a: string, b: string, c: string)
    requires StrLessEq(a, b) && StrLessEq(b, c)
    ensures StrLessEq(a, c)
    decreases |a|
  {
    if |a| > 0 && |b| > 0 && |c| > 0 && a[0] == b[0] && b[0] == c[0] {
      StrLessEqTransitive(a[1..], b[1..], c[1..]);
    }
  }

  predicate IsLeast(m: string, s: set<string>)
  {
    m in s && forall y :: y in s ==> StrLessEq(m, y)
  }

  predicate IsGreatest(m: string, s: set<string>)
  {
    m in s && forall y :: y in s ==> StrLessEq(y, m)
  }

  predicate StrictlyAscending(names: seq<string>)
  {
    forall i, j :: 0 <= i < j < |names| ==> StrLess(names[i], names[j])
  }

  /** A non-empty key set has a first key, the one `begin()` points at. */
  lemma {:induction false} LeastExists(s: set<string>)
    requires s != {}
    ensures exists m :: IsLeast(m, s)
    decreases s
  {
    var x :| x in s;
    StrLessEqReflexive(x);
    if s == {x} {
      assert IsLeast(x, s);
    } else {
      LeastExists(s - {x});
      var m :| IsLeast(m, s - {x});
      StrLessEqTotal(x, m);
      if StrLessEq(m, x) {
        assert IsLeast(m, s);
      } else {
        forall y | y in s
          ensures StrLessEq(x, y)
        {
          if y != x {
            StrLessEqTransitive(x, m, y);
          }
        }
        assert IsLeast(x, s);
      }
    }
  }

  /** The first key is unique. */
  lemma LeastUnique(a: string, b: string, s: set<string>)
    requires IsLeast(a, s) && IsLeast(b, s)
    ensures a == b
  {
    StrLessEqAntisymmetric(a, b);
  }

  /**
   * One step of closing the names in ascending order: the registry held
   * names[i..] and loses names[i]; an active name among names[i..] stays
   * among names[i + 1..], or is the last name when none remain.
   */
  lemma CloseInOrder(names: seq<string>, i: nat, remaining: set<string>, active: string, newActive: string)
    requires StrictlyAscending(names) && i < |names|
    requires forall n :: n in remaining <==> n in names[i + 1..]
    requires ActiveAfterClose(active, names[i], remaining, newActive)
    ensures active !in names[i..] ==> newActive == active
    ensures active in names[i..] && i + 1 < |names| ==> newActive in names[i + 1..]
    ensures active in names[i..] && i + 1 == |names| ==> newActive == names[i]
  {
    assert names[i..] == [names[i]] + names[i + 1..];
    forall k | i < k < |names|
      ensures names[k] != "" && names[k] != names[i]
    {
    }
    if active == names[i] && i + 1 < |names| {
      assert names[i + 1] in remaining;
      assert "" !in remaining;
      assert IsLeast(newActive, remaining);
    }
  }

  /** The last name of an ascending listing of a key set is its greatest key. */
  lemma LastIsGreatest(names: seq<string>, keys: set<string>)
    requires StrictlyAscending(names) && |names| > 0
    requires forall n :: n in keys <==> n in names
    ensures IsGreatest(names[|names| - 1], keys)
  {
    var last := names[|names| - 1];
    forall y | y in keys
      ensures StrLessEq(y, last)
    {
      StrLessEqReflexive(y);
    }
  }

  /* ---------------------------------------------------------------------
   * The registry
   * --------------------------------------------------------------------- */

  /** A visualizer window, known by the name it was created with. */
  datatype VizWin = VizWin(name: string)

  /** The MDI sub-window that holds a visualizer window. */
  datatype MdiSubWindow = MdiSubWindow(widget: VizWin)

  /**
   * Active visualizer after `closed` has been removed from the registry,
   * leaving `remaining`: when the active one was closed and others remain,
   * the first remaining key is activated, unless it is "" (activating "" is
   * ignored).
   */
  ghost predicate ActiveAfterClose(oldActive: string, closed: string, remaining: set<string>, newActive: string)
  {
    if oldActive == closed && remaining != {} && "" !in remaining
    then IsLeast(newActive, remaining)
    else newActive == oldActive
  }

  /**
   * Active visualizer after attaching `names` in order to a registry holding
   * `present`: each name that is new and non-empty becomes active.
   */
  function ActiveAfterAttaching(present: set<string>, names: seq<string>, active: string): string
    decreases |names|
  {
    if names == [] then active
    else
      var n := names[0];
      ActiveAfterAttaching(present + {n}, names[1..], if n !in present && n != "" then n else active)
  }

  /** The active name after attaching is the old one or the name of a newly attached visualizer. */
  lemma {:induction false} ActiveAfterAttachingIsNew(present: set<string>, names: seq<string>, active: string)
    ensures var r := ActiveAfterAttaching(present, names, active);
            r == active || (r in names && r !in present && r != "")
    decreases |names|
  {
    if names != [] {
      var n := names[0];
      ActiveAfterAttachingIsNew(present + {n}, names[1..], if n !in present && n != "" then n else active);
    }
  }

  class VizWinMgr {
    var vizWindow: map<string, VizWin>
    var vizMdiWin: map<string, MdiSubWindow>
    /** The active visualizer name held in the GUI state parameters. */
    var activeVizName: string
    var initialized: bool

    /** Both maps have the same keys; each entry is the window of that name. */
    ghost predicate Valid()
      reads this
    {
      && vizWindow.Keys == vizMdiWin.Keys
      && (forall n :: n in vizWindow ==> vizWindow[n] == VizWin(n))
      && (forall n :: n in vizMdiWin ==> vizMdiWin[n] == MdiSubWindow(VizWin(n)))
    }

    /** The active name is kept by the GUI state, so it survives construction. */
    constructor (guiActiveVizName: string)
      ensures Valid()
      ensures vizWindow == map[] && vizMdiWin == map[]
      ensures activeVizName == guiActiveVizName && !initialized
    {
      activeVizName := guiActiveVizName;
      vizWindow := map[];
      vizMdiWin := map[];
      initialized := false;
      new;
      SetActiveViz("");
    }

    method SetActiveViz(vizName: string)
      modifies this`activeVizName
      ensures activeVizName == if vizName == "" then old(activeVizName) else vizName
    {
      if vizName == "" {
        return;
      }
      var currentVizName := activeVizName;
      if currentVizName != vizName {
        activeVizName := vizName;
      }
    }

    /** The registered names in ascending key order. */
    method GetVisualizerNames() returns (names: seq<string>)
      ensures forall n :: n in names <==> n in vizWindow
      ensures StrictlyAscending(names)
    {
      names := [];
      var remaining := vizWindow.Keys;
      while remaining != {}
        invariant remaining <= vizWindow.Keys
        invariant forall n :: n in names <==> n in vizWindow && n !in remaining
        invariant StrictlyAscending(names)
        invariant forall x, y :: x in names && y in remaining ==> StrLess(x, y)
        decreases remaining
      {
        LeastExists(remaining);
        var first :| first in remaining && IsLeast(first, remaining);
        names := names + [first];
        remaining := remaining - {first};
      }
    }

    method AttachVisualizer(vizName: string)
      requires Valid()
      modifies this
      ensures Valid()
      ensures vizName in old(vizWindow) ==>
                vizWindow == old(vizWindow) && vizMdiWin == old(vizMdiWin)
                && activeVizName == old(activeVizName)
      ensures vizName !in old(vizWindow) ==>
                && vizWindow == old(vizWindow)[vizName := VizWin(vizName)]
                && vizMdiWin == old(vizMdiWin)[vizName := MdiSubWindow(VizWin(vizName))]
                && activeVizName == (if vizName == "" then old(activeVizName) else vizName)
      ensures initialized == old(initialized)
    {
      if vizName in vizWindow {
        return;
      }
      vizWindow := vizWindow[vizName := VizWin(vizName)];
      vizMdiWin := vizMdiWin[vizName := MdiSubWindow(vizWindow[vizName])];
      SetActiveViz(vizName);
    }

    /** LaunchVisualizer: a fresh name, registered unless the control executive refused it (rc < 0). */
    method LaunchVisualizer(controlNames: seq<string>, newVisualizerRc: int) returns (ghost vizName: string)
      requires Valid()
      modifies this
      ensures Valid()
      ensures vizName !in controlNames && vizName != ""
      ensures newVisualizerRc < 0 ==>
                vizWindow == old(vizWindow) && vizMdiWin == old(vizMdiWin)
                && activeVizName == old(activeVizName)
      ensures newVisualizerRc >= 0 && vizName !in old(vizWindow) ==>
                vizWindow.Keys == old(vizWindow).Keys + {vizName} && activeVizName == vizName
      ensures newVisualizerRc >= 0 && vizName in old(vizWindow) ==>
                vizWindow == old(vizWindow) && activeVizName == old(activeVizName)
      ensures initialized == old(initialized)
    {
      var name := MakeVizName(controlNames);
      vizName := name;
      if newVisualizerRc < 0 {
        return;
      }
      AttachVisualizer(name);
    }

    /** Slot for a closing window: forget it, and re-pick the active one if it was active. */
    method VizAboutToDisappear(vizName: string)
      requires Valid()
      modifies this
      ensures Valid()
      ensures vizName !in old(vizWindow) ==>
                vizWindow == old(vizWindow) && vizMdiWin == old(vizMdiWin)
                && activeVizName == old(activeVizName)
      ensures vizName in old(vizWindow) ==>
                && vizWindow == old(vizWindow) - {vizName}
                && vizMdiWin == old(vizMdiWin) - {vizName}
                && ActiveAfterClose(old(activeVizName), vizName, vizWindow.Keys, activeVizName)
      ensures initialized == old(initialized)
    {
      if vizName !in vizWindow {
        return;
      }
      var activeViz := activeVizName;
      vizWindow := vizWindow - {vizName};
      vizMdiWin := vizMdiWin - {vizName};
      if activeViz == vizName && |vizWindow| > 0 {
        LeastExists(vizWindow.Keys);
        var first :| first in vizWindow && IsLeast(first, vizWindow.Keys);
        SetActiveViz(first);
        if "" in vizWindow {
          LeastUnique(first, "", vizWindow.Keys);
        }
      }
    }

    /** Closing a registered window ends in VizAboutToDisappear for it. */
    method KillViz(vizName: string)
      requires Valid()
      requires vizName in vizWindow
      modifies this
      ensures Valid()
      ensures vizWindow == old(vizWindow) - {vizName}
      ensures vizMdiWin == old(vizMdiWin) - {vizName}
      ensures ActiveAfterClose(old(activeVizName), vizName, vizWindow.Keys, activeVizName)
      ensures initialized == old(initialized)
    {
      VizAboutToDisappear(vizName);
    }

    /**
     * Closes every visualizer in ascending name order.  When the active one
     * was registered, each close hands activity to the next name, so the
     * greatest name ends up active.
     */
    method Shutdown()
      requires Valid()
      modifies this
      ensures Valid()
      ensures vizWindow == map[] && vizMdiWin == map[] && !initialized
      ensures old(activeVizName) !in old(vizWindow) ==> activeVizName == old(activeVizName)
      ensures old(activeVizName) in old(vizWindow) ==> IsGreatest(activeVizName, old(vizWindow).Keys)
    {
      var vizNames := GetVisualizerNames();
      ghost var active0 := activeVizName;
      ghost var keys0 := vizWindow.Keys;
      var i := 0;
      while i < |vizNames|
        invariant 0 <= i <= |vizNames|
        invariant Valid()
        invariant forall n :: n in vizWindow <==> n in vizNames[i..]
        invariant active0 !in keys0 ==> activeVizName == active0
        invariant active0 in keys0 && i < |vizNames| ==> activeVizName in vizNames[i..]
        invariant active0 in keys0 && i == |vizNames| ==> activeVizName == vizNames[|vizNames| - 1]
      {
        ghost var before := activeVizName;
        KillViz(vizNames[i]);
        CloseInOrder(vizNames, i, vizWindow.Keys, before, activeVizName);
        i := i + 1;
      }
      assert vizWindow.Keys == {} && vizMdiWin.Keys == {};
      if active0 in keys0 {
        LastIsGreatest(vizNames, keys0);
      }
      initialized := false;
    }

    /** Re-attaches the given visualizers after a Shutdown; ignored while initialized. */
    method Restart(visualizerNames: seq<string>)
      requires Valid()
      modifies this
      ensures Valid()
      ensures old(initialized) ==>
                vizWindow == old(vizWindow) && vizMdiWin == old(vizMdiWin)
                && activeVizName == old(activeVizName) && initialized
      ensures !old(initialized) ==>
                && initialized
                && (forall n :: n in vizWindow <==> n in old(vizWindow) || n in visualizerNames)
                && (forall n :: n in old(vizWindow) ==> vizWindow[n] == old(vizWindow)[n])
                && activeVizName == ActiveAfterAttaching(old(vizWindow).Keys, visualizerNames, "")
    {
      if initialized {
        return;
      }
      activeVizName := "";
      var i := 0;
      while i < |visualizerNames|
        invariant 0 <= i <= |visualizerNames|
        invariant Valid()
        invariant forall n :: n in vizWindow <==> n in old(vizWindow) || n in visualizerNames[..i]
        invariant forall n :: n in old(vizWindow) ==> vizWindow[n] == old(vizWindow)[n]
        invariant ActiveAfterAttaching(vizWindow.Keys, visualizerNames[i..], activeVizName)
                  == ActiveAfterAttaching(old(vizWindow).Keys, visualizerNames, "")
        invariant !initialized
      {
        var n := visualizerNames[i];
        assert visualizerNames[..i + 1] == visualizerNames[..i] + [n];
        assert visualizerNames[i..][1..] == visualizerNames[i + 1..];
        assert ActiveAfterAttaching(vizWindow.Keys, visualizerNames[i..], activeVizName)
               == ActiveAfterAttaching(vizWindow.Keys + {n}, visualizerNames[i + 1..],
                                       if n !in vizWindow.Keys && n != "" then n else activeVizName);
        ghost var keysBefore, activeBefore := vizWindow.Keys, activeVizName;
        AttachVisualizer(n);
        assert vizWindow.Keys == keysBefore + {n};
        assert activeVizName == if n !in keysBefore && n != "" then n else activeBefore;
        i := i + 1;
      }
      assert visualizerNames[..i] == visualizerNames;
      initialized := true;
    }
  }
}
