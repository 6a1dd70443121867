/**
 * Choice of the primary cockpit among the ship controllers found on the grid
 * (Mdk.SimpleAutopilot/Program.cs, FindBlocks). The intent stated beside the
 * code is "main cockpit, else a controlled cockpit, else the first one"; the
 * loop as written takes the first cockpit that is main OR controlled.
 * `SelectPrimary` models the loop as written, which the autopilot model uses;
 * `SelectPrimaryByPriority` is the intended rule.
 */
module Cockpits {

  /** The two flags of a ship controller the choice looks at. */
  datatype Cockpit = Cockpit(isMain: bool, isUnderControl: bool)

  predicate IsMain(c: Cockpit) {
    c.isMain
  }

  predicate IsControlled(c: Cockpit) {
    c.isUnderControl
  }

  predicate Flagged(c: Cockpit) {
    c.isMain || c.isUnderControl
  }

  /** Index of the first cockpit at or after `from` satisfying p, or |cs| if none does. */
  function FirstFrom(cs: seq<Cockpit>, from: nat, p: Cockpit -> bool): (k: nat)
    requires from <= |cs|
    ensures from <= k <= |cs|
    ensures k < |cs| ==> p(cs[k])
    ensures forall j :: from <= j < k ==> !p(cs[j])
    decreases |cs| - from
  {
    if from == |cs| then |cs|
    else if p(cs[from]) then from
    else FirstFrom(cs, from + 1, p)
  }

  /** The loop as written: the first flagged cockpit, else the first cockpit. */
  function AsWrittenChoice(cs: seq<Cockpit>): (k: nat)
    requires |cs| > 0
    ensures k < |cs|
    ensures Flagged(cs[k]) || k == 0
    ensures (exists j :: 0 <= j < |cs| && Flagged(cs[j])) ==> Flagged(cs[k])
    ensures forall j :: 0 <= j < k ==> !Flagged(cs[j])
    ensures (forall j :: 0 <= j < |cs| ==> !Flagged(cs[j])) ==> k == 0
  {
    var k := FirstFrom(cs, 0, Flagged);
    if k < |cs| then k else 0
  }

  /** The stated intent: the first main cockpit, else the first controlled one, else the first. */
  function IntendedChoice(cs: seq<Cockpit>): (k: nat)
    requires |cs| > 0
    ensures k < |cs|
    ensures (exists j :: 0 <= j < |cs| && cs[j].isMain) ==>
      cs[k].isMain && forall j :: 0 <= j < k ==> !cs[j].isMain
    ensures (forall j :: 0 <= j < |cs| ==> !cs[j].isMain) && (exists j :: 0 <= j < |cs| && cs[j].isUnderControl) ==>
      cs[k].isUnderControl && forall j :: 0 <= j < k ==> !cs[j].isUnderControl
    ensures (forall j :: 0 <= j < |cs| ==> !Flagged(cs[j])) ==> k == 0
  {
    var m := FirstFrom(cs, 0, IsMain);
    if m < |cs| then m
    else
      var u := FirstFrom(cs, 0, IsControlled);
      if u < |cs| then u else 0
  }

  /** The selection loop of FindBlocks as written; the caller guarantees a cockpit. */
  method SelectPrimary(cs: seq<Cockpit>) returns (k: nat)
    requires |cs| > 0
    ensures k == AsWrittenChoice(cs)
  {
    k := 0;
    var i := 0;
    while i < |cs|
      invariant 0 <= i <= |cs|
      invariant forall j :: 0 <= j < i ==> !Flagged(cs[j])
      invariant k == 0
    {
      if cs[i].isMain {
        k := i;
        break;
      }
      if cs[i].isUnderControl {
        k := i;
        break;
      }
      i := i + 1;
    }
    FirstIs(cs, i, Flagged);
  }

  /** The intended selection: a pass for a main cockpit, then one for a controlled one. */
  method SelectPrimaryByPriority(cs: seq<Cockpit>) returns (k: nat)
    requires |cs| > 0
    ensures k == IntendedChoice(cs)
  {
    var i := 0;
    while i < |cs| && !cs[i].isMain
      invariant 0 <= i <= |cs|
      invariant forall j :: 0 <= j < i ==> !cs[j].isMain
    {
      i := i + 1;
    }
    FirstIs(cs, i, IsMain);
    if i < |cs| {
      return i;
    }
    i := 0;
    while i < |cs| && !cs[i].isUnderControl
      invariant 0 <= i <= |cs|
      invariant forall j :: 0 <= j < i ==> !cs[j].isUnderControl
    {
      i := i + 1;
    }
    FirstIs(cs, i, IsControlled);
    k := if i < |cs| then i else 0;
  }

  lemma FirstIs(cs: seq<Cockpit>, i: nat, p: Cockpit -> bool)
    requires i <= |cs|
    requires forall j :: 0 <= j < i ==> !p(cs[j])
    requires i < |cs| ==> p(cs[i])
    ensures FirstFrom(cs, 0, p) == i
  {
  }

  /** Without a main cockpit the loop as written already makes the intended choice. */
  lemma AgreeWithoutMain(cs: seq<Cockpit>)
    requires |cs| > 0
    requires forall j :: 0 <= j < |cs| ==> !cs[j].isMain
    ensures AsWrittenChoice(cs) == IntendedChoice(cs)
  {
    var k := FirstFrom(cs, 0, Flagged);
    var u := FirstFrom(cs, 0, IsControlled);
    FirstIs(cs, k, IsControlled);
    assert k == u;
  }

  /**
   * A controlled cockpit listed before the main cockpit is chosen by the loop
   * as written, although the main cockpit should win.
   */
  lemma ControlledBeforeMainWins()
    ensures AsWrittenChoice([Cockpit(false, true), Cockpit(true, false)]) == 0
    ensures IntendedChoice([Cockpit(false, true), Cockpit(true, false)]) == 1
  {
    var cs := [Cockpit(false, true), Cockpit(true, false)];
    FirstIs(cs, 0, Flagged);
    FirstIs(cs, 1, IsMain);
  }
}
