/**
 * Choosing the MIDI output port from the "Port" combo box. The application
 * remembers the index of the selected port and the connection is open to at
 * most one port. Picking an entry other than the selected one makes it the
 * selection, closes the connection and then tries to open the picked port; a
 * failed open is swallowed and leaves the connection closed. Each frame the
 * combo walks the port list once, and for every entry the user interface
 * reports whether it was picked.
 */
module PortSelection {
  import opened Options
  import opened MidiSink

  /** The selected port index and the port the connection is open to, if any. */
  datatype Port = Port(selected: nat, open: Option<nat>)

  /** The connection, when open, is open to the selected port. */
  ghost predicate OpenIsSelected(p: Port)
  {
    p.open.Some? ==> p.open.value == p.selected
  }

  /** The selection and the connection after entry `i` is picked. */
  function Reselect(p: Port, i: nat, opens: bool): (r: Port)
    ensures i == p.selected ==> r == p
    ensures i != p.selected ==> r.selected == i && (r.open.Some? <==> opens) && OpenIsSelected(r)
  {
    if i == p.selected then p else Port(i, if opens then Some(i) else None)
  }

  /** The calls made on the connection when entry `i` is picked. */
  function ReselectCalls(p: Port, i: nat): (cs: seq<SinkCall>)
  {
    if i == p.selected then [] else [ClosePortCall, OpenPortCall(i)]
  }

  /**
   * One walk over the port list: `picked[i]` says whether entry `i` was
   * picked and `opens[i]` whether opening port `i` would succeed.
   */
  function Combo(p: Port, picked: seq<bool>, opens: seq<bool>): (r: Port)
    requires |picked| == |opens|
    decreases |picked|
  {
    if picked == [] then p
    else
      var i := |picked| - 1;
      var q := Combo(p, picked[..i], opens[..i]);
      if picked[i] then Reselect(q, i, opens[i]) else q
  }

  /** The calls made on the connection during one walk over the port list. */
  function ComboCalls(p: Port, picked: seq<bool>, opens: seq<bool>): (cs: seq<SinkCall>)
    requires |picked| == |opens|
    decreases |picked|
  {
    if picked == [] then []
    else
      var i := |picked| - 1;
      var before := ComboCalls(p, picked[..i], opens[..i]);
      if picked[i] then before + ReselectCalls(Combo(p, picked[..i], opens[..i]), i) else before
  }

  /**
   * After a failed open the selection stays on the port that could not be
   * opened, so picking that entry again does not retry the open.
   */
  lemma PickAfterFailedOpenDoesNotRetry(p: Port, opens: bool)
    requires p.open == None
    ensures Reselect(p, p.selected, opens) == p && ReselectCalls(p, p.selected) == []
  {
  }

  /** The combo never leaves the connection open to a port other than the selected one. */
  lemma {:induction false} ComboKeepsOpenSelected(p: Port, picked: seq<bool>, opens: seq<bool>)
    requires |picked| == |opens|
    requires OpenIsSelected(p)
    ensures OpenIsSelected(Combo(p, picked, opens))
    decreases |picked|
  {
    if picked != [] {
      var i := |picked| - 1;
      ComboKeepsOpenSelected(p, picked[..i], opens[..i]);
    }
  }

  /** When no entry is picked, nothing changes and the connection is not touched. */
  lemma {:induction false} ComboWithoutPickIsIdle(p: Port, picked: seq<bool>, opens: seq<bool>)
    requires |picked| == |opens|
    requires forall i :: 0 <= i < |picked| ==> !picked[i]
    ensures Combo(p, picked, opens) == p && ComboCalls(p, picked, opens) == []
    decreases |picked|
  {
    if picked != [] {
      var i := |picked| - 1;
      ComboWithoutPickIsIdle(p, picked[..i], opens[..i]);
    }
  }

  /** After the walk, the selection is the last entry picked in it. */
  lemma {:induction false} ComboSelectsLastPick(p: Port, picked: seq<bool>, opens: seq<bool>, k: nat)
    requires |picked| == |opens|
    requires k < |picked| && picked[k]
    requires forall j :: k < j < |picked| ==> !picked[j]
    ensures Combo(p, picked, opens).selected == k
    decreases |picked|
  {
    var i := |picked| - 1;
    if k < i {
      ComboSelectsLastPick(p, picked[..i], opens[..i], k);
    }
  }

  /**
   * Call `m` of `cs` is not a message send, and when it opens a port, that
   * port is a picked entry and the call before it closes the connection.
   */
  ghost predicate CallFits(cs: seq<SinkCall>, m: nat, picked: seq<bool>)
    requires m < |cs|
  {
    !cs[m].SendMessageCall? &&
    (cs[m].OpenPortCall? ==>
       0 < m && cs[m - 1] == ClosePortCall && cs[m].port < |picked| && picked[cs[m].port])
  }

  ghost predicate AllCallsFit(cs: seq<SinkCall>, picked: seq<bool>)
  {
    forall m: nat :: m < |cs| ==> CallFits(cs, m, picked)
  }

  /**
   * Every port opened during the walk is an entry that was picked, and the
   * connection is closed immediately before it is opened; the combo sends
   * no message.
   */
  lemma {:induction false} ComboClosesBeforeOpening(p: Port, picked: seq<bool>, opens: seq<bool>)
    requires |picked| == |opens|
    ensures AllCallsFit(ComboCalls(p, picked, opens), picked)
    decreases |picked|
  {
    if picked != [] {
      var i := |picked| - 1;
      ComboClosesBeforeOpening(p, picked[..i], opens[..i]);
      var before := ComboCalls(p, picked[..i], opens[..i]);
      assert AllCallsFit(before, picked[..i]);
      var cs := ComboCalls(p, picked, opens);
      assert cs[..|before|] == before;
      forall m: nat | m < |cs|
        ensures CallFits(cs, m, picked)
      {
        if m < |before| {
          assert CallFits(before, m, picked[..i]);
          assert cs[m] == before[m];
          if cs[m].OpenPortCall? {
            assert cs[m - 1] == before[m - 1];
            assert picked[..i][cs[m].port] == picked[cs[m].port];
          }
        }
      }
    }
  }

  /** The combo's calls never include a message send. */
  lemma ComboSendsNothing(p: Port, picked: seq<bool>, opens: seq<bool>)
    requires |picked| == |opens|
    ensures Sent(ComboCalls(p, picked, opens)) == []
  {
    var cs := ComboCalls(p, picked, opens);
    ComboClosesBeforeOpening(p, picked, opens);
    assert AllCallsFit(cs, picked);
    forall m: nat | m < |cs|
      ensures !cs[m].SendMessageCall?
    {
      assert CallFits(cs, m, picked);
    }
    NoSendCallNoSent(cs);
  }

  lemma {:induction false} NoSendCallNoSent(cs: seq<SinkCall>)
    requires forall m :: 0 <= m < |cs| ==> !cs[m].SendMessageCall?
    ensures Sent(cs) == []
    decreases |cs|
  {
    if cs != [] {
      NoSendCallNoSent(cs[..|cs| - 1]);
    }
  }
}
