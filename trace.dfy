/** The log a session emits, and the key protocol it follows: a key is
    pressed only when it is not held and released only when it is. */
module Trace {
  import opened Motion

  /** One log notice. `Pressed`/`Released` are the simulated key events,
      `Continuing` the per-tick notice for a held key, `MovedTo`/`MoveFailed`
      the outcome of one pointer step. */
  datatype Event =
    | Connected
    | Movement(direction: Direction, angle: real, intensity: real)
    | Pressed(key: char)
    | Released(key: char)
    | Continuing(key: char)
    | MovedTo(x: real, y: real)
    | MoveFailed
    | Disconnected

  /** The effect of one event on the set of keys pressed and not yet released. */
  function Apply(out: set<char>, e: Event): set<char>
  {
    match e
    case Pressed(k) => out + {k}
    case Released(k) => out - {k}
    case _ => out
  }

  /** Whether the event is allowed when `out` is outstanding. */
  predicate StepOk(out: set<char>, e: Event)
  {
    match e
    case Pressed(k) => k !in out
    case Released(k) => k in out
    case _ => true
  }

  /** The keys pressed and not yet released at the end of the trace. */
  function Outstanding(t: seq<Event>): set<char>
  {
    if t == [] then {} else Apply(Outstanding(t[..|t| - 1]), t[|t| - 1])
  }

  /** Every press is of a key not held and every release of a key held. */
  predicate Bracketed(t: seq<Event>)
  {
    t == [] || (Bracketed(t[..|t| - 1]) && StepOk(Outstanding(t[..|t| - 1]), t[|t| - 1]))
  }

  /** The release notices for `ks`, in order. */
  function Releases(ks: seq<char>): (r: seq<Event>)
    ensures |r| == |ks|
  {
    if ks == [] then [] else Releases(ks[..|ks| - 1]) + [Released(ks[|ks| - 1])]
  }

  /** The press notices for `ks`, in order. */
  function Presses(ks: seq<char>): (r: seq<Event>)
    ensures |r| == |ks|
  {
    if ks == [] then [] else Presses(ks[..|ks| - 1]) + [Pressed(ks[|ks| - 1])]
  }

  /** The per-tick continuation notices for `ks`, in order. */
  function Continuations(ks: seq<char>): (r: seq<Event>)
    ensures |r| == |ks|
  {
    if ks == [] then [] else Continuations(ks[..|ks| - 1]) + [Continuing(ks[|ks| - 1])]
  }

  /** Appending one event: the definitions unfolded once. */
  lemma Step(t: seq<Event>, e: Event)
    ensures Outstanding(t + [e]) == Apply(Outstanding(t), e)
    ensures Bracketed(t + [e]) <==> Bracketed(t) && StepOk(Outstanding(t), e)
  {
  }

  /** Splitting the last key off a key list. */
  lemma SplitLast(ks: seq<char>)
    requires ks != []
    ensures Elems(ks) == Elems(ks[..|ks| - 1]) + {ks[|ks| - 1]}
    ensures Distinct(ks) ==> Distinct(ks[..|ks| - 1]) && ks[|ks| - 1] !in Elems(ks[..|ks| - 1])
  {
  }

  /** Releasing distinct held keys keeps the protocol and removes exactly them. */
  lemma {:induction false} ReleasesClear(t: seq<Event>, ks: seq<char>)
    requires Bracketed(t) && Distinct(ks) && Elems(ks) <= Outstanding(t)
    ensures Bracketed(t + Releases(ks))
    ensures Outstanding(t + Releases(ks)) == Outstanding(t) - Elems(ks)
  {
    if ks == [] {
      assert t + Releases(ks) == t;
    } else {
      var init, k := ks[..|ks| - 1], ks[|ks| - 1];
      SplitLast(ks);
      ReleasesClear(t, init);
      var u := t + Releases(init);
      assert t + Releases(ks) == u + [Released(k)];
      Step(u, Released(k));
    }
  }

  /** Pressing distinct keys none of which is held keeps the protocol and adds
      exactly them. */
  lemma {:induction false} PressesOpen(t: seq<Event>, ks: seq<char>)
    requires Bracketed(t) && Distinct(ks) && Elems(ks) !! Outstanding(t)
    ensures Bracketed(t + Presses(ks))
    ensures Outstanding(t + Presses(ks)) == Outstanding(t) + Elems(ks)
  {
    if ks == [] {
      assert t + Presses(ks) == t;
    } else {
      var init, k := ks[..|ks| - 1], ks[|ks| - 1];
      SplitLast(ks);
      assert Elems(init) !! Outstanding(t);
      PressesOpen(t, init);
      var u := t + Presses(init);
      assert k !in Outstanding(u) by {
        assert k in Elems(ks);
        assert k !in Outstanding(t);
      }
      assert t + Presses(ks) == u + [Pressed(k)] by {
        assert Presses(ks) == Presses(init) + [Pressed(k)];
      }
      Step(u, Pressed(k));
      assert Outstanding(u + [Pressed(k)]) == Outstanding(t) + Elems(init) + {k};
    }
  }

  /** Continuation notices neither press nor release anything. */
  lemma {:induction false} ContinuationsNeutral(t: seq<Event>, ks: seq<char>)
    ensures Bracketed(t + Continuations(ks)) <==> Bracketed(t)
    ensures Outstanding(t + Continuations(ks)) == Outstanding(t)
  {
    if ks != [] {
      var n := |ks| - 1;
      var init := ks[..n];
      ContinuationsNeutral(t, init);
      var u := t + Continuations(init);
      assert Continuations(ks) == Continuations(init) + [Continuing(ks[n])];
      assert t + Continuations(ks) == u + [Continuing(ks[n])];
      Step(u, Continuing(ks[n]));
    } else {
      assert t + Continuations(ks) == t;
    }
  }

  /** In a protocol-respecting trace, a press is either followed by a release
      of the same key or that key is still outstanding at the end. */
  lemma {:induction false} PressIsReleasedOrOutstanding(t: seq<Event>, i: nat)
    requires Bracketed(t) && i < |t| && t[i].Pressed?
    ensures t[i].key in Outstanding(t)
      || exists j :: i < j < |t| && t[j] == Released(t[i].key)
  {
    var n := |t| - 1;
    var init := t[..n];
    assert t == init + [t[n]];
    Step(init, t[n]);
    if i < n {
      assert init[i] == t[i];
      PressIsReleasedOrOutstanding(init, i);
      if init[i].key in Outstanding(init) && t[n] != Released(t[i].key) {
        assert t[i].key in Outstanding(t);
      } else if init[i].key !in Outstanding(init) {
        var j :| i < j < |init| && init[j] == Released(init[i].key);
        assert t[j] == init[j];
      }
    }
  }

  /** No key is left stuck: once nothing is outstanding, every press in the
      trace is followed by a release of the same key. */
  lemma EveryPressReleased(t: seq<Event>)
    requires Bracketed(t) && Outstanding(t) == {}
    ensures forall i :: 0 <= i < |t| && t[i].Pressed? ==>
      exists j :: i < j < |t| && t[j] == Released(t[i].key)
  {
    forall i | 0 <= i < |t| && t[i].Pressed?
      ensures exists j :: i < j < |t| && t[j] == Released(t[i].key)
    {
      PressIsReleasedOrOutstanding(t, i);
    }
  }
}
