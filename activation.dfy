/** The activation set of the orbit-logo: the indices of the paths the pointer
    has entered since it last left the logo's container. The transitions are
    given here as pure functions on the set; the handlers of the component
    class make the same changes to its state. */
module Activation {

  /** The two pointer events the component handles. */
  datatype Event = EnterPath(index: nat) | LeaveContainer

  /** The new set after one event: `handleMouseEnterPath` copies the set and
      adds the index, `handleMouseLeaveContainer` replaces it with an empty set. */
  function Step(s: set<nat>, e: Event): set<nat>
  {
    match e
    case EnterPath(i) => s + {i}
    case LeaveContainer => {}
  }

  /** The set after a sequence of events, applied in delivery order. */
  function Run(s: set<nat>, evs: seq<Event>): set<nat>
    decreases |evs|
  {
    if evs == [] then s else Run(Step(s, evs[0]), evs[1..])
  }

  /** No `LeaveContainer` occurs in the events from position `from` on. */
  ghost predicate NoLeaveFrom(evs: seq<Event>, from: int)
  {
    forall m :: 0 <= from <= m < |evs| ==> !evs[m].LeaveContainer?
  }

  /** Path i was entered at some point after the last `LeaveContainer`. */
  ghost predicate EnteredSinceLastLeave(evs: seq<Event>, i: nat)
  {
    exists k :: 0 <= k < |evs| && evs[k] == EnterPath(i) && NoLeaveFrom(evs, k + 1)
  }

  /** Entering a path makes it active and keeps every active path active, and
      leaving makes every path inactive. */
  lemma StepEffect(s: set<nat>, i: nat, j: nat)
    ensures i in Step(s, EnterPath(i))
    ensures j in Step(s, EnterPath(i)) <==> j == i || j in s
    ensures j !in Step(s, LeaveContainer)
  {
  }

  /** Entering an already active path changes nothing; entering twice is entering once. */
  lemma EnterIdempotent(s: set<nat>, i: nat)
    ensures i in s ==> Step(s, EnterPath(i)) == s
    ensures Step(Step(s, EnterPath(i)), EnterPath(i)) == Step(s, EnterPath(i))
  {
  }

  /** The order in which two paths are entered does not matter. */
  lemma EnterCommutes(s: set<nat>, i: nat, j: nat)
    ensures Step(Step(s, EnterPath(i)), EnterPath(j)) == Step(Step(s, EnterPath(j)), EnterPath(i))
  {
  }

  /** Membership after any sequence of events: a path is active exactly when it
      was entered after the last leave, or it was active before and the pointer
      never left. The set only grows by entering and only shrinks by emptying. */
  lemma {:induction false} RunMembership(s: set<nat>, evs: seq<Event>, i: nat)
    ensures i in Run(s, evs) <==> (i in s && NoLeaveFrom(evs, 0)) || EnteredSinceLastLeave(evs, i)
    decreases |evs|
  {
    if evs != [] {
      var e, rest := evs[0], evs[1..];
      RunMembership(Step(s, e), rest, i);
      // Shift the witnesses and the "no leave" ranges between `evs` and `rest`.
      assert NoLeaveFrom(evs, 0) <==> !e.LeaveContainer? && NoLeaveFrom(rest, 0) by {
        if !e.LeaveContainer? && NoLeaveFrom(rest, 0) {
          forall m | 0 <= m < |evs| ensures !evs[m].LeaveContainer? {
            if m > 0 { assert evs[m] == rest[m - 1]; }
          }
        }
        if NoLeaveFrom(evs, 0) {
          forall m | 0 <= m < |rest| ensures !rest[m].LeaveContainer? {
            assert rest[m] == evs[m + 1];
          }
        }
      }
      assert EnteredSinceLastLeave(evs, i) <==>
             (e == EnterPath(i) && NoLeaveFrom(rest, 0)) || EnteredSinceLastLeave(rest, i) by {
        if EnteredSinceLastLeave(evs, i) {
          var k :| 0 <= k < |evs| && evs[k] == EnterPath(i) && NoLeaveFrom(evs, k + 1);
          if k == 0 {
            forall m | 0 <= m < |rest| ensures !rest[m].LeaveContainer? {
              assert rest[m] == evs[m + 1];
            }
          } else {
            assert rest[k - 1] == EnterPath(i);
            forall m | k <= m < |rest| ensures !rest[m].LeaveContainer? {
              assert rest[m] == evs[m + 1];
            }
            assert NoLeaveFrom(rest, k);
          }
        }
        if e == EnterPath(i) && NoLeaveFrom(rest, 0) {
          forall m | 1 <= m < |evs| ensures !evs[m].LeaveContainer? {
            assert evs[m] == rest[m - 1];
          }
          assert NoLeaveFrom(evs, 1);
        }
        if EnteredSinceLastLeave(rest, i) {
          var k :| 0 <= k < |rest| && rest[k] == EnterPath(i) && NoLeaveFrom(rest, k + 1);
          assert evs[k + 1] == EnterPath(i);
          forall m | k + 2 <= m < |evs| ensures !evs[m].LeaveContainer? {
            assert evs[m] == rest[m - 1];
          }
          assert NoLeaveFrom(evs, k + 2);
        }
      }
    }
  }

  /** However the pointer moved before, once it leaves the container no path is active. */
  lemma {:induction false} LeaveClearsAll(s: set<nat>, evs: seq<Event>, i: nat)
    ensures i !in Run(s, evs + [LeaveContainer])
  {
    var all := evs + [LeaveContainer];
    RunMembership(s, all, i);
    assert all[|all| - 1].LeaveContainer?;
    forall k | 0 <= k < |all| && all[k] == EnterPath(i) ensures !NoLeaveFrom(all, k + 1) {
      assert k + 1 <= |all| - 1;
    }
  }
}
