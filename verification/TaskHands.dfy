// Tasks that threads have taken out of a queue and not returned yet, counted
// task by task.

module TaskHands {
  import opened Options

  /** A `task_t *` other than EMPTY and ABORT. */
  type Task = nat

  function InHand(o: Option<Task>, x: Task): nat {
    if o == Some(x) then 1 else 0
  }

  /** What a thread's call to a queue has come to so far: no call, a pop or a steal that has
      yet to find anything, a look at the front counter, the finding that there is nothing,
      the loss of a race, or a task. */
  datatype Hand = Vacant | Seeking(pop: bool) | Looking(front: int) | Nothing | Beaten | Holds(elt: Task)

  /** What a call that ends with hand h returns; None is EMPTY. */
  function Result(h: Hand): Option<Task> {
    if h.Holds? then Some(h.elt) else None
  }

  function InHands(hands: seq<Hand>, x: Task): nat {
    if hands == [] then 0 else (if hands[0] == Holds(x) then 1 else 0) + InHands(hands[1..], x)
  }

  lemma {:induction false} InHandsUpdate(hands: seq<Hand>, i: nat, h: Hand, x: Task)
    requires i < |hands|
    ensures InHands(hands[i := h], x) + (if hands[i] == Holds(x) then 1 else 0)
            == InHands(hands, x) + if h == Holds(x) then 1 else 0
  {
    if i == 0 {
      assert hands[i := h][1..] == hands[1..];
    } else {
      InHandsUpdate(hands[1..], i - 1, h, x);
      assert hands[i := h][1..] == hands[1..][i - 1 := h];
    }
  }

  lemma {:induction false} NoHands(hands: seq<Hand>, x: Task)
    requires forall i :: 0 <= i < |hands| ==> hands[i] == Vacant
    ensures InHands(hands, x) == 0
  {
    if hands != [] {
      NoHands(hands[1..], x);
    }
  }
}
