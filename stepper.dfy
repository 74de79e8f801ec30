/** The progress stepper shown above each question: one step per question,
    coloured by how it relates to the current question. */
module Stepper {

  /** Done: green with a check mark, and a green connector after it.
      Active: the highlighted current step. Pending: grey with its number. */
  datatype StepStatus = Done | Active | Pending

  function StepStatusAt(index: nat, current: nat): (s: StepStatus)
    ensures s == Done <==> index < current
    ensures s == Active <==> index == current
  {
    if index < current then Done else if index == current then Active else Pending
  }

  /** The statuses of steps 0 .. total-1 while question `current` is shown. */
  function Steps(current: nat, total: nat): (r: seq<StepStatus>)
    ensures |r| == total
  {
    seq(total, i requires 0 <= i => StepStatusAt(i, current))
  }

  /** How many entries of `xs` equal `s`. */
  function Count(xs: seq<StepStatus>, s: StepStatus): nat
    decreases |xs|
  {
    if xs == [] then 0
    else Count(xs[..|xs| - 1], s) + (if xs[|xs| - 1] == s then 1 else 0)
  }

  function Min(a: nat, b: nat): nat
  {
    if a < b then a else b
  }

  /** The stepper shows as many done steps as questions before the current
      one, exactly one active step when the current question exists, and
      the rest pending. */
  lemma {:induction false} StepCounts(current: nat, total: nat)
    ensures Count(Steps(current, total), Done) == Min(current, total)
    ensures Count(Steps(current, total), Active) == (if current < total then 1 else 0)
    ensures Count(Steps(current, total), Pending)
         == (if current < total then total - current - 1 else 0)
  {
    if total > 0 {
      StepCounts(current, total - 1);
      assert Steps(current, total)[..total - 1] == Steps(current, total - 1);
    }
  }
}
