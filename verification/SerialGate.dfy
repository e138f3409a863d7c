/** The serial gate: each use waits for the promise of the use before it and resolves its
    own promise when its operation is over. */
module SerialGates {

  datatype Phase =
    /** Waiting for this promise. */
    | Waiting(previous: nat)
    | Running
    | Finished

  /** Promise 0 is resolved from the start; the use with ticket t owns promise t + 1. */
  datatype Gate = Gate(tail: nat, uses: seq<Phase>) {

    predicate Resolved(promise: nat) {
      promise == 0 || (promise <= |uses| && uses[promise - 1] == Finished)
    }

    predicate CanBegin(ticket: nat) {
      ticket < |uses| && uses[ticket].Waiting? && Resolved(uses[ticket].previous)
    }

    predicate IsRunning(ticket: nat) {
      ticket < |uses| && uses[ticket] == Running
    }

    function Arrived(): Gate {
      Gate(|uses| + 1, uses + [Waiting(tail)])
    }

    function Begun(ticket: nat): Gate
      requires ticket < |uses|
    {
      this.(uses := uses[ticket := Running])
    }

    function Ended(ticket: nat): Gate
      requires ticket < |uses|
    {
      this.(uses := uses[ticket := Finished])
    }

    /** Every use waits for the one before it, and a use has begun only if all earlier ones
        are over. */
    ghost predicate Valid() {
      && tail == |uses|
      && (forall t :: 0 <= t < |uses| && uses[t].Waiting? ==> uses[t].previous == t)
      && forall t, u :: 0 <= t < u < |uses| && !uses[u].Waiting? ==> uses[t] == Finished
    }
  }

  const NEW_GATE := Gate(0, [])

  class SerialGate {
    var tail: nat
    var uses: seq<Phase>

    ghost function State(): Gate
      reads this
    {
      Gate(tail, uses)
    }

    constructor ()
      ensures State() == NEW_GATE
    {
      tail, uses := 0, [];
    }

    /** use, up to the await: the ticket's promise becomes the tail. */
    method Arrive() returns (ticket: nat)
      modifies this
      ensures State() == old(State()).Arrived() && ticket == |old(uses)|
    {
      var previous := tail;
      ticket := |uses|;
      uses := uses + [Waiting(previous)];
      tail := |uses|;
    }

    /** After the await: the operation starts. */
    method Begin(ticket: nat)
      requires State().CanBegin(ticket)
      modifies this
      ensures State() == old(State()).Begun(ticket)
    {
      uses := uses[ticket := Running];
    }

    /** The finally block: the promise is resolved. */
    method End(ticket: nat)
      requires State().IsRunning(ticket)
      modifies this
      ensures State() == old(State()).Ended(ticket)
    {
      uses := uses[ticket := Finished];
    }
  }

  lemma NewGateValid()
    ensures NEW_GATE.Valid()
  {}

  lemma ArriveKeeps(g: Gate)
    requires g.Valid()
    ensures g.Arrived().Valid()
  {}

  lemma BeginKeeps(g: Gate, ticket: nat)
    requires g.Valid() && g.CanBegin(ticket)
    ensures g.Begun(ticket).Valid()
    ensures forall t :: 0 <= t < ticket ==> g.uses[t] == Finished
  {}

  lemma EndKeeps(g: Gate, ticket: nat)
    requires g.Valid() && g.IsRunning(ticket)
    ensures g.Ended(ticket).Valid()
  {}

  /** Mutual exclusion in arrival order: while an operation runs, all earlier ones are over
      and no later one has begun. */
  lemma OneAtATime(g: Gate, ticket: nat, other: nat)
    requires g.Valid() && g.IsRunning(ticket) && other < |g.uses| && other != ticket
    ensures if other < ticket then g.uses[other] == Finished else g.uses[other].Waiting?
  {}

  /** Nobody is forgotten: when nothing runs, the first use that waits can begin. */
  lemma FirstWaiterCanBegin(g: Gate, ticket: nat)
    requires g.Valid() && ticket < |g.uses| && g.uses[ticket].Waiting?
    requires forall t :: 0 <= t < ticket ==> !g.uses[t].Waiting?
    requires forall t :: 0 <= t < |g.uses| ==> g.uses[t] != Running
    ensures g.CanBegin(ticket)
  {}
}
