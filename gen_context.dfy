/**
 * The generation context the quadruple generator walks with: the label
 * counter, the stacks of break and continue targets, and the flag that marks
 * the generation of a function's parameters. Only the interface the nodes use
 * is modelled; its implementation is not.
 */
module GenCtx {

  /** The value state of a generation context. */
  datatype GenState = GenState(
    labelCounter: nat,
    breakLabels: seq<nat>,
    continueLabels: seq<nat>,
    declareFuncParams: bool)

  /** A fresh context: labels start at L0 and both target stacks are empty. */
  const InitialGenState := GenState(0, [], [], false)

  class GenerationContext {
    var labelCounter: nat
    var breakLabels: seq<nat>
    var continueLabels: seq<nat>
    var declareFuncParams: bool

    function Snapshot(): GenState
      reads this
    {
      GenState(labelCounter, breakLabels, continueLabels, declareFuncParams)
    }

    constructor ()
      ensures Snapshot() == InitialGenState
    {
      labelCounter := 0;
      breakLabels := [];
      continueLabels := [];
      declareFuncParams := false;
    }

    /** `labelCounter++`: the label is the counter's old value, and the counter moves past it. */
    method NewLabel() returns (l: nat)
      modifies this
      ensures l == old(labelCounter)
      ensures Snapshot() == old(Snapshot()).(labelCounter := l + 1)
    {
      l := labelCounter;
      labelCounter := labelCounter + 1;
    }
  }
}
