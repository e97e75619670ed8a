/** The shared failure path of the steps (helper/error.go). */
module Helper {
  import opened Multistep

  /** The text of an error wrapped with `%s: %w`: the prefix and the cause
      can be read back from it. */
  function Wrap(prefix: string, cause: string): (w: string)
    ensures |w| == |prefix| + 2 + |cause|
    ensures w[..|prefix|] == prefix
    ensures w[|prefix|..|prefix| + 2] == ": "
    ensures w[|prefix| + 2..] == cause
  {
    var w := prefix + ": " + cause;
    assert w == prefix + (": " + cause);
    assert w[..|prefix|] == prefix;
    w
  }

  datatype Reported = Reported(action: Action, bag: Bag, line: UiLine)

  /** Stores the wrapped error under "error", shows its text as an error
      line and returns Halt; no other key of the bag changes. */
  function ErrorHelper(bag: Bag, prefix: string, cause: string): (r: Reported)
    ensures r.action == Halt
    ensures Writes(bag, r.bag, map[ErrorKey := ErrorValue(Wrap(prefix, cause))])
    ensures r.line == ErrorLine(r.bag[ErrorKey].message)
  {
    var err := ErrorValue(Wrap(prefix, cause));
    Reported(Halt, bag[ErrorKey := err], ErrorLine(err.message))
  }
}
