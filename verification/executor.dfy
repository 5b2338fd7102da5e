/** The `Executor` interface shared by the production and mock executors:
    which standard streams each `Run*` variant binds to the host terminal,
    and a descriptor for one call of any of the six interface methods. */
module Executor {

  datatype Stream = Stdin | Stdout | Stderr

  /** The three binding variants: `Run`, `RunWithBoundOutput` and
      `RunWithBoundInputOutput`. */
  datatype Variant = Bare | BoundOutput | BoundInputOutput

  /** The host streams a variant connects to the child process. */
  function Bindings(v: Variant): set<Stream>
  {
    match v
    case Bare => {}
    case BoundOutput => {Stdout, Stderr}
    case BoundInputOutput => {Stdin, Stdout, Stderr}
  }

  /** Binding output never binds input, and each variant binds strictly
      more than the one before it. */
  lemma BindingsChain()
    ensures Bindings(Bare) == {}
    ensures Stdin !in Bindings(BoundOutput)
    ensures Bindings(Bare) < Bindings(BoundOutput) < Bindings(BoundInputOutput)
    ensures Bindings(BoundInputOutput) - Bindings(BoundOutput) == {Stdin}
    ensures forall s: Stream :: s in Bindings(BoundInputOutput)
  {
    assert Stdout in Bindings(BoundOutput);
    assert Stdin in Bindings(BoundInputOutput);
    forall s: Stream
      ensures s in Bindings(BoundInputOutput)
    {
      match s
      case Stdin =>
      case Stdout =>
      case Stderr =>
    }
  }

  /** One call of an interface method: `Plain(v, ...)` is the `Run*` method
      of variant `v`, `InDir(dir, v, ...)` its `RunInDir*` counterpart. */
  datatype Call =
    | Plain(variant: Variant, name: string, args: seq<string>)
    | InDir(dir: string, variant: Variant, name: string, args: seq<string>)
}
