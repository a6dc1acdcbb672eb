/** A model of the command dispatcher of commands.go: a tree of named
    subcommands that routes a flat argument list to one handler.

    Go's untyped `interface{}` handler field becomes the sum type `Handler`;
    the leaf functions are opaque identifiers, and invoking one is recorded
    as the outcome `Called(fn, args)`, which the dispatcher returns unchanged. */
module Commands {

  /** Identity of a leaf function `func([]string) error`; what it does is not modelled. */
  type FnId = string

  /** The `Fn` record: a main function, the minimum argument count, and the help fallback.
      `minArgs` is a Go `int`, so it may be negative. */
  datatype Fn = Fn(fn: FnId, minArgs: int, help: FnId)

  /** A value stored in `Tree.Fn` or in a `Map` entry, classified by its dynamic type. */
  datatype Handler =
    | Nested(tree: Tree)   // a `Tree` value
    | Gated(cmd: Fn)       // an `Fn` record
    | Plain(id: FnId)      // a `func([]string) error`
    | Bad                  // any other value (nil, a string, a pointer, ...)

  /** `SubCommands`: a nil map or a (possibly empty) map from names to handlers. */
  datatype Map = Nil | Entries(entries: map<string, Handler>)

  datatype Tree = Tree(fn: Handler, subCommands: Map)

  /** What a dispatch ends in. */
  datatype Outcome =
    | Called(fn: FnId, args: seq<string>)      // the leaf ran on `args`; its error is passed through
    | InvalidHandler(args: seq<string>)        // the error built by `Invalid(args)`
    | IndexOutOfRange(index: int, length: nat) // Go's runtime panic on `args[index]`

  // ---------------------------------------------------------------------------
  // The pieces of Dispatch and run
  // ---------------------------------------------------------------------------

  /** `argsUntilSub`: how many leading arguments are kept out of subcommand matching. */
  function ArgsUntilSub(t: Tree): (k: int)
    ensures t.fn.Gated? ==> k == t.fn.cmd.minArgs
    ensures !t.fn.Gated? ==> k == 0
  {
    match t.fn
    case Gated(cmd) => cmd.minArgs
    case _ => 0
  }

  /** The list `append(args[0:k], args[k+1:]...)`: `args` without its element at `k`. */
  function Splice(args: seq<string>, k: nat): (r: seq<string>)
    requires k < |args|
    ensures |r| == |args| - 1
    ensures forall i :: 0 <= i < k ==> r[i] == args[i]
    ensures forall i :: k <= i < |r| ==> r[i] == args[i + 1]
  {
    args[..k] + args[k + 1..]
  }

  /** Putting the removed token back at `k` gives the original list. */
  lemma SpliceRestores(args: seq<string>, k: nat)
    requires k < |args|
    ensures Splice(args, k)[..k] + [args[k]] + Splice(args, k)[k..] == args
  {
  }

  /** `Invalid(args)`: the dispatcher's own error, carrying the current arguments. */
  function Invalid(args: seq<string>): (r: Outcome)
    ensures r.InvalidHandler? && r.args == args
  {
    InvalidHandler(args)
  }

  /** The text of the error `Invalid(args)` returns: Go's `%s` verb prints a
      `[]string` as its elements separated by spaces, in brackets. */
  function InvalidMessage(args: seq<string>): (msg: string)
    ensures |msg| == |"invalid interface for: ["| + |JoinSpaced(args)| + 1
    ensures msg[..|"invalid interface for: ["|] == "invalid interface for: ["
    ensures msg[|"invalid interface for: ["|..|msg| - 1] == JoinSpaced(args)
    ensures msg[|msg| - 1] == ']'
  {
    "invalid interface for: " + "[" + JoinSpaced(args) + "]"
  }

  /** The elements of `args` separated by single spaces. */
  function JoinSpaced(args: seq<string>): (r: string)
    ensures |args| > 0 ==> |args[0]| <= |r| && r[..|args[0]|] == args[0]
    ensures |args| > 1 ==> |args[0]| < |r| && r[|args[0]|] == ' '
  {
    if |args| == 0 then ""
    else if |args| == 1 then args[0]
    else args[0] + " " + JoinSpaced(args[1..])
  }

  /** `minArgs(min, fn, fallback)`: a function that runs `fallback` when `min` is zero
      or too few arguments are given, and `fn` otherwise; either runs on the given list. */
  function MinArgs(min: int, fn: FnId, fallback: FnId): (g: seq<string> -> Outcome)
    ensures forall args :: g(args).Called? && g(args).args == args
    ensures forall args :: min == 0 || |args| < min ==> g(args).fn == fallback
    ensures forall args :: min != 0 && |args| >= min ==> g(args).fn == fn
  {
    (args: seq<string>) => if min == 0 || |args| < min then Called(fallback, args) else Called(fn, args)
  }

  // ---------------------------------------------------------------------------
  // What Dispatch and run compute
  // ---------------------------------------------------------------------------

  /** The outcome of `run(h, args)`. */
  function Resolve(h: Handler, args: seq<string>): Outcome
    decreases h, 0
  {
    match h
    case Nested(tree) => Route(tree, args)
    case Gated(cmd) => MinArgs(cmd.minArgs, cmd.fn, cmd.help)(args)
    case Plain(id) => Called(id, args)
    case Bad => Invalid(args)
  }

  /** The outcome of `t.Dispatch(args)`. The `for key, item := range` search of
      the source is membership of the token among the map's keys. */
  function Route(t: Tree, args: seq<string>): Outcome
    decreases t, 1
  {
    var k := ArgsUntilSub(t);
    if |args| > k && t.subCommands.Entries? then
      if k < 0 then IndexOutOfRange(k, |args|)
      else if args[k] in t.subCommands.entries then
        Resolve(t.subCommands.entries[args[k]], Splice(args, k))
      else Resolve(t.fn, args)
    else Resolve(t.fn, args)
  }

  // ---------------------------------------------------------------------------
  // Dispatch and run as the source performs them
  // ---------------------------------------------------------------------------

  /** `run`: resolves the handler by its kind. */
  method Run(input: Handler, args: seq<string>) returns (r: Outcome)
    ensures r == Resolve(input, args)
    decreases input, 0
  {
    match input
    case Nested(tree) =>
      r := Dispatch(tree, args);
    case Gated(cmd) =>
      var wrapped := MinArgs(cmd.minArgs, cmd.fn, cmd.help);
      r := wrapped(args);
    case Plain(id) =>
      r := Called(id, args);
    case Bad =>
      r := Invalid(args);
  }

  /** `Tree.Dispatch`: searches the subcommands for the token after the reserved
      prefix, one key at a time, and either descends or runs the node's own handler. */
  method Dispatch(t: Tree, args: seq<string>) returns (r: Outcome)
    ensures r == Route(t, args)
    decreases t, 1
  {
    var argsUntilSub := 0;
    if t.fn.Gated? {
      argsUntilSub := t.fn.cmd.minArgs;
    }
    if |args| > argsUntilSub && t.subCommands.Entries? {
      if argsUntilSub < 0 {
        return IndexOutOfRange(argsUntilSub, |args|);
      }
      var subCommand := args[argsUntilSub];
      var entries := t.subCommands.entries;
      var unvisited := entries.Keys;
      while unvisited != {}
        invariant unvisited <= entries.Keys
        invariant subCommand !in entries.Keys - unvisited
        decreases unvisited
      {
        var key :| key in unvisited;
        if subCommand == key {
          r := Run(entries[key], Splice(args, argsUntilSub));
          return;
        }
        unvisited := unvisited - {key};
      }
    }
    r := Run(t.fn, args);
  }
}
