# A verified model of the `cli` command dispatcher and target table

The Go package `cli` has two building blocks for command-line tools:

- a **command tree** (`commands.go`). `Tree.Dispatch(args)` routes an argument list to a handler. A node whose own handler is an `Fn` record keeps its first `MinArgs` arguments out of subcommand matching. If the next token names a subcommand, that one token is removed and the subcommand runs. Otherwise the node's own handler runs on the unchanged list. `run` resolves a handler by its dynamic type: a nested `Tree` is dispatched, an `Fn` record goes through the `minArgs` gate (help when `MinArgs` is 0 or too few arguments are present, the main function otherwise), a plain function is called, and anything else gives the `Invalid(args)` error;
- a **configuration file** (`configfile.go`). This is a table of named targets, each a flat string-to-string map, with `Create`, `Target` and `Delete` on the file and `Set`, `Get` and `Delete` on a target.

Files:

- `commands.dfy` (module `Commands`) holds the data model and the two implementations. Handlers are a sum type `Nested | Gated | Plain | Bad`, and leaf functions are opaque identifiers. The pure functions `Route` and `Resolve` state what `Dispatch` and `run` return. The methods `Dispatch` and `Run` follow the source step by step, and each is proved equal to its function. `Dispatch` keeps the `for key, item := range` search as a loop over the keys not yet visited, taken in any order.
- `commands_properties.dfy` (module `CommandsProperties`) holds the lemmas about whole walks.
- `commands_examples.dfy` (module `CommandsExamples`) holds the table of `commands_test.go`, evaluated on the model.
- `configfile.dfy` (module `Config`) holds the classes `ConfigTarget` and `ConfigFile`. A Go map is a reference to a shared table, so `ConfigTarget` is a class whose `entries` field the methods reassign, and `ConfigFile.targets` maps names to those objects. `Target` returns the stored object itself, so a `Set` through it changes the file, as it does in Go.
- `configfile_examples.dfy` (module `ConfigExamples`) holds the scenarios of `configfile_test.go` as client methods (`CreateScenario`, `TargetScenario`, `DeleteScenario`, `TargetEntryScenarios`) and `SetThroughTarget`.

Outcomes: `Called(fn, args)` records which leaf ran on which arguments. The dispatcher passes its error on unchanged, since every exit of `Dispatch` is `return run(...)`. `InvalidHandler(args)` is the `Invalid` error. `IndexOutOfRange(k, n)` is Go's run-time panic on `args[k]`, which happens when a node's `Fn` record has a negative `MinArgs` and its `SubCommands` map is not nil. The model is a set of total functions over values, so dispatch always terminates. It cannot change the tree, and equal inputs always give equal outcomes.

- `SubCommands` is tested `!= nil`, not for emptiness. This matters only when `MinArgs` is negative: a non-nil empty map then panics and a nil map does not, so `Map` is `Nil | Entries(...)`.
- `MinArgs` is a Go `int` and may be negative. The model keeps `int` and models the panic.
- `Tree.Fn` is an `interface{}` like the map entries, so `Bad` is allowed there too.
- The doc comment of `ConfigFile.Target` says "creating one if needed". The code creates nothing and returns the error `"<name> target not found"`, and the model does the same.

## Model

| member | source | states |
|---|---|---|
| `Commands.ArgsUntilSub` | commands.go:23-26 | the reserved prefix is `MinArgs` when the node's handler is an `Fn` record, and 0 for every other kind of handler |
| `Commands.Splice` | commands.go:31 | the list passed to a subcommand is one shorter: elements before `k` stay in place and those after `k` move left by one |
| `Commands.SpliceRestores` | commands.go:31 | putting the matched token back at index `k` gives back the original argument list, so exactly that one token was removed |
| `Commands.Invalid` | commands.go:54-56 | the dispatcher's own error carries the argument list active where it was raised |
| `Commands.InvalidMessage` | commands.go:55 | the text of the `Invalid` error is "invalid interface for: " followed by the arguments as Go's `%s` prints a `[]string`: in brackets, separated by spaces |
| `Commands.JoinSpaced` | commands.go:55 | the space-separated rendering of the list inside those brackets: it starts with the first argument, followed by a space when there is a second |
| `Commands.MinArgs` | commands.go:60-66 | the gate always runs a leaf on the unchanged list: the fallback exactly when `min == 0` or fewer than `min` arguments are given, and the main function otherwise |
| `Commands.Run` | commands.go:39-50 | `run` returns exactly `Resolve(input, args)`: a tree is dispatched, an `Fn` record is gated, a plain function is called, and anything else is `Invalid(args)` |
| `Commands.Dispatch` | commands.go:22-37 | the search through the subcommand keys, in any order, with early return, computes exactly `Route(t, args)`; the loop invariant is that no visited key equals the token |
| `CommandsProperties.DescendsOnMatch` | commands.go:27-33 | when the token after the reserved prefix names a subcommand, dispatch is that subcommand's result on `args[..k] + args[k+1..]` |
| `CommandsProperties.FallsThrough` | commands.go:27-36 | with too few arguments, a nil map or an unknown token, the node's own handler runs on the unmodified list |
| `CommandsProperties.NilMapFallsThrough` | commands.go:27-36 | with a nil subcommand map the node's own handler runs on the unmodified list for any `MinArgs`, negative included |
| `CommandsProperties.NegativeReservePanics` | commands.go:23-28 | a negative `MinArgs` on the node's `Fn` record with a non-nil map always reaches the out-of-range index `args[MinArgs]` |
| `CommandsProperties.ResolvesByKind` | commands.go:39-50 | each of the four handler kinds resolves as the source's chain of type tests says, with the gate calling help exactly when `MinArgs == 0 or len(args) < MinArgs` |
| `CommandsProperties.RouteShortensPerLevel` | commands.go:27-33 | the handler that finally runs receives the original length minus the number of subcommand levels matched |
| `CommandsProperties.ResolveShortensPerLevel` | commands.go:39-42 | the same count for a dispatch that starts at a handler value (a nested tree adds its levels; leaves add none) |
| `CommandsProperties.UnreservedRouteSplitsArgs` | commands.go:22-37 | in a tree with no reserved prefixes, the matched names are exactly the leading arguments and the leaf receives everything after them, never panicking |
| `CommandsProperties.StepOnFirstToken` | commands.go:27-33 | in a node with no reserved prefix, a matching first token is consumed: its subcommand runs on `args[1..]` and the token heads the matched path |
| `CommandsProperties.UnreservedResolveSplitsArgs` | commands.go:39-42 | the same split for a dispatch that starts at a handler value |
| `CommandsProperties.RouteCallsTreeFunction` | commands.go:22-50 | dispatch invents no handler: any function it calls is a main or help function stored in the tree |
| `CommandsProperties.ResolveCallsHandlerFunction` | commands.go:39-50 | the same for a handler value: the function called is one of those it holds |
| `CommandsProperties.WellFormedRouteCalls` | commands.go:22-50 | a tree with no invalid value and no negative `MinArgs` always ends in a call of a leaf, never in `Invalid` or a panic |
| `CommandsProperties.WellFormedResolveCalls` | commands.go:39-50 | the same for a well-formed handler value |
| `CommandsProperties.JoinSpacedHas` | commands.go:55 | every argument occurs in the space-separated rendering of the list, at the returned offset |
| `CommandsProperties.InvalidMessageNamesArgs` | commands.go:54-56 | the `Invalid` error text contains "invalid interface" and every current argument |
| `CommandsProperties.InvalidMessageExamples` | commands.go:55 | the rendering on concrete lists: `[]` for no arguments, and an empty argument leaves only its separating space |
| `CommandsExamples.TestTree` | commands_test.go:32-46 | the test tree has the subcommands `os`, `http`, `io` and `bad` |
| `CommandsExamples.DispatchCorrectCommand` | commands_test.go:47-88 | every row of the test table reaches the expected leaf with the expected arguments, e.g. `os exist foo bar baz` reaches `exist` with `[foo bar baz]` and `os beep boop` reaches the `os` node's own function with `[beep boop]` |
| `CommandsExamples.DispatchBadEntry` | commands_test.go:89-91 | `bad times` yields the `Invalid` error on `[times]`, whose text contains "invalid interface" |
| `CommandsExamples.GatedNodeExamples` | commands.go:23-33 | with `MinArgs` 1 the token matched is the second one and the first is kept, and without a match the gate picks help or the main function by count |
| `Config.ConfigTarget.constructor` | configfile.go:11 | a target literal holds exactly the given entries |
| `Config.ConfigTarget.Get` | configfile.go:103-105 | the stored value, or "" (Go's zero value) for an absent key |
| `Config.ConfigTarget.Set` | configfile.go:90-93 | afterwards `Get(key) == value`, every other key reads as before, and the receiver is returned for chaining |
| `Config.ConfigTarget.Delete` | configfile.go:96-99 | `key` is gone and reads as "", every other key reads as before, and the receiver is returned |
| `Config.ConfigFile.Profiles` | configfile.go:14-16 | the file's contents by name: the same names as the table, each with its target's entries |
| `Config.ConfigFile.constructor` | configfile.go:20-25 | `NewConfigFile` starts from the single target `default`, which is the caller's own table |
| `Config.ConfigFile.Create` | configfile.go:40-48 | an absent name gets a fresh target `{"type": storeType}`, an existing target is left as it is, no other target changes, and the receiver is returned |
| `Config.ConfigFile.Target` | configfile.go:51-57 | a present name yields the stored target itself; an absent one yields the error "<name> target not found" |
| `Config.ConfigFile.Delete` | configfile.go:60-63 | the name is removed, it is a no-op when the name is absent (so a second call changes nothing), and every other target is unchanged |
| `ConfigExamples.SetThroughTarget` | configfile.go:51-54 | a `Set` on the target returned by `Target` changes the file's own entry for that name, and names bound to other tables do not change |

## Left out

- `Load`, `Save`, `String` and the `Load` call inside `NewConfigFile` (configfile.go:26-37, 65-87) are left out. They are YAML serialisation over `io.Reader` and `io.Writer` and belong to an external library, so the constructor models only the state before loading.
- What the leaf handlers do, and the error values they return, is left out. Leaves are identifiers, and an outcome records which one ran and on which arguments.
- Go's run-time type assertions on `interface{}` are replaced by a match on the sum type `Handler`. Its `Bad` variant stands for every value of another type, nil included.
- The order of Go's map iteration in the subcommand search is not fixed. `Dispatch` picks the next key arbitrarily, so the proof covers every order. Keys are unique, so at most one key can match.
- The in-place `append` splice is not modelled: in Go it overwrites the caller's backing array. Argument lists are immutable sequences here.
- Panics on nil functions are left out: a nil `Help` in an `Fn` record, or a nil plain function. Leaf identifiers are never nil.
- Panics on nil maps are left out: `Create` on a `ConfigFile` whose `Targets` is nil, and `Set` on a nil `ConfigTarget`. The model's maps are never nil.
- `Config.ConfigFile.Target`: Go returns a pointer to a copy of the map header. Mutations through it reach the stored table, as in the model. But assigning a whole new map through that pointer would not replace the stored target, and the model does not cover that case.
- Concurrency is not modelled. The dispatcher has no shared state, and the configuration types are not safe for concurrent use.
