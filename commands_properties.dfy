/** Properties of the dispatcher of commands.go, stated over the model in module Commands. */
module CommandsProperties {
  import opened Commands

  // ---------------------------------------------------------------------------
  // One step of Dispatch
  // ---------------------------------------------------------------------------

  /** A token right after the reserved prefix that names a subcommand is taken out
      and the subcommand runs on what is left: the prefix in place, the rest shifted left. */
  lemma DescendsOnMatch(t: Tree, args: seq<string>)
    requires 0 <= ArgsUntilSub(t) < |args|
    requires t.subCommands.Entries? && args[ArgsUntilSub(t)] in t.subCommands.entries
    ensures var k := ArgsUntilSub(t);
      Route(t, args) == Resolve(t.subCommands.entries[args[k]], args[..k] + args[k + 1..])
  {
  }

  /** Without a matching token (too few arguments, a nil map, or an unknown name)
      the node's own handler runs on the unmodified list. */
  lemma FallsThrough(t: Tree, args: seq<string>)
    requires ArgsUntilSub(t) >= 0
    requires |args| <= ArgsUntilSub(t) || t.subCommands.Nil?
      || args[ArgsUntilSub(t)] !in t.subCommands.entries
    ensures Route(t, args) == Resolve(t.fn, args)
  {
  }

  /** A nil subcommand map always runs the node's own handler, whatever the sign of `MinArgs`. */
  lemma NilMapFallsThrough(t: Tree, args: seq<string>)
    requires t.subCommands.Nil?
    ensures Route(t, args) == Resolve(t.fn, args)
  {
  }

  /** A negative `MinArgs` on the node's own `Fn` record reaches `args[MinArgs]`
      whenever the subcommand map is non-nil: Go panics there. */
  lemma NegativeReservePanics(t: Tree, args: seq<string>)
    requires ArgsUntilSub(t) < 0 && t.subCommands.Entries?
    ensures Route(t, args) == IndexOutOfRange(ArgsUntilSub(t), |args|)
  {
  }

  /** A handler is resolved by its kind: a tree is dispatched, an `Fn` record goes
      through the gate, a plain function runs directly, anything else is `Invalid`. */
  lemma ResolvesByKind(h: Handler, args: seq<string>)
    ensures h.Nested? ==> Resolve(h, args) == Route(h.tree, args)
    ensures h.Gated? ==> Resolve(h, args) == Called(
      if h.cmd.minArgs == 0 || |args| < h.cmd.minArgs then h.cmd.help else h.cmd.fn, args)
    ensures h.Plain? ==> Resolve(h, args) == Called(h.id, args)
    ensures h.Bad? ==> Resolve(h, args) == InvalidHandler(args)
  {
  }

  // ---------------------------------------------------------------------------
  // Whole walks
  // ---------------------------------------------------------------------------

  /** The subcommand names a dispatch of `h` matches, outermost first. */
  function ResolvePath(h: Handler, args: seq<string>): seq<string>
    decreases h, 0
  {
    match h
    case Nested(tree) => RoutePath(tree, args)
    case _ => []
  }

  function RoutePath(t: Tree, args: seq<string>): seq<string>
    decreases t, 1
  {
    var k := ArgsUntilSub(t);
    if |args| > k && t.subCommands.Entries? then
      if k < 0 then []
      else if args[k] in t.subCommands.entries then
        [args[k]] + ResolvePath(t.subCommands.entries[args[k]], Splice(args, k))
      else ResolvePath(t.fn, args)
    else ResolvePath(t.fn, args)
  }

  /** Each descent removes exactly one argument: the handler that finally runs
      gets the original length minus the number of subcommand levels matched. */
  lemma {:induction false} RouteShortensPerLevel(t: Tree, args: seq<string>)
    ensures !Route(t, args).IndexOutOfRange? ==>
      |Route(t, args).args| + |RoutePath(t, args)| == |args|
    decreases t, 1
  {
    var k := ArgsUntilSub(t);
    if |args| > k && t.subCommands.Entries? {
      if k >= 0 {
        if args[k] in t.subCommands.entries {
          ResolveShortensPerLevel(t.subCommands.entries[args[k]], Splice(args, k));
        } else {
          ResolveShortensPerLevel(t.fn, args);
        }
      }
    } else {
      ResolveShortensPerLevel(t.fn, args);
    }
  }

  lemma {:induction false} ResolveShortensPerLevel(h: Handler, args: seq<string>)
    ensures !Resolve(h, args).IndexOutOfRange? ==>
      |Resolve(h, args).args| + |ResolvePath(h, args)| == |args|
    decreases h, 0
  {
    if h.Nested? {
      RouteShortensPerLevel(h.tree, args);
    }
  }

  /** No node of the walk reserves a prefix: every tree reachable from `h` has
      `ArgsUntilSub` zero (its own handler is not an `Fn` record, or one with `MinArgs` 0). */
  ghost predicate Unreserved(h: Handler)
    decreases h, 0
  {
    match h
    case Nested(tree) => UnreservedTree(tree)
    case _ => true
  }

  ghost predicate UnreservedTree(t: Tree)
    decreases t, 1
  {
    && ArgsUntilSub(t) == 0
    && Unreserved(t.fn)
    && (t.subCommands.Entries? ==>
          forall name :: name in t.subCommands.entries ==> Unreserved(t.subCommands.entries[name]))
  }

  /** In a tree with no reserved prefixes the matched names are exactly the leading
      arguments, and the handler that runs receives everything after them. */
  lemma {:induction false} UnreservedRouteSplitsArgs(t: Tree, args: seq<string>)
    requires UnreservedTree(t)
    ensures !Route(t, args).IndexOutOfRange?
    ensures RoutePath(t, args) + Route(t, args).args == args
    decreases t, 1
  {
    if |args| > 0 && t.subCommands.Entries? && args[0] in t.subCommands.entries {
      var sub := t.subCommands.entries[args[0]];
      StepOnFirstToken(t, args);
      UnreservedResolveSplitsArgs(sub, args[1..]);
      assert args == [args[0]] + args[1..];
    } else {
      assert Route(t, args) == Resolve(t.fn, args);
      assert RoutePath(t, args) == ResolvePath(t.fn, args);
      UnreservedResolveSplitsArgs(t.fn, args);
    }
  }

  /** One descent in a node without a reserved prefix consumes the first token. */
  lemma StepOnFirstToken(t: Tree, args: seq<string>)
    requires ArgsUntilSub(t) == 0 && |args| > 0
    requires t.subCommands.Entries? && args[0] in t.subCommands.entries
    ensures Route(t, args) == Resolve(t.subCommands.entries[args[0]], args[1..])
    ensures RoutePath(t, args) == [args[0]] + ResolvePath(t.subCommands.entries[args[0]], args[1..])
  {
    assert Splice(args, 0) == args[1..];
  }

  lemma {:induction false} UnreservedResolveSplitsArgs(h: Handler, args: seq<string>)
    requires Unreserved(h)
    ensures !Resolve(h, args).IndexOutOfRange?
    ensures ResolvePath(h, args) + Resolve(h, args).args == args
    decreases h, 0
  {
    if h.Nested? {
      UnreservedRouteSplitsArgs(h.tree, args);
    }
  }

  // ---------------------------------------------------------------------------
  // Where an outcome comes from
  // ---------------------------------------------------------------------------

  /** Every leaf function (main or help) stored anywhere in `h`. */
  ghost function Functions(h: Handler): set<FnId>
    decreases h, 0
  {
    match h
    case Nested(tree) => TreeFunctions(tree)
    case Gated(cmd) => {cmd.fn, cmd.help}
    case Plain(id) => {id}
    case Bad => {}
  }

  ghost function TreeFunctions(t: Tree): set<FnId>
    decreases t, 1
  {
    Functions(t.fn) +
      (if t.subCommands.Nil? then {}
       else set name, f | name in t.subCommands.entries && f in Functions(t.subCommands.entries[name]) :: f)
  }

  /** Dispatch invents no handler: whatever function it calls is one stored in the tree. */
  lemma {:induction false} RouteCallsTreeFunction(t: Tree, args: seq<string>)
    ensures Route(t, args).Called? ==> Route(t, args).fn in TreeFunctions(t)
    decreases t, 1
  {
    var k := ArgsUntilSub(t);
    if |args| > k && t.subCommands.Entries? {
      if k >= 0 {
        var entries := t.subCommands.entries;
        if args[k] in entries {
          ResolveCallsHandlerFunction(entries[args[k]], Splice(args, k));
        } else {
          ResolveCallsHandlerFunction(t.fn, args);
        }
      }
    } else {
      ResolveCallsHandlerFunction(t.fn, args);
    }
  }

  lemma {:induction false} ResolveCallsHandlerFunction(h: Handler, args: seq<string>)
    ensures Resolve(h, args).Called? ==> Resolve(h, args).fn in Functions(h)
    decreases h, 0
  {
    if h.Nested? {
      RouteCallsTreeFunction(h.tree, args);
    }
  }

  /** A tree holds no invalid value and no negative `MinArgs` anywhere. */
  ghost predicate WellFormed(h: Handler)
    decreases h, 0
  {
    match h
    case Nested(tree) => WellFormedTree(tree)
    case Gated(cmd) => cmd.minArgs >= 0
    case Plain(_) => true
    case Bad => false
  }

  ghost predicate WellFormedTree(t: Tree)
    decreases t, 1
  {
    && WellFormed(t.fn)
    && (t.subCommands.Entries? ==>
          forall name :: name in t.subCommands.entries ==> WellFormed(t.subCommands.entries[name]))
  }

  /** On a well-formed tree Dispatch always ends in a call of a leaf function:
      the `Invalid` error and the index panic need an ill-formed entry. */
  lemma {:induction false} WellFormedRouteCalls(t: Tree, args: seq<string>)
    requires WellFormedTree(t)
    ensures Route(t, args).Called?
    decreases t, 1
  {
    var k := ArgsUntilSub(t);
    if |args| > k && t.subCommands.Entries? && args[k] in t.subCommands.entries {
      WellFormedResolveCalls(t.subCommands.entries[args[k]], Splice(args, k));
    } else {
      WellFormedResolveCalls(t.fn, args);
    }
  }

  lemma {:induction false} WellFormedResolveCalls(h: Handler, args: seq<string>)
    requires WellFormed(h)
    ensures Resolve(h, args).Called?
    decreases h, 0
  {
    if h.Nested? {
      WellFormedRouteCalls(h.tree, args);
    }
  }

  // ---------------------------------------------------------------------------
  // The Invalid error text
  // ---------------------------------------------------------------------------

  predicate Contains(s: string, part: string)
  {
    exists i, j :: 0 <= i <= j <= |s| && s[i..j] == part
  }

  /** Each argument appears in the space-separated list, at the returned offset. */
  lemma {:induction false} JoinSpacedHas(args: seq<string>, n: nat) returns (at: nat)
    requires n < |args|
    ensures at + |args[n]| <= |JoinSpaced(args)|
    ensures JoinSpaced(args)[at..at + |args[n]|] == args[n]
  {
    if |args| == 1 {
      at := 0;
    } else {
      var first := args[0] + " ";
      assert JoinSpaced(args) == first + JoinSpaced(args[1..]);
      if n == 0 {
        at := 0;
        assert JoinSpaced(args)[..|args[0]|] == args[0];
      } else {
        var inner := JoinSpacedHas(args[1..], n - 1);
        at := |first| + inner;
        assert JoinSpaced(args)[at..at + |args[n]|] == JoinSpaced(args[1..])[inner..inner + |args[n]|];
      }
    }
  }

  /** Go's rendering of two concrete lists. */
  lemma InvalidMessageExamples()
    ensures InvalidMessage([]) == "invalid interface for: []"
    ensures InvalidMessage(["", "x"]) == "invalid interface for: [ x]"
  {
  }

  /** The error text says "invalid interface" and names every current argument. */
  lemma InvalidMessageNamesArgs(args: seq<string>)
    ensures Contains(InvalidMessage(args), "invalid interface")
    ensures forall n :: 0 <= n < |args| ==> Contains(InvalidMessage(args), args[n])
  {
    var msg := InvalidMessage(args);
    var head := "invalid interface for: [";
    assert msg == head + JoinSpaced(args) + "]";
    assert msg[0..|"invalid interface"|] == "invalid interface";
    forall n | 0 <= n < |args| ensures Contains(msg, args[n]) {
      var at := JoinSpacedHas(args, n);
      var i := |head| + at;
      assert msg[i..i + |args[n]|] == JoinSpaced(args)[at..at + |args[n]|];
    }
  }
}
