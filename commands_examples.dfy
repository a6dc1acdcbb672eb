/** The dispatch table exercised by commands_test.go, evaluated on the model. */
module CommandsExamples {
  import opened Commands
  import CommandsProperties

  /** The tree of TestDispatchCorrectCommand: a root function, an `os` subtree with
      two leaves, two plain leaves, and an entry `bad` holding a string. */
  function OsTree(): Tree
  {
    Tree(Plain("osErrNotExist"),
         Entries(map["exist" := Plain("osErrExist"), "closed" := Plain("osErrClosed")]))
  }

  function TestTree(): (t: Tree)
    ensures t.subCommands.Entries? && t.subCommands.entries.Keys == {"os", "http", "io", "bad"}
  {
    Tree(Plain("ioEOF"),
         Entries(map["os" := Nested(OsTree()),
                     "http" := Plain("httpErrContentLength"),
                     "io" := Plain("ioEOF"),
                     "bad" := Bad]))
  }

  /** Each row of the test's table reaches the expected function with the expected arguments. */
  lemma DispatchCorrectCommand()
    ensures Route(TestTree(), []) == Called("ioEOF", [])
    ensures Route(TestTree(), ["foo"]) == Called("ioEOF", ["foo"])
    ensures Route(TestTree(), ["os", "exist"]) == Called("osErrExist", [])
    ensures Route(TestTree(), ["os", "exist", "foo", "bar", "baz"]) == Called("osErrExist", ["foo", "bar", "baz"])
    ensures Route(TestTree(), ["os", "closed", "!"]) == Called("osErrClosed", ["!"])
    ensures Route(TestTree(), ["os", "beep", "boop"]) == Called("osErrNotExist", ["beep", "boop"])
  {
  }

  /** The `bad` entry yields the `Invalid` error on the remaining arguments, and its
      text contains "invalid interface". */
  lemma DispatchBadEntry()
    ensures Route(TestTree(), ["bad", "times"]) == InvalidHandler(["times"])
    ensures CommandsProperties.Contains(InvalidMessage(["times"]), "invalid interface")
  {
    assert ["bad", "times"][1..] == ["times"];
    CommandsProperties.InvalidMessageNamesArgs(["times"]);
  }

  /** A node whose own handler is an `Fn` record with `MinArgs` 1 keeps the first
      argument in place and matches the second one. */
  function GatedTree(): Tree
  {
    Tree(Gated(Fn("run", 1, "help")), Entries(map["sub" := Plain("subFn")]))
  }

  lemma GatedNodeExamples()
    ensures Route(GatedTree(), ["pre", "sub", "rest"]) == Called("subFn", ["pre", "rest"])
    ensures Route(GatedTree(), ["sub"]) == Called("run", ["sub"])
    ensures Route(GatedTree(), []) == Called("help", [])
    ensures Route(GatedTree(), ["pre", "other"]) == Called("run", ["pre", "other"])
  {
  }
}
