/** Clients of module Config: the scenarios of configfile_test.go, and what the
    shared-table semantics of Go maps mean for a caller of `Target`. */
module ConfigExamples {
  import opened Config

  /** Changing a key through the target that `Target` returns changes the file:
      every name bound to that same table sees the new value, the others do not change. */
  method SetThroughTarget(file: ConfigFile, name: string, key: string, value: string)
    returns (found: bool)
    modifies file.targets.Values
    ensures found == (name in file.targets)
    ensures file.targets == old(file.targets)
    ensures found ==> file.Profiles()[name] == old(file.Profiles()[name])[key := value]
    ensures found ==> forall n :: n in file.targets && file.targets[n] != old(file.targets[name]) ==>
      file.Profiles()[n] == old(file.Profiles()[n])
    ensures !found ==> file.Profiles() == old(file.Profiles())
  {
    var r := file.Target(name);
    match r
    case Ok(target) =>
      var _ := target.Set(key, value);
      found := true;
    case Err(_) =>
      found := false;
  }

  /** TestConfigFile_Create: new targets are added, existing ones are not overwritten. */
  method CreateScenario()
  {
    var existing := new ConfigTarget(map["key" := "value"]);
    var file := new ConfigFile(existing);
    var same := file.Create("test", "s3");
    assert same == file && file.Profiles()["test"] == map["type" := "s3"];
    assert file.targets["default"] == existing;
    same := file.Create("default", "s3");
    assert file.targets["default"] == existing;
    assert existing.entries == map["key" := "value"];
  }

  /** TestConfigFile_Target: a present target is found, a missing one is an error.
      The Go test checks that the returned pointer differs from the caller's: it points
      to a copy of the map header. A model object stands for the shared map table, so
      here the found target is the stored object itself. */
  method TargetScenario()
  {
    var stored := new ConfigTarget(map[]);
    var file := new ConfigFile(stored);
    var found := file.Target("default");
    assert found == Ok(stored);
    var missing := file.Target("test");
    assert missing.Err? && missing.message[..4] == "test";
  }

  /** TestConfigFile_Delete: deleting removes the name; deleting again changes nothing. */
  method DeleteScenario()
  {
    var stored := new ConfigTarget(map[]);
    var file := new ConfigFile(stored);
    var same := file.Delete("default");
    assert "default" !in file.targets;
    ghost var before := file.targets;
    same := file.Delete("default");
    assert file.targets == before;
  }

  /** TestTarget_Set, TestTarget_Get and TestTarget_Delete, chained through the
      returned receivers. */
  method TargetEntryScenarios()
  {
    var target := new ConfigTarget(map[]);
    var same := target.Set("key", "value");
    assert |target.entries| == 1 && target.Get("key") == "value";
    assert target.Get("other") == "";
    same := same.Delete("key");
    assert same == target && "key" !in target.entries;
  }
}
