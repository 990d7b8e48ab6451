/** commands/registry.go: the process-wide map from command name to handler. */
module Registry {
  import opened Results

  /** The handlers the repository registers. FetchCommand is the only
      Command implementation it has. */
  datatype Command = FetchCommand

  /** The package-level `registry` map, updated in place. The class is
      generic in the handler type: nothing here depends on what a handler is. */
  class CommandRegistry<C> {
    var entries: map<string, C>

    constructor ()
      ensures entries == map[]
    {
      entries := map[];
    }

    /** RegisterCommand: binds name to cmd, replacing any earlier binding. */
    method RegisterCommand(name: string, cmd: C)
      modifies this
      ensures entries == old(entries)[name := cmd]
      ensures GetCommand(name) == Some(cmd)
      ensures forall m | m != name :: GetCommand(m) == old(GetCommand(m))
    {
      entries := entries[name := cmd];
    }

    /** GetCommand: the handler bound to name, or nil. */
    function GetCommand(name: string): (r: Option<C>)
      reads this
      ensures r.Some? <==> name in entries
      ensures r.Some? ==> r.value == entries[name]
    {
      if name in entries then Some(entries[name]) else None
    }
  }

  /** The registry after a sequence of registrations, in order. */
  function Registered<C>(regs: seq<(string, C)>): map<string, C>
  {
    if regs == [] then map[] else Registered(regs[..|regs| - 1])[regs[|regs| - 1].0 := regs[|regs| - 1].1]
  }

  /** Last registration wins: a name is bound to the handler of its last
      registration, and a name never registered is unbound. */
  lemma {:induction false} LastRegistrationWins<C>(regs: seq<(string, C)>, name: string)
    ensures name in Registered(regs) <==> exists i | 0 <= i < |regs| :: regs[i].0 == name
    ensures forall i | 0 <= i < |regs| && regs[i].0 == name && (forall j | i < j < |regs| :: regs[j].0 != name)
      :: Registered(regs)[name] == regs[i].1
  {
    if regs != [] {
      var init := regs[..|regs| - 1];
      LastRegistrationWins(init, name);
      assert forall i | 0 <= i < |init| :: init[i] == regs[i];
      if name in Registered(init) {
        var i :| 0 <= i < |init| && init[i].0 == name;
        assert regs[i].0 == name;
      }
    }
  }

  /** The model of the registry's methods agrees with Registered. */
  method RegisterAll<C>(r: CommandRegistry<C>, regs: seq<(string, C)>)
    requires r.entries == map[]
    modifies r
    ensures r.entries == Registered(regs)
  {
    var i := 0;
    while i < |regs|
      invariant 0 <= i <= |regs|
      invariant r.entries == Registered(regs[..i])
    {
      r.RegisterCommand(regs[i].0, regs[i].1);
      assert regs[..i + 1][..i] == regs[..i];
      i := i + 1;
    }
    assert regs[..i] == regs;
  }

  /** The registrations the repository makes at package initialisation
      (commands/fetch.go's init). */
  method Init() returns (r: CommandRegistry<Command>)
    ensures fresh(r) && r.entries == map["fetch" := FetchCommand]
  {
    r := new CommandRegistry();
    r.RegisterCommand("fetch", FetchCommand);
  }
}
