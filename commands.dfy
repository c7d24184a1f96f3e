/** The table of builtin commands, keyed by name. */
module Commands {
  import opened Wrappers

  /** A builtin as the table sees it: its name and its help line. */
  datatype Handler = Handler(name: string, help: string)

  const ExitHandler := Handler("exit", "exit [code] - Exit the shell with optional exit code")
  const EchoHandler := Handler("echo", "echo [text] - Print text to stdout")
  const PwdHandler := Handler("pwd", "pwd - Print the current working directory")
  const CdHandler := Handler("cd", "cd [directory] - Change the current directory")
  const TypeHandler := Handler("type", "type [command] - Show the type of a command")
  const HelpHandler := Handler("help", "help [command] - Show help for all commands or a specific command")

  /** The names the registry starts with. */
  const BuiltinNames: set<string> := {"exit", "echo", "pwd", "cd", "type", "help"}

  /** The table after the six registrations, in their order. */
  const Builtins: map<string, Handler> := map[
    "exit" := ExitHandler, "echo" := EchoHandler, "pwd" := PwdHandler,
    "cd" := CdHandler, "type" := TypeHandler, "help" := HelpHandler]

  /** The builtins are exactly the six names, each stored under its own name. */
  lemma BuiltinTable()
    ensures Builtins.Keys == BuiltinNames
    ensures forall k :: k in Builtins ==> Builtins[k].name == k
  {
  }

  /** No two positions of `s` hold the same string. */
  predicate Distinct(s: seq<string>)
  {
    forall i, j :: 0 <= i < j < |s| ==> s[i] != s[j]
  }

  class CommandRegistry {
    var handlers: map<string, Handler>

    /** Every handler is stored under its own name. */
    ghost predicate Valid()
      reads this
    {
      forall k :: k in handlers ==> handlers[k].name == k
    }

    /** A registry with the six builtins. */
    constructor()
      ensures Valid()
      ensures handlers == Builtins
    {
      handlers := map[];
      new;
      Register(ExitHandler);
      Register(EchoHandler);
      Register(PwdHandler);
      Register(CdHandler);
      Register(TypeHandler);
      Register(HelpHandler);
    }

    /** Stores `h` under its own name, replacing any handler of that name; every
        other entry stays as it was. */
    method Register(h: Handler)
      requires Valid()
      modifies this
      ensures Valid()
      ensures handlers == old(handlers)[h.name := h]
    {
      handlers := handlers[h.name := h];
    }

    /** The handler registered under exactly `name`, if any. */
    function Get(name: string): (r: Option<Handler>)
      reads this
      ensures r.Some? <==> name in handlers
      ensures r.Some? ==> r.value == handlers[name]
      ensures Valid() && r.Some? ==> r.value.name == name
    {
      if name in handlers then Some(handlers[name]) else None
    }

    /** Every registered name, once each, in no particular order. */
    method ListCommands() returns (names: seq<string>)
      ensures forall n :: n in names <==> n in handlers
      ensures Distinct(names)
      ensures |names| == |handlers|
    {
      names := [];
      var left := handlers.Keys;
      while left != {}
        invariant left <= handlers.Keys
        invariant forall n :: n in names <==> n in handlers && n !in left
        invariant Distinct(names)
        invariant |names| + |left| == |handlers|
        decreases |left|
      {
        var k :| k in left;
        names := names + [k];
        left := left - {k};
      }
    }

    /** The names of the registered handlers that start with `prefix`, once each,
        in no particular order; the empty prefix gives every name. */
    method FindCommandStartingWith(prefix: string) returns (names: seq<string>)
      requires Valid()
      ensures forall n :: n in names <==> n in handlers && prefix <= n
      ensures Distinct(names)
      ensures prefix == [] ==> |names| == |handlers|
    {
      names := [];
      var left := handlers.Keys;
      while left != {}
        invariant left <= handlers.Keys
        invariant forall n :: n in names <==> n in handlers && n !in left && prefix <= n
        invariant Distinct(names)
        invariant prefix == [] ==> |names| + |left| == |handlers|
        decreases |left|
      {
        var k :| k in left;
        var h := handlers[k];
        if prefix <= h.name {
          names := names + [h.name];
        }
        left := left - {k};
      }
    }
  }
}
