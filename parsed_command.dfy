/** The command shape whose redirections are `Redirection` values, and its
    lookups of the redirection for one descriptor. */
module ParsedCommands {
  import opened Wrappers
  import opened Redirections

  datatype ParsedCommand = ParsedCommand(name: string, args: seq<string>, redirections: seq<Redirection>)

  /** The first redirection of `rs` for descriptor `fd`, if there is one. */
  function Find(rs: seq<Redirection>, fd: FileDescriptor): (r: Option<Redirection>)
    ensures r.None? <==> forall i :: 0 <= i < |rs| ==> rs[i].fd != fd
    ensures r.Some? ==> exists i :: 0 <= i < |rs| && rs[i] == r.value && FirstWith(rs, fd, i)
    decreases |rs|
  {
    if rs == [] then None
    else if rs[0].fd == fd then
      assert FirstWith(rs, fd, 0);
      Some(rs[0])
    else
      var r := Find(rs[1..], fd);
      if r.Some? then
        var i :| 0 <= i < |rs[1..]| && rs[1..][i] == r.value && FirstWith(rs[1..], fd, i);
        assert FirstWith(rs, fd, i + 1);
        r
      else r
  }

  /** `i` is the first position of `rs` holding a redirection for `fd`. */
  predicate FirstWith(rs: seq<Redirection>, fd: FileDescriptor, i: nat)
  {
    && i < |rs|
    && rs[i].fd == fd
    && forall j :: 0 <= j < i ==> rs[j].fd != fd
  }

  /** The redirection of standard output: the first one for it wins. */
  function StdoutRedirect(c: ParsedCommand): (r: Option<Redirection>)
    ensures r.None? <==> forall i :: 0 <= i < |c.redirections| ==> !c.redirections[i].IsStdout()
    ensures r.Some? ==> r.value.IsStdout()
    ensures r.Some? ==>
      exists i :: 0 <= i < |c.redirections| && c.redirections[i] == r.value && FirstWith(c.redirections, Stdout, i)
  {
    Find(c.redirections, Stdout)
  }

  /** The redirection of standard error: the first one for it wins. */
  function StderrRedirect(c: ParsedCommand): (r: Option<Redirection>)
    ensures r.None? <==> forall i :: 0 <= i < |c.redirections| ==> !c.redirections[i].IsStderr()
    ensures r.Some? ==> r.value.IsStderr()
    ensures r.Some? ==>
      exists i :: 0 <= i < |c.redirections| && c.redirections[i] == r.value && FirstWith(c.redirections, Stderr, i)
  {
    Find(c.redirections, Stderr)
  }

  /** The first redirection for each descriptor is the one found, whatever follows it. */
  lemma {:induction false} FindFirstWins(r: Redirection, rest: seq<Redirection>, pre: seq<Redirection>)
    requires forall i :: 0 <= i < |pre| ==> pre[i].fd != r.fd
    ensures Find(pre + [r] + rest, r.fd) == Some(r)
    decreases |pre|
  {
    if pre == [] {
      assert (pre + [r] + rest)[0] == r;
    } else {
      assert (pre + [r] + rest)[1..] == pre[1..] + [r] + rest;
      FindFirstWins(r, rest, pre[1..]);
    }
  }

  /** When both lookups find something, they find different redirections. */
  lemma BothRedirectsDiffer(c: ParsedCommand)
    ensures StdoutRedirect(c).Some? && StderrRedirect(c).Some? ==>
      StdoutRedirect(c).value != StderrRedirect(c).value
  {
  }
}
