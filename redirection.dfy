/** Redirections of a parsed command: which descriptor, which file, which mode. */
module Redirections {
  import opened Wrappers

  datatype FileDescriptor = Stdout | Stderr

  /** Writing to the file from its start (`>`) or appending to it (`>>`). */
  datatype RedirectMode = Overwrite | Append

  /** The descriptor a redirection names: `""`, `"1"` and `"stdout"` name
      standard output, `"2"` and `"stderr"` standard error; any other string is
      handed back as the error. */
  function FromStr(s: string): (r: Result<FileDescriptor, string>)
    ensures r == Success(Stdout) <==> s == "" || s == "1" || s == "stdout"
    ensures r == Success(Stderr) <==> s == "2" || s == "stderr"
    ensures r.Failure? <==> s != "" && s != "1" && s != "stdout" && s != "2" && s != "stderr"
    ensures r.Failure? ==> r.error == s
  {
    if s == "" || s == "1" || s == "stdout" then Success(Stdout)
    else if s == "2" || s == "stderr" then Success(Stderr)
    else Failure(s)
  }

  /** The name of a descriptor, one of the two spellings `FromStrRoundTrip`
      shows `FromStr` decodes back to it. */
  function Name(fd: FileDescriptor): string
  {
    match fd
    case Stdout => "stdout"
    case Stderr => "stderr"
  }

  /** The number of a descriptor, the other spelling `FromStr` decodes back
      to it. */
  function Number(fd: FileDescriptor): string
  {
    match fd
    case Stdout => "1"
    case Stderr => "2"
  }

  /** Both spellings of a descriptor decode back to it, and only it. */
  lemma FromStrRoundTrip(fd: FileDescriptor, s: string)
    ensures FromStr(Name(fd)) == Success(fd)
    ensures FromStr(Number(fd)) == Success(fd)
    ensures FromStr(s) == Success(fd) ==> s == Name(fd) || s == Number(fd) || (fd == Stdout && s == "")
  {
  }

  datatype Redirection = Redirection(fd: FileDescriptor, target: string, mode: RedirectMode)
  {
    predicate IsStdout(): (b: bool)
      ensures b <==> fd == Stdout
    {
      fd == Stdout
    }

    predicate IsStderr(): (b: bool)
      ensures b <==> fd == Stderr
    {
      fd == Stderr
    }

    predicate IsAppend(): (b: bool)
      ensures b <==> mode == Append
    {
      mode.Append?
    }

    predicate IsOverwrite(): (b: bool)
      ensures b <==> mode == Overwrite
    {
      mode.Overwrite?
    }
  }

  /** A redirection holding exactly the three given fields. */
  function New(fd: FileDescriptor, target: string, mode: RedirectMode): (r: Redirection)
    ensures r.fd == fd && r.target == target && r.mode == mode
    ensures r.IsStdout() <==> fd == Stdout
    ensures r.IsAppend() <==> mode == Append
  {
    Redirection(fd, target, mode)
  }

  /** Every redirection is for exactly one of the two descriptors. */
  lemma DescriptorExclusive(r: Redirection)
    ensures r.IsStdout() <==> !r.IsStderr()
  {
  }

  /** Every redirection has exactly one of the two modes. */
  lemma ModeExclusive(r: Redirection)
    ensures r.IsAppend() <==> !r.IsOverwrite()
  {
  }
}
