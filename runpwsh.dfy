/**
 * The local PowerShell runner of the older generation: which interpreter is
 * started with which arguments, and how the captured output of the process is
 * turned into Go's `(string, error)` pair. Starting the process is not modelled;
 * what it printed arrives as a `ProcessOutput`.
 */
module Runpwsh {
  import opened Wrappers
  import opened GoStrings
  import opened Records

  /** What the finished process left behind: exit status and captured streams. */
  datatype ProcessOutput = ProcessOutput(exitCode: int, stdout: string, stderr: string)

  /** The characters stripped from the end of the captured output. */
  const LineEnd: string := "\r\n"

  /**
   * `runCommand`'s post-processing: any text on stderr becomes the error,
   * verbatim, whatever the exit status; the output is stdout without its
   * trailing carriage returns and line feeds.
   */
  function RunCommand(p: ProcessOutput): (r: CallResult)
    ensures r.err.Some? <==> p.stderr != ""
    ensures r.err.Some? ==> r.err.value == p.stderr
    ensures r.output == [] || r.output[|r.output| - 1] !in LineEnd
    ensures |r.output| <= |p.stdout| && p.stdout == r.output + p.stdout[|r.output|..]
    ensures forall i :: |r.output| <= i < |p.stdout| ==> p.stdout[i] == '\r' || p.stdout[i] == '\n'
  {
    var e := if p.stderr != "" then Some(p.stderr) else None;
    CallResult(TrimRight(p.stdout, LineEnd), e)
  }

  /** The exit status plays no part: a failing process that wrote nothing to stderr reports no error. */
  lemma ExitStatusIgnored(p: ProcessOutput, code: int)
    ensures RunCommand(p.(exitCode := code)) == RunCommand(p)
    ensures p.stderr == "" ==> RunCommand(p.(exitCode := code)).err == None
  {
  }

  /** The returned output is already trimmed: trimming it again changes nothing. */
  lemma OutputTrimmed(p: ProcessOutput)
    ensures TrimRight(RunCommand(p).output, LineEnd) == RunCommand(p).output
  {
    TrimRightIdempotent(p.stdout, LineEnd);
  }

  /** The interpreter `RunPowershellCommand` starts on the given operating system. */
  function Interpreter(goos: string): (exe: string)
    ensures exe == "powershell.exe" <==> goos == "windows"
    ensures exe == "pwsh" <==> goos != "windows"
  {
    if goos == "windows" then "powershell.exe" else "pwsh"
  }

  /** The argument vector `RunPowershellCommand` passes to `runCommand`: the script travels as one argument, untouched. */
  function Invocation(goos: string, command: string): (argv: seq<string>)
    ensures |argv| == 3 && argv[0] == Interpreter(goos)
    ensures argv[1..] == ["-command", command]
  {
    [Interpreter(goos), "-command", command]
  }
}
