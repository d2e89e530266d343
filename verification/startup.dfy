/**
 The argument check at the start of `Main` in Program.cs: the program needs
 exactly one argument naming an existing directory, and otherwise prints a
 usage line and returns without watching anything. Whether a directory
 exists is supplied by the caller.
 */
module Startup {

  const UsageLine: string := "Usage: FolderWatcher <directory-path>"
  const StopHint: string := "Press Ctrl + C to stop."

  datatype Outcome =
    | Usage(line: string)
    | Watch(root: string, line: string)

  /** What `Main` does with its arguments before it blocks: watch the named directory, or print the usage line. */
  function Start(args: seq<string>, directoryExists: string -> bool): (r: Outcome)
    ensures r.Watch? <==> |args| == 1 && directoryExists(args[0])
    ensures r.Watch? ==> r.root == args[0] && r.line == StopHint
    ensures r.Usage? ==> r.line == UsageLine
  {
    if |args| != 1 || !directoryExists(args[0]) then Usage(UsageLine)
    else Watch(args[0], StopHint)
  }
}
