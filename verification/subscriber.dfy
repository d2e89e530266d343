/**
 The diagnostic subscriber installed by the static constructor of
 Program.cs: for each value written to the diagnostic channel it prints one
 console line, naming the old and the new full path for a rename and the
 full path for anything else. Only the text of the line is modelled.
 */
module Subscriber {

  import opened Notifications

  /** The subscriber can print a value: a rename key carries rename arguments, and every value carries a path. */
  predicate Printable(key: string, args: RawNotification)
  {
    !args.Error? && (key == "Renamed" ==> args.Renamed?)
  }

  /** The console line printed for a value written under `key`. */
  function ConsoleLine(key: string, args: RawNotification): (line: string)
    requires Printable(key, args)
    ensures |line| >= |key| + 4
    ensures line[..|key| + 3] == key + ": '"
    ensures line[|line| - 1] == '\''
  {
    if key == "Renamed" then key + ": '" + args.oldFullPath + "' -> '" + args.fullPath + "'"
    else key + ": '" + args.fullPath + "'"
  }

  /**
   The paths can be read back from a line: between the quotes for an
   ordinary key, and for a rename the old path first and the new path after
   the arrow.
   */
  lemma ConsoleLineShowsPaths(key: string, args: RawNotification)
    requires Printable(key, args)
    ensures key != "Renamed" ==>
      var line := ConsoleLine(key, args);
      line[|key| + 3..|line| - 1] == args.fullPath
    ensures key == "Renamed" ==>
      var line := ConsoleLine(key, args);
      var n := |args.oldFullPath|;
      && |line| == n + |args.fullPath| + 17
      && line[10..10 + n] == args.oldFullPath
      && line[10 + n..16 + n] == "' -> '"
      && line[16 + n..|line| - 1] == args.fullPath
  {
  }
}
