/**
 The raw notifications the directory watcher raises (Program.cs wires one
 handler per kind). A change carries the entry's name and full path, a
 rename also the old name and old full path, and an error the message and
 full type name of the exception it reports.
 */
module Notifications {

  datatype RawNotification =
    | Created(name: string, fullPath: string)
    | Changed(name: string, fullPath: string)
    | Deleted(name: string, fullPath: string)
    | Renamed(name: string, fullPath: string, oldName: string, oldFullPath: string)
    | Error(message: string, typeName: string)
  {
    /** The notifications delivered to `OnChange`. */
    predicate IsChange()
    {
      Created? || Changed? || Deleted?
    }
  }

  /** The name of the notification's change type (`ChangeType.ToString()`), under which it is written to the diagnostic channel. */
  function ChangeTypeName(raw: RawNotification): string
    requires !raw.Error?
  {
    match raw
    case Created(_, _) => "Created"
    case Changed(_, _) => "Changed"
    case Deleted(_, _) => "Deleted"
    case Renamed(_, _, _, _) => "Renamed"
  }

  /** Two notifications share a change-type name exactly when they are of the same kind. */
  lemma ChangeTypeNamesAreDistinct(a: RawNotification, b: RawNotification)
    requires !a.Error? && !b.Error?
    ensures ChangeTypeName(a) == ChangeTypeName(b) <==>
      (a.Created? && b.Created?) || (a.Changed? && b.Changed?) ||
      (a.Deleted? && b.Deleted?) || (a.Renamed? && b.Renamed?)
    ensures ChangeTypeName(a) == "Renamed" <==> a.Renamed?
  {
  }
}
