/**
 The classification done by the handlers of Program.cs: each raw
 notification becomes one trace record written on a named channel, with a
 keyword set, a level and a payload. Whether a path names an existing
 directory is answered by the caller, through `directoryExists`, which is
 asked about the notification's (new) full path only.
 */
module Classifier {

  import opened Wrappers
  import opened Notifications
  import opened Keywords

  /** The trace levels the program uses. */
  datatype Level = Verbose | Informational | Error

  /** The fields a trace record carries. */
  datatype Payload =
    | Entry(name: string, fullPath: string)
    | RenamedEntry(name: string, fullPath: string, oldName: string, oldFullPath: string)
    | Failure(errorMessage: string, errorType: string)

  datatype TraceRecord = TraceRecord(channel: string, keywords: EventKeywords, level: Level, payload: Payload)

  /** The channel names a trace record can be written on. */
  const Channels: set<string> := {"Create", "Update", "Delete", "Rename", "Error"}

  /** The keyword chosen from whether the entry's path exists: Directory if it does, File if not. */
  function ExistenceKeyword(pathExists: bool): EventKeywords
  {
    FromEntities(ObservedEntity(pathExists))
  }

  /** The record `OnChange` writes, by its switch on the change type. */
  function ClassifyChange(raw: RawNotification, directoryExists: string -> bool): TraceRecord
    requires raw.IsChange()
  {
    match raw
    case Created(name, fullPath) =>
      TraceRecord("Create", ExistenceKeyword(directoryExists(fullPath)), Informational, Entry(name, fullPath))
    case Deleted(name, fullPath) =>
      TraceRecord("Delete", FromEntities({FileEntry, DirectoryEntry}), Informational, Entry(name, fullPath))
    case Changed(name, fullPath) =>
      TraceRecord("Update", ExistenceKeyword(directoryExists(fullPath)), Verbose, Entry(name, fullPath))
  }

  /** The record `OnRename` writes; the existence question is asked of the new full path. */
  function ClassifyRename(raw: RawNotification, directoryExists: string -> bool): TraceRecord
    requires raw.Renamed?
  {
    TraceRecord("Rename", ExistenceKeyword(directoryExists(raw.fullPath)), Informational,
      RenamedEntry(raw.name, raw.fullPath, raw.oldName, raw.oldFullPath))
  }

  /** The record `OnError` writes: no keywords are set. */
  function ClassifyError(raw: RawNotification): TraceRecord
    requires raw.Error?
  {
    TraceRecord("Error", NoKeywords, Level.Error, Failure(raw.message, raw.typeName))
  }

  /** The record written for any notification, by the handler it is wired to. */
  function Classify(raw: RawNotification, directoryExists: string -> bool): (r: TraceRecord)
    ensures r.channel in Channels
    ensures Defined(r.keywords)
    ensures r.level == Level.Error <==> raw.Error?
    ensures r.keywords == NoKeywords <==> raw.Error?
  {
    if raw.IsChange() then ClassifyChange(raw, directoryExists)
    else if raw.Renamed? then ClassifyRename(raw, directoryExists)
    else ClassifyError(raw)
  }

  /** The entry kinds selected for an entry observed to exist (a directory) or not (a file). */
  function ObservedEntity(pathExists: bool): set<Entity>
  {
    if pathExists then {DirectoryEntry} else {FileEntry}
  }

  /**
   The classification policy, stated on the entry kinds a record selects
   rather than on its bits: a creation, a change and a rename select the
   directory kind exactly when the (new) full path names an existing
   directory and the file kind otherwise; a deletion selects both, since the
   entry can no longer be inspected; an error selects none. Changes are
   verbose, errors are errors, everything else is informational, and the
   payload carries the notification's fields.
   */
  predicate Policy(raw: RawNotification, directoryExists: string -> bool, r: TraceRecord)
  {
    && Defined(r.keywords)
    && match raw
      case Created(name, fullPath) =>
        && r.channel == "Create" && r.level == Informational
        && Entities(r.keywords) == ObservedEntity(directoryExists(fullPath))
        && r.payload == Entry(name, fullPath)
      case Changed(name, fullPath) =>
        && r.channel == "Update" && r.level == Verbose
        && Entities(r.keywords) == ObservedEntity(directoryExists(fullPath))
        && r.payload == Entry(name, fullPath)
      case Deleted(name, fullPath) =>
        && r.channel == "Delete" && r.level == Informational
        && Entities(r.keywords) == {FileEntry, DirectoryEntry} && r.payload == Entry(name, fullPath)
      case Renamed(name, fullPath, oldName, oldFullPath) =>
        && r.channel == "Rename" && r.level == Informational
        && Entities(r.keywords) == ObservedEntity(directoryExists(fullPath))
        && r.payload == RenamedEntry(name, fullPath, oldName, oldFullPath)
      case Error(message, typeName) =>
        && r.channel == "Error" && r.level == Level.Error
        && Entities(r.keywords) == {} && r.payload == Failure(message, typeName)
  }

  /** The classification follows the policy, and the policy admits no other record. */
  lemma ClassifyFollowsPolicy(raw: RawNotification, directoryExists: string -> bool, r: TraceRecord)
    ensures Policy(raw, directoryExists, r) <==> r == Classify(raw, directoryExists)
  {
  }

  /** The notification a trace record was written for, read back from its channel and payload. */
  function Notification(r: TraceRecord): Option<RawNotification>
  {
    match r.payload
    case Entry(name, fullPath) =>
      if r.channel == "Create" then Some(Created(name, fullPath))
      else if r.channel == "Update" then Some(Changed(name, fullPath))
      else if r.channel == "Delete" then Some(Deleted(name, fullPath))
      else None
    case RenamedEntry(name, fullPath, oldName, oldFullPath) =>
      if r.channel == "Rename" then Some(Renamed(name, fullPath, oldName, oldFullPath)) else None
    case Failure(message, typeName) =>
      if r.channel == "Error" then Some(RawNotification.Error(message, typeName)) else None
  }

  /** The existence observation a trace record reflects, where its classification depended on one. */
  function Existence(r: TraceRecord): Option<bool>
  {
    if r.channel in {"Create", "Update", "Rename"} then Some(r.keywords == Directory) else None
  }

  /** No information is lost: the notification can always be read back from its record. */
  lemma ClassifyRoundTrip(raw: RawNotification, directoryExists: string -> bool)
    ensures Notification(Classify(raw, directoryExists)) == Some(raw)
  {
  }

  /**
   The answer about the full path is read back from creations, changes and
   renames; deletions and errors reflect no answer.
   */
  lemma ExistenceRoundTrip(raw: RawNotification, directoryExists: string -> bool)
    ensures raw.Deleted? || raw.Error? ==> Existence(Classify(raw, directoryExists)) == None
    ensures !raw.Deleted? && !raw.Error? ==>
      Existence(Classify(raw, directoryExists)) == Some(directoryExists(raw.fullPath))
  {
  }

  /**
   The record depends on the filesystem only through the answer for the
   notification's full path: deletions and errors do not depend on it at
   all, and two answers give the same creation, change or rename record
   exactly when they agree on that path. For a rename this is the new full
   path; what the old full path names never matters.
   */
  lemma ClassifyAsksOnlyFullPath(raw: RawNotification, e1: string -> bool, e2: string -> bool)
    ensures raw.Deleted? || raw.Error? ==> Classify(raw, e1) == Classify(raw, e2)
    ensures !raw.Deleted? && !raw.Error? ==>
      (Classify(raw, e1) == Classify(raw, e2) <==> e1(raw.fullPath) == e2(raw.fullPath))
  {
  }

  /** The trace channel never reuses the diagnostic change-type name. */
  lemma ChannelDiffersFromChangeTypeName(raw: RawNotification, directoryExists: string -> bool)
    requires !raw.Error?
    ensures Classify(raw, directoryExists).channel != ChangeTypeName(raw)
  {
  }
}
