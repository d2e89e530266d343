/**
 The trace keywords of Events.cs. An `EventKeywords` value is a 64-bit flag
 set; the program defines two flags, one per kind of directory entry, and a
 record selects an entry kind by carrying its bit.
 */
module Keywords {

  type EventKeywords = bv64

  /** The value of a record that sets no keywords (the default of the options). */
  const NoKeywords: EventKeywords := 0
  const File: EventKeywords := 1
  const Directory: EventKeywords := 2

  /** The kinds of directory entry a keyword can stand for. */
  datatype Entity = FileEntry | DirectoryEntry

  /** The entry kinds a keyword value selects; bits outside File and Directory select nothing. */
  function Entities(k: EventKeywords): set<Entity>
  {
    (if k & File != 0 then {FileEntry} else {}) + (if k & Directory != 0 then {DirectoryEntry} else {})
  }

  /** The keyword value that selects exactly the given entry kinds. */
  function FromEntities(s: set<Entity>): (k: EventKeywords)
    ensures Defined(k)
  {
    (if FileEntry in s then File else NoKeywords) | (if DirectoryEntry in s then Directory else NoKeywords)
  }

  /** A keyword value built from the program's own flags only. */
  predicate Defined(k: EventKeywords)
  {
    k & !(File | Directory) == 0
  }

  /** File and Directory are distinct single bits: their union holds both and is neither. */
  lemma FlagsAreDistinctBits()
    ensures File & Directory == NoKeywords
    ensures File != Directory && File != NoKeywords && Directory != NoKeywords
    ensures (Directory | File) & File == File && (Directory | File) & Directory == Directory
    ensures Directory | File != File && Directory | File != Directory
    ensures Entities(File) == {FileEntry} && Entities(Directory) == {DirectoryEntry}
    ensures Entities(Directory | File) == {FileEntry, DirectoryEntry} && Entities(NoKeywords) == {}
  {
  }

  /** Encoding a set of entry kinds as bits and decoding it gives the set back. */
  lemma {:induction false} EntitiesRoundTrip(s: set<Entity>)
    ensures Entities(FromEntities(s)) == s
  {
    var k := FromEntities(s);
    assert FileEntry in s <==> k & File != 0;
    assert DirectoryEntry in s <==> k & Directory != 0;
    forall e | e in s ensures e in Entities(k) {
      if e == FileEntry { } else { }
    }
  }

  /** A defined keyword value is determined by the entry kinds it selects. */
  lemma DefinedIsDeterminedByEntities(k: EventKeywords, k': EventKeywords)
    requires Defined(k) && Defined(k')
    requires Entities(k) == Entities(k')
    ensures k == k'
  {
  }
}
