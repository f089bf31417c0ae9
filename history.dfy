/** The recording history: the recordings directory under the extension's
    support path, one folder per recording, each holding `recording.wav`,
    optionally `transcription.txt` and optionally `metadata.json`.
    The directory is modelled as a map from folder name to what the
    extension can observe of that folder. */
module History {
  import opened Wrappers
  import opened Paths

  /** The contents of `metadata.json`. */
  datatype Metadata = Metadata(title: string, timestamp: string, createdAt: string)

  /** What reading `metadata.json` yields: no such file, a file that does
      not parse, or the parsed record. */
  datatype MetadataFile = Absent | Unparsable | Parsed(metadata: Metadata)

  /** One entry of the recordings directory. `mtime` is the entry's
      modification time in milliseconds. */
  datatype Folder = Folder(
    isDirectory: bool,
    mtime: int,
    hasAudio: bool,
    hasTranscription: bool,
    metadataFile: MetadataFile)

  /** A listed recording, as the history view holds it. */
  datatype Recording = Recording(
    folderName: string,
    title: string,
    date: int,
    audioPath: string,
    transcriptionPath: string,
    metadataPath: string,
    hasTranscription: bool,
    hasMetadata: bool)

  const AudioFile := "recording.wav"
  const TranscriptionFile := "transcription.txt"
  const MetadataFileName := "metadata.json"

  function FolderPath(root: string, name: string): string
  {
    Join(root, name)
  }

  function AudioPath(root: string, name: string): string
  {
    Join(FolderPath(root, name), AudioFile)
  }

  function TranscriptionPath(root: string, name: string): string
  {
    Join(FolderPath(root, name), TranscriptionFile)
  }

  function MetadataPath(root: string, name: string): string
  {
    Join(FolderPath(root, name), MetadataFileName)
  }

  /** A directory entry is a recording when it is a directory holding the audio file. */
  predicate Listable(f: Folder)
  {
    f.isDirectory && f.hasAudio
  }

  /** The entry the listing builds for a listable folder: the title comes
      from parsed metadata, else it is the folder name. */
  function EntryOf(root: string, name: string, f: Folder): Recording
  {
    var hasMetadata := f.metadataFile.Parsed?;
    var title := if hasMetadata then f.metadataFile.metadata.title else name;
    Recording(name, title, f.mtime,
              AudioPath(root, name), TranscriptionPath(root, name), MetadataPath(root, name),
              f.hasTranscription, hasMetadata)
  }

  /** What the scan pushes for one directory entry. */
  function EntryFor(root: string, name: string, folders: map<string, Folder>): seq<Recording>
  {
    if name in folders && Listable(folders[name]) then [EntryOf(root, name, folders[name])] else []
  }

  /** The unsorted list the scan builds, visiting `names` in order. */
  function Listed(root: string, names: seq<string>, folders: map<string, Folder>): seq<Recording>
  {
    if names == [] then []
    else Listed(root, names[..|names| - 1], folders) + EntryFor(root, names[|names| - 1], folders)
  }

  /** Newest first: modification times never increase along the list. */
  predicate NewestFirst(s: seq<Recording>)
  {
    forall k, l :: 0 <= k < l < |s| ==> s[k].date >= s[l].date
  }

  /** No name occurs twice (as in a directory listing). */
  predicate Distinct(names: seq<string>)
  {
    forall i, j :: 0 <= i < j < |names| ==> names[i] != names[j]
  }

  /** The list without the entries of folder `name`. */
  function WithoutFolder(rs: seq<Recording>, name: string): seq<Recording>
  {
    if rs == [] then []
    else WithoutFolder(rs[..|rs| - 1], name) + (if rs[|rs| - 1].folderName == name then [] else [rs[|rs| - 1]])
  }

  /** The metadata the rename form reads back when it is submitted: present
      only when the folder is a directory whose `metadata.json` parses. */
  function StoredMetadata(folders: map<string, Folder>, name: string): Option<Metadata>
  {
    if name in folders && folders[name].isDirectory && folders[name].metadataFile.Parsed?
    then Some(folders[name].metadataFile.metadata)
    else None
  }

  /** The record the rename form writes: the new title, the folder name as
      timestamp, and the stored creation time when the listing found
      metadata, else `now`. When the listing found metadata that can no
      longer be read, reading it fails and nothing is written (None). */
  function NewMetadata(recording: Recording, title: string, stored: Option<Metadata>, now: string): Option<Metadata>
  {
    if !recording.hasMetadata then Some(Metadata(title, recording.folderName, now))
    else if stored.Some? then Some(Metadata(title, recording.folderName, stored.value.createdAt))
    else None
  }

  /** Writing `metadata.json` succeeds only inside an existing directory. */
  predicate Writable(folders: map<string, Folder>, name: string)
  {
    name in folders && folders[name].isDirectory
  }

  /** A folder after `metadata.json` has been overwritten with `m`. */
  function WithMetadata(f: Folder, m: Metadata): Folder
  {
    f.(metadataFile := Parsed(m))
  }

  // ---------------------------------------------------------------------------
  // Properties of the listing

  /** A recording is listed exactly when it is the entry of a listed name
      whose folder is a directory holding the audio file. */
  lemma {:induction false} ListedMembership(root: string, names: seq<string>, folders: map<string, Folder>, r: Recording)
    ensures r in Listed(root, names, folders) <==>
            exists n :: n in names && n in folders && Listable(folders[n]) && r == EntryOf(root, n, folders[n])
  {
    if names != [] {
      var init, last := names[..|names| - 1], names[|names| - 1];
      ListedMembership(root, init, folders, r);
      assert names == init + [last];
      if r in Listed(root, names, folders) && r !in Listed(root, init, folders) {
        assert last in names;
      }
      if n :| n in names && n in folders && Listable(folders[n]) && r == EntryOf(root, n, folders[n]) {
        if n != last {
          assert n in init;
        }
      }
    }
  }

  /** Every listed entry comes from a different name, so the list is no
      longer than the listing, and for a listing without repetitions the
      folder names in the list are distinct. */
  lemma {:induction false} ListedOnePerFolder(root: string, names: seq<string>, folders: map<string, Folder>)
    ensures |Listed(root, names, folders)| <= |names|
    ensures Distinct(names) ==>
            forall i, j :: 0 <= i < j < |Listed(root, names, folders)| ==>
              Listed(root, names, folders)[i].folderName != Listed(root, names, folders)[j].folderName
  {
    if names != [] {
      var init, last := names[..|names| - 1], names[|names| - 1];
      ListedOnePerFolder(root, init, folders);
      if Distinct(names) {
        var rs := Listed(root, names, folders);
        var front := Listed(root, init, folders);
        assert Distinct(init);
        forall i | 0 <= i < |front|
          ensures front[i].folderName != last
        {
          ListedMembership(root, init, folders, front[i]);
          var n :| n in init && n in folders && Listable(folders[n]) && front[i] == EntryOf(root, n, folders[n]);
          var k :| 0 <= k < |init| && init[k] == n;
          assert names[k] == n && names[|names| - 1] == last;
        }
        forall i, j | 0 <= i < j < |rs|
          ensures rs[i].folderName != rs[j].folderName
        {
          if j >= |front| {
            assert rs[j] == EntryOf(root, last, folders[last]);
            assert rs[i] == front[i];
          } else {
            assert rs[i] == front[i] && rs[j] == front[j];
          }
        }
      }
    }
  }

  /** A listing that names each directory entry once yields at most one
      recording per folder of the recordings directory. */
  lemma ListedBoundedByFolders(root: string, names: seq<string>, folders: map<string, Folder>)
    requires Distinct(names)
    requires forall n :: n in names <==> n in folders
    ensures |Listed(root, names, folders)| <= |folders|
  {
    ListedOnePerFolder(root, names, folders);
    DistinctCardinality(names);
    assert (set n | n in names) == folders.Keys;
  }

  lemma {:induction false} DistinctCardinality(names: seq<string>)
    requires Distinct(names)
    ensures |set n | n in names| == |names|
  {
    if names != [] {
      var init, last := names[..|names| - 1], names[|names| - 1];
      assert Distinct(init);
      DistinctCardinality(init);
      assert names == init + [last];
      assert (set n | n in names) == (set n | n in init) + {last};
      assert last !in (set n | n in init);
    }
  }

  /** The three paths of an entry lie in its own folder, which is the
      folder named by the entry, and they are three different files. */
  lemma EntryPaths(root: string, name: string, f: Folder)
    ensures var r := EntryOf(root, name, f);
            && Dirname(r.audioPath) == FolderPath(root, r.folderName)
            && Dirname(r.transcriptionPath) == FolderPath(root, r.folderName)
            && Dirname(r.metadataPath) == FolderPath(root, r.folderName)
            && r.audioPath != r.transcriptionPath && r.audioPath != r.metadataPath
            && r.transcriptionPath != r.metadataPath
  {
    var dir := FolderPath(root, name);
    DirnameOfJoin(dir, AudioFile);
    DirnameOfJoin(dir, TranscriptionFile);
    DirnameOfJoin(dir, MetadataFileName);
    JoinInjective(dir, AudioFile, TranscriptionFile);
    JoinInjective(dir, AudioFile, MetadataFileName);
    JoinInjective(dir, TranscriptionFile, MetadataFileName);
  }

  /** Metadata that parses is the only source of the title; otherwise the
      title is the folder name. `hasMetadata` says which case applied, and
      `hasTranscription` mirrors the transcription file. */
  lemma EntryTitle(root: string, name: string, f: Folder)
    ensures var r := EntryOf(root, name, f);
            && r.folderName == name && r.date == f.mtime
            && (r.hasMetadata <==> f.metadataFile.Parsed?)
            && r.title == (if r.hasMetadata then f.metadataFile.metadata.title else name)
            && (r.hasTranscription <==> f.hasTranscription)
  {
  }

  // ---------------------------------------------------------------------------
  // Properties of rename and delete

  /** Renaming then listing again shows the new title and marks the entry as
      having metadata; nothing else in the entry changes. */
  lemma RenameThenList(root: string, name: string, f: Folder, recording: Recording, title: string, stored: Option<Metadata>, now: string)
    requires recording == EntryOf(root, name, f)
    requires NewMetadata(recording, title, stored, now).Some?
    ensures var m := NewMetadata(recording, title, stored, now).value;
            && m.title == title && m.timestamp == name
            && EntryOf(root, name, WithMetadata(f, m)) == recording.(title := title, hasMetadata := true)
  {
  }

  /** The creation time survives a rename: with metadata it is the stored
      one, without it is `now`; and a second rename of the relisted entry
      keeps what the first one wrote, whatever its own `now`. */
  lemma RenameTwicePreservesCreatedAt(root: string, name: string, folders: map<string, Folder>,
                                      title1: string, now1: string, title2: string, now2: string)
    requires Writable(folders, name) && Listable(folders[name])
    requires NewMetadata(EntryOf(root, name, folders[name]), title1, StoredMetadata(folders, name), now1).Some?
    ensures var r1 := EntryOf(root, name, folders[name]);
            var m1 := NewMetadata(r1, title1, StoredMetadata(folders, name), now1).value;
            var folders' := folders[name := WithMetadata(folders[name], m1)];
            var m2 := NewMetadata(EntryOf(root, name, folders'[name]), title2, StoredMetadata(folders', name), now2);
            && m1.createdAt == (if r1.hasMetadata then folders[name].metadataFile.metadata.createdAt else now1)
            && m2 == Some(Metadata(title2, name, m1.createdAt))
  {
  }

  /** The detail view keeps the entry it was opened with, and its rename
      form is given that same entry. Renaming twice from there, for a folder
      first listed without metadata, takes the `now` branch both times: the
      second rename overwrites the creation time the first one wrote. */
  lemma RenameTwiceWithStaleEntryResetsCreatedAt(root: string, name: string, folders: map<string, Folder>,
                                                 title1: string, now1: string, title2: string, now2: string)
    requires Writable(folders, name) && Listable(folders[name])
    requires !folders[name].metadataFile.Parsed?
    ensures var r := EntryOf(root, name, folders[name]);
            var m1 := NewMetadata(r, title1, StoredMetadata(folders, name), now1);
            && !r.hasMetadata
            && m1 == Some(Metadata(title1, name, now1))
            && var folders' := folders[name := WithMetadata(folders[name], m1.value)];
               && StoredMetadata(folders', name) == Some(Metadata(title1, name, now1))
               && NewMetadata(r, title2, StoredMetadata(folders', name), now2) == Some(Metadata(title2, name, now2))
  {
  }

  /** After a folder is removed, listing in the same order gives the old
      list without that folder's entries and with every other entry
      unchanged and in place. */
  lemma {:induction false} DeleteThenList(root: string, names: seq<string>, folders: map<string, Folder>, name: string)
    ensures Listed(root, names, folders - {name}) == WithoutFolder(Listed(root, names, folders), name)
  {
    if names != [] {
      var init, last := names[..|names| - 1], names[|names| - 1];
      DeleteThenList(root, init, folders, name);
      WithoutFolderAppend(Listed(root, init, folders), EntryFor(root, last, folders), name);
    }
  }

  lemma {:induction false} WithoutFolderAppend(a: seq<Recording>, b: seq<Recording>, name: string)
    requires |b| <= 1
    ensures WithoutFolder(a + b, name) == WithoutFolder(a, name) + WithoutFolder(b, name)
  {
    if b != [] {
      assert (a + b)[..|a + b| - 1] == a;
      assert b[..0] == [];
    } else {
      assert a + b == a;
    }
  }

  // ---------------------------------------------------------------------------
  // The recordings directory

  class RecordingStore {
    /** Path of the recordings directory. */
    const rootPath: string
    /** Whether the recordings directory exists. */
    var rootExists: bool
    /** Its entries, by name. */
    var folders: map<string, Folder>

    ghost predicate Valid()
      reads this
    {
      rootPath != [] && (!rootExists ==> folders == map[])
    }

    constructor (rootPath: string, rootExists: bool, folders: map<string, Folder>)
      requires rootPath != [] && (!rootExists ==> folders == map[])
      ensures Valid()
      ensures this.rootPath == rootPath && this.rootExists == rootExists && this.folders == folders
    {
      this.rootPath := rootPath;
      this.rootExists := rootExists;
      this.folders := folders;
    }

    /** Scans the directory, whose entries `listing` gives in the order the
        operating system returns them, and lists the recordings newest first. */
    method LoadRecordings(listing: seq<string>) returns (list: seq<Recording>)
      requires rootExists ==> forall n :: n in listing <==> n in folders
      ensures !rootExists ==> list == []
      ensures rootExists ==> multiset(list) == multiset(Listed(rootPath, listing, folders))
      ensures NewestFirst(list)
    {
      if !rootExists {
        return [];
      }
      var pushed: seq<Recording> := [];
      for i := 0 to |listing|
        invariant pushed == Listed(rootPath, listing[..i], folders)
      {
        assert listing[..i + 1][..i] == listing[..i];
        var name := listing[i];
        var folder := folders[name];
        if folder.isDirectory {
          if folder.hasAudio {
            var title := name;
            var hasMetadata := false;
            match folder.metadataFile {
              case Parsed(m) =>
                title := m.title;
                hasMetadata := true;
              case _ =>
            }
            pushed := pushed + [Recording(name, title, folder.mtime,
                                          AudioPath(rootPath, name), TranscriptionPath(rootPath, name),
                                          MetadataPath(rootPath, name), folder.hasTranscription, hasMetadata)];
          }
        }
      }
      assert listing[..|listing|] == listing;
      var a := new Recording[|pushed|](k requires 0 <= k < |pushed| => pushed[k]);
      assert a[..] == pushed;
      SortNewestFirst(a);
      list := a[..];
    }

    /** Deletes the folder of a listed recording when the user confirmed. */
    method DeleteRecording(recording: Recording, confirmed: bool)
      requires Valid()
      requires recording.audioPath == AudioPath(rootPath, recording.folderName)
      modifies this
      ensures Valid() && rootExists == old(rootExists)
      ensures folders == if confirmed then old(folders) - {recording.folderName} else old(folders)
    {
      if confirmed {
        var folderPath := Dirname(recording.audioPath);
        DirnameOfJoin(FolderPath(rootPath, recording.folderName), AudioFile);
        forall k ensures FolderPath(rootPath, k) == folderPath <==> k == recording.folderName {
          JoinInjective(rootPath, k, recording.folderName);
        }
        folders := map k | k in folders && FolderPath(rootPath, k) != folderPath :: folders[k];
      }
    }

    /** Removes the recordings directory and recreates it empty when the
        user confirmed. */
    method DeleteAllRecordings(confirmed: bool)
      requires Valid()
      modifies this
      ensures Valid()
      ensures confirmed ==> rootExists && folders == map[]
      ensures !confirmed ==> rootExists == old(rootExists) && folders == old(folders)
    {
      if confirmed {
        // rmSync removes the directory with everything in it ...
        rootExists := false;
        folders := map[];
        // ... and mkdirSync creates it again, empty.
        rootExists := true;
      }
    }

    /** Submits the rename form: reads the stored creation time back when the
        listing found metadata, builds the new metadata and overwrites
        `metadata.json`. Returns whether the file was written. */
    method RenameRecording(recording: Recording, title: string, now: string) returns (ok: bool)
      requires Valid()
      requires recording.metadataPath == MetadataPath(rootPath, recording.folderName)
      modifies this
      ensures Valid() && rootExists == old(rootExists)
      ensures !old(rootExists) ==> !ok
      ensures var name := recording.folderName;
              var m := NewMetadata(recording, title, StoredMetadata(old(folders), name), now);
              && ok == (m.Some? && Writable(old(folders), name))
              && folders == if ok then old(folders)[name := WithMetadata(old(folders)[name], m.value)] else old(folders)
    {
      var name := recording.folderName;
      var createdAt := now;
      if recording.hasMetadata {
        var stored := StoredMetadata(folders, name);
        if stored.None? {
          return false;
        }
        createdAt := stored.value.createdAt;
      }
      var metadata := Metadata(title, name, createdAt);
      if !Writable(folders, name) {
        return false;
      }
      folders := folders[name := folders[name].(metadataFile := Parsed(metadata))];
      ok := true;
    }
  }

  /** The first `n` elements of `a` are newest first. */
  ghost predicate NewestFirstUpTo(a: array<Recording>, n: int)
    reads a
  {
    forall k, l :: 0 <= k < l < n && l < a.Length ==> a[k].date >= a[l].date
  }

  /** Sorts the scanned entries in place, newest first, by insertion. */
  method SortNewestFirst(a: array<Recording>)
    modifies a
    ensures NewestFirst(a[..])
    ensures multiset(a[..]) == multiset(old(a[..]))
  {
    for i := 0 to a.Length
      invariant NewestFirstUpTo(a, i)
      invariant multiset(a[..]) == multiset(old(a[..]))
    {
      InsertNewest(a, i);
    }
  }

  /** Moves `a[i]` left past every older entry, so that the first `i + 1`
      elements are newest first. */
  method InsertNewest(a: array<Recording>, i: nat)
    requires i < a.Length && NewestFirstUpTo(a, i)
    modifies a
    ensures NewestFirstUpTo(a, i + 1)
    ensures multiset(a[..]) == multiset(old(a[..]))
  {
    var j := i;
    while j > 0 && a[j - 1].date < a[j].date
      invariant 0 <= j <= i
      invariant forall k, l :: 0 <= k < l <= i && l != j ==> a[k].date >= a[l].date
      invariant multiset(a[..]) == multiset(old(a[..]))
    {
      Swap(a, j - 1, j);
      j := j - 1;
    }
  }

  method Swap(a: array<Recording>, i: nat, j: nat)
    requires i < j < a.Length
    modifies a
    ensures a[i] == old(a[j]) && a[j] == old(a[i])
    ensures forall k :: 0 <= k < a.Length && k != i && k != j ==> a[k] == old(a[k])
    ensures multiset(a[..]) == multiset(old(a[..]))
  {
    a[i], a[j] := a[j], a[i];
  }
}
