/**
 * The memory archive of `src/memory/googleDrive.js`: memory text is written
 * into a `memories` folder of a Drive account, split into parts when it is
 * larger than a byte limit, and every file written is recorded in an index
 * document kept in the application's data folder.
 *
 * Drive itself is modelled as state: the folders in creation order (a query
 * with `pageSize: 1` answers with the first match), the plain files keyed by
 * their parent folder and name, the index document, and a counter that hands
 * out fresh ids.
 */
module GoogleDrive {
  import opened Wrappers
  import opened JsString

  newtype byte = x: int | 0 <= x < 256

  type FileId = nat

  // ---------------------------------------------------------------- the Drive state

  /** A folder; `parent` is `None` for a folder created without `parents`. */
  datatype Folder = Folder(id: FileId, name: string, parent: Option<FileId>)

  /** The app properties attached to every memory file (`type: "memory"` is implied). */
  datatype MemoryProps = MemoryProps(topic: string, sessionIdentifier: string, expiresAt: string)

  datatype StoredFile = StoredFile(id: FileId, content: seq<byte>, props: MemoryProps)

  /** One index record: `{ file, updated_time }`. */
  datatype IndexEntry = IndexEntry(file: string, updatedTime: string)

  /** The index document: absent, holding a JSON object, or holding text that does not parse. */
  datatype IndexFile = NoIndex | Index(entries: map<string, IndexEntry>) | Unreadable

  datatype Store = Store(
    folders: seq<Folder>,
    files: map<(FileId, string), StoredFile>,
    indexFile: IndexFile,
    nextId: FileId)

  /** Every id in use was handed out before `nextId`, so `nextId` is fresh. */
  predicate IdsBelow(st: Store) {
    && (forall i :: 0 <= i < |st.folders| ==> st.folders[i].id < st.nextId)
    && (forall k :: k in st.files ==> st.files[k].id < st.nextId)
  }

  // ---------------------------------------------------------------- finding and making folders

  /**
   * The folder query of `ensureFolders`: a folder created without a parent is
   * looked up by name alone (anywhere in the account), a child folder by name
   * within its parent.
   */
  datatype FolderQuery = Named(name: string) | ChildNamed(parent: FileId, name: string)

  function Query(name: string, parent: Option<FileId>): FolderQuery {
    match parent
    case None => Named(name)
    case Some(p) => ChildNamed(p, name)
  }

  /** Drive's `name='n' and mimeType=folder` query, with `and 'p' in parents` for a child query. */
  predicate Matches(f: Folder, q: FolderQuery)
    ensures Matches(f, q) ==> f.name == q.name
    ensures q.ChildNamed? ==> (Matches(f, q) <==> f.parent == Some(q.parent) && f.name == q.name)
    ensures q.Named? ==> (Matches(f, q) <==> f.name == q.name)
  {
    match q
    case Named(n) => f.name == n
    case ChildNamed(p, n) => f.parent == Some(p) && f.name == n
  }

  /** The position of the first folder that matches `q`, if any. */
  function FirstMatch(folders: seq<Folder>, q: FolderQuery): (r: Option<nat>)
    ensures r.Some? ==>
      && r.value < |folders|
      && Matches(folders[r.value], q)
      && forall j :: 0 <= j < r.value ==> !Matches(folders[j], q)
    ensures r.None? ==> forall j :: 0 <= j < |folders| ==> !Matches(folders[j], q)
  {
    if folders == [] then None
    else if Matches(folders[0], q) then Some(0)
    else
      match FirstMatch(folders[1..], q)
      case None => None
      case Some(i) => Some(i + 1)
  }

  /** Folders created later never change what a query that already matched returns. */
  lemma FirstMatchExtend(folders: seq<Folder>, extra: seq<Folder>, q: FolderQuery)
    requires FirstMatch(folders, q).Some?
    ensures FirstMatch(folders + extra, q) == FirstMatch(folders, q)
  {
    var i := FirstMatch(folders, q).value;
    assert (folders + extra)[i] == folders[i];
    assert forall j :: 0 <= j < i ==> (folders + extra)[j] == folders[j];
  }

  /** `find(q)`: the id of the first matching folder. */
  function FindFolder(folders: seq<Folder>, q: FolderQuery): (r: Option<FileId>)
    ensures r.Some? <==> exists j :: 0 <= j < |folders| && Matches(folders[j], q)
    ensures r.Some? ==> var j := FirstMatch(folders, q).value;
      j < |folders| && Matches(folders[j], q) && folders[j].id == r.value
      && forall k :: 0 <= k < j ==> !Matches(folders[k], q)
  {
    match FirstMatch(folders, q)
    case None => None
    case Some(i) => Some(folders[i].id)
  }

  /**
   * `find(...)` followed by `mk(...)` when nothing was found: an existing folder
   * is reused and the state is unchanged; otherwise a folder with a fresh id is
   * appended. Either way the same query now finds the returned id, and the
   * files and the index are untouched.
   */
  function FindOrMake(st: Store, name: string, parent: Option<FileId>): (r: (Store, FileId))
    ensures var q := Query(name, parent); var i := FirstMatch(r.0.folders, q);
      i.Some? && r.0.folders[i.value].id == r.1
    ensures FindFolder(st.folders, Query(name, parent)).Some? ==>
      r.0 == st && Some(r.1) == FindFolder(st.folders, Query(name, parent))
    ensures FindFolder(st.folders, Query(name, parent)).None? ==>
      && r.0 == st.(folders := st.folders + [Folder(st.nextId, name, parent)], nextId := st.nextId + 1)
      && r.1 == st.nextId
    ensures r.0.files == st.files && r.0.indexFile == st.indexFile
    ensures |st.folders| <= |r.0.folders| <= |st.folders| + 1 && r.0.folders[..|st.folders|] == st.folders
    ensures IdsBelow(st) ==> IdsBelow(r.0)
  {
    match FirstMatch(st.folders, Query(name, parent))
    case Some(i) => (st, st.folders[i].id)
    case None =>
      var folders := st.folders + [Folder(st.nextId, name, parent)];
      assert Matches(folders[|st.folders|], Query(name, parent));
      (st.(folders := folders, nextId := st.nextId + 1), st.nextId)
  }

  /** The ids `ensureFolders` returns. */
  datatype FolderIds = FolderIds(topId: FileId, memoriesId: FileId, snapshotsId: FileId)

  /** `ANTMEMORY_FOLDER_NAME || "AntMemory"`. */
  function FolderName(setting: Option<string>): (r: string)
    ensures setting.Some? && setting.value != "" ==> r == setting.value
    ensures setting.None? || setting == Some("") ==> r == "AntMemory"
  {
    if setting.Some? && setting.value != "" then setting.value else "AntMemory"
  }

  /** `ensureFolders`: the top folder, then its `memories` and `snapshots` children, each found or made. */
  function EnsureFoldersSpec(st: Store, name: string): (r: (Store, FolderIds))
    ensures r.0.files == st.files && r.0.indexFile == st.indexFile
    ensures |st.folders| <= |r.0.folders| <= |st.folders| + 3 && r.0.folders[..|st.folders|] == st.folders
    ensures IdsBelow(st) ==> IdsBelow(r.0)
    ensures FindFolder(r.0.folders, Named(name)) == Some(r.1.topId)
    ensures FindFolder(r.0.folders, ChildNamed(r.1.topId, "memories")) == Some(r.1.memoriesId)
    ensures FindFolder(r.0.folders, ChildNamed(r.1.topId, "snapshots")) == Some(r.1.snapshotsId)
  {
    var (s1, top) := FindOrMake(st, name, None);
    var (s2, memories) := FindOrMake(s1, "memories", Some(top));
    var (s3, snapshots) := FindOrMake(s2, "snapshots", Some(top));
    FindOrMakeKeeps(s1, "memories", Some(top), Named(name));
    FindOrMakeKeeps(s2, "snapshots", Some(top), Named(name));
    FindOrMakeKeeps(s2, "snapshots", Some(top), ChildNamed(top, "memories"));
    PrefixTrans(st.folders, s1.folders, s2.folders);
    PrefixTrans(st.folders, s2.folders, s3.folders);
    (s3, FolderIds(top, memories, snapshots))
  }

  lemma PrefixTrans<T>(a: seq<T>, b: seq<T>, c: seq<T>)
    requires |a| <= |b| <= |c| && b[..|a|] == a && c[..|b|] == b
    ensures c[..|a|] == a
  {
    assert forall i :: 0 <= i < |a| ==> c[i] == b[i];
  }

  /** Only folders are ever added, so a folder you could find before is found again. */
  lemma FindOrMakeKeeps(st: Store, name: string, parent: Option<FileId>, q: FolderQuery)
    requires FindFolder(st.folders, q).Some?
    ensures var s := FindOrMake(st, name, parent).0;
      && FirstMatch(s.folders, q) == FirstMatch(st.folders, q) && s.folders[..|st.folders|] == st.folders
      && FindFolder(s.folders, q) == FindFolder(st.folders, q)
  {
    var s := FindOrMake(st, name, parent).0;
    if s != st {
      FirstMatchExtend(st.folders, [Folder(st.nextId, name, parent)], q);
    }
  }

  /** A second `ensureFolders` on the state the first one left creates nothing and returns the same ids. */
  lemma EnsureFoldersIdempotent(st: Store, name: string)
    ensures var (s, ids) := EnsureFoldersSpec(st, name);
      EnsureFoldersSpec(s, name) == (s, ids)
  {
    var (s1, top) := FindOrMake(st, name, None);
    var (s2, memories) := FindOrMake(s1, "memories", Some(top));
    var (s3, snapshots) := FindOrMake(s2, "snapshots", Some(top));
    FindOrMakeKeeps(s1, "memories", Some(top), Named(name));
    FindOrMakeKeeps(s2, "snapshots", Some(top), Named(name));
    FindOrMakeKeeps(s2, "snapshots", Some(top), ChildNamed(top, "memories"));
    assert FindOrMake(s3, name, None) == (s3, top);
    assert FindOrMake(s3, "memories", Some(top)) == (s3, memories);
    assert FindOrMake(s3, "snapshots", Some(top)) == (s3, snapshots);
  }

  // ---------------------------------------------------------------- the index document

  /**
   * `readIndex`: a missing index document is created holding `{}`; a document
   * that does not parse reads as `{}` and is left as it is until written.
   */
  function ReadIndexSpec(st: Store): (r: (Store, map<string, IndexEntry>))
    ensures st.indexFile.Index? ==> r == (st, st.indexFile.entries)
    ensures st.indexFile.NoIndex? ==> r == (st.(indexFile := Index(map[])), map[])
    ensures st.indexFile.Unreadable? ==> r == (st, map[])
    ensures r.0.folders == st.folders && r.0.files == st.files && r.0.nextId == st.nextId
  {
    match st.indexFile
    case NoIndex => (st.(indexFile := Index(map[])), map[])
    case Index(entries) => (st, entries)
    case Unreadable => (st, map[])
  }

  /** Reading the index again right after reading it changes nothing and gives the same map. */
  lemma ReadIndexStable(st: Store)
    ensures var (s, index) := ReadIndexSpec(st);
      ReadIndexSpec(s) == (s, index)
  {
  }

  // ---------------------------------------------------------------- create or update a file

  /** `findInFolder(parent, name)`: the id of the file of that name in that folder. */
  function FindInFolder(files: map<(FileId, string), StoredFile>, parent: FileId, name: string): (r: Option<FileId>)
    ensures r.Some? <==> (parent, name) in files
    ensures r.Some? ==> r.value == files[(parent, name)].id
  {
    if (parent, name) in files then Some(files[(parent, name)].id) else None
  }

  /**
   * `createOrUpdate`: a file of that name in that folder gets the new content
   * and properties and keeps its id; otherwise a file with a fresh id is made.
   * No other file, no folder and not the index changes.
   */
  function Put(st: Store, parent: FileId, name: string, content: seq<byte>, props: MemoryProps): (r: (Store, FileId))
    ensures (parent, name) in r.0.files && r.0.files[(parent, name)] == StoredFile(r.1, content, props)
    ensures (parent, name) in st.files ==> r.1 == st.files[(parent, name)].id && r.0.nextId == st.nextId
    ensures (parent, name) !in st.files ==> r.1 == st.nextId && r.0.nextId == st.nextId + 1
    ensures forall k :: k != (parent, name) ==>
      (k in r.0.files <==> k in st.files) && (k in st.files ==> r.0.files[k] == st.files[k])
    ensures r.0.folders == st.folders && r.0.indexFile == st.indexFile
    ensures IdsBelow(st) ==> IdsBelow(r.0) && ((parent, name) !in st.files ==>
      forall k :: k in st.files ==> st.files[k].id != r.1)
  {
    match FindInFolder(st.files, parent, name)
    case Some(id) => (st.(files := st.files[(parent, name) := StoredFile(id, content, props)]), id)
    case None =>
      (st.(files := st.files[(parent, name) := StoredFile(st.nextId, content, props)], nextId := st.nextId + 1),
       st.nextId)
  }

  /** Writing the same file twice is the same as writing it once: no duplicate is made and the id stays. */
  lemma PutTwice(st: Store, parent: FileId, name: string, content: seq<byte>, props: MemoryProps)
    ensures var (s, id) := Put(st, parent, name, content, props);
      Put(s, parent, name, content, props) == (s, id)
  {
    var (s, id) := Put(st, parent, name, content, props);
    assert s.files[(parent, name) := StoredFile(id, content, props)] == s.files;
  }

  // ---------------------------------------------------------------- names and chunks

  /** The index key of a memory: `${sessionIdentifier}:${topic}`. */
  function MemoryKey(sessionIdentifier: string, topic: string): (r: string)
    ensures |r| == |sessionIdentifier| + 1 + |topic| && r[|sessionIdentifier|] == ':'
    ensures r[..|sessionIdentifier|] == sessionIdentifier && r[|sessionIdentifier| + 1..] == topic
  {
    sessionIdentifier + ":" + topic
  }

  /** The file name of part `n`: `${key}.part${n}.txt`; it is never the unsplit name of this same memory (another key can still produce it). */
  function PartName(key: string, n: nat): (r: string)
    ensures |r| == |key| + 9 + |Decimal(n)| && r[..|key|] == key
    ensures r != SingleName(key)
  {
    key + ".part" + Decimal(n) + ".txt"
  }

  /** The index key of part `n`: `${key}#${n}`; it is never the unsplit key of this same memory (another key can still produce it). */
  function PartKey(key: string, n: nat): (r: string)
    ensures |r| == |key| + 1 + |Decimal(n)| && r[..|key|] == key
    ensures r != key
  {
    key + "#" + Decimal(n)
  }

  /** The file name of an unsplit memory: `${key}.txt`. */
  function SingleName(key: string): (r: string)
    ensures |r| == |key| + 4 && r[..|key|] == key
  {
    key + ".txt"
  }

  /** Different parts of one memory have different file names. */
  lemma PartNameInjective(key: string, a: nat, b: nat)
    requires PartName(key, a) == PartName(key, b)
    ensures a == b
  {
    var s := PartName(key, a);
    assert |Decimal(a)| == |Decimal(b)|;
    assert Decimal(a) == s[|key| + 5..|s| - 4] == Decimal(b);
    DecimalInjective(a, b);
  }

  /** Different parts of one memory have different index keys. */
  lemma PartKeyInjective(key: string, a: nat, b: nat)
    requires PartKey(key, a) == PartKey(key, b)
    ensures a == b
  {
    var s := PartKey(key, a);
    assert Decimal(a) == s[|key| + 1..] == Decimal(b);
    DecimalInjective(a, b);
  }

  /**
   * `Math.ceil(len / maxBytes)` for a positive byte limit; `PartsIsCeiling`
   * shows it is the ceiling.
   */
  function Parts(len: nat, maxBytes: nat): (r: nat)
    requires maxBytes > 0
    ensures len == 0 ==> r == 0
    ensures len > 0 ==> 1 <= r <= len
    ensures len > maxBytes ==> r >= 2
  {
    CeilingDivision(len, maxBytes);
    (len + maxBytes - 1) / maxBytes
  }

  /** Parts is the ceiling: the parts cover all bytes, and one part fewer would not. */
  lemma PartsIsCeiling(len: nat, maxBytes: nat)
    requires maxBytes > 0
    ensures Parts(len, maxBytes) * maxBytes >= len
    ensures len > 0 ==> (Parts(len, maxBytes) - 1) * maxBytes < len
  {
    CeilingDivision(len, maxBytes);
  }

  lemma CeilingDivision(len: nat, maxBytes: nat)
    requires maxBytes > 0
    ensures var q := (len + maxBytes - 1) / maxBytes;
      && q * maxBytes >= len
      && (len > 0 ==> 1 <= q <= len && (q - 1) * maxBytes < len)
      && (len == 0 ==> q == 0)
      && (len > maxBytes ==> q >= 2)
  {
    var q := (len + maxBytes - 1) / maxBytes;
    var r := (len + maxBytes - 1) % maxBytes;
    assert len + maxBytes - 1 == q * maxBytes + r;
    assert (q - 1) * maxBytes == q * maxBytes - maxBytes;
    if len > 0 {
      assert q >= 1;
      MulLeft(1, maxBytes, q - 1);
    }
    if len > maxBytes {
      MulCancel(q, 1, maxBytes);
    }
  }

  lemma MulCancel(a: int, b: int, m: nat)
    requires a * m > b * m
    ensures a > b
  {
    if a <= b {
      MulLeft(a, b, m);
    }
  }

  lemma MulLeft(a: int, b: int, m: nat)
    requires a <= b
    ensures a * m <= b * m
  {
  }

  /** Where slice `i` starts lies inside the buffer, and before where it ends. */
  lemma SliceBounds(len: nat, maxBytes: nat, i: nat)
    requires maxBytes > 0 && i < Parts(len, maxBytes)
    ensures i * maxBytes < len
    ensures (i + 1) * maxBytes == i * maxBytes + maxBytes
  {
    PartsIsCeiling(len, maxBytes);
    MulLeft(i, Parts(len, maxBytes) - 1, maxBytes);
  }

  /**
   * `buf.slice(i*maxBytes, Math.min((i+1)*maxBytes, buf.length))`: the bytes
   * from offset `i*maxBytes` on, non-empty, at most `maxBytes` of them, and
   * exactly `maxBytes` for every part but the last.
   */
  function Slice(buf: seq<byte>, maxBytes: nat, i: nat): (r: seq<byte>)
    requires maxBytes > 0 && i < Parts(|buf|, maxBytes)
    ensures 0 < |r| <= maxBytes
    ensures i + 1 < Parts(|buf|, maxBytes) ==> |r| == maxBytes
    ensures i * maxBytes + |r| <= |buf| && r == buf[i * maxBytes..i * maxBytes + |r|]
  {
    SliceBounds(|buf|, maxBytes, i);
    var r := buf[i * maxBytes..Min((i + 1) * maxBytes, |buf|)];
    if i + 1 < Parts(|buf|, maxBytes) then
      SliceBounds(|buf|, maxBytes, i + 1);
      r
    else r
  }

  /** A file the upsert writes: its index key, its file name and its bytes. */
  datatype Planned = Planned(key: string, name: string, data: seq<byte>)

  /**
   * The files one upsert writes, in order: the whole buffer as `key.txt` when
   * it fits in `maxBytes` (empty content included), and otherwise one part per
   * slice, named `key.part1.txt` … `key.partN.txt` with N the ceiling of
   * `|buf| / maxBytes`.
   */
  function Plan(key: string, buf: seq<byte>, maxBytes: nat): (r: seq<Planned>)
    requires maxBytes > 0
    ensures |buf| <= maxBytes ==> r == [Planned(key, SingleName(key), buf)]
    ensures |buf| > maxBytes ==> |r| == Parts(|buf|, maxBytes) >= 2
  {
    if |buf| > maxBytes then
        seq(Parts(|buf|, maxBytes), i requires 0 <= i < Parts(|buf|, maxBytes) =>
        Planned(PartKey(key, i + 1), PartName(key, i + 1), Slice(buf, maxBytes, i)))
    else
      [Planned(key, SingleName(key), buf)]
  }

  /** Part `i + 1` of a chunked plan is slice `i`, named `key.part<i+1>.txt` and indexed `key#<i+1>`. */
  lemma PlanParts(key: string, buf: seq<byte>, maxBytes: nat)
    requires 0 < maxBytes < |buf|
    ensures var r := Plan(key, buf, maxBytes);
      forall i :: 0 <= i < |r| ==>
        r[i] == Planned(PartKey(key, i + 1), PartName(key, i + 1), Slice(buf, maxBytes, i))
  {
    forall i | 0 <= i < |Plan(key, buf, maxBytes)|
      ensures Plan(key, buf, maxBytes)[i] == Planned(PartKey(key, i + 1), PartName(key, i + 1), Slice(buf, maxBytes, i))
    {
      PlanAt(key, buf, maxBytes, i);
    }
  }

  /** The bytes of the planned files, concatenated in order. */
  function Joined(plan: seq<Planned>): seq<byte> {
    if plan == [] then [] else Joined(plan[..|plan| - 1]) + plan[|plan| - 1].data
  }

  lemma JoinedPrefix(plan: seq<Planned>, n: nat)
    requires 0 < n <= |plan|
    ensures Joined(plan[..n]) == Joined(plan[..n - 1]) + plan[n - 1].data
  {
    assert plan[..n][..n - 1] == plan[..n - 1];
  }

  /** The first `n` slices, concatenated, are the first `min(n*maxBytes, len)` bytes. */
  lemma {:induction false} JoinedSlices(key: string, buf: seq<byte>, maxBytes: nat, n: nat)
    requires maxBytes > 0 && |buf| > maxBytes && n <= Parts(|buf|, maxBytes)
    ensures Joined(Plan(key, buf, maxBytes)[..n]) == buf[..Min(n * maxBytes, |buf|)]
  {
    var plan := Plan(key, buf, maxBytes);
    if n == 0 {
      assert plan[..0] == [];
    } else {
      var lo := (n - 1) * maxBytes;
      var hi := Min(n * maxBytes, |buf|);
      var part := Slice(buf, maxBytes, n - 1);
      assert lo < |buf| && part == buf[lo..hi] by {
        SliceBounds(|buf|, maxBytes, n - 1);
      }
      assert Joined(plan[..n]) == Joined(plan[..n - 1]) + part by {
        PlanAt(key, buf, maxBytes, n - 1);
        JoinedPrefix(plan, n);
      }
      JoinedSlices(key, buf, maxBytes, n - 1);
      assert buf[..hi] == buf[..lo] + buf[lo..hi];
    }
  }

  /** Concatenating the files one upsert writes gives back the content, in both cases. */
  lemma ChunksRoundTrip(key: string, buf: seq<byte>, maxBytes: nat)
    requires maxBytes > 0
    ensures Joined(Plan(key, buf, maxBytes)) == buf
  {
    var plan := Plan(key, buf, maxBytes);
    if |buf| > maxBytes {
      PartsIsCeiling(|buf|, maxBytes);
      JoinedSlices(key, buf, maxBytes, |plan|);
      assert plan[..|plan|] == plan;
      assert buf[..|buf|] == buf;
    } else {
      assert plan[..0] == [];
    }
  }

  /** Every part is non-empty and at most `maxBytes` long, and all but the last are exactly `maxBytes`. */
  lemma ChunkSizes(key: string, buf: seq<byte>, maxBytes: nat)
    requires maxBytes > 0 && |buf| > maxBytes
    ensures var plan := Plan(key, buf, maxBytes);
      && (forall i :: 0 <= i < |plan| ==> 0 < |plan[i].data| <= maxBytes)
      && (forall i :: 0 <= i < |plan| - 1 ==> |plan[i].data| == maxBytes)
  {
    var plan := Plan(key, buf, maxBytes);
    var n := |plan|;
    PartsIsCeiling(|buf|, maxBytes);
    forall i | 0 <= i < n
      ensures 0 < |plan[i].data| <= maxBytes
      ensures i < n - 1 ==> |plan[i].data| == maxBytes
    {
      SliceBounds(|buf|, maxBytes, i);
      if i < n - 1 {
        SliceBounds(|buf|, maxBytes, i + 1);
        assert (i + 1) * maxBytes < |buf|;
      }
    }
  }

  /** The planned file names are pairwise different, and so are the planned index keys. */
  predicate Distinct(plan: seq<Planned>) {
    forall a, b :: 0 <= a < b < |plan| ==> plan[a].name != plan[b].name && plan[a].key != plan[b].key
  }

  lemma PlanDistinct(key: string, buf: seq<byte>, maxBytes: nat)
    requires maxBytes > 0
    ensures Distinct(Plan(key, buf, maxBytes))
  {
    var plan := Plan(key, buf, maxBytes);
    if |buf| > maxBytes {
      forall a, b | 0 <= a < b < |plan|
        ensures plan[a].name != plan[b].name && plan[a].key != plan[b].key
      {
        if plan[a].name == plan[b].name {
          PartNameInjective(key, a + 1, b + 1);
        }
        if plan[a].key == plan[b].key {
          PartKeyInjective(key, a + 1, b + 1);
        }
      }
    }
  }

  // ---------------------------------------------------------------- writing the plan

  /** The file names of a plan. */
  function Names(plan: seq<Planned>): (r: set<string>)
    ensures forall i :: 0 <= i < |plan| ==> plan[i].name in r
  {
    if plan == [] then {} else Names(plan[..|plan| - 1]) + {plan[|plan| - 1].name}
  }

  /** The index keys of a plan. */
  function Keys(plan: seq<Planned>): (r: set<string>)
    ensures forall i :: 0 <= i < |plan| ==> plan[i].key in r
  {
    if plan == [] then {} else Keys(plan[..|plan| - 1]) + {plan[|plan| - 1].key}
  }

  /** A name among the plan's names is the name of one of its files. */
  lemma {:induction false} NamesOnly(plan: seq<Planned>, n: string)
    requires n in Names(plan)
    ensures exists i :: 0 <= i < |plan| && plan[i].name == n
  {
    var front := plan[..|plan| - 1];
    if n != plan[|plan| - 1].name {
      NamesOnly(front, n);
      var i :| 0 <= i < |front| && front[i].name == n;
      assert plan[i] == front[i];
    }
  }

  /** A key among the plan's keys is the key of one of its files. */
  lemma {:induction false} KeysOnly(plan: seq<Planned>, k: string)
    requires k in Keys(plan)
    ensures exists i :: 0 <= i < |plan| && plan[i].key == k
  {
    var front := plan[..|plan| - 1];
    if k != plan[|plan| - 1].key {
      KeysOnly(front, k);
      var i :| 0 <= i < |front| && front[i].key == k;
      assert plan[i] == front[i];
    }
  }

  /**
   * The planned files written one after another into `parent`: each of them
   * exists afterwards, files that existed keep their ids, every other file and
   * the folders and the index are as they were.
   */
  function WriteAll(st: Store, parent: FileId, plan: seq<Planned>, props: MemoryProps): (r: Store)
    ensures forall i :: 0 <= i < |plan| ==> (parent, plan[i].name) in r.files
    ensures forall k :: k in st.files ==> k in r.files && r.files[k].id == st.files[k].id
    ensures forall k: (FileId, string) :: (k.0 != parent || k.1 !in Names(plan)) ==>
      (k in r.files <==> k in st.files) && (k in st.files ==> r.files[k] == st.files[k])
    ensures r.folders == st.folders && r.indexFile == st.indexFile
    ensures IdsBelow(st) ==> IdsBelow(r)
  {
    if plan == [] then st
    else
      var last := plan[|plan| - 1];
      Put(WriteAll(st, parent, plan[..|plan| - 1], props), parent, last.name, last.data, props).0
  }

  /** With distinct names every planned file ends up holding its own bytes and the memory's properties. */
  lemma {:induction false} WriteAllHolds(st: Store, parent: FileId, plan: seq<Planned>, props: MemoryProps, i: nat)
    requires Distinct(plan) && i < |plan|
    ensures var r := WriteAll(st, parent, plan, props);
      r.files[(parent, plan[i].name)].content == plan[i].data
      && r.files[(parent, plan[i].name)].props == props
  {
    var front := plan[..|plan| - 1];
    if i < |plan| - 1 {
      assert Distinct(front);
      assert front[i] == plan[i];
      WriteAllHolds(st, parent, front, props, i);
    }
  }

  /** The index after recording each planned file as `{ file: name, updated_time: now }`. */
  function ApplyIndex(index: map<string, IndexEntry>, plan: seq<Planned>, now: string): (r: map<string, IndexEntry>)
    ensures forall k :: k !in Keys(plan) ==> (k in r <==> k in index) && (k in index ==> r[k] == index[k])
    ensures forall i :: 0 <= i < |plan| ==> plan[i].key in r
  {
    if plan == [] then index
    else
      var last := plan[|plan| - 1];
      ApplyIndex(index, plan[..|plan| - 1], now)[last.key := IndexEntry(last.name, now)]
  }

  /** With distinct keys each planned key records its own file. */
  lemma {:induction false} ApplyIndexHolds(index: map<string, IndexEntry>, plan: seq<Planned>, now: string, i: nat)
    requires Distinct(plan) && i < |plan|
    ensures ApplyIndex(index, plan, now)[plan[i].key] == IndexEntry(plan[i].name, now)
  {
    var front := plan[..|plan| - 1];
    if i < |plan| - 1 {
      assert Distinct(front);
      assert front[i] == plan[i];
      ApplyIndexHolds(index, front, now, i);
    }
  }

  // ---------------------------------------------------------------- the upsert

  /** The arguments of `upsertMemory`; the content is already its UTF-8 bytes, `None` when absent. */
  datatype MemoryRequest = MemoryRequest(sessionIdentifier: string, topic: string, content: Option<seq<byte>>)

  /** What the upsert reads from the process: credentials, settings and the clock. */
  datatype MemoryEnv = MemoryEnv(
    clientEmail: Option<string>,
    privateKey: Option<string>,
    folderName: Option<string>,
    maxFileBytes: Option<int>,
    now: string,
    expiresAt: string)

  datatype UpsertResult = Stored | NoCredentials

  /** `auth()` returns a client only when both the e-mail and the key are set and non-empty. */
  predicate HasCredentials(env: MemoryEnv)
    ensures env.clientEmail.None? || env.clientEmail == Some("") ==> !HasCredentials(env)
    ensures env.privateKey.None? || env.privateKey == Some("") ==> !HasCredentials(env)
    ensures (env.clientEmail.Some? && env.clientEmail.value != "" && env.privateKey.Some? && env.privateKey.value != "")
      ==> HasCredentials(env)
  {
    && env.clientEmail.Some? && env.clientEmail.value != ""
    && env.privateKey.Some? && env.privateKey.value != ""
  }

  const DefaultMaxBytes := 1048576

  /** `Number(ANTMEMORY_MAX_FILE_BYTES || 1048576)`, the setting already a number. */
  function MaxBytes(env: MemoryEnv): (r: int)
    ensures env.maxFileBytes.None? ==> r == DefaultMaxBytes
    ensures env.maxFileBytes.Some? ==> r == env.maxFileBytes.value
  {
    env.maxFileBytes.GetOr(DefaultMaxBytes)
  }

  /** `Buffer.from(content || "")`: the given bytes, or none when the content is absent. */
  function Content(req: MemoryRequest): (r: seq<byte>)
    ensures req.content.Some? ==> r == req.content.value
    ensures req.content.None? ==> r == []
  {
    req.content.GetOr([])
  }

  /** The app properties every file of this upsert carries. */
  function Props(req: MemoryRequest, env: MemoryEnv): (r: MemoryProps)
    ensures r.topic == req.topic && r.sessionIdentifier == req.sessionIdentifier && r.expiresAt == env.expiresAt
  {
    MemoryProps(req.topic, req.sessionIdentifier, env.expiresAt)
  }

  function MemoryPlan(req: MemoryRequest, env: MemoryEnv): seq<Planned>
    requires MaxBytes(env) > 0
  {
    Plan(MemoryKey(req.sessionIdentifier, req.topic), Content(req), MaxBytes(env))
  }

  /** The state after `ensureFolders` and `readIndex`, the folder ids and the index read. */
  function Prepared(st: Store, env: MemoryEnv): (r: (Store, FolderIds, map<string, IndexEntry>))
    ensures r.0.files == st.files
    ensures FindFolder(r.0.folders, Named(FolderName(env.folderName))) == Some(r.1.topId)
    ensures FindFolder(r.0.folders, ChildNamed(r.1.topId, "memories")) == Some(r.1.memoriesId)
    ensures st.indexFile.Index? ==> r.0.indexFile == st.indexFile && r.2 == st.indexFile.entries
    ensures st.indexFile.NoIndex? ==> r.0.indexFile == Index(map[]) && r.2 == map[]
    ensures st.indexFile.Unreadable? ==> r.0.indexFile == Unreadable && r.2 == map[]
    ensures IdsBelow(st) ==> IdsBelow(r.0)
  {
    var (s1, ids) := EnsureFoldersSpec(st, FolderName(env.folderName));
    var (s2, index) := ReadIndexSpec(s1);
    (s2, ids, index)
  }

  /** `upsertMemory`: the Drive state afterwards and the answer. */
  function UpsertMemorySpec(st: Store, req: MemoryRequest, env: MemoryEnv): (r: (Store, UpsertResult))
    requires HasCredentials(env) ==> MaxBytes(env) > 0
    ensures !HasCredentials(env) <==> r == (st, NoCredentials)
    ensures HasCredentials(env) ==> r.1 == Stored
    ensures IdsBelow(st) ==> IdsBelow(r.0)
  {
    if !HasCredentials(env) then (st, NoCredentials)
    else
      var (s, ids, index) := Prepared(st, env);
      var plan := MemoryPlan(req, env);
      var written := WriteAll(s, ids.memoriesId, plan, Props(req, env));
      (written.(indexFile := Index(ApplyIndex(index, plan, env.now))), Stored)
  }

  /**
   * With credentials, every planned file is in the memories folder with its
   * bytes and the memory's properties, and the index written back is the index
   * read with every planned key set to its file and `now`; other files and
   * other index keys, stale ones included, are as they were before the writes.
   */
  lemma UpsertStoresPlan(st: Store, req: MemoryRequest, env: MemoryEnv)
    requires MaxBytes(env) > 0 && HasCredentials(env)
    ensures var r := UpsertMemorySpec(st, req, env).0;
      var (s, ids, index) := Prepared(st, env);
      var plan := MemoryPlan(req, env);
      && r.indexFile.Index?
      && (forall i :: 0 <= i < |plan| ==>
            && (ids.memoriesId, plan[i].name) in r.files
            && r.files[(ids.memoriesId, plan[i].name)].content == plan[i].data
            && r.files[(ids.memoriesId, plan[i].name)].props == Props(req, env)
            && r.indexFile.entries[plan[i].key] == IndexEntry(plan[i].name, env.now))
      && (forall k: (FileId, string) :: (k.0 != ids.memoriesId || k.1 !in Names(plan)) ==>
            (k in r.files <==> k in st.files) && (k in st.files ==> r.files[k] == st.files[k]))
      && (forall k :: k !in Keys(plan) ==>
            (k in r.indexFile.entries <==> k in index) && (k in index ==> r.indexFile.entries[k] == index[k]))
  {
    var (s, ids, index) := Prepared(st, env);
    var plan := MemoryPlan(req, env);
    PlanDistinct(MemoryKey(req.sessionIdentifier, req.topic), Content(req), MaxBytes(env));
    forall i | 0 <= i < |plan|
      ensures WriteAll(s, ids.memoriesId, plan, Props(req, env)).files[(ids.memoriesId, plan[i].name)].content == plan[i].data
      ensures WriteAll(s, ids.memoriesId, plan, Props(req, env)).files[(ids.memoriesId, plan[i].name)].props == Props(req, env)
      ensures ApplyIndex(index, plan, env.now)[plan[i].key] == IndexEntry(plan[i].name, env.now)
    {
      WriteAllHolds(s, ids.memoriesId, plan, Props(req, env), i);
      ApplyIndexHolds(index, plan, env.now, i);
    }
  }

  /** Content that fits is written whole as the one file `key.txt`, and only `index[key]` is set. */
  lemma SingleFileUpsert(st: Store, req: MemoryRequest, env: MemoryEnv)
    requires MaxBytes(env) > 0 && HasCredentials(env) && |Content(req)| <= MaxBytes(env)
    ensures var key := MemoryKey(req.sessionIdentifier, req.topic);
      MemoryPlan(req, env) == [Planned(key, SingleName(key), Content(req))]
      && Names(MemoryPlan(req, env)) == {SingleName(key)} && Keys(MemoryPlan(req, env)) == {key}
  {
    var key := MemoryKey(req.sessionIdentifier, req.topic);
    assert MemoryPlan(req, env)[..0] == [];
  }

  /**
   * Content that does not fit is written as `ceil(len/maxBytes)` parts, part
   * `n` named `key.part<n>.txt` and indexed under `key#<n>`, and the parts
   * joined in order are the content.
   */
  lemma ChunkedUpsert(st: Store, req: MemoryRequest, env: MemoryEnv)
    requires MaxBytes(env) > 0 && HasCredentials(env) && |Content(req)| > MaxBytes(env)
    ensures var key := MemoryKey(req.sessionIdentifier, req.topic);
      var plan := MemoryPlan(req, env);
      && |plan| == Parts(|Content(req)|, MaxBytes(env))
      && (forall i :: 0 <= i < |plan| ==> plan[i].name == PartName(key, i + 1) && plan[i].key == PartKey(key, i + 1))
      && Joined(plan) == Content(req)
  {
    ChunksRoundTrip(MemoryKey(req.sessionIdentifier, req.topic), Content(req), MaxBytes(env));
  }

  // ---------------------------------------------------------------- the Drive account as an object

  /** The Drive account the client talks to; its methods are the calls `googleDrive.js` makes. */
  class Drive {
    var folders: seq<Folder>
    var files: map<(FileId, string), StoredFile>
    var indexFile: IndexFile
    var nextId: FileId

    function State(): Store
      reads this
    {
      Store(folders, files, indexFile, nextId)
    }

    ghost predicate Valid()
      reads this
    {
      IdsBelow(State())
    }

    /** An empty account. */
    constructor ()
      ensures State() == Store([], map[], NoIndex, 0) && Valid()
    {
      folders := [];
      files := map[];
      indexFile := NoIndex;
      nextId := 0;
    }

    /** `mk(name, parents)`: a new folder with a fresh id. */
    method MakeFolder(name: string, parent: Option<FileId>) returns (id: FileId)
      modifies this
      ensures State() == old(State()).(folders := old(folders) + [Folder(old(nextId), name, parent)], nextId := old(nextId) + 1)
      ensures id == old(nextId)
      ensures old(Valid()) ==> Valid()
    {
      id := nextId;
      folders := folders + [Folder(id, name, parent)];
      nextId := nextId + 1;
    }

    /** `find(q)` and, when it finds nothing, `mk(name, parent)`. */
    method FindOrMakeFolder(name: string, parent: Option<FileId>) returns (id: FileId)
      modifies this
      ensures (State(), id) == FindOrMake(old(State()), name, parent)
    {
      var found := FindFolder(folders, Query(name, parent));
      if found.Some? {
        id := found.value;
      } else {
        id := MakeFolder(name, parent);
      }
    }

    /** `ensureFolders(drive)`. */
    method EnsureFolders(name: string) returns (ids: FolderIds)
      modifies this
      ensures (State(), ids) == EnsureFoldersSpec(old(State()), name)
    {
      var top := FindOrMakeFolder(name, None);
      var memories := FindOrMakeFolder("memories", Some(top));
      var snapshots := FindOrMakeFolder("snapshots", Some(top));
      ids := FolderIds(top, memories, snapshots);
    }

    /** `readIndex(drive)`. */
    method ReadIndex() returns (index: map<string, IndexEntry>)
      modifies this
      ensures (State(), index) == ReadIndexSpec(old(State()))
    {
      match indexFile
      case NoIndex =>
        indexFile := Index(map[]);
        index := map[];
      case Index(entries) =>
        index := entries;
      case Unreadable =>
        index := map[];
    }

    /** `writeIndex(drive, id, index)`: the document now holds `index`. */
    method WriteIndex(index: map<string, IndexEntry>)
      modifies this
      ensures State() == old(State()).(indexFile := Index(index))
    {
      indexFile := Index(index);
    }

    /** `createOrUpdate(drive, parent, name, buffer, appProperties)`. */
    method CreateOrUpdate(parent: FileId, name: string, content: seq<byte>, props: MemoryProps) returns (id: FileId)
      modifies this
      ensures (State(), id) == Put(old(State()), parent, name, content, props)
      ensures old(Valid()) ==> Valid()
    {
      var existing := FindInFolder(files, parent, name);
      if existing.Some? {
        id := existing.value;
      } else {
        id := nextId;
        nextId := nextId + 1;
      }
      files := files[(parent, name) := StoredFile(id, content, props)];
    }
  }

  /** Writing one more planned file is one more `createOrUpdate`. */
  lemma WriteAllSnoc(st: Store, parent: FileId, plan: seq<Planned>, p: Planned, props: MemoryProps)
    ensures WriteAll(st, parent, plan + [p], props) == Put(WriteAll(st, parent, plan, props), parent, p.name, p.data, props).0
  {
    assert (plan + [p])[..|plan|] == plan;
  }

  /** Recording one more planned file is one more index assignment. */
  lemma ApplyIndexSnoc(index: map<string, IndexEntry>, plan: seq<Planned>, p: Planned, now: string)
    ensures ApplyIndex(index, plan + [p], now) == ApplyIndex(index, plan, now)[p.key := IndexEntry(p.name, now)]
  {
    assert (plan + [p])[..|plan|] == plan;
  }

  /** Part `i + 1` of a chunked plan. */
  lemma PlanAt(key: string, buf: seq<byte>, maxBytes: nat, i: nat)
    requires 0 < maxBytes < |buf| && i < Parts(|buf|, maxBytes)
    ensures |Plan(key, buf, maxBytes)| == Parts(|buf|, maxBytes)
    ensures Plan(key, buf, maxBytes)[i] == Planned(PartKey(key, i + 1), PartName(key, i + 1), Slice(buf, maxBytes, i))
  {
  }

  lemma PrefixSnoc<T>(s: seq<T>, i: nat)
    requires i < |s|
    ensures s[..i + 1] == s[..i] + [s[i]]
  {
  }

  /** One round of the loop of lines 58–64, on the plan. */
  lemma PartStep(st: Store, parent: FileId, key: string, buf: seq<byte>, maxBytes: nat,
                 props: MemoryProps, index: map<string, IndexEntry>, now: string, i: nat)
    requires 0 < maxBytes < |buf| && i < Parts(|buf|, maxBytes)
    ensures var plan := Plan(key, buf, maxBytes);
      && WriteAll(st, parent, plan[..i + 1], props)
         == Put(WriteAll(st, parent, plan[..i], props), parent, PartName(key, i + 1), Slice(buf, maxBytes, i), props).0
      && ApplyIndex(index, plan[..i + 1], now)
         == ApplyIndex(index, plan[..i], now)[PartKey(key, i + 1) := IndexEntry(PartName(key, i + 1), now)]
  {
    var plan := Plan(key, buf, maxBytes);
    PlanAt(key, buf, maxBytes, i);
    PrefixSnoc(plan, i);
    WriteAllSnoc(st, parent, plan[..i], plan[i], props);
    ApplyIndexSnoc(index, plan[..i], plan[i], now);
  }

  /** The loop of lines 58–64: part `i + 1` written and recorded for each slice `i`. */
  method WriteParts(drive: Drive, parent: FileId, key: string, buf: seq<byte>, maxBytes: nat,
                    props: MemoryProps, index: map<string, IndexEntry>, now: string)
    returns (updated: map<string, IndexEntry>)
    requires 0 < maxBytes < |buf|
    modifies drive
    ensures drive.State() == WriteAll(old(drive.State()), parent, Plan(key, buf, maxBytes), props)
    ensures updated == ApplyIndex(index, Plan(key, buf, maxBytes), now)
  {
    ghost var plan := Plan(key, buf, maxBytes);
    ghost var start := drive.State();
    updated := index;
    var parts := Parts(|buf|, maxBytes);
    assert |plan| == parts && plan[..0] == [] by {
      PlanAt(key, buf, maxBytes, 0);
    }
    for i := 0 to parts
      invariant drive.State() == WriteAll(start, parent, plan[..i], props)
      invariant updated == ApplyIndex(index, plan[..i], now)
    {
      updated := WritePart(drive, parent, key, buf, maxBytes, props, updated, now, i, start, index);
    }
    assert plan[..parts] == plan;
  }

  /** The body of that loop: slice `i` written as part `i + 1` and recorded in the index. */
  method WritePart(drive: Drive, parent: FileId, key: string, buf: seq<byte>, maxBytes: nat,
                   props: MemoryProps, index: map<string, IndexEntry>, now: string, i: nat,
                   ghost start: Store, ghost original: map<string, IndexEntry>)
    returns (updated: map<string, IndexEntry>)
    requires 0 < maxBytes < |buf| && i < Parts(|buf|, maxBytes)
    requires drive.State() == WriteAll(start, parent, Plan(key, buf, maxBytes)[..i], props)
    requires index == ApplyIndex(original, Plan(key, buf, maxBytes)[..i], now)
    modifies drive
    ensures drive.State() == Put(old(drive.State()), parent, PartName(key, i + 1), Slice(buf, maxBytes, i), props).0
    ensures updated == index[PartKey(key, i + 1) := IndexEntry(PartName(key, i + 1), now)]
    ensures drive.State() == WriteAll(start, parent, Plan(key, buf, maxBytes)[..i + 1], props)
    ensures updated == ApplyIndex(original, Plan(key, buf, maxBytes)[..i + 1], now)
  {
    PartStep(start, parent, key, buf, maxBytes, props, original, now, i);
    var slice := Slice(buf, maxBytes, i);
    var name := PartName(key, i + 1);
    var _ := drive.CreateOrUpdate(parent, name, slice, props);
    updated := index[PartKey(key, i + 1) := IndexEntry(name, now)];
  }

  /**
   * Lines 57–69 of `upsertMemory`: the content written into the memories
   * folder, whole or part by part, each file recorded in `index`.
   */
  method WriteMemory(drive: Drive, parent: FileId, key: string, buf: seq<byte>, maxBytes: nat,
                     props: MemoryProps, index: map<string, IndexEntry>, now: string)
    returns (updated: map<string, IndexEntry>)
    requires maxBytes > 0
    modifies drive
    ensures drive.State() == WriteAll(old(drive.State()), parent, Plan(key, buf, maxBytes), props)
    ensures updated == ApplyIndex(index, Plan(key, buf, maxBytes), now)
  {
    if |buf| > maxBytes {
      updated := WriteParts(drive, parent, key, buf, maxBytes, props, index, now);
    } else {
      var name := SingleName(key);
      WriteAllSnoc(drive.State(), parent, [], Planned(key, name, buf), props);
      ApplyIndexSnoc(index, [], Planned(key, name, buf), now);
      var _ := drive.CreateOrUpdate(parent, name, buf, props);
      updated := index[key := IndexEntry(name, now)];
    }
  }

  /** `upsertMemory({sessionIdentifier, topic, content})` against the account `drive`. */
  method UpsertMemory(drive: Drive, req: MemoryRequest, env: MemoryEnv) returns (result: UpsertResult)
    requires HasCredentials(env) ==> MaxBytes(env) > 0
    modifies drive
    ensures (drive.State(), result) == UpsertMemorySpec(old(drive.State()), req, env)
    ensures old(drive.Valid()) ==> drive.Valid()
  {
    if !HasCredentials(env) {
      return NoCredentials;
    }
    var ids := drive.EnsureFolders(FolderName(env.folderName));
    var index := drive.ReadIndex();
    var key := MemoryKey(req.sessionIdentifier, req.topic);
    index := WriteMemory(drive, ids.memoriesId, key, Content(req), MaxBytes(env), Props(req, env), index, env.now);
    drive.WriteIndex(index);
    result := Stored;
  }
}
