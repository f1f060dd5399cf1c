/** The storage abstraction of org.h2.store.fs: the choice of a file system
    implementation from a file name's scheme prefix, and the default way to
    create a directory chain. The concrete file systems are represented only
    by a tag; the abstract operations with no body in the base class are not
    modelled. */
module StoreFs {

  import opened Wrappers
  import opened Strings

  const MemoryPrefix: string := "memFS:"
  const MemoryPrefixLzf: string := "memLZF:"
  const DbPrefix: string := "jdbc:"
  const ZipPrefix: string := "zip:"

  /** The four scheme prefixes, in the order the dispatcher tests them. */
  const SchemePrefixes: seq<string> := [MemoryPrefix, MemoryPrefixLzf, DbPrefix, ZipPrefix]

  /** The file system a name is routed to. Both memory prefixes share the one
      Memory instance; the database file system is handed the full file name. */
  datatype Provider = Memory | Database(name: string) | Zip | Disk

  /** No scheme prefix begins another one. */
  lemma PrefixesPairwiseDisjoint()
    ensures forall i, j :: 0 <= i < |SchemePrefixes| && 0 <= j < |SchemePrefixes| && i != j ==>
              !(SchemePrefixes[i] <= SchemePrefixes[j])
  {
    assert MemoryPrefix[3] != MemoryPrefixLzf[3];
    assert MemoryPrefix[0] != DbPrefix[0] && MemoryPrefix[0] != ZipPrefix[0];
    assert MemoryPrefixLzf[0] != DbPrefix[0] && MemoryPrefixLzf[0] != ZipPrefix[0];
    assert DbPrefix[0] != ZipPrefix[0];
  }

  /** A file name begins with at most one of the scheme prefixes. */
  lemma AtMostOneSchemeMatches(s: string, i: nat, j: nat)
    requires i < |SchemePrefixes| && j < |SchemePrefixes|
    requires SchemePrefixes[i] <= s && SchemePrefixes[j] <= s
    ensures i == j
  {
    PrefixesPairwiseDisjoint();
    if |SchemePrefixes[i]| <= |SchemePrefixes[j]| {
      PrefixesOfOneString(s, SchemePrefixes[i], SchemePrefixes[j]);
    } else {
      PrefixesOfOneString(s, SchemePrefixes[j], SchemePrefixes[i]);
    }
  }

  /** isInMemory: a non-null name that begins with either memory prefix. */
  function IsInMemory(fileName: Option<string>): (r: bool)
    ensures r <==> fileName.Some? && (MemoryPrefix <= fileName.value || MemoryPrefixLzf <= fileName.value)
  {
    match fileName
    case None => false
    case Some(s) =>
      StartsWithIsPrefix(s, MemoryPrefix);
      StartsWithIsPrefix(s, MemoryPrefixLzf);
      StartsWith(s, MemoryPrefix) || StartsWith(s, MemoryPrefixLzf)
  }

  /** getInstance: the if/else chain over the scheme prefixes. A null name
      passes the null-safe memory test and is then dereferenced by the
      database test, so the caller must pass a name. Each outcome is
      characterised by the prefix the name begins with, independently of
      the order of the tests. */
  function GetInstance(fileName: Option<string>): (r: Provider)
    requires fileName.Some?
    ensures r == Memory <==> MemoryPrefix <= fileName.value || MemoryPrefixLzf <= fileName.value
    ensures r.Database? <==> DbPrefix <= fileName.value
    ensures r.Database? ==> r.name == fileName.value
    ensures r == Zip <==> ZipPrefix <= fileName.value
    ensures r == Disk <==> forall p :: p in SchemePrefixes ==> !(p <= fileName.value)
  {
    var s := fileName.value;
    StartsWithIsPrefix(s, DbPrefix);
    StartsWithIsPrefix(s, ZipPrefix);
    NotMemoryAndOther(s);
    assert MemoryPrefix in SchemePrefixes && MemoryPrefixLzf in SchemePrefixes;
    assert DbPrefix in SchemePrefixes && ZipPrefix in SchemePrefixes;
    if IsInMemory(fileName) then Memory
    else if StartsWith(s, DbPrefix) then Database(s)
    else if StartsWith(s, ZipPrefix) then Zip
    else Disk
  }

  /** A name beginning with the database or zip prefix begins with no other one. */
  lemma NotMemoryAndOther(s: string)
    ensures DbPrefix <= s ==> !(MemoryPrefix <= s) && !(MemoryPrefixLzf <= s) && !(ZipPrefix <= s)
    ensures ZipPrefix <= s ==> !(MemoryPrefix <= s) && !(MemoryPrefixLzf <= s)
  {
    if DbPrefix <= s {
      if MemoryPrefix <= s { AtMostOneSchemeMatches(s, 2, 0); }
      if MemoryPrefixLzf <= s { AtMostOneSchemeMatches(s, 2, 1); }
      if ZipPrefix <= s { AtMostOneSchemeMatches(s, 2, 3); }
    }
    if ZipPrefix <= s {
      if MemoryPrefix <= s { AtMostOneSchemeMatches(s, 3, 0); }
      if MemoryPrefixLzf <= s { AtMostOneSchemeMatches(s, 3, 1); }
    }
  }

  /** Both memory prefixes lead to the same provider, whatever follows them. */
  lemma MemoryPrefixesShareProvider(rest: string)
    ensures GetInstance(Some(MemoryPrefix + rest)) == GetInstance(Some(MemoryPrefixLzf + rest)) == Memory
  {
    assert MemoryPrefix <= MemoryPrefix + rest;
    assert MemoryPrefixLzf <= MemoryPrefixLzf + rest;
  }

  /** Matching is literal and case-sensitive: a name whose first character is
      not the lower-case first letter of a scheme prefix (for example an upper-case
      or a blank first character) goes to the disk. */
  lemma UnmarkedNameGoesToDisk(s: string)
    requires s == [] || (s[0] != 'm' && s[0] != 'j' && s[0] != 'z')
    ensures GetInstance(Some(s)) == Disk
  {
    forall p | p in SchemePrefixes
      ensures !(p <= s)
    {
      assert p[0] == 'm' || p[0] == 'j' || p[0] == 'z';
    }
  }

  /** Sample names from each branch. */
  lemma DispatchExamples()
    ensures GetInstance(Some("ZIP:a")) == Disk
    ensures GetInstance(Some(" zip:a")) == Disk
    ensures GetInstance(Some("zip:a")) == Zip
    ensures GetInstance(Some("jdbc:h2:db/f")) == Database("jdbc:h2:db/f")
    ensures GetInstance(Some("memLZF:t")) == Memory
  {
    UnmarkedNameGoesToDisk("ZIP:a");
    UnmarkedNameGoesToDisk(" zip:a");
    assert ZipPrefix <= "zip:a";
    assert DbPrefix <= "jdbc:h2:db/f";
    assert MemoryPrefixLzf <= "memLZF:t";
  }

  /** The provider chosen for a matched scheme prefix. */
  function ProviderOf(prefix: string, fileName: string): (r: Provider)
    requires prefix in SchemePrefixes
    ensures r.Database? <==> prefix == DbPrefix
    ensures r.Database? ==> r.name == fileName
    ensures r == Zip <==> prefix == ZipPrefix
    ensures r != Disk
  {
    if prefix == DbPrefix then Database(fileName)
    else if prefix == ZipPrefix then Zip
    else Memory
  }

  /** The first prefix of order that begins the name, testing as the chain does. */
  function FirstMatch(order: seq<string>, fileName: string): (r: Option<string>)
    ensures r.Some? ==> r.value in order && r.value <= fileName
    ensures r.Some? ==> exists k :: 0 <= k < |order| && order[k] == r.value &&
                          forall k' :: 0 <= k' < k ==> !(order[k'] <= fileName)
    ensures r.None? ==> forall p :: p in order ==> !(p <= fileName)
  {
    if order == [] then None
    else if StartsWith(fileName, order[0]) then
      StartsWithIsPrefix(fileName, order[0]);
      Some(order[0])
    else
      StartsWithIsPrefix(fileName, order[0]);
      assert forall p :: p in order ==> p == order[0] || p in order[1..];
      FirstMatch(order[1..], fileName)
  }

  /** The dispatcher with its tests made in an arbitrary order. */
  function Dispatch(order: seq<string>, fileName: string): (r: Provider)
    requires forall p :: p in order ==> p in SchemePrefixes
  {
    match FirstMatch(order, fileName)
    case None => Disk
    case Some(p) => ProviderOf(p, fileName)
  }

  /** The order of the if/else chain does not matter: testing the four
      prefixes in any order routes every name as getInstance does. */
  lemma BranchOrderIrrelevant(order: seq<string>, fileName: string)
    requires forall p :: p in order <==> p in SchemePrefixes
    ensures Dispatch(order, fileName) == GetInstance(Some(fileName))
  {
    var m := FirstMatch(order, fileName);
    var g := GetInstance(Some(fileName));
    if m.Some? {
      var p := m.value;
      var i :| 0 <= i < |SchemePrefixes| && SchemePrefixes[i] == p;
      forall j | 0 <= j < |SchemePrefixes| && SchemePrefixes[j] <= fileName
        ensures j == i
      {
        AtMostOneSchemeMatches(fileName, i, j);
      }
      assert i == 0 || i == 1 ==> g == Memory;
      assert i == 2 ==> g == Database(fileName);
      assert i == 3 ==> g == Zip;
    } else {
      assert forall p :: p in SchemePrefixes ==> !(p <= fileName);
    }
  }

  /** getInstance's own order of tests is one of those orders. */
  lemma SourceOrderIsDispatch(fileName: string)
    ensures Dispatch(SchemePrefixes, fileName) == GetInstance(Some(fileName))
  {
    BranchOrderIrrelevant(SchemePrefixes, fileName);
  }

  /** The synthetic file name mkdirs hands to createDirs. */
  function MkdirsTarget(directoryName: string): (r: string)
    ensures DirectoryPart(r) == directoryName
    ensures FileNamePart(r) == "x"
  {
    SplitAppended(directoryName, "x");
    assert directoryName + "/" + "x" == directoryName + "/x";
    directoryName + "/x"
  }

  /** The base class of all file systems. Every backend overrides createDirs;
      here it stands for that override and records each name it is given,
      so that what mkdirs delegates can be stated. */
  class FileSystem {

    /** The argument of every createDirs call on this object, in order. */
    ghost var createDirsCalls: seq<string>

    constructor ()
      ensures createDirsCalls == []
    {
      createDirsCalls := [];
    }

    /** Create the directories required for the file fileName (not the file
        itself); the effect on the storage belongs to the backend. */
    method CreateDirs(fileName: string)
      modifies this
      ensures createDirsCalls == old(createDirsCalls) + [fileName]
    {
      createDirsCalls := createDirsCalls + [fileName];
    }

    /** mkdirs: one createDirs call on a file inside the directory, and
        nothing else. A null name does not fail: the concatenation turns it
        into "null", so createDirs is asked for "null/x". */
    method Mkdirs(directoryName: Option<string>)
      modifies this
      ensures createDirsCalls == old(createDirsCalls) + [MkdirsTarget(ConcatText(directoryName))]
      ensures directoryName.Some? ==> DirectoryPart(createDirsCalls[|createDirsCalls| - 1]) == directoryName.value
      ensures directoryName.None? ==> createDirsCalls[|createDirsCalls| - 1] == "null/x"
    {
      CreateDirs(ConcatText(directoryName) + "/x");
    }
  }
}
