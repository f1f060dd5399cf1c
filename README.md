# H2 file system dispatch (org.h2.store.fs.FileSystem), modelled in Dafny

H2's `FileSystem` is the abstract base of its storage layer. Callers never
name a storage backend: they pass a file name, and `getInstance` picks the
backend from the name's scheme prefix. `memFS:` and `memLZF:` go to the
in-memory file system. `jdbc:` goes to the database file system, which is
handed the full file name. `zip:` goes to the zip archive file system.
Every other name goes to the disk. The base class also provides a default
`mkdirs`, which asks the backend's `createDirs` to create the directories of a
synthetic file `directoryName + "/x"` inside the wanted directory.

The project has three modules:

- `Wrappers` (`Wrappers.dfy`): `Option`, which stands for a Java reference that may be null.
- `Strings` (`Strings.dfy`): Java's `String.startsWith` as a character-by-character
  predicate, proved equal to Dafny's sequence-prefix relation. It also holds the split of a
  file name at its last `/`, which states what `mkdirs` asks of `createDirs`.
- `StoreFs` (`FileSystem.dfy`): the four prefix constants, the `Provider` tag
  (`Memory`, `Database(name)`, `Zip`, `Disk`), `IsInMemory`, `GetInstance`, and the
  lemmas about them. It also holds a `FileSystem` class whose `Mkdirs` delegates to
  `CreateDirs`.

The proofs show four things:

- Each provider is selected exactly when the name begins with that provider's prefix.
- The four prefixes are pairwise non-overlapping, so a name matches at most one of them.
- Any ordering of the if/else chain routes every name the same way.
- `mkdirs(d)` makes exactly one `createDirs` call, on a file whose directory part is `d`.

Three edge cases of the code:

- A null file name is not routed to the disk. `isInMemory` (line 41) tolerates null,
  but line 32 then calls `startsWith` on it without a guard. So `GetInstance` requires
  a name, while `IsInMemory(None)` is false.
- Both memory prefixes reach the same no-argument `FileSystemMemory.getInstance()`
  call (line 31). There is no separate compressed memory provider at this layer.
- `mkdirs(null)` does not fail: the concatenation at line 196 turns the null name into
  `"null"`, so `createDirs` is asked for `"null/x"`.

## Model

| member | source | states |
|---|---|---|
| `StoreFs.PrefixesPairwiseDisjoint` | version-1.0.69/h2/src/main/org/h2/store/fs/FileSystem.java:18-21 | no one of `memFS:`, `memLZF:`, `jdbc:`, `zip:` is a prefix of another |
| `StoreFs.AtMostOneSchemeMatches` | version-1.0.69/h2/src/main/org/h2/store/fs/FileSystem.java:18-21 | if a file name begins with two of the scheme prefixes, they are the same prefix |
| `StoreFs.IsInMemory` | version-1.0.69/h2/src/main/org/h2/store/fs/FileSystem.java:40-42 | true iff the name is non-null and begins with `memFS:` or `memLZF:`; null gives false without failing |
| `StoreFs.GetInstance` | version-1.0.69/h2/src/main/org/h2/store/fs/FileSystem.java:29-38 | requires a non-null name because line 32 dereferences it. Memory iff the name begins with a memory prefix. Database iff it begins with `jdbc:`, and then it carries the unmodified full name. Zip iff it begins with `zip:`. Disk iff it begins with none of the four prefixes |
| `StoreFs.NotMemoryAndOther` | version-1.0.69/h2/src/main/org/h2/store/fs/FileSystem.java:30-34 | a name beginning with `jdbc:` begins with none of `memFS:`, `memLZF:`, `zip:`; a name beginning with `zip:` begins with neither memory prefix |
| `StoreFs.MemoryPrefixesShareProvider` | version-1.0.69/h2/src/main/org/h2/store/fs/FileSystem.java:30-31 | `memFS:`+rest and `memLZF:`+rest are both routed to the one Memory provider |
| `StoreFs.UnmarkedNameGoesToDisk` | version-1.0.69/h2/src/main/org/h2/store/fs/FileSystem.java:32-37 | matching is literal and case-sensitive: an empty name, or one whose first character is not `m`, `j` or `z` (so also an upper-case or blank one), goes to Disk |
| `StoreFs.DispatchExamples` | version-1.0.69/h2/src/main/org/h2/store/fs/FileSystem.java:29-37 | `"ZIP:a"` and `" zip:a"` go to Disk; `"zip:a"` to Zip; `"jdbc:h2:db/f"` to Database with that name; `"memLZF:t"` to Memory |
| `StoreFs.ProviderOf` | version-1.0.69/h2/src/main/org/h2/store/fs/FileSystem.java:31-35 | a matched prefix selects Database (given the full name) exactly for `jdbc:`, Zip exactly for `zip:`, and never Disk |
| `StoreFs.FirstMatch` | version-1.0.69/h2/src/main/org/h2/store/fs/FileSystem.java:30-36 | a chain of `startsWith` tests in a given order returns the first prefix of that order that begins the name (no earlier one does), or none exactly when no prefix in the order begins the name |
| `StoreFs.BranchOrderIrrelevant` | version-1.0.69/h2/src/main/org/h2/store/fs/FileSystem.java:30-37 | testing the four prefixes in any order routes every name exactly as `getInstance` does |
| `StoreFs.SourceOrderIsDispatch` | version-1.0.69/h2/src/main/org/h2/store/fs/FileSystem.java:30-37 | the order-parametric dispatcher with `getInstance`'s own order of tests agrees with `getInstance` |
| `Strings.StartsWithIsPrefix` | version-1.0.69/h2/src/main/org/h2/store/fs/FileSystem.java:41 | `startsWith(s, p)`, compared character by character, holds iff `p` is a prefix of `s` |
| `StoreFs.MkdirsTarget` | version-1.0.69/h2/src/main/org/h2/store/fs/FileSystem.java:195-197 | the synthetic file `d + "/x"` has directory part exactly `d` and last segment `x`, so creating the directories it requires creates `d` |
| `Strings.SplitAppended` | version-1.0.69/h2/src/main/org/h2/store/fs/FileSystem.java:196 | splitting `dir + "/" + segment` at its last `/` gives back `dir` and `segment` when the segment has no `/` |
| `StoreFs.FileSystem.Mkdirs` | version-1.0.69/h2/src/main/org/h2/store/fs/FileSystem.java:195-197 | exactly one `createDirs` call is appended to the record, with argument `d + "/x"`. Nothing else changes, and the directory part of that argument is `d`. A null `d` does not fail: Java's concatenation makes the argument `"null/x"` |
| `StoreFs.FileSystem.CreateDirs` | version-1.0.69/h2/src/main/org/h2/store/fs/FileSystem.java:199-204 | the backend hook: each call is recorded with its file name, in order |

## Left out

- The abstract operations of the base class are not modelled. These are `length`, `rename`, `createNewFile`, `exists`,
  `delete`, `tryDelete`, `createTempFile`, `listFiles`, `deleteRecursive`, `isReadOnly`,
  `normalize`, `getParent`, `isDirectory`, `isAbsolute`, `getAbsolutePath`,
  `getLastModified`, `canWrite`, `copy`, `getFileName`, `fileStartsWith`,
  `openFileOutputStream`, `openFileObject` and `openFileInputStream`. The class gives them no bodies, so any contract
  would be invented.
- `StoreFs.FileSystem.CreateDirs`: what a backend's `createDirs` does to its storage is
  not modelled. The base class declares it abstract, so the model records only the call and its argument.
- The concrete backends `FileSystemMemory`, `FileSystemDatabase`, `FileSystemZip` and
  `FileSystemDisk` are not part of this model. Their lazily created singleton instances are not part of it either. They appear only as
  `Provider` tags.
- Streams, `FileObject` and access modes are Java I/O plumbing and are not modelled.
- The `SQLException`/`IOException` propagation is not modelled, since the modelled members raise none themselves.
- The thread safety of the shared backend instances is not modelled.
- The `FileSystem` base class is a Dafny class, not an interface with overriding backends.
  Dynamic dispatch to a backend's `createDirs` is therefore represented by the one recording `CreateDirs`.
