/**
 * The LabRAD registry as the servers see it: a tree of directories navigated with a
 * "current directory" cursor, each directory listing its keys in registry order.
 */
module LabradRegistry {
  import opened Wrappers
  import opened Text
  import opened Seqs

  /** One registry directory: its sub-directory names, its key listing (in order) and the stored values. */
  datatype Directory = Directory(subdirs: seq<string>, keys: seq<string>, values: map<string, string>)

  /** A directory lists exactly the keys that hold a value. */
  predicate WellFormed(d: Directory)
  {
    && (forall k :: k in d.keys ==> k in d.values)
    && (forall k :: k in d.values ==> k in d.keys)
  }

  /** The absolute path ['', 'Ports'] of the directory that maps port keys to addresses. */
  const PortsPath: seq<string> := ["", "Ports"]

  /** The code the servers expect on a registry error for a missing directory. */
  const DirectoryNotFound: int := 17

  /** `k => sub in k`: the filter of the port-key comprehension. */
  function KeyMatcher(sub: string): string -> bool
  {
    k => Contains(k, sub)
  }

  /** [x for x in keys if sub in x][0]: the first listed key containing `sub`. */
  function FirstKeyContaining(keys: seq<string>, sub: string): (r: Option<string>)
    ensures r.Some? ==> r.value in keys && Contains(r.value, sub)
    ensures r.Some? ==> exists i :: 0 <= i < |keys| && keys[i] == r.value &&
                                    forall j :: 0 <= j < i ==> !Contains(keys[j], sub)
    ensures r.None? <==> forall j :: 0 <= j < |keys| ==> !Contains(keys[j], sub)
  {
    var r := FirstMatch(keys, KeyMatcher(sub));
    assert forall j :: 0 <= j < |keys| ==> KeyMatcher(sub)(keys[j]) == Contains(keys[j], sub);
    r
  }

  /**
   * The substring getPortFromReg searches the Ports keys for: the key if given, else the first
   * four letters of the server name, lower-cased; none when the name is not set either.
   */
  function SearchKey(key: Option<string>, name: Option<string>): (r: Option<string>)
    ensures r.None? <==> !Truthy(key) && !Truthy(name)
    ensures r.Some? ==> |r.value| > 0
    ensures Truthy(key) ==> r == key
    ensures !Truthy(key) && Truthy(name) ==> |r.value| <= 4
  {
    if Truthy(key) then key
    else if Truthy(name) then Some(LowerStr(Take(name.value, 4)))
    else None
  }

  class Registry {
    /** Every directory, by absolute path; the servers never change it. */
    const dirs: map<seq<string>, Directory>
    /** The error code the registry reports when asked to enter a directory that does not exist. */
    const missingDirCode: int
    /** The cursor: the directory that dir() and get() act on. */
    var cwd: seq<string>

    ghost predicate Valid()
      reads this
    {
      cwd in dirs && forall p :: p in dirs ==> WellFormed(dirs[p])
    }

    constructor (dirs: map<seq<string>, Directory>, start: seq<string>, missingDirCode: int)
      requires start in dirs
      requires forall p :: p in dirs ==> WellFormed(dirs[p])
      ensures Valid()
      ensures this.dirs == dirs && this.missingDirCode == missingDirCode && cwd == start
    {
      this.dirs := dirs;
      this.missingDirCode := missingDirCode;
      cwd := start;
    }

    /** reg.cd() without arguments: reports the cursor and leaves it where it is. */
    method Pwd() returns (path: seq<string>)
      requires Valid()
      ensures path == cwd && path in dirs
    {
      path := cwd;
    }

    /** reg.cd(path): moves the cursor, or fails with a registry error when the directory is missing. */
    method Cd(path: seq<string>) returns (r: Outcome<int>)
      requires Valid()
      modifies this
      ensures Valid()
      ensures path in dirs ==> r == Pass && cwd == path
      ensures path !in dirs ==> r == Fail(missingDirCode) && cwd == old(cwd)
    {
      if path in dirs {
        cwd := path;
        r := Pass;
      } else {
        r := Fail(missingDirCode);
      }
    }

    /** reg.dir(): the sub-directories and keys of the current directory. */
    method Dir() returns (subdirs: seq<string>, keys: seq<string>)
      requires Valid()
      ensures subdirs == dirs[cwd].subdirs && keys == dirs[cwd].keys
    {
      subdirs, keys := dirs[cwd].subdirs, dirs[cwd].keys;
    }

    /** reg.get(key) for a key the current directory lists. */
    method Get(key: string) returns (value: string)
      requires Valid()
      requires key in dirs[cwd].keys
      ensures value == dirs[cwd].values[key]
    {
      value := dirs[cwd].values[key];
    }
  }
}
