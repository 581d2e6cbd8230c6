/**
 Two ways to list a skill bundle: the explicit-stack scan of a worktree, and the incremental reading
 of a Git tree listing. They must accept the same bundles.

 Trees hold regular files and directories only. A Git entry is a path relative to the bundle and a size.
*/
module TreeScan {
  import opened Bytes
  import opened Options
  import opened Ordering

  const MAX_FILE_BYTES := 64 * 1024 * 1024
  const MAX_TREE_BYTES := 256 * 1024 * 1024
  const MAX_TREE_ENTRIES := 16_384
  const MAX_TREE_DEPTH := 64
  const MAX_SCAN_ENTRIES := MAX_TREE_ENTRIES * 4
  const MAX_SCAN_DEPTH := MAX_TREE_DEPTH * 4
  const CACHE_DIRECTORIES := {"__pycache__", ".mypy_cache", ".pytest_cache", ".ruff_cache"}

  type Path = seq<string>
  datatype Node = File(size: nat) | Dir(entries: seq<Entry>)
  datatype Entry = Entry(name: string, node: Node)
  datatype Found = Found(path: Path, size: nat)

  // ---------- Paths ----------

  /** pathlib's suffix of a name is ".pyc" or ".pyo"; a name that is nothing else has no suffix. */
  predicate CacheFile(name: string)
  {
    |name| > 4 && name[|name| - 4..] in {".pyc", ".pyo"}
  }

  /** `_is_generated_cache_path`. */
  predicate CachePath(path: Path)
    requires path != []
  {
    CacheFile(path[|path| - 1]) || exists i :: 0 <= i < |path| - 1 && path[i] in CACHE_DIRECTORIES
  }

  function Posix(path: Path): string
  {
    if path == [] then "" else if |path| == 1 then path[0] else path[0] + "/" + Posix(path[1..])
  }

  /** A cache file has a stem and one of the two suffixes. */
  lemma CacheFileIff(name: string)
    ensures CacheFile(name) <==> exists stem: string :: |stem| > 0 && (name == stem + ".pyc" || name == stem + ".pyo")
  {
    if CacheFile(name) {
      var stem := name[..|name| - 4];
      assert name == stem + name[|name| - 4..];
    }
    if stem: string :| |stem| > 0 && (name == stem + ".pyc" || name == stem + ".pyo") {
      assert name[|name| - 4..] == name[|stem|..];
    }
  }

  /** The names of a real path: not empty, and without the separator. */
  predicate Named(path: Path) { forall i :: 0 <= i < |path| ==> path[i] != "" && '/' !in path[i] }

  lemma {:induction false} SameFirst(a: string, b: string, c: string, d: string)
    requires '/' !in a && '/' !in c && a + "/" + b == c + "/" + d
    ensures a == c && b == d
    decreases |a|
  {
    var x, y := a + "/" + b, c + "/" + d;
    if a == [] || c == [] {
      assert x[0] == y[0];
      assert b == x[1..] && d == y[1..];
    } else {
      assert x[0] == a[0] && y[0] == c[0];
      assert x[1..] == a[1..] + "/" + b && y[1..] == c[1..] + "/" + d;
      SameFirst(a[1..], b, c[1..], d);
      assert a == [a[0]] + a[1..] && c == [c[0]] + c[1..];
    }
  }

  lemma {:induction false} PosixSplits(path: Path)
    requires Named(path) && |path| > 1
    ensures Posix(path) == path[0] + "/" + Posix(path[1..])
    ensures '/' in Posix(path)
  {
    assert Posix(path)[|path[0]|] == '/';
  }

  /** Different paths have different texts, so sorting by the text orders them all. */
  lemma {:induction false} PosixInjective(p: Path, q: Path)
    requires Named(p) && Named(q) && Posix(p) == Posix(q)
    ensures p == q
  {
    if |p| > 1 { PosixSplits(p); }
    if |q| > 1 { PosixSplits(q); }
    if |p| > 1 && |q| > 1 {
      SameFirst(p[0], Posix(p[1..]), q[0], Posix(q[1..]));
      PosixInjective(p[1..], q[1..]);
      assert p == [p[0]] + p[1..] && q == [q[0]] + q[1..];
    }
  }

  /** What the paths are sorted by. */
  function PathText(path: Path): Text { Points(Posix(path)) }

  function Paths(files: seq<Found>): seq<Path>
  {
    if files == [] then [] else [files[0].path] + Paths(files[1..])
  }

  /** The directories that lead to the files. */
  function Directories(files: seq<Found>): set<Path>
  {
    set f, k | f in files && 0 < k < |f.path| :: f.path[..k]
  }

  function Total(files: seq<Found>): nat
  {
    if files == [] then 0 else files[0].size + Total(files[1..])
  }

  /** The bounds on a bundle, as properties of the set of its files. */
  predicate WithinLimits(files: seq<Found>)
  {
    && (forall f :: f in files ==> f.size <= MAX_FILE_BYTES && |f.path| - 1 <= MAX_TREE_DEPTH)
    && Total(files) <= MAX_TREE_BYTES
    && |files| + |Directories(files)| <= MAX_TREE_ENTRIES
  }

  /** The directories are the proper beginnings of the paths, without the root. */
  lemma DirectoriesAre(files: seq<Found>, d: Path)
    ensures d in Directories(files) <==> d != [] && exists f :: f in files && d < f.path
  {
    if d != [] {
      forall f | f in files && d < f.path
        ensures d in Directories(files)
      {
        assert f.path[..|d|] == d;
      }
    }
  }

  /** The bounds in numbers: 64 MiB a file, 256 MiB in all, 64 directories deep, 16384 files and directories. */
  lemma LimitsInNumbers(files: seq<Found>)
    ensures WithinLimits(files) <==>
              && (forall f :: f in files ==> f.size <= 67_108_864 && |f.path| <= 65)
              && Total(files) <= 268_435_456 && |files| + |Directories(files)| <= 16_384
    ensures forall d :: d in Directories(files) <==> d != [] && exists f :: f in files && d < f.path
    ensures MAX_SCAN_ENTRIES == 65_536 && MAX_SCAN_DEPTH == 256
  {
    forall d ensures d in Directories(files) <==> d != [] && exists f :: f in files && d < f.path {
      DirectoriesAre(files, d);
    }
  }

  // ---------- The tree, recursively ----------

  /** Every file below `entries`. */
  function Files(entries: seq<Entry>, at: Path): (fs: seq<Found>)
    ensures forall f :: f in fs ==> f.path != []
  {
    if entries == [] then [] else
      (match entries[0].node
       case File(size) => [Found(at + [entries[0].name], size)]
       case Dir(children) => Files(children, at + [entries[0].name]))
      + Files(entries[1..], at)
  }

  /** The files a scan that prunes caches meets. */
  function Pruned(entries: seq<Entry>, at: Path, ignore: bool): seq<Found>
  {
    if entries == [] then [] else
      var name := entries[0].name;
      (match entries[0].node
       case File(size) => if ignore && CacheFile(name) then [] else [Found(at + [name], size)]
       case Dir(children) =>
         if ignore && name in CACHE_DIRECTORIES then [] else Pruned(children, at + [name], ignore))
      + Pruned(entries[1..], at, ignore)
  }

  /** Directory entries the scan looks at. */
  function Visited(entries: seq<Entry>, ignore: bool): nat
  {
    if entries == [] then 0 else
      1 + (match entries[0].node
           case File(_) => 0
           case Dir(children) =>
             if ignore && entries[0].name in CACHE_DIRECTORIES then 0 else Visited(children, ignore))
      + Visited(entries[1..], ignore)
  }

  /** No directory the scan enters is deeper than its traversal bound. */
  predicate Shallow(entries: seq<Entry>, depth: nat, ignore: bool)
  {
    entries == [] || (
      && (match entries[0].node
          case File(_) => true
          case Dir(children) =>
            (ignore && entries[0].name in CACHE_DIRECTORIES)
            || (depth + 1 <= MAX_SCAN_DEPTH && Shallow(children, depth + 1, ignore)))
      && Shallow(entries[1..], depth, ignore))
  }

  function Keep(files: seq<Found>, ignore: bool): seq<Found>
    requires forall f :: f in files ==> f.path != []
  {
    if files == [] then [] else
      KeepOne(files[0], ignore) + Keep(files[1..], ignore)
  }

  lemma {:induction false} KeepConcat(a: seq<Found>, b: seq<Found>, ignore: bool)
    requires forall f :: f in a + b ==> f.path != []
    ensures (forall f :: f in a ==> f.path != []) && (forall f :: f in b ==> f.path != [])
    ensures Keep(a + b, ignore) == Keep(a, ignore) + Keep(b, ignore)
  {
    hide CachePath;
    assert forall f :: f in a ==> f in a + b;
    assert forall f :: f in b ==> f in a + b;
    if a == [] {
      assert a + b == b;
    } else {
      assert forall f :: f in a[1..] + b ==> f in a + b;
      KeepConcat(a[1..], b, ignore);
      KeepFirst(a, ignore);
      assert (a + b)[1..] == a[1..] + b && (a + b)[0] == a[0];
      KeepFirst(a + b, ignore);
      Reassociate(KeepOne(a[0], ignore), Keep(a[1..], ignore), Keep(b, ignore));
    }
  }

  function KeepOne(f: Found, ignore: bool): seq<Found>
    requires f.path != []
  {
    if ignore && CachePath(f.path) then [] else [f]
  }

  lemma KeepFirst(files: seq<Found>, ignore: bool)
    requires files != [] && forall f :: f in files ==> f.path != []
    ensures Keep(files, ignore) == KeepOne(files[0], ignore) + Keep(files[1..], ignore)
  {
  }

  predicate CacheFree(at: Path) { forall i :: 0 <= i < |at| ==> at[i] !in CACHE_DIRECTORIES }

  /** Below a cache directory the filter keeps nothing. */
  lemma {:induction false} BelowCache(entries: seq<Entry>, at: Path)
    requires !CacheFree(at)
    ensures Keep(Files(entries, at), true) == []
  {
    if entries != [] {
      var i :| 0 <= i < |at| && at[i] in CACHE_DIRECTORIES;
      var below := at + [entries[0].name];
      assert below[i] == at[i];
      var first := match entries[0].node
                   case File(size) => [Found(below, size)]
                   case Dir(children) => Files(children, below);
      KeepConcat(first, Files(entries[1..], at), true);
      BelowCache(entries[1..], at);
      if entries[0].node.Dir? { BelowCache(entries[0].node.entries, below); }
    }
  }

  /** Pruning while walking is filtering afterwards, provided the walk starts outside any cache. */
  lemma {:induction false} PruningIsFiltering(entries: seq<Entry>, at: Path, ignore: bool)
    requires CacheFree(at)
    ensures Pruned(entries, at, ignore) == Keep(Files(entries, at), ignore)
  {
    if entries != [] {
      var name := entries[0].name;
      var below := at + [name];
      var first := match entries[0].node
                   case File(size) => [Found(below, size)]
                   case Dir(children) => Files(children, below);
      KeepConcat(first, Files(entries[1..], at), ignore);
      PruningIsFiltering(entries[1..], at, ignore);
      if entries[0].node.Dir? {
        if name in CACHE_DIRECTORIES {
          assert below[|at|] == name;
          if ignore {
            BelowCache(entries[0].node.entries, below);
          } else {
            NothingIgnored(entries[0].node.entries, below);
          }
        } else {
          PruningIsFiltering(entries[0].node.entries, below, ignore);
        }
      } else {
        assert CachePath(below) <==> CacheFile(name);
      }
    }
  }

  lemma {:induction false} NothingIgnored(entries: seq<Entry>, at: Path)
    ensures Pruned(entries, at, false) == Keep(Files(entries, at), false)
  {
    KeepAll(Files(entries, at));
    if entries != [] {
      var below := at + [entries[0].name];
      NothingIgnored(entries[1..], at);
      KeepAll(Files(entries[1..], at));
      if entries[0].node.Dir? {
        NothingIgnored(entries[0].node.entries, below);
        KeepAll(Files(entries[0].node.entries, below));
      }
    }
  }

  lemma {:induction false} KeepAll(files: seq<Found>)
    requires forall f :: f in files ==> f.path != []
    ensures Keep(files, false) == files
  {
    if files != [] { KeepAll(files[1..]); }
  }

  // ---------- Order does not matter ----------

  lemma {:induction false} TotalConcat(a: seq<Found>, b: seq<Found>)
    ensures Total(a + b) == Total(a) + Total(b)
  {
    if a == [] {
      assert a + b == b;
    } else {
      assert (a + b)[1..] == a[1..] + b;
      TotalConcat(a[1..], b);
    }
  }

  /** The first file of one permutation, taken out of the other. */
  lemma TakeOut(a: seq<Found>, b: seq<Found>) returns (front: seq<Found>, back: seq<Found>)
    requires a != [] && multiset(a) == multiset(b)
    ensures b == front + ([a[0]] + back)
    ensures multiset(a[1..]) == multiset(front + back)
  {
    assert a[0] in multiset(b);
    var i :| 0 <= i < |b| && b[i] == a[0];
    front, back := b[..i], b[i + 1..];
    assert b == front + ([a[0]] + back);
    Pull([], a[0], a[1..]);
    assert a == [] + ([a[0]] + a[1..]);
    assert [] + a[1..] == a[1..];
    Pull(front, a[0], back);
    Cancel(multiset(a[1..]), multiset(front + back), a[0]);
  }

  lemma Cancel(m: multiset<Found>, n: multiset<Found>, f: Found)
    requires m + multiset{f} == n + multiset{f}
    ensures m == n
  {
    assert (m + multiset{f}) - multiset{f} == m && (n + multiset{f}) - multiset{f} == n;
  }

  lemma Pull(front: seq<Found>, f: Found, back: seq<Found>)
    ensures multiset(front + ([f] + back)) == multiset(front + back) + multiset{f}
  {
  }

  lemma {:induction false} TotalPermuted(a: seq<Found>, b: seq<Found>)
    requires multiset(a) == multiset(b)
    ensures Total(a) == Total(b)
  {
    if a == [] {
      assert |multiset(b)| == 0;
    } else {
      var f := a[0];
      var front, back := TakeOut(a, b);
      TotalPermuted(a[1..], front + back);
      TotalConcat(front, back);
      TotalConcat(front, [f] + back);
    }
  }

  lemma LimitsPermuted(a: seq<Found>, b: seq<Found>)
    requires multiset(a) == multiset(b)
    ensures WithinLimits(a) <==> WithinLimits(b)
  {
    TotalPermuted(a, b);
    assert |a| == |multiset(a)| == |multiset(b)| == |b|;
    forall f
      ensures f in a <==> f in b
    {
      assert f in multiset(a) <==> f in multiset(b);
    }
    assert Directories(a) == Directories(b);
  }

  lemma {:induction false} KeepPermuted(a: seq<Found>, b: seq<Found>, ignore: bool)
    requires multiset(a) == multiset(b)
    requires (forall f :: f in a ==> f.path != []) && (forall f :: f in b ==> f.path != [])
    ensures multiset(Keep(a, ignore)) == multiset(Keep(b, ignore))
  {
    if a == [] {
      assert |multiset(b)| == 0;
    } else {
      var f := a[0];
      var front, back := TakeOut(a, b);
      KeepPermuted(a[1..], front + back, ignore);
      KeepConcat(front, back, ignore);
      KeepConcat(front, [f] + back, ignore);
      assert ([f] + back)[1..] == back;
    }
  }

  // ---------- The worktree scan ----------

  datatype Job = Job(at: Path, entries: seq<Entry>)

  /** What the directories on a stack still hold. */
  function JobFiles(jobs: seq<Job>, ignore: bool): seq<Found>
  {
    if jobs == [] then [] else
      var last := jobs[|jobs| - 1];
      JobFiles(jobs[..|jobs| - 1], ignore) + Pruned(last.entries, last.at, ignore)
  }

  function JobVisits(jobs: seq<Job>, ignore: bool): nat
  {
    if jobs == [] then 0 else
      JobVisits(jobs[..|jobs| - 1], ignore) + Visited(jobs[|jobs| - 1].entries, ignore)
  }

  predicate JobsShallow(jobs: seq<Job>, ignore: bool)
  {
    jobs == [] || (
      var last := jobs[|jobs| - 1];
      JobsShallow(jobs[..|jobs| - 1], ignore) && Shallow(last.entries, |last.at|, ignore))
  }

  lemma PushJob(jobs: seq<Job>, j: Job, ignore: bool)
    ensures JobFiles(jobs + [j], ignore) == JobFiles(jobs, ignore) + Pruned(j.entries, j.at, ignore)
    ensures JobVisits(jobs + [j], ignore) == JobVisits(jobs, ignore) + Visited(j.entries, ignore)
    ensures JobsShallow(jobs + [j], ignore) <==> JobsShallow(jobs, ignore) && Shallow(j.entries, |j.at|, ignore)
  {
    assert (jobs + [j])[..|jobs|] == jobs;
  }

  /** A tree the scan accepts. */
  predicate Scannable(root: seq<Entry>, ignore: bool)
  {
    && Visited(root, ignore) <= MAX_SCAN_ENTRIES && Shallow(root, 0, ignore)
    && WithinLimits(Pruned(root, [], ignore))
  }

  /**
   The scan so far, against the whole tree: what was found, and what is still ahead, given as its
   files, the entries it will visit, and whether it is shallow.
  */
  ghost predicate Account(root: seq<Entry>, ignore: bool, files: seq<Found>, total: nat, traversed: nat,
                          ahead: seq<Found>, visits: nat, shallow: bool)
  {
    && multiset(files + ahead) == multiset(Pruned(root, [], ignore))
    && total == Total(files) <= MAX_TREE_BYTES
    && traversed + visits == Visited(root, ignore) && traversed <= MAX_SCAN_ENTRIES
    && (shallow <==> Shallow(root, 0, ignore))
    && (forall f :: f in files ==> f.size <= MAX_FILE_BYTES)
  }

  ghost predicate Progress(root: seq<Entry>, ignore: bool, files: seq<Found>, total: nat, traversed: nat,
          jobs: seq<Job>)
  {
    Account(root, ignore, files, total, traversed, JobFiles(jobs, ignore), JobVisits(jobs, ignore),
            JobsShallow(jobs, ignore))
  }

  predicate Skipped(e: Entry, ignore: bool)
  {
    ignore && (if e.node.Dir? then e.name in CACHE_DIRECTORIES else CacheFile(e.name))
  }

  /** Reading one entry that is skipped. */
  lemma SkipEntry(root: seq<Entry>, ignore: bool, files: seq<Found>, total: nat, traversed: nat, stack: seq<Job>,
                  at: Path, entries: seq<Entry>)
    requires entries != [] && Progress(root, ignore, files, total, traversed, stack + [Job(at, entries)])
    requires Skipped(entries[0], ignore) && traversed + 1 <= MAX_SCAN_ENTRIES
    ensures Progress(root, ignore, files, total, traversed + 1, stack + [Job(at, entries[1..])])
  {
    PushJob(stack, Job(at, entries), ignore);
    PushJob(stack, Job(at, entries[1..]), ignore);
    assert Pruned(entries, at, ignore) == Pruned(entries[1..], at, ignore);
  }

  /** The traversal bound counts every entry read. */
  lemma TooManyEntries(root: seq<Entry>, ignore: bool, files: seq<Found>, total: nat, traversed: nat, stack: seq<Job>,
                       at: Path, entries: seq<Entry>)
    requires entries != [] && Progress(root, ignore, files, total, traversed, stack + [Job(at, entries)])
    requires traversed + 1 > MAX_SCAN_ENTRIES
    ensures !Scannable(root, ignore)
  {
    PushJob(stack, Job(at, entries), ignore);
  }

  /** A directory beyond the traversal depth. */
  lemma TooDeep(root: seq<Entry>, ignore: bool, files: seq<Found>, total: nat, traversed: nat, stack: seq<Job>,
                at: Path, entries: seq<Entry>)
    requires entries != [] && Progress(root, ignore, files, total, traversed, stack + [Job(at, entries)])
    requires entries[0].node.Dir? && !Skipped(entries[0], ignore) && |at| + 1 > MAX_SCAN_DEPTH
    ensures !Scannable(root, ignore)
  {
    PushJob(stack, Job(at, entries), ignore);
    assert !Shallow(entries, |at|, ignore);
  }

  /** Entering a directory moves its contents from the current job to one of its own. */
  lemma EnterDirectory(root: seq<Entry>, ignore: bool, files: seq<Found>, total: nat, traversed: nat, stack: seq<Job>,
                       at: Path, entries: seq<Entry>)
    requires entries != [] && Progress(root, ignore, files, total, traversed, stack + [Job(at, entries)])
    requires entries[0].node.Dir? && !Skipped(entries[0], ignore)
    requires traversed + 1 <= MAX_SCAN_ENTRIES && |at| + 1 <= MAX_SCAN_DEPTH
    ensures Progress(root, ignore, files, total, traversed + 1,
                     stack + [Job(at + [entries[0].name], entries[0].node.entries)] + [Job(at, entries[1..])])
  {
    var child, rest := Job(at + [entries[0].name], entries[0].node.entries), Job(at, entries[1..]);
    PushJob(stack, Job(at, entries), ignore);
    PushJob(stack, child, ignore);
    PushJob(stack + [child], rest, ignore);
    Reassociate(JobFiles(stack, ignore), Pruned(child.entries, child.at, ignore), Pruned(rest.entries, at, ignore));
    DirectoryFirst(entries, at, ignore);
    assert |child.at| == |at| + 1;
    assert JobFiles(stack + [child] + [rest], ignore) == JobFiles(stack + [Job(at, entries)], ignore);
    assert 1 + JobVisits(stack + [child] + [rest], ignore) == JobVisits(stack + [Job(at, entries)], ignore);
    assert JobsShallow(stack + [child] + [rest], ignore) <==> JobsShallow(stack + [Job(at, entries)], ignore);
  }

  lemma Reassociate(a: seq<Found>, b: seq<Found>, c: seq<Found>)
    ensures a + (b + c) == a + b + c
  {
  }

  lemma DirectoryFirst(entries: seq<Entry>, at: Path, ignore: bool)
    requires entries != [] && entries[0].node.Dir? && !Skipped(entries[0], ignore) && |at| + 1 <= MAX_SCAN_DEPTH
    ensures var (children, below) := (entries[0].node.entries, at + [entries[0].name]);
            && Pruned(entries, at, ignore) == Pruned(children, below, ignore) + Pruned(entries[1..], at, ignore)
            && Visited(entries, ignore) == 1 + Visited(children, ignore) + Visited(entries[1..], ignore)
            && (Shallow(entries, |at|, ignore) <==>
                  Shallow(children, |at| + 1, ignore) && Shallow(entries[1..], |at|, ignore))
  {
  }

  /** Reading a file moves it from what is ahead to what was found. */
  lemma ReadFile(root: seq<Entry>, ignore: bool, files: seq<Found>, total: nat, traversed: nat, stack: seq<Job>,
                 at: Path, entries: seq<Entry>)
    requires entries != [] && Progress(root, ignore, files, total, traversed, stack + [Job(at, entries)])
    requires entries[0].node.File? && !Skipped(entries[0], ignore) && traversed + 1 <= MAX_SCAN_ENTRIES
    ensures var (name, size) := (entries[0].name, entries[0].node.size);
            if size > MAX_FILE_BYTES || total + size > MAX_TREE_BYTES then !Scannable(root, ignore) else
            Progress(root, ignore, files + [Found(at + [name], size)], total + size, traversed + 1,
                     stack + [Job(at, entries[1..])])
  {
    var found := Found(at + [entries[0].name], entries[0].node.size);
    PushJob(stack, Job(at, entries), ignore);
    PushJob(stack, Job(at, entries[1..]), ignore);
    FileFirst(entries, at, ignore);
    CollectFile(root, ignore, files, total, traversed, JobFiles(stack, ignore), found, Pruned(entries[1..], at, ignore),
                JobVisits(stack, ignore) + Visited(entries[1..], ignore),
                JobsShallow(stack, ignore) && Shallow(entries[1..], |at|, ignore));
  }

  lemma CollectFile(root: seq<Entry>, ignore: bool, files: seq<Found>, total: nat, traversed: nat,
                    pending: seq<Found>, found: Found, later: seq<Found>, visits: nat, shallow: bool)
    requires Account(root, ignore, files, total, traversed, pending + ([found] + later), visits + 1, shallow)
    requires traversed + 1 <= MAX_SCAN_ENTRIES
    ensures if found.size > MAX_FILE_BYTES || total + found.size > MAX_TREE_BYTES then !Scannable(root, ignore) else
            Account(root, ignore, files + [found], total + found.size, traversed + 1, pending + later, visits, shallow)
  {
    MoveFile(files, pending, found, later);
    TotalConcat(files, [found]);
    AllFound(root, ignore, files + [found], pending + later);
    assert found in files + [found];
  }

  lemma FileFirst(entries: seq<Entry>, at: Path, ignore: bool)
    requires entries != [] && entries[0].node.File? && !Skipped(entries[0], ignore)
    ensures Pruned(entries, at, ignore)
            == [Found(at + [entries[0].name], entries[0].node.size)] + Pruned(entries[1..], at, ignore)
    ensures Visited(entries, ignore) == 1 + Visited(entries[1..], ignore)
    ensures Shallow(entries, |at|, ignore) <==> Shallow(entries[1..], |at|, ignore)
  {
  }

  lemma MoveFile(files: seq<Found>, pending: seq<Found>, found: Found, later: seq<Found>)
    ensures multiset(files + (pending + ([found] + later))) == multiset((files + [found]) + (pending + later))
  {
  }

  /** What has been found already decides against the tree if it is too much. */
  lemma AllFound(root: seq<Entry>, ignore: bool, files: seq<Found>, pending: seq<Found>)
    requires multiset(files + pending) == multiset(Pruned(root, [], ignore))
    ensures Total(files) > MAX_TREE_BYTES ==> !Scannable(root, ignore)
    ensures (exists f :: f in files && f.size > MAX_FILE_BYTES) ==> !Scannable(root, ignore)
  {
    var all := Pruned(root, [], ignore);
    TotalPermuted(files + pending, all);
    TotalConcat(files, pending);
    forall f | f in files
      ensures f in all
    {
      assert f in files + pending;
      assert f in multiset(files + pending);
    }
  }

  /** One directory entry: skipped, pushed for later, or collected. */
  method ReadEntry(root: seq<Entry>, ignore: bool, found: seq<Found>, sum: nat, seen: nat, pending: seq<Job>,
                   at: Path, entries: seq<Entry>)
    returns (ok: bool, files: seq<Found>, total: nat, traversed: nat, stack: seq<Job>)
    requires entries != [] && Progress(root, ignore, found, sum, seen, pending + [Job(at, entries)])
    ensures !ok ==> !Scannable(root, ignore)
    ensures ok ==> Progress(root, ignore, files, total, traversed, stack + [Job(at, entries[1..])])
    ensures ok ==> Work(stack, entries[1..], ignore) <= Work(pending, entries, ignore)
  {
    ok, files, total, traversed, stack := false, found, sum, seen, pending;
    var e := entries[0];
    if traversed + 1 > MAX_SCAN_ENTRIES {
      TooManyEntries(root, ignore, files, total, traversed, stack, at, entries);
      return;
    }
    if Skipped(e, ignore) {
      SkipEntry(root, ignore, files, total, traversed, stack, at, entries);
    } else if e.node.Dir? {
      if |at| + 1 > MAX_SCAN_DEPTH {
        TooDeep(root, ignore, files, total, traversed, stack, at, entries);
        return;
      }
      EnterDirectory(root, ignore, files, total, traversed, stack, at, entries);
      DirectoryFirst(entries, at, ignore);
      PushJob(stack, Job(at + [e.name], e.node.entries), ignore);
      stack := stack + [Job(at + [e.name], e.node.entries)];
    } else {
      ReadFile(root, ignore, files, total, traversed, stack, at, entries);
      if e.node.size > MAX_FILE_BYTES || total + e.node.size > MAX_TREE_BYTES { return; }
      total := total + e.node.size;
      files := files + [Found(at + [e.name], e.node.size)];
    }
    ok, traversed := true, traversed + 1;
  }

  /** What is left to do: the directories waiting, and the entries not yet read. */
  ghost function Work(stack: seq<Job>, entries: seq<Entry>, ignore: bool): nat
  {
    |stack| + JobVisits(stack, ignore) + Visited(entries, ignore)
  }

  /** The inner loop: one directory, its subdirectories pushed, its files collected. */
  method ScanDirectory(root: seq<Entry>, ignore: bool, found: seq<Found>, sum: nat, seen: nat, rest: seq<Job>,
          current: Job)
    returns (ok: bool, files: seq<Found>, total: nat, traversed: nat, stack: seq<Job>)
    requires Progress(root, ignore, found, sum, seen, rest + [current])
    ensures !ok ==> !Scannable(root, ignore)
    ensures ok ==> Progress(root, ignore, files, total, traversed, stack)
    ensures ok ==> Work(stack, [], ignore) <= Work(rest, current.entries, ignore)
  {
    ok, files, total, traversed, stack := true, found, sum, seen, rest;
    var at, entries := current.at, current.entries;
    assert current == Job(at, entries);
    while entries != []
      invariant ok && Progress(root, ignore, files, total, traversed, stack + [Job(at, entries)])
      invariant Work(stack, entries, ignore) <= Work(rest, current.entries, ignore)
      decreases |entries|
    {
      ok, files, total, traversed, stack := ReadEntry(root, ignore, files, total, traversed, stack, at, entries);
      if !ok { return; }
      entries := entries[1..];
    }
    PushJob(stack, Job(at, []), ignore);
    assert JobFiles(stack, ignore) + [] == JobFiles(stack, ignore);
  }

  lemma StartProgress(root: seq<Entry>, ignore: bool)
    ensures Progress(root, ignore, [], 0, 0, [Job([], root)])
  {
    PushJob([], Job([], root), ignore);
    assert [] + [Job([], root)] == [Job([], root)];
    assert [] + JobFiles([Job([], root)], ignore) == Pruned(root, [], ignore);
  }

  /**
   `_scan_normalized_worktree`: accepts exactly the scannable trees, and returns the paths of the
   files that the recursive walk keeps, sorted by their POSIX spelling.
  */
  method ScanNormalizedWorktree(root: seq<Entry>, ignore: bool) returns (result: Option<seq<Path>>)
    ensures result.Some? <==> Scannable(root, ignore)
    ensures result.Some? <==>
              var files := Pruned(root, [], ignore);
              && Visited(root, ignore) <= 65_536 && Shallow(root, 0, ignore)
              && (forall f :: f in files ==> f.size <= 67_108_864 && |f.path| <= 65)
              && Total(files) <= 268_435_456 && |files| + |Directories(files)| <= 16_384
    ensures result.Some? ==> SortedBy(result.value, PathText)
    ensures result.Some? ==> multiset(result.value) == multiset(Paths(Pruned(root, [], ignore)))
  {
    LimitsInNumbers(Pruned(root, [], ignore));
    hide WithinLimits, Directories;
    var files: seq<Found>, total: nat, traversed: nat := [], 0, 0;
    var stack := [Job([], root)];
    StartProgress(root, ignore);
    while stack != []
      invariant Progress(root, ignore, files, total, traversed, stack)
      decreases |stack| + JobVisits(stack, ignore)
    {
      var current, rest := stack[|stack| - 1], stack[..|stack| - 1];
      assert stack == rest + [current];
      PushJob(rest, current, ignore);
      var ok;
      ok, files, total, traversed, stack := ScanDirectory(root, ignore, files, total, traversed, rest, current);
      if !ok { return None; }
    }
    result := Conclude(root, ignore, files, total, traversed);
  }

  /** After the walk: the bounds on the retained directories, and the sorting. */
  method Conclude(root: seq<Entry>, ignore: bool, files: seq<Found>, total: nat, traversed: nat)
    returns (result: Option<seq<Path>>)
    requires Progress(root, ignore, files, total, traversed, [])
    ensures result.Some? <==> Scannable(root, ignore)
    ensures result.Some? ==> SortedBy(result.value, PathText)
    ensures result.Some? ==> multiset(result.value) == multiset(Paths(Pruned(root, [], ignore)))
  {
    assert files + [] == files;
    LimitsPermuted(files, Pruned(root, [], ignore));
    DeepDirectory(files);
    var retained := Directories(files);
    if exists d :: d in retained && |d| > MAX_TREE_DEPTH { return None; }
    if |files| + |retained| > MAX_TREE_ENTRIES { return None; }
    SortedSorts(Paths(files), PathText);
    PathsPermuted(files, Pruned(root, [], ignore));
    result := Some(Sorted(Paths(files), PathText));
  }

  /** A retained directory is too deep exactly when some file lies too deep. */
  lemma DeepDirectory(files: seq<Found>)
    ensures (exists d :: d in Directories(files) && |d| > MAX_TREE_DEPTH)
            <==> exists f :: f in files && |f.path| - 1 > MAX_TREE_DEPTH
  {
    if f :| f in files && |f.path| - 1 > MAX_TREE_DEPTH {
      assert f.path[..|f.path| - 1] in Directories(files);
    }
  }

  lemma {:induction false} PathsConcat(a: seq<Found>, b: seq<Found>)
    ensures Paths(a + b) == Paths(a) + Paths(b)
  {
    if a == [] {
      assert a + b == b;
    } else {
      assert (a + b)[1..] == a[1..] + b;
      PathsConcat(a[1..], b);
    }
  }

  lemma {:induction false} PathsPermuted(a: seq<Found>, b: seq<Found>)
    requires multiset(a) == multiset(b)
    ensures multiset(Paths(a)) == multiset(Paths(b))
  {
    if a == [] {
      assert |multiset(b)| == 0;
    } else {
      var f := a[0];
      var front, back := TakeOut(a, b);
      PathsPermuted(a[1..], front + back);
      PathsConcat(front, back);
      PathsConcat(front, [f] + back);
      assert ([f] + back)[1..] == back;
    }
  }

  // ---------- The Git listing ----------

  /**
   `_git_bundle_entries` on a listing in any order: the kept entries, in that order. It also wants the
   bundle's entry point, SKILL.md, at its top.
  */
  method GitBundleEntries(listing: seq<Found>, ignore: bool) returns (result: Option<seq<Found>>)
    requires forall f :: f in listing ==> f.path != []
    ensures result.Some? <==> WithinLimits(Keep(listing, ignore)) && ["SKILL.md"] in Paths(Keep(listing, ignore))
    ensures result.Some? ==> result.value == Keep(listing, ignore)
  {
    var entries: seq<Found>, directories: set<Path>, total: nat := [], {}, 0;
    for i := 0 to |listing|
      invariant Keep(listing, ignore) == entries + Keep(listing[i..], ignore)
      invariant total == Total(entries) && directories == Directories(entries)
      invariant WithinLimits(entries)
    {
      var entry := listing[i];
      assert listing[i..][0] == entry && listing[i..][1..] == listing[i + 1..];
      assert listing[i] in listing;
      if !(ignore && CachePath(entry.path)) {
        Split(entries, entry, Keep(listing[i + 1..], ignore));
        var ok;
        ok, entries, directories, total := AddEntry(entries, directories, total, entry);
        if !ok { return None; }
      }
    }
    assert entries + [] == entries;
    if ["SKILL.md"] !in Paths(entries) { return None; }
    result := Some(entries);
  }

  /** A listing that is over a bound stays over it. */
  lemma StartWithinLimits(a: seq<Found>, b: seq<Found>)
    ensures WithinLimits(a + b) ==> WithinLimits(a)
  {
    TotalConcat(a, b);
    assert forall f :: f in a ==> f in a + b;
    assert Directories(a) <= Directories(a + b);
    SubsetSize(Directories(a), Directories(a + b));
  }

  lemma {:induction false} SubsetSize<T>(a: set<T>, b: set<T>)
    requires a <= b
    ensures |a| <= |b|
    decreases |a|
  {
    if a != {} {
      var x :| x in a;
      SubsetSize(a - {x}, b - {x});
    }
  }

  function Parents(path: Path): set<Path> { set k | 0 < k < |path| :: path[..k] }

  /** The inner loop: from the parent of a file up to the bundle's root. */
  method AddParents(directories: set<Path>, path: Path) returns (r: set<Path>)
    requires path != []
    ensures r == directories + Parents(path)
  {
    r := directories;
    var parent := path[..|path| - 1];
    while parent != []
      invariant |parent| < |path| && parent == path[..|parent|]
      invariant r == directories + set k | |parent| < k < |path| :: path[..k]
      decreases |parent|
    {
      r := r + {parent};
      parent := parent[..|parent| - 1];
    }
  }

  /** The body of the listing loop: one more entry, and the bounds it may break. */
  method AddEntry(before: seq<Found>, parents: set<Path>, sum: nat, entry: Found)
    returns (ok: bool, entries: seq<Found>, directories: set<Path>, total: nat)
    requires entry.path != [] && WithinLimits(before) && sum == Total(before) && parents == Directories(before)
    ensures ok <==> WithinLimits(before + [entry])
    ensures ok ==> entries == before + [entry] && total == Total(entries) && directories == Directories(entries)
  {
    ok, entries, directories, total := false, before, parents, sum;
    TotalConcat(before, [entry]);
    assert Directories(before + [entry]) == Directories(before) + Parents(entry.path);
    assert forall f :: f in before + [entry] <==> f in before || f == entry;
    hide Directories, Total, Parents;
    if |entry.path| - 1 > MAX_TREE_DEPTH { return; }
    if entry.size > MAX_FILE_BYTES { return; }
    total := total + entry.size;
    if total > MAX_TREE_BYTES { return; }
    directories := AddParents(directories, entry.path);
    entries := entries + [entry];
    ok := |entries| + |directories| <= MAX_TREE_ENTRIES;
  }

  lemma Split(entries: seq<Found>, entry: Found, later: seq<Found>)
    ensures entries + ([entry] + later) == (entries + [entry]) + later
    ensures WithinLimits((entries + [entry]) + later) ==> WithinLimits(entries + [entry])
  {
    StartWithinLimits(entries + [entry], later);
  }

  // ---------- The two agree ----------

  /**
   For a tree within the traversal limits and a listing of all its files in any order, the scan accepts
   the tree exactly when the listing is within its limits, and both keep the same files.
  */
  lemma ScanAgreesWithListing(root: seq<Entry>, listing: seq<Found>, ignore: bool)
    requires multiset(listing) == multiset(Files(root, []))
    requires forall f :: f in listing ==> f.path != []
    ensures multiset(Keep(listing, ignore)) == multiset(Pruned(root, [], ignore))
    ensures Visited(root, ignore) <= MAX_SCAN_ENTRIES && Shallow(root, 0, ignore) ==>
              (Scannable(root, ignore) <==> WithinLimits(Keep(listing, ignore)))
  {
    PruningIsFiltering(root, [], ignore);
    KeepPermuted(listing, Files(root, []), ignore);
    LimitsPermuted(Keep(listing, ignore), Pruned(root, [], ignore));
  }
}
