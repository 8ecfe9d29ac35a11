/** Copying the user code below one module path from the remote storage to the worker's disk. */
module StorageSync {
  import opened Wrappers

  /** Names from the workflows folder of the space downwards. */
  type Path = seq<string>

  /** What the storage answers to a listing, and the files it can open. */
  datatype Remote = Remote(folders: map<Path, seq<string>>, files: map<Path, seq<string>>, content: map<Path, string>)

  /** One call; `fits(name, pattern)` stands for fnmatch. */
  datatype Job = Job(remote: Remote, target: Path, patterns: seq<string>, fits: (string, string) -> bool)

  type Disk = map<Path, string>

  function At<T>(m: map<Path, T>, p: Path): Option<T> {
    if p in m then Some(m[p]) else None
  }

  /** storage.listdir: subfolders above the fourth level, files at it. */
  function Listing(r: Remote, p: Path): seq<string> {
    var m := if |p| < 4 then r.folders else r.files;
    if p in m then m[p] else []
  }

  predicate Matches(job: Job, name: string) {
    exists pattern :: pattern in job.patterns && job.fits(name, pattern)
  }

  /** A file four folders deep whose folders agree with the target path and whose name matches. */
  ghost predicate Wanted(job: Job, p: Path) {
    && |p| == 5 && p in job.remote.content
    && (forall i :: 0 <= i < 5 ==> p[i] in Listing(job.remote, p[..i]))
    && (forall i :: 0 <= i < 4 && i < |job.target| ==> p[i] == job.target[i])
    && Matches(job, p[4])
  }

  /** A file stands where the path needs a folder, or a folder where it needs the file. */
  predicate Blocked(disk: Disk, p: Path) {
    exists q :: q in disk && (q < p || p < q)
  }

  /** rmtree of the target folder. */
  function Cleared(disk: Disk, target: Path): Disk {
    map p | p in disk && !(target < p) :: disk[p]
  }

  /** The disk after a call, path by path. */
  ghost predicate Synced(before: Disk, after: Disk, job: Job) {
    forall p :: At(after, p) == Expected(Cleared(before, job.target), job, p)
  }

  ghost function Expected(cleared: Disk, job: Job, p: Path): Option<string> {
    if Wanted(job, p) && !Blocked(cleared, p) then At(job.remote.content, p) else At(cleared, p)
  }

  // ---- the loops ----

  /** In folder `scope` the listed names `done` are dealt with; elsewhere nothing changed since `a`. */
  ghost predicate Written(a: Disk, b: Disk, job: Job, scope: Path, done: seq<string>) {
    forall p :: At(b, p) == if Reached(scope, done, p) then Expected(a, job, p) else At(a, p)
  }

  ghost predicate Reached(scope: Path, done: seq<string>, p: Path) {
    |p| == 5 && |scope| < 5 && scope <= p && p[|scope|] in done
  }

  lemma BlockedSame(a: Disk, b: Disk, job: Job, scope: Path, done: seq<string>, p: Path)
    requires Written(a, b, job, scope, done) && |p| == 5
    ensures Blocked(a, p) <==> Blocked(b, p)
  {
    hide Wanted;
    if q :| q in a && (q < p || p < q) {
      assert At(b, q) == At(a, q);
    }
    if q :| q in b && (q < p || p < q) {
      assert At(b, q) == At(a, q);
    }
  }

  /** Nothing listed yet. */
  lemma WrittenNone(a: Disk, job: Job, scope: Path)
    ensures Written(a, a, job, scope, [])
  {
  }

  /** A folder whose name disagrees with the target path is passed over. */
  lemma WrittenSkip(a: Disk, b: Disk, job: Job, scope: Path, done: seq<string>, x: string)
    requires Written(a, b, job, scope, done) && |scope| < 4
    requires |scope| < |job.target| && x != job.target[|scope|]
    ensures Written(a, b, job, scope, done + [x])
  {
    forall p ensures At(b, p) == if Reached(scope, done + [x], p) then Expected(a, job, p) else At(a, p) {
      if Reached(scope, done + [x], p) && !Reached(scope, done, p) {
        assert p[|scope|] == x && !Wanted(job, p);
      }
    }
  }

  /** A folder is dealt with once all that is listed in it is. */
  lemma WrittenFolder(a: Disk, b: Disk, c: Disk, job: Job, scope: Path, done: seq<string>, x: string)
    requires |scope| < 4 && Written(a, b, job, scope, done)
    requires Written(b, c, job, scope + [x], Listing(job.remote, scope + [x]))
    ensures Written(a, c, job, scope, done + [x])
  {
    forall p ensures At(c, p) == if Reached(scope, done + [x], p) then Expected(a, job, p) else At(a, p) {
      if |p| == 5 {
        BlockedSame(a, b, job, scope, done, p);
        FolderReached(job, scope, x, p);
      }
    }
  }

  lemma FolderReached(job: Job, scope: Path, x: string, p: Path)
    requires |scope| < 4 && |p| == 5
    ensures scope + [x] <= p <==> scope <= p && p[|scope|] == x
    ensures scope + [x] <= p && Wanted(job, p) ==> p[|scope| + 1] in Listing(job.remote, scope + [x])
  {
    if scope <= p && p[|scope|] == x {
      assert scope + [x] == p[..|scope| + 1];
    }
  }

  /** A file is dealt with by writing it when it is wanted and can be read and written. */
  lemma WrittenFile(a: Disk, b: Disk, c: Disk, job: Job, scope: Path, done: seq<string>, x: string)
    requires |scope| == 4 && Written(a, b, job, scope, done)
    requires forall i :: 0 <= i < 4 ==> scope[i] in Listing(job.remote, scope[..i])
    requires forall i :: 0 <= i < 4 && i < |job.target| ==> scope[i] == job.target[i]
    requires x in Listing(job.remote, scope)
    requires var p := scope + [x];
      c == if Matches(job, x) && p in job.remote.content && !Blocked(b, p) then b[p := job.remote.content[p]] else b
    ensures Written(a, c, job, scope, done + [x])
  {
    var q := scope + [x];
    BlockedSame(a, b, job, scope, done, q);
    assert Wanted(job, q) <==> Matches(job, x) && q in job.remote.content by {
      assert forall i :: 0 <= i < 5 ==> q[..i] == scope[..i];
      assert q[..4] == scope;
    }
    forall p ensures At(c, p) == if Reached(scope, done + [x], p) then Expected(a, job, p) else At(a, p) {
      if |p| == 5 && scope <= p && p[4] == x {
        assert p == q;
      }
    }
  }

  lemma WrittenAll(before: Disk, after: Disk, job: Job)
    requires Written(Cleared(before, job.target), after, job, [], Listing(job.remote, []))
    ensures Synced(before, after, job)
  {
    forall p | Wanted(job, p) ensures Reached([], Listing(job.remote, []), p) {
      assert p[0] in Listing(job.remote, p[..0]);
    }
  }

  /** Folder names down to `scope` are listed and agree with the target. */
  ghost predicate Entered(job: Job, scope: Path) {
    && (forall i :: 0 <= i < |scope| ==> scope[i] in Listing(job.remote, scope[..i]))
    && (forall i :: 0 <= i < |scope| && i < |job.target| ==> scope[i] == job.target[i])
  }

  lemma EnteredNext(job: Job, scope: Path, x: string)
    requires Entered(job, scope) && x in Listing(job.remote, scope)
    requires |scope| < |job.target| ==> x == job.target[|scope|]
    ensures Entered(job, scope + [x])
  {
    assert forall i :: 0 <= i <= |scope| ==> (scope + [x])[..i] == scope[..i];
    assert scope[..|scope|] == scope;
  }

  class LocalStorage {
    var disk: Disk

    constructor ()
      ensures disk == map[]
    {
      disk := map[];
    }

    /** sync_remote_storage_to_local_storage_for_schema */
    method SyncRemoteStorage(job: Job)
      modifies this
      ensures Synced(old(disk), disk, job)
    {
      hide Written, Synced, Wanted, Entered, Listing;
      disk := Cleared(disk, job.target);
      ghost var d0 := disk;
      var configurations := Listing(job.remote, []);
      assert Entered(job, []) by { NothingEntered(job); }
      WrittenNone(d0, job, []);
      for i := 0 to |configurations|
        invariant Written(d0, disk, job, [], configurations[..i])
      {
        ghost var d1 := disk;
        var c := configurations[i];
        assert configurations[..i + 1] == configurations[..i] + [c];
        if |job.target| > 0 && c != job.target[0] {
          WrittenSkip(d0, disk, job, [], configurations[..i], c);
          continue;
        }
        EnteredNext(job, [], c);
        assert [] + [c] == [c];
        SyncConfiguration(job, c);
        WrittenFolder(d0, d1, disk, job, [], configurations[..i], c);
      }
      assert configurations[..|configurations|] == configurations;
      WrittenAll(old(disk), disk, job);
    }

    /** The folders of organizations, and of their modules. */
    method SyncConfiguration(job: Job, c: string)
      requires Entered(job, [c])
      modifies this
      ensures Written(old(disk), disk, job, [c], Listing(job.remote, [c]))
    {
      hide Written, Wanted, Entered, Listing;
      var organizations := Listing(job.remote, [c]);
      WrittenNone(disk, job, [c]);
      for i := 0 to |organizations|
        invariant Written(old(disk), disk, job, [c], organizations[..i])
      {
        ghost var d2 := disk;
        var o := organizations[i];
        assert organizations[..i + 1] == organizations[..i] + [o];
        if |job.target| > 1 && o != job.target[1] {
          WrittenSkip(old(disk), disk, job, [c], organizations[..i], o);
          continue;
        }
        EnteredNext(job, [c], o);
        assert [c] + [o] == [c, o];
        var modules := Listing(job.remote, [c, o]);
        WrittenNone(d2, job, [c, o]);
        for j := 0 to |modules|
          invariant Written(d2, disk, job, [c, o], modules[..j])
        {
          ghost var d3 := disk;
          var m := modules[j];
          assert modules[..j + 1] == modules[..j] + [m];
          if |job.target| > 2 && m != job.target[2] {
            WrittenSkip(d2, disk, job, [c, o], modules[..j], m);
            continue;
          }
          EnteredNext(job, [c, o], m);
          assert [c, o] + [m] == [c, o, m];
          SyncModule(job, c, o, m);
          WrittenFolder(d2, d3, disk, job, [c, o], modules[..j], m);
        }
        assert modules[..|modules|] == modules;
        WrittenFolder(old(disk), d2, disk, job, [c], organizations[..i], o);
      }
      assert organizations[..|organizations|] == organizations;
    }

    /** The folders of workflows, and their files. */
    method SyncModule(job: Job, c: string, o: string, m: string)
      requires Entered(job, [c, o, m])
      modifies this
      ensures Written(old(disk), disk, job, [c, o, m], Listing(job.remote, [c, o, m]))
    {
      hide Written, Wanted, Entered, Listing, Matches, Blocked;
      var workflows := Listing(job.remote, [c, o, m]);
      WrittenNone(disk, job, [c, o, m]);
      for i := 0 to |workflows|
        invariant Written(old(disk), disk, job, [c, o, m], workflows[..i])
      {
        ghost var d4 := disk;
        var w := workflows[i];
        assert workflows[..i + 1] == workflows[..i] + [w];
        if |job.target| > 3 && w != job.target[3] {
          WrittenSkip(old(disk), disk, job, [c, o, m], workflows[..i], w);
          continue;
        }
        EnteredNext(job, [c, o, m], w);
        assert [c, o, m] + [w] == [c, o, m, w];
        var files := Listing(job.remote, [c, o, m, w]);
        WrittenNone(d4, job, [c, o, m, w]);
        for j := 0 to |files|
          invariant Written(d4, disk, job, [c, o, m, w], files[..j])
        {
          ghost var before := disk;
          var f := files[j];
          assert files[..j + 1] == files[..j] + [f];
          var p := [c, o, m, w] + [f];
          if Matches(job, f) {
            if p in job.remote.content && !Blocked(disk, p) {
              disk := disk[p := job.remote.content[p]];
            }
          }
          FileEntered(job, [c, o, m, w]);
          WrittenFile(d4, before, disk, job, [c, o, m, w], files[..j], f);
        }
        assert files[..|files|] == files;
        WrittenFolder(old(disk), d4, disk, job, [c, o, m], workflows[..i], w);
      }
      assert workflows[..|workflows|] == workflows;
    }
  }

  lemma NothingEntered(job: Job)
    ensures Entered(job, [])
  {
  }

  lemma FileEntered(job: Job, scope: Path)
    requires Entered(job, scope) && |scope| == 4
    ensures forall i :: 0 <= i < 4 ==> scope[i] in Listing(job.remote, scope[..i])
    ensures forall i :: 0 <= i < 4 && i < |job.target| ==> scope[i] == job.target[i]
  {
  }

  // ---- what a call means ----

  /** Wanted, in the listings themselves: four folders and a file, each listed where it is, and the filters. */
  lemma WantedExactly(job: Job, p: Path)
    ensures Wanted(job, p) <==>
      && |p| == 5 && p in job.remote.content
      && (forall i :: 0 <= i < 4 ==> p[..i] in job.remote.folders && p[i] in job.remote.folders[p[..i]])
      && p[..4] in job.remote.files && p[4] in job.remote.files[p[..4]]
      && (forall i :: 0 <= i < 4 && i < |job.target| ==> p[i] == job.target[i])
      && exists pattern :: pattern in job.patterns && job.fits(p[4], pattern)
  {
    if |p| == 5 {
      forall i | 0 <= i < 5
        ensures p[i] in Listing(job.remote, p[..i]) <==>
          if i < 4 then p[..i] in job.remote.folders && p[i] in job.remote.folders[p[..i]]
          else p[..i] in job.remote.files && p[i] in job.remote.files[p[..i]]
      {
        assert |p[..i]| == i;
      }
      assert Matches(job, p[4]) <==> exists pattern :: pattern in job.patterns && job.fits(p[4], pattern);
      hide Listing, Matches;
    }
  }

  /** `q` outlives the clearing of the target folder and stands in the way of `p`. */
  ghost predicate InTheWay(before: Disk, target: Path, q: Path, p: Path) {
    q in before && !(target < q) && (q < p || p < q)
  }

  /** A wanted file is written exactly when nothing that is left stands in its way. */
  lemma WrittenUnlessBlocked(before: Disk, after: Disk, job: Job, p: Path)
    requires Synced(before, after, job) && Wanted(job, p)
    ensures (forall q :: !InTheWay(before, job.target, q, p)) ==> p in after && after[p] == job.remote.content[p]
    ensures (exists q :: InTheWay(before, job.target, q, p)) ==>
      (p in after <==> p in before && !(job.target < p)) && (p in after ==> after[p] == before[p])
  {
    hide Wanted;
    WantedLength(job, p);
    var cleared := Cleared(before, job.target);
    assert At(after, p) == Expected(cleared, job, p);
    if q :| InTheWay(before, job.target, q, p) {
      assert q in cleared;
    }
    if q :| q in cleared && (q < p || p < q) {
      assert InTheWay(before, job.target, q, p);
    }
  }

  /** Only a file standing at the target path or above it keeps the wanted files from being written. */
  ghost predicate Open(disk: Disk, target: Path) {
    forall q :: q in disk ==> !(q <= target)
  }

  lemma WantedBelow(job: Job, p: Path)
    requires Wanted(job, p) && |job.target| <= 4
    ensures job.target < p
  {
  }

  /** For a target of at most four names: below it exactly the wanted files, elsewhere nothing changes. */
  lemma SyncedExactly(before: Disk, after: Disk, job: Job)
    requires Synced(before, after, job) && |job.target| <= 4
    ensures forall p :: !(job.target < p) ==> At(after, p) == At(before, p)
    ensures Open(before, job.target) ==>
      forall p :: job.target < p ==> At(after, p) == if Wanted(job, p) then At(job.remote.content, p) else None
  {
    forall p ensures !(job.target < p) ==> At(after, p) == At(before, p) {
      if Wanted(job, p) {
        WantedBelow(job, p);
      }
    }
    if Open(before, job.target) {
      forall p | job.target < p ensures At(after, p) == if Wanted(job, p) then At(job.remote.content, p) else None {
        NotBlocked(before, job, p);
      }
    }
  }

  lemma NotBlocked(before: Disk, job: Job, p: Path)
    requires Open(before, job.target) && job.target < p
    ensures !Blocked(Cleared(before, job.target), p)
  {
    var cleared := Cleared(before, job.target);
    if q :| q in cleared && (q < p || p < q) {
      assert q in before && !(job.target < q) && !(q <= job.target);
      Prefixes(q, job.target, p);
    }
  }

  /** Two prefixes of one path are comparable, and a prefix of a prefix is a prefix. */
  lemma Prefixes(q: Path, t: Path, p: Path)
    requires t < p && (q < p || p < q)
    ensures q <= t || t < q
  {
    if q < p && |q| <= |t| {
      assert q == p[..|q|] == t[..|q|];
    }
  }

  ghost predicate LeavesRestAlone(job: Job) {
    forall before: Disk, after: Disk :: Synced(before, after, job) ==>
      forall p :: !(job.target < p) ==> At(after, p) == At(before, p)
  }

  /** The rest of the disk is safe exactly when the target has at most four names or nothing is wanted. */
  lemma RestAloneIffShallow(job: Job)
    ensures LeavesRestAlone(job) <==> |job.target| <= 4 || forall p :: !Wanted(job, p)
  {
    if |job.target| <= 4 || forall p :: !Wanted(job, p) {
      forall before: Disk, after: Disk | Synced(before, after, job)
        ensures forall p :: !(job.target < p) ==> At(after, p) == At(before, p)
      {
        if |job.target| <= 4 {
          SyncedExactly(before, after, job);
        }
      }
    } else {
      var p :| Wanted(job, p);
      var after := map q | q in job.remote.content && Wanted(job, q) :: job.remote.content[q];
      assert Cleared(map[], job.target) == map[];
      assert Synced(map[], after, job);
      assert At(after, p) != At(map[], p);
    }
  }

  /** Repeating a call changes nothing. */
  lemma SyncTwice(a: Disk, b: Disk, c: Disk, job: Job)
    requires Synced(a, b, job) && Synced(b, c, job)
    ensures c == b
  {
    hide Wanted;
    var x, y := Cleared(a, job.target), Cleared(b, job.target);
    forall p ensures At(c, p) == At(b, p) {
      if Wanted(job, p) {
        WantedLength(job, p);
        SameObstacles(a, b, job, p);
      }
      assert At(b, p) == Expected(x, job, p);
      assert At(c, p) == Expected(y, job, p);
    }
    assert forall p :: p in c <==> At(c, p).Some?;
  }

  lemma WantedLength(job: Job, p: Path)
    requires Wanted(job, p)
    ensures |p| == 5 && p in job.remote.content
  {
  }

  lemma SameObstacles(a: Disk, b: Disk, job: Job, p: Path)
    requires Synced(a, b, job) && |p| == 5
    ensures Blocked(Cleared(a, job.target), p) <==> Blocked(Cleared(b, job.target), p)
  {
    var x, y := Cleared(a, job.target), Cleared(b, job.target);
    if q :| q in x && (q < p || p < q) {
      assert At(b, q) == Expected(x, job, q);
      assert q in y;
    }
    if q :| q in y && (q < p || p < q) {
      assert At(b, q) == Expected(x, job, q);
      assert q in x;
    }
  }
}
