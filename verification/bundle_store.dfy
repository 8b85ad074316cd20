/**
 * Opening bundles: `CommonUnity3d(folder, filename)` and its process-wide handle cache,
 * keyed by the resolved path `folder/Data/Win/filename`.
 */
module BundleStore {
  import opened Wrappers
  import opened Outcomes
  import opened Unity

  /**
   * The file system as the extractor sees it: the decoded contents of every bundle file that
   * loads, by canonical path, and `Path.resolve` as an uninterpreted canonicalisation.
   */
  datatype World = World(disk: map<Path, Env>, canon: Path -> Path)

  /** The receiver of the `CommonUnity3d` methods: the folder and file name it was built from. */
  datatype Bundle = Bundle(folder: Path, filename: string)

  /** The bundle's path before resolution: the folder, then `Data/Win`, then the file name. */
  function BundlePath(folder: Path, filename: string): Path {
    Join(Join(folder, "Data/Win"), filename)
  }

  /** The cache key: the resolved bundle path. */
  function Resolved(w: World, b: Bundle): Path {
    w.canon(BundlePath(b.folder, b.filename))
  }

  /** Loading the bundle at its resolved path, the lazily loaded `env`; a missing or corrupt file raises. */
  function LoadEnv(w: World, b: Bundle): (r: Result<Env, Failure>)
    ensures r.Ok? <==> Resolved(w, b) in w.disk
    ensures r.Ok? ==> r.value == w.disk[Resolved(w, b)]
    ensures r.Err? ==> r.error == LoadFailed(Resolved(w, b))
  {
    var path := Resolved(w, b);
    if path in w.disk then Ok(w.disk[path]) else Err(LoadFailed(path))
  }

  /** The identity of one `CommonUnity3d` instance. */
  datatype Handle = Handle(id: nat)

  /** `CommonUnity3d._instances` together with the next unused identity. */
  datatype Cache = Cache(handles: map<Path, Handle>, next: nat)

  function EmptyCache(): Cache {
    Cache(map[], 0)
  }

  /** Every cached identity is below `next`, and no two paths share a handle. */
  ghost predicate Valid(c: Cache) {
    && (forall p :: p in c.handles ==> c.handles[p].id < c.next)
    && (forall p, q :: p in c.handles && q in c.handles && p != q ==> c.handles[p] != c.handles[q])
  }

  /**
   * `CommonUnity3d.__new__`: returns the cached instance for the resolved path, creating and
   * caching a fresh one on a miss. A hit changes nothing; a miss adds exactly one key.
   */
  function Open(c: Cache, w: World, b: Bundle): (res: (Cache, Handle))
    requires Valid(c)
    ensures Valid(res.0)
    ensures Resolved(w, b) in res.0.handles && res.0.handles[Resolved(w, b)] == res.1
    ensures Resolved(w, b) in c.handles ==> res.0 == c
    ensures res.0.handles.Keys == c.handles.Keys + {Resolved(w, b)}
    ensures forall p :: p in c.handles ==> res.0.handles[p] == c.handles[p]
    ensures Resolved(w, b) !in c.handles ==> forall p :: p in c.handles ==> c.handles[p] != res.1
  {
    var path := Resolved(w, b);
    if path in c.handles then (c, c.handles[path])
    else (Cache(c.handles[path := Handle(c.next)], c.next + 1), Handle(c.next))
  }

  /** Constructing twice with the same resolved path returns the identical handle and leaves the cache alone. */
  lemma OpenTwiceSameHandle(c: Cache, w: World, b1: Bundle, b2: Bundle)
    requires Valid(c)
    requires Resolved(w, b1) == Resolved(w, b2)
    ensures var (c1, h1) := Open(c, w, b1);
      Open(c1, w, b2) == (c1, h1)
  {
  }

  /** Bundles whose resolved paths differ get distinct handles, in whichever order they are opened. */
  lemma {:induction false} OpenDistinctPaths(c: Cache, w: World, b1: Bundle, b2: Bundle)
    requires Valid(c)
    requires Resolved(w, b1) != Resolved(w, b2)
    ensures var (c1, h1) := Open(c, w, b1);
      var (c2, h2) := Open(c1, w, b2);
      h1 != h2 && c2.handles[Resolved(w, b1)] == h1
  {
    var (c1, h1) := Open(c, w, b1);
    var (c2, h2) := Open(c1, w, b2);
    assert c1.handles[Resolved(w, b1)] == h1;
    assert c2.handles[Resolved(w, b1)] == h1;
    assert c2.handles[Resolved(w, b2)] == h2;
  }
}
