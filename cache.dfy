/** The process-wide caches of cache.py (`node_cache`, `wikidata_query_cache`, `wdq_cache_path`),
    the choice of the file the query cache is kept in, and loading and saving that file. */
module Cache {

  import opened Json
  import opened Text
  import opened Nodes

  /** The `create_new_file` argument: `True`, the string `"force"`, or any other value
      (`False` among them), which the code only ever compares against those two. */
  datatype CreateMode = CreateTrue | CreateForce | CreateOther

  /** The keyword arguments of `get_cachepath`, as `load_wdq_cache` and `save_wdq_cache` pass them on. */
  datatype PathRequest = PathRequest(cachepath: Option<string>, suffix2: string, mode: CreateMode)

  /** `get_cachepath()` with every argument left at its default. */
  const Defaults := PathRequest(None, "", CreateTrue)

  /** A file of the temp directory with its `os.path.getctime`. */
  datatype TempFile = TempFile(path: string, ctime: int)

  /** What the file system tells `get_cachepath`: the temp directory's files, and the name
      `tempfile.mktemp` would make (the temp directory and a random stem) before the suffix. */
  datatype TempDir = TempDir(listing: seq<TempFile>, tempName: string)

  /** The path decision; `ConfigError` is the `ValueError` the code provides for. */
  datatype Resolution = Resolved(path: Option<string>) | ConfigError(existing: string)

  /** A file in the file system: a pickled query mapping, or bytes `pickle.load` rejects. */
  datatype CacheFile = Pickled(entries: map<string, Json>) | Unreadable

  /** `PathIsNone`: the `TypeError` of opening `None`; `CorruptFile`: the unpickling error. */
  datatype FileError = PathIsNone | CorruptFile

  const CacheStem := "_semantictools_wdq_cache"

  /** The file-name ending every cache file found or made for `suffix2` carries. */
  function CacheSuffix(suffix2: string): (r: string)
    ensures EndsWith(r, ".pcl") && Contains(r, CacheStem)
  {
    var r := CacheStem + suffix2 + ".pcl";
    assert OccursAt(r, CacheStem, 0);
    r
  }

  /** Python truthiness of an optional path: `None` and `""` are false. */
  predicate PathGiven(p: Option<string>) {
    p.Some? && p.value != ""
  }

  /** `glob.glob(os.path.join(dirpath, "*" + suffix))` over the temp directory's listing. */
  function Glob(listing: seq<TempFile>, suffix: string): (r: seq<TempFile>)
    ensures forall f :: f in r <==> f in listing && EndsWith(f.path, suffix)
  {
    if listing == [] then []
    else if EndsWith(listing[0].path, suffix) then [listing[0]] + Glob(listing[1..], suffix)
    else Glob(listing[1..], suffix)
  }

  /** `tempfile.mktemp(suffix=suffix)`, given the name it would have picked. */
  function MkTemp(tempName: string, suffix: string): (r: string)
    ensures EndsWith(r, suffix)
  {
    tempName + suffix
  }

  /** `files[k]` is what `max(files, key=os.path.getctime)` picks: a greatest creation time,
      and the first file that has it. */
  predicate IsLatest(files: seq<TempFile>, k: nat) {
    && k < |files|
    && (forall j :: 0 <= j < |files| ==> files[j].ctime <= files[k].ctime)
    && (forall j :: 0 <= j < k ==> files[j].ctime < files[k].ctime)
  }

  function LatestIndex(files: seq<TempFile>): (k: nat)
    requires files != []
    ensures IsLatest(files, k)
    decreases |files|
  {
    if |files| == 1 then 0
    else
      var k := LatestIndex(files[..|files| - 1]);
      if files[|files| - 1].ctime > files[k].ctime then |files| - 1 else k
  }

  /** At most one file is the pick of `max`. */
  lemma LatestIsUnique(files: seq<TempFile>, k: nat, k': nat)
    requires IsLatest(files, k) && IsLatest(files, k')
    ensures k == k'
  {
    assert files[k].ctime == files[k'].ctime;
  }

  /** The decision of `get_cachepath`, in the order the code takes its branches, given the
      current `wdq_cache_path`. The second `create_new_file is True` test repeats the first, so
      its `ValueError` can never be raised. */
  function ResolveCachePath(req: PathRequest, current: Option<string>, tmp: TempDir): (r: Resolution)
    ensures r.Resolved?
    ensures PathGiven(req.cachepath) && req.mode != CreateForce ==> r.path == req.cachepath
    ensures req.mode == CreateForce ==> r.path == Some(MkTemp(tmp.tempName, CacheSuffix(req.suffix2)))
    ensures var files := Glob(tmp.listing, CacheSuffix(req.suffix2));
      !PathGiven(req.cachepath) && req.mode != CreateForce && files != [] ==>
        exists k: nat :: IsLatest(files, k) && r.path == Some(files[k].path)
    ensures var files := Glob(tmp.listing, CacheSuffix(req.suffix2));
      !PathGiven(req.cachepath) && files == [] && req.mode == CreateTrue ==>
        r.path == (if PathGiven(current) then current else Some(MkTemp(tmp.tempName, CacheSuffix(req.suffix2))))
    ensures var files := Glob(tmp.listing, CacheSuffix(req.suffix2));
      !PathGiven(req.cachepath) && files == [] && req.mode == CreateOther ==> r.path == None
  {
    if PathGiven(req.cachepath) && req.mode != CreateForce then Resolved(req.cachepath)
    else
      var suffix := CacheSuffix(req.suffix2);
      var files := Glob(tmp.listing, suffix);
      if files != [] && req.mode != CreateForce then Resolved(Some(files[LatestIndex(files)].path))
      else if req.mode == CreateTrue then
        Resolved(if PathGiven(current) then current else Some(MkTemp(tmp.tempName, suffix)))
      else if req.mode == CreateForce then Resolved(Some(MkTemp(tmp.tempName, suffix)))
      else if req.mode == CreateTrue then
        match current
        case Some(existing) => ConfigError(existing)
        case None => Resolved(Some(MkTemp(tmp.tempName, suffix)))
      else Resolved(None)
  }

  /** A resolved path is the explicit one, the remembered one, or a file name carrying the
      cache suffix; and it is never the empty string. */
  lemma ResolvedPathOrigin(req: PathRequest, current: Option<string>, tmp: TempDir)
    ensures var p := ResolveCachePath(req, current, tmp).path;
      p.Some? ==> p.value != "" && (p == req.cachepath || p == current || EndsWith(p.value, CacheSuffix(req.suffix2)))
  {
    var files := Glob(tmp.listing, CacheSuffix(req.suffix2));
    if !PathGiven(req.cachepath) && req.mode != CreateForce && files != [] {
      var k := LatestIndex(files);
      assert files[k] in files;
    }
  }

  /** Asking again with the same arguments, once the first answer has become the remembered
      path, gives the same answer, unless a new file is forced. */
  lemma ResolutionIsStable(req: PathRequest, current: Option<string>, tmp: TempDir, tempName: string)
    requires req.mode != CreateForce
    ensures var p := ResolveCachePath(req, current, tmp).path;
      ResolveCachePath(req, p, tmp.(tempName := tempName)).path == p
  {
    var suffix := CacheSuffix(req.suffix2);
    var files := Glob(tmp.listing, suffix);
    var p := ResolveCachePath(req, current, tmp).path;
    var tmp' := tmp.(tempName := tempName);
    if PathGiven(req.cachepath) {
      assert ResolveCachePath(req, p, tmp').path == req.cachepath;
    } else if files != [] {
      assert Glob(tmp'.listing, suffix) == files;
      assert p == Some(files[LatestIndex(files)].path);
    } else if req.mode == CreateTrue {
      assert PathGiven(p) by {
        if !PathGiven(current) {
          assert EndsWith(p.value, suffix) && EndsWith(suffix, ".pcl");
        }
      }
    }
  }

  /** With `"force"` the explicit path, the existing files and the remembered path are ignored. */
  lemma ForceIgnoresContext(req: PathRequest, req': PathRequest, current: Option<string>,
                            current': Option<string>, tmp: TempDir, tmp': TempDir)
    requires req.mode == CreateForce && req' == req.(cachepath := req'.cachepath)
    requires tmp'.tempName == tmp.tempName
    ensures ResolveCachePath(req, current, tmp) == ResolveCachePath(req', current', tmp')
  {
  }

  /** What `load_wdq_cache` gets from the file at `path`: `{}` when there is no such file. */
  function ReadCacheFile(files: map<string, CacheFile>, path: Option<string>): (r: Result<map<string, Json>, FileError>)
    ensures r.Err? <==> path.None? || (path.value in files && files[path.value].Unreadable?)
    ensures path.Some? && path.value !in files ==> r == Ok(map[])
  {
    match path
    case None => Err(PathIsNone)
    case Some(p) =>
      if p !in files then Ok(map[])
      else match files[p]
        case Pickled(m) => Ok(m)
        case Unreadable => Err(CorruptFile)
  }

  /** `pickle.dump(mapping, open(path, "wb"))`: the file at `path` is replaced. */
  function WriteCacheFile(files: map<string, CacheFile>, path: Option<string>, m: map<string, Json>)
    : (r: Result<map<string, CacheFile>, FileError>)
    ensures r.Ok? <==> path.Some?
    ensures r.Ok? ==> path.value in r.value && r.value[path.value] == Pickled(m)
    ensures r.Ok? ==> forall q :: q != path.value ==> (q in r.value <==> q in files)
  {
    match path
    case None => Err(PathIsNone)
    case Some(p) => Ok(files[p := Pickled(m)])
  }

  /** A saved mapping is read back unchanged from the same path, and the other files are left alone. */
  lemma SaveLoadRoundTrip(files: map<string, CacheFile>, p: string, m: map<string, Json>, other: string)
    requires other != p
    ensures WriteCacheFile(files, Some(p), m).Ok?
    ensures ReadCacheFile(WriteCacheFile(files, Some(p), m).value, Some(p)) == Ok(m)
    ensures ReadCacheFile(WriteCacheFile(files, Some(p), m).value, Some(other)) == ReadCacheFile(files, Some(other))
  {
  }

  /** The file system, as far as the cache files go. */
  class FileSystem {
    var files: map<string, CacheFile>

    constructor (files: map<string, CacheFile>)
      ensures this.files == files
    {
      this.files := files;
    }
  }

  /** The three module-level globals of cache.py. */
  class Caches {
    var nodeCache: map<string, Node>
    var queryCache: map<string, Json>
    var wdqCachePath: Option<string>

    /** Every node is registered under its own id (`Node.__init__` is the only writer). */
    ghost predicate Valid()
      reads this
    {
      forall id :: id in nodeCache ==> nodeCache[id].id == id
    }

    /** The state at import time: both mappings empty, no cache path. */
    constructor ()
      ensures Valid()
      ensures nodeCache == map[] && queryCache == map[] && wdqCachePath == None
    {
      nodeCache := map[];
      queryCache := map[];
      wdqCachePath := None;
    }

    /** `get_cachepath`: the decision, with the answer remembered as `wdq_cache_path`. */
    method GetCachePath(req: PathRequest, tmp: TempDir) returns (p: Option<string>)
      modifies this`wdqCachePath
      ensures p == ResolveCachePath(req, old(wdqCachePath), tmp).path
      ensures wdqCachePath == p
    {
      var r := ResolveCachePath(req, wdqCachePath, tmp);
      wdqCachePath := r.path;
      return r.path;
    }

    /** `load_wdq_cache`: the file's mapping is returned and merged into the query cache, its
        entries winning; a missing file gives `{}` and changes nothing. */
    method Load(fs: FileSystem, req: PathRequest, tmp: TempDir) returns (r: Result<map<string, Json>, FileError>)
      modifies this`wdqCachePath, this`queryCache
      ensures wdqCachePath == ResolveCachePath(req, old(wdqCachePath), tmp).path
      ensures r == ReadCacheFile(fs.files, wdqCachePath)
      ensures r.Ok? ==> queryCache == old(queryCache) + r.value
      ensures r.Err? || r == Ok(map[]) ==> queryCache == old(queryCache)
    {
      var path := GetCachePath(req, tmp);
      if path.None? {
        return Err(PathIsNone);
      }
      if path.value !in fs.files {
        return Ok(map[]);
      }
      match fs.files[path.value]
      case Unreadable =>
        return Err(CorruptFile);
      case Pickled(m) =>
        queryCache := queryCache + m;
        return Ok(m);
    }

    /** `save_wdq_cache`: the whole query cache replaces the file at the resolved path. */
    method Save(fs: FileSystem, req: PathRequest, tmp: TempDir) returns (r: Result<(), FileError>)
      modifies this`wdqCachePath, fs
      ensures wdqCachePath == ResolveCachePath(req, old(wdqCachePath), tmp).path
      ensures var w := WriteCacheFile(old(fs.files), wdqCachePath, queryCache);
        (w.Ok? ==> r == Ok(()) && fs.files == w.value) && (w.Err? ==> r == Err(w.error) && fs.files == old(fs.files))
      ensures r.Ok? ==> ReadCacheFile(fs.files, wdqCachePath) == Ok(queryCache)
    {
      var path := GetCachePath(req, tmp);
      if path.None? {
        return Err(PathIsNone);
      }
      fs.files := fs.files[path.value := Pickled(queryCache)];
      return Ok(());
    }
  }
}
