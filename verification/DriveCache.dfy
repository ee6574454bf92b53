/** How a drive's cache directory is read, and how its local folder is put in front of the bucket. */
module DriveCache {
  import opened Wrappers

  type Path = string

  const MAX_META: nat := 1024 * 1024

  /** What reading one metadata file yields. */
  datatype Content =
    | Unreadable
    | NotAnObject
    | Dirty(isFalse: bool)   // the "Dirty" entry of the object; absent counts as not false

  datatype MetaFile = MetaFile(size: nat, content: Content)

  /** The cache on disk: metadata files by path, None without a vfsMeta directory, and the cached files. */
  datatype Cache = Cache(meta: Option<map<Path, MetaFile>>, files: set<Path>, unsent: set<Path>)

  predicate SaysClean(m: MetaFile) {
    m.size <= MAX_META && m.content == Dirty(true)
  }

  /** What rclone promises: data still to be sent is in a cached file, and its metadata does not say clean. */
  predicate Honest(c: Cache) {
    forall p | p in c.unsent :: p in c.files && (c.meta.Some? ==> p in c.meta.value && !SaysClean(c.meta.value[p]))
  }

  /** Every metadata file is small and says "Dirty": false, or there is neither metadata nor a file. */
  ghost predicate ReadsClean(c: Cache, fails: bool) {
    !fails && match c.meta
      case None => c.files == {}
      case Some(meta) => forall p | p in meta :: SaysClean(meta[p])
  }

  /**
    `cache_is_dirty`; `fails` says that walking the directories raises.  Only a cache whose every metadata
    file says clean, or which has neither metadata nor files, reads clean.
   */
  method CacheIsDirty(c: Cache, fails: bool) returns (dirty: bool)
    ensures !dirty <==> ReadsClean(c, fails)
    ensures !dirty && Honest(c) ==> c.unsent == {}
  {
    if c.meta.None? {
      dirty := fails || c.files != {};
      return;
    }
    if fails { return true; }
    var meta := c.meta.value;
    var rest := meta.Keys;
    while rest != {}
      invariant rest <= meta.Keys
      invariant forall p | p in meta && p !in rest :: SaysClean(meta[p])
    {
      var p :| p in rest;
      rest := rest - {p};
      if meta[p].size > MAX_META { return true; }
      match meta[p].content {
        case Unreadable => return true;
        case NotAnObject => return true;
        case Dirty(isFalse) => if !isFalse { return true; }
      }
    }
    dirty := false;
  }

  // ---- the local folder ------------------------------------------------------------------------------

  /** A remote of the rclone configuration: the bucket prefix, or a combine layer by number. */
  datatype Remote = Source | Folder(index: nat)

  /** A combine layer shows one directory, and in it another remote. */
  datatype Layer = Layer(directory: string, upstream: Remote)

  /** Where a path leads from a remote: what is left of it inside the bucket prefix, if it gets there. */
  function Resolve(layers: seq<Layer>, remote: Remote, path: seq<string>): Option<seq<string>>
    decreases |path|
  {
    match remote
    case Source => Some(path)
    case Folder(i) =>
      if i < |layers| && path != [] && path[0] == layers[i].directory then Resolve(layers, layers[i].upstream, path[1..])
      else None
  }

  /** Every layer leads to an earlier one. */
  predicate Stacked(layers: seq<Layer>) {
    forall i | 0 <= i < |layers| && layers[i].upstream.Folder? :: layers[i].upstream.index < i
  }

  /** One more layer changes nothing for the remotes there were. */
  lemma {:induction false} ResolveBelow(layers: seq<Layer>, l: Layer, remote: Remote, path: seq<string>)
    requires Stacked(layers) && (remote.Folder? ==> remote.index < |layers|)
    ensures Resolve(layers + [l], remote, path) == Resolve(layers, remote, path)
    decreases |path|
  {
    if remote.Folder? && path != [] && path[0] == layers[remote.index].directory {
      ResolveBelow(layers, l, layers[remote.index].upstream, path[1..]);
    }
  }

  /** Exactly the paths that start with these parts get to the source. */
  ghost predicate LeadsThrough(layers: seq<Layer>, remote: Remote, parts: seq<string>) {
    forall path, rest :: Resolve(layers, remote, path) == Some(rest) <==> path == parts + rest
  }

  /** The loop of `remote_environment`: exactly the paths below the local folder lead into the bucket prefix. */
  method RemoteEnvironment(parts: seq<string>) returns (layers: seq<Layer>, remote: Remote)
    ensures forall path, rest :: Resolve(layers, remote, path) == Some(rest) <==> path == parts + rest
  {
    layers, remote := [], Source;
    NoLayer(parts[|parts|..]);
    for index := 0 to |parts|
      invariant |layers| == index && Stacked(layers)
      invariant remote == if index == 0 then Source else Folder(index - 1)
      invariant LeadsThrough(layers, remote, parts[|parts| - index..])
    {
      var part := parts[|parts| - 1 - index];
      assert parts[|parts| - index - 1..] == [part] + parts[|parts| - index..];
      OneMoreLayer(layers, remote, part, parts[|parts| - index..]);
      layers := layers + [Layer(part, remote)];
      remote := Folder(index);
    }
    assert parts[0..] == parts;
  }

  lemma NoLayer(parts: seq<string>)
    requires parts == []
    ensures LeadsThrough([], Source, parts)
  {
    forall path, rest ensures Resolve([], Source, path) == Some(rest) <==> path == parts + rest {
      assert parts + rest == rest;
    }
  }

  lemma OneMoreLayer(layers: seq<Layer>, remote: Remote, part: string, parts: seq<string>)
    requires Stacked(layers) && (remote.Folder? ==> remote.index < |layers|)
    requires LeadsThrough(layers, remote, parts)
    ensures LeadsThrough(layers + [Layer(part, remote)], Folder(|layers|), [part] + parts)
  {
    var more := layers + [Layer(part, remote)];
    forall path, rest ensures Resolve(more, Folder(|layers|), path) == Some(rest) <==> path == [part] + parts + rest {
      if path != [] && path[0] == part {
        ResolveBelow(layers, Layer(part, remote), remote, path[1..]);
        assert path == [part] + path[1..];
        assert [part] + parts + rest == [part] + (parts + rest);
        assert ([part] + (parts + rest))[1..] == parts + rest;
      } else {
        assert ([part] + parts + rest)[0] == part;
      }
    }
  }
}
