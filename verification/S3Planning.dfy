/** `prepare_download` and `prepare_upload`: which files and objects a batch is about, each once and each somewhere else. */
module S3Planning {
  import opened Wrappers
  import opened Texts
  import opened S3Transfers

  datatype Candidate = Candidate(key: string, isPrefix: bool, size: nat)

  datatype PlanError =
    | KeyEscapes          // s3.download.key.invalid
    | SameDestination     // s3.download.destination.duplicate
    | NotAFile            // s3.download.destination.exists
    | EmptySelection      // s3.download.selection.empty, s3.upload.source.required
    | TargetInvalid       // s3.upload.target.invalid
    | SameTarget          // s3.upload.target.duplicate
    | Unreadable          // s3.upload.source.unreadable
    | LookupRaised

  predicate IsFolderKey(key: string) {
    key != "" && key[|key| - 1] == '/'
  }

  /** A candidate that names an object to download. */
  predicate Downloadable(c: Candidate) {
    !c.isPrefix && Stripped(c.key) != "" && !IsFolderKey(Stripped(c.key))
  }

  /** No two items share a key, and no two share a destination. */
  predicate EachElsewhere(items: seq<Item>) {
    && (forall i, j | 0 <= i < j < |items| :: items[i].key != items[j].key)
    && (forall i, j | 0 <= i < j < |items| :: items[i].path != items[j].path)
  }

  function KeysOf(items: seq<Item>): set<Key> {
    set x | x in items :: x.key
  }

  function PathsOf(items: seq<Item>): set<Path> {
    set x | x in items :: x.path
  }

  lemma NothingPlanned()
    ensures EachElsewhere([])
  {
  }

  lemma OneMoreItem(items: seq<Item>, x: Item)
    requires EachElsewhere(items) && x.key !in KeysOf(items) && x.path !in PathsOf(items)
    ensures EachElsewhere(items + [x])
    ensures KeysOf(items + [x]) == KeysOf(items) + {x.key} && PathsOf(items + [x]) == PathsOf(items) + {x.path}
  {
    forall i | 0 <= i < |items| ensures items[i].key != x.key && items[i].path != x.path {
      assert items[i] in items;
      assert items[i].key in KeysOf(items) && items[i].path in PathsOf(items);
    }
    forall k | k in KeysOf(items) + {x.key} ensures k in KeysOf(items + [x]) { assert x in items + [x]; }
    forall p | p in PathsOf(items) + {x.path} ensures p in PathsOf(items + [x]) { assert x in items + [x]; }
  }

  /** The first candidate for its key: later ones for the same key are passed over. */
  predicate Leads(expanded: seq<Candidate>, i: nat)
    requires i < |expanded|
  {
    Downloadable(expanded[i]) && forall j | 0 <= j < i && Downloadable(expanded[j]) :: Stripped(expanded[j].key) != Stripped(expanded[i].key)
  }

  /** An earlier candidate already goes to this place. */
  ghost predicate Taken(expanded: seq<Candidate>, target: Candidate -> Option<Path>, i: nat, path: Path)
    requires i <= |expanded|
  {
    exists j | 0 <= j < i :: Leads(expanded, j) && target(expanded[j]) == Some(path)
  }

  /** What is wrong with candidate i, if anything. */
  ghost function Offence(expanded: seq<Candidate>, target: Candidate -> Option<Path>, folders: set<Path>, i: nat): Option<PlanError>
    requires i < |expanded|
  {
    var path := target(expanded[i]);
    if !Leads(expanded, i) then None
    else if path.None? then Some(KeyEscapes)
    else if Taken(expanded, target, i, path.value) then Some(SameDestination)
    else if path.value in folders then Some(NotAFile) else None
  }

  ghost predicate NoOffence(expanded: seq<Candidate>, target: Candidate -> Option<Path>, folders: set<Path>, n: nat)
    requires n <= |expanded|
  {
    forall i | 0 <= i < n :: Offence(expanded, target, folders, i).None?
  }

  lemma SeenBefore(expanded: seq<Candidate>, i: nat)
    requires i < |expanded| && Downloadable(expanded[i])
    ensures Leads(expanded, i) <==> Stripped(expanded[i].key) !in DownloadKeys(expanded[..i])
  {
    if Stripped(expanded[i].key) in DownloadKeys(expanded[..i]) {
      var c :| c in expanded[..i] && Downloadable(c) && Stripped(c.key) == Stripped(expanded[i].key);
      var j :| 0 <= j < i && expanded[..i][j] == c;
    } else {
      forall j | 0 <= j < i && Downloadable(expanded[j]) ensures Stripped(expanded[j].key) != Stripped(expanded[i].key) {
        assert expanded[..i][j] == expanded[j];
      }
    }
  }

  /**
    The loop of `prepare_download` over the expanded selection.  `target` resolves a key below the download
    folder, or finds that it leaves the folder.  There is a plan exactly if something can be downloaded and no
    candidate offends; otherwise the first offence is raised.
   */
  method PlanDownload(expanded: seq<Candidate>, target: Candidate -> Option<Path>, files: set<Path>, folders: set<Path>)
    returns (r: Result<seq<Item>, PlanError>)
    ensures r.Ok? ==> r.value != [] && EachElsewhere(r.value)
    ensures r.Ok? ==> KeysOf(r.value) == set c | c in expanded && Downloadable(c) :: Stripped(c.key)
    ensures r.Ok? ==> forall x | x in r.value ::
      (x.existed <==> x.path in files) && x.path !in folders && FromCandidate(x, expanded, target)
    ensures r == Err(EmptySelection) <==> forall c | c in expanded :: !Downloadable(c)
    ensures r.Ok? || r == Err(EmptySelection) ==> NoOffence(expanded, target, folders, |expanded|)
    ensures r.Err? && r != Err(EmptySelection) ==>
      exists i | 0 <= i < |expanded| :: NoOffence(expanded, target, folders, i) && Offence(expanded, target, folders, i) == Some(r.error)
  {
    hide Leads, Downloadable, Stripped, EachElsewhere, FromCandidate;
    NothingPlanned();
    var items: seq<Item> := [];
    var keys: set<Key> := {};
    var destinations: set<Path> := {};
    for i := 0 to |expanded|
      invariant EachElsewhere(items) && keys == KeysOf(items) && destinations == PathsOf(items)
      invariant keys == DownloadKeys(expanded[..i])
      invariant forall x | x in items :: (x.existed <==> x.path in files) && x.path !in folders && FromCandidate(x, expanded, target)
      invariant items != [] ==> exists c | c in expanded :: Downloadable(c)
      invariant NoOffence(expanded, target, folders, i)
      invariant forall p :: p in destinations <==> Taken(expanded, target, i, p)
    {
      var c := expanded[i];
      assert expanded[..i + 1] == expanded[..i] + [c];
      DownloadKeysSnoc(expanded[..i], c);
      var key := Stripped(c.key);
      LeadsOnlyIfDownloadable(expanded, i);
      DownloadableIs(c);
      if Downloadable(c) { SeenBefore(expanded, i); }
      if c.isPrefix || key == "" || key[|key| - 1] == '/' || key in keys { continue; }
      assert c in expanded && Leads(expanded, i);
      var path := target(c);
      if path.None? { return Err(KeyEscapes); }
      if path.value in destinations { return Err(SameDestination); }
      if path.value in folders { return Err(NotAFile); }
      var item := Item(key, path.value, c.size, path.value in files);
      OneMoreItem(items, item);
      IsFromCandidate(item, c, expanded, target);
      keys, destinations, items := keys + {key}, destinations + {path.value}, items + [item];
    }
    assert expanded[..|expanded|] == expanded;
    if items == [] {
      NoKeys(expanded);
      return Err(EmptySelection);
    }
    assert items[0] in items;
    r := Ok(items);
  }

  lemma DownloadableIs(c: Candidate)
    ensures Downloadable(c) <==> !c.isPrefix && Stripped(c.key) != "" && Stripped(c.key)[|Stripped(c.key)| - 1] != '/'
  {
  }

  lemma LeadsOnlyIfDownloadable(expanded: seq<Candidate>, i: nat)
    requires i < |expanded|
    ensures Leads(expanded, i) ==> Downloadable(expanded[i])
  {
  }

  lemma IsFromCandidate(x: Item, c: Candidate, expanded: seq<Candidate>, target: Candidate -> Option<Path>)
    requires c in expanded && Downloadable(c) && x.key == Stripped(c.key) && x.size == c.size && Some(x.path) == target(c)
    ensures FromCandidate(x, expanded, target)
  {
  }

  predicate FromCandidate(x: Item, expanded: seq<Candidate>, target: Candidate -> Option<Path>) {
    exists c | c in expanded :: Downloadable(c) && x.key == Stripped(c.key) && x.size == c.size && Some(x.path) == target(c)
  }

  function DownloadKeys(expanded: seq<Candidate>): set<Key> {
    set c | c in expanded && Downloadable(c) :: Stripped(c.key)
  }

  lemma NoKeys(expanded: seq<Candidate>)
    requires DownloadKeys(expanded) == {}
    ensures forall c | c in expanded :: !Downloadable(c)
  {
    forall c | c in expanded && Downloadable(c) ensures Stripped(c.key) in DownloadKeys(expanded) {
    }
  }

  lemma DownloadKeysSnoc(expanded: seq<Candidate>, c: Candidate)
    ensures DownloadKeys(expanded + [c]) == DownloadKeys(expanded) + if Downloadable(c) then {Stripped(c.key)} else {}
  {
    assert c in expanded + [c];
    forall k | k in DownloadKeys(expanded) ensures k in DownloadKeys(expanded + [c]) {
      var d :| d in expanded && Downloadable(d) && Stripped(d.key) == k;
      assert d in expanded + [c];
    }
  }

  /** A local file and the key it would get; `key` is None where the key would leave the prefix. */
  datatype Source = Source(path: Path, key: Option<Key>, size: Option<nat>)

  /** A file not selected before. */
  predicate IsNew(sources: seq<Source>, i: nat)
    requires i < |sources|
  {
    forall j | 0 <= j < i :: sources[j].path != sources[i].path
  }

  /** An earlier file already gets this key. */
  ghost predicate KeyTaken(sources: seq<Source>, i: nat, key: Key)
    requires i <= |sources|
  {
    exists j | 0 <= j < i :: IsNew(sources, j) && sources[j].key == Some(key)
  }

  /** What is wrong with file i, if anything; `unanswered` are the keys whose lookup raises. */
  ghost function Refusal(sources: seq<Source>, unanswered: set<Key>, i: nat): Option<PlanError>
    requires i < |sources|
  {
    var f := sources[i];
    if !IsNew(sources, i) then None
    else if f.key.None? then Some(TargetInvalid)
    else if KeyTaken(sources, i, f.key.value) then Some(SameTarget)
    else if f.size.None? then Some(Unreadable)
    else if f.key.value in unanswered then Some(LookupRaised) else None
  }

  ghost predicate NoRefusal(sources: seq<Source>, unanswered: set<Key>, n: nat)
    requires n <= |sources|
  {
    forall i | 0 <= i < n :: Refusal(sources, unanswered, i).None?
  }

  lemma SelectedBefore(sources: seq<Source>, i: nat)
    requires i < |sources|
    ensures IsNew(sources, i) <==> sources[i].path !in SourcePaths(sources[..i])
  {
    if sources[i].path in SourcePaths(sources[..i]) {
      var f :| f in sources[..i] && f.path == sources[i].path;
      var j :| 0 <= j < i && sources[..i][j] == f;
    } else {
      forall j | 0 <= j < i ensures sources[j].path != sources[i].path { assert sources[..i][j] == sources[j]; }
    }
  }

  /**
    The inner loop of `prepare_upload`: a file selected twice is planned once, two files never share a key.  There
    is a plan exactly if there is a file and none is refused; otherwise the first refusal is raised.
   */
  method PlanUpload(sources: seq<Source>, remote: set<Key>, unanswered: set<Key>) returns (r: Result<seq<Item>, PlanError>)
    ensures r.Ok? ==> r.value != [] && EachElsewhere(r.value)
    ensures r.Ok? ==> PathsOf(r.value) == SourcePaths(sources)
    ensures r.Ok? ==> forall x | x in r.value :: (x.existed <==> x.key in remote) && FromSource(x, sources)
    ensures r == Err(EmptySelection) <==> sources == []
    ensures r.Ok? ==> NoRefusal(sources, unanswered, |sources|)
    ensures r.Err? && r != Err(EmptySelection) ==>
      exists i | 0 <= i < |sources| :: NoRefusal(sources, unanswered, i) && Refusal(sources, unanswered, i) == Some(r.error)
  {
    hide IsNew, EachElsewhere;
    NothingPlanned();
    var items: seq<Item> := [];
    var keys: set<Key> := {};
    var paths: set<Path> := {};
    for i := 0 to |sources|
      invariant EachElsewhere(items) && keys == KeysOf(items) && paths == PathsOf(items)
      invariant paths == SourcePaths(sources[..i])
      invariant forall x | x in items :: (x.existed <==> x.key in remote) && FromSource(x, sources)
      invariant i > 0 <==> items != []
      invariant NoRefusal(sources, unanswered, i)
      invariant forall k :: k in keys <==> KeyTaken(sources, i, k)
    {
      var f := sources[i];
      SelectedBefore(sources, i);
      assert sources[..i + 1] == sources[..i] + [f];
      SourcePathsSnoc(sources[..i], f);
      if f.path in paths { continue; }
      if f.key.None? { return Err(TargetInvalid); }
      if f.key.value in keys { return Err(SameTarget); }
      if f.size.None? { return Err(Unreadable); }
      if f.key.value in unanswered { return Err(LookupRaised); }
      var item := Item(f.key.value, f.path, f.size.value, f.key.value in remote);
      assert f in sources && Plans(f, item);
      OneMoreItem(items, item);
      paths, keys, items := paths + {f.path}, keys + {f.key.value}, items + [item];
    }
    assert sources[..|sources|] == sources;
    if items == [] {
      assert |sources| == 0;
      return Err(EmptySelection);
    }
    r := Ok(items);
  }

  function SourcePaths(sources: seq<Source>): set<Path> {
    set f | f in sources :: f.path
  }

  lemma SourcePathsSnoc(sources: seq<Source>, f: Source)
    ensures SourcePaths(sources + [f]) == SourcePaths(sources) + {f.path}
  {
    assert f in sources + [f];
    forall p | p in SourcePaths(sources) ensures p in SourcePaths(sources + [f]) {
      var g :| g in sources && g.path == p;
      assert g in sources + [f];
    }
  }

  predicate Plans(f: Source, x: Item) {
    f.path == x.path && f.key == Some(x.key) && f.size == Some(x.size)
  }

  predicate FromSource(x: Item, sources: seq<Source>) {
    exists f | f in sources :: Plans(f, x)
  }

  datatype PolicyError = Conflicting | Required

  /** `_resolve_upload_policy` */
  function ResolvePolicy(overwrite: Option<bool>, policy: Option<Policy>): (r: Result<Policy, PolicyError>)
    ensures r.Ok? ==> (policy.Some? ==> r.value == policy.value) && (overwrite.Some? ==> (r.value.Overwrite? <==> overwrite.value))
    ensures r == Err(Required) <==> overwrite.None? && policy.None?
    ensures r == Err(Conflicting) <==> overwrite.Some? && policy.Some? && (overwrite.value <==> policy.value.SkipExisting?)
  {
    if policy.Some? && overwrite.Some? && policy.value != (if overwrite.value then Overwrite else SkipExisting) then Err(Conflicting)
    else if policy.Some? then Ok(policy.value)
    else if overwrite.Some? then Ok(if overwrite.value then Overwrite else SkipExisting)
    else Err(Required)
  }
}
