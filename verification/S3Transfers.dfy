/** Planning and running batch transfers: what is transferred, what is skipped, and what the progress says meanwhile. */
module S3Transfers {
  import opened Wrappers
  import opened Texts

  type Key = string
  type Path = string

  datatype Policy = Overwrite | SkipExisting

  datatype Item = Item(key: Key, path: Path, size: nat, existed: bool)

  datatype TransferError =
    | OperationCancelled
    | DestinationAppeared     // s3.download.destination.exists
    | Unavailable             // the folder could not be created
    | LookupFailed
    | TransferFailed

  // ---- progress ----------------------------------------------------------------------------------

  datatype Report = Report(completed: int, total: int)

  function Sum(deltas: seq<int>): int {
    if deltas == [] then 0 else Sum(deltas[..|deltas| - 1]) + deltas[|deltas| - 1]
  }

  /**
    A callback adds its bytes to the count and takes the sum; some turns later it tells the observer that sum.
    Callbacks of several threads may overtake each other in between.
   */
  datatype Turn =
    | Add(delta: int)
    | Tell(k: nat)      // what callback number k of this object took

  function Deltas(turns: seq<Turn>): seq<int> {
    if turns == [] then []
    else
      var last := turns[|turns| - 1];
      Deltas(turns[..|turns| - 1]) + if last.Add? then [last.delta] else []
  }

  /** The callbacks in the order in which they told the observer; `from` of them came before. */
  function Told(turns: seq<Turn>, from: nat): seq<nat> {
    if turns == [] then []
    else
      var last := turns[|turns| - 1];
      Told(turns[..|turns| - 1], from) + if last.Tell? then [from + last.k] else []
  }

  /** No callback tells what it has not taken yet. */
  predicate Playable(turns: seq<Turn>) {
    forall i | 0 <= i < |turns| && turns[i].Tell? :: turns[i].k < |Deltas(turns[..i])|
  }

  type Turns = turns: seq<Turn> | Playable(turns)

  lemma {:induction false} OneMoreTurn(turns: seq<Turn>, from: nat, i: nat)
    requires i < |turns|
    ensures turns[i].Add? ==> Deltas(turns[..i + 1]) == Deltas(turns[..i]) + [turns[i].delta] && Told(turns[..i + 1], from) == Told(turns[..i], from)
    ensures turns[i].Tell? ==> Deltas(turns[..i + 1]) == Deltas(turns[..i]) && Told(turns[..i + 1], from) == Told(turns[..i], from) + [from + turns[i].k]
  {
    assert turns[..i + 1][..i] == turns[..i];
    assert Deltas(turns[..i]) + [] == Deltas(turns[..i]) && Told(turns[..i], from) + [] == Told(turns[..i], from);
  }

  lemma {:induction false} OneMorePlayed(turns: seq<Turn>, i: nat, deltas: seq<int>, order: seq<nat>, allDeltas: seq<int>, allOrder: seq<nat>)
    requires i < |turns| && allDeltas == deltas + Deltas(turns[..i]) && allOrder == order + Told(turns[..i], |deltas|)
    ensures match turns[i]
      case Add(delta) =>
        && Deltas(turns[..i + 1]) == Deltas(turns[..i]) + [delta] && deltas + Deltas(turns[..i + 1]) == allDeltas + [delta]
        && order + Told(turns[..i + 1], |deltas|) == allOrder
      case Tell(k) =>
        && Deltas(turns[..i + 1]) == Deltas(turns[..i]) && deltas + Deltas(turns[..i + 1]) == allDeltas
        && order + Told(turns[..i + 1], |deltas|) == allOrder + [|deltas| + k]
  {
    hide Deltas, Told;
    OneMoreTurn(turns, |deltas|, i);
  }

  lemma NoTurns(from: nat)
    ensures Deltas([]) == [] && Told([], from) == [] && Sum([]) == 0
  {
  }

  lemma OneMoreWithin(reports: seq<Report>, x: Report)
    requires Within(reports) && x.completed <= x.total
    ensures Within(reports + [x])
  {
  }

  lemma SumSnoc(deltas: seq<int>, delta: int)
    ensures Sum(deltas + [delta]) == Sum(deltas) + delta
  {
    assert (deltas + [delta])[..|deltas|] == deltas;
  }

  /** The values that the callbacks took when they had added their bytes. */
  function Sums(deltas: seq<int>): (sums: seq<int>)
    ensures |sums| == |deltas|
  {
    if deltas == [] then [] else Sums(deltas[..|deltas| - 1]) + [Sum(deltas)]
  }

  lemma SumsSnoc(deltas: seq<int>, delta: int)
    ensures Sums(deltas + [delta]) == Sums(deltas) + [Sum(deltas) + delta]
  {
    assert (deltas + [delta])[..|deltas|] == deltas;
  }

  lemma {:induction false} SumsAt(deltas: seq<int>, k: nat)
    requires k < |deltas|
    ensures Sums(deltas)[k] == Sum(deltas[..k]) + deltas[k] == Sum(deltas[..k + 1])
    decreases |deltas|
  {
    var n := |deltas| - 1;
    SumSnoc(deltas[..k], deltas[k]);
    assert deltas[..k + 1] == deltas[..k] + [deltas[k]];
    if k < n {
      SumsAt(deltas[..n], k);
      assert deltas[..n][..k] == deltas[..k];
    }
  }

  /** After the first report each one told what callback number order[j] took. */
  predicate Reported(reports: seq<Report>, sums: seq<int>, order: seq<nat>) {
    && |reports| == |order| + 1 && reports[0].completed == 0
    && forall j | 0 <= j < |order| :: order[j] < |sums| && reports[j + 1].completed == sums[order[j]]
  }

  /** The progress of one batch: `deltas` are the callbacks so far, `order` the order in which they told the observer. */
  class Progress {
    var completed: int
    var total: int
    var sums: seq<int>
    ghost var deltas: seq<int>
    ghost var order: seq<nat>
    ghost var reports: seq<Report>
    ghost var faults: seq<TransferError>    // what calls, the user or an observer have raised

    constructor (total: int)
      ensures Valid() && completed == 0 && this.total == total && deltas == [] && order == [] && reports == [Report(0, total)]
      ensures faults == []
    {
      completed, this.total, sums, deltas, order, reports, faults := 0, total, [], [], [], [Report(0, total)], [];
    }

    /** Something that may be raised here. */
    method MayRaise(error: TransferError) returns (raised: bool)
      modifies this`faults
      ensures faults == old(faults) + if raised then [error] else []
    {
      raised := *;
      if raised { faults := faults + [error]; }
    }

    ghost predicate Valid()
      reads this`completed, this`sums, this`deltas, this`order, this`reports
    {
      completed == Sum(deltas) && sums == Sums(deltas) && Reported(reports, sums, order)
    }

    /** These turns came after these callbacks and reports. */
    ghost predicate Played(turns: seq<Turn>, deltas: seq<int>, order: seq<nat>)
      reads this`deltas, this`order
    {
      this.deltas == deltas + Deltas(turns) && this.order == order + Told(turns, |deltas|)
    }

    method Added(delta: int)
      requires Valid()
      modifies this`completed, this`sums, this`deltas
      ensures Valid() && deltas == old(deltas) + [delta] && completed == old(completed) + delta
      ensures sums == old(sums) + [completed]
    {
      SumsSnoc(deltas, delta);
      completed := completed + delta;
      sums, deltas := sums + [completed], deltas + [delta];
    }

    method Tells(k: nat)
      requires Valid() && k < |sums|
      modifies this`order, this`reports
      ensures Valid() && order == old(order) + [k] && reports == old(reports) + [Report(sums[k], total)]
    {
      order, reports := order + [k], reports + [Report(sums[k], total)];
    }
  }

  /** What is reported as completed never goes down. */
  predicate Rising(reports: seq<Report>) {
    forall i, j | 0 <= i < j < |reports| :: reports[i].completed <= reports[j].completed
  }

  /** And it never passes the total reported with it. */
  predicate Within(reports: seq<Report>) {
    forall i | 0 <= i < |reports| :: reports[i].completed <= reports[i].total
  }

  predicate Ascending(order: seq<nat>) {
    forall i, j | 0 <= i < j < |order| :: order[i] <= order[j]
  }

  lemma {:induction false} SumsGrow(deltas: seq<int>, a: nat, b: nat)
    requires a <= b <= |deltas| && forall d | d in deltas :: d > 0
    ensures Sum(deltas[..a]) + (b - a) <= Sum(deltas[..b])
    decreases b
  {
    if a < b {
      assert deltas[..b] == deltas[..b - 1] + [deltas[b - 1]];
      SumSnoc(deltas[..b - 1], deltas[b - 1]);
      assert deltas[b - 1] in deltas;
      SumsGrow(deltas, a, b - 1);
    }
  }

  /**
    As long as callbacks only add bytes, the reported progress never goes down exactly if no callback tells the
    observer after one that added its bytes later.
   */
  lemma RisingIffNoneOvertaken(reports: seq<Report>, sums: seq<int>, deltas: seq<int>, order: seq<nat>)
    requires sums == Sums(deltas) && Reported(reports, sums, order) && forall d | d in deltas :: d > 0
    ensures Rising(reports) <==> Ascending(order)
  {
    forall a, b | 0 <= a <= b < |sums| ensures sums[a] + (b - a) <= sums[b] {
      SumsAt(deltas, a);
      SumsAt(deltas, b);
      SumsGrow(deltas, a + 1, b + 1);
    }
    forall a | 0 <= a < |sums| ensures 0 <= sums[a] {
      SumsAt(deltas, a);
      SumsGrow(deltas, 0, a + 1);
    }
    if Rising(reports) {
      forall i, j | 0 <= i < j < |order| ensures order[i] <= order[j] {
        assert reports[i + 1].completed <= reports[j + 1].completed;
      }
    }
    if Ascending(order) {
      forall i, j | 0 <= i < j < |reports| ensures reports[i].completed <= reports[j].completed {
        assert reports[j].completed == sums[order[j - 1]];
        if i > 0 { assert reports[i].completed == sums[order[i - 1]] <= sums[order[j - 1]]; }
      }
    }
  }

  // ---- downloads that are read again ----------------------------------------------------------------

  /** One try at reading an object: the bytes of its chunks. */
  type Try = seq<nat>

  function BytesOf(chunks: Try): nat {
    if chunks == [] then 0 else BytesOf(chunks[..|chunks| - 1]) + chunks[|chunks| - 1]
  }

  function Callbacks(chunks: Try): seq<int> {
    seq(|chunks|, i requires 0 <= i < |chunks| => chunks[i])
  }

  /** A try that breaks off takes back what it had reported, if that was anything. */
  function GivenBack(chunks: Try): seq<int> {
    if BytesOf(chunks) > 0 then [-(BytesOf(chunks) as int)] else []
  }

  /** Tries that break off, and the last one, which goes through. */
  function CallbacksOf(broken: seq<Try>, last: Try): seq<int> {
    if broken == [] then Callbacks(last)
    else Callbacks(broken[0]) + GivenBack(broken[0]) + CallbacksOf(broken[1..], last)
  }

  lemma {:induction false} SumOfTry(chunks: Try)
    ensures Sum(Callbacks(chunks)) == BytesOf(chunks)
    decreases |chunks|
  {
    if chunks != [] {
      var n := |chunks| - 1;
      SumOfTry(chunks[..n]);
      assert Callbacks(chunks)[..n] == Callbacks(chunks[..n]);
    }
  }

  lemma {:induction false} SumAppends(a: seq<int>, b: seq<int>)
    ensures Sum(a + b) == Sum(a) + Sum(b)
    decreases |b|
  {
    if b == [] {
      assert a + b == a;
    } else {
      var n := |b| - 1;
      SumAppends(a, b[..n]);
      assert (a + b)[..|a + b| - 1] == a + b[..n];
    }
  }

  lemma TakenBack(chunks: Try)
    ensures Sum(Callbacks(chunks) + GivenBack(chunks)) == 0
  {
    SumOfTry(chunks);
    if BytesOf(chunks) > 0 { SumSnoc(Callbacks(chunks), -(BytesOf(chunks) as int)); } else { assert Callbacks(chunks) + [] == Callbacks(chunks); }
  }

  /** Whatever was read in vain, the callbacks add up to the bytes of the try that went through. */
  lemma {:induction false} OnlyTheLastTryCounts(broken: seq<Try>, last: Try)
    ensures Sum(CallbacksOf(broken, last)) == BytesOf(last)
    decreases |broken|
  {
    if broken == [] {
      SumOfTry(last);
    } else {
      TakenBack(broken[0]);
      OnlyTheLastTryCounts(broken[1..], last);
      SumAppends(Callbacks(broken[0]) + GivenBack(broken[0]), CallbacksOf(broken[1..], last));
    }
  }

  lemma NothingNegative(chunks: Try)
    ensures forall d | d in Callbacks(chunks) :: d >= 0
  {
  }

  /** The callbacks take something back exactly if some try broke off after it had read something. */
  lemma {:induction false} TakesBackIffReadAgain(broken: seq<Try>, last: Try)
    ensures (exists d | d in CallbacksOf(broken, last) :: d < 0) <==> (exists t | t in broken :: BytesOf(t) > 0)
    decreases |broken|
  {
    if broken == [] {
      NothingNegative(last);
    } else {
      NothingNegative(broken[0]);
      TakesBackIffReadAgain(broken[1..], last);
      var rest := CallbacksOf(broken[1..], last);
      var first := Callbacks(broken[0]) + GivenBack(broken[0]);
      assert CallbacksOf(broken, last) == first + rest;
      assert forall t :: t in broken <==> t == broken[0] || t in broken[1..];
      assert forall d :: d in first + rest <==> d in first || d in rest;
      assert first == Callbacks(broken[0]) || -(BytesOf(broken[0]) as int) in first;
    }
  }

  /** The callbacks tell the observer one after the other. */
  predicate OneByOne(order: seq<nat>) {
    forall i | 0 <= i < |order| :: order[i] == i
  }

  /**
    With one thread, the reported progress of an object never goes down exactly if no try broke off after it
    had read something.
   */
  lemma RisingIffNeverReadAgain(reports: seq<Report>, sums: seq<int>, order: seq<nat>, broken: seq<Try>, last: Try)
    requires sums == Sums(CallbacksOf(broken, last)) && Reported(reports, sums, order) && OneByOne(order) && |order| == |sums|
    ensures Rising(reports) <==> forall t | t in broken :: BytesOf(t) == 0
  {
    var deltas := CallbacksOf(broken, last);
    TakesBackIffReadAgain(broken, last);
    RisingIffNothingTakenBack(reports, sums, deltas, order);
  }

  lemma RisingIffNothingTakenBack(reports: seq<Report>, sums: seq<int>, deltas: seq<int>, order: seq<nat>)
    requires sums == Sums(deltas) && Reported(reports, sums, order) && OneByOne(order) && |order| == |sums|
    ensures Rising(reports) <==> forall d | d in deltas :: d >= 0
  {
    forall i | 0 <= i < |deltas| ensures reports[i + 1].completed == reports[i].completed + deltas[i] {
      SumsAt(deltas, i);
      assert reports[i + 1].completed == sums[order[i]];
      if i > 0 {
        SumsAt(deltas, i - 1);
        assert reports[i - 1 + 1].completed == sums[order[i - 1]];
      } else {
        assert deltas[..0] == [];
      }
    }
    if forall d | d in deltas :: d >= 0 {
      forall i, j | 0 <= i < j < |reports| ensures reports[i].completed <= reports[j].completed {
        RisesBetween(reports, deltas, i, j);
      }
    }
    if Rising(reports) {
      forall d | d in deltas ensures d >= 0 {
        var i :| 0 <= i < |deltas| && deltas[i] == d;
        assert reports[i].completed <= reports[i + 1].completed;
      }
    }
  }

  lemma {:induction false} RisesBetween(reports: seq<Report>, deltas: seq<int>, i: nat, j: nat)
    requires i < j < |reports| == |deltas| + 1 && forall d | d in deltas :: d >= 0
    requires forall k | 0 <= k < |deltas| :: reports[k + 1].completed == reports[k].completed + deltas[k]
    ensures reports[i].completed <= reports[j].completed
    decreases j
  {
    assert deltas[j - 1] in deltas;
    if i < j - 1 { RisesBetween(reports, deltas, i, j - 1); }
  }

  function Sizes(items: seq<Item>): nat {
    if items == [] then 0 else items[0].size + Sizes(items[1..])
  }

  lemma SizesSnoc(items: seq<Item>, x: Item)
    ensures Sizes(items + [x]) == Sizes(items) + x.size
  {
    if items == [] {
      assert [] + [x] == [x] && [x][1..] == [];
    } else {
      assert (items + [x])[1..] == items[1..] + [x];
    }
  }

  /** Streams one object, whose callbacks take these turns unless the transfer breaks off. */
  method Stream(progress: Progress, turns: Turns) returns (r: Result<(), TransferError>)
    requires progress.Valid()
    modifies progress`completed, progress`sums, progress`deltas, progress`order, progress`reports, progress`faults
    ensures progress.Valid() && old(progress.deltas) <= progress.deltas
    ensures progress.faults == old(progress.faults) + if r.Err? then [r.error] else []
    ensures r.Ok? ==> progress.Played(turns, old(progress.deltas), old(progress.order))
    ensures r.Ok? ==> progress.completed == old(progress.completed) + Bytes(turns)
    ensures r.Err? ==> exists n | 0 <= n <= |turns| :: progress.Played(turns[..n], old(progress.deltas), old(progress.order))
    ensures Within(old(progress.reports)) && Fits(turns, progress.total - old(progress.completed)) ==> Within(progress.reports)
    ensures r.Err? ==> r.error in {OperationCancelled, TransferFailed}
  {
    hide Within, Rising, Fits, Sum, Deltas, Told, Reported, Sums, Bytes, Progress.Played;
    ghost var deltas, order, reports := progress.deltas, progress.order, progress.reports;
    ghost var done, limit := progress.completed, progress.total - progress.completed;
    var base := |progress.sums|;
    NothingPlayed(progress, turns, limit);
    for i := 0 to |turns|
      invariant progress.Valid() && PlayedSoFar(progress, turns, i, deltas, order, reports, done, limit)
      invariant progress.faults == old(progress.faults) && progress.total == old(progress.total)
    {
      var cancelled := progress.MayRaise(OperationCancelled);
      if cancelled {
        StoppedAt(progress, turns, i, deltas, order, reports, done, limit);
        return Err(OperationCancelled);
      }
      var fails := progress.MayRaise(TransferFailed);
      if fails {
        StoppedAt(progress, turns, i, deltas, order, reports, done, limit);
        return Err(TransferFailed);
      }
      PlayTurn(progress, turns, i, base, deltas, order, reports, done, limit);
    }
    StoppedAt(progress, turns, |turns|, deltas, order, reports, done, limit);
    assert turns[..|turns|] == turns;
    r := Ok(());
  }

  /** The first n turns have been taken since then, and nothing reported passes the total if the turns fit what was left of it. */
  ghost predicate PlayedSoFar(
    progress: Progress, turns: Turns, n: nat, deltas: seq<int>, order: seq<nat>, reports: seq<Report>, done: int, limit: int)
    reads progress`deltas, progress`order, progress`sums, progress`completed, progress`reports, progress`total
  {
    && n <= |turns| && progress.Played(turns[..n], deltas, order) && progress.completed == done + Bytes(turns[..n])
    && |deltas| <= |progress.sums| == |progress.deltas| && limit == progress.total - done
    && (Within(reports) && Fits(turns, limit) ==>
          Within(progress.reports) && forall k | |deltas| <= k < |progress.sums| :: progress.sums[k] <= progress.total)
  }

  lemma NothingPlayed(progress: Progress, turns: Turns, limit: int)
    requires progress.Valid() && limit == progress.total - progress.completed
    ensures PlayedSoFar(progress, turns, 0, progress.deltas, progress.order, progress.reports, progress.completed, limit)
    ensures |progress.sums| == |progress.deltas|
  {
    hide Within, Fits, Sum;
    NoTurns(|progress.deltas|);
    assert turns[..0] == [];
  }

  lemma StoppedAt(progress: Progress, turns: Turns, n: nat, deltas: seq<int>, order: seq<nat>, reports: seq<Report>, done: int, limit: int)
    requires PlayedSoFar(progress, turns, n, deltas, order, reports, done, limit)
    ensures n <= |turns| && progress.Played(turns[..n], deltas, order) && progress.completed == done + Bytes(turns[..n])
    ensures Within(reports) && Fits(turns, limit) ==> Within(progress.reports)
    ensures deltas <= progress.deltas
  {
    hide Within, Fits, Sum, Deltas, Told;
  }

  /** A callback adds its bytes, or tells what it took. */
  method PlayTurn(
    progress: Progress, turns: Turns, i: nat, base: nat, ghost deltas: seq<int>, ghost order: seq<nat>, ghost reports: seq<Report>,
    ghost done: int, ghost limit: int)
    requires progress.Valid() && i < |turns| && PlayedSoFar(progress, turns, i, deltas, order, reports, done, limit) && base == |deltas|
    modifies progress`completed, progress`sums, progress`deltas, progress`order, progress`reports
    ensures progress.Valid() && PlayedSoFar(progress, turns, i + 1, deltas, order, reports, done, limit)
  {
    hide Within, Rising, Fits, Sum, Deltas, Told, Reported, Sums;
    OneMorePlayed(turns, i, deltas, order, progress.deltas, progress.order);
    ghost var before := progress.reports;
    match turns[i] {
      case Add(delta) =>
        SumSnoc(Deltas(turns[..i]), delta);
        if Fits(turns, limit) { FitsSoFar(turns, limit, i + 1); }
        progress.Added(delta);
      case Tell(k) =>
        TellsWhatItTook(turns, i);
        progress.Tells(base + k);
        if Within(before) && progress.sums[base + k] <= progress.total {
          OneMoreWithin(before, Report(progress.sums[base + k], progress.total));
        }
    }
  }

  lemma TellsWhatItTook(turns: Turns, i: nat)
    requires i < |turns| && turns[i].Tell?
    ensures turns[i].k < |Deltas(turns[..i])|
  {
    assert Playable(turns);
  }

  function Bytes(turns: seq<Turn>): int {
    Sum(Deltas(turns))
  }

  /** What is transferred never exceeds this many bytes on the way. */
  predicate Fits(turns: seq<Turn>, limit: int) {
    forall n | 0 <= n <= |turns| :: Bytes(turns[..n]) <= limit
  }

  /** The object turned out to have the size it was planned with. */
  predicate AsPlanned(item: Item, turns: seq<Turn>) {
    Bytes(turns) == item.size && Fits(turns, item.size)
  }

  predicate AllAsPlanned(items: seq<Item>, turns: map<Item, Turns>) {
    forall x | x in items :: x in turns && AsPlanned(x, turns[x])
  }

  lemma FitsSoFar(turns: seq<Turn>, limit: int, n: nat)
    requires Fits(turns, limit) && n <= |turns|
    ensures Bytes(turns[..n]) <= limit
  {
  }

  lemma FitsMore(turns: seq<Turn>, limit: int, more: int)
    requires Fits(turns, limit) && limit <= more
    ensures Fits(turns, more)
  {
  }

  // ---- downloads ---------------------------------------------------------------------------------

  /** A file this client put in place, and whether it replaced one. */
  datatype Placed = Placed(path: Path, replaced: bool)

  /** What a look for a file or an object found at that moment. */
  datatype Look = Look(name: string, found: bool)

  class LocalFiles {
    var files: set<Path>
    ghost var published: seq<Placed>
    ghost var refused: seq<Path>    // names that were taken when a file was to be put in place
    ghost var looks: seq<Look>

    constructor ()
      ensures published == [] && looks == [] && refused == []
    {
      files, published, refused, looks := {}, [], [], [];
    }

    /** `Path.exists` */
    method Exists(path: Path) returns (found: bool)
      modifies this`looks
      ensures found == (path in files) && looks == old(looks) + [Look(path, found)]
    {
      found := path in files;
      looks := looks + [Look(path, found)];
    }

    /** Other programs create and remove files. */
    method Interfere()
      modifies this`files
    {
      files := *;
    }

    /** `Path.replace`, or a hard link that fails if the name is taken. */
    method Publish(path: Path, overwrite: bool) returns (ok: bool)
      modifies this`files, this`published, this`refused
      ensures !ok ==> published == old(published) && refused == old(refused) + [path]
      ensures ok ==> published == old(published) + [Placed(path, path in old(files))] && refused == old(refused)
      ensures ok <==> overwrite || path !in old(files)
    {
      ok := overwrite || path !in files;
      if ok {
        published := published + [Placed(path, path in files)];
        files := files + {path};
      } else {
        refused := refused + [path];
      }
    }
  }

  /** Nothing is replaced but destinations that existed when the plan was made, and only to overwrite. */
  predicate OnlyConfirmed(items: seq<Item>, policy: Policy, published: seq<Placed>) {
    forall p | p in published ::
      exists x | x in items :: x.path == p.path && (p.replaced ==> policy.Overwrite? && x.existed)
  }

  /**
    `Boto3S3Gateway.download_file`: stream to a temporary file, then put it in place.  On a system with hard
    links (`linked`) the temporary name is removed last, and a failure of that leaves the file in place.
   */
  method DownloadFile(local: LocalFiles, progress: Progress, item: Item, turns: Turns, overwrite: bool, linked: bool)
    returns (r: Result<(), TransferError>, ghost placed: Option<Placed>)
    requires progress.Valid()
    modifies local`files, local`published, local`refused, progress`completed, progress`sums, progress`deltas, progress`order, progress`reports, progress`faults
    ensures progress.Valid()
    ensures r.Ok? ==> progress.faults == old(progress.faults) && local.refused == old(local.refused)
    ensures r.Err? ==> if progress.faults == old(progress.faults) + [r.error] then local.refused == old(local.refused)
      else progress.faults == old(progress.faults) && Refused(r.error, item, overwrite, old(local.refused), local.refused)
    ensures r.Ok? ==> progress.completed == old(progress.completed) + Bytes(turns) && placed.Some?
    ensures Within(old(progress.reports)) && Fits(turns, progress.total - old(progress.completed)) ==> Within(progress.reports)
    ensures local.published == old(local.published) + if placed.Some? then [placed.value] else []
    ensures placed.Some? ==> placed.value.path == item.path && (placed.value.replaced ==> overwrite)
    ensures r.Err? && placed.Some? ==> linked && !overwrite
  {
    placed := None;
    var cancelled := progress.MayRaise(OperationCancelled);
    if cancelled { return Err(OperationCancelled), None; }
    r := Stream(progress, turns);
    if r.Err? { return; }
    cancelled := progress.MayRaise(OperationCancelled);
    if cancelled { return Err(OperationCancelled), None; }
    local.Interfere();
    ghost var before := local.files;
    var ok := local.Publish(item.path, overwrite);
    if !ok { return Err(DestinationAppeared), None; }
    placed := Some(Placed(item.path, item.path in before));
    if linked && !overwrite {
      var unlinkFails := progress.MayRaise(TransferFailed);
      if unlinkFails { return Err(TransferFailed), placed; }
    }
    r := Ok(());
  }

  /** The name was taken when the file was to be put in place, and it was not to be replaced. */
  predicate Refused(error: TransferError, item: Item, overwrite: bool, before: seq<Path>, after: seq<Path>) {
    error.DestinationAppeared? && !overwrite && after == before + [item.path]
  }

  /**
    The item in hand, the last one looked for, has its destination taken: it was found there although it was
    absent when the overwriting was confirmed, or it appeared while it was downloaded without leave to replace it.
   */
  ghost predicate Appeared(items: seq<Item>, policy: Policy, looks: seq<Look>, refused: seq<Path>) {
    && 0 < |looks| <= |items| && LookedFor(Paths(items[..|looks|]), looks)
    && var k := |looks| - 1;
       || (refused == [] && looks[k].found && policy.Overwrite? && !items[k].existed)
       || (refused == [items[k].path] && !(policy.Overwrite? && items[k].existed))
  }

  datatype Summary = Summary(transferred: seq<Item>, bytes: int, skipped: seq<Item>)

  /**
    `S3Service.download`; `turns` are the callbacks of each object.  Whatever other programs do to the local
    files, only destinations that existed at planning time are replaced, and only to overwrite.  On success
    every destination was looked for once, in order; the items skipped are the ones found while skipping, and
    the files put in place are the ones of all others.  It fails exactly if something is raised on the way or a
    destination is taken that must not be replaced.
   */
  method Download(local: LocalFiles, items: seq<Item>, turns: map<Item, Turns>, policy: Policy, linked: bool)
    returns (r: Result<Summary, TransferError>, progress: Progress)
    requires local.published == [] && local.looks == [] && local.refused == [] && forall x | x in items :: x in turns
    modifies local
    ensures fresh(progress) && progress.Valid() && OnlyConfirmed(items, policy, local.published)
    ensures r.Ok? ==> progress.faults == [] && local.refused == []
    ensures r.Err? ==> if progress.faults == [r.error] then local.refused == []
      else progress.faults == [] && r.error.DestinationAppeared? && Appeared(items, policy, local.looks, local.refused)
    ensures AllAsPlanned(items, turns) ==> Within(progress.reports)
    ensures r.Ok? ==> LookedFor(Paths(items), local.looks)
    ensures r.Ok? ==> Tally(items, policy, Founds(local.looks), r.value.transferred, r.value.skipped)
    ensures r.Ok? ==> PathsPlaced(local.published) == Paths(r.value.transferred) && r.value.bytes == Sum(progress.deltas)
    ensures r.Ok? && AllAsPlanned(items, turns) ==> r.value.bytes == Sizes(r.value.transferred) == progress.total
  {
    hide Fetched, Tally, Within, OnlyConfirmed, AllAsPlanned, Sum, Sums, Reported, Sizes, LookedFor, Founds, Paths, PathsPlaced, Appeared;
    progress := new Progress(Sizes(items));
    var transferred, skipped := [], [];
    NothingFetched(items, turns, policy);
    var cancelled := progress.MayRaise(OperationCancelled);
    if cancelled {
      FetchedSoFar(items, turns, policy, 0, transferred, skipped, local.looks, local.published, progress.total, progress.completed, progress.reports);
      return Err(OperationCancelled), progress;
    }
    for i := 0 to |items|
      invariant fresh(progress) && progress.Valid() && progress.faults == [] && local.refused == []
      invariant Fetched(items, turns, policy, i, transferred, skipped, local.looks, local.published, progress.total, progress.completed, progress.reports)
    {
      var one := FetchNext(local, progress, items, turns, policy, linked, i, transferred, skipped);
      if one.Err? { return Err(one.error), progress; }
      if one.value { transferred := transferred + [items[i]]; } else { skipped := skipped + [items[i]]; }
    }
    AllFetched(items, turns, policy, transferred, skipped, local.looks, local.published, progress.total, progress.completed, progress.reports);
    cancelled := progress.MayRaise(OperationCancelled);
    if cancelled { return Err(OperationCancelled), progress; }
    r := Ok(Summary(transferred, progress.completed, skipped));
  }

  /** One round of the loop: whether the item was transferred, or skipped. */
  method FetchNext(
    local: LocalFiles, progress: Progress, items: seq<Item>, turns: map<Item, Turns>, policy: Policy, linked: bool, i: nat,
    ghost transferred: seq<Item>, ghost skipped: seq<Item>)
    returns (r: Result<bool, TransferError>)
    requires i < |items| && (forall x | x in items :: x in turns) && progress.Valid() && progress.faults == [] && local.refused == []
    requires Fetched(items, turns, policy, i, transferred, skipped, local.looks, local.published, progress.total, progress.completed, progress.reports)
    modifies local, progress
    ensures progress.Valid() && OnlyConfirmed(items, policy, local.published) && (AllAsPlanned(items, turns) ==> Within(progress.reports))
    ensures r.Ok? ==> progress.faults == [] && local.refused == []
    ensures r.Ok? ==> Fetched(items, turns, policy, i + 1, if r.value then transferred + [items[i]] else transferred,
      if r.value then skipped else skipped + [items[i]], local.looks, local.published, progress.total, progress.completed, progress.reports)
    ensures r.Err? ==> if progress.faults == [r.error] then local.refused == []
      else progress.faults == [] && r.error.DestinationAppeared? && Appeared(items, policy, local.looks, local.refused)
  {
    hide Fetched, Tally, Within, OnlyConfirmed, AllAsPlanned, Sum, Sums, Reported, Sizes, LookedFor, Founds, Paths, PathsPlaced, Appeared, Fits, Bytes;
    var x := items[i];
    assert x in items;
    FetchedSoFar(items, turns, policy, i, transferred, skipped, local.looks, local.published, progress.total, progress.completed, progress.reports);
    var cancelled := progress.MayRaise(OperationCancelled);
    if cancelled { return Err(OperationCancelled); }
    local.Interfere();
    ghost var looks, published, completed, reports := local.looks, local.published, progress.completed, progress.reports;
    var found := local.Exists(x.path);
    IsAppeared(items, policy, looks, x, found);
    if found {
      if policy.SkipExisting? {
        SkipKeeps(items, turns, policy, i, transferred, skipped, looks, published, progress.total, completed, reports);
        progress.total := progress.total - x.size;
        return Ok(false);
      }
      if !x.existed { return Err(DestinationAppeared); }
    }
    var folderFails := progress.MayRaise(Unavailable);
    if folderFails { return Err(Unavailable); }
    var one;
    ghost var placed;
    one, placed := DownloadFile(local, progress, x, turns[x], policy.Overwrite? && x.existed, linked);
    StillConfirmed(items, policy, published, local.published, x, placed);
    StillWithin(items, turns, policy, i, transferred, skipped, looks, published, progress.total, completed, reports, progress.reports);
    if one.Err? {
      assert [] + [x.path] == [x.path] && [] + [one.error] == [one.error];
      return Err(one.error);
    }
    TransferKeeps(items, turns, policy, i, transferred, skipped, looks, published, progress.total, completed, reports, found, placed.value,
      progress.completed, progress.reports);
    r := Ok(true);
  }

  /** The first n items have been dealt with, and this is what has come of it. */
  ghost predicate Fetched(
    items: seq<Item>, turns: map<Item, Turns>, policy: Policy, n: nat, transferred: seq<Item>, skipped: seq<Item>, looks: seq<Look>,
    published: seq<Placed>, total: int, completed: int, reports: seq<Report>)
  {
    && n == |looks| <= |items| && OnlyConfirmed(items, policy, published)
    && Tally(items[..n], policy, Founds(looks), transferred, skipped) && LookedFor(Paths(items[..n]), looks)
    && PathsPlaced(published) == Paths(transferred) && total == Sizes(items) - Sizes(skipped)
    && (AllAsPlanned(items, turns) ==> Within(reports) && completed == Sizes(transferred))
  }

  lemma NothingFetched(items: seq<Item>, turns: map<Item, Turns>, policy: Policy)
    ensures Fetched(items, turns, policy, 0, [], [], [], [], Sizes(items), 0, [Report(0, Sizes(items))])
  {
    hide Tally, Within, OnlyConfirmed, LookedFor, Founds, Paths, PathsPlaced;
    FirstReportFits(Sizes(items));
    NothingPlaced(items, policy);
    NothingTallied(policy);
    assert items[..0] == [];
    NoLooks();
  }

  lemma FetchedSoFar(
    items: seq<Item>, turns: map<Item, Turns>, policy: Policy, n: nat, transferred: seq<Item>, skipped: seq<Item>, looks: seq<Look>,
    published: seq<Placed>, total: int, completed: int, reports: seq<Report>)
    requires Fetched(items, turns, policy, n, transferred, skipped, looks, published, total, completed, reports)
    ensures n == |looks| <= |items| && LookedFor(Paths(items[..n]), looks) && OnlyConfirmed(items, policy, published)
    ensures AllAsPlanned(items, turns) ==> Within(reports)
  {
    hide Tally, Within, OnlyConfirmed, LookedFor, Founds, Paths, PathsPlaced, AllAsPlanned, Sizes;
  }

  lemma AllFetched(
    items: seq<Item>, turns: map<Item, Turns>, policy: Policy, transferred: seq<Item>, skipped: seq<Item>, looks: seq<Look>,
    published: seq<Placed>, total: int, completed: int, reports: seq<Report>)
    requires Fetched(items, turns, policy, |items|, transferred, skipped, looks, published, total, completed, reports)
    ensures OnlyConfirmed(items, policy, published) && (AllAsPlanned(items, turns) ==> Within(reports))
    ensures LookedFor(Paths(items), looks) && Tally(items, policy, Founds(looks), transferred, skipped)
    ensures PathsPlaced(published) == Paths(transferred)
    ensures AllAsPlanned(items, turns) ==> completed == Sizes(transferred) == total
  {
    hide Tally, Within, OnlyConfirmed, LookedFor, Founds, Paths, PathsPlaced, AllAsPlanned, Sizes;
    assert items[..|items|] == items;
    TallySizes(items, policy, Founds(looks), transferred, skipped);
  }

  lemma SkipKeeps(
    items: seq<Item>, turns: map<Item, Turns>, policy: Policy, n: nat, transferred: seq<Item>, skipped: seq<Item>, looks: seq<Look>,
    published: seq<Placed>, total: int, completed: int, reports: seq<Report>)
    requires Fetched(items, turns, policy, n, transferred, skipped, looks, published, total, completed, reports)
    requires n < |items| && policy.SkipExisting?
    ensures Fetched(items, turns, policy, n + 1, transferred, skipped + [items[n]], looks + [Look(items[n].path, true)], published,
      total - items[n].size, completed, reports)
  {
    hide Tally, Within, OnlyConfirmed, LookedFor, Founds, Paths, PathsPlaced, AllAsPlanned, Sizes;
    var x := items[n];
    assert items[..n + 1] == items[..n] + [x];
    OneMorePath(items[..n], looks, x, true);
    OneMoreSkipped(items[..n], policy, Founds(looks), transferred, skipped, x);
    SizesSnoc(skipped, x);
  }

  /** What is left of the total is enough for an object of the planned size. */
  lemma StillWithin(
    items: seq<Item>, turns: map<Item, Turns>, policy: Policy, n: nat, transferred: seq<Item>, skipped: seq<Item>, looks: seq<Look>,
    published: seq<Placed>, total: int, completed: int, reports: seq<Report>, more: seq<Report>)
    requires Fetched(items, turns, policy, n, transferred, skipped, looks, published, total, completed, reports)
    requires n < |items| && items[n] in turns
    requires Within(reports) && Fits(turns[items[n]], total - completed) ==> Within(more)
    ensures AllAsPlanned(items, turns) ==> Within(more) && Bytes(turns[items[n]]) == items[n].size
  {
    hide Tally, Within, OnlyConfirmed, LookedFor, Founds, Paths, PathsPlaced, AllAsPlanned, Sizes, Fits, Bytes;
    TallySizes(items[..n], policy, Founds(looks), transferred, skipped);
    SizesOfPrefix(items, n);
    PlannedFits(items, turns, items[n], total - completed);
  }

  lemma TransferKeeps(
    items: seq<Item>, turns: map<Item, Turns>, policy: Policy, n: nat, transferred: seq<Item>, skipped: seq<Item>, looks: seq<Look>,
    published: seq<Placed>, total: int, completed: int, reports: seq<Report>, found: bool, placed: Placed, completed': int, more: seq<Report>)
    requires Fetched(items, turns, policy, n, transferred, skipped, looks, published, total, completed, reports)
    requires n < |items| && items[n] in turns && !(policy.SkipExisting? && found) && placed.path == items[n].path
    requires OnlyConfirmed(items, policy, published + [placed]) && completed' == completed + Bytes(turns[items[n]])
    requires AllAsPlanned(items, turns) ==> Within(more) && Bytes(turns[items[n]]) == items[n].size
    ensures Fetched(items, turns, policy, n + 1, transferred + [items[n]], skipped, looks + [Look(items[n].path, found)], published + [placed],
      total, completed', more)
  {
    hide Tally, Within, OnlyConfirmed, LookedFor, Founds, Paths, PathsPlaced, AllAsPlanned, Sizes, Bytes;
    var x := items[n];
    assert items[..n + 1] == items[..n] + [x];
    OneMorePath(items[..n], looks, x, found);
    OneMoreTransferred(items[..n], policy, Founds(looks), found, transferred, skipped, x);
    OneMorePlaced(published, placed, transferred, x);
    SizesSnoc(transferred, x);
  }

  function Paths(items: seq<Item>): (paths: seq<Path>)
    ensures |paths| == |items|
  {
    seq(|items|, i requires 0 <= i < |items| => items[i].path)
  }

  function Keys(items: seq<Item>): (keys: seq<Key>)
    ensures |keys| == |items|
  {
    seq(|items|, i requires 0 <= i < |items| => items[i].key)
  }

  function PathsPlaced(published: seq<Placed>): (paths: seq<Path>)
    ensures |paths| == |published|
  {
    seq(|published|, i requires 0 <= i < |published| => published[i].path)
  }

  function Founds(looks: seq<Look>): (founds: seq<bool>)
    ensures |founds| == |looks|
  {
    seq(|looks|, i requires 0 <= i < |looks| => looks[i].found)
  }

  /** Each of these names was looked for once, in this order. */
  predicate LookedFor(names: seq<string>, looks: seq<Look>) {
    |looks| == |names| && forall i | 0 <= i < |looks| :: looks[i].name == names[i]
  }

  lemma NoLooks()
    ensures LookedFor(Paths([]), []) && LookedFor(Keys([]), []) && Founds([]) == [] && PathsPlaced([]) == Paths([])
  {
  }

  lemma OneMorePath(items: seq<Item>, looks: seq<Look>, x: Item, found: bool)
    requires LookedFor(Paths(items), looks)
    ensures LookedFor(Paths(items + [x]), looks + [Look(x.path, found)])
    ensures Founds(looks + [Look(x.path, found)]) == Founds(looks) + [found]
  {
  }

  /** What a taken destination of the next item would be. */
  lemma IsAppeared(items: seq<Item>, policy: Policy, looks: seq<Look>, x: Item, found: bool)
    requires |looks| < |items| && x == items[|looks|] && LookedFor(Paths(items[..|looks|]), looks)
    ensures found && policy.Overwrite? && !x.existed ==> Appeared(items, policy, looks + [Look(x.path, found)], [])
    ensures !(policy.Overwrite? && x.existed) ==> Appeared(items, policy, looks + [Look(x.path, found)], [x.path])
  {
    assert items[..|looks| + 1] == items[..|looks|] + [x];
    OneMorePath(items[..|looks|], looks, x, found);
  }

  lemma OneMoreKey(items: seq<Item>, looks: seq<Look>, x: Item, found: bool)
    requires LookedFor(Keys(items), looks)
    ensures LookedFor(Keys(items + [x]), looks + [Look(x.key, found)])
    ensures Founds(looks + [Look(x.key, found)]) == Founds(looks) + [found]
  {
  }

  lemma OneMorePlaced(published: seq<Placed>, placed: Placed, transferred: seq<Item>, x: Item)
    requires PathsPlaced(published) == Paths(transferred) && placed.path == x.path
    ensures PathsPlaced(published + [placed]) == Paths(transferred + [x])
  {
    assert PathsPlaced(published + [placed]) == PathsPlaced(published) + [placed.path];
    assert Paths(transferred + [x]) == Paths(transferred) + [x.path];
  }

  /** The items found while skipping, or all others. */
  function Picked(items: seq<Item>, policy: Policy, founds: seq<bool>, skipped: bool): seq<Item>
    requires |founds| == |items|
  {
    if items == [] then []
    else
      var n := |items| - 1;
      Picked(items[..n], policy, founds[..n], skipped)
      + if (policy.SkipExisting? && founds[n]) == skipped then [items[n]] else []
  }

  lemma PickedSnoc(items: seq<Item>, policy: Policy, founds: seq<bool>, x: Item, found: bool, skipped: bool)
    requires |founds| == |items|
    ensures Picked(items + [x], policy, founds + [found], skipped) ==
      Picked(items, policy, founds, skipped) + if (policy.SkipExisting? && found) == skipped then [x] else []
  {
    assert (items + [x])[..|items|] == items && (founds + [found])[..|items|] == founds;
  }

  /** Item i is picked if it is of the kind asked for: found while skipping, or not. */
  predicate IsPicked(policy: Policy, founds: seq<bool>, skipped: bool, i: nat)
    requires i < |founds|
  {
    skipped <==> policy.SkipExisting? && founds[i]
  }

  function PickedAt(policy: Policy, founds: seq<bool>, skipped: bool): set<nat> {
    set i: nat | i < |founds| && IsPicked(policy, founds, skipped, i)
  }

  lemma PickedAtSnoc(policy: Policy, founds: seq<bool>, found: bool, skipped: bool)
    ensures PickedAt(policy, founds + [found], skipped) ==
      PickedAt(policy, founds, skipped) + if (policy.SkipExisting? && found) == skipped then {|founds|} else {}
    ensures |founds| !in PickedAt(policy, founds, skipped)
  {
  }

  /** The items picked, and how many they are. */
  lemma {:induction false} PickedIff(items: seq<Item>, policy: Policy, founds: seq<bool>, skipped: bool)
    requires |founds| == |items|
    ensures forall x :: x in Picked(items, policy, founds, skipped) <==> exists i | 0 <= i < |items| :: items[i] == x && IsPicked(policy, founds, skipped, i)
    ensures |Picked(items, policy, founds, skipped)| == |PickedAt(policy, founds, skipped)|
    decreases |items|
  {
    hide IsPicked;
    if items == [] {
      assert PickedAt(policy, founds, skipped) == {};
    } else {
      var n := |items| - 1;
      var front, some := items[..n], founds[..n];
      assert items == front + [items[n]] && founds == some + [founds[n]];
      PickedIff(front, policy, some, skipped);
      PickedAtSnoc(policy, some, founds[n], skipped);
      PickedSnoc(front, policy, some, items[n], founds[n], skipped);
      PickedOfSnoc(items, policy, founds, skipped);
    }
  }

  lemma PickedOfSnoc(items: seq<Item>, policy: Policy, founds: seq<bool>, skipped: bool)
    requires |founds| == |items| > 0
    requires var n := |items| - 1;
      forall x :: x in Picked(items[..n], policy, founds[..n], skipped) <==>
        exists i | 0 <= i < n :: items[..n][i] == x && IsPicked(policy, founds[..n], skipped, i)
    ensures forall x :: x in Picked(items, policy, founds, skipped) <==> exists i | 0 <= i < |items| :: items[i] == x && IsPicked(policy, founds, skipped, i)
  {
    var n := |items| - 1;
    var picked := Picked(items[..n], policy, founds[..n], skipped);
    assert forall i | 0 <= i < n :: IsPicked(policy, founds[..n], skipped, i) <==> IsPicked(policy, founds, skipped, i);
    forall x
      ensures x in picked <==> exists i | 0 <= i < n :: items[i] == x && IsPicked(policy, founds, skipped, i)
    {
      if x in picked {
        var i :| 0 <= i < n && items[..n][i] == x && IsPicked(policy, founds[..n], skipped, i);
        assert items[i] == x;
      }
      if i :| 0 <= i < n && items[i] == x && IsPicked(policy, founds, skipped, i) {
        assert items[..n][i] == x;
      }
    }
  }

  /** These items are dealt with, each of them once: exactly those found while skipping are skipped. */
  ghost predicate Tally(items: seq<Item>, policy: Policy, founds: seq<bool>, transferred: seq<Item>, skipped: seq<Item>) {
    && |founds| == |items|
    && skipped == Picked(items, policy, founds, true) && transferred == Picked(items, policy, founds, false)
    && multiset(transferred + skipped) == multiset(items)
    && (policy.Overwrite? ==> skipped == [] && transferred == items)
    && Sizes(transferred) + Sizes(skipped) == Sizes(items)
  }

  lemma NothingTallied(policy: Policy)
    ensures Tally([], policy, [], [], [])
  {
  }

  lemma OneMoreTransferred(
    items: seq<Item>, policy: Policy, founds: seq<bool>, found: bool, transferred: seq<Item>, skipped: seq<Item>, x: Item)
    requires Tally(items, policy, founds, transferred, skipped) && !(policy.SkipExisting? && found)
    ensures Tally(items + [x], policy, founds + [found], transferred + [x], skipped)
  {
    PickedSnoc(items, policy, founds, x, found, true);
    PickedSnoc(items, policy, founds, x, found, false);
    SizesSnoc(items, x);
    SizesSnoc(transferred, x);
    assert multiset(transferred + [x] + skipped) == multiset(transferred + skipped) + multiset{x};
  }

  lemma OneMoreSkipped(items: seq<Item>, policy: Policy, founds: seq<bool>, transferred: seq<Item>, skipped: seq<Item>, x: Item)
    requires Tally(items, policy, founds, transferred, skipped) && policy.SkipExisting?
    ensures Tally(items + [x], policy, founds + [true], transferred, skipped + [x])
  {
    PickedSnoc(items, policy, founds, x, true, true);
    PickedSnoc(items, policy, founds, x, true, false);
    SizesSnoc(items, x);
    SizesSnoc(skipped, x);
    assert multiset(transferred + (skipped + [x])) == multiset(transferred + skipped) + multiset{x};
  }

  lemma TallySizes(items: seq<Item>, policy: Policy, founds: seq<bool>, transferred: seq<Item>, skipped: seq<Item>)
    requires Tally(items, policy, founds, transferred, skipped)
    ensures Sizes(transferred) + Sizes(skipped) == Sizes(items)
  {
  }

  lemma FirstReportFits(total: nat)
    ensures Within([Report(0, total)])
  {
  }

  /** An object of the planned size fits into what is left of the total. */
  lemma PlannedFits(items: seq<Item>, turns: map<Item, Turns>, x: Item, left: int)
    requires x in items && x in turns
    ensures AllAsPlanned(items, turns) && x.size <= left ==> Fits(turns[x], left)
    ensures AllAsPlanned(items, turns) ==> Bytes(turns[x]) == x.size
  {
    if AllAsPlanned(items, turns) && x.size <= left { FitsMore(turns[x], x.size, left); }
  }

  lemma NothingPlaced(items: seq<Item>, policy: Policy)
    ensures OnlyConfirmed(items, policy, [])
  {
  }

  lemma StillConfirmed(items: seq<Item>, policy: Policy, before: seq<Placed>, after: seq<Placed>, x: Item, placed: Option<Placed>)
    requires OnlyConfirmed(items, policy, before) && x in items
    requires after == before + if placed.Some? then [placed.value] else []
    requires placed.Some? ==> placed.value.path == x.path && (placed.value.replaced ==> policy.Overwrite? && x.existed)
    ensures OnlyConfirmed(items, policy, after)
  {
  }

  lemma {:induction false} SizesOfPrefix(items: seq<Item>, i: nat)
    requires i < |items|
    ensures Sizes(items[..i + 1]) == Sizes(items[..i]) + items[i].size <= Sizes(items)
  {
    assert items[..i + 1] == items[..i] + [items[i]];
    SizesSnoc(items[..i], items[i]);
    SizesMonotone(items, i + 1);
  }

  lemma {:induction false} SizesMonotone(items: seq<Item>, n: nat)
    requires n <= |items|
    ensures Sizes(items[..n]) <= Sizes(items)
    decreases |items| - n
  {
    if n < |items| {
      assert items[..n + 1] == items[..n] + [items[n]];
      SizesSnoc(items[..n], items[n]);
      SizesMonotone(items, n + 1);
    } else {
      assert items[..n] == items;
    }
  }

  // ---- uploads -----------------------------------------------------------------------------------

  class RemoteObjects {
    var keys: set<Key>
    ghost var puts: seq<Key>   // what this client stored
    ghost var looks: seq<Look>

    constructor ()
      ensures puts == [] && looks == []
    {
      keys, puts, looks := {}, [], [];
    }

    /** `object_exists`, when it is answered. */
    method Exists(key: Key) returns (found: bool)
      modifies this`looks
      ensures found == (key in keys) && looks == old(looks) + [Look(key, found)]
    {
      found := key in keys;
      looks := looks + [Look(key, found)];
    }

    /** Other writers put and delete objects. */
    method Interfere()
      modifies this`keys
    {
      keys := *;
    }

    method Put(key: Key)
      modifies this`keys, this`puts
      ensures puts == old(puts) + [key] && keys == old(keys) + {key}
    {
      puts, keys := puts + [key], keys + {key};
    }
  }

  function Where(items: seq<Item>, existed: bool): seq<Item> {
    if items == [] then [] else (if items[0].existed == existed then [items[0]] else []) + Where(items[1..], existed)
  }

  lemma {:induction false} WhereSplits(items: seq<Item>)
    ensures multiset(Where(items, true)) + multiset(Where(items, false)) == multiset(items)
    decreases |items|
  {
    if items != [] {
      WhereSplits(items[1..]);
      assert items == [items[0]] + items[1..];
    }
  }

  lemma {:induction false} WhereIs(items: seq<Item>, existed: bool)
    ensures forall x | x in Where(items, existed) :: x in items && x.existed == existed
    decreases |items|
  {
    if items != [] { WhereIs(items[1..], existed); }
  }

  /** Objects this client stored are planned ones, and without overwriting only those that were absent at planning time. */
  predicate OnlyPlanned(items: seq<Item>, policy: Policy, puts: seq<Key>) {
    forall k | k in puts :: exists x | x in items :: x.key == k && (policy.SkipExisting? ==> !x.existed)
  }

  /** The body of one upload: a plain put, or the parts of a multipart upload, with progress as the bytes are read. */
  method UploadFile(remote: RemoteObjects, progress: Progress, item: Item, turns: Turns) returns (r: Result<(), TransferError>)
    requires progress.Valid()
    modifies remote`keys, remote`puts, progress`completed, progress`sums, progress`deltas, progress`order, progress`reports, progress`faults
    ensures progress.Valid() && progress.faults == old(progress.faults) + if r.Err? then [r.error] else []
    ensures r.Ok? ==> progress.completed == old(progress.completed) + Bytes(turns)
    ensures Within(old(progress.reports)) && Fits(turns, progress.total - old(progress.completed)) ==> Within(progress.reports)
    ensures remote.puts == old(remote.puts) || remote.puts == old(remote.puts) + [item.key]
    ensures r.Ok? ==> remote.puts == old(remote.puts) + [item.key]
  {
    r := Stream(progress, turns);
    if r.Err? { return; }
    remote.Interfere();
    var fails := progress.MayRaise(TransferFailed);
    var carriedOut: bool := *;   // the answer of a failed request may have been lost
    if !fails || carriedOut { remote.Put(item.key); }
    r := if fails then Err(TransferFailed) else Ok(());
  }

  /** The items an upload sends unless they are found at their turn: all of them, or those that did not exist when planned. */
  function Chosen(items: seq<Item>, policy: Policy): seq<Item> {
    if policy.Overwrite? then items else Where(items, false)
  }

  /**
    `S3Service.upload`; `turns` are the callbacks of each file.  On success each item chosen was looked for at its
    turn unless objects are overwritten; the objects stored are those of the transferred items, in order, and
    the items skipped are the ones that existed when the plan was made and the ones found at their turn.  It
    fails exactly if something is raised on the way.
   */
  method Upload(remote: RemoteObjects, items: seq<Item>, turns: map<Item, Turns>, policy: Policy)
    returns (r: Result<Summary, TransferError>, progress: Progress)
    requires remote.puts == [] && remote.looks == [] && forall x | x in items :: x in turns
    modifies remote
    ensures fresh(progress) && progress.Valid() && OnlyPlanned(items, policy, remote.puts)
    ensures progress.faults == if r.Err? then [r.error] else []
    ensures AllAsPlanned(items, turns) ==> Within(progress.reports)
    ensures r.Ok? ==> multiset(r.value.transferred + r.value.skipped) == multiset(items) && r.value.bytes == Sum(progress.deltas)
    ensures r.Ok? ==> remote.puts == Keys(r.value.transferred)
    ensures r.Ok? ==> LookedFor(if policy.Overwrite? then [] else Keys(Where(items, false)), remote.looks)
    ensures r.Ok? && policy.SkipExisting? ==>
      && r.value.transferred == Picked(Where(items, false), policy, Founds(remote.looks), false)
      && r.value.skipped == Where(items, true) + Picked(Where(items, false), policy, Founds(remote.looks), true)
    ensures r.Ok? && policy.Overwrite? ==> r.value.skipped == [] && r.value.transferred == items
    ensures r.Ok? && policy.SkipExisting? ==> forall x | x in r.value.transferred :: !x.existed
    ensures r.Ok? && AllAsPlanned(items, turns) ==> r.value.bytes == Sizes(r.value.transferred) == progress.total
  {
    var chosen := Chosen(items, policy);
    var known := if policy.Overwrite? then [] else Where(items, true);
    hide Within, OnlyPlanned, Where, AsPlanned, Picked, Keys, Founds, Tally;
    WhereIs(items, false);
    var transferred, late;
    ghost var founds;
    r, progress, transferred, late, founds := UploadAll(remote, items, chosen, turns, policy);
    if r.Ok? {
      PlanIsPartitioned(items, policy, founds, transferred, late);
      r := Ok(r.value.(skipped := known + late));
    }
  }

  lemma PlanIsPartitioned(items: seq<Item>, policy: Policy, founds: seq<bool>, transferred: seq<Item>, late: seq<Item>)
    requires Tally(Chosen(items, policy), policy, founds, transferred, late)
    ensures var skipped := (if policy.Overwrite? then [] else Where(items, true)) + late;
      && multiset(transferred + skipped) == multiset(items)
      && (policy.Overwrite? ==> skipped == [] && transferred == items)
    ensures forall x | x in transferred :: x in Chosen(items, policy)
    ensures policy.SkipExisting? ==>
      && |founds| == |Where(items, false)|
      && transferred == Picked(Where(items, false), policy, founds, false)
      && late == Picked(Where(items, false), policy, founds, true)
  {
    hide Where, Picked;
    WhereSplits(items);
    TransferredAreChosen(Chosen(items, policy), policy, founds, transferred, late);
    var known := if policy.Overwrite? then [] else Where(items, true);
    assert multiset(transferred + (known + late)) == multiset(transferred + late) + multiset(known);
  }

  lemma TransferredAreChosen(chosen: seq<Item>, policy: Policy, founds: seq<bool>, transferred: seq<Item>, late: seq<Item>)
    requires Tally(chosen, policy, founds, transferred, late)
    ensures forall x | x in transferred :: x in chosen
  {
    forall x | x in transferred ensures x in chosen {
      assert x in multiset(transferred + late);
      assert x in multiset(chosen);
    }
  }

  method UploadAll(remote: RemoteObjects, ghost items: seq<Item>, chosen: seq<Item>, turns: map<Item, Turns>, policy: Policy)
    returns (r: Result<Summary, TransferError>, progress: Progress, transferred: seq<Item>, late: seq<Item>, ghost founds: seq<bool>)
    requires remote.puts == [] && remote.looks == [] && forall x | x in chosen :: x in items && x in turns && (policy.SkipExisting? ==> !x.existed)
    modifies remote
    ensures fresh(progress) && progress.Valid() && OnlyPlanned(items, policy, remote.puts)
    ensures progress.faults == if r.Err? then [r.error] else []
    ensures AllAsPlanned(chosen, turns) ==> Within(progress.reports)
    ensures r.Ok? ==> Tally(chosen, policy, founds, transferred, late) && remote.puts == Keys(transferred)
    ensures r.Ok? ==> if policy.Overwrite? then remote.looks == [] else LookedFor(Keys(chosen), remote.looks) && founds == Founds(remote.looks)
    ensures r.Ok? ==> r.value == Summary(transferred, progress.completed, late)
    ensures r.Ok? && AllAsPlanned(chosen, turns) ==> progress.completed == Sizes(transferred) == progress.total
  {
    hide Sent, Tally, Within, OnlyPlanned, AllAsPlanned, Sum, Sums, Reported, Sizes, LookedFor, Founds, Keys;
    progress := new Progress(Sizes(chosen));
    transferred, late, founds := [], [], [];
    NothingSent(items, chosen, turns, policy);
    SentSoFar(items, chosen, turns, policy, 0, transferred, late, founds, remote.looks, remote.puts, progress.total, progress.completed, progress.reports);
    var cancelled := progress.MayRaise(OperationCancelled);
    if cancelled { return Err(OperationCancelled), progress, transferred, late, founds; }
    if chosen == [] {
      AllSent(items, chosen, turns, policy, transferred, late, founds, remote.looks, remote.puts, progress.total, progress.completed, progress.reports);
      return Ok(Summary([], 0, [])), progress, transferred, late, founds;
    }
    for i := 0 to |chosen|
      invariant fresh(progress) && progress.Valid() && progress.faults == []
      invariant Sent(items, chosen, turns, policy, i, transferred, late, founds, remote.looks, remote.puts, progress.total, progress.completed, progress.reports)
    {
      ghost var found;
      var one;
      one, found := SendNext(remote, progress, items, chosen, turns, policy, i, transferred, late, founds);
      if one.Err? { return Err(one.error), progress, transferred, late, founds; }
      if one.value { transferred := transferred + [chosen[i]]; } else { late := late + [chosen[i]]; }
      founds := founds + [found];
    }
    AllSent(items, chosen, turns, policy, transferred, late, founds, remote.looks, remote.puts, progress.total, progress.completed, progress.reports);
    cancelled := progress.MayRaise(OperationCancelled);
    if cancelled { return Err(OperationCancelled), progress, transferred, late, founds; }
    r := Ok(Summary(transferred, progress.completed, late));
  }

  /** One round of the loop: whether the item was transferred, or found there already. */
  method SendNext(
    remote: RemoteObjects, progress: Progress, ghost items: seq<Item>, chosen: seq<Item>, turns: map<Item, Turns>, policy: Policy, i: nat,
    ghost transferred: seq<Item>, ghost late: seq<Item>, ghost founds: seq<bool>)
    returns (r: Result<bool, TransferError>, ghost found: bool)
    requires i < |chosen| && progress.Valid() && progress.faults == []
    requires forall x | x in chosen :: x in items && x in turns && (policy.SkipExisting? ==> !x.existed)
    requires Sent(items, chosen, turns, policy, i, transferred, late, founds, remote.looks, remote.puts, progress.total, progress.completed, progress.reports)
    modifies remote, progress
    ensures progress.Valid() && OnlyPlanned(items, policy, remote.puts) && (AllAsPlanned(chosen, turns) ==> Within(progress.reports))
    ensures progress.faults == if r.Err? then [r.error] else []
    ensures r.Ok? ==> Sent(items, chosen, turns, policy, i + 1, if r.value then transferred + [chosen[i]] else transferred,
      if r.value then late else late + [chosen[i]], founds + [found], remote.looks, remote.puts, progress.total, progress.completed, progress.reports)
  {
    hide Sent, Tally, Within, OnlyPlanned, AllAsPlanned, Sum, Sums, Reported, Sizes, LookedFor, Founds, Keys, Fits, Bytes;
    var x := chosen[i];
    assert x in chosen;
    found := false;
    SentSoFar(items, chosen, turns, policy, i, transferred, late, founds, remote.looks, remote.puts, progress.total, progress.completed, progress.reports);
    var cancelled := progress.MayRaise(OperationCancelled);
    if cancelled { return Err(OperationCancelled), false; }
    remote.Interfere();
    ghost var looks, puts, completed, reports := remote.looks, remote.puts, progress.completed, progress.reports;
    if policy.SkipExisting? {
      var unanswered := progress.MayRaise(LookupFailed);
      if unanswered { return Err(LookupFailed), false; }
      var there := remote.Exists(x.key);
      if there {
        FoundKeeps(items, chosen, turns, policy, i, transferred, late, founds, looks, puts, progress.total, completed, reports);
        progress.total := progress.total - x.size;
        return Ok(false), true;
      }
    }
    var one := UploadFile(remote, progress, x, turns[x]);
    StillPlanned(items, policy, puts, remote.puts, x);
    SentWithin(items, chosen, turns, policy, i, transferred, late, founds, looks, puts, progress.total, completed, reports, progress.reports);
    if one.Err? { return Err(one.error), false; }
    SendKeeps(items, chosen, turns, policy, i, transferred, late, founds, looks, puts, progress.total, completed, reports, progress.completed, progress.reports);
    r := Ok(true);
  }

  /** The first n of the chosen items have been dealt with, and this is what has come of it. */
  ghost predicate Sent(
    items: seq<Item>, chosen: seq<Item>, turns: map<Item, Turns>, policy: Policy, n: nat, transferred: seq<Item>, late: seq<Item>, founds: seq<bool>,
    looks: seq<Look>, puts: seq<Key>, total: int, completed: int, reports: seq<Report>)
  {
    && n <= |chosen| && OnlyPlanned(items, policy, puts) && Tally(chosen[..n], policy, founds, transferred, late) && puts == Keys(transferred)
    && (if policy.Overwrite? then looks == [] else LookedFor(Keys(chosen[..n]), looks) && founds == Founds(looks))
    && total == Sizes(chosen) - Sizes(late)
    && (AllAsPlanned(chosen, turns) ==> Within(reports) && completed == Sizes(transferred))
  }

  lemma NothingSent(items: seq<Item>, chosen: seq<Item>, turns: map<Item, Turns>, policy: Policy)
    ensures Sent(items, chosen, turns, policy, 0, [], [], [], [], [], Sizes(chosen), 0, [Report(0, Sizes(chosen))])
  {
    hide Tally, Within, OnlyPlanned, LookedFor, Founds, Keys;
    FirstReportFits(Sizes(chosen));
    NothingPut(items, policy);
    NothingTallied(policy);
    assert chosen[..0] == [];
    NoLooks();
    NoKeys();
  }

  lemma SentSoFar(
    items: seq<Item>, chosen: seq<Item>, turns: map<Item, Turns>, policy: Policy, n: nat, transferred: seq<Item>, late: seq<Item>, founds: seq<bool>,
    looks: seq<Look>, puts: seq<Key>, total: int, completed: int, reports: seq<Report>)
    requires Sent(items, chosen, turns, policy, n, transferred, late, founds, looks, puts, total, completed, reports)
    ensures OnlyPlanned(items, policy, puts) && (AllAsPlanned(chosen, turns) ==> Within(reports))
  {
    hide Tally, Within, OnlyPlanned, LookedFor, Founds, Keys, AllAsPlanned, Sizes;
  }

  lemma AllSent(
    items: seq<Item>, chosen: seq<Item>, turns: map<Item, Turns>, policy: Policy, transferred: seq<Item>, late: seq<Item>, founds: seq<bool>,
    looks: seq<Look>, puts: seq<Key>, total: int, completed: int, reports: seq<Report>)
    requires Sent(items, chosen, turns, policy, |chosen|, transferred, late, founds, looks, puts, total, completed, reports)
    ensures OnlyPlanned(items, policy, puts) && (AllAsPlanned(chosen, turns) ==> Within(reports))
    ensures Tally(chosen, policy, founds, transferred, late) && puts == Keys(transferred)
    ensures if policy.Overwrite? then looks == [] else LookedFor(Keys(chosen), looks) && founds == Founds(looks)
    ensures AllAsPlanned(chosen, turns) ==> completed == Sizes(transferred) == total
  {
    hide Tally, Within, OnlyPlanned, LookedFor, Founds, Keys, AllAsPlanned, Sizes;
    assert chosen[..|chosen|] == chosen;
    TallySizes(chosen, policy, founds, transferred, late);
  }

  lemma FoundKeeps(
    items: seq<Item>, chosen: seq<Item>, turns: map<Item, Turns>, policy: Policy, n: nat, transferred: seq<Item>, late: seq<Item>, founds: seq<bool>,
    looks: seq<Look>, puts: seq<Key>, total: int, completed: int, reports: seq<Report>)
    requires Sent(items, chosen, turns, policy, n, transferred, late, founds, looks, puts, total, completed, reports)
    requires n < |chosen| && policy.SkipExisting?
    ensures Sent(items, chosen, turns, policy, n + 1, transferred, late + [chosen[n]], founds + [true], looks + [Look(chosen[n].key, true)], puts,
      total - chosen[n].size, completed, reports)
  {
    hide Tally, Within, OnlyPlanned, LookedFor, Founds, Keys, AllAsPlanned, Sizes;
    var x := chosen[n];
    assert chosen[..n + 1] == chosen[..n] + [x];
    OneMoreKey(chosen[..n], looks, x, true);
    OneMoreSkipped(chosen[..n], policy, founds, transferred, late, x);
    SizesSnoc(late, x);
  }

  lemma SentWithin(
    items: seq<Item>, chosen: seq<Item>, turns: map<Item, Turns>, policy: Policy, n: nat, transferred: seq<Item>, late: seq<Item>, founds: seq<bool>,
    looks: seq<Look>, puts: seq<Key>, total: int, completed: int, reports: seq<Report>, more: seq<Report>)
    requires Sent(items, chosen, turns, policy, n, transferred, late, founds, looks, puts, total, completed, reports)
    requires n < |chosen| && chosen[n] in turns
    requires Within(reports) && Fits(turns[chosen[n]], total - completed) ==> Within(more)
    ensures AllAsPlanned(chosen, turns) ==> Within(more) && Bytes(turns[chosen[n]]) == chosen[n].size
  {
    hide Tally, Within, OnlyPlanned, LookedFor, Founds, Keys, AllAsPlanned, Sizes, Fits, Bytes;
    TallySizes(chosen[..n], policy, founds, transferred, late);
    SizesOfPrefix(chosen, n);
    PlannedFits(chosen, turns, chosen[n], total - completed);
  }

  lemma SendKeeps(
    items: seq<Item>, chosen: seq<Item>, turns: map<Item, Turns>, policy: Policy, n: nat, transferred: seq<Item>, late: seq<Item>, founds: seq<bool>,
    looks: seq<Look>, puts: seq<Key>, total: int, completed: int, reports: seq<Report>, completed': int, more: seq<Report>)
    requires Sent(items, chosen, turns, policy, n, transferred, late, founds, looks, puts, total, completed, reports)
    requires n < |chosen| && chosen[n] in turns && OnlyPlanned(items, policy, puts + [chosen[n].key])
    requires completed' == completed + Bytes(turns[chosen[n]])
    requires AllAsPlanned(chosen, turns) ==> Within(more) && Bytes(turns[chosen[n]]) == chosen[n].size
    ensures Sent(items, chosen, turns, policy, n + 1, transferred + [chosen[n]], late, founds + [false],
      if policy.Overwrite? then looks else looks + [Look(chosen[n].key, false)], puts + [chosen[n].key], total, completed', more)
  {
    hide Tally, Within, OnlyPlanned, LookedFor, Founds, Keys, AllAsPlanned, Sizes, Bytes;
    var x := chosen[n];
    assert chosen[..n + 1] == chosen[..n] + [x];
    if policy.SkipExisting? { OneMoreKey(chosen[..n], looks, x, false); }
    OneMoreTransferred(chosen[..n], policy, founds, false, transferred, late, x);
    OneMorePut(puts, transferred, x);
    SizesSnoc(transferred, x);
  }

  lemma NoKeys()
    ensures Keys([]) == []
  {
  }

  lemma OneMorePut(puts: seq<Key>, transferred: seq<Item>, x: Item)
    requires puts == Keys(transferred)
    ensures puts + [x.key] == Keys(transferred + [x])
  {
  }

  lemma NothingPut(items: seq<Item>, policy: Policy)
    ensures OnlyPlanned(items, policy, [])
  {
  }

  lemma StillPlanned(items: seq<Item>, policy: Policy, before: seq<Key>, after: seq<Key>, x: Item)
    requires OnlyPlanned(items, policy, before) && x in items && (policy.SkipExisting? ==> !x.existed)
    requires after == before || after == before + [x.key]
    ensures OnlyPlanned(items, policy, after)
  {
  }
}
