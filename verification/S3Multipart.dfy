/** `Boto3S3Gateway.multipart_file`: one file in numbered parts, and the cleanup of a failed upload. */
module S3Multipart {
  import opened Wrappers

  type Bytes = seq<bv8>

  const MIN_PART: nat := 5 * 1024 * 1024
  const MAX_PARTS: nat := 10_000    // the service accepts part numbers up to this

  /** What a call, an observer or the user raises: all but the last kind are caught. */
  datatype Fault = Exceptional | CancelAsked | Interrupted | Escaping

  /** Where the code is when something raises; parts count from 0. */
  datatype Place = Creating | Opening | Checking(k: nat) | Reading(k: nat) | Storing(k: nat) | Reporting(k: nat) | Completing

  datatype Thrown = Thrown(place: Place, fault: Fault)

  datatype TransferError =
    | InvalidBounds
    | Cancelled(action: Action, abortFailed: bool)
    | TransferFailed(action: Action, abortFailed: bool)
    | Escaped                  // a BaseException that is neither an Exception nor a KeyboardInterrupt

  datatype Action = Create | UploadPart | Complete

  /** The action an error names: the last one begun, and reading a part belongs to the one before. */
  function ActionAt(place: Place): Action {
    match place
    case Creating => Create
    case Opening => Create
    case Checking(k) => if k == 0 then Create else UploadPart
    case Reading(k) => if k == 0 then Create else UploadPart
    case Storing(_) => UploadPart
    case Reporting(_) => UploadPart
    case Completing => Complete
  }

  /** `math.ceil(size / part_size)` */
  function PartCount(size: nat, partSize: nat): (n: nat)
    requires partSize > 0
    ensures size <= n * partSize && (n > 0 ==> (n - 1) * partSize < size)
  {
    if size == 0 then 0 else (size - 1) / partSize + 1
  }

  /** Where the file is after n parts. */
  function Cut(size: nat, partSize: nat, n: nat): (c: nat)
    ensures c <= size
  {
    if n * partSize < size then n * partSize else size
  }

  lemma CutSteps(size: nat, partSize: nat, n: nat)
    ensures Cut(size, partSize, 0) == 0
    ensures Cut(size, partSize, n) <= Cut(size, partSize, n + 1)
    ensures Cut(size, partSize, n + 1) == if Cut(size, partSize, n) + partSize < size then Cut(size, partSize, n) + partSize else size
  {
    OneTimesMore(n, partSize);
  }

  lemma CutEnds(size: nat, partSize: nat)
    requires partSize > 0
    ensures Cut(size, partSize, PartCount(size, partSize)) == size
  {
  }

  /** Part number k + 1. */
  function Part(content: Bytes, partSize: nat, k: nat): Bytes {
    CutSteps(|content|, partSize, k);
    content[Cut(|content|, partSize, k)..Cut(|content|, partSize, k + 1)]
  }

  /** An upload the service has started, as it sees it. */
  class Upload {
    var created: bool
    var parts: map<nat, Bytes>
    var assembled: Option<Bytes>
    var aborts: nat
    var reported: nat    // sum of the progress reports
    ghost var faults: seq<Thrown>   // what has been raised
    ghost var failedAborts: nat

    constructor ()
      ensures !created && parts == map[] && assembled == None && aborts == 0 && reported == 0 && faults == [] && failedAborts == 0
    {
      created, parts, assembled, aborts, reported, faults, failedAborts := false, map[], None, 0, 0, [], 0;
    }

    /** Something that may raise. */
    method MayRaise(place: Place) returns (fault: Option<Fault>)
      modifies this`faults
      ensures faults == old(faults) + if fault.Some? then [Thrown(place, fault.value)] else []
    {
      fault := *;
      if fault.Some? { faults := faults + [Thrown(place, fault.value)]; }
    }

    /** `cancelled()` */
    method IsCancelled(k: nat) returns (cancelled: bool)
      modifies this`faults
      ensures faults == old(faults) + if cancelled then [Thrown(Checking(k), CancelAsked)] else []
    {
      cancelled := *;
      if cancelled { faults := faults + [Thrown(Checking(k), CancelAsked)]; }
    }

    /** UploadPart: the service takes part numbers up to MAX_PARTS. */
    method Store(number: nat, body: Bytes) returns (fault: Option<Fault>)
      requires number > 0
      modifies this`faults, this`parts
      ensures faults == old(faults) + if fault.Some? then [Thrown(Storing(number - 1), fault.value)] else []
      ensures number > MAX_PARTS ==> fault.Some?
      ensures parts == if fault.Some? then old(parts) else old(parts)[number := body]
    {
      fault := *;
      if number > MAX_PARTS && !fault.Some? { fault := Some(Exceptional); }
      if fault.Some? { faults := faults + [Thrown(Storing(number - 1), fault.value)]; } else { parts := parts[number := body]; }
    }

    method Abort() returns (failed: bool)
      modifies this`aborts, this`failedAborts
      ensures aborts == old(aborts) + 1 && failedAborts == old(failedAborts) + if failed then 1 else 0
    {
      failed := *;
      aborts, failedAborts := aborts + 1, failedAborts + if failed then 1 else 0;
    }
  }

  /** How a fault of this kind is raised to the caller, before the upload is aborted. */
  function Translated(fault: Fault, action: Action): TransferError {
    match fault
    case Exceptional => TransferFailed(action, false)
    case CancelAsked => Cancelled(action, false)
    case Interrupted => Cancelled(action, false)
    case Escaping => Escaped
  }

  /** The error speaks of what was raised: its kind, where the upload then was, and whether the abort failed. */
  ghost predicate Tells(error: TransferError, x: Thrown, abortFailed: bool) {
    && (error.Escaped? <==> x.fault.Escaping?)
    && (error.Cancelled? <==> x.fault in {CancelAsked, Interrupted})
    && (error.TransferFailed? <==> x.fault.Exceptional?)
    && (!error.Escaped? ==> error.action == ActionAt(x.place) && error.abortFailed == abortFailed)
  }

  /** The one thing that was raised is what this error tells. */
  ghost predicate Told(error: TransferError, faults: seq<Thrown>, abortFailed: bool) {
    |faults| == 1 && Tells(error, faults[0], abortFailed)
  }

  /** Parts 1 to n in order, one after the other. */
  function Assembled(parts: map<nat, Bytes>, n: nat): Bytes
    requires forall k | 1 <= k <= n :: k in parts
  {
    if n == 0 then [] else Assembled(parts, n - 1) + parts[n]
  }

  /** The parts stored so far are the first n of the file. */
  ghost predicate FirstParts(parts: map<nat, Bytes>, content: Bytes, partSize: nat, n: nat) {
    && (forall k :: k in parts <==> 1 <= k <= n)
    && forall k | 1 <= k <= n :: parts[k] == Part(content, partSize, k - 1)
  }

  lemma {:induction false} FirstPartsAssemble(parts: map<nat, Bytes>, content: Bytes, partSize: nat, n: nat)
    requires forall k | 1 <= k <= n :: k in parts && parts[k] == Part(content, partSize, k - 1)
    ensures Assembled(parts, n) == content[..Cut(|content|, partSize, n)]
    decreases n
  {
    if n > 0 {
      FirstPartsAssemble(parts, content, partSize, n - 1);
      CutSteps(|content|, partSize, n - 1);
      var from, to := Cut(|content|, partSize, n - 1), Cut(|content|, partSize, n);
      assert content[..from] + content[from..to] == content[..to];
    }
  }

  lemma TimesGrows(a: nat, b: nat, p: nat)
    requires a <= b
    ensures a * p <= b * p
  {
  }

  lemma OneTimesMore(a: nat, p: nat)
    ensures (a + 1) * p == a * p + p
  {
  }

  /** All parts but the last are full, the last is not empty. */
  lemma PartSizes(content: Bytes, partSize: nat, k: nat)
    requires partSize > 0 && k < PartCount(|content|, partSize)
    ensures 0 < |Part(content, partSize, k)| <= partSize
    ensures k + 1 < PartCount(|content|, partSize) ==> |Part(content, partSize, k)| == partSize
  {
    var n := PartCount(|content|, partSize);
    hide PartCount;
    TimesGrows(k, n - 1, partSize);
    OneTimesMore(k, partSize);
    if k + 1 < n { TimesGrows(k + 1, n - 1, partSize); }
  }

  /** A file takes at most MAX_PARTS parts exactly if it is no longer than MAX_PARTS full parts. */
  lemma PartNumbersWithinLimit(size: nat, partSize: nat)
    requires partSize > 0
    ensures PartCount(size, partSize) <= MAX_PARTS <==> size <= MAX_PARTS * partSize
  {
    var n, limit := PartCount(size, partSize), MAX_PARTS;
    hide PartCount;
    if n <= limit { TimesGrows(n, limit, partSize); } else { TimesGrows(limit, n - 1, partSize); }
  }

  /** With the application's parts of 8 MiB the first file size that cannot be uploaded is this one. */
  lemma FirstSizeTooLarge()
    ensures PartCount(83_886_080_001, 8 * 1024 * 1024) == MAX_PARTS + 1
    ensures PartCount(83_886_080_000, 8 * 1024 * 1024) == MAX_PARTS
  {
  }

  /**
    On success the assembled object is the file, which then needs no more parts than the service takes, and
    the progress adds up to its size.  It fails exactly if something is raised, and the error tells what it was;
    a file of too many parts always fails.  A failure after the upload was created attempts exactly one abort
    unless what was raised escapes every handler; one before it attempts none.
   */
  method MultipartFile(upload: Upload, content: Bytes, partSize: nat, concurrency: int) returns (r: Result<(), TransferError>)
    requires !upload.created && upload.parts == map[] && upload.assembled.None? && upload.aborts == 0
    requires upload.reported == 0 && upload.faults == [] && upload.failedAborts == 0
    modifies upload
    ensures r == Err(InvalidBounds) <==> partSize < 5 * 1024 * 1024 || !(1 <= concurrency <= 8)
    ensures r == Err(InvalidBounds) ==> !upload.created
    ensures r.Ok? ==> upload.assembled == Some(content) && upload.aborts == 0 && upload.reported == |content|
    ensures r.Ok? ==> partSize > 0 && FirstParts(upload.parts, content, partSize, PartCount(|content|, partSize))
    ensures r.Ok? ==> |content| <= MAX_PARTS * partSize && upload.faults == []
    ensures r.Err? && r.error != InvalidBounds ==> Told(r.error, upload.faults, upload.failedAborts > 0)
    ensures r.Err? && r.error != InvalidBounds ==> (upload.created <==> upload.faults[0].place != Creating)
    ensures upload.aborts == if r.Err? && upload.created && r.error != Escaped then 1 else 0
    ensures upload.reported <= |content|
  {
    hide FirstParts, PartCount;
    if partSize < MIN_PART || !(1 <= concurrency <= 8) { return Err(InvalidBounds); }
    PartNumbersWithinLimit(|content|, partSize);
    var fault := upload.MayRaise(Creating);
    if fault.Some? { return Err(Translated(fault.value, Create)); }
    upload.created := true;
    var sent := SendParts(upload, content, partSize);
    if sent.Ok? || sent.error.Escaped? { return sent; }
    var abortFailed := upload.Abort();
    r := Err(sent.error.(abortFailed := abortFailed));
  }

  /** `raw.read(n)` */
  method Read(content: Bytes, position: nat, n: nat) returns (body: Bytes)
    requires position <= |content|
    ensures body == content[position..if position + n < |content| then position + n else |content|]
  {
    body := content[position..if position + n < |content| then position + n else |content|];
  }

  /** One round of the part loop. */
  method SendPart(upload: Upload, content: Bytes, partSize: nat, k: nat, before: Action) returns (r: Result<(), TransferError>)
    requires FirstParts(upload.parts, content, partSize, k) && upload.reported == Cut(|content|, partSize, k)
    requires upload.faults == [] && before == if k == 0 then Create else UploadPart
    modifies upload`parts, upload`reported, upload`faults
    ensures r.Ok? ==> FirstParts(upload.parts, content, partSize, k + 1) && k < MAX_PARTS && upload.faults == []
    ensures upload.reported <= Cut(|content|, partSize, k + 1)
    ensures r.Ok? ==> upload.reported == Cut(|content|, partSize, k + 1)
    ensures r.Err? ==> r.error != InvalidBounds && Told(r.error, upload.faults, false) && upload.faults[0].place != Creating
  {
    CutSteps(|content|, partSize, k);
    var cancelled := upload.IsCancelled(k);
    if cancelled { return Err(Cancelled(before, false)); }
    var fault := upload.MayRaise(Reading(k));
    if fault.Some? { return Err(Translated(fault.value, before)); }
    var body := Read(content, upload.reported, partSize);
    assert body == Part(content, partSize, k);
    fault := upload.Store(k + 1, body);
    if fault.Some? { return Err(Translated(fault.value, UploadPart)); }
    upload.reported := upload.reported + |body|;
    fault := upload.MayRaise(Reporting(k));    // the progress observer
    if fault.Some? { return Err(Translated(fault.value, UploadPart)); }
    r := Ok(());
  }

  /** The guarded region between creation and completion. */
  method SendParts(upload: Upload, content: Bytes, partSize: nat) returns (r: Result<(), TransferError>)
    requires partSize >= MIN_PART && upload.parts == map[] && upload.reported == 0 && upload.faults == []
    modifies upload`parts, upload`assembled, upload`reported, upload`faults
    ensures r.Err? ==> r.error != InvalidBounds && Told(r.error, upload.faults, false) && upload.faults[0].place != Creating
    ensures r.Ok? ==> upload.assembled == Some(content) && upload.reported == |content| && upload.faults == []
    ensures r.Ok? ==> FirstParts(upload.parts, content, partSize, PartCount(|content|, partSize))
    ensures r.Ok? ==> PartCount(|content|, partSize) <= MAX_PARTS
    ensures upload.reported <= |content|
  {
    hide Part;
    var action := Create;
    var fault := upload.MayRaise(Opening);
    if fault.Some? { return Err(Translated(fault.value, action)); }
    var count := PartCount(|content|, partSize);
    for k := 0 to count
      invariant FirstParts(upload.parts, content, partSize, k) && upload.reported == Cut(|content|, partSize, k)
      invariant upload.faults == [] && k <= MAX_PARTS
      invariant action == if k == 0 then Create else UploadPart
    {
      var sent := SendPart(upload, content, partSize, k, action);
      if sent.Err? { return sent; }
      action := UploadPart;
    }
    var cancelled := upload.IsCancelled(count);
    if cancelled { return Err(Cancelled(action, false)); }
    FirstPartsAssemble(upload.parts, content, partSize, count);
    CutEnds(|content|, partSize);
    assert Assembled(upload.parts, count) == content;
    fault := upload.MayRaise(Completing);
    var carriedOut: bool := *;    // the answer of a failed request may have been lost
    if fault.None? || carriedOut { upload.assembled := Some(Assembled(upload.parts, count)); }
    if fault.Some? { return Err(Translated(fault.value, Complete)); }
    r := Ok(());
  }
}
