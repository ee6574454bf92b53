/**
  Renaming an S3 object with three conditional requests, while other writers use the bucket and any answer
  may get lost.  What the others write and how every transmission fares is a schedule; what the requests
  leave behind is a function of the schedule, and the gateway is proved against it.
 */
module S3Rename {
  import opened Wrappers
  import opened Texts

  type Key = string
  type Tag = nat       // an entity tag, section 8.8.3 of RFC 9110
  type Body = seq<bv8>

  /** One revision of an object. */
  datatype Object = Object(tag: Tag, body: Body)

  type Objects = map<Key, Object>

  const COPY_LIMIT: nat := 5 * 1024 * 1024 * 1024

  datatype Write = Store(key: Key, revision: Object) | Remove(key: Key)

  /** One transmission: what others wrote before it, whether it arrives and is answered, and the tag of a copy it makes. */
  datatype Attempt = Attempt(others: seq<Write>, arrives: bool, answered: bool, conflicts: bool, newTag: Tag)

  datatype Answer = Accepted | PreconditionFailed | NotFound | Failed

  /** One change this client made: which revision of an object went away, and which took its place. */
  datatype Effect = Effect(key: Key, before: Option<Object>, after: Option<Object>)

  /** What a request with its retries came to. */
  datatype Outcome = Outcome(answer: Answer, objects: Objects, effects: seq<Effect>)

  function At(objects: Objects, key: Key): Option<Object> {
    if key in objects then Some(objects[key]) else None
  }

  /** If-Match */
  predicate Matches(objects: Objects, key: Key, seen: Tag) {
    key in objects && objects[key].tag == seen
  }

  function Written(objects: Objects, w: Write): Objects {
    match w
    case Store(k, revision) => objects[k := revision]
    case Remove(k) => objects - {k}
  }

  function AllWritten(objects: Objects, writes: seq<Write>): Objects
    decreases |writes|
  {
    if writes == [] then objects else AllWritten(Written(objects, writes[0]), writes[1..])
  }

  // ---- the two conditional requests ----------------------------------------------------------------

  datatype Request =
    | Copy(key: Key, target: Key, seen: Tag)   // If-Match on the source, If-None-Match: * on the target
    | Delete(key: Key, seen: Tag)              // If-Match

  /** The preconditions of sections 13.1.1 and 13.1.2 of RFC 9110. */
  predicate Allowed(q: Request, objects: Objects) {
    match q
    case Copy(key, target, seen) => Matches(objects, key, seen) && target !in objects
    case Delete(key, seen) => Matches(objects, key, seen)
  }

  function Place(q: Request): Key {
    if q.Copy? then q.target else q.key
  }

  /** What takes the place: a copy has the body that the source has when the copy is carried out. */
  function Replacement(q: Request, objects: Objects, newTag: Tag): Option<Object> {
    if q.Copy? && q.key in objects then Some(Object(newTag, objects[q.key].body)) else None
  }

  function Carried(q: Request, objects: Objects, newTag: Tag): Objects {
    var after := Replacement(q, objects, newTag);
    if after.Some? then objects[Place(q) := after.value] else objects - {Place(q)}
  }

  function EffectOf(q: Request, objects: Objects, newTag: Tag): Effect {
    Effect(Place(q), At(objects, Place(q)), Replacement(q, objects, newTag))
  }

  /** How a transmission is answered: a conflict as a failed precondition, a source that is gone as not found. */
  function AnswerOf(q: Request, objects: Objects, a: Attempt): Answer {
    if Hits(q, objects, a) then Accepted
    else if a.conflicts || q.key in objects then PreconditionFailed
    else NotFound
  }

  /** The transmission is carried out: it arrives, nothing conflicts, and its preconditions hold. */
  predicate Hits(q: Request, objects: Objects, a: Attempt) {
    a.arrives && !a.conflicts && Allowed(q, objects)
  }

  /** Sending a request until it is answered or the client gives up. */
  function Sent(q: Request, objects: Objects, schedule: seq<Attempt>): Outcome
    decreases |schedule|
  {
    if schedule == [] then Outcome(Failed, objects, [])
    else
      var a := schedule[0];
      var now := AllWritten(objects, a.others);
      var hit := Hits(q, now, a);
      var next := if hit then Carried(q, now, a.newTag) else now;
      var mine := if hit then [EffectOf(q, now, a.newTag)] else [];
      if a.arrives && a.answered then Outcome(AnswerOf(q, now, a), next, mine)
      else
        var rest := Sent(q, next, schedule[1..]);
        rest.(effects := mine + rest.effects)
  }

  /** The transmissions that are made: up to the first that is answered. */
  function Made(schedule: seq<Attempt>): (n: nat)
    ensures n <= |schedule|
  {
    if schedule == [] then 0 else if schedule[0].arrives && schedule[0].answered then 1 else 1 + Made(schedule[1..])
  }

  /** The bucket in front of transmission i if only the others had written. */
  function OthersOnly(objects: Objects, schedule: seq<Attempt>, i: nat): Objects
    requires i < |schedule|
    decreases i
  {
    var now := AllWritten(objects, schedule[0].others);
    if i == 0 then now else OthersOnly(now, schedule[1..], i - 1)
  }

  /** Some transmission made by the client finds its preconditions met by what the others alone have written. */
  predicate SomeHit(q: Request, objects: Objects, schedule: seq<Attempt>) {
    exists i | 0 <= i < Made(schedule) :: Hits(q, OthersOnly(objects, schedule, i), schedule[i])
  }

  lemma FirstOrLater(q: Request, objects: Objects, schedule: seq<Attempt>)
    requires schedule != [] && !(schedule[0].arrives && schedule[0].answered)
    ensures var now := AllWritten(objects, schedule[0].others);
      SomeHit(q, objects, schedule) <==> Hits(q, now, schedule[0]) || SomeHit(q, now, schedule[1..])
  {
    var now := AllWritten(objects, schedule[0].others);
    if SomeHit(q, objects, schedule) {
      var i :| 0 <= i < Made(schedule) && Hits(q, OthersOnly(objects, schedule, i), schedule[i]);
      if i > 0 { assert Hits(q, OthersOnly(now, schedule[1..], i - 1), schedule[1..][i - 1]); }
    }
    if Hits(q, now, schedule[0]) { assert Hits(q, OthersOnly(objects, schedule, 0), schedule[0]); }
    if SomeHit(q, now, schedule[1..]) {
      var i :| 0 <= i < Made(schedule[1..]) && Hits(q, OthersOnly(now, schedule[1..], i), schedule[1..][i]);
      assert Hits(q, OthersOnly(objects, schedule, i + 1), schedule[i + 1]);
    }
  }

  /**
    A request changes something exactly if one of its transmissions arrives, without conflict, at a bucket in
    which the others have left its preconditions true.  That says nothing yet about its answer.
   */
  lemma {:induction false} EffectsIffHit(q: Request, objects: Objects, schedule: seq<Attempt>)
    ensures Sent(q, objects, schedule).effects != [] <==> SomeHit(q, objects, schedule)
    decreases |schedule|
  {
    if schedule != [] {
      var now := AllWritten(objects, schedule[0].others);
      if schedule[0].arrives && schedule[0].answered {
        if Hits(q, now, schedule[0]) { assert Hits(q, OthersOnly(objects, schedule, 0), schedule[0]); }
      } else {
        FirstOrLater(q, objects, schedule);
        if !Hits(q, now, schedule[0]) { EffectsIffHit(q, now, schedule[1..]); }
      }
    }
  }

  // ---- what the answer says ------------------------------------------------------------------------

  /** Some transmission is answered. */
  predicate IsAnswered(schedule: seq<Attempt>) {
    exists i | 0 <= i < |schedule| :: schedule[i].arrives && schedule[i].answered
  }

  /** The bucket in front of transmission i, with what the others and the earlier transmissions have done. */
  function InFrontOf(q: Request, objects: Objects, schedule: seq<Attempt>, i: nat): Objects
    requires i < |schedule|
    decreases i
  {
    var now := AllWritten(objects, schedule[0].others);
    if i == 0 then now
    else InFrontOf(q, if Hits(q, now, schedule[0]) then Carried(q, now, schedule[0].newTag) else now, schedule[1..], i - 1)
  }

  /** The transmission that is answered is carried out. */
  predicate LastHits(q: Request, objects: Objects, schedule: seq<Attempt>) {
    IsAnswered(schedule) && Made(schedule) > 0 &&
    var i := Made(schedule) - 1; Hits(q, InFrontOf(q, objects, schedule, i), schedule[i])
  }

  /** The transmission that is answered is refused: it conflicts, or the source is there and a condition does not hold. */
  predicate LastRefused(q: Request, objects: Objects, schedule: seq<Attempt>) {
    IsAnswered(schedule) && Made(schedule) > 0 &&
    var i := Made(schedule) - 1;
    var now := InFrontOf(q, objects, schedule, i);
    !Hits(q, now, schedule[i]) && (schedule[i].conflicts || q.key in now)
  }

  lemma AnsweredLater(schedule: seq<Attempt>)
    requires schedule != [] && !(schedule[0].arrives && schedule[0].answered)
    ensures IsAnswered(schedule) <==> IsAnswered(schedule[1..])
  {
    if IsAnswered(schedule) {
      var i :| 0 <= i < |schedule| && schedule[i].arrives && schedule[i].answered;
      assert schedule[1..][i - 1] == schedule[i];
    }
    if IsAnswered(schedule[1..]) {
      var i :| 0 <= i < |schedule[1..]| && schedule[1..][i].arrives && schedule[1..][i].answered;
      assert schedule[i + 1] == schedule[1..][i];
    }
  }

  /** A request fails without an answer exactly if no transmission is answered; otherwise the answered one decides. */
  lemma {:induction false} TheAnsweredOneDecides(q: Request, objects: Objects, schedule: seq<Attempt>)
    ensures var answer := Sent(q, objects, schedule).answer;
      && (answer.Failed? <==> !IsAnswered(schedule))
      && (answer.Accepted? <==> LastHits(q, objects, schedule))
      && (answer.PreconditionFailed? <==> LastRefused(q, objects, schedule))
      && (IsAnswered(schedule) ==> Made(schedule) > 0)
    decreases |schedule|
  {
    hide Hits, Carried, AllWritten, EffectOf;
    if schedule != [] {
      var now := AllWritten(objects, schedule[0].others);
      if schedule[0].arrives && schedule[0].answered {
        assert IsAnswered(schedule);
        HitsIsNoConflict(q, now, schedule[0]);
      } else {
        var next := if Hits(q, now, schedule[0]) then Carried(q, now, schedule[0].newTag) else now;
        TheAnsweredOneDecides(q, next, schedule[1..]);
        AnsweredLater(schedule);
        if IsAnswered(schedule[1..]) { assert schedule[1..][Made(schedule[1..]) - 1] == schedule[Made(schedule) - 1]; }
      }
    }
  }

  lemma HitsIsNoConflict(q: Request, objects: Objects, a: Attempt)
    ensures Hits(q, objects, a) ==> !a.conflicts && q.key in objects
  {
  }

  /** Every change is a copy to where nothing was, or the removal of the revision named. */
  predicate IsEffectOf(q: Request, e: Effect) {
    e.key == Place(q) && if q.Copy? then e.before.None? && e.after.Some? else e.before.Some? && e.before.value.tag == q.seen && e.after.None?
  }

  lemma {:induction false} EffectsAreConditional(q: Request, objects: Objects, schedule: seq<Attempt>)
    ensures forall e | e in Sent(q, objects, schedule).effects :: IsEffectOf(q, e)
    ensures Sent(q, objects, schedule).answer.Accepted? ==> Sent(q, objects, schedule).effects != []
    decreases |schedule|
  {
    if schedule != [] {
      var now := AllWritten(objects, schedule[0].others);
      var next := if Hits(q, now, schedule[0]) then Carried(q, now, schedule[0].newTag) else now;
      if !(schedule[0].arrives && schedule[0].answered) { EffectsAreConditional(q, next, schedule[1..]); }
    }
  }

  // ---- which bytes a copy stores ---------------------------------------------------------------------

  function Stored(writes: seq<Write>): set<Object> {
    set w | w in writes && w.Store? :: w.revision
  }

  function StoredBetween(schedule: seq<Attempt>): set<Object> {
    if schedule == [] then {} else Stored(schedule[0].others) + StoredBetween(schedule[1..])
  }

  /** Equal entity tags mean equal bodies (section 8.8.3 of RFC 9110). */
  predicate TagsNameBodies(revisions: set<Object>) {
    forall x, y | x in revisions && y in revisions :: x.tag == y.tag ==> x.body == y.body
  }

  /** Everywhere but at the target there are only revisions that the others have stored. */
  predicate ComeFrom(objects: Objects, target: Key, revisions: set<Object>) {
    forall k | k in objects && k != target :: objects[k] in revisions
  }

  lemma {:induction false} WritesComeFrom(objects: Objects, writes: seq<Write>, target: Key, revisions: set<Object>)
    requires ComeFrom(objects, target, revisions) && Stored(writes) <= revisions
    ensures ComeFrom(AllWritten(objects, writes), target, revisions)
    decreases |writes|
  {
    if writes != [] {
      assert forall w | w in writes[1..] :: w in writes;
      if writes[0].Store? { assert writes[0].revision in Stored(writes); }
      WritesComeFrom(Written(objects, writes[0]), writes[1..], target, revisions);
    }
  }

  /** A copy sent with If-Match stores the body that was seen, whatever the others write and whenever it is carried out. */
  lemma {:induction false} CopiesStoreTheBody(q: Request, objects: Objects, schedule: seq<Attempt>, seen: Object, revisions: set<Object>)
    requires q.Copy? && q.target != q.key && q.seen == seen.tag && seen in revisions
    requires TagsNameBodies(revisions) && ComeFrom(objects, q.target, revisions) && StoredBetween(schedule) <= revisions
    ensures forall e | e in Sent(q, objects, schedule).effects :: e.after.Some? && e.after.value.body == seen.body
    ensures ComeFrom(Sent(q, objects, schedule).objects, q.target, revisions)
    decreases |schedule|
  {
    if schedule != [] {
      var now := AllWritten(objects, schedule[0].others);
      WritesComeFrom(objects, schedule[0].others, q.target, revisions);
      var next := if Hits(q, now, schedule[0]) then Carried(q, now, schedule[0].newTag) else now;
      if !(schedule[0].arrives && schedule[0].answered) { CopiesStoreTheBody(q, next, schedule[1..], seen, revisions); }
    }
  }

  /** A delete sent with If-Match removes the body that was seen. */
  lemma {:induction false} DeletesRemoveTheBody(q: Request, target: Key, objects: Objects, schedule: seq<Attempt>, seen: Object, revisions: set<Object>)
    requires q.Delete? && target != q.key && q.seen == seen.tag && seen in revisions
    requires TagsNameBodies(revisions) && ComeFrom(objects, target, revisions) && StoredBetween(schedule) <= revisions
    ensures forall e | e in Sent(q, objects, schedule).effects :: e.before.Some? && e.before.value.body == seen.body
    decreases |schedule|
  {
    if schedule != [] {
      var now := AllWritten(objects, schedule[0].others);
      WritesComeFrom(objects, schedule[0].others, target, revisions);
      var next := if Hits(q, now, schedule[0]) then Carried(q, now, schedule[0].newTag) else now;
      if !(schedule[0].arrives && schedule[0].answered) { DeletesRemoveTheBody(q, target, next, schedule[1..], seen, revisions); }
    }
  }

  /** Nothing can be copied onto its own source. */
  lemma {:induction false} NoCopyOntoItself(q: Request, objects: Objects, schedule: seq<Attempt>)
    requires q.Copy? && q.target == q.key
    ensures Sent(q, objects, schedule).effects == [] && !Sent(q, objects, schedule).answer.Accepted?
    decreases |schedule|
  {
    if schedule != [] && !(schedule[0].arrives && schedule[0].answered) {
      NoCopyOntoItself(q, AllWritten(objects, schedule[0].others), schedule[1..]);
    }
  }

  // ---- the rename ------------------------------------------------------------------------------------

  datatype RenameError =
    | HeadFailed
    | TooLarge            // s3.rename.too_large
    | Changed             // s3.rename.changed
    | CopyFailed
    | Partial             // s3.rename.partial
    | InvalidName         // s3.rename.invalid
    | TargetExists        // s3.rename.exists
    | LookupFailed

  /** What the others write before the head request, whether that is answered, and how the two others fare. */
  datatype Schedule = Schedule(others: seq<Write>, headAnswered: bool, copy: seq<Attempt>, delete: seq<Attempt>)

  /** What a rename leaves behind, and what it did. */
  datatype Rename = Rename(error: Option<RenameError>, objects: Objects, copies: seq<Effect>, deletes: seq<Effect>)

  function Renamed(objects: Objects, key: Key, target: Key, schedule: Schedule): Rename {
    var seen := AllWritten(objects, schedule.others);
    if !schedule.headAnswered || key !in seen then Rename(Some(HeadFailed), seen, [], [])
    else if |seen[key].body| > COPY_LIMIT then Rename(Some(TooLarge), seen, [], [])
    else
      var copied := Sent(Copy(key, target, seen[key].tag), seen, schedule.copy);
      if !copied.answer.Accepted? then
        Rename(Some(if copied.answer.PreconditionFailed? then Changed else CopyFailed), copied.objects, copied.effects, [])
      else
        var deleted := Sent(Delete(key, seen[key].tag), copied.objects, schedule.delete);
        Rename(if deleted.answer.Accepted? then None else Some(Partial), deleted.objects, copied.effects, deleted.effects)
  }

  /** Every revision that the others have in the bucket or store in it. */
  function Revisions(objects: Objects, schedule: Schedule): set<Object> {
    objects.Values + Stored(schedule.others) + StoredBetween(schedule.copy) + StoredBetween(schedule.delete)
  }

  /**
    With any other writers and any lost answers: the target is only ever created where there was nothing, the
    source loses only a revision with the entity tag that was seen, and only after its copy; success means both
    happened.  If equal tags mean equal bodies, all copies have the body that was seen, and a removed revision
    has its bytes at the target.
   */
  lemma RenameIsSafe(objects: Objects, key: Key, target: Key, schedule: Schedule)
    ensures var r := Renamed(objects, key, target, schedule);
      var seen := At(AllWritten(objects, schedule.others), key);
      && (forall e | e in r.copies :: e.key == target && e.before.None? && e.after.Some? && seen.Some?)
      && (r.deletes != [] ==> r.copies != [] && (r.error.None? || r.error == Some(Partial)))
      && (forall e | e in r.deletes ::
            e.key == key && e.before.Some? && e.after.None? && seen.Some? && e.before.value.tag == seen.value.tag)
      && (r.error.None? ==> r.copies != [] && r.deletes != [])
      && (r.error == Some(Partial) ==> r.copies != [])
      && (r.error in {Some(HeadFailed), Some(TooLarge)} ==> r.copies == [] && r.deletes == [])
      && r.error !in {Some(InvalidName), Some(TargetExists), Some(LookupFailed)}
    ensures TagsNameBodies(Revisions(objects, schedule)) ==> BytesKept(Renamed(objects, key, target, schedule), target)
  {
    var seen := AllWritten(objects, schedule.others);
    if key in seen {
      var copied := Sent(Copy(key, target, seen[key].tag), seen, schedule.copy);
      EffectsAreConditional(Copy(key, target, seen[key].tag), seen, schedule.copy);
      EffectsAreConditional(Delete(key, seen[key].tag), copied.objects, schedule.delete);
      if TagsNameBodies(Revisions(objects, schedule)) { BytesAreKept(objects, key, target, schedule); }
    }
  }

  /**
    Which of its endings a rename has, by what happens to its requests: it succeeds exactly if the head is
    answered, the source is there and not too large, and the transmissions of the copy and of the delete that
    are answered are carried out; and each error has its own condition.
   */
  lemma HowARenameEnds(objects: Objects, key: Key, target: Key, schedule: Schedule)
    ensures var error := Renamed(objects, key, target, schedule).error;
      var seen := AllWritten(objects, schedule.others);
      var headOk := schedule.headAnswered && key in seen;
      && (error == Some(HeadFailed) <==> !headOk)
      && (error == Some(TooLarge) <==> headOk && |seen[key].body| > 5 * 1024 * 1024 * 1024)
      && (headOk && |seen[key].body| <= 5 * 1024 * 1024 * 1024 ==>
            var copy, delete := Copy(key, target, seen[key].tag), Delete(key, seen[key].tag);
            var copied := LastHits(copy, seen, schedule.copy);
            var deleted := LastHits(delete, Sent(copy, seen, schedule.copy).objects, schedule.delete);
            && (error.None? <==> copied && deleted)
            && (error == Some(Partial) <==> copied && !deleted)
            && (error == Some(Changed) <==> LastRefused(copy, seen, schedule.copy))
            && (error == Some(CopyFailed) <==> !copied && !LastRefused(copy, seen, schedule.copy)))
  {
    hide LastHits, LastRefused, Sent;
    var seen := AllWritten(objects, schedule.others);
    if key in seen {
      var copy, delete := Copy(key, target, seen[key].tag), Delete(key, seen[key].tag);
      TheAnsweredOneDecides(copy, seen, schedule.copy);
      TheAnsweredOneDecides(delete, Sent(copy, seen, schedule.copy).objects, schedule.delete);
    }
  }

  /** With nobody else writing and every request answered, the object moves: same bytes, new name, nothing else changes. */
  lemma UndisturbedRenameMoves(objects: Objects, key: Key, target: Key, tag: Tag)
    requires key in objects && target !in objects && |objects[key].body| <= COPY_LIMIT
    ensures var once := [Attempt([], true, true, false, tag)];
      var r := Renamed(objects, key, target, Schedule([], true, once, once));
      r.error.None? && r.objects == (objects - {key})[target := Object(tag, objects[key].body)]
  {
    var a := Attempt([], true, true, false, tag);
    assert AllWritten(objects, []) == objects;
    var both := objects[target := Object(tag, objects[key].body)];
    assert AllWritten(both, []) == both;
    assert Sent(Copy(key, target, objects[key].tag), objects, [a]).objects == both;
    assert Sent(Delete(key, objects[key].tag), both, [a]).objects == both - {key};
    assert both - {key} == (objects - {key})[target := Object(tag, objects[key].body)];
  }

  /** Every revision that was removed has its bytes at the target, stored there by one of the copies. */
  ghost predicate BytesKept(r: Rename, target: Key) {
    forall e | e in r.deletes :: e.before.Some? && exists c | c in r.copies ::
      c.key == target && c.after.Some? && c.after.value.body == e.before.value.body
  }

  lemma BytesAreKept(objects: Objects, key: Key, target: Key, schedule: Schedule)
    requires TagsNameBodies(Revisions(objects, schedule)) && key in AllWritten(objects, schedule.others)
    ensures BytesKept(Renamed(objects, key, target, schedule), target)
  {
    var revisions := Revisions(objects, schedule);
    var seen := AllWritten(objects, schedule.others);
    var q := Copy(key, target, seen[key].tag);
    var copied := Sent(q, seen, schedule.copy);
    EffectsAreConditional(q, seen, schedule.copy);
    if target == key {
      NoCopyOntoItself(q, seen, schedule.copy);
    } else {
      WritesComeFrom(objects, schedule.others, target, revisions);
      CopiesStoreTheBody(q, seen, schedule.copy, seen[key], revisions);
      DeletesRemoveTheBody(Delete(key, seen[key].tag), target, copied.objects, schedule.delete, seen[key], revisions);
      var r := Renamed(objects, key, target, schedule);
      if r.deletes != [] {
        assert copied.effects[0] in r.copies && copied.effects[0].after.value.body == seen[key].body;
      }
    }
  }

  /**
    "A failed delete leaves both copies": after the partial error the source is untouched by this client exactly
    if none of the delete's transmissions arrives, without conflict, while the others have left the revision in
    place.  After a failed copy, likewise, the target is untouched exactly if no transmission of the copy does.
   */
  lemma PartialLeavesBothIffNoHit(objects: Objects, key: Key, target: Key, schedule: Schedule)
    ensures var r := Renamed(objects, key, target, schedule);
      var seen := AllWritten(objects, schedule.others);
      && (r.error == Some(Partial) ==> key in seen && (r.deletes == [] <==>
            !SomeHit(Delete(key, seen[key].tag), Sent(Copy(key, target, seen[key].tag), seen, schedule.copy).objects, schedule.delete)))
      && (r.error in {Some(Changed), Some(CopyFailed)} ==> key in seen && (r.copies == [] <==>
            !SomeHit(Copy(key, target, seen[key].tag), seen, schedule.copy)))
  {
    var seen := AllWritten(objects, schedule.others);
    if key in seen {
      var copied := Sent(Copy(key, target, seen[key].tag), seen, schedule.copy);
      EffectsIffHit(Copy(key, target, seen[key].tag), seen, schedule.copy);
      EffectsIffHit(Delete(key, seen[key].tag), copied.objects, schedule.delete);
    }
  }

  /** The delete is carried out and its answer lost: the partial error, and only the new name is left. */
  lemma LostDeleteLeavesOneCopy(x: Object)
    requires |x.body| <= COPY_LIMIT
    ensures var schedule := Schedule([], true, [Attempt([], true, true, false, x.tag)], [Attempt([], true, false, false, x.tag)]);
      var r := Renamed(map["a" := x], "a", "b", schedule);
      r.error == Some(Partial) && r.objects == map["b" := x]
  {
    var lost := Attempt([], true, false, false, x.tag);
    assert [lost][1..] == [];
    var before: Objects := map["a" := x];
    assert AllWritten(before, []) == before;
    var both := before["b" := x];
    assert both - {"a"} == map["b" := x];
    assert Sent(Delete("a", x.tag), both, [lost]).objects == both - {"a"};
  }

  /** A copy carried out whose answer was lost is refused when sent again: the error says changed, and the copy is there. */
  lemma LostCopyIsReportedAsChange(x: Object)
    requires |x.body| <= COPY_LIMIT
    ensures var schedule := Schedule([], true, [Attempt([], true, false, false, x.tag), Attempt([], true, true, false, x.tag)], []);
      var r := Renamed(map["a" := x], "a", "b", schedule);
      r.error == Some(Changed) && r.objects == map["a" := x, "b" := x]
  {
    var lost, again := Attempt([], true, false, false, x.tag), Attempt([], true, true, false, x.tag);
    assert [lost, again][1..] == [again];
    var before: Objects := map["a" := x];
    assert AllWritten(before, []) == before && AllWritten(before["b" := x], []) == before["b" := x];
    assert Sent(Copy("a", "b", x.tag), before["b" := x], [again]).answer == PreconditionFailed;
    assert before["b" := x] == map["a" := x, "b" := x];
  }

  class Bucket {
    var objects: Objects
    ghost var effects: seq<Effect>    // what this client changed

    constructor (objects: Objects)
      ensures this.objects == objects && effects == []
    {
      this.objects, effects := objects, [];
    }

    /** Other writers put and delete what they like. */
    method Interfere(writes: seq<Write>)
      modifies this`objects
      ensures objects == AllWritten(old(objects), writes)
    {
      for i := 0 to |writes|
        invariant AllWritten(objects, writes[i..]) == AllWritten(old(objects), writes)
      {
        assert writes[i..][0] == writes[i] && writes[i..][1..] == writes[i + 1..];
        match writes[i] {
          case Store(k, revision) => objects := objects[k := revision];
          case Remove(k) => objects := objects - {k};
        }
      }
      assert writes[|writes|..] == [];
    }

    /** One change by this client, with what it replaces. */
    method Change(key: Key, after: Option<Object>)
      modifies this
      ensures objects == if after.Some? then old(objects)[key := after.value] else old(objects) - {key}
      ensures effects == old(effects) + [Effect(key, At(old(objects), key), after)]
    {
      effects := effects + [Effect(key, At(objects, key), after)];
      objects := if after.Some? then objects[key := after.value] else objects - {key};
    }

    /** One transmission: it changes something only if it arrives, nothing conflicts and its conditions hold. */
    method Transmit(q: Request, a: Attempt) returns (answer: Answer)
      modifies this
      ensures var now := AllWritten(old(objects), a.others);
        && answer == AnswerOf(q, now, a) && objects == (if Hits(q, now, a) then Carried(q, now, a.newTag) else now)
        && effects == old(effects) + if Hits(q, now, a) then [EffectOf(q, now, a.newTag)] else []
    {
      Interfere(a.others);
      var found := q.key in objects;
      var intact := found && objects[q.key].tag == q.seen;
      if a.arrives && !a.conflicts && intact && (q.Copy? ==> q.target !in objects) {
        answer := Accepted;
        Change(Place(q), if q.Copy? then Some(Object(a.newTag, objects[q.key].body)) else None);
      } else {
        answer := if a.conflicts || found then PreconditionFailed else NotFound;
      }
    }

    /** CopyObject or DeleteObject with its conditions, sent again while no answer arrives. */
    method Send(q: Request, schedule: seq<Attempt>) returns (answer: Answer)
      modifies this
      ensures var o := Sent(q, old(objects), schedule);
        answer == o.answer && objects == o.objects && effects == old(effects) + o.effects
    {
      hide Hits, Carried, EffectOf, AnswerOf, AllWritten;
      ghost var whole := Sent(q, objects, schedule);
      assert schedule[0..] == schedule;
      for i := 0 to |schedule|
        invariant var o := Sent(q, objects, schedule[i..]);
          whole.answer == o.answer && whole.objects == o.objects && old(effects) + whole.effects == effects + o.effects
      {
        var a := schedule[i];
        assert schedule[i..][0] == a && schedule[i..][1..] == schedule[i + 1..];
        ghost var sofar := effects;
        var answered := Transmit(q, a);
        if a.arrives && a.answered { return answered; }
        ghost var mine := effects[|sofar|..];
        assert sofar + (mine + Sent(q, objects, schedule[i + 1..]).effects) == effects + Sent(q, objects, schedule[i + 1..]).effects;
      }
      assert schedule[|schedule|..] == [];
      answer := Failed;
    }
  }

  /** `Boto3S3Gateway.rename_object` */
  method RenameInBucket(bucket: Bucket, key: Key, target: Key, schedule: Schedule) returns (error: Option<RenameError>)
    modifies bucket
    ensures var r := Renamed(old(bucket.objects), key, target, schedule);
      error == r.error && bucket.objects == r.objects && bucket.effects == old(bucket.effects) + r.copies + r.deletes
  {
    bucket.Interfere(schedule.others);
    if !schedule.headAnswered || key !in bucket.objects { return Some(HeadFailed); }
    var seen := bucket.objects[key];
    if |seen.body| > COPY_LIMIT { return Some(TooLarge); }
    var copied := bucket.Send(Copy(key, target, seen.tag), schedule.copy);
    if !copied.Accepted? { return Some(if copied.PreconditionFailed? then Changed else CopyFailed); }
    var deleted := bucket.Send(Delete(key, seen.tag), schedule.delete);
    error := if deleted.Accepted? then None else Some(Partial);
  }

  /** Up to and including the last slash. */
  function Folder(key: Key): (folder: Key)
    ensures folder <= key && (folder == "" || folder[|folder| - 1] == '/')
    ensures forall i | |folder| <= i < |key| :: key[i] != '/'
  {
    if key == "" || key[|key| - 1] == '/' then key else Folder(key[..|key| - 1])
  }

  lemma {:induction false} FolderOfSibling(folder: Key, name: string)
    requires (folder == "" || folder[|folder| - 1] == '/') && forall i | 0 <= i < |name| :: name[i] != '/'
    ensures Folder(folder + name) == folder
    decreases |name|
  {
    if name == "" {
      assert folder + name == folder;
    } else {
      assert (folder + name)[..|folder + name| - 1] == folder + name[..|name| - 1];
      FolderOfSibling(folder, name[..|name| - 1]);
    }
  }

  predicate ValidRename(key: Key, name: string) {
    && key != "" && key[|key| - 1] != '/' && name != "" && name != "." && name != ".."
    && forall i | 0 <= i < |name| :: name[i] != '/' && name[i] != '\\'
  }

  /** What others write before the lookup of the target, and whether that is answered. */
  datatype Lookup = Lookup(others: seq<Write>, answered: bool)

  /**
    `S3Service.rename_object`: the new key stays in the folder of the old one; an invalid name, an unchanged
    key, a failed lookup and a target that is already there end the call without a change.
   */
  method RenameObject(bucket: Bucket, key: Key, newName: string, lookup: Lookup, schedule: Schedule)
    returns (r: Result<Key, RenameError>)
    modifies bucket
    ensures r == Err(InvalidName) <==> !ValidRename(key, Stripped(newName))
    ensures r.Ok? ==> r.value == Folder(key) + Stripped(newName) && Folder(r.value) == Folder(key)
    ensures r == Err(InvalidName) || r == Ok(key) ==> bucket.objects == old(bucket.objects) && bucket.effects == old(bucket.effects)
    ensures r == Err(LookupFailed) || r == Err(TargetExists) ==> bucket.effects == old(bucket.effects)
    ensures var target := Folder(key) + Stripped(newName);
      var found := AllWritten(old(bucket.objects), lookup.others);
      var renamed := Renamed(found, key, target, schedule);
      ValidRename(key, Stripped(newName)) && target != key ==>
        if !lookup.answered then r == Err(LookupFailed)
        else if target in found then r == Err(TargetExists)
        else r == (if renamed.error.Some? then Err(renamed.error.value) else Ok(target))
             && bucket.objects == renamed.objects && bucket.effects == old(bucket.effects) + renamed.copies + renamed.deletes
  {
    var name := Stripped(newName);
    if key == "" || key[|key| - 1] == '/' || name == "" || name == "." || name == ".." || '/' in name || '\\' in name {
      return Err(InvalidName);
    }
    var target := Folder(key) + name;
    FolderOfSibling(Folder(key), name);
    if target == key { return Ok(target); }
    bucket.Interfere(lookup.others);
    if !lookup.answered { return Err(LookupFailed); }
    if target in bucket.objects { return Err(TargetExists); }
    RenameIsSafe(bucket.objects, key, target, schedule);
    var failed := RenameInBucket(bucket, key, target, schedule);
    r := if failed.Some? then Err(failed.value) else Ok(target);
  }
}
