/** The paths `_flatten` prints, read back: which leaf a path names, and when it names only one. */
module SecretPaths {
  import opened Wrappers
  import opened SensitiveNames
  import opened SecretDocuments

  datatype Seg = Key(name: string) | Index(i: nat)

  /** A leaf with its access path; containers count as leaves when they are empty. */
  datatype Leaf = Leaf(at: seq<Seg>, raw: Json, sensitive: bool)

  // ---- leaves by access path ---------------------------------------------------------------------

  predicate IsLeaf(v: Json) {
    IsScalar(v) || v == Arr([]) || v == Obj([])
  }

  function Leaves(v: Json, at: seq<Seg>, sensitive: bool): seq<Leaf>
    decreases v
  {
    match v
    case Obj(members) => if members == [] then [Leaf(at, v, sensitive)] else MemberLeaves(members, at, sensitive)
    case Arr(items) => if items == [] then [Leaf(at, v, sensitive)] else ItemLeaves(items, 0, at, sensitive)
    case _ => [Leaf(at, v, sensitive)]
  }

  function MemberLeaves(members: seq<Member>, at: seq<Seg>, sensitive: bool): seq<Leaf>
    decreases members
  {
    if members == [] then [] else
      Leaves(members[0].value, at + [Key(members[0].key)], sensitive || IsSensitiveName(members[0].key))
      + MemberLeaves(members[1..], at, sensitive)
  }

  function ItemLeaves(items: seq<Json>, from: nat, at: seq<Seg>, sensitive: bool): seq<Leaf>
    decreases items
  {
    if items == [] then [] else
      Leaves(items[0], at + [Index(from)], sensitive) + ItemLeaves(items[1..], from + 1, at, sensitive)
  }

  /** What a key of a dict holds; without duplicates the first occurrence is the only one. */
  function MemberAt(members: seq<Member>, key: string): Option<Json> {
    if members == [] then None else if members[0].key == key then Some(members[0].value) else MemberAt(members[1..], key)
  }

  /** Following an access path from the top. */
  function Find(v: Json, at: seq<Seg>): Option<Json>
    decreases |at|
  {
    if at == [] then Some(v)
    else match at[0]
      case Key(name) =>
        if v.Obj? && MemberAt(v.members, name).Some? then Find(MemberAt(v.members, name).value, at[1..]) else None
      case Index(i) => if v.Arr? && i < |v.items| then Find(v.items[i], at[1..]) else None
  }

  predicate AnySensitive(at: seq<Seg>) {
    exists i | 0 <= i < |at| :: at[i].Key? && IsSensitiveName(at[i].name)
  }

  // ---- printed paths ------------------------------------------------------------------------------

  function Child(path: string, s: Seg): string {
    match s
    case Key(name) => ChildPath(path, name)
    case Index(i) => IndexPath(path, i)
  }

  /** The path printed on the way down. */
  function Show(path: string, at: seq<Seg>): string
    decreases |at|
  {
    if at == [] then path else Show(Child(path, at[0]), at[1..])
  }

  lemma {:induction false} ShowSnoc(path: string, at: seq<Seg>, s: Seg)
    ensures Show(path, at + [s]) == Child(Show(path, at), s)
    decreases |at|
  {
    if at == [] {
      assert [] + [s] == [s] && [s][1..] == [];
    } else {
      assert (at + [s])[0] == at[0] && (at + [s])[1..] == at[1..] + [s];
      ShowSnoc(Child(path, at[0]), at[1..], s);
    }
  }

  function Printed(leaves: seq<Leaf>): (fields: seq<Field>)
    ensures |fields| == |leaves|
    ensures forall i | 0 <= i < |leaves| :: fields[i] == Field(Shown(Show("", leaves[i].at)), leaves[i].raw, leaves[i].sensitive)
  {
    if leaves == [] then [] else
      [Field(Shown(Show("", leaves[0].at)), leaves[0].raw, leaves[0].sensitive)] + Printed(leaves[1..])
  }

  lemma PrintedConcat(a: seq<Leaf>, b: seq<Leaf>)
    ensures Printed(a + b) == Printed(a) + Printed(b)
  {
  }

  /** The flattened fields are the leaves of the document in order, each with its access path printed. */
  lemma {:induction false} FieldsAreLeaves(v: Json, at: seq<Seg>, sensitive: bool)
    ensures Fields(v, Show("", at), sensitive) == Printed(Leaves(v, at, sensitive))
    decreases v
  {
    match v
    case Obj(members) => if members != [] { MemberFieldsAreLeaves(members, at, sensitive); }
    case Arr(items) => if items != [] { ItemFieldsAreLeaves(items, 0, at, sensitive); }
    case _ =>
  }

  lemma {:induction false} MemberFieldsAreLeaves(members: seq<Member>, at: seq<Seg>, sensitive: bool)
    ensures MemberFields(members, Show("", at), sensitive) == Printed(MemberLeaves(members, at, sensitive))
    decreases members
  {
    if members != [] {
      var below := sensitive || IsSensitiveName(members[0].key);
      ShowSnoc("", at, Key(members[0].key));
      FieldsAreLeaves(members[0].value, at + [Key(members[0].key)], below);
      MemberFieldsAreLeaves(members[1..], at, sensitive);
      PrintedConcat(Leaves(members[0].value, at + [Key(members[0].key)], below), MemberLeaves(members[1..], at, sensitive));
    }
  }

  lemma {:induction false} ItemFieldsAreLeaves(items: seq<Json>, from: nat, at: seq<Seg>, sensitive: bool)
    ensures ItemFields(items, from, Show("", at), sensitive) == Printed(ItemLeaves(items, from, at, sensitive))
    decreases items
  {
    if items != [] {
      ShowSnoc("", at, Index(from));
      FieldsAreLeaves(items[0], at + [Index(from)], sensitive);
      ItemFieldsAreLeaves(items[1..], from + 1, at, sensitive);
      PrintedConcat(Leaves(items[0], at + [Index(from)], sensitive), ItemLeaves(items[1..], from + 1, at, sensitive));
    }
  }

  // ---- reading a printed path back -----------------------------------------------------------------

  predicate StartsSegment(c: char) {
    c == '.' || c == '['
  }

  /** A key that can be told apart in a printed path. */
  predicate IsClean(key: string) {
    key != "" && forall i | 0 <= i < |key| :: !StartsSegment(key[i])
  }

  /** The longest prefix without '.' and '['. */
  function KeyRun(t: string): (k: string)
    ensures |k| <= |t|
  {
    if t == "" || StartsSegment(t[0]) then "" else [t[0]] + KeyRun(t[1..])
  }

  function DigitRun(t: string): (d: string)
    ensures |d| <= |t| && forall i | 0 <= i < |d| :: '0' <= d[i] <= '9'
  {
    if t == "" || !('0' <= t[0] <= '9') then "" else [t[0]] + DigitRun(t[1..])
  }

  function Numeral(d: string): nat
    requires forall i | 0 <= i < |d| :: '0' <= d[i] <= '9'
  {
    if d == "" then 0 else Numeral(d[..|d| - 1]) * 10 + (d[|d| - 1] - '0') as nat
  }

  function Prepend(s: Seg, rest: Option<seq<Seg>>): Option<seq<Seg>> {
    if rest.Some? then Some([s] + rest.value) else None
  }

  /** Reads segments that are each introduced by '.' or '['. */
  function ParseSegments(t: string): Option<seq<Seg>>
    decreases |t|
  {
    if t == "" then Some([])
    else if t[0] == '.' then
      var k := KeyRun(t[1..]);
      if k == "" then None else Prepend(Key(k), ParseSegments(t[1 + |k|..]))
    else if t[0] == '[' then
      var d := DigitRun(t[1..]);
      if d == "" || 1 + |d| >= |t| || t[1 + |d|] != ']' then None
      else Prepend(Index(Numeral(d)), ParseSegments(t[2 + |d|..]))
    else None
  }

  function ParsePath(path: string): Option<seq<Seg>> {
    if path != "" && path[0] == '[' then ParseSegments(path) else ParseSegments("." + path)
  }

  function Segment(s: Seg): string {
    match s
    case Key(name) => "." + name
    case Index(i) => "[" + Decimal(i) + "]"
  }

  function Segments(at: seq<Seg>): string {
    if at == [] then "" else Segment(at[0]) + Segments(at[1..])
  }

  predicate CleanAccess(at: seq<Seg>) {
    forall i | 0 <= i < |at| :: at[i].Key? ==> IsClean(at[i].name)
  }

  lemma SegmentsStart(at: seq<Seg>)
    ensures Segments(at) == "" || StartsSegment(Segments(at)[0])
  {
  }

  lemma {:induction false} KeyRunStops(k: string, rest: string)
    requires forall i | 0 <= i < |k| :: !StartsSegment(k[i])
    requires rest == "" || StartsSegment(rest[0])
    ensures KeyRun(k + rest) == k
    decreases |k|
  {
    if k == "" {
      assert k + rest == rest;
    } else {
      KeyRunStops(k[1..], rest);
      assert (k + rest)[1..] == k[1..] + rest;
    }
  }

  lemma {:induction false} DigitRunStops(d: string, rest: string)
    requires forall i | 0 <= i < |d| :: '0' <= d[i] <= '9'
    requires rest != "" && rest[0] == ']'
    ensures DigitRun(d + rest) == d
    decreases |d|
  {
    if d == "" {
      assert d + rest == rest;
    } else {
      DigitRunStops(d[1..], rest);
      assert (d + rest)[1..] == d[1..] + rest;
    }
  }

  lemma {:induction false} NumeralOfDecimal(n: nat)
    ensures Numeral(Decimal(n)) == n
  {
    var d := Decimal(n);
    if n >= 10 {
      NumeralOfDecimal(n / 10);
      assert d[..|d| - 1] == Decimal(n / 10);
    } else {
      assert d[..0] == "";
    }
  }

  lemma KeySegmentParses(name: string, rest: string)
    requires IsClean(name) && (rest == "" || StartsSegment(rest[0]))
    ensures ParseSegments("." + name + rest) == Prepend(Key(name), ParseSegments(rest))
  {
    var t := "." + name + rest;
    KeyRunStops(name, rest);
    assert t[1..] == name + rest && t[1 + |name|..] == rest && t[0] == '.';
  }

  lemma IndexSegmentParses(i: nat, rest: string)
    ensures ParseSegments("[" + Decimal(i) + "]" + rest) == Prepend(Index(i), ParseSegments(rest))
  {
    var d := Decimal(i);
    var t := "[" + d + "]" + rest;
    DigitRunStops(d, "]" + rest);
    NumeralOfDecimal(i);
    assert t[1..] == d + ("]" + rest) && t[2 + |d|..] == rest && t[0] == '[' && t[1 + |d|] == ']';
  }

  lemma {:induction false} SegmentsParse(at: seq<Seg>)
    requires CleanAccess(at)
    ensures ParseSegments(Segments(at)) == Some(at)
    decreases |at|
  {
    hide ParseSegments;
    if at == [] {
      ParseNothing();
    } else {
      SegmentsParse(at[1..]);
      SegmentsStart(at[1..]);
      match at[0] {
        case Key(name) => KeySegmentParses(name, Segments(at[1..]));
        case Index(i) => IndexSegmentParses(i, Segments(at[1..]));
      }
      assert [at[0]] + at[1..] == at;
    }
  }

  lemma ParseNothing()
    ensures ParseSegments("") == Some([])
  {
  }

  lemma ChildAddsSegment(path: string, s: Seg)
    requires path != ""
    ensures Child(path, s) == path + Segment(s)
  {
  }

  lemma {:induction false} ShowAddsSegments(path: string, at: seq<Seg>)
    requires path != ""
    ensures Show(path, at) == path + Segments(at)
    decreases |at|
  {
    hide Child, Segment;
    if at != [] {
      ChildAddsSegment(path, at[0]);
      ShowAddsSegments(Child(path, at[0]), at[1..]);
      assert path + Segment(at[0]) + Segments(at[1..]) == path + (Segment(at[0]) + Segments(at[1..]));
    }
  }

  /** A printed path reads back as the access path it was printed from. */
  lemma PathReadsBack(at: seq<Seg>)
    requires at != [] && CleanAccess(at)
    ensures ParsePath(Show("", at)) == Some(at) && Show("", at) != ""
  {
    hide ParseSegments;
    SegmentsParse(at);
    ShowAddsSegments(Child("", at[0]), at[1..]);
    match at[0] {
      case Key(name) => assert "." + (name + Segments(at[1..])) == Segments(at);
      case Index(i) => assert Child("", at[0]) == "[" + Decimal(i) + "]";
    }
  }

  lemma PathsApart(a: seq<Seg>, b: seq<Seg>)
    requires a != [] && b != [] && CleanAccess(a) && CleanAccess(b) && Show("", a) == Show("", b)
    ensures a == b
  {
    PathReadsBack(a);
    PathReadsBack(b);
  }

  // ---- every leaf once, where its access path leads --------------------------------------------------

  predicate DistinctKeys(members: seq<Member>) {
    forall i, j | 0 <= i < j < |members| :: members[i].key != members[j].key
  }

  /** As parsed into dicts: no key occurs twice in one object. */
  predicate IsDocument(v: Json)
    decreases v
  {
    match v
    case Obj(members) => DistinctKeys(members) && forall i | 0 <= i < |members| :: IsDocument(members[i].value)
    case Arr(items) => forall i | 0 <= i < |items| :: IsDocument(items[i])
    case _ => true
  }

  predicate HasCleanKeys(v: Json)
    decreases v
  {
    match v
    case Obj(members) => forall i | 0 <= i < |members| :: IsClean(members[i].key) && HasCleanKeys(members[i].value)
    case Arr(items) => forall i | 0 <= i < |items| :: HasCleanKeys(items[i])
    case _ => true
  }

  /** The leaf that access path `rest` below `at` leads to. */
  ghost predicate Leads(v: Json, at: seq<Seg>, sensitive: bool, leaf: Leaf) {
    && at <= leaf.at && IsLeaf(leaf.raw)
    && var rest := leaf.at[|at|..];
       Find(v, rest) == Some(leaf.raw) && (leaf.sensitive <==> sensitive || AnySensitive(rest))
  }

  lemma AnySensitiveCons(s: Seg, rest: seq<Seg>)
    ensures AnySensitive([s] + rest) <==> (s.Key? && IsSensitiveName(s.name)) || AnySensitive(rest)
  {
    var all := [s] + rest;
    assert all[0] == s && forall i | 0 <= i < |rest| :: all[i + 1] == rest[i];
    if AnySensitive(all) {
      var i :| 0 <= i < |all| && all[i].Key? && IsSensitiveName(all[i].name);
      if i > 0 { assert rest[i - 1].Key? && IsSensitiveName(rest[i - 1].name); }
    }
    if AnySensitive(rest) {
      var i :| 0 <= i < |rest| && rest[i].Key? && IsSensitiveName(rest[i].name);
      assert all[i + 1].Key? && IsSensitiveName(all[i + 1].name);
    }
  }

  lemma {:induction false} MemberAtIndex(members: seq<Member>, k: nat)
    requires DistinctKeys(members) && k < |members|
    ensures MemberAt(members, members[k].key) == Some(members[k].value)
    decreases members
  {
    if k > 0 {
      assert members[0].key != members[k].key;
      assert members[1..][k - 1] == members[k];
      MemberAtIndex(members[1..], k - 1);
    }
  }

  /** A leaf below a child is a leaf below its parent. */
  lemma LeadsThroughKey(v: Json, k: nat, at: seq<Seg>, sensitive: bool, leaf: Leaf)
    requires v.Obj? && DistinctKeys(v.members) && k < |v.members|
    requires Leads(v.members[k].value, at + [Key(v.members[k].key)], sensitive || IsSensitiveName(v.members[k].key), leaf)
    ensures Leads(v, at, sensitive, leaf) && |leaf.at| > |at| && leaf.at[|at|] == Key(v.members[k].key)
  {
    var s := Key(v.members[k].key);
    var rest, below := leaf.at[|at|..], leaf.at[|at + [s]|..];
    assert leaf.at[..|at| + 1] == at + [s] && leaf.at[|at|] == (at + [s])[|at|];
    assert rest == [s] + below && rest[1..] == below;
    assert leaf.at[..|at|] == (at + [s])[..|at|] == at;
    AnySensitiveCons(s, below);
    MemberAtIndex(v.members, k);
  }

  lemma LeadsThroughIndex(v: Json, k: nat, at: seq<Seg>, sensitive: bool, leaf: Leaf)
    requires v.Arr? && k < |v.items|
    requires Leads(v.items[k], at + [Index(k)], sensitive, leaf)
    ensures Leads(v, at, sensitive, leaf) && |leaf.at| > |at| && leaf.at[|at|] == Index(k)
  {
    var s := Index(k);
    var rest, below := leaf.at[|at|..], leaf.at[|at + [s]|..];
    assert leaf.at[..|at| + 1] == at + [s] && leaf.at[|at|] == (at + [s])[|at|];
    assert rest == [s] + below && rest[1..] == below;
    assert leaf.at[..|at|] == (at + [s])[..|at|] == at;
    AnySensitiveCons(s, below);
  }

  ghost predicate AllLead(v: Json, at: seq<Seg>, sensitive: bool, leaves: seq<Leaf>) {
    forall i | 0 <= i < |leaves| :: Leads(v, at, sensitive, leaves[i])
  }

  predicate Apart(leaves: seq<Leaf>) {
    forall i, j | 0 <= i < j < |leaves| :: leaves[i].at != leaves[j].at
  }

  /** Leaves are listed once each, and every one is what its access path leads to. */
  lemma {:induction false} LeavesLead(v: Json, at: seq<Seg>, sensitive: bool)
    requires IsDocument(v)
    ensures AllLead(v, at, sensitive, Leaves(v, at, sensitive)) && Apart(Leaves(v, at, sensitive))
    decreases v
  {
    match v
    case Obj(members) => if members != [] { MemberLeavesLead(v, 0, at, sensitive); }
    case Arr(items) => if items != [] { ItemLeavesLead(v, 0, at, sensitive); }
    case _ =>
  }

  lemma ConcatApart(head: seq<Leaf>, tail: seq<Leaf>)
    requires Apart(head) && Apart(tail)
    requires forall i, j | 0 <= i < |head| && 0 <= j < |tail| :: head[i].at != tail[j].at
    ensures Apart(head + tail)
  {
  }

  lemma ConcatLeads(v: Json, at: seq<Seg>, sensitive: bool, head: seq<Leaf>, tail: seq<Leaf>)
    requires AllLead(v, at, sensitive, head) && AllLead(v, at, sensitive, tail)
    ensures AllLead(v, at, sensitive, head + tail)
  {
    hide Leads;
  }

  /** Every leaf goes on from `at` with a key of one of the members from position `from` on. */
  ghost predicate KeysFrom(members: seq<Member>, from: nat, at: seq<Seg>, leaves: seq<Leaf>) {
    forall i | 0 <= i < |leaves| :: |leaves[i].at| > |at| && From(members, from, leaves[i].at[|at|])
  }

  ghost predicate From(members: seq<Member>, from: nat, s: Seg) {
    exists k | from <= k < |members| :: s == Key(members[k].key)
  }

  ghost predicate IndicesFrom(from: nat, at: seq<Seg>, leaves: seq<Leaf>) {
    forall i | 0 <= i < |leaves| :: |leaves[i].at| > |at| && leaves[i].at[|at|].Index? && leaves[i].at[|at|].i >= from
  }

  lemma {:induction false} MemberLeavesLead(v: Json, from: nat, at: seq<Seg>, sensitive: bool)
    requires v.Obj? && IsDocument(v) && from <= |v.members|
    ensures var leaves := MemberLeaves(v.members[from..], at, sensitive);
      AllLead(v, at, sensitive, leaves) && Apart(leaves) && KeysFrom(v.members, from, at, leaves)
    decreases v, |v.members| - from
  {
    hide Leads, AllLead, Leaves, IsDocument, DistinctKeys;
    if from == |v.members| {
      assert v.members[from..] == [];
      AllOfNone(v, at, sensitive);
    } else {
      var m := v.members[from];
      assert v.members[from..][0] == m && v.members[from..][1..] == v.members[from + 1..];
      var head := Leaves(m.value, at + [Key(m.key)], sensitive || IsSensitiveName(m.key));
      var tail := MemberLeaves(v.members[from + 1..], at, sensitive);
      MembersOfDocument(v, from);
      LeavesLead(m.value, at + [Key(m.key)], sensitive || IsSensitiveName(m.key));
      ThroughKey(v, from, at, sensitive, head);
      MemberLeavesLead(v, from + 1, at, sensitive);
      ConcatLeads(v, at, sensitive, head, tail);
      KeysDiffer(v.members, from, at, head, tail);
      ConcatApart(head, tail);
    }
  }

  lemma AllOfNone(v: Json, at: seq<Seg>, sensitive: bool)
    ensures AllLead(v, at, sensitive, [])
  {
  }

  lemma MembersOfDocument(v: Json, k: nat)
    requires v.Obj? && IsDocument(v) && k < |v.members|
    ensures DistinctKeys(v.members) && IsDocument(v.members[k].value)
  {
  }

  lemma ThroughKey(v: Json, k: nat, at: seq<Seg>, sensitive: bool, leaves: seq<Leaf>)
    requires v.Obj? && DistinctKeys(v.members) && k < |v.members|
    requires AllLead(v.members[k].value, at + [Key(v.members[k].key)], sensitive || IsSensitiveName(v.members[k].key), leaves)
    ensures AllLead(v, at, sensitive, leaves)
    ensures forall i | 0 <= i < |leaves| :: |leaves[i].at| > |at| && leaves[i].at[|at|] == Key(v.members[k].key)
  {
    hide Leads;
    forall i | 0 <= i < |leaves|
      ensures Leads(v, at, sensitive, leaves[i]) && |leaves[i].at| > |at| && leaves[i].at[|at|] == Key(v.members[k].key)
    {
      LeadsThroughKey(v, k, at, sensitive, leaves[i]);
    }
  }

  lemma KeysDiffer(members: seq<Member>, from: nat, at: seq<Seg>, head: seq<Leaf>, tail: seq<Leaf>)
    requires DistinctKeys(members) && from < |members|
    requires forall i | 0 <= i < |head| :: |head[i].at| > |at| && head[i].at[|at|] == Key(members[from].key)
    requires KeysFrom(members, from + 1, at, tail)
    ensures forall i, j | 0 <= i < |head| && 0 <= j < |tail| :: head[i].at != tail[j].at
    ensures KeysFrom(members, from, at, head + tail)
  {
  }

  lemma {:induction false} ItemLeavesLead(v: Json, from: nat, at: seq<Seg>, sensitive: bool)
    requires v.Arr? && IsDocument(v) && from <= |v.items|
    ensures var leaves := ItemLeaves(v.items[from..], from, at, sensitive);
      AllLead(v, at, sensitive, leaves) && Apart(leaves) && IndicesFrom(from, at, leaves)
    decreases v, |v.items| - from
  {
    hide Leads, AllLead, Leaves;
    if from == |v.items| {
      assert v.items[from..] == [];
      AllOfNone(v, at, sensitive);
    } else {
      assert v.items[from..][0] == v.items[from] && v.items[from..][1..] == v.items[from + 1..];
      var head := Leaves(v.items[from], at + [Index(from)], sensitive);
      var tail := ItemLeaves(v.items[from + 1..], from + 1, at, sensitive);
      LeavesLead(v.items[from], at + [Index(from)], sensitive);
      ThroughIndex(v, from, at, sensitive, head);
      ItemLeavesLead(v, from + 1, at, sensitive);
      ConcatLeads(v, at, sensitive, head, tail);
      ConcatApart(head, tail);
    }
  }

  lemma ThroughIndex(v: Json, k: nat, at: seq<Seg>, sensitive: bool, leaves: seq<Leaf>)
    requires v.Arr? && k < |v.items|
    requires AllLead(v.items[k], at + [Index(k)], sensitive, leaves)
    ensures AllLead(v, at, sensitive, leaves)
    ensures forall i | 0 <= i < |leaves| :: |leaves[i].at| > |at| && leaves[i].at[|at|] == Index(k)
  {
    hide Leads;
    forall i | 0 <= i < |leaves|
      ensures Leads(v, at, sensitive, leaves[i]) && |leaves[i].at| > |at| && leaves[i].at[|at|] == Index(k)
    {
      LeadsThroughIndex(v, k, at, sensitive, leaves[i]);
    }
  }

  /** Wherever an access path leads to a leaf, the leaf is listed. */
  lemma {:induction false} FoundLeafIsListed(v: Json, at: seq<Seg>, rest: seq<Seg>, sensitive: bool)
    requires Find(v, rest).Some? && IsLeaf(Find(v, rest).value)
    ensures Leaf(at + rest, Find(v, rest).value, sensitive || AnySensitive(rest)) in Leaves(v, at, sensitive)
    decreases v
  {
    if rest == [] {
      assert at + [] == at;
    } else {
      AnySensitiveCons(rest[0], rest[1..]);
      assert rest == [rest[0]] + rest[1..];
      assert at + rest == at + [rest[0]] + rest[1..];
      match v
      case Obj(members) => FoundBelowMember(members, at, rest, sensitive);
      case Arr(items) => FoundBelowItem(items, 0, at, rest, sensitive);
      case _ =>
    }
  }

  lemma {:induction false} FoundBelowMember(members: seq<Member>, at: seq<Seg>, rest: seq<Seg>, sensitive: bool)
    requires rest != [] && rest[0].Key? && MemberAt(members, rest[0].name).Some?
    requires var child := MemberAt(members, rest[0].name).value; Find(child, rest[1..]).Some? && IsLeaf(Find(child, rest[1..]).value)
    ensures var child := MemberAt(members, rest[0].name).value;
      Leaf(at + [rest[0]] + rest[1..], Find(child, rest[1..]).value, sensitive || IsSensitiveName(rest[0].name) || AnySensitive(rest[1..]))
        in MemberLeaves(members, at, sensitive)
    decreases members
  {
    if members[0].key == rest[0].name {
      FoundLeafIsListed(members[0].value, at + [rest[0]], rest[1..], sensitive || IsSensitiveName(rest[0].name));
    } else {
      FoundBelowMember(members[1..], at, rest, sensitive);
    }
  }

  lemma {:induction false} FoundBelowItem(items: seq<Json>, from: nat, at: seq<Seg>, rest: seq<Seg>, sensitive: bool)
    requires rest != [] && rest[0].Index? && from <= rest[0].i < from + |items|
    requires var child := items[rest[0].i - from]; Find(child, rest[1..]).Some? && IsLeaf(Find(child, rest[1..]).value)
    ensures var child := items[rest[0].i - from];
      Leaf(at + [rest[0]] + rest[1..], Find(child, rest[1..]).value, sensitive || AnySensitive(rest[1..]))
        in ItemLeaves(items, from, at, sensitive)
    decreases items
  {
    if rest[0].i == from {
      FoundLeafIsListed(items[0], at + [rest[0]], rest[1..], sensitive);
    } else {
      FoundBelowItem(items[1..], from + 1, at, rest, sensitive);
    }
  }

  // ---- field(path) -----------------------------------------------------------------------------------

  /** The first field with this path. */
  function Lookup(fields: seq<Field>, path: string): Option<Field> {
    if fields == [] then None else if fields[0].path == path then Some(fields[0]) else Lookup(fields[1..], path)
  }

  lemma {:induction false} LookupOnlyOne(fields: seq<Field>, k: nat)
    requires k < |fields| && forall i | 0 <= i < |fields| && i != k :: fields[i].path != fields[k].path
    ensures Lookup(fields, fields[k].path) == Some(fields[k])
    decreases |fields|
  {
    if k > 0 { LookupOnlyOne(fields[1..], k - 1); }
  }

  lemma {:induction false} MemberAtIsMember(members: seq<Member>, key: string) returns (k: nat)
    requires MemberAt(members, key).Some?
    ensures k < |members| && members[k].key == key && MemberAt(members, key) == Some(members[k].value)
    decreases members
  {
    if members[0].key == key {
      k := 0;
    } else {
      k := MemberAtIsMember(members[1..], key);
      k := k + 1;
    }
  }

  /** In a document with clean keys every access path that leads anywhere is clean. */
  lemma {:induction false} FoundAccessIsClean(v: Json, at: seq<Seg>)
    requires HasCleanKeys(v) && Find(v, at).Some?
    ensures CleanAccess(at)
    decreases |at|
  {
    if at != [] {
      match at[0] {
        case Key(name) =>
          var k := MemberAtIsMember(v.members, name);
          FoundAccessIsClean(v.members[k].value, at[1..]);
        case Index(i) => FoundAccessIsClean(v.items[i], at[1..]);
      }
      assert forall i | 1 <= i < |at| :: at[i] == at[1..][i - 1];
    }
  }

  lemma LeafOfContainer(v: Json, leaf: Leaf)
    requires !IsLeaf(v) && HasCleanKeys(v) && Leads(v, [], false, leaf)
    ensures leaf.at != [] && CleanAccess(leaf.at) && Find(v, leaf.at) == Some(leaf.raw)
  {
    assert leaf.at[0..] == leaf.at;
    FoundAccessIsClean(v, leaf.at);
  }

  /** The printed paths of one document are pairwise distinct, and each reads back to where its value is. */
  lemma FieldPathsAreDistinct(v: Json)
    requires IsDocument(v) && HasCleanKeys(v)
    ensures var fields := Fields(v, "", false);
      && (forall i, j | 0 <= i < |fields| && 0 <= j < |fields| && i != j :: fields[i].path != fields[j].path)
      && (!IsLeaf(v) ==> forall i | 0 <= i < |fields| ::
            ParsePath(fields[i].path).Some? && Find(v, ParsePath(fields[i].path).value) == Some(fields[i].raw))
  {
    hide Leads, ParsePath, Find;
    var fields, leaves := Fields(v, "", false), Leaves(v, [], false);
    FieldsAreLeaves(v, [], false);
    LeavesLead(v, [], false);
    if !IsLeaf(v) {
      forall i | 0 <= i < |leaves|
        ensures leaves[i].at != [] && CleanAccess(leaves[i].at) && fields[i].path == Show("", leaves[i].at)
        ensures ParsePath(fields[i].path) == Some(leaves[i].at) && Find(v, leaves[i].at) == Some(fields[i].raw)
      {
        LeafOfContainer(v, leaves[i]);
        PathReadsBack(leaves[i].at);
      }
      forall i, j | 0 <= i < |fields| && 0 <= j < |fields| && i < j ensures fields[i].path != fields[j].path {
        if fields[i].path == fields[j].path { PathsApart(leaves[i].at, leaves[j].at); }
      }
    }
  }

  /** `field(path)` returns the leaf its path was printed for, and says whether a key above it is sensitive. */
  lemma FieldReturnsItsLeaf(v: Json, at: seq<Seg>)
    requires IsDocument(v) && HasCleanKeys(v) && Find(v, at).Some? && IsLeaf(Find(v, at).value)
    ensures Lookup(Fields(v, "", false), Shown(Show("", at))) ==
      Some(Field(Shown(Show("", at)), Find(v, at).value, AnySensitive(at)))
  {
    hide Find, Lookup, AnySensitive, IsDocument, HasCleanKeys;
    var fields, leaves := Fields(v, "", false), Leaves(v, [], false);
    var leaf := Leaf(at, Find(v, at).value, AnySensitive(at));
    FieldsAreLeaves(v, [], false);
    FoundLeafIsListed(v, [], at, false);
    assert [] + at == at;
    assert leaf in leaves;
    var k :| 0 <= k < |leaves| && leaves[k] == leaf;
    FieldPathsAreDistinct(v);
    LookupOnlyOne(fields, k);
  }

  lemma LookupFirst(f: Field, rest: seq<Field>)
    ensures Lookup([f] + rest, f.path) == Some(f)
  {
  }

  /**
    For any two clean keys a and b, the key "a.b" collides with b below a: in this document both are found under
    one path, which the lookup resolves to the first of them.
   */
  lemma DottedKeysCollide(a: string, b: string, x: Json, y: Json)
    requires IsClean(a) && IsClean(b) && IsLeaf(x) && IsLeaf(y)
    ensures var v := Obj([Member(a + "." + b, x), Member(a, Obj([Member(b, y)]))]);
      && Show("", [Key(a + "." + b)]) == Show("", [Key(a), Key(b)]) == a + "." + b
      && Find(v, [Key(a + "." + b)]) == Some(x) && Find(v, [Key(a), Key(b)]) == Some(y)
      && Lookup(Fields(v, "", false), a + "." + b).Some? && Lookup(Fields(v, "", false), a + "." + b).value.raw == x
  {
    hide Fields, Lookup, IsSensitiveName;
    var k := a + "." + b;
    KeysApart(k, a, '.');
    assert [Key(a), Key(b)][1..] == [Key(b)] && [Key(b)][1..] == [] && [Key(k)][1..] == [];
    FirstMemberWins(k, x, Member(a, Obj([Member(b, y)])));
    SecondMember(Member(k, x), Member(a, Obj([Member(b, y)])));
    OnlyMember(b, y);
  }

  /** Likewise the key "a[i]" and item i of a list at a. */
  lemma BracketedKeysCollide(a: string, x: Json, items: seq<Json>, i: nat)
    requires IsClean(a) && IsLeaf(x) && i < |items| && IsLeaf(items[i])
    ensures var k := a + "[" + Decimal(i) + "]";
      var v := Obj([Member(k, x), Member(a, Arr(items))]);
      && Show("", [Key(k)]) == Show("", [Key(a), Index(i)]) == k
      && Find(v, [Key(k)]) == Some(x) && Find(v, [Key(a), Index(i)]) == Some(items[i])
      && Lookup(Fields(v, "", false), k).Some? && Lookup(Fields(v, "", false), k).value.raw == x
  {
    hide Fields, Lookup, IsSensitiveName;
    var k := a + "[" + Decimal(i) + "]";
    KeysApart(k, a, '[');
    assert [Key(a), Index(i)][1..] == [Index(i)] && [Index(i)][1..] == [] && [Key(k)][1..] == [];
    FirstMemberWins(k, x, Member(a, Arr(items)));
    SecondMember(Member(k, x), Member(a, Arr(items)));
    assert Find(Arr(items), [Index(i)]) == Find(items[i], []);
  }

  /** An empty key leaves no trace in the path, so whatever is below it collides with the same name beside it. */
  lemma EmptyKeysCollide(a: string, x: Json, y: Json)
    requires IsClean(a) && IsLeaf(x) && IsLeaf(y)
    ensures var v := Obj([Member("", Obj([Member(a, x)])), Member(a, y)]);
      && Show("", [Key(""), Key(a)]) == Show("", [Key(a)]) == a
      && Find(v, [Key(""), Key(a)]) == Some(x) && Find(v, [Key(a)]) == Some(y)
      && Lookup(Fields(v, "", false), a).Some? && Lookup(Fields(v, "", false), a).value.raw == x
  {
    hide IsSensitiveName;
    var inner, second := Member(a, x), Member(a, y);
    var members := [Member("", Obj([inner])), second];
    assert members[1..] == [second] && [inner][1..] == [];
    var f := Field(a, x, IsSensitiveName("") || IsSensitiveName(a));
    LeafField(x, a, f.sensitive);
    assert MemberFields([inner], "", IsSensitiveName("")) == [f] + [];
    var rest := MemberFields([second], "", false);
    LookupFirst(f, rest);
    assert MemberFields(members, "", false) == Fields(Obj([inner]), "", IsSensitiveName("")) + rest;
    assert [f] + [] + rest == [f] + rest;
    assert [Key(""), Key(a)][1..] == [Key(a)] && [Key(a)][1..] == [];
    SecondMember(members[0], second);
    OnlyMember(a, x);
  }

  lemma LeafField(x: Json, path: string, sensitive: bool)
    requires IsLeaf(x) && path != ""
    ensures Fields(x, path, sensitive) == [Field(path, x, sensitive)]
  {
  }

  lemma KeysApart(k: string, a: string, c: char)
    requires IsClean(a) && StartsSegment(c) && |k| > |a| && k[|a|] == c
    ensures k != a && k != ""
  {
  }

  lemma FirstMemberWins(k: string, x: Json, second: Member)
    requires k != "" && IsLeaf(x)
    ensures var fields := Fields(Obj([Member(k, x), second]), "", false);
      Lookup(fields, k) == Some(Field(k, x, IsSensitiveName(k)))
  {
    hide IsSensitiveName;
    var members := [Member(k, x), second];
    assert members[1..] == [second];
    LeafField(x, k, IsSensitiveName(k));
    LookupFirst(Field(k, x, IsSensitiveName(k)), MemberFields([second], "", false));
  }

  lemma OnlyMember(k: string, v: Json)
    ensures Find(Obj([Member(k, v)]), [Key(k)]) == Some(v)
  {
    assert [Key(k)][1..] == [];
    assert MemberAt([Member(k, v)], k) == Some(v);
  }

  lemma SecondMember(first: Member, second: Member)
    requires first.key != second.key
    ensures MemberAt([first, second], first.key) == Some(first.value) && MemberAt([first, second], second.key) == Some(second.value)
  {
    assert [first, second][1..] == [second];
  }
}
