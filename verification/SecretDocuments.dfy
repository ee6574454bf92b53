/**
  Secret documents: the flattened field list with its printed paths, and the masked tree.  Two recursions over
  the same JSON document that have to agree on what is shown.
 */
module SecretDocuments {
  import opened Wrappers
  import opened SensitiveNames

  /** A parsed document; a member list keeps the order and the distinct keys of a Python dict. */
  datatype Json =
    | Null
    | Bool(b: bool)
    | Number(numeral: string)
    | Text(text: string)
    | Arr(items: seq<Json>)
    | Obj(members: seq<Member>)

  datatype Member = Member(key: string, value: Json)

  /** One displayable value. */
  datatype Field = Field(path: string, raw: Json, sensitive: bool)

  const HIDDEN := Text(REDACTED)

  function MaskedValue(f: Field): Json {
    if f.sensitive then HIDDEN else f.raw
  }

  predicate IsScalar(v: Json) {
    !v.Arr? && !v.Obj?
  }

  // ---- the two recursions ------------------------------------------------------------------------

  function ChildPath(path: string, key: string): string {
    if path != "" then path + "." + key else key
  }

  function Decimal(n: nat): (s: string)
    ensures s != "" && forall i | 0 <= i < |s| :: '0' <= s[i] <= '9'
  {
    if n < 10 then [n as char + '0'] else Decimal(n / 10) + [(n % 10) as char + '0']
  }

  function IndexPath(path: string, i: nat): string {
    path + "[" + Decimal(i) + "]"
  }

  function Shown(path: string): string {
    if path == "" then "$" else path
  }

  /** What `_flatten` appends. */
  function Fields(v: Json, path: string, inherited: bool): seq<Field>
    decreases v
  {
    match v
    case Obj(members) =>
      if members == [] then [Field(Shown(path), v, inherited)] else MemberFields(members, path, inherited)
    case Arr(items) =>
      if items == [] then [Field(Shown(path), v, inherited)] else ItemFields(items, 0, path, inherited)
    case _ => [Field(Shown(path), v, inherited)]
  }

  function MemberFields(members: seq<Member>, path: string, inherited: bool): seq<Field>
    decreases members
  {
    if members == [] then [] else
      Fields(members[0].value, ChildPath(path, members[0].key), inherited || IsSensitiveName(members[0].key))
      + MemberFields(members[1..], path, inherited)
  }

  function ItemFields(items: seq<Json>, from: nat, path: string, inherited: bool): seq<Field>
    decreases items
  {
    if items == [] then []
    else Fields(items[0], IndexPath(path, from), inherited) + ItemFields(items[1..], from + 1, path, inherited)
  }

  /** `_masked_document` */
  function Masked(v: Json, sensitive: bool): Json
    decreases v
  {
    match v
    case Obj(members) => Obj(MaskedMembers(members, sensitive))
    case Arr(items) => Arr(MaskedItems(items, sensitive))
    case _ => if sensitive then HIDDEN else v
  }

  function MaskedMembers(members: seq<Member>, sensitive: bool): seq<Member>
    decreases members
  {
    if members == [] then [] else
      [Member(members[0].key, Masked(members[0].value, sensitive || IsSensitiveName(members[0].key)))]
      + MaskedMembers(members[1..], sensitive)
  }

  function MaskedItems(items: seq<Json>, sensitive: bool): seq<Json>
    decreases items
  {
    if items == [] then [] else [Masked(items[0], sensitive)] + MaskedItems(items[1..], sensitive)
  }

  // ---- they agree leaf by leaf -------------------------------------------------------------------

  /** The scalars of a document, in document order. */
  function Scalars(v: Json): seq<Json>
    decreases v
  {
    match v
    case Obj(members) => MemberScalars(members)
    case Arr(items) => ItemScalars(items)
    case _ => [v]
  }

  function MemberScalars(members: seq<Member>): seq<Json>
    decreases members
  {
    if members == [] then [] else Scalars(members[0].value) + MemberScalars(members[1..])
  }

  function ItemScalars(items: seq<Json>): seq<Json>
    decreases items
  {
    if items == [] then [] else Scalars(items[0]) + ItemScalars(items[1..])
  }

  /** The masked values of the scalar fields, in order. */
  function MaskedScalars(fields: seq<Field>): seq<Json> {
    if fields == [] then []
    else (if IsScalar(fields[0].raw) then [MaskedValue(fields[0])] else []) + MaskedScalars(fields[1..])
  }

  lemma {:induction false} MaskedScalarsConcat(a: seq<Field>, b: seq<Field>)
    ensures MaskedScalars(a + b) == MaskedScalars(a) + MaskedScalars(b)
    decreases |a|
  {
    if a == [] {
      assert a + b == b && [] + MaskedScalars(b) == MaskedScalars(b);
    } else {
      assert (a + b)[1..] == a[1..] + b && (a + b)[0] == a[0];
      MaskedScalarsConcat(a[1..], b);
      var head := if IsScalar(a[0].raw) then [MaskedValue(a[0])] else [];
      hide MaskedValue, IsScalar;
      assert head + (MaskedScalars(a[1..]) + MaskedScalars(b)) == head + MaskedScalars(a[1..]) + MaskedScalars(b);
    }
  }

  /** The n-th scalar of the masked tree is the masked value of the n-th scalar field. */
  lemma {:induction false} MaskedTreeShowsTheFields(v: Json, path: string, sensitive: bool)
    ensures Scalars(Masked(v, sensitive)) == MaskedScalars(Fields(v, path, sensitive))
    decreases v
  {
    match v
    case Obj(members) => if members != [] { MaskedMembersShowTheFields(members, path, sensitive); }
    case Arr(items) => if items != [] { MaskedItemsShowTheFields(items, 0, path, sensitive); }
    case _ => assert Fields(v, path, sensitive)[1..] == [];
  }

  lemma {:induction false} MaskedMembersShowTheFields(members: seq<Member>, path: string, sensitive: bool)
    ensures MemberScalars(MaskedMembers(members, sensitive)) == MaskedScalars(MemberFields(members, path, sensitive))
    decreases members
  {
    if members != [] {
      var child, below := ChildPath(path, members[0].key), sensitive || IsSensitiveName(members[0].key);
      MaskedTreeShowsTheFields(members[0].value, child, below);
      MaskedMembersShowTheFields(members[1..], path, sensitive);
      MaskedScalarsConcat(Fields(members[0].value, child, below), MemberFields(members[1..], path, sensitive));
      assert MaskedMembers(members, sensitive)[1..] == MaskedMembers(members[1..], sensitive);
    }
  }

  lemma {:induction false} MaskedItemsShowTheFields(items: seq<Json>, from: nat, path: string, sensitive: bool)
    ensures ItemScalars(MaskedItems(items, sensitive)) == MaskedScalars(ItemFields(items, from, path, sensitive))
    decreases items
  {
    if items != [] {
      MaskedTreeShowsTheFields(items[0], IndexPath(path, from), sensitive);
      MaskedItemsShowTheFields(items[1..], from + 1, path, sensitive);
      MaskedScalarsConcat(Fields(items[0], IndexPath(path, from), sensitive), ItemFields(items[1..], from + 1, path, sensitive));
      assert MaskedItems(items, sensitive)[1..] == MaskedItems(items[1..], sensitive);
    }
  }

  // ---- empty containers ------------------------------------------------------------------------------

  /** The leaves of a document, in document order, where an empty container counts as one. */
  function LeafValues(v: Json): seq<Json>
    decreases v
  {
    match v
    case Obj(members) => if members == [] then [v] else MemberLeafValues(members)
    case Arr(items) => if items == [] then [v] else ItemLeafValues(items)
    case _ => [v]
  }

  function MemberLeafValues(members: seq<Member>): seq<Json>
    decreases members
  {
    if members == [] then [] else LeafValues(members[0].value) + MemberLeafValues(members[1..])
  }

  function ItemLeafValues(items: seq<Json>): seq<Json>
    decreases items
  {
    if items == [] then [] else LeafValues(items[0]) + ItemLeafValues(items[1..])
  }

  /** What the masked tree shows for a field: an empty container as it is. */
  function TreeValue(f: Field): Json {
    if IsScalar(f.raw) then MaskedValue(f) else f.raw
  }

  function TreeValues(fields: seq<Field>): (values: seq<Json>)
    ensures |values| == |fields| && forall i | 0 <= i < |fields| :: values[i] == TreeValue(fields[i])
  {
    if fields == [] then [] else [TreeValue(fields[0])] + TreeValues(fields[1..])
  }

  function MaskedValues(fields: seq<Field>): (values: seq<Json>)
    ensures |values| == |fields| && forall i | 0 <= i < |fields| :: values[i] == MaskedValue(fields[i])
  {
    if fields == [] then [] else [MaskedValue(fields[0])] + MaskedValues(fields[1..])
  }

  lemma TreeValuesConcat(a: seq<Field>, b: seq<Field>)
    ensures TreeValues(a + b) == TreeValues(a) + TreeValues(b)
  {
  }

  lemma {:induction false} MaskedLeavesAreTreeValues(v: Json, path: string, sensitive: bool)
    ensures LeafValues(Masked(v, sensitive)) == TreeValues(Fields(v, path, sensitive))
    decreases v
  {
    match v
    case Obj(members) => if members != [] { MaskedMemberLeaves(members, path, sensitive); }
    case Arr(items) => if items != [] { MaskedItemLeaves(items, 0, path, sensitive); }
    case _ =>
  }

  lemma {:induction false} MaskedMemberLeaves(members: seq<Member>, path: string, sensitive: bool)
    ensures MemberLeafValues(MaskedMembers(members, sensitive)) == TreeValues(MemberFields(members, path, sensitive))
    decreases members
  {
    if members != [] {
      var child, below := ChildPath(path, members[0].key), sensitive || IsSensitiveName(members[0].key);
      MaskedLeavesAreTreeValues(members[0].value, child, below);
      MaskedMemberLeaves(members[1..], path, sensitive);
      TreeValuesConcat(Fields(members[0].value, child, below), MemberFields(members[1..], path, sensitive));
      assert MaskedMembers(members, sensitive)[1..] == MaskedMembers(members[1..], sensitive);
    }
  }

  lemma {:induction false} MaskedItemLeaves(items: seq<Json>, from: nat, path: string, sensitive: bool)
    ensures ItemLeafValues(MaskedItems(items, sensitive)) == TreeValues(ItemFields(items, from, path, sensitive))
    decreases items
  {
    if items != [] {
      MaskedLeavesAreTreeValues(items[0], IndexPath(path, from), sensitive);
      MaskedItemLeaves(items[1..], from + 1, path, sensitive);
      TreeValuesConcat(Fields(items[0], IndexPath(path, from), sensitive), ItemFields(items[1..], from + 1, path, sensitive));
      assert MaskedItems(items, sensitive)[1..] == MaskedItems(items[1..], sensitive);
    }
  }

  /**
    Leaf by leaf, empty containers included, the masked tree shows what the field list shows exactly if no
    sensitive field is an empty container: the list hides that one, the tree does not.
   */
  lemma TreeShowsListUnlessSecretEmpty(v: Json, path: string, sensitive: bool)
    ensures LeafValues(Masked(v, sensitive)) == MaskedValues(Fields(v, path, sensitive))
      <==> forall f | f in Fields(v, path, sensitive) && f.sensitive :: IsScalar(f.raw)
  {
    MaskedLeavesAreTreeValues(v, path, sensitive);
    var fields := Fields(v, path, sensitive);
    if TreeValues(fields) == MaskedValues(fields) {
      forall f | f in fields && f.sensitive ensures IsScalar(f.raw) {
        var i :| 0 <= i < |fields| && fields[i] == f;
        assert TreeValues(fields)[i] == MaskedValues(fields)[i];
      }
    }
  }

  // ---- masking hides the secrets and nothing else --------------------------------------------------

  /** The two documents have the same shape, and the same scalars wherever no key above is sensitive. */
  predicate SameButSecrets(v: Json, w: Json, sensitive: bool)
    decreases v
  {
    match v
    case Obj(members) => w.Obj? && SameMembersButSecrets(members, w.members, sensitive)
    case Arr(items) => w.Arr? && SameItemsButSecrets(items, w.items, sensitive)
    case _ => IsScalar(w) && (sensitive || v == w)
  }

  predicate SameMembersButSecrets(ms: seq<Member>, ns: seq<Member>, sensitive: bool)
    decreases ms
  {
    if ms == [] || ns == [] then ms == [] && ns == []
    else
      && ms[0].key == ns[0].key && SameButSecrets(ms[0].value, ns[0].value, sensitive || IsSensitiveName(ms[0].key))
      && SameMembersButSecrets(ms[1..], ns[1..], sensitive)
  }

  predicate SameItemsButSecrets(vs: seq<Json>, ws: seq<Json>, sensitive: bool)
    decreases vs
  {
    if vs == [] || ws == [] then vs == [] && ws == []
    else SameButSecrets(vs[0], ws[0], sensitive) && SameItemsButSecrets(vs[1..], ws[1..], sensitive)
  }

  /** Two documents are masked to the same tree exactly if they differ in secrets only. */
  lemma {:induction false} MaskingHidesSecretsOnly(v: Json, w: Json, sensitive: bool)
    ensures Masked(v, sensitive) == Masked(w, sensitive) <==> SameButSecrets(v, w, sensitive)
    decreases v
  {
    match v
    case Obj(members) => if w.Obj? { MembersHideSecretsOnly(members, w.members, sensitive); }
    case Arr(items) => if w.Arr? { ItemsHideSecretsOnly(items, w.items, sensitive); }
    case _ =>
  }

  lemma {:induction false} MembersHideSecretsOnly(ms: seq<Member>, ns: seq<Member>, sensitive: bool)
    ensures MaskedMembers(ms, sensitive) == MaskedMembers(ns, sensitive) <==> SameMembersButSecrets(ms, ns, sensitive)
    decreases ms
  {
    if ms != [] && ns != [] {
      if ms[0].key == ns[0].key {
        MaskingHidesSecretsOnly(ms[0].value, ns[0].value, sensitive || IsSensitiveName(ms[0].key));
      }
      MembersHideSecretsOnly(ms[1..], ns[1..], sensitive);
      var a, b := MaskedMembers(ms, sensitive), MaskedMembers(ns, sensitive);
      assert a[1..] == MaskedMembers(ms[1..], sensitive) && b[1..] == MaskedMembers(ns[1..], sensitive);
      assert a == [a[0]] + a[1..] && b == [b[0]] + b[1..];
    }
  }

  lemma {:induction false} ItemsHideSecretsOnly(vs: seq<Json>, ws: seq<Json>, sensitive: bool)
    ensures MaskedItems(vs, sensitive) == MaskedItems(ws, sensitive) <==> SameItemsButSecrets(vs, ws, sensitive)
    decreases vs
  {
    if vs != [] && ws != [] {
      MaskingHidesSecretsOnly(vs[0], ws[0], sensitive);
      ItemsHideSecretsOnly(vs[1..], ws[1..], sensitive);
      var a, b := MaskedItems(vs, sensitive), MaskedItems(ws, sensitive);
      assert a[1..] == MaskedItems(vs[1..], sensitive) && b[1..] == MaskedItems(ws[1..], sensitive);
      assert a == [a[0]] + a[1..] && b == [b[0]] + b[1..];
    }
  }

  /** A masked document is its original up to secrets, so masking keeps its shape and keys. */
  lemma {:induction false} MaskedIsSameButSecrets(v: Json, sensitive: bool)
    ensures SameButSecrets(v, Masked(v, sensitive), sensitive)
    decreases v
  {
    match v
    case Obj(members) => MaskedMembersAreSame(members, sensitive);
    case Arr(items) => MaskedItemsAreSame(items, sensitive);
    case _ =>
  }

  lemma {:induction false} MaskedMembersAreSame(ms: seq<Member>, sensitive: bool)
    ensures SameMembersButSecrets(ms, MaskedMembers(ms, sensitive), sensitive)
    decreases ms
  {
    if ms != [] {
      MaskedIsSameButSecrets(ms[0].value, sensitive || IsSensitiveName(ms[0].key));
      MaskedMembersAreSame(ms[1..], sensitive);
      assert MaskedMembers(ms, sensitive)[1..] == MaskedMembers(ms[1..], sensitive);
    }
  }

  lemma {:induction false} MaskedItemsAreSame(vs: seq<Json>, sensitive: bool)
    ensures SameItemsButSecrets(vs, MaskedItems(vs, sensitive), sensitive)
    decreases vs
  {
    if vs != [] {
      MaskedIsSameButSecrets(vs[0], sensitive);
      MaskedItemsAreSame(vs[1..], sensitive);
      assert MaskedItems(vs, sensitive)[1..] == MaskedItems(vs[1..], sensitive);
    }
  }

  /** Masking twice is masking once. */
  lemma MaskingIsIdempotent(v: Json, sensitive: bool)
    ensures Masked(Masked(v, sensitive), sensitive) == Masked(v, sensitive)
  {
    MaskedIsSameButSecrets(v, sensitive);
    MaskingHidesSecretsOnly(v, Masked(v, sensitive), sensitive);
  }
}
