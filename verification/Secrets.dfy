/** `_parse`, `_flatten` and the views of a retrieved secret. */
module Secrets {
  import opened Wrappers
  import opened SensitiveNames
  import opened SecretDocuments
  import SecretPaths

  /** The list `_flatten` appends to. */
  class FieldList {
    var items: seq<Field>

    constructor ()
      ensures items == []
    {
      items := [];
    }

    method Append(f: Field)
      modifies this
      ensures items == old(items) + [f]
    {
      items := items + [f];
    }
  }

  method Flatten(v: Json, path: string, inherited: bool, result: FieldList)
    modifies result
    ensures result.items == old(result.items) + Fields(v, path, inherited)
    decreases v
  {
    match v {
      case Obj(members) =>
        if members == [] { result.Append(Field(Shown(path), v, inherited)); } else { FlattenMembers(members, path, inherited, result); }
      case Arr(items) =>
        if items == [] { result.Append(Field(Shown(path), v, inherited)); } else { FlattenItems(items, path, inherited, result); }
      case _ =>
        result.Append(Field(Shown(path), v, inherited));
    }
  }

  method FlattenMembers(members: seq<Member>, path: string, inherited: bool, result: FieldList)
    modifies result
    ensures result.items == old(result.items) + MemberFields(members, path, inherited)
    decreases members
  {
    hide Fields, ChildPath, IsSensitiveName;
    ghost var all := old(result.items) + MemberFields(members, path, inherited);
    assert members[0..] == members;
    for k := 0 to |members|
      invariant result.items + MemberFields(members[k..], path, inherited) == all
    {
      var m := members[k];
      assert members[k..][0] == m && members[k..][1..] == members[k + 1..];
      ghost var before, rest := result.items, MemberFields(members[k + 1..], path, inherited);
      Flatten(m.value, ChildPath(path, m.key), inherited || IsSensitiveName(m.key), result);
      assert before + (result.items[|before|..] + rest) == result.items + rest;
    }
    assert members[|members|..] == [] && result.items + [] == result.items;
  }

  method FlattenItems(items: seq<Json>, path: string, inherited: bool, result: FieldList)
    modifies result
    ensures result.items == old(result.items) + ItemFields(items, 0, path, inherited)
    decreases items
  {
    ghost var all := old(result.items) + ItemFields(items, 0, path, inherited);
    assert items[0..] == items;
    for k := 0 to |items|
      invariant result.items + ItemFields(items[k..], k, path, inherited) == all
    {
      assert items[k..][0] == items[k] && items[k..][1..] == items[k + 1..];
      ghost var before, rest := result.items, ItemFields(items[k + 1..], k + 1, path, inherited);
      Flatten(items[k], IndexPath(path, k), inherited, result);
      assert before + (result.items[|before|..] + rest) == result.items + rest;
    }
    assert items[|items|..] == [] && result.items + [] == result.items;
  }

  /** A retrieved secret: `document` is what json.loads made of the text, if it is JSON. */
  datatype SecretResult = SecretResult(text: string, document: Option<Json>, fields: seq<Field>)

  function Document(r: SecretResult): Json {
    if r.document.Some? then r.document.value else Text(r.text)
  }

  /** What `_parse` answers: a scalar document, and plain text, is one sensitive field at "$". */
  function FieldsOf(document: Json): seq<Field> {
    if IsScalar(document) then [Field("$", document, true)] else Fields(document, "", false)
  }

  /** `_parse`; `parsed` is the outcome of json.loads. */
  method Parse(text: string, parsed: Option<Json>) returns (r: SecretResult)
    ensures r.text == text && r.document == parsed && r.fields == FieldsOf(Document(r))
    ensures IsScalar(Document(r)) ==> r.fields == [Field("$", Document(r), true)]
  {
    if parsed.None? {
      return SecretResult(text, parsed, [Field("$", Text(text), true)]);
    }
    if IsScalar(parsed.value) {
      return SecretResult(text, parsed, [Field("$", parsed.value, true)]);
    }
    var list := new FieldList();
    Flatten(parsed.value, "", false, list);
    assert [] + Fields(parsed.value, "", false) == Fields(parsed.value, "", false);
    r := SecretResult(text, parsed, list.items);
  }

  /** `json_text`, before it is serialised. */
  function JsonView(r: SecretResult, revealed: bool): Json {
    if r.document.None? then (if revealed then Text(r.text) else HIDDEN)
    else if revealed then r.document.value
    else Masked(r.document.value, IsScalar(r.document.value))
  }

  /** The masked view shows, scalar by scalar, the masked values of the field list. */
  lemma MaskedViewShowsTheFields(r: SecretResult)
    requires r.fields == FieldsOf(Document(r))
    ensures Scalars(JsonView(r, false)) == MaskedScalars(r.fields)
    ensures IsScalar(Document(r)) ==> JsonView(r, false) == Text("***REDACTED***")
    ensures JsonView(r, true) == Document(r)
  {
    var v := Document(r);
    if IsScalar(v) {
      assert r.fields[1..] == [];
    } else {
      MaskedTreeShowsTheFields(v, "", false);
    }
  }

  /**
    Counting empty containers too, the masked view shows the same leaves as the field list exactly if no
    sensitive field is an empty container.
   */
  lemma MaskedViewAgreesUnlessSecretEmpty(r: SecretResult)
    requires r.fields == FieldsOf(Document(r))
    ensures LeafValues(JsonView(r, false)) == MaskedValues(r.fields)
      <==> forall f | f in r.fields && f.sensitive :: IsScalar(f.raw)
  {
    var v := Document(r);
    if IsScalar(v) {
      assert r.fields[1..] == [];
      assert LeafValues(JsonView(r, false)) == [HIDDEN];
    } else {
      TreeShowsListUnlessSecretEmpty(v, "", false);
    }
  }

  /** The smallest document on which the two differ. */
  lemma EmptySecretIsShownInTheTree()
    ensures var v := Obj([Member("token", Arr([]))]);
      && Fields(v, "", false) == [Field("token", Arr([]), true)] && Masked(v, false) == v
      && MaskedValues(Fields(v, "", false)) == [HIDDEN]
  {
    hide HasKeyWord;
    var m := Member("token", Arr([]));
    assert [m][1..] == [];
    assert Normalized("token") == "token";
    assert Normalized("token")[0..5] == SENSITIVE_PARTS[0];
    assert IsSensitiveName("token");
    assert MaskedMembers([m], false) == [m];
    assert MemberFields([m], "", false) == Fields(m.value, "token", true) + MemberFields([], "", false);
  }

  /** `field(path)` on a retrieved secret, scalar documents and plain text included. */
  lemma ParsedFieldReturnsItsLeaf(r: SecretResult, at: seq<SecretPaths.Seg>)
    requires r.fields == FieldsOf(Document(r))
    requires SecretPaths.IsDocument(Document(r)) && SecretPaths.HasCleanKeys(Document(r))
    requires SecretPaths.Find(Document(r), at).Some? && SecretPaths.IsLeaf(SecretPaths.Find(Document(r), at).value)
    ensures var path := Shown(SecretPaths.Show("", at));
      SecretPaths.Lookup(r.fields, path) ==
        Some(Field(path, SecretPaths.Find(Document(r), at).value, IsScalar(Document(r)) || SecretPaths.AnySensitive(at)))
  {
    if !IsScalar(Document(r)) { SecretPaths.FieldReturnsItsLeaf(Document(r), at); }
  }

  // ---- log records -----------------------------------------------------------------------------------

  /** `mask` on diagnostics; `maskText` stands for the text patterns. */
  function Mask(v: Json, maskText: string -> string): Json
    decreases v
  {
    match v
    case Obj(members) => Obj(MaskMembers(members, maskText))
    case Arr(items) => Arr(MaskItems(items, maskText))
    case Text(text) => Text(maskText(text))
    case _ => v
  }

  function MaskMembers(members: seq<Member>, maskText: string -> string): seq<Member>
    decreases members
  {
    if members == [] then [] else
      [Member(members[0].key, if IsSensitiveName(members[0].key) then HIDDEN else Mask(members[0].value, maskText))]
      + MaskMembers(members[1..], maskText)
  }

  function MaskItems(items: seq<Json>, maskText: string -> string): seq<Json>
    decreases items
  {
    if items == [] then [] else [Mask(items[0], maskText)] + MaskItems(items[1..], maskText)
  }

  /** The two values differ only below sensitive keys, in whatever way, and in texts that are masked alike. */
  predicate SameOutsideSecrets(v: Json, w: Json, maskText: string -> string)
    decreases v
  {
    match v
    case Obj(members) => w.Obj? && SameMembers(members, w.members, maskText)
    case Arr(items) => w.Arr? && SameItems(items, w.items, maskText)
    case Text(text) => w.Text? && maskText(text) == maskText(w.text)
    case _ => v == w
  }

  predicate SameMembers(ms: seq<Member>, ns: seq<Member>, maskText: string -> string)
    decreases ms
  {
    if ms == [] || ns == [] then ms == [] && ns == []
    else
      && ms[0].key == ns[0].key && (IsSensitiveName(ms[0].key) || SameOutsideSecrets(ms[0].value, ns[0].value, maskText))
      && SameMembers(ms[1..], ns[1..], maskText)
  }

  predicate SameItems(vs: seq<Json>, ws: seq<Json>, maskText: string -> string)
    decreases vs
  {
    if vs == [] || ws == [] then vs == [] && ws == []
    else SameOutsideSecrets(vs[0], ws[0], maskText) && SameItems(vs[1..], ws[1..], maskText)
  }

  /** `mask` hides what is below sensitive keys, shape included, and nothing else. */
  lemma {:induction false} MaskHidesBelowSensitiveKeys(v: Json, w: Json, maskText: string -> string)
    ensures Mask(v, maskText) == Mask(w, maskText) <==> SameOutsideSecrets(v, w, maskText)
    decreases v
  {
    match v
    case Obj(members) => if w.Obj? { MembersHidden(members, w.members, maskText); }
    case Arr(items) => if w.Arr? { ItemsHidden(items, w.items, maskText); }
    case _ =>
  }

  lemma {:induction false} MembersHidden(ms: seq<Member>, ns: seq<Member>, maskText: string -> string)
    ensures MaskMembers(ms, maskText) == MaskMembers(ns, maskText) <==> SameMembers(ms, ns, maskText)
    decreases ms
  {
    if ms != [] && ns != [] {
      if ms[0].key == ns[0].key { MaskHidesBelowSensitiveKeys(ms[0].value, ns[0].value, maskText); }
      MembersHidden(ms[1..], ns[1..], maskText);
      var a, b := MaskMembers(ms, maskText), MaskMembers(ns, maskText);
      assert a[1..] == MaskMembers(ms[1..], maskText) && b[1..] == MaskMembers(ns[1..], maskText);
      assert a == [a[0]] + a[1..] && b == [b[0]] + b[1..];
    }
  }

  lemma {:induction false} ItemsHidden(vs: seq<Json>, ws: seq<Json>, maskText: string -> string)
    ensures MaskItems(vs, maskText) == MaskItems(ws, maskText) <==> SameItems(vs, ws, maskText)
    decreases vs
  {
    if vs != [] && ws != [] {
      MaskHidesBelowSensitiveKeys(vs[0], ws[0], maskText);
      ItemsHidden(vs[1..], ws[1..], maskText);
      var a, b := MaskItems(vs, maskText), MaskItems(ws, maskText);
      assert a[1..] == MaskItems(vs[1..], maskText) && b[1..] == MaskItems(ws[1..], maskText);
      assert a == [a[0]] + a[1..] && b == [b[0]] + b[1..];
    }
  }

  /** Masking a masked value changes nothing, provided masking a masked text does not. */
  lemma {:induction false} MaskIsIdempotent(v: Json, maskText: string -> string)
    requires forall t :: maskText(maskText(t)) == maskText(t)
    ensures SameOutsideSecrets(Mask(v, maskText), v, maskText)
    ensures Mask(Mask(v, maskText), maskText) == Mask(v, maskText)
    decreases v
  {
    match v {
      case Obj(members) => MaskedMembersUnchanged(members, maskText);
      case Arr(items) => MaskedItemsUnchanged(items, maskText);
      case _ =>
    }
    MaskHidesBelowSensitiveKeys(Mask(v, maskText), v, maskText);
  }

  lemma {:induction false} MaskedMembersUnchanged(ms: seq<Member>, maskText: string -> string)
    requires forall t :: maskText(maskText(t)) == maskText(t)
    ensures SameMembers(MaskMembers(ms, maskText), ms, maskText)
    decreases ms
  {
    if ms != [] {
      MaskIsIdempotent(ms[0].value, maskText);
      MaskedMembersUnchanged(ms[1..], maskText);
      assert MaskMembers(ms, maskText)[1..] == MaskMembers(ms[1..], maskText);
    }
  }

  lemma {:induction false} MaskedItemsUnchanged(vs: seq<Json>, maskText: string -> string)
    requires forall t :: maskText(maskText(t)) == maskText(t)
    ensures SameItems(MaskItems(vs, maskText), vs, maskText)
    decreases vs
  {
    if vs != [] {
      MaskIsIdempotent(vs[0], maskText);
      MaskedItemsUnchanged(vs[1..], maskText);
      assert MaskItems(vs, maskText)[1..] == MaskItems(vs[1..], maskText);
    }
  }
}
