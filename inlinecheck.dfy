/** The JSON-tag check over API struct types (cmd/inlinecheck/main.go), on an
    inductive descriptor of Go types in place of run-time reflection. */
module InlineCheck {

  /** A Go type as far as the check looks at it. Struct types carry an identity (their
      package path and name) and their fields; the container kinds carry their element
      type (for a map, its value type). */
  datatype Type =
    | Struct(id: string, fields: seq<Field>)
    | Ptr(elem: Type)
    | Slice(elem: Type)
    | Array(elem: Type)
    | Map(elem: Type)
    | Basic(id: string)

  /** A struct field: its name, whether it is exported or embedded, the value of its
      `json` tag ("" when absent) and its type. */
  datatype Field = Field(name: string, exported: bool, anonymous: bool, jsonTag: string, typ: Type)

  // ---- parseTag -----------------------------------------------------------------

  /** The index of the first comma, or |tag| when there is none. */
  function FirstComma(tag: string): (k: nat)
    ensures k <= |tag|
    ensures forall j :: 0 <= j < k ==> tag[j] != ','
    ensures k < |tag| ==> tag[k] == ','
  {
    if tag == [] then 0
    else if tag[0] == ',' then 0
    else 1 + FirstComma(tag[1..])
  }

  /** parseTag: the name part of a tag, before the first comma. */
  function ParseTag(tag: string): (name: string)
    ensures ',' !in tag ==> name == tag
    ensures ',' in tag ==> |name| < |tag| && tag[|name|] == ','
    ensures name <= tag
    ensures ',' !in name
  {
    var k := FirstComma(tag);
    if k < |tag| then tag[..k] else tag
  }

  // ---- checkType ----------------------------------------------------------------

  /** The type whose fields are walked for a field: its type with one level of pointer,
      slice, array or map removed. */
  function Unwrapped(t: Type): (u: Type)
    ensures u == t || u < t
  {
    match t
    case Ptr(e) => e
    case Slice(e) => e
    case Array(e) => e
    case Map(e) => e
    case _ => t
  }

  /** A field the check looks at: exported, and a struct once unwrapped. */
  predicate Checked(f: Field) {
    f.exported && Unwrapped(f.typ).Struct?
  }

  /** The path reported for a checked field. */
  function FieldPath(path: string, f: Field): string {
    match f.typ
    case Slice(_) => path + "." + f.name + "[0]"
    case Array(_) => path + "." + f.name + "[0]"
    case Map(_) => path + "." + f.name + "[*]"
    case _ => path + "." + f.name
  }

  /** The reported path extends the parent's with `.Name` for a struct or pointer
      field, `.Name[0]` for a slice or array field and `.Name[*]` for a map field. */
  lemma FieldPathShape(path: string, f: Field)
    ensures f.typ.Struct? || f.typ.Ptr? ==> FieldPath(path, f) == path + "." + f.name
    ensures f.typ.Slice? || f.typ.Array? ==> FieldPath(path, f) == path + "." + f.name + "[0]"
    ensures f.typ.Map? ==> FieldPath(path, f) == path + "." + f.name + "[*]"
  {
  }

  /** The error reported for a field without a JSON name. */
  datatype TagError = NoJsonTag(fieldPath: string) {
    /** The error's text. */
    function Text(): string {
      "field " + fieldPath + " has no json tag and is not embedded, will cause unpredictable deserialization"
    }
  }

  /** The error a checked field contributes itself, before its own type is walked. */
  function FieldErrors(path: string, f: Field): seq<TagError> {
    if ParseTag(f.jsonTag) == "" && !f.anonymous then [NoJsonTag(FieldPath(path, f))] else []
  }

  /** The walk's state: seenTypes and the error list. */
  datatype State = State(seen: set<Type>, errs: seq<TagError>)

  /** checkType(typ, path) from state st. */
  function CheckSpec(typ: Type, path: string, st: State): State
    requires typ.Struct?
    decreases typ, 1
  {
    if typ in st.seen then st
    else
      var after := FieldsSpec(typ, path, 0, st);
      after.(seen := after.seen + {typ})
  }

  /** The field loop of checkType from field i on. */
  function FieldsSpec(typ: Type, path: string, i: nat, st: State): State
    requires typ.Struct?
    decreases typ, 0, |typ.fields| - i
  {
    if i >= |typ.fields| then st
    else
      var f := typ.fields[i];
      assert f in typ.fields;
      if !Checked(f) then FieldsSpec(typ, path, i + 1, st)
      else
        var newPath := FieldPath(path, f);
        var st1 := st.(errs := st.errs + FieldErrors(path, f));
        FieldsSpec(typ, path, i + 1, CheckSpec(Unwrapped(f.typ), newPath, st1))
  }

  /** The walker: the set of struct types already walked and the errors so far. */
  class Checker {
    var seenTypes: set<Type>
    var errs: seq<TagError>

    function Current(): State
      reads this
    {
      State(seenTypes, errs)
    }

    constructor ()
      ensures seenTypes == {} && errs == []
    {
      seenTypes := {};
      errs := [];
    }

    /** checkType */
    method CheckType(typ: Type, path: string)
      requires typ.Struct?
      modifies this
      ensures Current() == CheckSpec(typ, path, old(Current()))
      decreases typ
    {
      if typ in seenTypes {
        return;
      }
      ghost var start := Current();
      var i := 0;
      while i < |typ.fields|
        invariant 0 <= i <= |typ.fields|
        invariant FieldsSpec(typ, path, i, Current()) == FieldsSpec(typ, path, 0, start)
      {
        var field := typ.fields[i];
        assert field in typ.fields;
        if !field.exported {
          i := i + 1;
          continue;
        }
        var fieldTyp := Unwrapped(field.typ);
        if !fieldTyp.Struct? {
          i := i + 1;
          continue;
        }
        var newPath := FieldPath(path, field);
        ghost var before := Current();
        var name := ParseTag(field.jsonTag);
        if name == "" && !field.anonymous {
          errs := errs + [NoJsonTag(newPath)];
        }
        ghost var st1 := before.(errs := before.errs + FieldErrors(path, field));
        assert Current() == st1;
        assert FieldsSpec(typ, path, i, before) == FieldsSpec(typ, path, i + 1, CheckSpec(fieldTyp, newPath, st1));
        CheckType(fieldTyp, newPath);
        i := i + 1;
      }
      seenTypes := seenTypes + {typ};
    }
  }

  // ---- Properties of the walk ----------------------------------------------------

  /** A type already seen appends no error and leaves the seen-set unchanged. */
  lemma SeenTypeUnchanged(typ: Type, path: string, st: State)
    requires typ.Struct? && typ in st.seen
    ensures CheckSpec(typ, path, st) == st
  {
  }

  /** The walk only grows the state: errors are only appended, types are only added,
      and on return the walked type is in the seen-set. */
  lemma {:induction false} CheckGrows(typ: Type, path: string, st: State)
    requires typ.Struct?
    ensures var r := CheckSpec(typ, path, st);
      st.errs <= r.errs && st.seen <= r.seen && typ in r.seen
    decreases typ, 1
  {
    if typ !in st.seen {
      FieldsGrow(typ, path, 0, st);
    }
  }

  lemma {:induction false} FieldsGrow(typ: Type, path: string, i: nat, st: State)
    requires typ.Struct?
    ensures var r := FieldsSpec(typ, path, i, st);
      st.errs <= r.errs && st.seen <= r.seen
    decreases typ, 0, |typ.fields| - i
  {
    if i < |typ.fields| {
      var f := typ.fields[i];
      assert f in typ.fields;
      if Checked(f) {
        var st1 := st.(errs := st.errs + FieldErrors(path, f));
        var st2 := CheckSpec(Unwrapped(f.typ), FieldPath(path, f), st1);
        CheckGrows(Unwrapped(f.typ), FieldPath(path, f), st1);
        FieldsGrow(typ, path, i + 1, st2);
      } else {
        FieldsGrow(typ, path, i + 1, st);
      }
    }
  }

  /** The errors of fields i.. of a struct, counting only the fields' own errors:
      one per checked, non-embedded field whose tag has an empty name, in field order. */
  function OwnErrors(path: string, fields: seq<Field>): seq<TagError> {
    if fields == [] then []
    else (if Checked(fields[0]) then FieldErrors(path, fields[0]) else []) + OwnErrors(path, fields[1..])
  }

  /** When the walked types of all checked fields are already seen, the walk of a new
      struct appends exactly its fields' own errors, and no field that is unexported or
      whose unwrapped type is not a struct contributes anything. */
  lemma {:induction false} FieldsOfSeenTypes(typ: Type, path: string, i: nat, st: State)
    requires typ.Struct? && i <= |typ.fields|
    requires forall f :: f in typ.fields && Checked(f) ==> Unwrapped(f.typ) in st.seen
    ensures FieldsSpec(typ, path, i, st) == st.(errs := st.errs + OwnErrors(path, typ.fields[i..]))
    decreases |typ.fields| - i
  {
    if i < |typ.fields| {
      var f := typ.fields[i];
      assert f in typ.fields;
      assert typ.fields[i..][1..] == typ.fields[i + 1..];
      var st1 := if Checked(f) then st.(errs := st.errs + FieldErrors(path, f)) else st;
      assert st1.seen == st.seen;
      if Checked(f) {
        assert CheckSpec(Unwrapped(f.typ), FieldPath(path, f), st1) == st1;
      }
      assert FieldsSpec(typ, path, i, st) == FieldsSpec(typ, path, i + 1, st1);
      FieldsOfSeenTypes(typ, path, i + 1, st1);
      assert OwnErrors(path, typ.fields[i..]) == (if Checked(f) then FieldErrors(path, f) else []) + OwnErrors(path, typ.fields[i + 1..]);
    } else {
      assert typ.fields[i..] == [];
    }
  }

  /** a occurs in b in order, possibly with other errors in between. */
  predicate Subsequence(a: seq<TagError>, b: seq<TagError>)
    decreases |b|
  {
    if a == [] then true
    else if b == [] then false
    else (a[0] == b[0] && Subsequence(a[1..], b[1..])) || Subsequence(a, b[1..])
  }

  lemma {:induction false} SubsequencePrepend(a: seq<TagError>, x: seq<TagError>, b: seq<TagError>)
    requires Subsequence(a, b)
    ensures Subsequence(a, x + b)
    decreases |x|
  {
    if x == [] {
      assert x + b == b;
    } else {
      assert (x + b)[1..] == x[1..] + b;
      SubsequencePrepend(a, x[1..], b);
    }
  }

  lemma SubsequenceCons(h: seq<TagError>, a: seq<TagError>, b: seq<TagError>)
    requires |h| <= 1 && Subsequence(a, b)
    ensures Subsequence(h + a, h + b)
  {
    if h == [] {
      assert h + a == a && h + b == b;
    } else {
      assert (h + a)[1..] == a && (h + b)[1..] == b;
    }
  }

  lemma {:induction false} SubsequenceIn(a: seq<TagError>, b: seq<TagError>, e: TagError)
    requires Subsequence(a, b) && e in a
    ensures e in b
    decreases |b|
  {
    if a[0] == b[0] && Subsequence(a[1..], b[1..]) {
      if e != a[0] {
        assert e in a[1..];
        SubsequenceIn(a[1..], b[1..], e);
      }
    } else {
      SubsequenceIn(a, b[1..], e);
    }
  }

  /** A field that is checked, not embedded and whose tag has an empty name is among
      the fields' own errors. */
  lemma {:induction false} OwnErrorsIn(path: string, fields: seq<Field>, f: Field)
    requires f in fields && Checked(f) && ParseTag(f.jsonTag) == "" && !f.anonymous
    ensures NoJsonTag(FieldPath(path, f)) in OwnErrors(path, fields)
    decreases |fields|
  {
    if fields[0] != f {
      assert f in fields[1..];
      OwnErrorsIn(path, fields[1..], f);
    }
  }

  /** Whatever the nested walks append, the field loop from field i on appends the
      fields' own errors in field order. */
  lemma {:induction false} FieldsReportInOrder(typ: Type, path: string, i: nat, st: State)
    requires typ.Struct? && i <= |typ.fields|
    ensures var r := FieldsSpec(typ, path, i, st);
      st.errs <= r.errs && Subsequence(OwnErrors(path, typ.fields[i..]), r.errs[|st.errs|..])
    decreases |typ.fields| - i
  {
    var r := FieldsSpec(typ, path, i, st);
    FieldsGrow(typ, path, i, st);
    if i == |typ.fields| {
      assert typ.fields[i..] == [];
    } else {
      var f := typ.fields[i];
      assert f in typ.fields;
      assert typ.fields[i..][1..] == typ.fields[i + 1..];
      var rest := OwnErrors(path, typ.fields[i + 1..]);
      if Checked(f) {
        var own := FieldErrors(path, f);
        var st1 := st.(errs := st.errs + own);
        var st2 := CheckSpec(Unwrapped(f.typ), FieldPath(path, f), st1);
        CheckGrows(Unwrapped(f.typ), FieldPath(path, f), st1);
        FieldsReportInOrder(typ, path, i + 1, st2);
        assert r == FieldsSpec(typ, path, i + 1, st2);
        var d1 := st2.errs[|st1.errs|..];
        var d2 := r.errs[|st2.errs|..];
        SubsequencePrepend(rest, d1, d2);
        SubsequenceCons(own, rest, d1 + d2);
        assert r.errs[|st.errs|..] == own + (d1 + d2);
        assert OwnErrors(path, typ.fields[i..]) == own + rest;
      } else {
        FieldsReportInOrder(typ, path, i + 1, st);
        assert OwnErrors(path, typ.fields[i..]) == rest;
      }
    }
  }

  /** checkType of a struct not seen before reports each of its checked, non-embedded
      fields whose tag has an empty name, in field order, even when the walks of the
      fields' own types append errors in between. */
  lemma NewStructReportsOwnFields(typ: Type, path: string, st: State)
    requires typ.Struct? && typ !in st.seen
    ensures var r := CheckSpec(typ, path, st);
      && st.errs <= r.errs
      && Subsequence(OwnErrors(path, typ.fields), r.errs[|st.errs|..])
      && forall f :: f in typ.fields && Checked(f) && ParseTag(f.jsonTag) == "" && !f.anonymous
           ==> NoJsonTag(FieldPath(path, f)) in r.errs[|st.errs|..]
  {
    var r := CheckSpec(typ, path, st);
    FieldsReportInOrder(typ, path, 0, st);
    assert typ.fields[0..] == typ.fields;
    forall f | f in typ.fields && Checked(f) && ParseTag(f.jsonTag) == "" && !f.anonymous
      ensures NoJsonTag(FieldPath(path, f)) in r.errs[|st.errs|..]
    {
      OwnErrorsIn(path, typ.fields, f);
      SubsequenceIn(OwnErrors(path, typ.fields), r.errs[|st.errs|..], NoJsonTag(FieldPath(path, f)));
    }
  }
}
