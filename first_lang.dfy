/** The multilingual field normaliser: extracts one display string from the
    shapes PrestaShop uses for translated fields (a scalar, a map keyed by
    language id, a "language" wrapper, XML-to-JSON objects whose text sits
    under a content key). Presa_Mapper::get_first_lang, its API-side twin
    extract_first_lang_value and get_product_id_scalar. */
module FieldNormalizer {
  import opened Common
  import opened Php
  import Text

  /** The content keys, in the order they are tried. */
  const ContentKeys: seq<string> := ["value", "#", "__value", "content", "$"]

  /** The value under the first of `keys` that holds a scalar. */
  function ContentHit(v: Val, keys: seq<string>): (r: Option<Val>)
    ensures r.Some? ==> (IsScalar(r.value)
      && exists i :: 0 <= i < |keys| && Field(v, keys[i]) == r.value
           && forall j :: 0 <= j < i ==> !IsScalar(Field(v, keys[j])))
    ensures r.None? ==> forall i :: 0 <= i < |keys| ==> !IsScalar(Field(v, keys[i]))
  {
    if keys == [] then None
    else if IsScalar(Field(v, keys[0])) then Some(Field(v, keys[0]))
    else
      var r := ContentHit(v, keys[1..]);
      assert r.Some? ==>
        exists i :: 1 <= i < |keys| && Field(v, keys[i]) == r.value
          && forall j :: 0 <= j < i ==> !IsScalar(Field(v, keys[j]));
      r
  }

  /** Keys of XML attribute metadata, skipped when scanning for text. */
  predicate IsAttributeKey(k: Key) {
    k == StrKey("@attributes") || k == StrKey("@")
  }

  /** The first scalar value whose key is not attribute metadata. */
  function FirstPlainScalar(entries: seq<(Key, Val)>): (r: Option<Val>)
    ensures r.Some? ==> (IsScalar(r.value)
      && exists i :: 0 <= i < |entries| && entries[i].1 == r.value && !IsAttributeKey(entries[i].0))
    ensures r.None? ==> forall i :: 0 <= i < |entries| && !IsAttributeKey(entries[i].0)
                         ==> !IsScalar(entries[i].1)
  {
    if entries == [] then None
    else if !IsAttributeKey(entries[0].0) && IsScalar(entries[0].1) then Some(entries[0].1)
    else
      var r := FirstPlainScalar(entries[1..]);
      assert r.Some? ==> (exists i :: 1 <= i < |entries| && entries[i].1 == r.value
                           && !IsAttributeKey(entries[i].0)) by {
        if r.Some? {
          var i :| 0 <= i < |entries[1..]| && entries[1..][i].1 == r.value && !IsAttributeKey(entries[1..][i].0);
          assert entries[i + 1] == entries[1..][i];
        }
      }
      r
  }

  /** The "language" wrapper is unwrapped when it holds an array. */
  function Unwrap(field: Val): Val {
    if Field(field, "language").Arr? then Field(field, "language") else field
  }

  function StrOf(o: Option<Val>): string {
    if o.Some? then ToStr(o.value) else ""
  }

  /** Presa_Mapper::get_first_lang. Total: every value gives a string. */
  function GetFirstLang(field: Val): (r: string)
    ensures IsScalar(field) ==> r == ToStr(field)
    ensures !IsScalar(field) && !field.Arr? ==> r == ""
    ensures field == Arr([]) ==> r == ""
  {
    if IsScalar(field) then ToStr(field)
    else if !field.Arr? then ""
    else FromUnwrapped(Unwrap(field))
  }

  /** get_first_lang past the "language" wrapper: a content key, else the
      first element (a scalar, or an object read through its content key
      or its first plain scalar). */
  function FromUnwrapped(f: Val): string {
    var hit := ContentHit(f, ContentKeys);
    if hit.Some? then ToStr(hit.value)
    else
      var first := Reset(f);
      if first == Bool(false) then ""
      else if IsScalar(first) then ToStr(first)
      else if first.Arr? then
        var inner := ContentHit(first, ContentKeys);
        if inner.Some? then ToStr(inner.value) else StrOf(FirstPlainScalar(first.entries))
      else ""
  }

  /** Presa_Prestashop_Client::extract_first_lang_value: the same resolution
      without the scan past attribute metadata, and every string trimmed. */
  function ExtractFirstLangValue(field: Val): (r: string)
    ensures Text.Trimmed(r)
    ensures IsScalar(field) ==> r == Text.Trim(ToStr(field))
    ensures !field.Arr? && !IsScalar(field) ==> r == ""
  {
    var r :=
      if field.Str? then Text.Trim(field.s)
      else if IsScalar(field) then ToStr(field)
      else if !field.Arr? then ""
      else
        var f := Unwrap(field);
        var hit := ContentHit(f, ContentKeys);
        if hit.Some? then Text.Trim(ToStr(hit.value))
        else
          var first := Reset(f);
          if first == Bool(false) then ""
          else if IsScalar(first) then Text.Trim(ToStr(first))
          else if first.Arr? then
            var inner := ContentHit(first, ContentKeys);
            if inner.Some? then Text.Trim(ToStr(inner.value)) else ""
          else "";
    TrimmedFacts(field, r);
    r
  }

  /** (string) of a non-string scalar has no surrounding whitespace. */
  lemma NonStringScalarTrimmed(v: Val)
    requires IsScalar(v) && !v.Str?
    ensures Text.Trimmed(ToStr(v))
  {
    match v
    case Bool(b) =>
    case Int(i) => IntStringTrimmed(i);
    case Num(x) => RealStringTrimmed(x);
  }

  /** A decimal integer starts and ends with a digit or a sign. */
  lemma IntStringTrimmed(i: int)
    ensures Text.Trimmed(Text.IntToString(i))
  {
    var s := Text.NatToString(if i < 0 then -i else i);
    assert Text.IsDigit(s[0]) && Text.IsDigit(s[|s| - 1]);
  }

  /** A decimal float starts with a digit or a sign and ends with a digit
      or a point. */
  lemma RealStringTrimmed(x: real)
    ensures Text.Trimmed(Text.RealToString(x))
  {
    var a := if x < 0.0 then -x else x;
    var ip := a.Floor;
    var tail := if a == ip as real then "" else "." + Text.FractionDigits(a - ip as real, 17);
    assert tail != "" ==> tail[1..] == Text.FractionDigits(a - ip as real, 17);
    DecimalTrimmed(x < 0.0, Text.NatToString(ip), tail);
  }

  /** An optional sign, digits, and a tail that is empty or a point and
      digits, have no surrounding whitespace. */
  lemma DecimalTrimmed(negative: bool, digits: string, tail: string)
    requires |digits| >= 1 && Text.AllDigits(digits)
    requires tail == "" || (tail[0] == '.' && Text.AllDigits(tail[1..]))
    ensures Text.Trimmed(Text.Decimal(negative, digits, tail))
  {
    var body := digits + tail;
    assert Text.IsDigit(digits[0]);
    assert body[0] == digits[0];
    if tail != "" {
      assert |tail| == 1 || Text.IsDigit(tail[1..][|tail| - 2]);
      assert body[|body| - 1] == tail[|tail| - 1];
    } else {
      assert Text.IsDigit(digits[|digits| - 1]);
      assert body[|body| - 1] == digits[|digits| - 1];
    }
  }


  lemma TrimmedFacts(field: Val, r: string)
    requires r == (
      if field.Str? then Text.Trim(field.s)
      else if IsScalar(field) then ToStr(field)
      else if !field.Arr? then ""
      else
        var f := Unwrap(field);
        var hit := ContentHit(f, ContentKeys);
        if hit.Some? then Text.Trim(ToStr(hit.value))
        else
          var first := Reset(f);
          if first == Bool(false) then ""
          else if IsScalar(first) then Text.Trim(ToStr(first))
          else if first.Arr? then
            var inner := ContentHit(first, ContentKeys);
            if inner.Some? then Text.Trim(ToStr(inner.value)) else ""
          else "")
    ensures Text.Trimmed(r)
    ensures IsScalar(field) ==> r == Text.Trim(ToStr(field))
  {
    if field.Str? {
      Text.TrimSpec(field.s);
    } else if IsScalar(field) {
      NonStringScalarTrimmed(field);
      Text.TrimOfTrimmed(r);
    } else if field.Arr? {
      Text.TrimSpec(r);
      var f := Unwrap(field);
      var hit := ContentHit(f, ContentKeys);
      if hit.Some? {
        Text.TrimSpec(ToStr(hit.value));
      } else {
        var first := Reset(f);
        if first != Bool(false) && IsScalar(first) {
          Text.TrimSpec(ToStr(first));
        } else if first.Arr? {
          var inner := ContentHit(first, ContentKeys);
          if inner.Some? { Text.TrimSpec(ToStr(inner.value)); }
        }
      }
    }
  }

  /** The one shape where the two normalisers differ: after unwrapping, no
      top-level content key holds a scalar and the first element is an array
      without one either. */
  predicate AttributeScanShape(field: Val) {
    field.Arr?
    && ContentHit(Unwrap(field), ContentKeys).None?
    && Reset(Unwrap(field)).Arr?
    && ContentHit(Reset(Unwrap(field)), ContentKeys).None?
  }

  /** The API client's normaliser is the mapper's, trimmed, except in the
      attribute-scan shape, where it gives up with "". */
  lemma ExtractIsTrimmedFirstLang(field: Val)
    ensures ExtractFirstLangValue(field)
         == (if AttributeScanShape(field) then "" else Text.Trim(GetFirstLang(field)))
  {
    if field.Arr? && !AttributeScanShape(field) {
      var f := Unwrap(field);
      if ContentHit(f, ContentKeys).None? && Reset(f) == Bool(false) {
        assert GetFirstLang(field) == "";
      }
    }
  }

  /** s is the string form of a scalar found in v at most `depth` levels down. */
  ghost predicate ScalarWithin(v: Val, s: string, depth: nat)
    decreases depth
  {
    (IsScalar(v) && ToStr(v) == s)
    || (depth > 0 && v.Arr? && exists i :: 0 <= i < |v.entries| && ScalarWithin(v.entries[i].1, s, depth - 1))
  }

  lemma {:induction false} ScalarWithinDeeper(v: Val, s: string, d: nat, e: nat)
    requires ScalarWithin(v, s, d) && d <= e
    ensures ScalarWithin(v, s, e)
    decreases d
  {
    if !(IsScalar(v) && ToStr(v) == s) {
      var i :| 0 <= i < |v.entries| && ScalarWithin(v.entries[i].1, s, d - 1);
      ScalarWithinDeeper(v.entries[i].1, s, d - 1, e - 1);
    }
  }

  /** A value read from one of v's keys lies one level down in v. */
  lemma FieldWithin(v: Val, name: string, s: string, d: nat)
    requires v.Arr? && ScalarWithin(Field(v, name), s, d)
    ensures ScalarWithin(v, s, d + 1)
  {
    var r := Lookup(v.entries, StrKey(name));
    assert r.Some?;
    LookupFirst(v.entries, StrKey(name));
    var i :| 0 <= i < |v.entries| && v.entries[i] == (StrKey(name), r.value)
             && forall j :: 0 <= j < i ==> v.entries[j].0 != StrKey(name);
    assert ScalarWithin(v.entries[i].1, s, d);
  }

  lemma ContentHitWithin(v: Val, s: string)
    requires v.Arr? && ContentHit(v, ContentKeys).Some?
    requires s == ToStr(ContentHit(v, ContentKeys).value)
    ensures ScalarWithin(v, s, 1)
  {
    var x := ContentHit(v, ContentKeys).value;
    var i :| 0 <= i < |ContentKeys| && Field(v, ContentKeys[i]) == x;
    FieldWithin(v, ContentKeys[i], s, 0);
  }

  /** Soundness of get_first_lang: a non-empty result is the string form of
      a scalar that occurs in the field, at most three levels down
      (language wrapper, first element, content key). */
  lemma FirstLangDrawnFromField(field: Val)
    ensures GetFirstLang(field) != "" ==> ScalarWithin(field, GetFirstLang(field), 3)
  {
    var r := GetFirstLang(field);
    if r != "" && field.Arr? {
      var f := Unwrap(field);
      UnwrappedDrawn(f);
      if f != field {
        FieldWithin(field, "language", r, 2);
      } else {
        ScalarWithinDeeper(f, r, 2, 3);
      }
    }
  }

  /** Past the wrapper the text lies at most two levels down. */
  lemma UnwrappedDrawn(f: Val)
    requires f.Arr?
    ensures FromUnwrapped(f) != "" ==> ScalarWithin(f, FromUnwrapped(f), 2)
  {
    var r := FromUnwrapped(f);
    if r != "" {
      var hit := ContentHit(f, ContentKeys);
      if hit.Some? {
        ContentHitWithin(f, r);
        ScalarWithinDeeper(f, r, 1, 2);
      } else {
        var first := Reset(f);
        assert f.entries != [];
        assert first == f.entries[0].1;
        if IsScalar(first) {
          assert ScalarWithin(first, r, 0);
        } else {
          var inner := ContentHit(first, ContentKeys);
          if inner.Some? {
            ContentHitWithin(first, r);
          } else {
            var o := FirstPlainScalar(first.entries);
            var i :| 0 <= i < |first.entries| && first.entries[i].1 == o.value;
            assert ScalarWithin(first.entries[i].1, r, 0);
          }
        }
        assert ScalarWithin(f.entries[0].1, r, 1);
      }
    }
  }

  /** A top-level content key wins over the first element, and the keys are
      tried in the order value, #, __value, content, $. */
  lemma FirstLangContentPriority(field: Val, i: nat)
    requires field.Arr? && !Field(field, "language").Arr?
    requires i < |ContentKeys| && IsScalar(Field(field, ContentKeys[i]))
    requires forall j :: 0 <= j < i ==> !IsScalar(Field(field, ContentKeys[j]))
    ensures GetFirstLang(field) == ToStr(Field(field, ContentKeys[i]))
  {
    var hit := ContentHit(field, ContentKeys);
    assert hit.Some?;
    var k :| 0 <= k < |ContentKeys| && Field(field, ContentKeys[k]) == hit.value
             && forall j :: 0 <= j < k ==> !IsScalar(Field(field, ContentKeys[j]));
    assert k == i;
  }

  /** The "language" wrapper is transparent: wrapping an array that has no
      wrapper of its own does not change the result. */
  lemma LanguageWrapperTransparent(inner: Val)
    requires inner.Arr? && !Field(inner, "language").Arr?
    ensures GetFirstLang(Arr([(StrKey("language"), inner)])) == GetFirstLang(inner)
  {
    assert Unwrap(Arr([(StrKey("language"), inner)])) == inner;
  }

  /** A list (integer keys only) takes its text from its first element:
      the first element's content key when it has one. */
  lemma FirstLangListFirstElement(field: Val)
    requires field.Arr? && field.entries != []
    requires forall i :: 0 <= i < |field.entries| ==> field.entries[i].0.IntKey?
    requires ContentHit(field.entries[0].1, ContentKeys).Some?
    ensures GetFirstLang(field) == ToStr(ContentHit(field.entries[0].1, ContentKeys).value)
  {
    assert Lookup(field.entries, StrKey("language")).None?;
    assert Unwrap(field) == field;
    NoContentKey(field);
  }

  /** Worked example: a language wrapper around a list of {"value": ...}. */
  lemma FirstLangExampleWrapped()
    ensures GetFirstLang(Arr([(StrKey("language"), Arr([(IntKey(0), Arr([(StrKey("value"), Str("Shirt"))]))]))])) == "Shirt"
  {
    var shirt := Arr([(StrKey("value"), Str("Shirt"))]);
    var list := Arr([(IntKey(0), shirt)]);
    assert Field(list, "language") == Null;
    LanguageWrapperTransparent(list);
    assert Field(shirt, "value") == Str("Shirt");
    FirstLangListFirstElement(list);
  }

  /** Worked example: a list holding a {"#": ...} object. */
  lemma FirstLangExampleHash()
    ensures GetFirstLang(Arr([(IntKey(0), Arr([(StrKey("#"), Str("Cap"))]))])) == "Cap"
  {
    var cap := Arr([(StrKey("#"), Str("Cap"))]);
    var list := Arr([(IntKey(0), cap)]);
    assert Field(cap, "value") == Null;
    assert Field(cap, "#") == Str("Cap");
    FirstLangListFirstElement(list);
  }

  /** A list (integer keys only) has no content key. */
  lemma NoContentKey(v: Val)
    requires v.Arr? && forall i :: 0 <= i < |v.entries| ==> v.entries[i].0.IntKey?
    ensures ContentHit(v, ContentKeys).None?
  {
    forall k | k in ContentKeys ensures Field(v, k) == Null {
      assert Lookup(v.entries, StrKey(k)).None?;
    }
  }

  /** Presa_Prestashop_Client::get_product_id_scalar: the id as a string,
      read through a content key or the first element when the API sends
      the id as an object; "" when there is none. */
  function GetProductIdScalar(product: Val): (r: string)
    ensures !FieldSet(product, "id") ==> r == ""
    ensures IsScalar(Field(product, "id")) ==> r == ToStr(Field(product, "id"))
    ensures r != "" ==> ScalarWithin(Field(product, "id"), r, 1)
  {
    var id := Field(product, "id");
    if !product.Arr? || id == Null then ""
    else if IsScalar(id) then ToStr(id)
    else if id.Arr? then
      var hit := ContentHit(id, ContentKeys);
      if hit.Some? then
        ContentHitWithin(id, ToStr(hit.value));
        ToStr(hit.value)
      else
        var first := Reset(id);
        if IsScalar(first) then
          assert first != Bool(false) ==> ScalarWithin(id.entries[0].1, ToStr(first), 0);
          ToStr(first)
        else ""
    else ""
  }
}
