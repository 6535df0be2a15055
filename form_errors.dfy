/** An antd form as the pages use it (field values, per-field error lists, the
    initial values `resetFields` restores) and `handleFormError` of
    src/utils/index.ts, which copies a 400 response's per-field messages onto
    the form. */
module FormErrors {
  import opened Js

  type FieldErrors = map<string, seq<JsValue>>

  class Form {
    var values: Object
    var errors: FieldErrors
    const initialValues: Object

    constructor (initialValues: Object)
      ensures this.initialValues == initialValues
      ensures values == initialValues && errors == map[]
    {
      this.initialValues := initialValues;
      values := initialValues;
      errors := map[];
    }

    /** `form.setFieldsValue(v)`: the named fields take the given values. */
    method SetFieldsValue(v: Object)
      modifies this
      ensures values == old(values) + v
      ensures errors == old(errors)
    {
      values := values + v;
    }

    /** `form.setFields([{ name, errors }])`. */
    method SetFields(name: string, errs: seq<JsValue>)
      modifies this
      ensures errors == old(errors)[name := errs]
      ensures values == old(values)
    {
      errors := errors[name := errs];
    }

    /** `form.resetFields()`: back to the initial values, with no errors. */
    method ResetFields()
      modifies this
      ensures values == initialValues && errors == map[]
    {
      values := initialValues;
      errors := map[];
    }
  }

  // ---------------------------------------------------------------------------
  // handleFormError

  /** `err && typeof err === 'object' && 'code' in err && err.code === 400 &&
      'metadata' in err`. An array is an object without those keys. */
  predicate IsFieldError(err: JsValue) {
    err.Obj? && "code" in err.fields && err.fields["code"] == Num(400) && "metadata" in err.fields
  }

  /** `Object.keys(metadata)` throws for `null` and `undefined`. */
  predicate KeysThrow(metadata: JsValue) {
    metadata == Null || metadata == Undefined
  }

  /** The properties of the metadata that `Object.keys` lists and that
      `metadata[key]` reads. */
  function MetadataEntries(metadata: JsValue): Object {
    if metadata.Obj? then metadata.fields else map[]
  }

  /** The form errors after the copy: each listed field has exactly its one
      message, every other field keeps its errors. */
  function ErrorsWithMetadata(errors: FieldErrors, metadata: Object): (e: FieldErrors)
    ensures forall k :: k in metadata ==> k in e && e[k] == [metadata[k]]
    ensures forall k :: k !in metadata ==> (k in e <==> k in errors) && (k in errors ==> e[k] == errors[k])
  {
    map k | k in errors.Keys + metadata.Keys :: if k in metadata then [metadata[k]] else errors[k]
  }

  /** The errors `handleFormError` leaves: those of the metadata for a 400
      error, and the old ones for anything else or when `Object.keys` throws. */
  function ErrorsAfterFormError(errors: FieldErrors, err: JsValue): (e: FieldErrors)
    ensures !IsFieldError(err) ==> e == errors
  {
    if IsFieldError(err) then ErrorsWithMetadata(errors, MetadataEntries(err.fields["metadata"])) else errors
  }

  /** A null, a primitive or an object without the 400 shape leaves the
      errors as they are; with the shape, exactly the fields named in the
      metadata change, each to the one message given for it. */
  lemma FormErrorActsOnlyOnFieldErrors(errors: FieldErrors, err: JsValue, k: string)
    ensures err == Null || err == Undefined || err.Num? || err.Str? || err.Bool? ==>
      ErrorsAfterFormError(errors, err) == errors
    ensures IsFieldError(err) && k in MetadataEntries(err.fields["metadata"]) ==>
      var e := ErrorsAfterFormError(errors, err);
      k in e && e[k] == [MetadataEntries(err.fields["metadata"])[k]]
    ensures (IsFieldError(err) ==> k !in MetadataEntries(err.fields["metadata"])) ==>
      ErrorsOf(ErrorsAfterFormError(errors, err), k) == ErrorsOf(errors, k)
  {
  }

  /** An optional error list for a field. */
  function ErrorsOf(errors: FieldErrors, k: string): Option<seq<JsValue>> {
    if k in errors then Some(errors[k]) else None
  }

  /** Two error maps that answer every lookup alike are equal. */
  lemma SameLookups(a: FieldErrors, b: FieldErrors)
    requires forall k :: ErrorsOf(a, k) == ErrorsOf(b, k)
    ensures a == b
  {
    assert forall k :: k in a <==> ErrorsOf(a, k).Some?;
    assert forall k :: k in b <==> ErrorsOf(b, k).Some?;
  }

  /** `handleFormError(form, err)`: it walks the metadata keys and sets each
      field's errors. It returns whether `Object.keys` threw, in which case no
      field has been set. */
  method HandleFormError(form: Form, err: JsValue) returns (threw: bool)
    modifies form
    ensures threw <==> IsFieldError(err) && KeysThrow(err.fields["metadata"])
    ensures form.errors == ErrorsAfterFormError(old(form.errors), err)
    ensures form.values == old(form.values)
  {
    threw := false;
    if err.Obj? {
      if "code" in err.fields && err.fields["code"] == Num(400) && "metadata" in err.fields {
        var metadata := err.fields["metadata"];
        if KeysThrow(metadata) {
          threw := true;
          return;
        }
        var entries := MetadataEntries(metadata);
        var remaining := entries.Keys;
        ghost var start := form.errors;
        while remaining != {}
          invariant remaining <= entries.Keys
          invariant form.values == old(form.values)
          invariant forall k :: k in entries && k !in remaining ==> ErrorsOf(form.errors, k) == Some([entries[k]])
          invariant forall k :: k !in entries || k in remaining ==> ErrorsOf(form.errors, k) == ErrorsOf(start, k)
          decreases remaining
        {
          var key :| key in remaining;
          form.SetFields(key, [entries[key]]);
          remaining := remaining - {key};
        }
        SameLookups(form.errors, ErrorsWithMetadata(start, entries));
      }
    }
  }
}
