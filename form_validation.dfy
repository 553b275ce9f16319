/** Form-field checks: `FormValidator` (a required or optional field, with an
    optional delegate validator) and `FormValidatorInSet` (membership in a
    fixed list of accepted values).

    A form field's raw value is PHP `null`, a scalar, or an array. A scalar is
    represented by its `(string)` cast, which is all the checks ever look at. */
module FormValidation {
  import opened Wrappers
  import Php

  /** The two allowed check types (`FORM_VALIDATOR_OPTIONAL_VALUE`,
      `FORM_VALIDATOR_REQUIRED_VALUE`). The type is a plain string in the
      source, so any other string may also be passed. */
  const Optional: string := "optional"
  const Required: string := "required"

  /** A raw form value: `null`, a scalar (by its string form), or an array
      (a list; PHP keys are not modelled). */
  datatype Raw = Null | Scalar(text: string) | Array(items: seq<Raw>)

  /** A field value after `getFieldValue`'s normalisation: a trimmed string,
      or an array left as it was. */
  datatype FieldValue = Str(s: string) | Arr(items: seq<Raw>)

  /** A delegate validator's verdict on a normalised value. */
  type Validator = FieldValue -> bool

  /** The normalisation of `getFieldValue`: `null` and scalars become
      `trim((string) $value)`, arrays are returned unchanged. */
  function Normalise(raw: Raw): (v: FieldValue)
    ensures raw.Null? ==> v == Str("")
    ensures raw.Scalar? ==> v == Str(Php.Trim(raw.text))
    ensures raw.Array? ==> v == Arr(raw.items)
  {
    match raw
    case Null => Str(Php.Trim(""))
    case Scalar(t) => Str(Php.Trim(t))
    case Array(items) => Arr(items)
  }

  /** A normalised string is already trimmed. */
  lemma NormaliseTrimmed(raw: Raw)
    ensures Normalise(raw).Str? ==> Php.Trim(Normalise(raw).s) == Normalise(raw).s
  {
    if raw.Scalar? {
      Php.TrimIdempotent(raw.text);
    } else if raw.Null? {
      Php.TrimIdempotent("");
    }
  }

  /** `''` for a (scalar) string, `empty()` for an array. */
  predicate IsEmpty(v: FieldValue) {
    match v
    case Str(s) => s == ""
    case Arr(items) => items == []
  }

  /** A whitespace-only scalar, and `null`, normalise to an empty value; a
      scalar normalises to an empty value only if it is whitespace-only. */
  lemma BlankScalarIsEmpty(raw: Raw)
    requires !raw.Array?
    ensures IsEmpty(Normalise(raw)) <==> raw.Null? || Php.IsBlank(raw.text)
  {
    if raw.Scalar? {
      Php.TrimEmptyIffBlank(raw.text);
    }
  }

  /** The form a check is attached to, reduced to what the checks use: its
      field data and its client-side validation hints. */
  class Form {
    var data: map<string, Raw>
    var cssValidation: map<string, seq<string>>

    constructor (data: map<string, Raw>)
      ensures this.data == data && cssValidation == map[]
    {
      this.data := data;
      cssValidation := map[];
    }

    /** `getData`: a missing field reads as `null`. */
    function GetData(key: string): (r: Raw)
      reads this
      ensures key !in data ==> r == Null
      ensures key in data ==> r == data[key]
    {
      if key in data then data[key] else Null
    }
  }

  /** A check of one field of one form. */
  class FormValidator {
    const form: Form
    const field: string
    const fieldType: string
    const message: string
    const validator: Option<Validator>

    /** Binds the check and registers its CSS hint on the form: the field's
        hint list is reset to `[]`, then `'required'` is appended when the
        check is mandatory. No other field's hints and no form data change. */
    constructor (form: Form, field: string, fieldType: string, message: string, validator: Option<Validator>)
      modifies form
      ensures this.form == form && this.field == field && this.fieldType == fieldType
      ensures this.message == message && this.validator == validator
      ensures form.data == old(form.data)
      ensures field in form.cssValidation
      ensures form.cssValidation[field] == (if fieldType == Required then ["required"] else [])
      ensures forall f :: f != field ==> (f in form.cssValidation <==> f in old(form.cssValidation))
      ensures forall f :: f != field && f in form.cssValidation ==> form.cssValidation[f] == old(form.cssValidation)[f]
    {
      this.form := form;
      this.field := field;
      this.fieldType := fieldType;
      this.message := message;
      this.validator := validator;
      new;
      form.cssValidation := form.cssValidation[field := []];
      if fieldType == Required {
        form.cssValidation := form.cssValidation[field := form.cssValidation[field] + ["required"]];
      }
    }

    /** `getFieldValue`: the normalised current value of the field. An array
        comes back as it is, a missing field or `null` as `''`, a scalar as
        its trimmed text. */
    function GetFieldValue(): (v: FieldValue)
      reads form
      ensures v.Arr? <==> form.GetData(field).Array?
      ensures v.Arr? ==> v.items == form.GetData(field).items
      ensures field !in form.data ==> v == Str("")
      ensures form.GetData(field).Null? ==> v == Str("")
      ensures form.GetData(field).Scalar? ==> v == Str(Php.Trim(form.GetData(field).text))
    {
      Normalise(form.GetData(field))
    }

    /** `isEmptyAndOptional`: the check is optional and the normalised value
        is empty. Any type other than `'optional'` makes it false. */
    predicate IsEmptyAndOptional()
      reads form
      ensures IsEmptyAndOptional() <==> fieldType == Optional && IsEmpty(GetFieldValue())
    {
      if fieldType != Optional then false
      else
        match GetFieldValue()
        case Str(s) => s == ""
        case Arr(items) => |items| == 0
    }

    /** `isValid`: an empty optional field passes whatever the delegate says;
        otherwise, without a delegate the value must be non-empty, and with a
        delegate the delegate's verdict on the normalised value decides. */
    predicate IsValid()
      reads form
      ensures IsEmptyAndOptional() ==> IsValid()
      ensures !IsEmptyAndOptional() && validator.None? ==> (IsValid() <==> !IsEmpty(GetFieldValue()))
      ensures !IsEmptyAndOptional() && validator.Some? ==> (IsValid() <==> validator.value(GetFieldValue()))
    {
      if IsEmptyAndOptional() then true
      else
        match validator
        case None =>
          (match GetFieldValue()
           case Str(s) => s != ""
           case Arr(items) => items != [])
        case Some(check) => check(GetFieldValue())
    }
  }

  /** A required check without a delegate fails on a field whose value is
      whitespace-only or null. */
  lemma RequiredRejectsBlank(v: FormValidator)
    requires v.fieldType == Required && v.validator.None?
    requires v.form.GetData(v.field) == Null || v.form.GetData(v.field) == Scalar(" \t ")
    ensures !v.IsValid()
  {
    Php.TrimEmptyIffBlank(" \t ");
    Php.TrimEmptyIffBlank("");
  }

  /** The same check passes on `'x'`. */
  lemma RequiredAcceptsText(v: FormValidator)
    requires v.fieldType == Required && v.validator.None?
    requires v.form.GetData(v.field) == Scalar("x")
    ensures v.IsValid()
  {
    Php.TrimPadded("", "x", "");
    assert "" + "x" + "" == "x";
  }

  /** The set-membership check. It is built on a base check with no delegate,
      so the `'required'` CSS hint is registered exactly as for the base. */
  class FormValidatorInSet {
    const base: FormValidator
    const acceptedValues: seq<FieldValue>

    constructor (form: Form, field: string, fieldType: string, message: string, acceptedValues: seq<FieldValue>)
      modifies form
      ensures base.form == form && base.field == field && base.fieldType == fieldType
      ensures base.message == message && base.validator == None
      ensures this.acceptedValues == acceptedValues
      ensures form.data == old(form.data)
      ensures field in form.cssValidation
      ensures form.cssValidation[field] == (if fieldType == Required then ["required"] else [])
      ensures forall f :: f != field ==> (f in form.cssValidation <==> f in old(form.cssValidation))
      ensures forall f :: f != field && f in form.cssValidation ==> form.cssValidation[f] == old(form.cssValidation)[f]
    {
      base := new FormValidator(form, field, fieldType, message, None);
      this.acceptedValues := acceptedValues;
    }

    /** Valid iff the field is empty and optional, or its normalised value is
        one of the accepted values. */
    predicate IsValid()
      reads base.form
      ensures IsValid() <==> (base.fieldType == Optional && IsEmpty(base.GetFieldValue())) || base.GetFieldValue() in acceptedValues
    {
      base.IsEmptyAndOptional() || base.GetFieldValue() in acceptedValues
    }
  }

  /** A required membership check with an empty value passes only when `''`
      is itself an accepted value. */
  lemma RequiredEmptyInSet(v: FormValidatorInSet)
    requires v.base.fieldType == Required && v.base.GetFieldValue() == Str("")
    ensures v.IsValid() <==> Str("") in v.acceptedValues
  {
  }

  /** Accepting more values never turns a passing field into a failing one. */
  lemma InSetMonotone(v: FormValidatorInSet, w: FormValidatorInSet)
    requires v.base.form == w.base.form && v.base.field == w.base.field && v.base.fieldType == w.base.fieldType
    requires forall x :: x in v.acceptedValues ==> x in w.acceptedValues
    ensures v.IsValid() ==> w.IsValid()
  {
  }

  /** With `'a'` and `'b'` accepted, `' a '` passes: the value is trimmed
      before the membership test. */
  lemma InSetAcceptsPadded(v: FormValidatorInSet)
    requires v.acceptedValues == [Str("a"), Str("b")]
    requires v.base.form.GetData(v.base.field) == Scalar(" a ")
    ensures v.IsValid()
  {
    Php.TrimPadded(" ", "a", " ");
    assert " " + "a" + " " == " a ";
  }

  /** With `'a'` and `'b'` accepted, `'c'` fails. */
  lemma InSetRejectsOther(v: FormValidatorInSet)
    requires v.acceptedValues == [Str("a"), Str("b")]
    requires v.base.form.GetData(v.base.field) == Scalar("c")
    ensures !v.IsValid()
  {
    Php.TrimPadded("", "c", "");
    assert "" + "c" + "" == "c";
  }
}
