/**
 * The checkout form: nine text fields edited one at a time, and the
 * presence-only check run before an order is placed.
 */
module Checkout {
  import opened Text

  datatype CheckoutForm = CheckoutForm(
    firstName: string, lastName: string, email: string, phone: string,
    address: string, city: string, postalCode: string, country: string, notes: string)

  /** The keys of a checkout form. */
  datatype Field = FirstName | LastName | Email | Phone | Address | City | PostalCode | Country | Notes

  /** The form the storefront starts with and returns to: every field empty. */
  const EmptyForm := CheckoutForm("", "", "", "", "", "", "", "", "")

  /** The fields an order needs, in the order the check visits them; `notes` is optional. */
  const RequiredFields: seq<Field> := [FirstName, LastName, Email, Phone, Address, City, PostalCode, Country]

  /** `form[field]` */
  function Get(form: CheckoutForm, f: Field): string {
    match f
    case FirstName => form.firstName
    case LastName => form.lastName
    case Email => form.email
    case Phone => form.phone
    case Address => form.address
    case City => form.city
    case PostalCode => form.postalCode
    case Country => form.country
    case Notes => form.notes
  }

  /** `handleCheckoutFormChange`: `{ ...form, [field]: value }`. */
  function Set(form: CheckoutForm, f: Field, value: string): (r: CheckoutForm)
    ensures Get(r, f) == value
    ensures forall g :: g != f ==> Get(r, g) == Get(form, g)
  {
    match f
    case FirstName => form.(firstName := value)
    case LastName => form.(lastName := value)
    case Email => form.(email := value)
    case Phone => form.(phone := value)
    case Address => form.(address := value)
    case City => form.(city := value)
    case PostalCode => form.(postalCode := value)
    case Country => form.(country := value)
    case Notes => form.(notes := value)
  }

  /** Two forms that agree on every field are the same form. */
  lemma FormExtensionality(a: CheckoutForm, b: CheckoutForm)
    requires forall f :: Get(a, f) == Get(b, f)
    ensures a == b
  {
    assert Get(a, FirstName) == Get(b, FirstName) && Get(a, LastName) == Get(b, LastName);
    assert Get(a, Email) == Get(b, Email) && Get(a, Phone) == Get(b, Phone);
    assert Get(a, Address) == Get(b, Address) && Get(a, City) == Get(b, City);
    assert Get(a, PostalCode) == Get(b, PostalCode) && Get(a, Country) == Get(b, Country);
    assert Get(a, Notes) == Get(b, Notes);
  }

  /** Writing back what a field holds changes nothing, and a second write to a field replaces the first. */
  lemma SetLaws(form: CheckoutForm, f: Field, v: string, w: string)
    ensures Set(form, f, Get(form, f)) == form
    ensures Set(Set(form, f, v), f, w) == Set(form, f, w)
  {
    FormExtensionality(Set(form, f, Get(form, f)), form);
    FormExtensionality(Set(Set(form, f, v), f, w), Set(form, f, w));
  }

  /** A field counts as filled in when trimming leaves something. */
  predicate Filled(s: string) {
    Trim(s) != ""
  }

  /** `required.every(field => form[field].trim() !== '')` */
  predicate AllFilled(form: CheckoutForm, fields: seq<Field>) {
    forall i :: 0 <= i < |fields| ==> Filled(Get(form, fields[i]))
  }

  /** A string holds something other than whitespace. */
  predicate HasContent(s: string) {
    exists i :: 0 <= i < |s| && !IsWhitespace(s[i])
  }

  /**
   * `validateCheckoutForm`: every required field is filled in. An accepted
   * form has no empty field other than notes; `ValidateIff` gives the exact
   * condition.
   */
  function Validate(form: CheckoutForm): (accepted: bool)
    ensures accepted ==> forall f :: f != Notes ==> Get(form, f) != ""
  {
    RequiredFieldsAreAllButNotes();
    FilledFieldsNonEmpty(form, RequiredFields);
    AllFilled(form, RequiredFields)
  }

  lemma FilledFieldsNonEmpty(form: CheckoutForm, fields: seq<Field>)
    ensures AllFilled(form, fields) ==> forall f :: f in fields ==> Get(form, f) != ""
  {
    if AllFilled(form, fields) {
      forall f | f in fields ensures Get(form, f) != "" {
        var i :| 0 <= i < |fields| && fields[i] == f;
        assert Filled(Get(form, fields[i]));
      }
    }
  }

  /**
   * The form is accepted exactly when each field other than notes holds a
   * character that is not whitespace.
   */
  lemma ValidateIff(form: CheckoutForm)
    ensures Validate(form) <==> forall f :: f != Notes ==> HasContent(Get(form, f))
  {
    RequiredFieldsAreAllButNotes();
    ValidateMeaning(form, RequiredFields);
  }

  lemma FilledIff(s: string)
    ensures Filled(s) <==> HasContent(s)
  {
  }

  lemma ValidateMeaning(form: CheckoutForm, fields: seq<Field>)
    requires forall f :: f in fields <==> f != Notes
    ensures AllFilled(form, fields) <==> forall f :: f != Notes ==> HasContent(Get(form, f))
  {
    forall f ensures Filled(Get(form, f)) <==> HasContent(Get(form, f)) {
      FilledIff(Get(form, f));
    }
    if AllFilled(form, fields) {
      forall f | f != Notes ensures Filled(Get(form, f)) {
        assert f in fields;
        var i :| 0 <= i < |fields| && fields[i] == f;
      }
    } else {
      var i :| 0 <= i < |fields| && !Filled(Get(form, fields[i]));
      assert fields[i] in fields;
    }
  }

  lemma RequiredFieldsAreAllButNotes()
    ensures forall f :: f in RequiredFields <==> f != Notes
  {
  }

  /** The notes field never changes the verdict. */
  lemma ValidateIgnoresNotes(form: CheckoutForm, notes: string)
    ensures Validate(Set(form, Notes, notes)) == Validate(form)
  {
    var form' := Set(form, Notes, notes);
    ValidateIff(form);
    ValidateIff(form');
    assert forall f :: f != Notes ==> Get(form', f) == Get(form, f);
  }

  /** A form whose required fields each start with a character other than whitespace is accepted. */
  lemma LeadingContentAccepted(form: CheckoutForm)
    requires forall f :: f != Notes ==> Get(form, f) != [] && !IsWhitespace(Get(form, f)[0])
    ensures Validate(form)
  {
    ValidateIff(form);
    forall f | f != Notes ensures HasContent(Get(form, f)) {
      assert !IsWhitespace(Get(form, f)[0]);
    }
  }

  /** A required field that is empty or all whitespace is enough to refuse the form. */
  lemma ValidateRefusesBlank(form: CheckoutForm, f: Field)
    requires f != Notes && AllWhitespace(Get(form, f))
    ensures !Validate(form)
  {
    ValidateIff(form);
  }

  /** The empty form is refused, and filling one required field alone does not make it acceptable. */
  lemma EmptyFormRefused(f: Field, v: string)
    ensures !Validate(EmptyForm)
    ensures f != Country ==> !Validate(Set(EmptyForm, f, v))
  {
    ValidateRefusesBlank(EmptyForm, FirstName);
    if f != Country {
      ValidateRefusesBlank(Set(EmptyForm, f, v), Country);
    }
  }
}
