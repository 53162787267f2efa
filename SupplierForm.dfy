/**
 * The supplier form: the RIF pattern `^[JG]-?\d+$` (case-insensitive), the
 * error map `validate` fills (name and RIF only), and the submit.
 */
module SupplierForm {
  import opened Outcomes
  import opened Text
  import opened ClientForm

  datatype Supplier = Supplier(id: string, name: string, idNumber: string, phone: string, address: string)

  const NEW_SUPPLIER := Supplier("", "", "", "", "")

  /** The letters `[JG]` matches under the `i` flag. */
  const RIF_LETTERS: set<char> := {'J', 'G', 'j', 'g'}

  const RAZON_REQUIRED := "La Razón Social es requerida."
  const RIF_REQUIRED := "El RIF es requerido."
  const RIF_FORMAT := "Formato de RIF inválido. Use J- o G- seguido de números."

  /** Every RIF this form accepts is also an identification number the client form accepts. */
  lemma RifIsClientId(s: string)
    requires IdMatches(s, RIF_LETTERS)
    ensures IdMatches(s, CLIENT_ID_LETTERS)
  {
    IdMatchesSpec(s, RIF_LETTERS);
    IdMatchesSpec(s, CLIENT_ID_LETTERS);
  }

  /** A string that does not start with an allowed letter is rejected. */
  lemma WrongLetterRejected(s: string, letters: set<char>)
    requires s != [] && s[0] !in letters
    ensures !IdMatches(s, letters)
  {
    IdMatchesSpec(s, letters);
  }

  /** An allowed letter, a dash and digits are accepted. */
  lemma LetterDashDigitsAccepted(s: string, letters: set<char>)
    requires |s| >= 3 && s[0] in letters && s[1] == '-' && AllDigits(s[2..])
    ensures IdMatches(s, letters)
  {
    IdMatchesSpec(s, letters);
  }

  lemma CedulaIsClientId()
    ensures IdMatches("V-12345678", CLIENT_ID_LETTERS)
  {
    var s := "V-12345678";
    assert s[2..] == "12345678";
    LetterDashDigitsAccepted(s, CLIENT_ID_LETTERS);
  }

  lemma CedulaFailsRif()
    ensures !IdMatches("V-12345678", RIF_LETTERS)
  {
    WrongLetterRejected("V-12345678", RIF_LETTERS);
  }

  /** The converse fails: a person's identification number is no RIF. */
  lemma CedulaIsNoRif()
    ensures IdMatches("V-12345678", CLIENT_ID_LETTERS) && !IdMatches("V-12345678", RIF_LETTERS)
  {
    CedulaIsClientId();
    CedulaFailsRif();
  }

  /** What the form checks; phone and address play no part. */
  predicate SupplierValid(s: Supplier)
  {
    !IsBlank(s.name) && !IsBlank(s.idNumber) && IdPattern(s.idNumber, RIF_LETTERS)
  }

  /** The form's text inputs: the target of a change, and the key of an error message. */
  datatype Field = NameField | IdNumberField | PhoneField | AddressField

  /**
    * The error map `validate` leaves for a supplier: an entry exactly for a
    * blank name and for a missing or malformed RIF, saying which.
    */
  predicate ReportsSupplier(errors: map<Field, string>, s: Supplier)
  {
    && errors.Keys <= {Field.NameField, Field.IdNumberField}
    && (Field.NameField in errors <==> IsBlank(s.name))
    && (Field.IdNumberField in errors <==> IsBlank(s.idNumber) || !IdPattern(s.idNumber, RIF_LETTERS))
    && (Field.IdNumberField in errors ==> errors[Field.IdNumberField] == if IsBlank(s.idNumber) then RIF_REQUIRED else RIF_FORMAT)
  }

  class Form {
    var formData: Supplier
    var errors: map<Field, string>

    constructor(supplier: Option<Supplier>)
      ensures formData == supplier.GetOr(NEW_SUPPLIER) && errors == map[]
    {
      formData := supplier.GetOr(NEW_SUPPLIER);
      errors := map[];
    }

    method Change(field: Field, value: string)
      modifies this
      ensures errors == old(errors)
      ensures formData == match field
        case NameField => old(formData).(name := value)
        case IdNumberField => old(formData).(idNumber := value)
        case PhoneField => old(formData).(phone := value)
        case AddressField => old(formData).(address := value)
    {
      match field {
        case NameField => formData := formData.(name := value);
        case IdNumberField => formData := formData.(idNumber := value);
        case PhoneField => formData := formData.(phone := value);
        case AddressField => formData := formData.(address := value);
      }
    }

    /** `validate`: only the name and the RIF can fail. */
    method Validate() returns (ok: bool)
      modifies this
      ensures formData == old(formData)
      ensures ReportsSupplier(errors, formData)
      ensures ok <==> errors == map[]
      ensures ok <==> SupplierValid(formData)
    {
      var newErrors: map<Field, string> := map[];
      if IsBlank(formData.name) {
        newErrors := newErrors[Field.NameField := RAZON_REQUIRED];
      }
      if IsBlank(formData.idNumber) {
        newErrors := newErrors[Field.IdNumberField := RIF_REQUIRED];
      } else {
        var idOk := TestId(formData.idNumber, RIF_LETTERS);
        if !idOk {
          newErrors := newErrors[Field.IdNumberField := RIF_FORMAT];
        }
      }
      errors := newErrors;
      ok := |errors| == 0;
      assert ok <==> errors == map[] by {
        if |errors| == 0 {
          assert errors.Keys == {};
        }
      }
    }

    /** `handleSubmit`: forwards the supplier only when it validates. */
    method Submit() returns (saved: Option<Supplier>)
      modifies this
      ensures formData == old(formData)
      ensures saved.Some? <==> SupplierValid(formData)
      ensures saved.Some? ==> saved.value == formData
      ensures ReportsSupplier(errors, formData)
    {
      var ok := Validate();
      saved := if ok then Some(formData) else None;
    }
  }
}
