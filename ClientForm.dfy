/**
 * The client form: the identification-number pattern `^[VEJGGP]-?\d+$`
 * (case-insensitive), the e-mail pattern `^\S+@\S+\.\S+$`, the error map
 * `validate` fills, and the submit that only forwards a valid client.
 *
 * Each pattern has two definitions: a declarative one that says which
 * strings the regular expression accepts, and the scanner the form runs
 * (an automaton for identification numbers, two searches for e-mails).
 * The lemmas prove the two agree on every string.
 */
module ClientForm {
  import opened Outcomes
  import opened Text
  import opened Domain
  import opened Sorting

  // ---------------------------------------------------------------------------
  // `^[letters]-?\d+$`

  /** The letters `[VEJGGP]` matches under the `i` flag. */
  const CLIENT_ID_LETTERS: set<char> := {'V', 'E', 'J', 'G', 'P', 'v', 'e', 'j', 'g', 'p'}

  /** Which strings `^[letters]-?\d+$` accepts: a letter, an optional dash, one or more digits, nothing else. */
  predicate IdPattern(s: string, letters: set<char>)
  {
    && |s| >= 2
    && s[0] in letters
    && (AllDigits(s[1..]) || (s[1] == '-' && |s| >= 3 && AllDigits(s[2..])))
  }

  datatype IdState = Start | Letter | Dash | Digits | Reject

  function Step(q: IdState, c: char, letters: set<char>): IdState
  {
    match q
    case Start => if c in letters then Letter else Reject
    case Letter => if c == '-' then Dash else if IsDigit(c) then Digits else Reject
    case Dash => if IsDigit(c) then Digits else Reject
    case Digits => if IsDigit(c) then Digits else Reject
    case Reject => Reject
  }

  function Run(q: IdState, s: string, letters: set<char>): IdState
    decreases |s|
  {
    if s == [] then q else Run(Step(q, s[0], letters), s[1..], letters)
  }

  /** The scanner: run the automaton over the whole string and accept in the digits state. */
  predicate IdMatches(s: string, letters: set<char>)
  {
    Run(Start, s, letters) == Digits
  }

  lemma {:induction false} RunReject(s: string, letters: set<char>)
    ensures Run(Reject, s, letters) == Reject
  {
    if s != [] {
      RunReject(s[1..], letters);
    }
  }

  lemma {:induction false} RunDigits(s: string, letters: set<char>)
    ensures Run(Digits, s, letters) == Digits <==> AllDigits(s)
  {
    if s != [] {
      if IsDigit(s[0]) {
        RunDigits(s[1..], letters);
        assert AllDigits(s) <==> AllDigits(s[1..]) by {
          assert forall i :: 1 <= i < |s| ==> s[i] == s[1..][i - 1];
        }
      } else {
        RunReject(s[1..], letters);
      }
    }
  }

  lemma RunDash(s: string, letters: set<char>)
    ensures Run(Dash, s, letters) == Digits <==> |s| >= 1 && AllDigits(s)
  {
    if s != [] {
      if IsDigit(s[0]) {
        RunDigits(s[1..], letters);
        assert AllDigits(s) <==> AllDigits(s[1..]) by {
          assert forall i :: 1 <= i < |s| ==> s[i] == s[1..][i - 1];
        }
      } else {
        RunReject(s[1..], letters);
      }
    }
  }

  lemma RunLetter(s: string, letters: set<char>)
    ensures Run(Letter, s, letters) == Digits <==>
      |s| >= 1 && (AllDigits(s) || (s[0] == '-' && |s| >= 2 && AllDigits(s[1..])))
  {
    if s != [] {
      if s[0] == '-' {
        RunDash(s[1..], letters);
      } else if IsDigit(s[0]) {
        RunDigits(s[1..], letters);
        assert AllDigits(s) <==> AllDigits(s[1..]) by {
          assert forall i :: 1 <= i < |s| ==> s[i] == s[1..][i - 1];
        }
      } else {
        RunReject(s[1..], letters);
      }
    }
  }

  /** The automaton accepts exactly the strings the pattern describes. */
  lemma IdMatchesSpec(s: string, letters: set<char>)
    ensures IdMatches(s, letters) <==> IdPattern(s, letters)
  {
    if s != [] {
      if s[0] in letters {
        RunLetter(s[1..], letters);
        if |s| >= 2 {
          assert s[1..][1..] == s[2..];
        }
      } else {
        RunReject(s[1..], letters);
      }
    }
  }

  // ---------------------------------------------------------------------------
  // `^\S+@\S+\.\S+$`

  predicate NoWhitespace(s: string)
  {
    forall i :: 0 <= i < |s| ==> !IsWhitespace(s[i])
  }

  /**
   * Which strings `^\S+@\S+\.\S+$` accepts: no whitespace at all, an `@`
   * after at least one character, and a `.` after at least one character
   * following the `@` and before at least one more.
   */
  predicate EmailPattern(s: string)
  {
    && NoWhitespace(s)
    && exists i, j :: 1 <= i && i + 2 <= j && j + 2 <= |s| && s[i] == '@' && s[j] == '.'
  }

  /** The scanner: the first `@` after the first character, then any `.` with room on both sides. */
  predicate EmailScan(s: string)
  {
    && NoWhitespace(s)
    && |s| >= 1
    && match FindFirst(s[1..], (c: char) => c == '@')
       case None => false
       case Some(k) =>
         var i := k + 1;
         i + 4 <= |s| && FindFirst(s[i + 2..|s| - 1], (c: char) => c == '.').Some?
  }

  /** The scan accepts exactly the strings the pattern describes. */
  lemma EmailScanSpec(s: string)
    ensures EmailScan(s) <==> EmailPattern(s)
  {
    if EmailScan(s) {
      var k := FindFirst(s[1..], (c: char) => c == '@').value;
      var i := k + 1;
      var m := FindFirst(s[i + 2..|s| - 1], (c: char) => c == '.').value;
      assert s[i] == '@' && s[i + 2 + m] == '.';
    }
    if EmailPattern(s) {
      var i, j :| 1 <= i && i + 2 <= j && j + 2 <= |s| && s[i] == '@' && s[j] == '.';
      assert s[1..][i - 1] == '@';
      var k := FindFirst(s[1..], (c: char) => c == '@').value;
      assert k <= i - 1;
      var t := s[k + 3..|s| - 1];
      assert t[j - (k + 3)] == '.';
    }
  }

  /** `test` of the identification pattern: the automaton's verdict, which is the pattern's. */
  method TestId(s: string, letters: set<char>) returns (ok: bool)
    ensures ok <==> IdPattern(s, letters)
  {
    IdMatchesSpec(s, letters);
    ok := IdMatches(s, letters);
  }

  /** `test` of the e-mail pattern: the scanner's verdict, which is the pattern's. */
  method TestEmail(s: string) returns (ok: bool)
    ensures ok <==> EmailPattern(s)
  {
    EmailScanSpec(s);
    ok := EmailScan(s);
  }

  // ---------------------------------------------------------------------------
  // The form

  const NEW_CLIENT := Client("", "", "", "", "", Persona, "")

  const NAME_REQUIRED := "Nombre o Razón Social es requerido."
  const ID_REQUIRED := "El campo de identificación es requerido."
  const ID_FORMAT := "Formato inválido. Use V-, E-, J-, G-, P- seguido de números."
  const PHONE_REQUIRED := "El teléfono es requerido."
  const ADDRESS_REQUIRED := "La dirección es requerida."
  const EMAIL_FORMAT := "El formato del correo electrónico es inválido."

  /** The form's text inputs: the target of a change, and the key of an error message. */
  datatype Field = NameField | IdNumberField | PhoneField | AddressField | EmailField

  /** The fields the form's checks pass: the condition under which `onSave` is reached. */
  predicate ClientValid(c: Client)
  {
    && !IsBlank(c.name)
    && !IsBlank(c.idNumber) && IdPattern(c.idNumber, CLIENT_ID_LETTERS)
    && !IsBlank(c.phone)
    && !IsBlank(c.address)
    && (c.email == "" || EmailPattern(c.email))
  }

  /**
    * The error map `validate` leaves for a client: an entry exactly for each
    * failing check, and the id entry says whether the id is missing or
    * malformed.
    */
  predicate ReportsClient(errors: map<Field, string>, c: Client)
  {
    && errors.Keys <= {NameField, IdNumberField, PhoneField, AddressField, EmailField}
    && (NameField in errors <==> IsBlank(c.name))
    && (IdNumberField in errors <==> IsBlank(c.idNumber) || !IdPattern(c.idNumber, CLIENT_ID_LETTERS))
    && (IdNumberField in errors ==> errors[IdNumberField] == if IsBlank(c.idNumber) then ID_REQUIRED else ID_FORMAT)
    && (PhoneField in errors <==> IsBlank(c.phone))
    && (AddressField in errors <==> IsBlank(c.address))
    && (EmailField in errors <==> c.email != "" && !EmailPattern(c.email))
  }

  /** The checks of `validate` on one client: one entry per failing check. */
  method CheckClient(c: Client) returns (errors: map<Field, string>)
    ensures ReportsClient(errors, c)
  {
    errors := map[];
    if IsBlank(c.name) {
      errors := errors[NameField := NAME_REQUIRED];
    }
    if IsBlank(c.idNumber) {
      errors := errors[IdNumberField := ID_REQUIRED];
    } else {
      var idOk := TestId(c.idNumber, CLIENT_ID_LETTERS);
      if !idOk {
        errors := errors[IdNumberField := ID_FORMAT];
      }
    }
    if IsBlank(c.phone) {
      errors := errors[PhoneField := PHONE_REQUIRED];
    }
    if IsBlank(c.address) {
      errors := errors[AddressField := ADDRESS_REQUIRED];
    }
    if c.email != "" {
      var emailOk := TestEmail(c.email);
      if !emailOk {
        errors := errors[EmailField := EMAIL_FORMAT];
      }
    }
  }

  class Form {
    var formData: Client
    var errors: map<Field, string>

    /** Opening: the client being edited, or a blank person. */
    constructor(client: Option<Client>)
      ensures formData == client.GetOr(NEW_CLIENT) && errors == map[]
    {
      formData := client.GetOr(NEW_CLIENT);
      errors := map[];
    }

    method Change(field: Field, value: string)
      modifies this
      ensures errors == old(errors)
      ensures formData == match field
        case NameField => old(formData).(name := value)
        case IdNumberField => old(formData).(idNumber := value)
        case PhoneField => old(formData).(phone := value)
        case AddressField => old(formData).(address := value)
        case EmailField => old(formData).(email := value)
    {
      match field {
        case NameField => formData := formData.(name := value);
        case IdNumberField => formData := formData.(idNumber := value);
        case PhoneField => formData := formData.(phone := value);
        case AddressField => formData := formData.(address := value);
        case EmailField => formData := formData.(email := value);
      }
    }

    method ChangeType(t: ClientType)
      modifies this
      ensures formData == old(formData).(clientType := t) && errors == old(errors)
    {
      formData := formData.(clientType := t);
    }

    /** `validate`: one entry per failing check, and true exactly when there is none. */
    method Validate() returns (ok: bool)
      modifies this
      ensures formData == old(formData)
      ensures ReportsClient(errors, formData)
      ensures ok <==> errors == map[]
      ensures ok <==> ClientValid(formData)
    {
      errors := CheckClient(formData);
      ok := |errors| == 0;
      assert ok <==> errors == map[] by {
        if |errors| == 0 {
          assert errors.Keys == {};
        }
      }
    }

    /** `handleSubmit`: the form data is forwarded only when it validates. */
    method Submit() returns (saved: Option<Client>)
      modifies this
      ensures formData == old(formData)
      ensures saved.Some? <==> ClientValid(formData)
      ensures saved.Some? ==> saved.value == formData
      ensures ReportsClient(errors, formData)
    {
      var ok := Validate();
      saved := if ok then Some(formData) else None;
    }
  }
}
