/** The registration form (src/components/auth/RegisterForm.tsx): its
    per-field validation, the clearing of a field's error on change, and the
    submit that registers only a valid form. */
module RegisterForm {
  import opened Basics
  import opened Text
  import opened Types
  import opened Storage
  import Auth

  /** The keys of the form's error record: the names of its five inputs. */
  datatype RegisterField = NameField | EmailField | PhoneField | PasswordField | ConfirmationField

  /** The messages the error record holds; `Cleared` is the empty string a
      change leaves behind. */
  datatype Message = Cleared | NameRequired | EmailRequired | EmailMalformed
                   | PasswordRequired | PasswordShort | ConfirmationMismatch
  {
    /** The text shown under the field. */
    function Display(): string {
      match this
      case Cleared => ""
      case NameRequired => "Nama harus diisi"
      case EmailRequired => "Email harus diisi"
      case EmailMalformed => "Format email tidak valid"
      case PasswordRequired => "Password harus diisi"
      case PasswordShort => "Password minimal 6 karakter"
      case ConfirmationMismatch => "Konfirmasi password tidak cocok"
    }
  }

  /** Only `Cleared` shows as the empty string, so "the field has a message"
      means the same on messages and on their text. */
  lemma OnlyClearedIsEmpty(m: Message)
    ensures m.Display() == "" <==> m == Cleared
  {
  }

  const EmptyRegistration := RegisterFormData("", "", "", "", "")

  /** The form passes validation: a non-blank name, a non-blank e-mail the
      pattern matches, a password of at least 6 UTF-16 code units, and a matching
      confirmation. The phone is not checked. */
  predicate Acceptable(form: RegisterFormData) {
    && !Blank(form.name)
    && !Blank(form.email) && EmailPatternMatches(form.email)
    && Utf16Length(form.password) >= 6
    && form.password == form.password_confirmation
  }

  /** The error record `validateForm` builds: a field has an entry exactly when
      it fails its check. The e-mail gets at most one message, "required" when
      blank and "invalid format" otherwise; the password likewise, "required"
      when empty and "too short" below six UTF-16 code units. */
  function RegistrationErrors(form: RegisterFormData): (errors: map<RegisterField, Message>)
    ensures NameField in errors <==> Blank(form.name)
    ensures EmailField in errors <==> Blank(form.email) || !EmailPatternMatches(form.email)
    ensures PasswordField in errors <==> Utf16Length(form.password) < 6
    ensures ConfirmationField in errors <==> form.password != form.password_confirmation
    ensures PhoneField !in errors
    ensures NameField in errors ==> errors[NameField] == NameRequired
    ensures EmailField in errors ==> errors[EmailField] == if Blank(form.email) then EmailRequired else EmailMalformed
    ensures PasswordField in errors ==> errors[PasswordField] == if form.password == "" then PasswordRequired else PasswordShort
    ensures ConfirmationField in errors ==> errors[ConfirmationField] == ConfirmationMismatch
  {
    var e0: map<RegisterField, Message> := map[];
    var e1 := if Blank(form.name) then e0[NameField := NameRequired] else e0;
    var e2 := if Blank(form.email) then e1[EmailField := EmailRequired]
              else if !EmailPatternMatches(form.email) then e1[EmailField := EmailMalformed]
              else e1;
    var e3 := if form.password == "" then e2[PasswordField := PasswordRequired]
              else if Utf16Length(form.password) < 6 then e2[PasswordField := PasswordShort]
              else e2;
    if form.password != form.password_confirmation then e3[ConfirmationField := ConfirmationMismatch] else e3
  }

  /** The form is valid, i.e. its error record is empty, exactly when it is acceptable. */
  lemma NoErrorsIffAcceptable(form: RegisterFormData)
    ensures RegistrationErrors(form) == map[] <==> Acceptable(form)
  {
    if !Acceptable(form) {
      var e := RegistrationErrors(form);
      assert NameField in e || EmailField in e || PasswordField in e || ConfirmationField in e;
    }
  }

  /** A fresh form is refused for its name, e-mail and password, each with its
      "required" message; the empty confirmation matches the empty password. */
  lemma EmptyRegistrationErrors()
    ensures RegistrationErrors(EmptyRegistration).Keys == {NameField, EmailField, PasswordField}
    ensures RegistrationErrors(EmptyRegistration)[EmailField] == EmailRequired
    ensures RegistrationErrors(EmptyRegistration)[PasswordField] == PasswordRequired
  {
    assert Blank("");
  }

  /** The length is counted as JavaScript counts it: three characters outside
      the Basic Multilingual Plane are six code units and pass the length check,
      while three ordinary letters do not. */
  lemma SurrogatePairsCountTwice()
    ensures PasswordField !in RegistrationErrors(EmptyRegistration.(password := "\U{1F512}\U{1F512}\U{1F512}"))
    ensures PasswordField in RegistrationErrors(EmptyRegistration.(password := "abc"))
  {
    var locks := "\U{1F512}\U{1F512}\U{1F512}";
    assert locks[1..][1..][1..] == [];
    assert Utf16Length(locks) == 6;
  }

  /** A name is refused exactly when it is nothing but white space. */
  lemma NameRefusedIffAllSpace(form: RegisterFormData)
    ensures NameField in RegistrationErrors(form) <==> AllSpace(form.name)
  {
    BlankIffAllSpace(form.name);
  }

  /** An e-mail that passes holds an '@' with a non-space character before it
      and, at least two characters later, a '.' with a non-space character
      after it. */
  lemma AcceptedEmailShape(form: RegisterFormData)
    requires EmailField !in RegistrationErrors(form)
    ensures exists at, dot :: 0 < at && at + 1 < dot && dot + 1 < |form.email|
                              && form.email[at] == '@' && form.email[dot] == '.'
                              && !IsSpace(form.email[at - 1]) && !IsSpace(form.email[dot + 1])
  {
    EmailPatternMeans(form.email);
    var at, dot :| 0 < at && at + 1 < dot && dot + 1 < |form.email| && EmailShapeAt(form.email, at, dot);
    assert form.email[at] == '@' && form.email[dot] == '.';
  }

  /** `{ ...prev, [name]: value }` */
  function WithField(form: RegisterFormData, field: RegisterField, value: string): RegisterFormData
  {
    match field
    case NameField => form.(name := value)
    case EmailField => form.(email := value)
    case PhoneField => form.(phone := value)
    case PasswordField => form.(password := value)
    case ConfirmationField => form.(password_confirmation := value)
  }

  /** The form's state: the field values and the error record on screen. */
  class RegisterFormState {
    var formData: RegisterFormData
    var errors: map<RegisterField, Message>

    constructor ()
      ensures formData == EmptyRegistration && errors == map[]
    {
      formData := EmptyRegistration;
      errors := map[];
    }

    /** `handleChange` on the input named `field`. */
    method HandleChange(field: RegisterField, value: string)
      modifies this
      ensures formData == WithField(old(formData), field, value)
      ensures errors == ClearedError(old(errors), field, Cleared)
    {
      formData := WithField(formData, field, value);
      if field in errors && errors[field] != Cleared {
        errors := errors[field := Cleared];
      }
    }

    /** `validateForm`: build the error record, show it, and report whether it
        is empty. */
    method ValidateForm() returns (valid: bool)
      modifies this
      ensures errors == RegistrationErrors(formData) && formData == old(formData)
      ensures valid <==> Acceptable(formData)
    {
      var data := formData;
      var newErrors := RegistrationErrors(data);
      NoErrorsIffAcceptable(data);
      errors := newErrors;
      valid := newErrors == map[];
    }

    /** `handleSubmit`: registration is attempted only for a valid form.
        `idMillis` and `tokenMillis` are the two clock readings `register` takes. */
    method Submit(session: Auth.Session, stamp: string, idMillis: nat, tokenMillis: nat) returns (registered: bool)
      modifies this, session, session.store
      ensures registered <==> Acceptable(old(formData))
      ensures formData == old(formData) && errors == RegistrationErrors(formData)
      ensures !registered ==> unchanged(session, session.store)
      ensures registered ==>
                && session.state == AuthState(Some(Auth.RegisteredUser(formData, stamp, idMillis)), true, false)
                && session.store.entries ==
                     old(session.store.entries)[Auth.UserKey := UserJson(Auth.RegisteredUser(formData, stamp, idMillis))]
                                               [Auth.TokenKey := Text(Auth.Token(tokenMillis))]
                && session.Valid()
    {
      var valid := ValidateForm();
      if valid {
        registered := session.Register(formData, stamp, idMillis, tokenMillis);
      } else {
        registered := false;
      }
    }
  }
}
