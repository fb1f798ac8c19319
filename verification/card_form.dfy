/**
 * The card-creation form: three required fields, a phone-number format check,
 * an error map built field by field, and a submission that navigates to the
 * card page only when the map is empty.
 */
module CardForm {
  import opened Options
  import opened TextTrim
  import opened PhonePattern

  /** The keys the error map may hold, one per input field. */
  datatype Field = RequestorName | RecipientName | PhoneNumber

  const RequestorRequired: string := "Your name is required"
  const RecipientRequired: string := "Recipient's name is required"
  const PhoneRequired: string := "Phone number is required for SMS notifications"
  const PhoneInvalid: string := "Please enter a valid phone number (e.g., +1234567890)"

  /** The only card style the form offers, selected initially. */
  const DefaultStyle: string := "interactive-face"

  /** The query the form navigates to the card page with. */
  datatype CardQuery = CardQuery(style: string, requestor: string, recipient: string, phone: string)

  /** The error one field's check records for its own value, if any. */
  function FieldError(field: Field, value: string): (e: Option<string>)
    ensures e.None? <==> Trim(value) != [] && (field == PhoneNumber ==> MatchesPhonePattern(value))
    ensures field == PhoneNumber && e.Some? ==> (e.value == PhoneRequired <==> Trim(value) == [])
  {
    match field
    case RequestorName => if Trim(value) == [] then Some(RequestorRequired) else None
    case RecipientName => if Trim(value) == [] then Some(RecipientRequired) else None
    case PhoneNumber =>
      if Trim(value) == [] then Some(PhoneRequired)
      else if !MatchesPhonePattern(value) then Some(PhoneInvalid)
      else None
  }

  function ValueOf(field: Field, requestor: string, recipient: string, phone: string): string {
    match field
    case RequestorName => requestor
    case RecipientName => recipient
    case PhoneNumber => phone
  }

  function Lookup(errors: map<Field, string>, field: Field): Option<string> {
    if field in errors then Some(errors[field]) else None
  }

  /** Adds the field's error, if its check records one, to the map. */
  function Record(errors: map<Field, string>, field: Field, value: string): (r: map<Field, string>)
    ensures Lookup(r, field) == if FieldError(field, value).Some? then FieldError(field, value) else Lookup(errors, field)
    ensures forall g: Field | g != field :: Lookup(r, g) == Lookup(errors, g)
  {
    match FieldError(field, value)
    case Some(message) => errors[field := message]
    case None => errors
  }

  /** The error map as a whole: each field is a key exactly when its own check
      fails, holding that check's message, and there are no other keys. */
  function FormErrors(requestor: string, recipient: string, phone: string): (errors: map<Field, string>)
    ensures Lookup(errors, RequestorName) == FieldError(RequestorName, requestor)
    ensures Lookup(errors, RecipientName) == FieldError(RecipientName, recipient)
    ensures Lookup(errors, PhoneNumber) == FieldError(PhoneNumber, phone)
  {
    Record(Record(Record(map[], RequestorName, requestor), RecipientName, recipient), PhoneNumber, phone)
  }

  /** The form passes exactly when both names have visible text and the phone
      number has visible text and matches the pattern as typed. */
  lemma FormValidIff(requestor: string, recipient: string, phone: string)
    ensures FormErrors(requestor, recipient, phone) == map[]
        <==> Trim(requestor) != [] && Trim(recipient) != [] && Trim(phone) != [] && MatchesPhonePattern(phone)
  {
    var errors := FormErrors(requestor, recipient, phone);
    if errors == map[] {
      assert RequestorName !in errors && RecipientName !in errors && PhoneNumber !in errors;
    } else {
      var f :| f in errors;
      assert FieldError(f, ValueOf(f, requestor, recipient, phone)).Some?;
    }
  }

  /** An empty or white-space-only name yields exactly its "required" message. */
  lemma BlankNamesRequired(requestor: string, recipient: string, phone: string)
    ensures Lookup(FormErrors(requestor, recipient, phone), RequestorName) ==
      (if AllWhitespace(requestor) then Some(RequestorRequired) else None)
    ensures Lookup(FormErrors(requestor, recipient, phone), RecipientName) ==
      (if AllWhitespace(recipient) then Some(RecipientRequired) else None)
  {
    TrimEmptyIff(requestor);
    TrimEmptyIff(recipient);
  }

  /** The phone field records at most one message: "required" for blank input,
      otherwise the format message exactly when the input is not of the E.164 shape. */
  lemma PhoneErrorCases(requestor: string, recipient: string, phone: string)
    ensures Lookup(FormErrors(requestor, recipient, phone), PhoneNumber) ==
      (if AllWhitespace(phone) then Some(PhoneRequired)
       else if !PhoneShape(phone) then Some(PhoneInvalid)
       else None)
  {
    TrimEmptyIff(phone);
    PatternMeansShape(phone);
  }

  /** The pattern sees the untrimmed input: a number with visible text that
      starts with white space passes the "required" check but fails the format check. */
  lemma LeadingWhitespaceRejected(phone: string)
    requires phone != [] && IsWhitespace(phone[0])
    requires !AllWhitespace(phone)
    ensures FieldError(PhoneNumber, phone) == Some(PhoneInvalid)
  {
    TrimEmptyIff(phone);
    if MatchesPhonePattern(phone) {
      AcceptedCharacters(phone);
    }
  }

  /** Likewise for a number with visible text that ends with white space. */
  lemma TrailingWhitespaceRejected(phone: string)
    requires phone != [] && IsWhitespace(phone[|phone| - 1])
    requires !AllWhitespace(phone)
    ensures FieldError(PhoneNumber, phone) == Some(PhoneInvalid)
  {
    TrimEmptyIff(phone);
    if MatchesPhonePattern(phone) {
      AcceptedCharacters(phone);
    }
  }

  /** Each field's entry depends on that field's value alone. */
  lemma FieldsIndependent(a: string, b: string, c: string, a2: string, b2: string, c2: string)
    ensures Lookup(FormErrors(a, b, c), RequestorName) == Lookup(FormErrors(a, b2, c2), RequestorName)
    ensures Lookup(FormErrors(a, b, c), RecipientName) == Lookup(FormErrors(a2, b, c2), RecipientName)
    ensures Lookup(FormErrors(a, b, c), PhoneNumber) == Lookup(FormErrors(a2, b2, c), PhoneNumber)
  {
  }

  /** A number the pattern accepts has no white space, so trimming it for the
      query changes nothing. */
  lemma AcceptedPhoneIsTrimmed(phone: string)
    requires MatchesPhonePattern(phone)
    ensures Trim(phone) == phone
  {
    AcceptedCharacters(phone);
    TrimKeepsClean(phone);
  }

  /** The form's state: the three inputs, the selected style and the errors last shown. */
  class CardForm {
    var requestorName: string
    var recipientName: string
    var phoneNumber: string
    var selectedStyle: string
    var errors: map<Field, string>

    constructor ()
      ensures requestorName == "" && recipientName == "" && phoneNumber == ""
      ensures selectedStyle == DefaultStyle && errors == map[]
    {
      requestorName, recipientName, phoneNumber := "", "", "";
      selectedStyle := DefaultStyle;
      errors := map[];
    }

    /** Builds a fresh error map one field at a time, shows it, and reports
        whether it is empty. */
    method ValidateForm() returns (valid: bool)
      modifies this`errors
      ensures errors == FormErrors(requestorName, recipientName, phoneNumber)
      ensures valid <==> errors == map[]
      ensures valid <==> Trim(requestorName) != [] && Trim(recipientName) != []
                         && Trim(phoneNumber) != [] && MatchesPhonePattern(phoneNumber)
    {
      var requestorBlank := Trim(requestorName) == [];
      var recipientBlank := Trim(recipientName) == [];
      var phoneBlank := Trim(phoneNumber) == [];
      var newErrors: map<Field, string> := map[];
      if requestorBlank {
        newErrors := newErrors[RequestorName := RequestorRequired];
      }
      if recipientBlank {
        newErrors := newErrors[RecipientName := RecipientRequired];
      }
      if phoneBlank {
        newErrors := newErrors[PhoneNumber := PhoneRequired];
      } else if !MatchesPhonePattern(phoneNumber) {
        newErrors := newErrors[PhoneNumber := PhoneInvalid];
      }
      errors := newErrors;
      valid := |newErrors| == 0;
      FormValidIff(requestorName, recipientName, phoneNumber);
    }

    /** Validates, then either stays on the form or navigates with the selected
        style and the trimmed inputs. */
    method HandleSubmit() returns (navigation: Option<CardQuery>)
      modifies this`errors
      ensures errors == FormErrors(requestorName, recipientName, phoneNumber)
      ensures navigation.None? <==> errors != map[]
      ensures navigation.Some? ==>
        navigation.value == CardQuery(selectedStyle, Trim(requestorName), Trim(recipientName), Trim(phoneNumber))
      ensures navigation.Some? ==> navigation.value.phone == phoneNumber && PhoneShape(phoneNumber)
    {
      var valid := ValidateForm();
      if !valid {
        return None;
      }
      AcceptedPhoneIsTrimmed(phoneNumber);
      PatternMeansShape(phoneNumber);
      navigation := Some(CardQuery(selectedStyle, Trim(requestorName), Trim(recipientName), Trim(phoneNumber)));
    }
  }
}
