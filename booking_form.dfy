/**
 * The booking form component: its state (the form record, the two field
 * errors, the submitting and success flags and the send error) and its event
 * handlers. Each handler runs to completion before the next event, and the
 * e-mail service's verdict is a parameter of Submit.
 */
module BookingForm {
  import opened Text
  import opened Types
  import opened BookingFormat

  const PhoneError: string := "Le numéro doit contenir 10 chiffres."
  const AddressError: string := "Veuillez entrer une adresse plus précise."
  const SendError: string :=
    "Une erreur est survenue lors de l'envoi. Veuillez vérifier votre connexion ou nous appeler."

  /** The inline messages under the phone and address fields. */
  datatype FieldErrors = FieldErrors(phone: Option<string>, address: Option<string>)

  /** The address field shows its warning exactly for a non-empty address shorter than five characters. */
  predicate AddressTooShort(cleaned: string) {
    0 < |cleaned| < 5
  }

  /** The phone field's blur warning: some digits, but fewer than ten. */
  predicate PhoneIncomplete(phone: string) {
    0 < |Digits(phone)| < 10
  }

  /** The record as `handleSubmit` builds it: the client's row, then the neighbour's for a duo. */
  method BuildExcelLines(d: BookingFormData) returns (excelLines: string)
    ensures excelLines == ExcelLines(d)
  {
    excelLines := PrimaryLine(d);
    if d.isDuoVoisin {
      excelLines := excelLines + "\n" + NeighborLine(d);
    }
  }

  /**
   * The booking form's state. While `isSuccess` holds the confirmation is shown
   * instead of the form, so the field handlers and submission need the form
   * view and only the reset needs the confirmation; the selection sync runs in
   * both.
   */
  class Form {
    var formData: BookingFormData
    var errors: FieldErrors
    var isSubmitting: bool
    var isSuccess: bool
    var errorMsg: Option<string>

    /**
     * Between events: the stored phone is a formatter output (so it has at
     * most ten digits), no submission is in flight, and every message shown
     * is one of the form's three.
     */
    ghost predicate Valid()
      reads this
    {
      && FormatPhoneNumber(formData.phone) == formData.phone
      && !isSubmitting
      && errors.phone in {None, Some(PhoneError)}
      && errors.address in {None, Some(AddressError)}
      && errorMsg in {None, Some(SendError)}
    }

    /** The empty form; an absent initial selection falls back to `jumele` / `tonte`. */
    constructor (initialLawnType: Option<LawnType>, initialServiceType: Option<ServiceType>)
      ensures Valid()
      ensures formData == BookingFormData(
                "", "", "", "",
                if initialLawnType.Some? then initialLawnType.value else Jumele,
                if initialServiceType.Some? then initialServiceType.value else Tonte,
                false, EmptyNeighbor, "")
      ensures errors == FieldErrors(None, None)
      ensures !isSubmitting && !isSuccess && errorMsg == None
    {
      formData := BookingFormData(
        "", "", "", "",
        if initialLawnType.Some? then initialLawnType.value else Jumele,
        if initialServiceType.Some? then initialServiceType.value else Tonte,
        false, EmptyNeighbor, "");
      errors := FieldErrors(None, None);
      isSubmitting := false;
      isSuccess := false;
      errorMsg := None;
    }

    /** A new plan chosen on the pricing cards replaces the two selections. */
    method SyncSelection(lawnType: LawnType, serviceType: ServiceType)
      requires Valid()
      modifies this
      ensures Valid()
      ensures formData == old(formData).(lawnType := lawnType, serviceType := serviceType)
      ensures errors == old(errors) && isSuccess == old(isSuccess) && errorMsg == old(errorMsg)
    {
      formData := formData.(lawnType := lawnType, serviceType := serviceType);
    }

    method SetName(value: string)
      requires Valid()
      requires !isSuccess
      modifies this
      ensures Valid()
      ensures formData == old(formData).(name := value)
      ensures errors == old(errors) && isSuccess == old(isSuccess) && errorMsg == old(errorMsg)
    {
      formData := formData.(name := value);
    }

    method SetEmail(value: string)
      requires Valid()
      requires !isSuccess
      modifies this
      ensures Valid()
      ensures formData == old(formData).(email := value)
      ensures errors == old(errors) && isSuccess == old(isSuccess) && errorMsg == old(errorMsg)
    {
      formData := formData.(email := value);
    }

    method SetComment(value: string)
      requires Valid()
      requires !isSuccess
      modifies this
      ensures Valid()
      ensures formData == old(formData).(comment := value)
      ensures errors == old(errors) && isSuccess == old(isSuccess) && errorMsg == old(errorMsg)
    {
      formData := formData.(comment := value);
    }

    /** Ticking or unticking "Duo Voisin"; the neighbour's fields are kept either way. */
    method SetDuoVoisin(checked: bool)
      requires Valid()
      requires !isSuccess
      modifies this
      ensures Valid()
      ensures formData == old(formData).(isDuoVoisin := checked)
      ensures errors == old(errors) && isSuccess == old(isSuccess) && errorMsg == old(errorMsg)
    {
      formData := formData.(isDuoVoisin := checked);
    }

    /** Typing in the address field stores the raw text and clears the address warning. */
    method SetAddress(value: string)
      requires Valid()
      requires !isSuccess
      modifies this
      ensures Valid()
      ensures formData == old(formData).(address := value)
      ensures errors == old(errors).(address := None)
      ensures isSuccess == old(isSuccess) && errorMsg == old(errorMsg)
    {
      formData := formData.(address := value);
      if errors.address.Some? {
        errors := errors.(address := None);
      }
    }

    /** Typing in the phone field stores the formatted value and clears the phone warning. */
    method PhoneChange(value: string)
      requires Valid()
      requires !isSuccess
      modifies this
      ensures Valid()
      ensures formData == old(formData).(phone := FormatPhoneNumber(value))
      ensures errors == old(errors).(phone := None)
      ensures isSuccess == old(isSuccess) && errorMsg == old(errorMsg)
    {
      FormatPhoneIdempotent(value);
      formData := formData.(phone := FormatPhoneNumber(value));
      if errors.phone.Some? {
        errors := errors.(phone := None);
      }
    }

    /** Leaving the phone field warns about an incomplete number; it never clears a warning. */
    method PhoneBlur()
      requires Valid()
      requires !isSuccess
      modifies this
      ensures Valid()
      ensures formData == old(formData)
      ensures errors == if PhoneIncomplete(old(formData).phone)
                        then old(errors).(phone := Some(PhoneError))
                        else old(errors)
      ensures isSuccess == old(isSuccess) && errorMsg == old(errorMsg)
    {
      var digits := Digits(formData.phone);
      if |digits| > 0 && |digits| < 10 {
        errors := errors.(phone := Some(PhoneError));
      }
    }

    /** Leaving the address field normalises it and sets or clears the address warning. */
    method AddressBlur()
      requires Valid()
      requires !isSuccess
      modifies this
      ensures Valid()
      ensures formData == old(formData).(address := FormatAddress(old(formData).address))
      ensures errors.phone == old(errors).phone
      ensures errors.address == if AddressTooShort(formData.address) then Some(AddressError) else None
      ensures isSuccess == old(isSuccess) && errorMsg == old(errorMsg)
    {
      var cleaned := FormatAddress(formData.address);
      formData := formData.(address := cleaned);
      if |cleaned| > 0 && |cleaned| < 5 {
        errors := errors.(address := Some(AddressError));
      } else {
        errors := errors.(address := None);
      }
    }

    /** Stores one of the neighbour's fields. */
    method NeighborChange(field: NeighborField, value: string)
      requires Valid()
      requires !isSuccess
      modifies this
      ensures Valid()
      ensures formData == old(formData).(neighborInfo := match field
                case Name => old(formData).neighborInfo.(name := value)
                case Address => old(formData).neighborInfo.(address := value)
                case Phone => old(formData).neighborInfo.(phone := value)
                case Email => old(formData).neighborInfo.(email := value))
      ensures errors == old(errors) && isSuccess == old(isSuccess) && errorMsg == old(errorMsg)
    {
      var n := formData.neighborInfo;
      match field {
        case Name => n := n.(name := value);
        case Address => n := n.(address := value);
        case Phone => n := n.(phone := value);
        case Email => n := n.(email := value);
      }
      formData := formData.(neighborInfo := n);
    }

    /** Typing in the neighbour's phone field stores the formatted value. */
    method NeighborPhoneChange(value: string)
      requires Valid()
      requires !isSuccess
      modifies this
      ensures Valid()
      ensures formData == old(formData).(neighborInfo := old(formData).neighborInfo.(phone := FormatPhoneNumber(value)))
      ensures errors == old(errors) && isSuccess == old(isSuccess) && errorMsg == old(errorMsg)
    {
      NeighborChange(Phone, FormatPhoneNumber(value));
    }

    /** Leaving the neighbour's address field normalises it; no warning is shown for it. */
    method NeighborAddressBlur()
      requires Valid()
      requires !isSuccess
      modifies this
      ensures Valid()
      ensures formData == old(formData).(neighborInfo := old(formData).neighborInfo.(
                address := FormatAddress(old(formData).neighborInfo.address)))
      ensures errors == old(errors) && isSuccess == old(isSuccess) && errorMsg == old(errorMsg)
    {
      NeighborChange(Address, FormatAddress(formData.neighborInfo.address));
    }

    /**
     * The sending half of `handleSubmit`, once the phone has passed: mark the
     * form as submitting, clear the send error, build the message and hand it
     * to the e-mail service, whose verdict is `sendSucceeds`.
     */
    method SendRequest(sendSucceeds: bool) returns (params: TemplateParams)
      requires Valid()
      requires !isSuccess
      modifies this
      ensures Valid()
      ensures formData == old(formData) && errors == old(errors)
      ensures params == TemplateParamsOf(formData, ExcelLines(formData))
      ensures params.clientPhone == formData.phone
      ensures sendSucceeds ==> isSuccess && errorMsg == None
      ensures !sendSucceeds ==> !isSuccess && errorMsg == Some(SendError)
    {
      isSubmitting := true;
      errorMsg := None;

      var excelLines := BuildExcelLines(formData);
      params := TemplateParamsOf(formData, excelLines);

      if sendSucceeds {
        isSuccess := true;
      } else {
        errorMsg := Some(SendError);
      }
      isSubmitting := false;
    }

    /**
     * Submitting. With fewer than ten phone digits the phone warning is set
     * and nothing else happens: no message is built or sent. Otherwise the
     * message is built and handed to the e-mail service, whose verdict is
     * `sendSucceeds`: success shows the confirmation, failure shows the send
     * error, and the entered data is kept in both cases.
     */
    method Submit(sendSucceeds: bool) returns (sent: Option<TemplateParams>)
      requires Valid()
      requires !isSuccess
      modifies this
      ensures Valid()
      ensures formData == old(formData)
      ensures |Digits(old(formData).phone)| < 10 ==>
                && sent == None
                && errors == old(errors).(phone := Some(PhoneError))
                && isSuccess == old(isSuccess) && errorMsg == old(errorMsg)
      ensures |Digits(old(formData).phone)| >= 10 ==>
                && sent == Some(TemplateParamsOf(old(formData), ExcelLines(old(formData))))
                && errors == old(errors)
                && (sendSucceeds ==> isSuccess && errorMsg == None)
                && (!sendSucceeds ==> !isSuccess && errorMsg == Some(SendError))
      ensures sent.Some? ==> IsFullPhone(sent.value.clientPhone) && |Digits(sent.value.clientPhone)| == 10
    {
      FormattedPhoneDigits(formData.phone);
      var digits := Digits(formData.phone);
      if |digits| < 10 {
        errors := errors.(phone := Some(PhoneError));
        return None;
      }
      var params := SendRequest(sendSucceeds);
      sent := Some(params);
    }

    /**
     * "Faire une autre demande": back to the form with the contact fields,
     * comment, duo flag and neighbour cleared; the two selections are kept.
     */
    method Reset()
      requires Valid()
      requires isSuccess
      modifies this
      ensures Valid()
      ensures !isSuccess
      ensures formData == BookingFormData(
                "", "", "", "", old(formData).lawnType, old(formData).serviceType,
                false, EmptyNeighbor, "")
      ensures errors == old(errors) && errorMsg == old(errorMsg)
    {
      isSuccess := false;
      formData := formData.(name := "", phone := "", email := "", address := "", comment := "",
                            isDuoVoisin := false, neighborInfo := EmptyNeighbor);
    }
  }
}
