/**
 * The login page: the form schema (a name of at least two UTF-16 code units,
 * an Aadhaar number of exactly twelve ASCII digits), the Aadhaar-card scan
 * that fills the form from an OCR result, and the submit that logs the user
 * in. The OCR call is an abstract input that either extracts two strings or
 * fails.
 */
module Login {
  import opened Wrappers
  import opened JsText
  import Auth

  const NameMessage := "Please enter a valid name."
  const AadhaarMessage := "Please enter a valid 12-digit Aadhaar number."

  /** The minimum `length` of a name. */
  const MinNameLength := 2
  /** The number of digits of an Aadhaar number. */
  const AadhaarDigits := 12

  datatype FormValues = FormValues(name: string, aadhaar: string)

  /** `defaultValues` of the form. */
  const DefaultValues := FormValues("", "")

  datatype Field = NameField | AadhaarField
  datatype FieldError = FieldError(field: Field, message: string)

  /** `z.string().min(2)`: JavaScript `length`, so one character outside the BMP already counts twice. */
  predicate ValidName(name: string) {
    Utf16Length(name) >= MinNameLength
  }

  /** `\d` without the `u` flag: the ASCII digits only. */
  predicate IsAsciiDigit(c: char) {
    '0' <= c <= '9'
  }

  /** `/^\d{12}$/`. */
  predicate ValidAadhaar(aadhaar: string) {
    |aadhaar| == AadhaarDigits && forall i :: 0 <= i < |aadhaar| ==> IsAsciiDigit(aadhaar[i])
  }

  /** The issues `formSchema` reports, in field order; none exactly when the values are valid. */
  function SchemaErrors(v: FormValues): (errors: seq<FieldError>)
    ensures errors == [] <==> ValidName(v.name) && ValidAadhaar(v.aadhaar)
    ensures FieldError(NameField, NameMessage) in errors <==> !ValidName(v.name)
    ensures FieldError(AadhaarField, AadhaarMessage) in errors <==> !ValidAadhaar(v.aadhaar)
    ensures forall e :: e in errors ==> e == FieldError(NameField, NameMessage) || e == FieldError(AadhaarField, AadhaarMessage)
  {
    (if ValidName(v.name) then [] else [FieldError(NameField, NameMessage)])
    + (if ValidAadhaar(v.aadhaar) then [] else [FieldError(AadhaarField, AadhaarMessage)])
  }

  /** The untouched form is rejected on both fields. */
  lemma DefaultValuesRejected()
    ensures SchemaErrors(DefaultValues) == [FieldError(NameField, NameMessage), FieldError(AadhaarField, AadhaarMessage)]
  {
  }

  /** A name of two or more characters is valid, an empty name is not, and `length` may exceed the character count. */
  lemma NameLengthBounds(name: string)
    ensures |name| >= MinNameLength ==> ValidName(name)
    ensures |name| == 0 ==> !ValidName(name)
    ensures (forall i :: 0 <= i < |name| ==> name[i] as int < 0x1_0000) ==> (ValidName(name) <==> |name| >= MinNameLength)
  {
    if forall i :: 0 <= i < |name| ==> name[i] as int < 0x1_0000 {
      Utf16LengthOfBmp(name);
    }
  }

  /** The result of the Aadhaar OCR flow: two extracted strings, or a thrown error. */
  datatype ScanOutcome = Extracted(name: string, aadhaarNumber: string) | ScanError

  /** `result.name && result.aadhaarNumber`: both strings non-empty. */
  predicate ScanAccepted(o: ScanOutcome) {
    o.Extracted? && o.name != "" && o.aadhaarNumber != ""
  }

  /** A chosen image: the preview URL and what the OCR flow returns for it. */
  datatype SelectedFile = SelectedFile(previewUrl: string, outcome: ScanOutcome)

  datatype Toast = ScanSucceeded | ScanFailed | LoggedIn

  /** What pressing the submit button does. */
  datatype SubmitOutcome =
    | Blocked                               // the button is disabled
    | Rejected(errors: seq<FieldError>)     // validation failed, `onSubmit` not called
    | Submitted(values: FormValues)         // `onSubmit` called with these values

  /** Twelve digits printed in three groups of four, with any white space between the groups. */
  predicate DigitGroup(g: string) {
    |g| == 4 && forall i :: 0 <= i < |g| ==> IsAsciiDigit(g[i])
  }

  lemma DigitGroupStripsToItself(g: string)
    requires DigitGroup(g)
    ensures StripWhitespace(g) == g
  {
    assert NoWhitespace(g) by {
      forall i | 0 <= i < |g| ensures !IsWhitespace(g[i]) {
        assert IsAsciiDigit(g[i]);
      }
    }
    StripKeepsWhitespaceFree(g);
  }

  /** Stripping `x + gap + y` keeps the stripped pieces on either side of the gap. */
  lemma StripAcrossGap(x: string, gap: string, y: string)
    requires AllWhitespace(gap)
    ensures StripWhitespace(x + gap + y) == StripWhitespace(x) + StripWhitespace(y)
  {
    StripConcat(x + gap, y);
    StripConcat(x, gap);
    StripAllWhitespace(gap);
  }

  /** A scanned number printed as `1234 5678 9012` becomes a valid form value once stripped. */
  lemma GroupedNumberBecomesValid(a: string, b: string, c: string, gap1: string, gap2: string)
    requires DigitGroup(a) && DigitGroup(b) && DigitGroup(c)
    requires AllWhitespace(gap1) && AllWhitespace(gap2)
    ensures StripWhitespace(a + gap1 + b + gap2 + c) == a + b + c
    ensures ValidAadhaar(a + b + c)
  {
    DigitGroupStripsToItself(a);
    DigitGroupStripsToItself(b);
    DigitGroupStripsToItself(c);
    var ab := a + gap1 + b;
    StripAcrossGap(a, gap1, b);
    StripAcrossGap(ab, gap2, c);
    var r := a + b + c;
    forall i | 0 <= i < |r| ensures IsAsciiDigit(r[i]) {
      if i < 4 { assert r[i] == a[i]; }
      else if i < 8 { assert r[i] == b[i - 4]; }
      else { assert r[i] == c[i - 8]; }
    }
  }

  class LoginPage {
    var name: string
    var aadhaar: string
    var isScanning: bool
    var isLoggingIn: bool
    var imagePreview: Option<string>
    var lastToast: Option<Toast>

    constructor ()
      ensures FormValues(name, aadhaar) == DefaultValues
      ensures !isScanning && !isLoggingIn && imagePreview == None && lastToast == None
    {
      name, aadhaar := DefaultValues.name, DefaultValues.aadhaar;
      isScanning, isLoggingIn := false, false;
      imagePreview, lastToast := None, None;
    }

    /** `disabled={isLoggingIn || isScanning}` on the submit button. */
    predicate SubmitDisabled()
      reads this
    {
      isLoggingIn || isScanning
    }

    /** The synchronous start of `handleFileChange`: mark scanning and show the preview. */
    method BeginScan(previewUrl: string)
      modifies this`isScanning, this`imagePreview
      ensures isScanning && imagePreview == Some(previewUrl)
    {
      isScanning := true;
      imagePreview := Some(previewUrl);
    }

    /**
     * The rest of `handleFileChange` once the OCR flow has answered: on
     * acceptance the name is stored verbatim and the number without white
     * space; on failure the form is left alone. Scanning ends either way.
     */
    method FinishScan(outcome: ScanOutcome)
      modifies this`name, this`aadhaar, this`lastToast, this`isScanning
      ensures ScanAccepted(outcome) ==>
                name == outcome.name && aadhaar == StripWhitespace(outcome.aadhaarNumber)
                && lastToast == Some(ScanSucceeded)
      ensures !ScanAccepted(outcome) ==>
                name == old(name) && aadhaar == old(aadhaar) && lastToast == Some(ScanFailed)
      ensures !isScanning
    {
      if ScanAccepted(outcome) {
        name := outcome.name;
        aadhaar := StripWhitespace(outcome.aadhaarNumber);
        lastToast := Some(ScanSucceeded);
      } else {
        lastToast := Some(ScanFailed);
      }
      isScanning := false;
    }

    /** `handleFileChange`: nothing when no file was chosen, otherwise a whole scan. */
    method HandleFileChange(file: Option<SelectedFile>)
      modifies this`name, this`aadhaar, this`lastToast, this`isScanning, this`imagePreview
      ensures file.None? ==>
                name == old(name) && aadhaar == old(aadhaar) && lastToast == old(lastToast)
                && isScanning == old(isScanning) && imagePreview == old(imagePreview)
      ensures file.Some? ==> !isScanning && imagePreview == Some(file.value.previewUrl)
      ensures file.Some? && ScanAccepted(file.value.outcome) ==>
                name == file.value.outcome.name && aadhaar == StripWhitespace(file.value.outcome.aadhaarNumber)
                && NoWhitespace(aadhaar) && lastToast == Some(ScanSucceeded)
      ensures file.Some? && !ScanAccepted(file.value.outcome) ==>
                name == old(name) && aadhaar == old(aadhaar) && lastToast == Some(ScanFailed)
    {
      if file.Some? {
        BeginScan(file.value.previewUrl);
        FinishScan(file.value.outcome);
      }
    }

    /**
     * Pressing submit: ignored while the button is disabled; otherwise the
     * schema runs, and only valid values reach `onSubmit`, which sets
     * `isLoggingIn` before its simulated delay.
     */
    method BeginSubmit() returns (outcome: SubmitOutcome)
      modifies this`isLoggingIn
      ensures old(SubmitDisabled()) ==> outcome == Blocked && isLoggingIn == old(isLoggingIn)
      ensures !old(SubmitDisabled()) && SchemaErrors(FormValues(name, aadhaar)) != [] ==>
                outcome == Rejected(SchemaErrors(FormValues(name, aadhaar))) && isLoggingIn == old(isLoggingIn)
      ensures !old(SubmitDisabled()) && SchemaErrors(FormValues(name, aadhaar)) == [] ==>
                outcome == Submitted(FormValues(name, aadhaar)) && isLoggingIn
    {
      if SubmitDisabled() {
        return Blocked;
      }
      var errors := SchemaErrors(FormValues(name, aadhaar));
      if errors != [] {
        return Rejected(errors);
      }
      isLoggingIn := true;
      outcome := Submitted(FormValues(name, aadhaar));
    }

    /** The rest of `onSubmit`: log in with the name and Aadhaar only, then clear `isLoggingIn`. */
    method FinishSubmit(values: FormValues, auth: Auth.AuthProvider)
      modifies this`isLoggingIn, this`lastToast, auth
      ensures auth.user == Some(Auth.WithDefaults(Auth.User(values.name, values.aadhaar, None, None)))
      ensures auth.storage == old(auth.storage)[Auth.StorageKey := Auth.Serialized(auth.user.value)]
      ensures auth.loading == old(auth.loading) && auth.Valid()
      ensures lastToast == Some(LoggedIn) && !isLoggingIn
    {
      auth.Login(Auth.User(values.name, values.aadhaar, None, None));
      lastToast := Some(LoggedIn);
      isLoggingIn := false;
    }

    /** A submit from start to end. */
    method Submit(auth: Auth.AuthProvider) returns (outcome: SubmitOutcome)
      modifies this`isLoggingIn, this`lastToast, auth
      ensures outcome.Submitted? <==> !old(SubmitDisabled()) && ValidName(name) && ValidAadhaar(aadhaar)
      ensures outcome.Submitted? ==>
                && outcome.values == FormValues(name, aadhaar)
                && auth.user == Some(Auth.User(name, aadhaar, Some(""), Some("")))
                && auth.storage == old(auth.storage)[Auth.StorageKey := Auth.Serialized(auth.user.value)]
                && auth.Valid() && !isLoggingIn && lastToast == Some(LoggedIn)
      ensures !outcome.Submitted? ==>
                auth.user == old(auth.user) && auth.storage == old(auth.storage)
                && isLoggingIn == old(isLoggingIn) && lastToast == old(lastToast)
      ensures auth.loading == old(auth.loading)
    {
      outcome := BeginSubmit();
      if outcome.Submitted? {
        FinishSubmit(outcome.values, auth);
      }
    }
  }
}
