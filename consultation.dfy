/**
 * The consultation request form of the result card (components/ResultCard.tsx): the
 * combined WhatsApp number, the four field checks of validateForm, and the submit gate of
 * handleFormSubmit with the state it flips.
 */
module Consultation {
  import opened Wrappers
  import opened QuizTypes
  import opened JsString

  // ---------------------------------------------------------------------------
  // Field checks

  const NameMessage: string := "يرجى كتابة الاسم الثلاثي أو الثنائي بشكل صحيح (3 أحرف على الأقل)."
  const PhoneMessage: string := "يرجى إدخال رقم الهاتف بشكل صحيح."
  const WebsiteMessage: string := "يرجى إدخال رابط صحيح (مثال: www.example.com أو رابط حساب انستجرام/فيسبوك)."
  const ProblemsMessage: string := "يرجى توضيح المشكلة أو الهدف بشكل مفهوم (10 أحرف على الأقل)."

  /** `Partial<ConsultationForm>` used as the error record: a message per failing field. */
  datatype FormErrors = FormErrors(name: Option<string>, whatsapp: Option<string>,
                                   website: Option<string>, problems: Option<string>)

  const NoErrors := FormErrors(None, None, None, None)

  /** The name needs at least three characters once trimmed; a blank name or one shorter
      than three characters fails whatever it holds. */
  function NameInvalid(name: string): (r: bool)
    ensures AllWhitespace(name) ==> r
    ensures |name| < 3 ==> r
  {
    |Trim(name)| < 3
  }

  /** The local number needs at least five digits (whatever else it contains); a blank
      number has none, so it fails too. */
  function PhoneInvalid(localPhone: string): (r: bool)
    ensures AllWhitespace(localPhone) ==> r
    ensures |localPhone| < 5 ==> r
  {
    var digits := DigitsOnly(localPhone);
    assert AllWhitespace(localPhone) ==> digits == [] by {
      if AllWhitespace(localPhone) {
        DigitsOnlyOfWhitespace(localPhone);
      }
    }
    |digits| < 5
  }

  /** The website must be non-blank and match the URL pattern `matchesUrl` stands for. */
  function WebsiteInvalid(website: string, matchesUrl: string -> bool): (r: bool)
    ensures AllWhitespace(website) ==> r
    ensures !r ==> matchesUrl(website)
  {
    Trim(website) == [] || !matchesUrl(website)
  }

  /** The description needs at least ten characters once trimmed; a blank description or
      one shorter than ten characters fails. */
  function ProblemsInvalid(problems: string): (r: bool)
    ensures AllWhitespace(problems) ==> r
    ensures |problems| < 10 ==> r
  {
    |Trim(problems)| < 10
  }

  function MessageIf(failed: bool, message: string): Option<string>
  {
    if failed then Some(message) else None
  }

  /** The error record the four checks produce: each field is judged on its own input. */
  function FieldErrors(form: ConsultationForm, localPhone: string, matchesUrl: string -> bool): (r: FormErrors)
    ensures r.name.Some? <==> NameInvalid(form.name)
    ensures r.whatsapp.Some? <==> PhoneInvalid(localPhone)
    ensures r.website.Some? <==> WebsiteInvalid(form.website, matchesUrl)
    ensures r.problems.Some? <==> ProblemsInvalid(form.problems)
    ensures r == NoErrors <==>
      !NameInvalid(form.name) && !PhoneInvalid(localPhone) &&
      !WebsiteInvalid(form.website, matchesUrl) && !ProblemsInvalid(form.problems)
  {
    FormErrors(
      MessageIf(NameInvalid(form.name), NameMessage),
      MessageIf(PhoneInvalid(localPhone), PhoneMessage),
      MessageIf(WebsiteInvalid(form.website, matchesUrl), WebsiteMessage),
      MessageIf(ProblemsInvalid(form.problems), ProblemsMessage))
  }

  /**
   * validateForm: runs all four checks, records a message for every failing field, and
   * reports whether none failed. The phone is judged on the separately held local number,
   * not on the combined one.
   */
  method ValidateForm(form: ConsultationForm, localPhone: string, matchesUrl: string -> bool)
    returns (errors: FormErrors, isValid: bool)
    ensures errors == FieldErrors(form, localPhone, matchesUrl)
    ensures isValid <==> errors == NoErrors
  {
    errors := NoErrors;
    isValid := true;

    var name := Trim(form.name);
    if name == [] || |name| < 3 {
      errors := errors.(name := Some(NameMessage));
      isValid := false;
    }

    var cleanLocalPhone := DigitsOnly(localPhone);
    if Trim(localPhone) == [] || |cleanLocalPhone| < 5 {
      errors := errors.(whatsapp := Some(PhoneMessage));
      isValid := false;
    } else {
      assert !PhoneInvalid(localPhone);
    }
    assert Trim(localPhone) == [] ==> PhoneInvalid(localPhone) by {
      if Trim(localPhone) == [] {
        DigitsOnlyOfWhitespace(localPhone);
      }
    }

    if Trim(form.website) == [] || !matchesUrl(form.website) {
      errors := errors.(website := Some(WebsiteMessage));
      isValid := false;
    }

    var problems := Trim(form.problems);
    if problems == [] || |problems| < 10 {
      errors := errors.(problems := Some(ProblemsMessage));
      isValid := false;
    }
  }

  /** The four messages are distinct, so each failing field is told apart. */
  lemma MessagesDistinct()
    ensures NameMessage != PhoneMessage && NameMessage != WebsiteMessage && NameMessage != ProblemsMessage
    ensures PhoneMessage != WebsiteMessage && PhoneMessage != ProblemsMessage
    ensures WebsiteMessage != ProblemsMessage
  {
    assert |PhoneMessage| < |NameMessage|;
    assert |PhoneMessage| < |ProblemsMessage| < |NameMessage| < |WebsiteMessage|;
  }

  /** The name rule on the two sample names. */
  lemma NameSamples()
    ensures NameInvalid("Al") && !NameInvalid("Ahmed Ali")
  {
    TrimOfTrimmed("Al");
    TrimOfTrimmed("Ahmed Ali");
  }

  /** The phone rule on the two sample local numbers. */
  lemma PhoneSamples()
    ensures PhoneInvalid("123") && !PhoneInvalid("0100000000")
  {
    DigitsOnlyOfDigits("123");
    DigitsOnlyOfDigits("0100000000");
  }

  /** The description rule on the two sample descriptions. */
  lemma ProblemsSamples()
    ensures ProblemsInvalid("short") && !ProblemsInvalid("I need help with content strategy")
  {
    TrimOfTrimmed("short");
    TrimOfTrimmed("I need help with content strategy");
  }

  /** A sample address that the URL pattern accepts passes the website rule. */
  lemma WebsiteSample(matchesUrl: string -> bool)
    requires matchesUrl("www.example.com")
    ensures !WebsiteInvalid("www.example.com", matchesUrl)
  {
    TrimOfTrimmed("www.example.com");
  }

  /** "Al" / "123" / "notaurl" / "short" fails all four checks at once. */
  lemma FourErrorsAtOnce(whatsapp: string, matchesUrl: string -> bool)
    requires !matchesUrl("notaurl")
    ensures FieldErrors(ConsultationForm("Al", whatsapp, "notaurl", "short"), "123", matchesUrl) ==
      FormErrors(Some(NameMessage), Some(PhoneMessage), Some(WebsiteMessage), Some(ProblemsMessage))
  {
    NameSamples();
    PhoneSamples();
    ProblemsSamples();
  }

  /** "Ahmed Ali" / "0100000000" / "www.example.com" / a long description passes. */
  lemma WellFormedRequestPasses(whatsapp: string, matchesUrl: string -> bool)
    requires matchesUrl("www.example.com")
    ensures FieldErrors(ConsultationForm("Ahmed Ali", whatsapp, "www.example.com",
                                         "I need help with content strategy"),
                        "0100000000", matchesUrl) == NoErrors
  {
    NameSamples();
    PhoneSamples();
    ProblemsSamples();
    WebsiteSample(matchesUrl);
  }

  // ---------------------------------------------------------------------------
  // The combined number and the endpoint

  /** `${countryCode}${localPhone}`: both parts can be read back from the result. */
  function CombinedNumber(countryCode: string, localPhone: string): (r: string)
    ensures |r| == |countryCode| + |localPhone|
    ensures r[..|countryCode|] == countryCode && r[|countryCode|..] == localPhone
  {
    countryCode + localPhone
  }

  /** The marker of an endpoint that was never filled in. */
  const EndpointPlaceholder: string := "ضع_رابط"

  /** `part` occurs in `s` starting at position `i`. */
  ghost predicate OccursAt(s: string, part: string, i: int)
  {
    0 <= i && i + |part| <= |s| && s[i..i + |part|] == part
  }

  /** `s.includes(part)`: some position of `s` starts an occurrence of `part`. */
  function ContainsText(s: string, part: string): (r: bool)
    ensures r <==> exists i :: OccursAt(s, part, i)
    decreases |s|
  {
    if |part| <= |s| && s[..|part|] == part then
      assert OccursAt(s, part, 0);
      true
    else if s == [] then
      false
    else
      var r := ContainsText(s[1..], part);
      assert r ==> exists i :: OccursAt(s, part, i) by {
        if r {
          var i :| OccursAt(s[1..], part, i);
          assert s[1..][i..i + |part|] == s[i + 1..i + 1 + |part|];
          assert OccursAt(s, part, i + 1);
        }
      }
      assert (exists i :: OccursAt(s, part, i)) ==> r by {
        if exists i :: OccursAt(s, part, i) {
          var i :| OccursAt(s, part, i);
          assert s[..|part|] == s[0..|part|];
          assert i != 0;
          assert s[1..][i - 1..i - 1 + |part|] == s[i..i + |part|];
          assert OccursAt(s[1..], part, i - 1);
        }
      }
      r
  }

  /** The endpoint check of handleFormSubmit: the address is set and holds no
      placeholder anywhere. */
  function EndpointConfigured(endpoint: string): (r: bool)
    ensures r <==> endpoint != [] && forall i :: !OccursAt(endpoint, EndpointPlaceholder, i)
  {
    endpoint != [] && !ContainsText(endpoint, EndpointPlaceholder)
  }

  /** The placeholder address is refused, and so is any address that embeds it. */
  lemma PlaceholderEndpointRefused(prefix: string, suffix: string)
    ensures !EndpointConfigured(prefix + EndpointPlaceholder + suffix)
  {
    var e := prefix + EndpointPlaceholder + suffix;
    assert e[|prefix|..|prefix| + |EndpointPlaceholder|] == EndpointPlaceholder;
    assert OccursAt(e, EndpointPlaceholder, |prefix|);
  }

  /** The form fields an input event with this `name` attribute can change through
      handleFormChange (the phone input has its own handler). */
  datatype TextField = NameField | WebsiteField | ProblemsField

  // ---------------------------------------------------------------------------
  // The component state

  /** The result card's form state, after the mount effect has combined the number. */
  class ConsultationPanel {
    const endpoint: string
    /** The URL pattern test of validateForm. */
    const matchesUrl: string -> bool
    var showConsultationForm: bool
    var formSubmitted: bool
    var isSubmitting: bool
    var countryCode: string
    var localPhone: string
    var formData: ConsultationForm
    var formErrors: FormErrors

    /** The effect keeps the stored number equal to country code plus local number. */
    ghost predicate Valid()
      reads this
    {
      formData.whatsapp == CombinedNumber(countryCode, localPhone)
    }

    constructor (scriptUrl: string, urlPattern: string -> bool)
      ensures Valid()
      ensures endpoint == scriptUrl && matchesUrl == urlPattern
      ensures !showConsultationForm && !formSubmitted && !isSubmitting
      ensures countryCode == "+20" && localPhone == ""
      ensures formData == ConsultationForm("", "+20", "", "") && formErrors == NoErrors
    {
      endpoint := scriptUrl;
      matchesUrl := urlPattern;
      showConsultationForm := false;
      formSubmitted := false;
      isSubmitting := false;
      countryCode := "+20";
      localPhone := "";
      formData := ConsultationForm("", "+20", "", "");
      formErrors := NoErrors;
    }

    method ShowForm(show: bool)
      modifies this`showConsultationForm
      ensures showConsultationForm == show
    {
      showConsultationForm := show;
    }

    /** Choosing a country re-combines the number. */
    method SetCountryCode(code: string)
      requires Valid()
      modifies this`countryCode, this`formData, this`formErrors
      ensures Valid()
      ensures countryCode == code && localPhone == old(localPhone)
      ensures formData == old(formData).(whatsapp := code + localPhone)
      ensures |localPhone| > 5 && old(formErrors).whatsapp.Some? ==>
        formErrors == old(formErrors).(whatsapp := None)
      ensures !(|localPhone| > 5 && old(formErrors).whatsapp.Some?) ==> formErrors == old(formErrors)
    {
      countryCode := code;
      NumberChanged();
    }

    /** Typing the local number re-combines the number and, once it is longer than five
        characters, clears a phone error. */
    method SetLocalPhone(phone: string)
      requires Valid()
      modifies this`localPhone, this`formData, this`formErrors
      ensures Valid()
      ensures localPhone == phone && countryCode == old(countryCode)
      ensures formData == old(formData).(whatsapp := countryCode + phone)
      ensures |phone| > 5 && old(formErrors).whatsapp.Some? ==>
        formErrors == old(formErrors).(whatsapp := None)
      ensures !(|phone| > 5 && old(formErrors).whatsapp.Some?) ==> formErrors == old(formErrors)
    {
      localPhone := phone;
      NumberChanged();
    }

    /** The effect that runs after either part of the number changes. */
    method NumberChanged()
      modifies this`formData, this`formErrors
      ensures Valid()
      ensures formData == old(formData).(whatsapp := countryCode + localPhone)
      ensures |localPhone| > 5 && old(formErrors).whatsapp.Some? ==>
        formErrors == old(formErrors).(whatsapp := None)
      ensures !(|localPhone| > 5 && old(formErrors).whatsapp.Some?) ==> formErrors == old(formErrors)
    {
      formData := formData.(whatsapp := CombinedNumber(countryCode, localPhone));
      if |localPhone| > 5 && formErrors.whatsapp.Some? {
        formErrors := formErrors.(whatsapp := None);
      }
    }

    /** handleFormChange: stores the new text and drops that field's error. */
    method HandleFormChange(field: TextField, value: string)
      requires Valid()
      modifies this`formData, this`formErrors
      ensures Valid()
      ensures field == NameField ==>
        formData == old(formData).(name := value) && formErrors == old(formErrors).(name := None)
      ensures field == WebsiteField ==>
        formData == old(formData).(website := value) && formErrors == old(formErrors).(website := None)
      ensures field == ProblemsField ==>
        formData == old(formData).(problems := value) && formErrors == old(formErrors).(problems := None)
    {
      match field
      case NameField =>
        formData := formData.(name := value);
        if formErrors.name.Some? { formErrors := formErrors.(name := None); }
      case WebsiteField =>
        formData := formData.(website := value);
        if formErrors.website.Some? { formErrors := formErrors.(website := None); }
      case ProblemsField =>
        formData := formData.(problems := value);
        if formErrors.problems.Some? { formErrors := formErrors.(problems := None); }
    }

    /** validateForm as the component runs it: the errors it finds replace the shown ones. */
    method Validate() returns (isValid: bool)
      modifies this`formErrors
      ensures formErrors == FieldErrors(formData, localPhone, matchesUrl)
      ensures isValid <==> formErrors == NoErrors
    {
      var errors;
      errors, isValid := ValidateForm(formData, localPhone, matchesUrl);
      formErrors := errors;
    }

    /**
     * handleFormSubmit up to the request: nothing is sent unless every field passes and
     * the endpoint is configured; then the flag goes up and the payload is the form with
     * the combined number. The submit button is disabled while a request is in flight, so
     * the handler only runs when no submission is pending.
     */
    method HandleFormSubmit() returns (payload: Option<ConsultationForm>)
      requires Valid()
      requires !isSubmitting
      modifies this`formErrors, this`isSubmitting
      ensures Valid()
      ensures formErrors == FieldErrors(formData, localPhone, matchesUrl)
      ensures payload.Some? <==> formErrors == NoErrors && EndpointConfigured(endpoint)
      ensures payload.Some? ==> payload.value == formData && isSubmitting
      ensures payload.Some? ==> payload.value.whatsapp == countryCode + localPhone
      ensures payload.None? ==> !isSubmitting
    {
      var isValid := Validate();
      if !isValid {
        return None;
      }
      if endpoint == [] || ContainsText(endpoint, EndpointPlaceholder) {
        return None;
      }
      isSubmitting := true;
      var submissionData := ConsultationForm(formData.name, formData.whatsapp, formData.website, formData.problems);
      payload := Some(submissionData);
    }

    /** The end of handleFormSubmit once the request settles: on delivery the thank-you
        view replaces the form; in every case the flag goes down. */
    method FinishSubmission(delivered: bool)
      modifies this`formSubmitted, this`showConsultationForm, this`isSubmitting
      ensures !isSubmitting
      ensures delivered ==> formSubmitted && !showConsultationForm
      ensures !delivered ==>
        formSubmitted == old(formSubmitted) && showConsultationForm == old(showConsultationForm)
    {
      if delivered {
        formSubmitted := true;
        showConsultationForm := false;
      }
      isSubmitting := false;
    }
  }
}
