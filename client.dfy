// The page controller: displayResult, displayError and generateAura. The page
// is an AuraPage object whose fields are the parts of the DOM the script
// writes. The two requests to the proxy server are inputs: each is either
// rejected with a message or answered with an `ok` flag, a status text and the
// value of the response's `.json()`.

module Client {
  import opened Js
  import opened Zodiac
  import opened Prompt

  /** The form as generateAura reads it; an empty date field or an empty file list is None. */
  datatype Form = Form(birthday: Option<Date>, gender: string, vibe: string, photo: Option<Bytes>)

  /** How one request from the page to the proxy settles. */
  datatype ProxyCall =
    | Rejected(message: string)
    | Answered(ok: bool, statusText: string, data: JsValue)

  /** A request the page sends to the proxy server. */
  datatype PageCall =
    | UploadPhoto(photo: Bytes)
    | RequestAura(prompt: string, imageUrl: JsValue)

  const MissingBirthday := "Please enter your birth date."
  const MissingPhoto := "Please upload your photo first!"
  const NoImageOutput := "No image output from AI."
  const GenerationFailed := "AI generation failed: "
  const UploadFailed := "Server-side image upload failed: "

  /** The text displayError shows for a failure thrown with `message`. */
  function ErrorMessage(message: string): string {
    "Ouch! An error occurred: " + message + ". Please try again."
  }

  /** The zodiac label the page computes for a birth date. */
  function ZodiacLabel(birth: Date): string {
    Name(GetZodiac(birth.month, birth.day))
  }

  /** The prompt generateAura sends for a birth date, today's date, a gender and a vibe. */
  function PromptFor(birth: Date, today: Date, gender: string, vibe: string): string {
    FinalPrompt(CalculateAge(birth, today), gender, ZodiacLabel(birth), VibeDescriptor(vibe))
  }

  /** The prompt sent for a birth date states the age computed for it. */
  lemma PromptForStatesAge(birth: Date, today: Date, gender: string, vibe: string)
    ensures AgeInPrompt(PromptFor(birth, today, gender, vibe)) == Some(CalculateAge(birth, today))
  {
    PromptStatesAge(CalculateAge(birth, today), gender, ZodiacLabel(birth), VibeDescriptor(vibe));
  }

  /** The example of a celestial portrait for someone born on 4 July. */
  lemma CelestialJulyFourth(year: int, today: Date)
    ensures ZodiacLabel(Date(year, 7, 4)) == "Cancer"
    ensures PromptFor(Date(year, 7, 4), today, "female", "celestial") ==
            FinalPrompt(CalculateAge(Date(year, 7, 4), today), "female", "Cancer",
                        "cosmic stardust, swirling galaxy, nebulae colors")
  {
    assert GetZodiac(7, 4) == Cancer;
    assert VibeDescriptor("celestial") == "cosmic stardust, swirling galaxy, nebulae colors";
  }

  /**
   * uploadImageToServer after the file is read: the promise settles with
   * `data.imageUrl`, or rejects with the fetch's error or a message built from
   * the server's `details` (falling back to the status text).
   */
  function UploadResult(upload: ProxyCall): (r: Completion)
    ensures upload.Rejected? ==> r == Throw(upload.message)
    ensures upload.Answered? && !upload.ok ==> r.Throw?
    ensures upload.Answered? && !upload.ok && Nullish(upload.data) ==>
              r == Throw(ReadError(upload.data, "details"))
    ensures upload.Answered? && !upload.ok && !Nullish(upload.data) ==>
              |r.message| >= |UploadFailed| && r.message[..|UploadFailed|] == UploadFailed
    ensures upload.Answered? && upload.ok ==> r == Path(upload.data, ["imageUrl"])
  {
    match upload
    case Rejected(message) => Throw(message)
    case Answered(ok, statusText, data) =>
      if !ok then
        match Prop(data, "details")
        case Throw(message) => Throw(message)
        case Normal(details) => Throw(UploadFailed + ToStr(Or(details, Str(statusText))))
      else Prop(data, "imageUrl")
  }

  /**
   * The acceptance rule for the generation proxy's JSON: refused when it has a
   * truthy `error`, a falsy `output` or an `output` of length 0; otherwise the
   * result is `output[0]`.
   */
  function AcceptOutput(proxyData: JsValue): (r: Completion)
    ensures r.Normal? <==>
              Path(proxyData, ["error"]).Normal? && !Truthy(Path(proxyData, ["error"]).value) &&
              Truthy(Path(proxyData, ["output"]).value) &&
              Path(proxyData, ["output", "length"]) != Normal(Num(0))
    ensures r.Normal? ==> r == Path(proxyData, ["output", "0"])
  {
    match Prop(proxyData, "error")
    case Throw(message) => Throw(message)
    case Normal(error) =>
      var output := Prop(proxyData, "output").value;
      if Truthy(error) || !Truthy(output) || Prop(output, "length").value == Num(0) then
        Throw(GenerationFailed + ToStr(Or(Prop(proxyData, "details").value, Str(NoImageOutput))))
      else Prop(output, "0")
  }

  /** For an array `output`, a result is accepted exactly when there is no error and the array is non-empty. */
  lemma AcceptArrayOutput(fields: map<string, JsValue>, items: seq<JsValue>)
    requires Field(fields, "output") == Arr(items)
    ensures AcceptOutput(Obj(fields)).Normal? <==> !Truthy(Field(fields, "error")) && |items| > 0
    ensures AcceptOutput(Obj(fields)).Normal? ==> AcceptOutput(Obj(fields)).value == items[0]
  {
  }

  /** With neither an error nor details, an empty output array is refused with the fixed message. */
  lemma EmptyOutputRefused()
    ensures AcceptOutput(Obj(map["output" := Arr([])])) ==
            Throw(GenerationFailed + NoImageOutput)
  {
  }

  /** The generation request: rejected, answered with an error status, or checked by AcceptOutput. */
  function AuraResult(proxy: ProxyCall): (r: Completion)
    ensures proxy.Rejected? ==> r == Throw(proxy.message)
    ensures proxy.Answered? && !proxy.ok ==> r.Throw?
    ensures proxy.Answered? && !proxy.ok && Nullish(proxy.data) ==>
              r == Throw(ReadError(proxy.data, "details"))
    ensures proxy.Answered? && !proxy.ok && !Nullish(proxy.data) ==>
              |r.message| >= |GenerationFailed| && r.message[..|GenerationFailed|] == GenerationFailed
    ensures proxy.Answered? && proxy.ok ==> r == AcceptOutput(proxy.data)
  {
    match proxy
    case Rejected(message) => Throw(message)
    case Answered(ok, statusText, data) =>
      if !ok then
        match Prop(data, "details")
        case Throw(message) => Throw(message)
        case Normal(details) => Throw(GenerationFailed + ToStr(Or(details, Str(statusText))))
      else AcceptOutput(data)
  }

  /**
   * The server's `details` reach the user: a refused upload whose JSON carries
   * a non-empty string `details` fails generateAura with that text after the
   * fixed prefix, and the generation request is never made.
   */
  lemma UploadDetailsReachPage(fields: map<string, JsValue>, statusText: string, proxy: ProxyCall)
    requires "details" in fields && fields["details"].Str? && fields["details"].s != ""
    ensures FailureMessage(Answered(false, statusText, Obj(fields)), proxy) ==
            Some(UploadFailed + fields["details"].s)
  {
  }

  /** Without `details` in the refusal, the status text is reported instead. */
  lemma UploadStatusTextWithoutDetails(fields: map<string, JsValue>, statusText: string, proxy: ProxyCall)
    requires "details" !in fields
    ensures FailureMessage(Answered(false, statusText, Obj(fields)), proxy) == Some(UploadFailed + statusText)
  {
  }

  /** After a successful upload, a refused generation reports the server's non-empty `details`. */
  lemma GenerationDetailsReachPage(upload: ProxyCall, fields: map<string, JsValue>, statusText: string)
    requires UploadResult(upload).Normal?
    requires "details" in fields && fields["details"].Str? && fields["details"].s != ""
    ensures FailureMessage(upload, Answered(false, statusText, Obj(fields))) ==
            Some(GenerationFailed + fields["details"].s)
  {
  }

  /** The message the try block of generateAura throws, if any. */
  function FailureMessage(upload: ProxyCall, proxy: ProxyCall): Option<string> {
    if UploadResult(upload).Throw? then Some(UploadResult(upload).message)
    else if AuraResult(proxy).Throw? then Some(AuraResult(proxy).message)
    else None
  }

  /** The requests the try block of generateAura sends: the generation request only after a successful upload. */
  function PipelineCalls(birth: Date, photo: Bytes, gender: string, vibe: string, today: Date,
                         upload: ProxyCall): seq<PageCall>
  {
    [UploadPhoto(photo)] +
    if UploadResult(upload).Normal? then [RequestAura(PromptFor(birth, today, gender, vibe), UploadResult(upload).value)]
    else []
  }

  class AuraPage {
    var buttonText: string
    var buttonDisabled: bool
    var overlayShown: bool
    var loadingText: string
    var errorText: string
    var errorShown: bool
    var resultShown: bool
    var imageSrc: string
    var imageShown: bool
    var zodiacText: string
    var descriptionText: string

    /** The generate button is enabled with its original label and no loading overlay shows. */
    predicate Idle()
      reads this
    {
      !buttonDisabled && buttonText == "Generate Aura" && !overlayShown
    }

    /** The state generateAura sets up before it validates anything. */
    predicate Busy()
      reads this
    {
      buttonDisabled && buttonText == "Generating..." && overlayShown
    }

    predicate ResultCleared()
      reads this
    {
      !resultShown && !imageShown && imageSrc == "" && zodiacText == "" && descriptionText == ""
    }

    predicate ErrorCleared()
      reads this
    {
      errorText == "" && !errorShown
    }

    predicate ShowsError(message: string)
      reads this
    {
      errorText == message && errorShown
    }

    predicate ShowsResult(src: string, zodiac: string, description: string)
      reads this
    {
      resultShown && imageShown && imageSrc == src && zodiacText == zodiac && descriptionText == description
    }

    /** The controls generateAura drives (button, overlay, loading text) keep their values. */
    twostate predicate ControlsUnchanged()
      reads this
    {
      buttonText == old(buttonText) && buttonDisabled == old(buttonDisabled) &&
      overlayShown == old(overlayShown) && loadingText == old(loadingText)
    }

    /** The page as loaded: nothing shown, the button ready. */
    constructor ()
      ensures Idle() && ResultCleared() && ErrorCleared() && loadingText == ""
    {
      buttonText, buttonDisabled, overlayShown, loadingText := "Generate Aura", false, false, "";
      errorText, errorShown := "", false;
      resultShown, imageSrc, imageShown, zodiacText, descriptionText := false, "", false, "", "";
    }

    /** displayResult: clears the error, then shows the result when `imageUrl` is truthy and clears it otherwise. */
    method DisplayResult(imageUrl: JsValue, zodiac: string, description: string)
      modifies this
      ensures ErrorCleared()
      ensures Truthy(imageUrl) ==> ShowsResult(ToStr(imageUrl), zodiac, description)
      ensures !Truthy(imageUrl) ==> ResultCleared()
      ensures ControlsUnchanged()
    {
      errorText := "";
      errorShown := false;
      if Truthy(imageUrl) {
        imageSrc := ToStr(imageUrl);
        imageShown := true;
        zodiacText := zodiac;
        descriptionText := description;
        resultShown := true;
      } else {
        imageSrc := "";
        imageShown := false;
        zodiacText := "";
        descriptionText := "";
        resultShown := false;
      }
    }

    /** displayError: always clears the result; shows a non-empty message and hides an empty one. */
    method DisplayError(message: string)
      modifies this
      ensures ResultCleared()
      ensures message != "" ==> ShowsError(message)
      ensures message == "" ==> ErrorCleared()
      ensures ControlsUnchanged()
    {
      resultShown := false;
      imageSrc := "";
      imageShown := false;
      zodiacText := "";
      descriptionText := "";
      if message != "" {
        errorText := message;
        errorShown := true;
      } else {
        errorText := "";
        errorShown := false;
      }
    }

    /** Step A of generateAura: clear the display, disable the button, show the overlay. */
    method StartGeneration()
      modifies this
      ensures Busy() && ResultCleared() && ErrorCleared()
      ensures loadingText == "Starting generation..."
    {
      DisplayError("");
      DisplayResult(Str(""), "", "");
      buttonText := "Generating...";
      buttonDisabled := true;
      overlayShown := true;
      loadingText := "Starting generation...";
    }

    /** The two required-field checks, birth date first; a failing check displays its message. */
    method CheckInputs(form: Form) returns (ok: bool)
      modifies this
      ensures ok <==> form.birthday.Some? && form.photo.Some?
      ensures ok ==> unchanged(this)
      ensures form.birthday.None? ==> ShowsError(MissingBirthday) && ResultCleared() && ControlsUnchanged()
      ensures form.birthday.Some? && form.photo.None? ==>
                ShowsError(MissingPhoto) && ResultCleared() && ControlsUnchanged()
    {
      if form.birthday.None? {
        DisplayError(MissingBirthday);
        return false;
      }
      if form.photo.None? {
        DisplayError(MissingPhoto);
        return false;
      }
      return true;
    }

    /** The try and catch blocks of generateAura: upload, then generate, then display; any failure is displayed. */
    method TryGenerate(birth: Date, photo: Bytes, gender: string, vibe: string, today: Date,
                       upload: ProxyCall, proxy: ProxyCall)
      returns (calls: seq<PageCall>)
      modifies this
      ensures calls == PipelineCalls(birth, photo, gender, vibe, today, upload)
      ensures buttonText == old(buttonText) && buttonDisabled == old(buttonDisabled)
      ensures overlayShown == old(overlayShown)
      ensures loadingText == if UploadResult(upload).Normal? then "Generating aura..." else "Uploading image..."
      ensures FailureMessage(upload, proxy).Some? ==>
                ResultCleared() && ShowsError(ErrorMessage(FailureMessage(upload, proxy).value))
      ensures FailureMessage(upload, proxy).None? ==>
                var resultUrl := AuraResult(proxy).value;
                var zodiac := ZodiacLabel(birth);
                ErrorCleared() &&
                (Truthy(resultUrl) ==> ShowsResult(ToStr(resultUrl), zodiac, AuraDescription(zodiac, vibe))) &&
                (!Truthy(resultUrl) ==> ResultCleared())
    {
      var zodiac := ZodiacLabel(birth);
      var finalPrompt := PromptFor(birth, today, gender, vibe);
      loadingText := "Uploading image...";
      calls := [UploadPhoto(photo)];
      var uploaded := UploadResult(upload);
      if uploaded.Throw? {
        DisplayError(ErrorMessage(uploaded.message));
        return;
      }
      var imageUrl := uploaded.value;
      loadingText := "Generating aura...";
      calls := calls + [RequestAura(finalPrompt, imageUrl)];
      var generated := AuraResult(proxy);
      if generated.Throw? {
        DisplayError(ErrorMessage(generated.message));
        return;
      }
      var resultUrl := generated.value;
      DisplayResult(resultUrl, zodiac, AuraDescription(zodiac, vibe));
    }

    /** The finally block of generateAura: hide the overlay and restore the button. */
    method FinishGeneration()
      modifies this
      ensures Idle()
      ensures loadingText == old(loadingText) && errorText == old(errorText) && errorShown == old(errorShown)
      ensures resultShown == old(resultShown) && imageShown == old(imageShown) && imageSrc == old(imageSrc)
      ensures zodiacText == old(zodiacText) && descriptionText == old(descriptionText)
    {
      overlayShown := false;
      buttonText := "Generate Aura";
      buttonDisabled := false;
    }

    /**
     * generateAura as written: the validation returns come before the try, so
     * on those paths the finally block does not run and the page stays busy.
     */
    method GenerateAura(form: Form, today: Date, upload: ProxyCall, proxy: ProxyCall)
      returns (calls: seq<PageCall>)
      modifies this
      ensures form.birthday.None? ==>
                calls == [] && ShowsError(MissingBirthday) && ResultCleared() &&
                Busy() && loadingText == "Starting generation..."
      ensures form.birthday.Some? && form.photo.None? ==>
                calls == [] && ShowsError(MissingPhoto) && ResultCleared() &&
                Busy() && loadingText == "Starting generation..."
      ensures form.birthday.Some? && form.photo.Some? ==>
                Idle() &&
                calls == PipelineCalls(form.birthday.value, form.photo.value, form.gender, form.vibe, today, upload)
      ensures form.birthday.Some? && form.photo.Some? && FailureMessage(upload, proxy).Some? ==>
                ResultCleared() && ShowsError(ErrorMessage(FailureMessage(upload, proxy).value))
      ensures form.birthday.Some? && form.photo.Some? && FailureMessage(upload, proxy).None? ==>
                var resultUrl := AuraResult(proxy).value;
                var zodiac := ZodiacLabel(form.birthday.value);
                ErrorCleared() &&
                (Truthy(resultUrl) ==> ShowsResult(ToStr(resultUrl), zodiac, AuraDescription(zodiac, form.vibe))) &&
                (!Truthy(resultUrl) ==> ResultCleared())
    {
      StartGeneration();
      var ok := CheckInputs(form);
      if !ok {
        return [];
      }
      calls := TryGenerate(form.birthday.value, form.photo.value, form.gender, form.vibe, today, upload, proxy);
      FinishGeneration();
    }

    /**
     * generateAura with the validation inside the try, as its comments intend:
     * the finally block then restores the button and hides the overlay on every path.
     */
    method GenerateAuraWithCleanup(form: Form, today: Date, upload: ProxyCall, proxy: ProxyCall)
      returns (calls: seq<PageCall>)
      modifies this
      ensures Idle()
      ensures form.birthday.None? ==> calls == [] && ShowsError(MissingBirthday) && ResultCleared()
      ensures form.birthday.Some? && form.photo.None? ==> calls == [] && ShowsError(MissingPhoto) && ResultCleared()
      ensures form.birthday.Some? && form.photo.Some? ==>
                calls == PipelineCalls(form.birthday.value, form.photo.value, form.gender, form.vibe, today, upload)
      ensures form.birthday.Some? && form.photo.Some? && FailureMessage(upload, proxy).Some? ==>
                ResultCleared() && ShowsError(ErrorMessage(FailureMessage(upload, proxy).value))
      ensures form.birthday.Some? && form.photo.Some? && FailureMessage(upload, proxy).None? ==>
                var resultUrl := AuraResult(proxy).value;
                var zodiac := ZodiacLabel(form.birthday.value);
                ErrorCleared() &&
                (Truthy(resultUrl) ==> ShowsResult(ToStr(resultUrl), zodiac, AuraDescription(zodiac, form.vibe))) &&
                (!Truthy(resultUrl) ==> ResultCleared())
    {
      StartGeneration();
      var ok := CheckInputs(form);
      calls := [];
      if ok {
        calls := TryGenerate(form.birthday.value, form.photo.value, form.gender, form.vibe, today, upload, proxy);
      }
      FinishGeneration();
    }
  }

  /** Any failed upload or generation leaves the page idle, showing the apology with the failure's message. */
  method FailureResetsPage(form: Form, today: Date, upload: ProxyCall, proxy: ProxyCall)
    returns (page: AuraPage)
    requires form.birthday.Some? && form.photo.Some?
    requires FailureMessage(upload, proxy).Some?
    ensures page.Idle() && page.ResultCleared()
    ensures page.ShowsError(ErrorMessage(FailureMessage(upload, proxy).value))
  {
    page := new AuraPage();
    var _ := page.GenerateAura(form, today, upload, proxy);
  }

  /** A form without a birth date leaves the page busy: the button stays disabled and the overlay visible. */
  method MissingBirthdayLeavesPageBusy(gender: string, vibe: string, photo: Option<Bytes>, today: Date,
                                       upload: ProxyCall, proxy: ProxyCall)
    returns (page: AuraPage, calls: seq<PageCall>)
    ensures calls == [] && page.ShowsError(MissingBirthday)
    ensures !page.Idle() && page.buttonDisabled && page.overlayShown
  {
    page := new AuraPage();
    calls := page.GenerateAura(Form(None, gender, vibe, photo), today, upload, proxy);
  }
}
