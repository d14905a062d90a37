/**
 * The "Create New URL" dialog (`src/components/create-url-dialog.js`): a form whose state the
 * component updates step by step as the user edits it, submits it, and closes it.
 */
module Dialog {
  import opened Wrappers
  import opened JsValues

  datatype Tab = CreateTab | SuccessTab

  /** The component's state variables, as one value. */
  datatype FormState = FormState(
    open: bool,
    url: string,
    customCode: string,
    useCustomCode: bool,
    isSubmitting: bool,
    generatedUrl: string,
    activeTab: Tab)

  /** The `useState` initial values. */
  const Initial := FormState(false, "", "", false, false, "", CreateTab)

  /** `n` consecutive characters starting at `first`. */
  function Range(first: char, n: nat): (s: string)
    requires first as int + n <= 0xD800
    ensures |s| == n
    ensures forall i :: 0 <= i < n ==> s[i] as int == first as int + i
  {
    seq(n, i requires 0 <= i < n => (first as int + i) as char)
  }

  /** The characters `generateRandomCode` draws from: "A" to "Z", then "a" to "z", then "0" to "9". */
  const Alphabet := Range('A', 26) + Range('a', 26) + Range('0', 10)

  const CodeLength := 6

  const ShortUrlBase := "https://url.dipdev.xyz/r/"

  const EmptyUrl := "Please enter a URL"
  const InvalidUrl := "Please enter a valid URL"
  const EmptyCustomCode := "Please enter a custom code"
  const Shortened := "URL shortened successfully!"
  const CreateFailed := "Failed to create shortened URL"
  const SubmitCrashed := "An error occurred while creating the URL"

  datatype Toast = ErrorToast(message: string) | SuccessToast(message: string)

  /**
   * The checks at the top of `handleSubmit`, in order: the first message that applies, or None.
   * `isValidUrl` stands for `new URL(url)` not throwing.
   */
  function Validate(url: string, useCustomCode: bool, customCode: string, isValidUrl: string -> bool): (e: Option<string>)
    ensures e.None? <==> url != "" && isValidUrl(url) && !(useCustomCode && customCode == "")
    ensures e.Some? ==> e.value in {EmptyUrl, InvalidUrl, EmptyCustomCode}
  {
    if url == "" then Some(EmptyUrl)
    else if !isValidUrl(url) then Some(InvalidUrl)
    else if useCustomCode && customCode == "" then Some(EmptyCustomCode)
    else None
  }

  /** An empty URL is reported first, without the URL check being consulted. */
  lemma EmptyUrlFirst(useCustomCode: bool, customCode: string, v1: string -> bool, v2: string -> bool)
    ensures Validate("", useCustomCode, customCode, v1) == Some(EmptyUrl)
    ensures Validate("", useCustomCode, customCode, v1) == Validate("", useCustomCode, customCode, v2)
  {
  }

  /** A non-empty URL that does not parse is reported before any custom-code problem. */
  lemma InvalidUrlSecond(url: string, useCustomCode: bool, customCode: string, isValidUrl: string -> bool)
    requires url != "" && !isValidUrl(url)
    ensures Validate(url, useCustomCode, customCode, isValidUrl) == Some(InvalidUrl)
  {
  }

  /** With custom codes switched on, an empty code is reported once the URL is valid. */
  lemma EmptyCustomCodeThird(url: string, isValidUrl: string -> bool)
    requires url != "" && isValidUrl(url)
    ensures Validate(url, true, "", isValidUrl) == Some(EmptyCustomCode)
  {
  }

  /** `{ url, customCode: useCustomCode ? customCode : undefined }` */
  function RequestBody(url: string, useCustomCode: bool, customCode: string): (b: Json)
    ensures b.Obj? && b.fields.Keys == {"url", "customCode"} && b.fields["url"] == Str(url)
    ensures b.fields["customCode"] == Undefined <==> !useCustomCode
    ensures useCustomCode ==> b.fields["customCode"] == Str(customCode)
  {
    Obj(map["url" := Str(url), "customCode" := if useCustomCode then Str(customCode) else Undefined])
  }

  /** The fields `JSON.stringify` writes: it drops every field whose value is undefined. */
  function Serialized(fields: map<string, Json>): (m: map<string, Json>)
    ensures forall k :: k in m <==> k in fields && fields[k] != Undefined
    ensures forall k :: k in m ==> m[k] == fields[k]
  {
    map k | k in fields && fields[k] != Undefined :: fields[k]
  }

  /** The request carries the URL, and a `customCode` exactly when custom codes are switched on. */
  lemma RequestCarriesCodeOnlyWhenChosen(url: string, useCustomCode: bool, customCode: string)
    ensures var sent := Serialized(RequestBody(url, useCustomCode, customCode).fields);
            && sent.Keys == (if useCustomCode then {"url", "customCode"} else {"url"})
            && sent["url"] == Str(url)
            && (useCustomCode ==> sent["customCode"] == Str(customCode))
  {
    var sent := Serialized(RequestBody(url, useCustomCode, customCode).fields);
    assert "url" in sent;
    if useCustomCode {
      assert "customCode" in sent;
    }
  }

  /** What `fetch("/api/create-url", …)` and `response.json()` produce, or that either threw. */
  datatype FetchReply = Answered(status: int, data: Json) | FetchFault

  /** What handling a reply yields: the short URL to show, if any, and the toast. */
  datatype ReplyEffect = ReplyEffect(generated: Option<string>, toast: Toast)

  /**
   * The `try`/`catch` around the request once it is sent. `response.ok` is a 2xx status. On
   * success the short URL is built from `data.data.short`; reading a property of a missing
   * `data` throws and lands in the catch. On failure the toast shows `data.error`, or the
   * fallback message when that is falsy.
   */
  function HandleReply(reply: FetchReply): (e: ReplyEffect)
    ensures e.generated.Some? <==> e.toast == SuccessToast(Shortened)
    ensures e.generated.Some? ==>
              reply.Answered? && 200 <= reply.status < 300
              && |e.generated.value| >= |ShortUrlBase| && e.generated.value[..|ShortUrlBase|] == ShortUrlBase
    ensures reply.FetchFault? ==> e == ReplyEffect(None, ErrorToast(SubmitCrashed))
  {
    match reply
    case FetchFault => ReplyEffect(None, ErrorToast(SubmitCrashed))
    case Answered(status, data) =>
      if 200 <= status < 300 then
        match Member(data, "data")
        case None => ReplyEffect(None, ErrorToast(SubmitCrashed))
        case Some(inner) =>
          match Member(inner, "short")
          case None => ReplyEffect(None, ErrorToast(SubmitCrashed))
          case Some(short) => ReplyEffect(Some(ShortUrlBase + JsString(short)), SuccessToast(Shortened))
      else
        match Member(data, "error")
        case None => ReplyEffect(None, ErrorToast(SubmitCrashed))
        case Some(error) =>
          if Truthy(error) then ReplyEffect(None, ErrorToast(JsString(error)))
          else ReplyEffect(None, ErrorToast(CreateFailed))
  }

  /** A successful reply carrying a string short code yields exactly the public short URL. */
  lemma ShortUrlFromReply(status: int, short: string)
    requires 200 <= status < 300
    ensures HandleReply(Answered(status, Obj(map["data" := Obj(map["short" := Str(short)])])))
              == ReplyEffect(Some(ShortUrlBase + short), SuccessToast(Shortened))
  {
  }

  /** A refused request shows the route's own error message, or the fallback when the body has none. */
  lemma ErrorMessageFromReply(status: int, message: string)
    requires !(200 <= status < 300)
    ensures message != "" ==>
              HandleReply(Answered(status, Obj(map["error" := Str(message)]))) == ReplyEffect(None, ErrorToast(message))
    ensures HandleReply(Answered(status, Obj(map[]))) == ReplyEffect(None, ErrorToast(CreateFailed))
  {
  }

  /**
   * The loop of `generateRandomCode`: six times, append the character at a position that
   * `Math.floor(Math.random() * chars.length)` chooses.
   */
  method RandomCode() returns (code: string)
    ensures |code| == CodeLength
    ensures forall i :: 0 <= i < |code| ==> code[i] in Alphabet
  {
    code := "";
    for i := 0 to CodeLength
      invariant |code| == i
      invariant forall k :: 0 <= k < |code| ==> code[k] in Alphabet
    {
      var index :| 0 <= index < |Alphabet|;
      code := code + [Alphabet[index]];
    }
  }

  /** The alphabet is the 62 ASCII letters and digits. */
  lemma AlphabetIsAlphanumeric(c: char)
    ensures |Alphabet| == 62
    ensures c in Alphabet <==> ('A' <= c <= 'Z') || ('a' <= c <= 'z') || ('0' <= c <= '9')
  {
    var upper, lower, digits := Range('A', 26), Range('a', 26), Range('0', 10);
    if 'A' <= c <= 'Z' {
      assert Alphabet[(c - 'A') as int] == upper[(c - 'A') as int] == c;
    } else if 'a' <= c <= 'z' {
      assert Alphabet[26 + (c - 'a') as int] == lower[(c - 'a') as int] == c;
    } else if '0' <= c <= '9' {
      assert Alphabet[52 + (c - '0') as int] == digits[(c - '0') as int] == c;
    }
  }

  class CreateUrlDialog {
    var open: bool
    var url: string
    var customCode: string
    var useCustomCode: bool
    var isSubmitting: bool
    var generatedUrl: string
    var activeTab: Tab

    function State(): FormState
      reads this
    {
      FormState(open, url, customCode, useCustomCode, isSubmitting, generatedUrl, activeTab)
    }

    constructor ()
      ensures State() == Initial
    {
      open, url, customCode, useCustomCode := false, "", "", false;
      isSubmitting, generatedUrl, activeTab := false, "", CreateTab;
    }

    /** The URL input's `onChange`. */
    method EditUrl(value: string)
      modifies this
      ensures State() == old(State()).(url := value)
    {
      url := value;
    }

    /** The custom-code input's `onChange`. */
    method EditCustomCode(value: string)
      modifies this
      ensures State() == old(State()).(customCode := value)
    {
      customCode := value;
    }

    /** The custom-code switch's `onCheckedChange`. */
    method SetUseCustomCode(value: bool)
      modifies this
      ensures State() == old(State()).(useCustomCode := value)
    {
      useCustomCode := value;
    }

    /** `generateRandomCode`: a fresh six-character alphanumeric code replaces the custom code. */
    method GenerateRandomCode()
      modifies this
      ensures |customCode| == CodeLength && forall i :: 0 <= i < |customCode| ==> customCode[i] in Alphabet
      ensures State() == old(State()).(customCode := customCode)
    {
      var code := RandomCode();
      customCode := code;
    }

    /**
     * The synchronous part of `handleSubmit`: the checks, then `setIsSubmitting(true)` and the
     * request. A failed check shows its message and changes nothing.
     */
    method BeginSubmit(isValidUrl: string -> bool) returns (error: Option<Toast>, body: Option<Json>)
      modifies this
      ensures var e := Validate(old(url), old(useCustomCode), old(customCode), isValidUrl);
              && (e.Some? ==> error == Some(ErrorToast(e.value)) && body.None? && State() == old(State()))
              && (e.None? ==> error.None? && body == Some(RequestBody(old(url), old(useCustomCode), old(customCode)))
                              && State() == old(State()).(isSubmitting := true))
    {
      var e := Validate(url, useCustomCode, customCode, isValidUrl);
      if e.Some? {
        return Some(ErrorToast(e.value)), None;
      }
      isSubmitting := true;
      error, body := None, Some(RequestBody(url, useCustomCode, customCode));
    }

    /**
     * The part of `handleSubmit` after the request: on success the short URL and the success
     * tab; in every case `finally` clears `isSubmitting`.
     */
    method FinishSubmit(reply: FetchReply) returns (toast: Toast)
      modifies this
      ensures toast == HandleReply(reply).toast
      ensures !isSubmitting
      ensures HandleReply(reply).generated.Some? ==>
                State() == old(State()).(isSubmitting := false, generatedUrl := HandleReply(reply).generated.value, activeTab := SuccessTab)
      ensures HandleReply(reply).generated.None? ==> State() == old(State()).(isSubmitting := false)
    {
      var effect := HandleReply(reply);
      if effect.generated.Some? {
        generatedUrl := effect.generated.value;
        activeTab := SuccessTab;
      }
      toast := effect.toast;
      isSubmitting := false;
    }

    /** `handleSubmit` from start to end, `reply` being what the request would get back. */
    method HandleSubmit(isValidUrl: string -> bool, reply: FetchReply) returns (toast: Toast, sent: Option<Json>)
      modifies this
      ensures var e := Validate(old(url), old(useCustomCode), old(customCode), isValidUrl);
              && (e.Some? ==> toast == ErrorToast(e.value) && sent.None? && State() == old(State()))
              && (e.None? ==> sent == Some(RequestBody(old(url), old(useCustomCode), old(customCode)))
                              && toast == HandleReply(reply).toast && !isSubmitting)
      // a sent request ends with `isSubmitting` cleared and, on success, the short URL and the success tab
      ensures var effect := HandleReply(reply);
              sent.Some? ==>
                State() == old(State()).(
                  isSubmitting := false,
                  generatedUrl := if effect.generated.Some? then effect.generated.value else old(generatedUrl),
                  activeTab := if effect.generated.Some? then SuccessTab else old(activeTab))
      ensures activeTab == SuccessTab <==> old(activeTab) == SuccessTab || (HandleReply(reply).generated.Some? && sent.Some?)
      ensures open == old(open) && url == old(url) && customCode == old(customCode) && useCustomCode == old(useCustomCode)
    {
      var error, body := BeginSubmit(isValidUrl);
      if error.Some? {
        return error.value, None;
      }
      toast := FinishSubmit(reply);
      sent := body;
    }

    /** `resetForm`: every field back to its initial value except `open` and `isSubmitting`. */
    method ResetForm()
      modifies this
      ensures State() == Initial.(open := old(open), isSubmitting := old(isSubmitting))
    {
      url, customCode, useCustomCode, generatedUrl, activeTab := "", "", false, "", CreateTab;
    }

    /**
     * The Cancel and Done buttons: `setOpen(false)` on its own. Unlike closing through the
     * dialog's own controls, this leaves the form as it was, so reopening shows it again.
     */
    method Close()
      modifies this
      ensures State() == old(State()).(open := false)
    {
      open := false;
    }

    /** `handleDialogChange(open)`: closing the dialog also resets the form; opening changes nothing else. */
    method HandleDialogChange(nowOpen: bool)
      modifies this
      ensures nowOpen ==> State() == old(State()).(open := true)
      ensures !nowOpen ==> State() == Initial.(isSubmitting := old(isSubmitting))
    {
      open := nowOpen;
      if !nowOpen {
        ResetForm();
      }
    }
  }
}
