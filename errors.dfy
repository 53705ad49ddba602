/** The library's error enum and the errors it wraps, with the human-readable
    description of each case. */
module ScraperErrors {
  import opened Wrappers
  import opened Json

  /** A Foundation error object as the host hands it over: its domain, its
      code, its localised description and its `userInfo` dictionary. */
  datatype NsError = NsError(domain: string, code: int, localizedDescription: string, userInfo: map<string, Value>)

  /** Any Swift `Error`: either one of the library's own or one from the host
      (WebKit, Foundation) or from user code. */
  datatype AnyError = Scraper(e: ScraperError) | Foreign(ns: NsError)

  /** `SwiftScraperError`. */
  datatype ScraperError =
    | ParameterSerialization
    | ContentUnexpected
    | JavascriptError(errorMessage: string)
    | NavigationFailed(error: AnyError)
    | IncorrectStep
    | Timeout

  const JavascriptErrorPrefix: string := "A JavaScript error occurred when trying to process the page: "

  /** `errorDescription`: a fixed sentence per case; a JavaScript error adds its
      message after a fixed prefix; a navigation failure says nothing of the
      error it wraps. */
  function ErrorDescription(e: ScraperError): (r: Option<string>)
    ensures r.Some?
    ensures e.JavascriptError? ==> r.value == JavascriptErrorPrefix + e.errorMessage
  {
    match e
    case ParameterSerialization => Some("Could not serialize the parameters to pass to the script")
    case ContentUnexpected => Some("Something went wrong, the page contents was not what was expected")
    case JavascriptError(m) => Some(JavascriptErrorPrefix + m)
    case NavigationFailed(_) => Some("Something went wrong when navigating to the page")
    case IncorrectStep => Some("An incorrect step was specified")
    case Timeout => Some("Timeout occurred while waiting for a step to complete")
  }

  /** `localizedDescription` of any error: a library error uses its
      `errorDescription`, a host error carries its own. */
  function LocalizedDescription(e: AnyError): (r: string)
    ensures e.Scraper? ==> Some(r) == ErrorDescription(e.e)
    ensures e.Foreign? ==> r == e.ns.localizedDescription
  {
    match e
    case Scraper(se) => ErrorDescription(se).value
    case Foreign(ns) => ns.localizedDescription
  }

  /** Two errors read the same exactly when they are the same error, or both
      are navigation failures (whatever they wrap). */
  lemma DescriptionDistinguishes(a: ScraperError, b: ScraperError)
    ensures ErrorDescription(a) == ErrorDescription(b) <==>
      (a == b || (a.NavigationFailed? && b.NavigationFailed?))
  {
    if a.JavascriptError? && b.JavascriptError? {
      if ErrorDescription(a) == ErrorDescription(b) {
        var n := |JavascriptErrorPrefix|;
        assert a.errorMessage == ErrorDescription(a).value[n..];
        assert b.errorMessage == ErrorDescription(b).value[n..];
      }
    } else if a.JavascriptError? {
      JavascriptDescriptionIsNotFixed(a.errorMessage, b);
    } else if b.JavascriptError? {
      JavascriptDescriptionIsNotFixed(b.errorMessage, a);
    } else {
      FixedDescriptionsDiffer(a, b);
    }
  }

  /** The length of every description: the fixed sentences all differ in
      length, and a JavaScript error's is the prefix's plus its message's. */
  lemma DescriptionLength(e: ScraperError)
    ensures |ErrorDescription(e).value| ==
      match e
      case ParameterSerialization => 56
      case ContentUnexpected => 65
      case JavascriptError(m) => 61 + |m|
      case NavigationFailed(_) => 48
      case IncorrectStep => 31
      case Timeout => 53
  {
    match e
    case ParameterSerialization =>
    case ContentUnexpected =>
    case JavascriptError(m) => assert |JavascriptErrorPrefix| == 61;
    case NavigationFailed(_) =>
    case IncorrectStep =>
    case Timeout =>
  }

  /** The description of a JavaScript error is none of the fixed sentences. */
  lemma JavascriptDescriptionIsNotFixed(m: string, o: ScraperError)
    requires !o.JavascriptError?
    ensures ErrorDescription(JavascriptError(m)) != ErrorDescription(o)
  {
    DescriptionLength(JavascriptError(m));
    DescriptionLength(o);
    if o.ContentUnexpected? && |m| == 4 {
      var d := ErrorDescription(JavascriptError(m)).value;
      assert d[60] == JavascriptErrorPrefix[60] == ' ';
      assert ErrorDescription(o).value[60] == 'e';
    }
  }

  /** The fixed sentences differ from one another (they differ in length). */
  lemma FixedDescriptionsDiffer(a: ScraperError, b: ScraperError)
    requires !a.JavascriptError? && !b.JavascriptError?
    ensures ErrorDescription(a) == ErrorDescription(b) <==>
      (a == b || (a.NavigationFailed? && b.NavigationFailed?))
  {
    if ErrorDescription(a) == ErrorDescription(b) {
      DescriptionLength(a);
      DescriptionLength(b);
      var n := |ErrorDescription(a).value|;
      assert n == |ErrorDescription(b).value|;
      match a
      case ParameterSerialization => assert n == 56;
      case ContentUnexpected => assert n == 65;
      case NavigationFailed(_) => assert n == 48;
      case IncorrectStep => assert n == 31;
      case Timeout => assert n == 53;
    }
  }

  /** A navigation failure describes itself the same way whatever it wraps. */
  lemma NavigationFailedDescriptionIgnoresCause(x: AnyError, y: AnyError)
    ensures ErrorDescription(NavigationFailed(x)) == ErrorDescription(NavigationFailed(y))
  {
  }

  /** A JavaScript error's description starts with the fixed prefix and ends
      with the message, so the message can be read back from it. */
  lemma JavascriptDescriptionShowsMessage(m: string)
    ensures var d := ErrorDescription(JavascriptError(m)).value;
      d[..|JavascriptErrorPrefix|] == JavascriptErrorPrefix && d[|JavascriptErrorPrefix|..] == m
  {
  }

  /** The sentence the error tests expect for `javascriptError("message1")` is
      not the one the enum produces. */
  lemma JavascriptDescriptionDiffersFromTestExpectation()
    ensures ErrorDescription(JavascriptError("message1")) != Some("A JavaScript error occurred: message1")
  {
    assert |ErrorDescription(JavascriptError("message1")).value| == 69;
  }
}
