/**
 * guessHandler: an ordered validation pipeline over the request, each failure
 * ending the request, followed by a three-way comparison of the guess with the
 * target held in the client's cookie. The response is the returned Outcome.
 */
module Game {
  import opened Wrappers
  import opened Strconv
  import Page

  const MethodPost: string := "POST"
  const HomePath: string := "/"

  const TooHigh: string := "太大了！"
  const TooLow: string := "太小了！"
  const Correct: string := "恭喜猜对！"

  const ErrorClass: string := "error"
  const SuccessClass: string := "success"
  /** The stylesheet's third message class; the handler never picks it. */
  const InfoClass: string := "info"

  /**
   * What guessHandler can see of a request: its method (`verb`), whether ParseForm
   * succeeded, FormValue("number") ("" when the field is absent) and the value
   * of the `target` cookie, if the request carries one.
   */
  datatype Request = Request(verb: string, formParsed: bool, number: string, cookie: Option<string>)

  /** The handler's responses: 405, 400, a 302 redirect, or a 200 result page. */
  datatype Outcome =
    | MethodNotAllowed
    | BadRequest
    | Redirect(location: string)
    | Page(message: string, cls: string)

  function StatusCode(o: Outcome): (code: int)
    ensures code in {200, 302, 400, 405}
    ensures o.Page? <==> code == 200
    ensures o.Redirect? <==> code == 302
    ensures o.BadRequest? <==> code == 400
    ensures o.MethodNotAllowed? <==> code == 405
  {
    match o
    case MethodNotAllowed => 405
    case BadRequest => 400
    case Redirect(_) => 302
    case Page(_, _) => 200
  }

  /** The result page for a guess that got through every check. */
  function Compare(guess: int, target: int): (o: Outcome)
    ensures o.Page?
    ensures o.message == TooHigh <==> guess > target
    ensures o.message == TooLow <==> guess < target
    ensures o.message == Correct <==> guess == target
    ensures o.cls == SuccessClass <==> guess == target
    ensures o.cls == ErrorClass <==> guess != target
  {
    if guess > target then Page(TooHigh, ErrorClass)
    else if guess < target then Page(TooLow, ErrorClass)
    else Page(Correct, SuccessClass)
  }

  /** guessHandler's decision, the checks in the handler's order. */
  function HandleGuess(r: Request): (o: Outcome)
    ensures o.Redirect? ==> o.location == HomePath
    ensures o.Page? ==> o.cls == SuccessClass || o.cls == ErrorClass
  {
    if r.verb != MethodPost then MethodNotAllowed
    else if !r.formParsed then BadRequest
    else match Atoi(r.number)
      case None => BadRequest
      case Some(guess) =>
        match r.cookie
        case None => Redirect(HomePath)
        case Some(value) =>
          match Atoi(value)
          case None => Redirect(HomePath)
          case Some(target) => Compare(guess, target)
  }

  /** Any method but POST is refused before anything else of the request is looked at. */
  lemma MethodCheckedFirst(r: Request, r': Request)
    requires r.verb != MethodPost && r'.verb != MethodPost
    ensures HandleGuess(r) == HandleGuess(r') == MethodNotAllowed
  {
  }

  /** A form that does not parse or a guess Atoi rejects is a 400, whatever the cookie says. */
  lemma BadFormBeforeCookie(r: Request, cookie: Option<string>)
    requires r.verb == MethodPost
    requires !r.formParsed || Atoi(r.number).None?
    ensures HandleGuess(r) == BadRequest
    ensures HandleGuess(r.(cookie := cookie)) == BadRequest
  {
  }

  /** A 400 comes from exactly those two failures. */
  lemma BadRequestOnlyFromForm(r: Request)
    ensures HandleGuess(r) == BadRequest <==> r.verb == MethodPost && (!r.formParsed || Atoi(r.number).None?)
  {
  }

  /** With a good POST and an integer guess, a missing or non-integer cookie redirects home. */
  lemma RedirectExactlyOnBadCookie(r: Request)
    requires r.verb == MethodPost && r.formParsed && Atoi(r.number).Some?
    ensures HandleGuess(r).Redirect? <==> r.cookie.None? || Atoi(r.cookie.value).None?
    ensures HandleGuess(r).Redirect? ==> HandleGuess(r) == Redirect(HomePath)
    ensures !HandleGuess(r).Redirect? ==> HandleGuess(r).Page?
  {
  }

  /** A result page is produced exactly when every check passes, and it is the comparison of guess and target. */
  lemma PageExactlyWhenChecksPass(r: Request)
    ensures HandleGuess(r).Page? <==>
      r.verb == MethodPost && r.formParsed && Atoi(r.number).Some? &&
      r.cookie.Some? && Atoi(r.cookie.value).Some?
    ensures HandleGuess(r).Page? ==>
      HandleGuess(r) == Compare(Atoi(r.number).value, Atoi(r.cookie.value).value)
  {
  }

  /** The result page never uses the info style; success means the guess was right. */
  lemma NeverInfo(r: Request)
    ensures HandleGuess(r).Page? ==> HandleGuess(r).cls != InfoClass
    ensures HandleGuess(r).Page? ==>
      (HandleGuess(r).cls == SuccessClass <==> Atoi(r.number) == Atoi(r.cookie.value))
  {
  }

  /** Secret 42, guess 50: "too high" in the error style, status 200. */
  lemma ExampleTooHigh()
    ensures HandleGuess(Request(MethodPost, true, "50", Some("42"))) == Page(TooHigh, ErrorClass)
    ensures StatusCode(Page(TooHigh, ErrorClass)) == 200
  {
    AtoiAcceptsDecimals("", "50");
    AtoiAcceptsDecimals("", "42");
  }

  /** Secret 42, guess 42: "correct" in the success style. */
  lemma ExampleCorrect()
    ensures HandleGuess(Request(MethodPost, true, "42", Some("42"))) == Page(Correct, SuccessClass)
  {
    AtoiAcceptsDecimals("", "42");
  }

  /** number=abc is a 400 even with a valid cookie; a GET is a 405. */
  lemma ExampleRejections()
    ensures StatusCode(HandleGuess(Request(MethodPost, true, "abc", Some("42")))) == 400
    ensures StatusCode(HandleGuess(Request("GET", true, "42", Some("42")))) == 405
  {
  }
}
