# web-guess: the guess-the-number game's decision logic in Dafny

web-guess is a single-file Go web game. `homeHandler` (GET `/`) draws a secret
number in [1,100] and stores it, as plain decimal text, in a `target` cookie on
the client; `guessHandler` (POST `/guess`) validates the request in a fixed
order, reads the cookie back and answers "too high" (太大了！), "too low"
(太小了！) or "correct" (恭喜猜对！) on a page built from one HTML shell with a
single `%s` slot. The server keeps no state: the cookie is the whole session.

This project models that logic:

- `Strconv` (strconv.dfy): Go's `strconv.Atoi` / `strconv.Itoa` for a 64-bit
  `int`, with the round trip `Atoi(Itoa(i)) == Some(i)`.
- `Fmt` (fmt.dfy): `fmt.Sprintf` for formats whose only verb is `%s`, and what
  one- and two-slot templates print.
- `Page` (page.dfy): the templates `htmlTemplate`, `homePage`, `resultPage`
  and the documents both handlers write.
- `Game` (guess.dfy): `guessHandler` as a function from an abstract request
  (method, form-parse result, `number` field, optional cookie) to an
  `Outcome` (405, 400, 302 to `/`, or a result page), with lemmas on the order
  of the checks and the three-way comparison.
- `Session` (session.dfy): the cookie lifecycle; `homeHandler`'s target
  (`draw + 1`, draw passed in for `rand.Intn(100)`) and cookie value; a
  `Client` class whose cookie jar `VisitHome` overwrites and `SubmitGuess`
  leaves alone; and runs of requests (`Replay`) with the lemma that the session
  target is always the one set by the last home visit or, with no home visit
  in the run, the one the jar already held.
- `Server` (server.dfy): the `PORT` default.
- `Wrappers` (wrappers.dfy): `Option`, standing for Go's `(value, err)`.

The comment on `homeHandler` (main.go:169) says it serves GET `/`, but the
handler never checks the method, so in the model `VisitHome` takes no method
and any request routed to it starts a new session.

## Model

| member | source | states |
|---|---|---|
| Strconv.AtoiItoa | main.go:175-181 | the cookie text `Itoa` writes parses back with `Atoi` to the same integer, for every 64-bit int |
| Strconv.NatDigitsRoundTrip | main.go:181 | the decimal digits written for a natural number are all digits and read back as that number |
| Strconv.NatDigitsCanonical | main.go:181 | `Itoa` writes no leading zero except for 0 itself |
| Strconv.AtoiAcceptsOnlyDecimals | main.go:227-232 | a string `Atoi` accepts is an optional sign then one or more digits; anything else (e.g. `abc`, `""`, `+`) is an error |
| Strconv.AtoiAcceptsDecimals | main.go:227 | conversely every signed digit string in the 64-bit range (down to `-9223372036854775808`) is accepted, leading zeros included, with its decimal value |
| Strconv.AtoiRejectsOutOfRange | main.go:227-232 | a signed digit string outside the 64-bit range is an error |
| Strconv.Atoi | main.go:227 | Go's `strconv.Atoi` (also used at main.go:245): what it accepts is non-empty and its value lies in the 64-bit range; the lemmas above characterise it |
| Strconv.Itoa | main.go:181 | Go's `strconv.Itoa`: a `-` exactly for negative values, followed by digits only; `AtoiItoa` is its inverse |
| Fmt.Sprintf | main.go:268-269 | `fmt.Sprintf` with `%s` verbs: each two-character verb gives way to its argument, so the length is the format's minus two per verb plus the arguments'; `OneSlot` and `TwoSlots` give its closed forms |
| Fmt.LiteralFormat | main.go:192 | a literal without `%` has no verbs and `Sprintf` prints it unchanged |
| Fmt.FirstVerb | main.go:268-269 | `Sprintf` copies the text before the first `%s`, then prints the first argument there |
| Fmt.OneSlot | main.go:192 | a one-slot template prints prefix, argument, suffix |
| Fmt.TwoSlots | main.go:268 | a two-slot template prints its three literal parts around the two arguments, in argument order |
| Page.Render | main.go:121 | `Sprintf(htmlTemplate, fragment)` is the shell head, the fragment, then the shell tail |
| Page.ResultFragment | main.go:137-142 | `Sprintf(resultPage, cls, message)` puts the class in the box's class attribute before the message |
| Page.HomeDocument | main.go:192 | the home body is the shell around the guess form |
| Page.ResultDocument | main.go:268-269 | the result body is the shell around the message box, class before message, both verbatim |
| Game.StatusCode | main.go:208-250 | the status of each outcome, both ways: 405 exactly for a refused method, 400 exactly for a bad request, 302 exactly for a redirect, 200 exactly for a result page |
| Game.Compare | main.go:252-263 | "too high" iff guess > target, "too low" iff guess < target, "correct" iff equal; class `success` iff equal, `error` iff not |
| Game.HandleGuess | main.go:205-263 | every redirect goes to `/`; a result page's class is `success` or `error` |
| Game.MethodCheckedFirst | main.go:208-212 | any method but POST gives 405, whatever the form, guess and cookie |
| Game.BadFormBeforeCookie | main.go:216-232 | with POST, a form parse failure or a non-integer guess gives 400, with or without a cookie |
| Game.BadRequestOnlyFromForm | main.go:214-232 | 400 occurs exactly for a POST whose form fails to parse or whose `number` is not an integer |
| Game.RedirectExactlyOnBadCookie | main.go:234-250 | after the guess is accepted, a missing or non-integer cookie gives a 302 to `/`, and otherwise a result page |
| Game.PageExactlyWhenChecksPass | main.go:205-263 | a result page occurs iff all five checks pass, and it is then the comparison of guess and cookie target |
| Game.NeverInfo | main.go:253-263 | the `info` class is never produced; `success` exactly when guess equals target |
| Game.ExampleTooHigh | main.go:254-256 | secret 42, guess 50 gives "too high", class `error`, status 200 |
| Game.ExampleCorrect | main.go:260-262 | secret 42, guess 42 gives "correct", class `success` |
| Game.ExampleRejections | main.go:208-232 | `number=abc` gives status 400 and a GET gives status 405 |
| Session.NewTarget | main.go:175 | a draw in [0,100) gives a target in [1,100] |
| Session.CookieValue | main.go:179-185 | the cookie value is one to three digits and `Atoi` reads it back as the target |
| Session.Step | main.go:188 | a home visit makes the cookie's target `draw + 1`; a guess leaves the cookie as it was |
| Session.Replay | main.go:173-276 | the cookie after a run of requests: unchanged by an empty run, unchanged by a trailing guess, and holding the last draw's target after a trailing home visit |
| Session.ReplayTarget | main.go:173-276 | after any run of requests the target is the last home visit's `draw + 1`, or the original one if there was none |
| Session.GuessesKeepCookie | main.go:205-276 | any run of guesses, correct ones included, leaves the cookie unchanged |
| Session.HomeOverwrites | main.go:179-188 | a home visit's cookie does not depend on the previous cookie |
| Session.GuessAfterHome | main.go:236-263 | a valid guess after a home visit is compared with that visit's target, never redirected |
| Session.Client.VisitHome | main.go:173-199 | homeHandler replaces the cookie with the new target's text and writes the home page |
| Session.Client.SetTargetCookie | main.go:179-188 | `http.SetCookie` replaces the cookie with the new target's text, which reads back as `draw + 1` |
| Session.Client.SubmitGuess | main.go:205-276 | guessHandler's outcome is the decision on the request and the current cookie; a result page's body is the shell around the message box, class before message; with no `modifies` clause it cannot change the cookie |
| Server.ListenPort | main.go:156-160 | an empty `PORT` selects `8080`, a non-empty one is used as is |

## Left out

- HTTP plumbing: `http.HandleFunc` routing, `http.ListenAndServe`, response headers, `http.Error` and `http.Redirect` body texts (`SubmitGuess` returns an empty body for those outcomes) and the startup `fmt.Printf` lines; the returned `Outcome` and documents stand for what the handlers write.
- `rand.Seed` and `rand.Intn`: the draw is a parameter in [0,100), so the model says nothing about its distribution.
- Cookie attributes (`Path`, `MaxAge` 3600, `HttpOnly`) and expiry over time.
- net/http's parsing of the Cookie header in `r.Cookie("target")` (main.go:236) is not modelled: stripping quotes, skipping invalid values, taking the first of several `target` cookies. The request carries the cookie value as the handler receives it.
- `r.ParseForm` and `r.FormValue` internals (URL decoding, merging the query string with the body): the request carries the parse result as a flag and `number` as the string `FormValue` returns.
- The stylesheet rules inside `htmlTemplate` (main.go:20-115): the shell keeps every other line of the template, including the empty `<style>` and `</style>` tags, with its `%s` slot; only the CSS rules between those tags are left out.
- Fmt.Sprintf: only formats whose every verb is `%s` with exactly as many string arguments as verbs, which is all the program uses; Go's `%!s(MISSING)` and `%!(EXTRA …)` outputs are not modelled.
- Strconv.Atoi: models Go's `int` as 64 bits; on a 32-bit platform the accepted range would be smaller.
