/**
 * The game's only state: the `target` cookie the client holds. homeHandler
 * overwrites it with a fresh target; guessHandler only reads it.
 */
module Session {
  import opened Wrappers
  import opened Strconv
  import Game
  import Page

  const CookieName: string := "target"
  /** rand.Intn(100) draws from [0, Draws). */
  const Draws: int := 100

  /** homeHandler's target for a draw of rand.Intn(100). */
  function NewTarget(draw: int): (t: int)
    requires 0 <= draw < Draws
    ensures 1 <= t <= 100
  {
    draw + 1
  }

  /** The value homeHandler stores in the cookie: the target's decimal text, which Atoi reads back as the target. */
  function CookieValue(draw: int): (v: string)
    requires 0 <= draw < Draws
    ensures Atoi(v) == Some(NewTarget(draw))
    ensures AllDigits(v) && 1 <= |v| <= 3
  {
    var t := NewTarget(draw);
    AtoiItoa(t);
    NatDigitsRoundTrip(t);
    assert t >= 10 ==> NatDigits(t) == NatDigits(t / 10) + [DigitChar(t % 10)];
    assert t / 10 >= 10 ==> NatDigits(t / 10) == NatDigits(t / 100) + [DigitChar(t / 10 % 10)];
    Itoa(t)
  }

  /** The target a cookie jar holds, as guessHandler reads it. */
  function Target(jar: Option<string>): Option<int> {
    match jar
    case None => None
    case Some(v) => Atoi(v)
  }

  /** What a client does: open the home page (with the server's draw) or submit a guess. */
  datatype Event =
    | Home(draw: int)
    | Guess(verb: string, formParsed: bool, number: string)

  predicate ValidEvent(e: Event) {
    e.Home? ==> 0 <= e.draw < Draws
  }

  predicate ValidEvents(events: seq<Event>) {
    forall i :: 0 <= i < |events| ==> ValidEvent(events[i])
  }

  /** The cookie jar after one request: Home replaces the cookie, Guess leaves it alone. */
  function Step(jar: Option<string>, e: Event): (jar': Option<string>)
    requires ValidEvent(e)
    ensures e.Guess? ==> jar' == jar
    ensures e.Home? ==> Target(jar') == Some(e.draw + 1)
  {
    match e
    case Home(draw) => Some(CookieValue(draw))
    case Guess(_, _, _) => jar
  }

  /** The cookie jar after a run of requests: a run that ends with a guess leaves the jar the run before it left. */
  function Replay(jar: Option<string>, events: seq<Event>): (jar': Option<string>)
    requires ValidEvents(events)
    ensures events == [] ==> jar' == jar
    ensures events != [] && events[|events| - 1].Guess? ==> jar' == Replay(jar, events[..|events| - 1])
    ensures events != [] && events[|events| - 1].Home? ==> Target(jar') == Some(events[|events| - 1].draw + 1)
  {
    if events == [] then jar
    else Step(Replay(jar, events[..|events| - 1]), events[|events| - 1])
  }

  /** The draw of the last Home request in a run, if there is one. */
  function LastDraw(events: seq<Event>): Option<int> {
    if events == [] then None
    else if events[|events| - 1].Home? then Some(events[|events| - 1].draw)
    else LastDraw(events[..|events| - 1])
  }

  /** The session target is set by the last home visit; before any, it is whatever the jar held. */
  lemma {:induction false} ReplayTarget(jar: Option<string>, events: seq<Event>)
    requires ValidEvents(events)
    ensures Target(Replay(jar, events)) ==
      match LastDraw(events)
      case None => Target(jar)
      case Some(d) => Some(d + 1)
  {
    if events != [] {
      ReplayTarget(jar, events[..|events| - 1]);
    }
  }

  /** Guesses alone, right or wrong, never change the cookie. */
  lemma {:induction false} GuessesKeepCookie(jar: Option<string>, events: seq<Event>)
    requires forall i :: 0 <= i < |events| ==> events[i].Guess?
    ensures ValidEvents(events) && Replay(jar, events) == jar
  {
    if events != [] {
      GuessesKeepCookie(jar, events[..|events| - 1]);
    }
  }

  /** A home visit overwrites whatever cookie was there: the new jar does not depend on the old one. */
  lemma HomeOverwrites(jar: Option<string>, jar2: Option<string>, draw: int)
    requires 0 <= draw < Draws
    ensures Step(jar, Home(draw)) == Step(jar2, Home(draw)) == Some(Itoa(draw + 1))
  {
  }

  /** After a home visit, a guess is compared with that visit's target: never a redirect. */
  lemma GuessAfterHome(jar: Option<string>, draw: int, verb: string, formParsed: bool, number: string)
    requires 0 <= draw < Draws
    requires verb == Game.MethodPost && formParsed && Atoi(number).Some?
    ensures Game.HandleGuess(Game.Request(verb, formParsed, number, Step(jar, Home(draw)))) ==
      Game.Compare(Atoi(number).value, draw + 1)
  {
  }

  /** A client's cookie jar for this site, changed only by the responses it receives. */
  class Client {
    var jar: Option<string>

    /** A client that has not visited yet: no session. */
    constructor ()
      ensures jar == None
    {
      jar := None;
    }

    /** homeHandler: sets the cookie to the new target's text and returns the guess form page. */
    method VisitHome(draw: int) returns (html: string)
      requires 0 <= draw < Draws
      modifies this
      ensures jar == Step(old(jar), Home(draw))
      ensures Target(jar) == Some(draw + 1)
      ensures html == Page.ShellHead + Page.HomePage + Page.ShellTail
    {
      SetTargetCookie(draw);
      html := Page.HomeDocument();
    }

    /** http.SetCookie of homeHandler's `target` cookie. */
    method SetTargetCookie(draw: int)
      requires 0 <= draw < Draws
      modifies this
      ensures jar == Step(old(jar), Home(draw))
      ensures Target(jar) == Some(draw + 1)
    {
      jar := Some(CookieValue(draw));
    }

    /**
     * guessHandler: decides from the request and the current cookie and, for a
     * result page, writes the shell around the message box. It has no
     * `modifies` clause, so it cannot change the cookie.
     */
    method SubmitGuess(verb: string, formParsed: bool, number: string) returns (o: Game.Outcome, html: string)
      ensures o == Game.HandleGuess(Game.Request(verb, formParsed, number, jar))
      ensures o.Page? ==>
        html == Page.ShellHead + Page.ResultHead + o.cls + Page.ResultMid + o.message + Page.ResultTail + Page.ShellTail
      ensures !o.Page? ==> html == ""
    {
      o := Game.HandleGuess(Game.Request(verb, formParsed, number, jar));
      if o.Page? {
        html := Page.ResultDocument(o.cls, o.message);
      } else {
        html := "";
      }
    }
  }
}
