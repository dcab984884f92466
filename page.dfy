/**
 * The page shell and the two body fragments of the game, and how they are
 * filled in with `fmt.Sprintf`. The stylesheet inside the shell is elided:
 * only the shell's single `%s` slot matters to the game.
 */
module Page {
  import opened Fmt

  /** Text written line by line, as the templates are laid out. */
  function Lines(ls: seq<string>): string {
    if ls == [] then "" else ls[0] + Lines(ls[1..])
  }

  lemma {:induction false} LinesHaveNoPercent(ls: seq<string>)
    requires forall i :: 0 <= i < |ls| ==> NoPercent(ls[i])
    ensures NoPercent(Lines(ls))
  {
    if ls != [] {
      LinesHaveNoPercent(ls[1..]);
    }
  }

  /** The shell up to its slot (the rules inside the style element are elided). */
  const ShellHeadLines: seq<string> := [
    "<!DOCTYPE html>\n",
    "<html lang=\"zh-CN\">\n",
    "<head>\n",
    "    <meta charset=\"UTF-8\">\n",
    "    <meta name=\"viewport\"",
    " content=\"width=device-width,",
    " initial-scale=1.0\">\n",
    "    <title>猜数字游戏</title>\n",
    "    <style>\n",
    "    </style>\n",
    "</head>\n",
    "<body>\n",
    "    <div class=\"game-container\">\n",
    "        <h1>猜数字游戏</h1>\n",
    "        "]
  const ShellHead: string := Lines(ShellHeadLines)
  /** The shell after its slot. */
  const ShellTailLines: seq<string> := ["\n", "    </div>\n", "</body>\n", "</html>"]
  const ShellTail: string := Lines(ShellTailLines)
  /** htmlTemplate: the shell with one `%s` slot for the body fragment. */
  const HtmlTemplate: string := ShellHead + "%s" + ShellTail

  /** homePage: the guess form, bounded 1 to 100 on the client, posting `number` to /guess. */
  const HomePage: string := Lines([
    "\n",
    "        <p>我已经想好了一个 1-100 之间的数字，快来猜猜看吧！</p>\n",
    "        <form method=\"POST\" action=\"/guess\">\n",
    "            <input type=\"number\" name=\"number\" min=\"1\" max=\"100\"",
    " placeholder=\"请输入猜测的数字\" required>\n",
    "            <br>\n",
    "            <button type=\"submit\">提交猜测</button>\n",
    "        </form>\n"])

  const ResultHead: string := "\n        <div class=\"message "
  const ResultMid: string := "\">"
  const ResultTailLines: seq<string> := [
    "</div>\n",
    "        <form method=\"GET\" action=\"/\">\n",
    "            <button type=\"submit\">",
    "再玩一次</button>\n",
    "        </form>\n"]
  const ResultTail: string := Lines(ResultTailLines)
  /** resultPage: a message box whose first slot is the style class and second the message, then a "play again" form. */
  const ResultPage: string := ResultHead + "%s" + ResultMid + "%s" + ResultTail

  lemma ShellHeadHasNoPercent()
    ensures NoPercent(ShellHead)
  {
    LinesHaveNoPercent(ShellHeadLines);
  }

  lemma ShellTailHasNoPercent()
    ensures NoPercent(ShellTail)
  {
    LinesHaveNoPercent(ShellTailLines);
  }

  lemma ResultTailHasNoPercent()
    ensures NoPercent(ResultTail)
  {
    LinesHaveNoPercent(ResultTailLines);
  }

  lemma ResultHeadHasNoPercent()
    ensures NoPercent(ResultHead) && NoPercent(ResultMid)
  {
  }

  /** fmt.Sprintf(htmlTemplate, fragment): the fragment sits between the shell's two halves. */
  function Render(fragment: string): (html: string)
    ensures html == ShellHead + fragment + ShellTail
  {
    ShellHeadHasNoPercent();
    ShellTailHasNoPercent();
    OneSlot(ShellHead, ShellTail, fragment);
    Sprintf(HtmlTemplate, [fragment])
  }

  /** fmt.Sprintf(resultPage, cls, message): the class lands in the box's class attribute, before the message. */
  function ResultFragment(cls: string, message: string): (r: string)
    ensures r == ResultHead + cls + ResultMid + message + ResultTail
  {
    ResultHeadHasNoPercent();
    ResultTailHasNoPercent();
    TwoSlots(ResultHead, ResultMid, ResultTail, cls, message);
    Sprintf(ResultPage, [cls, message])
  }

  /** The body homeHandler writes. */
  function HomeDocument(): (html: string)
    ensures html == ShellHead + HomePage + ShellTail
  {
    Render(HomePage)
  }

  /** The body guessHandler writes for a compared guess: the class is written before the message, both verbatim. */
  function ResultDocument(cls: string, message: string): (html: string)
    ensures html == ShellHead + ResultHead + cls + ResultMid + message + ResultTail + ShellTail
  {
    Regroup(ShellHead, ResultHead, cls, ResultMid, message, ResultTail, ShellTail);
    Render(ResultFragment(cls, message))
  }

  lemma Regroup(a: string, b: string, c: string, d: string, e: string, f: string, g: string)
    ensures a + (b + c + d + e + f) + g == a + b + c + d + e + f + g
  {
  }
}
