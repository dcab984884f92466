/**
 * `fmt.Sprintf` for format strings whose only verb is `%s` applied to string
 * arguments: each `%s` is replaced by the next argument, every other character
 * is copied.
 */
module Fmt {

  predicate NoPercent(s: string) {
    '%' !in s
  }

  /** A format whose every `%` starts a `%s` verb. */
  predicate OnlyStringVerbs(f: string)
    decreases |f|
  {
    if f == [] then true
    else if f[0] == '%' then |f| >= 2 && f[1] == 's' && OnlyStringVerbs(f[2..])
    else OnlyStringVerbs(f[1..])
  }

  /** The number of `%s` verbs in a format. */
  function Verbs(f: string): nat
    requires OnlyStringVerbs(f)
    decreases |f|
  {
    if f == [] then 0
    else if f[0] == '%' then 1 + Verbs(f[2..])
    else Verbs(f[1..])
  }

  /** The combined length of the arguments. */
  function TotalLength(args: seq<string>): nat {
    if args == [] then 0 else |args[0]| + TotalLength(args[1..])
  }

  /**
   * fmt.Sprintf(f, args...) when the arguments match the verbs one for one:
   * each two-character `%s` gives way to its argument.
   */
  function Sprintf(f: string, args: seq<string>): (r: string)
    requires OnlyStringVerbs(f) && Verbs(f) == |args|
    ensures |r| == |f| - 2 * |args| + TotalLength(args)
    decreases |f|
  {
    if f == [] then ""
    else if f[0] == '%' then args[0] + Sprintf(f[2..], args[1..])
    else [f[0]] + Sprintf(f[1..], args)
  }

  /** A literal without `%` is a format with no verbs that prints as itself. */
  lemma {:induction false} LiteralFormat(q: string)
    requires NoPercent(q)
    ensures OnlyStringVerbs(q) && Verbs(q) == 0 && Sprintf(q, []) == q
  {
    if q != [] {
      LiteralFormat(q[1..]);
      assert [q[0]] + q[1..] == q;
    }
  }

  /** The text before the first verb is copied, then the verb takes the first argument. */
  lemma {:induction false} FirstVerb(p: string, rest: string, x: string, args: seq<string>)
    requires NoPercent(p) && OnlyStringVerbs(rest) && Verbs(rest) == |args|
    ensures OnlyStringVerbs(p + "%s" + rest) && Verbs(p + "%s" + rest) == 1 + |args|
    ensures Sprintf(p + "%s" + rest, [x] + args) == p + x + Sprintf(rest, args)
  {
    var f := p + "%s" + rest;
    if p == [] {
      assert f == "%s" + rest && f[0] == '%' && f[1] == 's';
      assert f[2..] == rest;
      assert ([x] + args)[0] == x && ([x] + args)[1..] == args;
    } else {
      assert p[0] != '%' by { assert p[0] in p; }
      assert f[0] == p[0];
      assert f[1..] == p[1..] + "%s" + rest;
      FirstVerb(p[1..], rest, x, args);
      assert Sprintf(f, [x] + args) == [p[0]] + Sprintf(f[1..], [x] + args);
      assert [p[0]] + (p[1..] + x + Sprintf(rest, args)) == p + x + Sprintf(rest, args);
    }
  }

  /** A one-slot template prints as its prefix, the argument, then its suffix. */
  lemma OneSlot(p: string, q: string, x: string)
    requires NoPercent(p) && NoPercent(q)
    ensures OnlyStringVerbs(p + "%s" + q) && Verbs(p + "%s" + q) == 1
    ensures Sprintf(p + "%s" + q, [x]) == p + x + q
  {
    LiteralFormat(q);
    FirstVerb(p, q, x, []);
    assert [x] + [] == [x];
  }

  /** A two-slot template prints its three literal parts around the two arguments, in order. */
  lemma TwoSlots(p: string, m: string, q: string, x: string, y: string)
    requires NoPercent(p) && NoPercent(m) && NoPercent(q)
    ensures OnlyStringVerbs(p + "%s" + m + "%s" + q) && Verbs(p + "%s" + m + "%s" + q) == 2
    ensures Sprintf(p + "%s" + m + "%s" + q, [x, y]) == p + x + m + y + q
  {
    var rest := m + "%s" + q;
    var f := p + "%s" + m + "%s" + q;
    OneSlot(m, q, y);
    assert Sprintf(rest, [y]) == m + y + q;
    FirstVerb(p, rest, x, [y]);
    assert f == p + "%s" + rest;
    assert [x] + [y] == [x, y];
    calc {
      Sprintf(f, [x, y]);
      Sprintf(p + "%s" + rest, [x] + [y]);
      p + x + Sprintf(rest, [y]);
      p + x + (m + y + q);
      { Regroup(p, x, m, y, q); }
      p + x + m + y + q;
    }
  }

  lemma Regroup(p: string, x: string, m: string, y: string, q: string)
    ensures p + x + (m + y + q) == p + x + m + y + q
  {
  }
}
