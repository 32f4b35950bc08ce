/** The generator's variable substitution: one replace-all pass per variable over the text. */
module Substitution {
  import opened Texts

  /** Literal text with named places: lit, then $name$, then the rest. */
  datatype Template = End(lit: string) | Then(lit: string, name: string, rest: Template)

  function Placeholder(name: string): string {
    "$" + name + "$"
  }

  function Render(t: Template): string {
    match t
    case End(lit) => lit
    case Then(lit, name, rest) => lit + Placeholder(name) + Render(rest)
  }

  predicate Plain(s: string) {
    '$' !in s
  }

  predicate PlainName(s: string) {
    s != "" && Plain(s)
  }

  /** Dollars only mark placeholders, and placeholders have names. */
  predicate WellFormed(t: Template) {
    Plain(t.lit) && (t.Then? ==> PlainName(t.name) && WellFormed(t.rest))
  }

  /** Replace the occurrences of key, left to right, without looking at inserted text again. */
  function ReplaceAll(s: string, key: string, value: string): string
    requires key != ""
    decreases |s|
  {
    if s == "" then ""
    else if key <= s then value + ReplaceAll(s[|key|..], key, value)
    else [s[0]] + ReplaceAll(s[1..], key, value)
  }

  function Prepend(s: string, t: Template): Template {
    t.(lit := s + t.lit)
  }

  /** One template after another. */
  function Join(t: Template, u: Template): Template {
    match t
    case End(lit) => Prepend(lit, u)
    case Then(lit, name, rest) => Then(lit, name, Join(rest, u))
  }

  /** Replace the placeholders called name, and nothing else. */
  function Fill(t: Template, name: string, value: string): Template {
    match t
    case End(_) => t
    case Then(lit, n, rest) =>
      if n == name then Prepend(lit + value, Fill(rest, name, value)) else Then(lit, n, Fill(rest, name, value))
  }

  /** Somewhere the text between two neighbouring placeholders, the first not itself called name, reads
      name: together with the dollars around it, it looks like the placeholder. */
  predicate Clash(t: Template, name: string) {
    t.Then? && ((t.name != name && t.rest.Then? && t.rest.lit == name) || Clash(t.rest, name))
  }

  lemma RenderPrepend(s: string, t: Template)
    ensures Render(Prepend(s, t)) == s + Render(t)
  {
    match t
    case End(lit) =>
    case Then(lit, name, rest) => assert s + lit + Placeholder(name) + Render(rest) ==
      s + (lit + Placeholder(name) + Render(rest));
  }

  lemma {:induction false} FillWellFormed(t: Template, name: string, value: string)
    requires WellFormed(t) && Plain(value)
    ensures WellFormed(Fill(t, name, value))
  {
    if t.End? {
    } else {
      FillWellFormed(t.rest, name, value);
    }
  }

  /** Text without dollars is passed over. */
  lemma {:induction false} PassPlain(lit: string, s: string, name: string, value: string)
    requires Plain(lit)
    ensures ReplaceAll(lit + s, Placeholder(name), value) == lit + ReplaceAll(s, Placeholder(name), value)
  {
    if lit == "" {
      assert lit + s == s;
    } else {
      assert (lit + s)[0] == lit[0] && (lit + s)[1..] == lit[1..] + s;
      assert Placeholder(name)[0] == '$' != lit[0];
      PassPlain(lit[1..], s, name, value);
      assert lit == [lit[0]] + lit[1..];
    }
  }

  /** A dollar, plain text, a dollar: the placeholder of name exactly when the text is name. */
  lemma StartsWithPlaceholder(text: string, s: string, name: string)
    requires Plain(text) && Plain(name)
    ensures Placeholder(name) <= "$" + text + ("$" + s) <==> text == name
    ensures !(Placeholder(name) <= "$" + text)
  {
    var key, all := Placeholder(name), "$" + text + ("$" + s);
    assert key[|name| + 1] == '$' && key[1..|name| + 1] == name;
    assert all[|text| + 1] == '$' && all[1..|text| + 1] == text;
    if text == name {
      assert all == key + s;
    }
  }

  /** One pass over a closing or opening dollar that starts no placeholder of name. */
  lemma PassDollar(text: string, s: string, name: string, value: string)
    requires Plain(text) && Plain(name) && text != name
    ensures ReplaceAll("$" + text + ("$" + s), Placeholder(name), value) ==
      "$" + text + ReplaceAll("$" + s, Placeholder(name), value)
  {
    var all := "$" + text + ("$" + s);
    StartsWithPlaceholder(text, s, name);
    assert all[0] == '$' && all[1..] == text + ("$" + s);
    PassPlain(text, "$" + s, name, value);
  }

  lemma PassFound(s: string, name: string, value: string)
    requires Plain(name)
    ensures ReplaceAll(Placeholder(name) + s, Placeholder(name), value) ==
      value + ReplaceAll(s, Placeholder(name), value)
  {
    var all := Placeholder(name) + s;
    assert all[|Placeholder(name)|..] == s;
  }

  /** Text after the last placeholder. */
  lemma PassEnd(text: string, name: string, value: string)
    requires Plain(text) && Plain(name)
    ensures ReplaceAll("$" + text, Placeholder(name), value) == "$" + text
    ensures ReplaceAll(text, Placeholder(name), value) == text
  {
    StartsWithPlaceholder(text, "", name);
    assert ("$" + text)[0] == '$' && ("$" + text)[1..] == text;
    PassPlain(text, "", name, value);
    assert text + "" == text;
  }

  /** What follows a closing dollar that the pass left alone. */
  lemma AfterClosing(t: Template, name: string, value: string)
    requires WellFormed(t) && PlainName(name) && Plain(value) && !(t.Then? && t.lit == name)
    ensures ReplaceAll("$" + Render(t), Placeholder(name), value) ==
      "$" + ReplaceAll(Render(t), Placeholder(name), value)
  {
    match t
    case End(lit) => PassEnd(lit, name, value);
    case Then(lit, n, rest) =>
      var s := n + "$" + Render(rest);
      assert Render(t) == lit + ("$" + s);
      assert "$" + Render(t) == "$" + lit + ("$" + s);
      PassDollar(lit, s, name, value);
      PassPlain(lit, "$" + s, name, value);
      Regroup("$", lit, ReplaceAll("$" + s, Placeholder(name), value));
  }

  /** The pass at a placeholder of another name. */
  lemma PassOther(lit: string, n: string, rest: string, name: string, value: string)
    requires Plain(lit) && PlainName(n) && PlainName(name) && n != name
    ensures ReplaceAll(lit + Placeholder(n) + rest, Placeholder(name), value) ==
      lit + "$" + n + ReplaceAll("$" + rest, Placeholder(name), value)
  {
    assert lit + Placeholder(n) + rest == lit + ("$" + n + ("$" + rest));
    PassPlain(lit, "$" + n + ("$" + rest), name, value);
    PassDollar(n, rest, name, value);
  }

  lemma PassSame(lit: string, rest: string, name: string, value: string)
    requires Plain(lit) && PlainName(name)
    ensures ReplaceAll(lit + Placeholder(name) + rest, Placeholder(name), value) ==
      lit + value + ReplaceAll(rest, Placeholder(name), value)
  {
    assert lit + Placeholder(name) + rest == lit + (Placeholder(name) + rest);
    PassPlain(lit, Placeholder(name) + rest, name, value);
    PassFound(rest, name, value);
  }

  // ----- What a pass really does to a template -----

  /** One pass over a template: the placeholders called name are filled; where the text behind another
      placeholder reads name, its closing dollar is eaten and the two placeholders grow together. */
  function Sweep(t: Template, name: string, value: string): Template
    decreases t, 1
  {
    match t
    case End(_) => t
    case Then(lit, n, rest) =>
      if n == name then Prepend(lit + value, Sweep(rest, name, value)) else Carry(lit, n, rest, name, value)
  }

  /** The pass behind a placeholder n that stays, or grows. */
  function Carry(lit: string, n: string, rest: Template, name: string, value: string): (t: Template)
    ensures t.Then?
    decreases rest, 2
  {
    if rest.Then? && rest.lit == name then Carry(lit, n + value + rest.name, rest.rest, name, value)
    else Then(lit, n, Sweep(rest, name, value))
  }

  lemma ClosingDollar(lit: string, n: string, rest: string)
    ensures lit + Placeholder(n) + rest == lit + "$" + n + ("$" + rest)
  {
  }

  lemma GrownName(lit: string, n: string, value: string, n': string, rest: string)
    ensures lit + "$" + n + (value + (n' + rest)) == lit + "$" + (n + value + n') + rest
  {
  }

  lemma {:induction false} CarryIsPass(lit: string, n: string, rest: Template, name: string, value: string)
    requires WellFormed(rest) && PlainName(name) && Plain(value)
    ensures lit + "$" + n + ReplaceAll("$" + Render(rest), Placeholder(name), value) ==
      Render(Carry(lit, n, rest, name, value))
    decreases rest, 2
  {
    if rest.Then? && rest.lit == name {
      var s := "$" + Render(rest.rest);
      assert "$" + Render(rest) == Placeholder(name) + (rest.name + s);
      PassFound(rest.name + s, name, value);
      PassPlain(rest.name, s, name, value);
      GrownName(lit, n, value, rest.name, ReplaceAll(s, Placeholder(name), value));
      CarryIsPass(lit, n + value + rest.name, rest.rest, name, value);
    } else {
      AfterClosing(rest, name, value);
      SweepIsPass(rest, name, value);
      ClosingDollar(lit, n, Render(Sweep(rest, name, value)));
    }
  }

  /** The replace-all on the text is the sweep on the template, clash or not. */
  lemma {:induction false} SweepIsPass(t: Template, name: string, value: string)
    requires WellFormed(t) && PlainName(name) && Plain(value)
    ensures ReplaceAll(Render(t), Placeholder(name), value) == Render(Sweep(t, name, value))
    decreases t, 1
  {
    match t
    case End(lit) => PassEnd(lit, name, value);
    case Then(lit, n, rest) =>
      if n == name {
        SweepIsPass(rest, name, value);
        PassSame(lit, Render(rest), name, value);
        RenderPrepend(lit + value, Sweep(rest, name, value));
      } else {
        PassOther(lit, n, Render(rest), name, value);
        CarryIsPass(lit, n, rest, name, value);
      }
  }

  lemma {:induction false} SweepWellFormed(t: Template, name: string, value: string)
    requires WellFormed(t) && Plain(value)
    ensures WellFormed(Sweep(t, name, value))
    decreases t, 1
  {
    match t
    case End(_) =>
    case Then(lit, n, rest) =>
      if n == name {
        SweepWellFormed(rest, name, value);
      } else {
        CarryGrows(lit, n, rest, name, value);
      }
  }

  /** A carried name starts with the old one, and is the old one exactly when nothing was eaten. */
  lemma {:induction false} CarryGrows(lit: string, n: string, rest: Template, name: string, value: string)
    requires Plain(lit) && PlainName(n) && WellFormed(rest) && Plain(value)
    ensures var t := Carry(lit, n, rest, name, value);
      t.Then? && t.lit == lit && n <= t.name && WellFormed(t) && (t.name == n <==> !(rest.Then? && rest.lit == name))
    decreases rest, 2
  {
    if rest.Then? && rest.lit == name {
      CarryGrows(lit, n + value + rest.name, rest.rest, name, value);
    } else {
      SweepWellFormed(rest, name, value);
    }
  }

  // ----- The text determines the template -----

  lemma FirstDollar(a: string, x: string, b: string, y: string)
    requires Plain(a) && Plain(b) && a + ("$" + x) == b + ("$" + y)
    ensures a == b && x == y
  {
    var s, s' := a + ("$" + x), b + ("$" + y);
    assert s[|a|] == '$' && s'[|b|] == '$';
    assert s[..|a|] == a && s'[..|b|] == b;
    assert s[|a| + 1..] == x && s'[|b| + 1..] == y;
  }

  lemma RenderThen(t: Template)
    requires t.Then?
    ensures Render(t) == t.lit + ("$" + (t.name + ("$" + Render(t.rest))))
  {
  }

  lemma NoDollar(a: string, b: string, y: string)
    requires Plain(a)
    ensures a != b + ("$" + y)
  {
    assert (b + ("$" + y))[|b|] == '$';
  }

  /** Two well-formed templates with the same text are the same. */
  lemma {:induction false} RenderInjective(t: Template, u: Template)
    requires WellFormed(t) && WellFormed(u) && Render(t) == Render(u)
    ensures t == u
  {
    if t.Then? && u.Then? {
      RenderThen(t);
      RenderThen(u);
      FirstDollar(t.lit, t.name + ("$" + Render(t.rest)), u.lit, u.name + ("$" + Render(u.rest)));
      FirstDollar(t.name, Render(t.rest), u.name, Render(u.rest));
      RenderInjective(t.rest, u.rest);
    } else if t.Then? {
      RenderThen(t);
      NoDollar(u.lit, t.lit, t.name + ("$" + Render(t.rest)));
    } else if u.Then? {
      RenderThen(u);
      NoDollar(t.lit, u.lit, u.name + ("$" + Render(u.rest)));
    }
  }

  lemma SamePrefix(p: string, x: string, y: string)
    ensures p + x == p + y ==> x == y
  {
    assert (p + x)[|p|..] == x && (p + y)[|p|..] == y;
  }

  /** The sweep only fills if and only if nothing clashes with its name. */
  lemma {:induction false} SweepFills(t: Template, name: string, value: string)
    requires WellFormed(t) && Plain(value)
    ensures Sweep(t, name, value) == Fill(t, name, value) <==> !Clash(t, name)
  {
    match t
    case End(_) =>
    case Then(lit, n, rest) =>
      SweepFills(rest, name, value);
      if n == name {
        SamePrefix(lit + value, Sweep(rest, name, value).lit, Fill(rest, name, value).lit);
      } else {
        CarryGrows(lit, n, rest, name, value);
      }
  }

  /** One pass is exact if and only if nothing clashes with its name. */
  lemma PassIsExact(t: Template, name: string, value: string)
    requires WellFormed(t) && PlainName(name) && Plain(value)
    ensures ReplaceAll(Render(t), Placeholder(name), value) == Render(Fill(t, name, value)) <==> !Clash(t, name)
  {
    SweepIsPass(t, name, value);
    SweepFills(t, name, value);
    SweepWellFormed(t, name, value);
    FillWellFormed(t, name, value);
    if Render(Sweep(t, name, value)) == Render(Fill(t, name, value)) {
      RenderInjective(Sweep(t, name, value), Fill(t, name, value));
    }
  }
}
