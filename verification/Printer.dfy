/** The generators' printer: text is cut into lines, empty lines are dropped, the others indented. */
module Printers {
  import opened Substitution
  import opened SubstitutionPasses

  predicate OneLine(s: string) {
    '\n' !in s
  }

  /** Cut at every newline; n newlines give n + 1 pieces. */
  function Split(s: string): (pieces: seq<string>)
    ensures |pieces| > 0
  {
    if s == "" then [""]
    else if s[0] == '\n' then [""] + Split(s[1..])
    else
      var rest := Split(s[1..]);
      [[s[0]] + rest[0]] + rest[1..]
  }

  function NonEmpty(pieces: seq<string>): seq<string> {
    if pieces == [] then []
    else (if pieces[0] == "" then [] else [pieces[0]]) + NonEmpty(pieces[1..])
  }

  function Lines(s: string): seq<string> {
    NonEmpty(Split(s))
  }

  /** Two spaces for each level. */
  function Spaces(indent: nat): string {
    if indent == 0 then "" else "  " + Spaces(indent - 1)
  }

  function Emit(indent: nat, lines: seq<string>): string {
    if lines == [] then "" else Spaces(indent) + lines[0] + "\n" + Emit(indent, lines[1..])
  }

  /** What printing s at the given level appends to the output. */
  function Printed(indent: nat, s: string): string {
    Emit(indent, Lines(s))
  }

  predicate Tidy(lines: seq<string>) {
    forall l :: l in lines ==> l != "" && OneLine(l)
  }

  // ----- Lines -----

  lemma {:induction false} NonEmptyAppend(a: seq<string>, b: seq<string>)
    ensures NonEmpty(a + b) == NonEmpty(a) + NonEmpty(b)
  {
    if a == [] {
      assert a + b == b;
    } else {
      assert (a + b)[1..] == a[1..] + b;
      NonEmptyAppend(a[1..], b);
    }
  }

  lemma {:induction false} SplitAtNewline(x: string, y: string)
    ensures Split(x + "\n" + y) == Split(x) + Split(y)
  {
    var s := x + "\n" + y;
    if x == "" {
      assert s[0] == '\n' && s[1..] == y;
    } else {
      assert s[0] == x[0] && s[1..] == x[1..] + "\n" + y;
      SplitAtNewline(x[1..], y);
    }
  }

  /** The lines of x, newline, y are the lines of x and then the lines of y. */
  lemma LinesAppend(x: string, y: string)
    ensures Lines(x + "\n" + y) == Lines(x) + Lines(y)
  {
    SplitAtNewline(x, y);
    NonEmptyAppend(Split(x), Split(y));
  }

  lemma {:induction false} SplitOneLine(s: string)
    requires OneLine(s)
    ensures Split(s) == [s]
  {
    if s == "" {
    } else {
      SplitOneLine(s[1..]);
      assert s == [s[0]] + s[1..];
    }
  }

  lemma {:induction false} LinesTidy(s: string)
    ensures Tidy(Lines(s)) && forall p :: p in Split(s) ==> OneLine(p)
  {
    if s == "" {
    } else {
      LinesTidy(s[1..]);
      var rest := Split(s[1..]);
      assert rest[0] in rest;
      forall p | p in Split(s) ensures OneLine(p) {
        assert p == "" || p in rest || (p == [s[0]] + rest[0] && s[0] != '\n');
      }
    }
    PiecesTidy(Split(s));
  }

  lemma {:induction false} PiecesTidy(pieces: seq<string>)
    requires forall p :: p in pieces ==> OneLine(p)
    ensures Tidy(NonEmpty(pieces))
  {
    if pieces == [] {
    } else {
      PiecesTidy(pieces[1..]);
    }
  }

  function Indent(indent: nat, lines: seq<string>): (r: seq<string>)
    ensures |r| == |lines|
  {
    seq(|lines|, i requires 0 <= i < |lines| => Spaces(indent) + lines[i])
  }

  lemma {:induction false} SpacesPlain(indent: nat)
    ensures OneLine(Spaces(indent)) && |Spaces(indent)| == 2 * indent
  {
    if indent == 0 {
    } else {
      SpacesPlain(indent - 1);
    }
  }

  lemma {:induction false} SpacesAdd(n: nat, m: nat)
    ensures Spaces(n) + Spaces(m) == Spaces(n + m)
  {
    if n == 0 {
    } else {
      SpacesAdd(n - 1, m);
    }
  }

  /** The output's lines are the input's lines, indented. */
  lemma {:induction false} LinesOfEmit(indent: nat, lines: seq<string>)
    requires Tidy(lines)
    ensures Lines(Emit(indent, lines)) == Indent(indent, lines)
  {
    if lines == [] {
    } else {
      var first, rest := Spaces(indent) + lines[0], Emit(indent, lines[1..]);
      assert lines[0] in lines;
      SpacesPlain(indent);
      LinesAppend(first, rest);
      SplitOneLine(first);
      LinesOfEmit(indent, lines[1..]);
      assert NonEmpty([first]) == [first];
    }
  }

  lemma {:induction false} EmitAppend(indent: nat, a: seq<string>, b: seq<string>)
    ensures Emit(indent, a + b) == Emit(indent, a) + Emit(indent, b)
  {
    if a == [] {
      assert a + b == b;
    } else {
      assert (a + b)[1..] == a[1..] + b;
      EmitAppend(indent, a[1..], b);
    }
  }

  lemma {:induction false} EmitIndented(n: nat, m: nat, lines: seq<string>)
    ensures Emit(n, Indent(m, lines)) == Emit(n + m, lines)
  {
    if lines == [] {
    } else {
      assert Indent(m, lines)[1..] == Indent(m, lines[1..]);
      EmitIndented(n, m, lines[1..]);
      SpacesAdd(n, m);
      assert Spaces(n) + (Spaces(m) + lines[0]) == Spaces(n + m) + lines[0];
    }
  }

  // ----- The printer's algebra -----

  /** Printing at level n what was printed at level m is printing it at level n + m. */
  lemma PrintTwice(n: nat, m: nat, s: string)
    ensures Printed(n, Printed(m, s)) == Printed(n + m, s)
  {
    LinesTidy(s);
    LinesOfEmit(m, Lines(s));
    EmitIndented(n, m, Lines(s));
  }

  /** Printing x, newline, y is printing x and then y; hence a trailing newline changes nothing. */
  lemma PrintAppend(n: nat, x: string, y: string)
    ensures Printed(n, x + "\n" + y) == Printed(n, x) + Printed(n, y)
    ensures Printed(n, x + "\n") == Printed(n, x)
  {
    LinesAppend(x, y);
    EmitAppend(n, Lines(x), Lines(y));
    LinesAppend(x, "");
    assert x + "\n" + "" == x + "\n";
    assert NonEmpty([""]) == NonEmpty([]);
    assert Lines("") == [];
    assert Lines(x) + [] == Lines(x);
  }

  /** Nothing but empty lines is lost: taking the indent off the output's lines gives the input's lines back. */
  lemma PrintKeepsLines(n: nat, s: string)
    ensures var lines := Lines(Printed(n, s));
      |lines| == |Lines(s)| && forall i :: 0 <= i < |lines| ==> 2 * n <= |lines[i]| && lines[i][2 * n..] == Lines(s)[i]
  {
    LinesTidy(s);
    LinesOfEmit(n, Lines(s));
    SpacesPlain(n);
  }

  /** What one more piece adds. */
  lemma EmitPiece(indent: nat, pieces: seq<string>, i: nat)
    requires i < |pieces|
    ensures Emit(indent, NonEmpty(pieces[..i + 1])) ==
      Emit(indent, NonEmpty(pieces[..i])) + if pieces[i] == "" then "" else Spaces(indent) + pieces[i] + "\n"
  {
    var piece := pieces[i];
    assert pieces[..i + 1] == pieces[..i] + [piece];
    NonEmptyAppend(pieces[..i], [piece]);
    EmitAppend(indent, NonEmpty(pieces[..i]), NonEmpty([piece]));
    assert [piece][1..] == [];
    assert Emit(indent, [piece]) == Spaces(indent) + piece + "\n" + Emit(indent, []);
  }

  class Printer {
    var indent: nat
    var output: string

    constructor ()
      ensures indent == 0 && output == ""
    {
      indent, output := 0, "";
    }

    method Add(lines: string)
      modifies this`output
      ensures output == old(output) + Printed(indent, lines)
    {
      var indentStr := "";
      for i := 0 to indent
        invariant indentStr == Spaces(i) && output == old(output)
      {
        SpacesAdd(i, 1);
        assert Spaces(1) == "  " + Spaces(0);
        indentStr := indentStr + "  ";
      }
      var strs := Split(lines);
      var indented := "";
      for i := 0 to |strs|
        invariant indented == Emit(indent, NonEmpty(strs[..i])) && output == old(output)
      {
        EmitPiece(indent, strs, i);
        if strs[i] != "" {
          indented := indented + (indentStr + strs[i] + "\n");
        }
      }
      assert strs[..|strs|] == strs;
      output := output + indented;
    }

    method AddLn(lines: string)
      modifies this`output
      ensures output == old(output) + Printed(indent, lines)
    {
      PrintAppend(indent, lines, "");
      Add(lines + "\n");
    }

    method AddVars(vars: Vars, lines: string)
      modifies this`output
      ensures output == old(output) + Printed(indent, ReplaceVars(lines, vars))
    {
      var replaced := lines;
      for i := 0 to |vars|
        invariant ReplaceVars(replaced, vars[i..]) == ReplaceVars(lines, vars)
      {
        assert vars[i..][1..] == vars[i + 1..];
        replaced := ReplaceAll(replaced, Placeholder(vars[i].0), vars[i].1);
      }
      Add(replaced);
    }

    method AddLnVars(vars: Vars, lines: string)
      modifies this`output
      ensures output == old(output) + Printed(indent, ReplaceVars(lines + "\n", vars))
    {
      AddVars(vars, lines + "\n");
    }

    method Indent()
      modifies this`indent
      ensures indent == old(indent) + 1
    {
      indent := indent + 1;
    }

    method Outdent()
      requires indent > 0
      modifies this`indent
      ensures indent == old(indent) - 1
    {
      indent := indent - 1;
    }
  }
}
