/** Reading the generated text back: the string literals it holds, in order. */
module GeneratedText {
  import opened Options
  import opened Texts
  import opened SubstitutionPasses
  import opened Substitution
  import opened Printers
  import opened Routes
  import opened Generator

  /** The texts between quotes; an unfinished one is dropped. */
  function Quoted(s: string, open: bool, text: string): seq<string>
    decreases |s|
  {
    if s == "" then []
    else if s[0] == '"' then (if open then [text] else []) + Quoted(s[1..], !open, "")
    else Quoted(s[1..], open, if open then text + [s[0]] else "")
  }

  /** The string literals of a program text without escapes. */
  function Literals(s: string): seq<string> {
    Quoted(s, false, "")
  }

  // ----- Literals of concatenations -----

  lemma {:induction false} SkipUnquoted(a: string, s: string, open: bool, text: string)
    requires Unquoted(a) && (!open ==> text == "")
    ensures Quoted(a + s, open, text) == Quoted(s, open, if open then text + a else "")
    decreases |a|
  {
    if a == "" {
      assert a + s == s && text + a == text;
    } else {
      assert (a + s)[0] == a[0] && (a + s)[1..] == a[1..] + s;
      SkipUnquoted(a[1..], s, open, if open then text + [a[0]] else "");
      assert text + [a[0]] + a[1..] == text + a;
    }
  }

  lemma UnquotedHasNone(a: string, s: string)
    requires Unquoted(a)
    ensures Literals(a + s) == Literals(s) && Literals(a) == []
  {
    SkipUnquoted(a, s, false, "");
    SkipUnquoted(a, "", false, "");
    assert a + "" == a;
  }

  lemma QuoteIsOne(b: string, s: string)
    requires Unquoted(b)
    ensures Literals(Quote(b) + s) == [b] + Literals(s)
  {
    var after := "\"" + s;
    assert Quote(b) + s == "\"" + (b + after);
    assert ("\"" + (b + after))[0] == '"' && ("\"" + (b + after))[1..] == b + after;
    SkipUnquoted(b, after, true, "");
    assert "" + b == b && after[0] == '"' && after[1..] == s;
  }

  /** Text in which every literal is finished. */
  ghost predicate Finished(x: string) {
    forall y :: Literals(x + y) == Literals(x) + Literals(y)
  }

  lemma UnquotedFinished(a: string)
    requires Unquoted(a)
    ensures Reads(a, [])
  {
    forall y ensures Literals(a + y) == Literals(a) + Literals(y) {
      UnquotedHasNone(a, y);
    }
    UnquotedHasNone(a, "");
  }

  lemma QuoteFinished(a: string, b: string, c: string)
    requires Unquoted(a) && Unquoted(b) && Unquoted(c)
    ensures Reads(a + (Quote(b) + c), [b])
  {
    var x := a + (Quote(b) + c);
    forall y ensures Literals(x + y) == [b] + Literals(y) {
      Regroup(a, Quote(b) + c, y);
      Regroup(Quote(b), c, y);
      UnquotedHasNone(a, Quote(b) + (c + y));
      QuoteIsOne(b, c + y);
      UnquotedHasNone(c, y);
    }
    assert Literals(x + "") == [b] + Literals("") && x + "" == x;
  }

  lemma FinishedAppend(x: string, y: string)
    requires Finished(x) && Finished(y)
    ensures Finished(x + y) && Literals(x + y) == Literals(x) + Literals(y)
  {
    forall z ensures Literals(x + y + z) == Literals(x + y) + Literals(z) {
      Regroup(x, y, z);
    }
  }

  /** The text is finished and has these literals. */
  ghost predicate Reads(x: string, literals: seq<string>) {
    Finished(x) && Literals(x) == literals
  }

  lemma ReadsAppend(x: string, literals: seq<string>, y: string, literals': seq<string>)
    requires Reads(x, literals) && Reads(y, literals')
    ensures Reads(x + y, literals + literals')
  {
    FinishedAppend(x, y);
  }

  lemma ReadsThree(x: string, y: string, literals: seq<string>, z: string, literals': seq<string>)
    requires Reads(x, []) && Reads(y, literals) && Reads(z, literals')
    ensures Reads(x + y + z, literals + literals')
  {
    ReadsAppend(x, [], y, literals);
    assert [] + literals == literals;
    ReadsAppend(x + y, literals, z, literals');
  }

  // ----- Printing keeps literals -----

  lemma {:induction false} PiecesUnquoted(s: string)
    requires Unquoted(s)
    ensures forall p :: p in Split(s) ==> Unquoted(p)
  {
    if s == "" {
    } else {
      PiecesUnquoted(s[1..]);
      var rest := Split(s[1..]);
      assert rest[0] in rest;
    }
  }

  lemma {:induction false} NonEmptyOf(pieces: seq<string>)
    ensures forall p :: p in NonEmpty(pieces) ==> p in pieces
  {
    if pieces == [] {
    } else {
      NonEmptyOf(pieces[1..]);
    }
  }

  lemma {:induction false} SpacesUnquoted(n: nat)
    ensures Unquoted(Spaces(n))
  {
    if n == 0 {
    } else {
      SpacesUnquoted(n - 1);
    }
  }

  lemma UnquotedSum(a: string, b: string)
    requires Unquoted(a) && Unquoted(b)
    ensures Unquoted(a + b)
  {
  }

  lemma {:induction false} EmitUnquoted(n: nat, lines: seq<string>)
    requires forall l :: l in lines ==> Unquoted(l)
    ensures Unquoted(Emit(n, lines))
  {
    if lines == [] {
    } else {
      SpacesUnquoted(n);
      EmitUnquoted(n, lines[1..]);
      UnquotedSum(Spaces(n), lines[0]);
      UnquotedSum(Spaces(n) + lines[0], "\n");
      UnquotedSum(Spaces(n) + lines[0] + "\n", Emit(n, lines[1..]));
    }
  }

  lemma PrintedUnquoted(n: nat, s: string)
    requires Unquoted(s)
    ensures Unquoted(Printed(n, s))
  {
    PiecesUnquoted(s);
    NonEmptyOf(Split(s));
    EmitUnquoted(n, Lines(s));
  }

  /** Splitting text that begins with a line x and goes on with y. */
  lemma {:induction false} SplitLine(x: string, y: string)
    requires OneLine(x)
    ensures Split(x + y) == [x + Split(y)[0]] + Split(y)[1..]
  {
    if x == "" {
      assert x + y == y && "" + Split(y)[0] == Split(y)[0];
    } else {
      assert (x + y)[0] == x[0] && (x + y)[1..] == x[1..] + y;
      SplitLine(x[1..], y);
      assert [x[0]] + (x[1..] + Split(y)[0]) == x + Split(y)[0];
    }
  }

  /** One more character in front. */
  function Cons(c: char, pieces: seq<string>): seq<string>
    requires pieces != []
  {
    if c == '\n' then [""] + pieces else [[c] + pieces[0]] + pieces[1..]
  }

  /** The last of the first pieces joined with the first of the others. */
  function Merge(p: seq<string>, q: seq<string>): seq<string>
    requires p != [] && q != []
  {
    p[..|p| - 1] + [p[|p| - 1] + q[0]] + q[1..]
  }

  lemma ConsMerge(c: char, p: seq<string>, q: seq<string>)
    requires p != [] && q != []
    ensures Cons(c, Merge(p, q)) == Merge(Cons(c, p), q)
  {
    if c == '\n' {
      assert ([""] + p)[..|p|] == [""] + p[..|p| - 1];
    } else if |p| == 1 {
      assert [c] + (p[0] + q[0]) == [c] + p[0] + q[0];
    } else {
      assert p[..|p| - 1][1..] == p[1..][..|p| - 2];
    }
  }

  lemma {:induction false} SplitAppend(a: string, y: string)
    ensures Split(a + y) == Merge(Split(a), Split(y))
  {
    if a == "" {
      assert a + y == y && "" + Split(y)[0] == Split(y)[0];
    } else {
      assert (a + y)[0] == a[0] && (a + y)[1..] == a[1..] + y;
      SplitAppend(a[1..], y);
      ConsMerge(a[0], Split(a[1..]), Split(y));
      assert Split(a + y) == Cons(a[0], Split(a[1..] + y)) && Split(a) == Cons(a[0], Split(a[1..]));
    }
  }

  /** Printing a quoted text with unquoted surroundings prints that quoted text and nothing else quoted. */
  lemma PrintedQuote(n: nat, a: string, b: string, c: string)
    requires Unquoted(a) && Unquoted(b) && Unquoted(c) && OneLine(b)
    ensures Reads(Printed(n, a + (Quote(b) + c)), [b])
  {
    var p, q := Split(a), Split(c);
    var last := |p| - 1;
    var line := p[last] + (Quote(b) + q[0]);
    SplitLine(Quote(b), c);
    SplitAppend(a, Quote(b) + c);
    assert Split(a + (Quote(b) + c)) == p[..last] + [line] + q[1..];
    NonEmptyAppend(p[..last] + [line], q[1..]);
    NonEmptyAppend(p[..last], [line]);
    assert NonEmpty([line]) == [line];
    var above, below := NonEmpty(p[..last]), NonEmpty(q[1..]);
    EmitAppend(n, above + [line], below);
    EmitAppend(n, above, [line]);
    EmitOne(n, line);
    PiecesUnquoted(a);
    PiecesUnquoted(c);
    NonEmptyOf(p[..last]);
    NonEmptyOf(q[1..]);
    EmitUnquoted(n, above);
    EmitUnquoted(n, below);
    SpacesUnquoted(n);
    assert p[last] in p && q[0] in q;
    var head, tail := Emit(n, above) + (Spaces(n) + p[last]), q[0] + ("\n" + Emit(n, below));
    Surround(Emit(n, above), Spaces(n), p[last], Quote(b), q[0], Emit(n, below));
    UnquotedSum(Spaces(n), p[last]);
    UnquotedSum(Emit(n, above), Spaces(n) + p[last]);
    UnquotedSum("\n", Emit(n, below));
    UnquotedSum(q[0], "\n" + Emit(n, below));
    QuoteFinished(head, b, tail);
  }

  lemma EmitOne(n: nat, line: string)
    ensures Emit(n, [line]) == Spaces(n) + line + "\n"
  {
    assert [line][1..] == [];
    assert Emit(n, [line]) == Spaces(n) + line + "\n" + Emit(n, []);
  }

  lemma Surround(above: string, spaces: string, a: string, q: string, c: string, below: string)
    ensures above + (spaces + (a + (q + c)) + "\n") + below == above + (spaces + a) + (q + (c + ("\n" + below)))
  {
  }

  // ----- The literals of a service and of its client -----

  function Urls(arms: seq<Arm>): (urls: seq<string>)
    ensures |urls| == |arms| && forall j :: 0 <= j < |arms| ==> urls[j] == arms[j].url
  {
    seq(|arms|, j requires 0 <= j < |arms| => arms[j].url)
  }

  predicate UnquotedVars(vars: Vars) {
    forall v :: v in vars ==> Unquoted(v.1)
  }

  lemma {:induction false} ValueUnquoted(vars: Vars, name: string)
    requires UnquotedVars(vars) && Unquoted(name)
    ensures Unquoted(Value(vars, name))
  {
    if vars == [] {
    } else {
      ValueUnquoted(vars[1..], name);
    }
  }

  lemma {:induction false} TextUnquoted(t: Template, vars: Vars)
    requires Quiet(t) && UnquotedVars(vars)
    ensures Unquoted(Text(t, vars))
  {
    match t
    case End(_) =>
    case Then(lit, name, rest) =>
      ValueUnquoted(vars, name);
      TextUnquoted(rest, vars);
      UnquotedSum(lit, Value(vars, name));
      UnquotedSum(lit + Value(vars, name), Text(rest, vars));
  }

  lemma VarsUnquoted(svc: Service, rpc: Rpc)
    requires OneOf(svc, rpc)
    ensures UnquotedVars(MethodVars(svc, rpc)) && UnquotedVars(ServiceVars(svc))
  {
    assert Unquoted("fabricrpc") && Unquoted(".");
    UnquotedSum(svc.package, ".");
  }

  lemma TestLiterals(n: nat, url: string)
    requires Unquoted(url) && OneLine(url)
    ensures Reads(Printed(n, TestText(url)), [url])
  {
    assert TestText(url) == "if (url == " + (Quote(url) + ") {\n");
    PrintedQuote(n, "if (url == ", url, ") {\n");
  }

  lemma LinkLiterals(n: nat, first: bool)
    ensures Reads(if first then "" else Printed(n, "else "), [])
  {
    PrintedUnquoted(n, "else ");
    UnquotedFinished(if first then "" else Printed(n, "else "));
  }

  /** The url is the only literal of an arm. */
  lemma ArmLiterals(w: Wording, n: nat, svc: Service, arm: Arm, first: bool)
    requires Fits(w) && OneOf(svc, arm.rpc) && Unquoted(arm.url) && OneLine(arm.url)
    ensures Reads(ArmText(w, n, svc, arm, first), [arm.url])
  {
    LinkLiterals(n, first);
    TestLiterals(n, arm.url);
    BindFinished(w, n, svc, arm.rpc);
    ReadsThree(if first then "" else Printed(n, "else "), Printed(n, TestText(arm.url)), [arm.url],
      BindText(w, n, svc, arm.rpc), []);
  }

  lemma BindFinished(w: Wording, n: nat, svc: Service, rpc: Rpc)
    requires Fits(w) && OneOf(svc, rpc)
    ensures Reads(BindText(w, n, svc, rpc), [])
  {
    var vars := MethodVars(svc, rpc);
    VarsUnquoted(svc, rpc);
    TextUnquoted(w.bind, vars);
    PrintedUnquoted(n + 1, Text(w.bind, vars));
    PrintedUnquoted(n, "}");
    UnquotedSum(Printed(n + 1, Text(w.bind, vars)), Printed(n, "}"));
    UnquotedFinished(BindText(w, n, svc, rpc));
  }

  /** The url is the only literal of a stub pair. */
  lemma StubLiterals(w: Wording, n: nat, svc: Service, arm: Arm)
    requires Fits(w) && OneOf(svc, arm.rpc) && Unquoted(arm.url) && OneLine(arm.url)
    ensures Reads(StubText(w, n, svc, arm), [arm.url])
  {
    var vars := MethodVars(svc, arm.rpc);
    VarsUnquoted(svc, arm.rpc);
    TextUnquoted(w.beginHead, vars);
    TextUnquoted(w.end, vars);
    PrintedQuote(n, Text(w.beginHead, vars), arm.url, w.beginTail);
    PrintedUnquoted(n, Text(w.end, vars));
    UnquotedFinished(Printed(n, Text(w.end, vars)));
    ReadsAppend(Printed(n, Text(w.beginHead, vars) + (Quote(arm.url) + w.beginTail)), [arm.url],
      Printed(n, Text(w.end, vars)), []);
  }

  ghost predicate OwnArms(svc: Service, arms: seq<Arm>) {
    forall j :: 0 <= j < |arms| ==> OneOf(svc, arms[j].rpc) && Unquoted(arms[j].url) && OneLine(arms[j].url)
  }

  lemma ReadsArms(x: string, y: string, arms: seq<Arm>)
    requires arms != []
    requires var last := |arms| - 1; Reads(x, Urls(arms[..last])) && Reads(y, [arms[last].url])
    ensures Reads(x + y, Urls(arms))
  {
    var last := |arms| - 1;
    ReadsAppend(x, Urls(arms[..last]), y, [arms[last].url]);
    assert Urls(arms[..last]) + [arms[last].url] == Urls(arms);
  }

  lemma {:induction false} ChainLiterals(w: Wording, n: nat, svc: Service, arms: seq<Arm>)
    requires Fits(w) && OwnArms(svc, arms)
    ensures Reads(ChainText(w, n, svc, arms), Urls(arms))
  {
    if arms == [] {
      UnquotedFinished("");
    } else {
      var last := |arms| - 1;
      ChainLiterals(w, n, svc, arms[..last]);
      ArmLiterals(w, n, svc, arms[last], last == 0);
      ReadsArms(ChainText(w, n, svc, arms[..last]), ArmText(w, n, svc, arms[last], last == 0), arms);
    }
  }

  lemma {:induction false} StubsLiterals(w: Wording, n: nat, svc: Service, arms: seq<Arm>)
    requires Fits(w) && OwnArms(svc, arms)
    ensures Reads(StubsText(w, n, svc, arms), Urls(arms))
  {
    if arms == [] {
      UnquotedFinished("");
    } else {
      var last := |arms| - 1;
      StubsLiterals(w, n, svc, arms[..last]);
      StubLiterals(w, n, svc, arms[last]);
      ReadsArms(StubsText(w, n, svc, arms[..last]), StubText(w, n, svc, arms[last]), arms);
    }
  }

  lemma ArmsOwn(svc: Service)
    requires Declared(svc)
    ensures OwnArms(svc, Arms(svc))
  {
    forall j | 0 <= j < |svc.methods| ensures Unquoted(Arms(svc)[j].url) && OneLine(Arms(svc)[j].url) {
      UrlLetters(svc, svc.methods[j].name);
    }
  }

  lemma HeadLiterals(t: Template, n: nat, svc: Service)
    requires Quiet(t) && Declared(svc)
    ensures Reads(Printed(n, Text(t, ServiceVars(svc))), [])
  {
    VarsUnquoted(svc, svc.methods[0]);
    TextUnquoted(t, ServiceVars(svc));
    PrintedUnquoted(n, Text(t, ServiceVars(svc)));
    UnquotedFinished(Printed(n, Text(t, ServiceVars(svc))));
  }

  lemma TailLiterals(w: Wording, n: nat)
    requires Fits(w)
    ensures Reads(TailText(w, n), [w.complaint])
  {
    PrintedQuote(n + 1, w.otherwiseHead, w.complaint, w.otherwiseTail);
    PrintedUnquoted(n + 1, w.success);
    PrintedUnquoted(n, "}");
    UnquotedFinished(Printed(n + 1, w.success));
    UnquotedFinished(Printed(n, "}"));
    ReadsAppend(Printed(n + 1, Otherwise(w)), [w.complaint], Printed(n + 1, w.success), []);
    ReadsAppend(Printed(n + 1, Otherwise(w)) + Printed(n + 1, w.success), [w.complaint], Printed(n, "}"), []);
  }

  /** The string literals of a printed service are the urls of its methods, in order, and the complaint. */
  lemma ServiceReadsBack(w: Wording, n: nat, svc: Service)
    requires Fits(w) && Declared(svc)
    ensures Literals(ServiceText(w, n, svc)) == Urls(Arms(svc)) + [w.complaint]
  {
    HeadLiterals(w.signature, n, svc);
    ArmsOwn(svc);
    ChainLiterals(w, n + 1, svc, Arms(svc));
    TailLiterals(w, n);
    ReadsThree(Printed(n, Text(w.signature, ServiceVars(svc))), ChainText(w, n + 1, svc, Arms(svc)), Urls(Arms(svc)),
      TailText(w, n), [w.complaint]);
  }

  /** The string literals of a printed client are the same urls, in the same order. */
  lemma ClientReadsBack(w: Wording, n: nat, svc: Service)
    requires Fits(w) && Declared(svc)
    ensures Literals(ClientText(w, n, svc)) == Urls(Arms(svc))
  {
    HeadLiterals(w.client, n, svc);
    ArmsOwn(svc);
    StubsLiterals(w, n, svc, Arms(svc));
    ReadsAppend(Printed(n, Text(w.client, ServiceVars(svc))), [], StubsText(w, n, svc, Arms(svc)), Urls(Arms(svc)));
    assert [] + Urls(Arms(svc)) == Urls(Arms(svc));
  }

  /** The first literal that equals the url: how a printed chain decides. */
  function FirstEqual(literals: seq<string>, url: string, j: nat): Option<nat>
    decreases |literals| - j
  {
    if j >= |literals| then None else if literals[j] == url then Some(j) else FirstEqual(literals, url, j + 1)
  }

  lemma {:induction false} FirstEqualIs(literals: seq<string>, url: string, k: nat, j: nat)
    requires k <= j < |literals| && literals[j] == url && forall i :: k <= i < j ==> literals[i] != url
    ensures FirstEqual(literals, url, k) == Some(j)
    decreases j - k
  {
    if k == j {
    } else {
      FirstEqualIs(literals, url, k + 1, j);
    }
  }

  /** Text against text: comparing the j-th url of the printed client with the literals of the printed
      service, one after the other as its chain does, stops at the j-th. */
  lemma PrintedStubsReachPrintedArms(w: Wording, n: nat, n': nat, svc: Service, j: nat)
    requires Fits(w) && Declared(svc) && j < |svc.methods|
    ensures var service, client := Literals(ServiceText(w, n, svc)), Literals(ClientText(w, n', svc));
      |client| == |svc.methods| && FirstEqual(service, client[j], 0) == Some(j)
  {
    ServiceReadsBack(w, n, svc);
    ClientReadsBack(w, n', svc);
    var service := Literals(ServiceText(w, n, svc));
    forall i: nat | i < j ensures service[i] != Arms(svc)[j].url {
      UrlDecodes(svc, svc.methods[i].name, svc, svc.methods[j].name);
    }
    FirstEqualIs(service, Arms(svc)[j].url, 0, j);
  }

  /** Both printed texts of a service, each by a printer of its own. */
  method PrintBoth(w: Wording, svc: Service) returns (service: string, client: string)
    requires Fits(w) && Declared(svc)
    ensures Literals(service) == Urls(Arms(svc)) + [w.complaint] && Literals(client) == Urls(Arms(svc))
  {
    var p := new Printer();
    PrintCCService(p, w, svc);
    service := p.output;
    EmptyBefore(ServiceText(w, 0, svc));
    ServiceReadsBack(w, 0, svc);
    var q := new Printer();
    PrintCCClientService(q, w, svc);
    client := q.output;
    EmptyBefore(ClientText(w, 0, svc));
    ClientReadsBack(w, 0, svc);
  }

  lemma EmptyBefore(s: string)
    ensures "" + s == s
  {
  }
}
