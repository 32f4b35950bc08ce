/** The generated text: for every service the if/else chain of its urls, and the client stubs. */
module Generator {
  import opened Texts
  import opened Substitution
  import opened SubstitutionPasses
  import opened SubstitutionOrder
  import opened Printers
  import opened Routes

  // ----- The variables -----

  /** The generator's variables for one method, in the order of a std::map. */
  function MethodVars(svc: Service, rpc: Rpc): Vars {
    [("Method", rpc.name), ("Namespace", if svc.package == "" then "fabricrpc" else svc.package),
      ("Package", Prefix(svc.package)),
     ("Request", rpc.request), ("Response", rpc.response), ("Service", svc.name)]
  }

  /** The variables before the first method. */
  function ServiceVars(svc: Service): Vars {
    [("Namespace", if svc.package == "" then "fabricrpc" else svc.package), ("Package", Prefix(svc.package)),
      ("Service", svc.name)]
  }

  /** Variables' names are made of letters, so text with a character below the letters is no name. */
  predicate Marked(s: string) {
    exists i :: 0 <= i < |s| && s[i] < 'A'
  }

  predicate Named(vars: Vars) {
    PlainVars(vars) && Distinct(vars) && forall v :: v in vars ==> !Marked(v.0)
  }

  predicate OneOf(svc: Service, rpc: Rpc) {
    Declared(svc) && Identifier(rpc.name) && Identifier(rpc.request) && Identifier(rpc.response)
  }

  predicate GoodName(name: string) {
    name != "" && !Marked(name)
  }

  predicate GoodNames(names: seq<string>) {
    && (forall i :: 0 <= i < |names| ==> GoodName(names[i]))
    && (forall i, j :: 0 <= i < j < |names| ==> names[i] != names[j])
  }

  lemma NamedBy(names: seq<string>, vars: Vars)
    requires GoodNames(names) && |vars| == |names|
    requires forall i :: 0 <= i < |vars| ==> vars[i].0 == names[i] && Plain(vars[i].1)
    ensures Named(vars)
  {
  }

  lemma GeneratorLetters()
    ensures GoodName("Method") && GoodName("Namespace") && GoodName("Package")
    ensures GoodName("Request") && GoodName("Response") && GoodName("Service")
  {
  }

  lemma GeneratorNames()
    ensures GoodNames(["Method", "Namespace", "Package", "Request", "Response", "Service"])
    ensures GoodNames(["Namespace", "Package", "Service"])
  {
    GeneratorLetters();
    Six("Method", "Namespace", "Package", "Request", "Response", "Service");
  }

  lemma Six(a: string, b: string, c: string, d: string, e: string, f: string)
    requires GoodName(a) && GoodName(b) && GoodName(c) && GoodName(d) && GoodName(e) && GoodName(f)
    requires a != b && a != c && a != d && a != e && a != f && b != c && b != d && b != e && b != f
    requires c != d && c != e && c != f && d != e && d != f && e != f
    ensures GoodNames([a, b, c, d, e, f]) && GoodNames([b, c, f])
  {
  }

  lemma PackagePlain(svc: Service)
    requires Declared(svc)
    ensures Plain(Prefix(svc.package))
  {
  }

  lemma VarsNamed(svc: Service, rpc: Rpc)
    requires OneOf(svc, rpc)
    ensures Named(MethodVars(svc, rpc)) && Named(ServiceVars(svc))
  {
    GeneratorNames();
    PackagePlain(svc);
    NamedBy(["Method", "Namespace", "Package", "Request", "Response", "Service"], MethodVars(svc, rpc));
    NamedBy(["Namespace", "Package", "Service"], ServiceVars(svc));
  }

  /** What a name stands for; unknown names stay placeholders. */
  function Value(vars: Vars, name: string): string {
    if vars == [] then Placeholder(name)
    else if vars[0].0 == name then vars[0].1
    else Value(vars[1..], name)
  }

  /** The text a template stands for. */
  function Text(t: Template, vars: Vars): string {
    match t
    case End(lit) => lit
    case Then(lit, name, rest) => lit + Value(vars, name) + Text(rest, vars)
  }

  lemma {:induction false} ValueIsExpansion(vars: Vars, name: string)
    requires Distinct(vars)
    ensures Value(vars, name) == Expansion(name, MapOf(vars))
  {
    if vars == [] {
    } else {
      ValueIsExpansion(vars[1..], name);
      KeysOf(vars[1..], vars[0].0);
    }
  }

  lemma {:induction false} TextIsSimultaneous(t: Template, vars: Vars)
    requires Distinct(vars)
    ensures Render(Simultaneous(t, MapOf(vars))) == Text(t, vars)
  {
    if t.End? {
    } else {
      TextIsSimultaneous(t.rest, vars);
      ValueIsExpansion(vars, t.name);
      if t.name in MapOf(vars) {
        RenderPrepend(t.lit + MapOf(vars)[t.name], Simultaneous(t.rest, MapOf(vars)));
      }
    }
  }

  // ----- Templates whose placeholders never run together -----

  /** Between neighbouring placeholders there is a mark, or nothing, and after nothing comes a mark. */
  predicate Separated(t: Template) {
    t.Then? ==>
      && Separated(t.rest)
      && (t.rest.Then? ==> Marked(t.rest.lit) || (t.rest.lit == "" && (t.rest.rest.Then? ==> Marked(t.rest.rest.lit))))
  }

  lemma {:induction false} MarkedGaps(t: Template, text: string, m: map<string, string>)
    requires forall k :: k in m ==> !Marked(k)
    requires t.Then? ==> Marked(text + t.lit)
    ensures GapsApart(t, text, m)
  {
    if t.End? {
    } else {
      var text' := text + t.lit + Expansion(t.name, m);
      assert Marked(text') by {
        assert forall i :: 0 <= i < |text + t.lit| ==> (text + t.lit)[i] == text'[i];
      }
      assert t.rest.Then? ==> forall i :: 0 <= i < |text'| ==> text'[i] == (text' + t.rest.lit)[i];
      MarkedGaps(t.rest, text', m);
    }
  }

  lemma {:induction false} SeparatedIsApart(t: Template, m: map<string, string>)
    requires Separated(t) && "" !in m && forall k :: k in m ==> !Marked(k)
    ensures Apart(t, m)
  {
    if t.End? {
    } else {
      SeparatedIsApart(t.rest, m);
      if t.rest.Then? {
        assert "" + t.rest.lit == t.rest.lit;
        if t.rest.lit == "" {
          var text := "" + "" + Expansion(t.rest.name, m);
          assert t.rest.rest.Then? ==> forall i ::
            0 <= i < |t.rest.rest.lit| ==> t.rest.rest.lit[i] == (text + t.rest.rest.lit)[|text| + i];
          MarkedGaps(t.rest.rest, text, m);
        } else {
          MarkedGaps(t.rest, "", m);
        }
      }
    }
  }

  /** A template whose placeholders are separated prints as the text it stands for. */
  lemma TemplateIsWritten(t: Template, vars: Vars)
    requires WellFormed(t) && Separated(t) && Named(vars)
    ensures ReplaceVars(Render(t), vars) == Text(t, vars)
  {
    Keys(vars);
    SeparatedIsApart(t, MapOf(vars));
    ApartIsUnambiguous(t, MapOf(vars));
    AnyOrderSubstitutes(t, MapOf(vars), vars);
    TextIsSimultaneous(t, vars);
  }

  predicate Usable(t: Template) {
    WellFormed(t) && Separated(t)
  }

  lemma {:induction false} JoinReads(t: Template, u: Template, vars: Vars)
    ensures Render(Join(t, u)) == Render(t) + Render(u) && Text(Join(t, u), vars) == Text(t, vars) + Text(u, vars)
  {
    match t
    case End(lit) =>
      RenderPrepend(lit, u);
      if u.Then? {
        Regroup(lit, u.lit, Value(vars, u.name));
        Regroup(lit, u.lit + Value(vars, u.name), Text(u.rest, vars));
      }
    case Then(lit, name, rest) =>
      JoinReads(rest, u, vars);
      Regroup(lit + Placeholder(name), Render(rest), Render(u));
      Regroup(lit + Value(vars, name), Text(rest, vars), Text(u, vars));
  }

  lemma {:induction false} JoinUsable(t: Template, u: Template)
    requires Usable(t) && Usable(u) && (u.Then? ==> Marked(u.lit))
    ensures Usable(Join(t, u))
  {
    match t
    case End(lit) =>
      assert forall i :: 0 <= i < |u.lit| ==> u.lit[i] == (lit + u.lit)[|lit| + i];
    case Then(lit, name, rest) =>
      JoinUsable(rest, u);
      LastMarked(rest, u);
      if rest.Then? {
        LastMarked(rest.rest, u);
        assert Join(rest, u) == Then(rest.lit, rest.name, Join(rest.rest, u));
        assert rest.rest.Then? ==> Join(rest.rest, u).lit == rest.rest.lit;
      }
  }

  lemma LastMarked(t: Template, u: Template)
    requires u.Then? ==> Marked(u.lit)
    ensures t.End? && u.Then? ==> Marked(Join(t, u).lit)
  {
    assert forall i :: 0 <= i < |u.lit| ==> u.lit[i] == (t.lit + u.lit)[|t.lit| + i];
  }

  /** The same when the printer adds the newline. */
  lemma LineIsWritten(t: Template, vars: Vars, indent: nat)
    requires Usable(t) && Named(vars)
    ensures Printed(indent, ReplaceVars(Render(t) + "\n", vars)) == Printed(indent, Text(t, vars))
  {
    JoinReads(t, End("\n"), vars);
    JoinUsable(t, End("\n"));
    TemplateIsWritten(Join(t, End("\n")), vars);
    PrintAppend(indent, Text(t, vars), "");
  }

  /** A url, wherever a template spells it, with what follows. */
  function UrlThen(tail: Template): Template {
    Then("/", "Package", Then("", "Service", Then("/", "Method", tail)))
  }

  lemma UrlUsable(tail: Template)
    requires Usable(tail) && (tail.Then? ==> Marked(tail.lit))
    ensures Usable(UrlThen(tail)) && Marked("/")
  {
    assert "/"[0] == '/';
    GeneratorLetters();
    var last := Then("/", "Method", tail);
    assert Usable(last);
    assert Usable(Then("", "Service", last));
  }

  lemma UrlReads(tail: Template, svc: Service, rpc: Rpc)
    requires OneOf(svc, rpc)
    ensures Text(UrlThen(tail), MethodVars(svc, rpc)) == Url(svc, rpc.name) + Text(tail, MethodVars(svc, rpc))
  {
    var vars := MethodVars(svc, rpc);
    Lookups(svc, rpc);
    var last, rest := Then("/", "Method", tail), Text(tail, vars);
    assert Text(last, vars) == "/" + rpc.name + rest;
    assert Text(Then("", "Service", last), vars) == "" + svc.name + ("/" + rpc.name + rest);
    assert Text(UrlThen(tail), vars) == "/" + Prefix(svc.package) + ("" + svc.name + ("/" + rpc.name + rest));
  }

  lemma {:induction false} ValueAt(vars: Vars, i: nat)
    requires Distinct(vars) && i < |vars|
    ensures Value(vars, vars[i].0) == vars[i].1
  {
    if i == 0 {
    } else {
      ValueAt(vars[1..], i - 1);
    }
  }

  lemma Lookups(svc: Service, rpc: Rpc)
    requires OneOf(svc, rpc)
    ensures var vars := MethodVars(svc, rpc);
      Value(vars, "Package") == Prefix(svc.package) && Value(vars, "Service") == svc.name &&
        Value(vars, "Method") == rpc.name
  {
    var vars := MethodVars(svc, rpc);
    VarsNamed(svc, rpc);
    ValueAt(vars, 0);
    ValueAt(vars, 2);
    ValueAt(vars, 5);
  }

  /** Wherever a generator template spells the url, in the server's chain or in a client stub, the
      printer writes the same url: the one of package, service and method. */
  lemma UrlIsWritten(head: Template, tail: Template, svc: Service, rpc: Rpc)
    requires Usable(head) && Usable(tail) && (tail.Then? ==> Marked(tail.lit)) && OneOf(svc, rpc)
    ensures var vars := MethodVars(svc, rpc);
      Usable(Join(head, UrlThen(tail)))
      && ReplaceVars(Render(Join(head, UrlThen(tail))), vars) ==
        Text(head, vars) + (Url(svc, rpc.name) + Text(tail, vars))
      == Text(Join(head, UrlThen(tail)), vars)
  {
    var vars := MethodVars(svc, rpc);
    VarsNamed(svc, rpc);
    UrlUsable(tail);
    JoinUsable(head, UrlThen(tail));
    JoinReads(head, UrlThen(tail), vars);
    UrlReads(tail, svc, rpc);
    TemplateIsWritten(Join(head, UrlThen(tail)), vars);
  }

  // ----- The generated text -----

  predicate Unquoted(s: string) {
    '"' !in s
  }

  /** Literals and names without quotes. */
  predicate Quiet(t: Template) {
    Unquoted(t.lit) && (t.Then? ==> Unquoted(t.name) && Quiet(t.rest))
  }

  predicate Proper(t: Template) {
    Usable(t) && Quiet(t)
  }

  /** The generator's fixed wording. Its only quoted texts are the urls and the complaint at the end of a
      chain, which are kept apart from what surrounds them. */
  datatype Wording = Wording(
    signature: Template, bind: Template, otherwiseHead: string, complaint: string, otherwiseTail: string,
      success: string,
    client: Template, beginHead: Template, beginTail: string, end: Template)

  predicate Fits(w: Wording) {
    && Proper(w.signature) && Proper(w.bind) && Proper(w.client) && Proper(w.beginHead) && Proper(w.end)
    && Plain(w.beginTail) && Unquoted(w.beginTail)
    && Unquoted(w.otherwiseHead) && Unquoted(w.complaint) && Unquoted(w.otherwiseTail) && Unquoted(w.success)
    && OneLine(w.complaint)
  }

  function Quote(s: string): string {
    "\"" + s + "\""
  }

  /** The arm that ends the chain. */
  function Otherwise(w: Wording): string {
    w.otherwiseHead + (Quote(w.complaint) + w.otherwiseTail)
  }

  function CallHead(w: Wording): Template {
    Join(w.beginHead, End("\""))
  }

  function CallTail(w: Wording): Template {
    End("\"" + w.beginTail)
  }

  function TestHead(): Template {
    End("if (url == \"")
  }

  function TestTail(): Template {
    End("\") {\n")
  }

  function TestText(url: string): string {
    "if (url == \"" + (url + "\") {\n")
  }

  /** What the arm does, and its closing brace. */
  function BindText(w: Wording, n: nat, svc: Service, rpc: Rpc): string {
    Printed(n + 1, Text(w.bind, MethodVars(svc, rpc))) + Printed(n, "}")
  }

  /** One arm, printed. */
  function ArmText(w: Wording, n: nat, svc: Service, arm: Arm, first: bool): string {
    (if first then "" else Printed(n, "else ")) + Printed(n, TestText(arm.url)) + BindText(w, n, svc, arm.rpc)
  }

  function ChainText(w: Wording, n: nat, svc: Service, arms: seq<Arm>): string {
    if arms == [] then ""
    else
      var last := |arms| - 1;
      ChainText(w, n, svc, arms[..last]) + ArmText(w, n, svc, arms[last], last == 0)
  }

  /** What follows the last arm. */
  function TailText(w: Wording, n: nat): string {
    Printed(n + 1, Otherwise(w)) + Printed(n + 1, w.success) + Printed(n, "}")
  }

  /** A service's Route function: the printed form of its chain. */
  function ServiceText(w: Wording, n: nat, svc: Service): string {
    Printed(n, Text(w.signature, ServiceVars(svc))) + ChainText(w, n + 1, svc, Arms(svc)) + TailText(w, n)
  }

  /** One stub pair; begin sends the url of its arm. */
  function StubText(w: Wording, n: nat, svc: Service, arm: Arm): string {
    var vars := MethodVars(svc, arm.rpc);
    Printed(n, Text(w.beginHead, vars) + (Quote(arm.url) + w.beginTail)) + Printed(n, Text(w.end, vars))
  }

  function StubsText(w: Wording, n: nat, svc: Service, arms: seq<Arm>): string {
    if arms == [] then ""
    else StubsText(w, n, svc, arms[..|arms| - 1]) + StubText(w, n, svc, arms[|arms| - 1])
  }

  /** A service's client. */
  function ClientText(w: Wording, n: nat, svc: Service): string {
    Printed(n, Text(w.client, ServiceVars(svc))) + StubsText(w, n, svc, Arms(svc))
  }

  lemma TestIsWritten(svc: Service, rpc: Rpc)
    requires OneOf(svc, rpc)
    ensures ReplaceVars(Render(Join(TestHead(), UrlThen(TestTail()))), MethodVars(svc, rpc)) ==
      TestText(Url(svc, rpc.name))
  {
    UrlIsWritten(TestHead(), TestTail(), svc, rpc);
  }

  lemma QuotedInside(a: string, b: string, c: string)
    ensures a + "\"" + (b + ("\"" + c)) == a + (Quote(b) + c)
  {
  }

  lemma StubIsWritten(w: Wording, n: nat, svc: Service, rpc: Rpc)
    requires Fits(w) && OneOf(svc, rpc)
    ensures var vars := MethodVars(svc, rpc);
      Printed(n, ReplaceVars(Render(Join(CallHead(w), UrlThen(CallTail(w)))) + "\n", vars)) +
        Printed(n, ReplaceVars(Render(w.end) + "\n", vars))
      == StubText(w, n, svc, Arm(Url(svc, rpc.name), rpc))
  {
    var vars := MethodVars(svc, rpc);
    VarsNamed(svc, rpc);
    JoinUsable(w.beginHead, End("\""));
    JoinReads(w.beginHead, End("\""), vars);
    UrlIsWritten(CallHead(w), CallTail(w), svc, rpc);
    QuotedInside(Text(w.beginHead, vars), Url(svc, rpc.name), w.beginTail);
    LineIsWritten(Join(CallHead(w), UrlThen(CallTail(w))), vars, n);
    LineIsWritten(w.end, vars, n);
  }

  lemma ChainGrows(w: Wording, n: nat, svc: Service, arms: seq<Arm>, i: nat)
    requires i < |arms|
    ensures ChainText(w, n, svc, arms[..i + 1]) == ChainText(w, n, svc, arms[..i]) + ArmText(w, n, svc, arms[i], i == 0)
    ensures StubsText(w, n, svc, arms[..i + 1]) == StubsText(w, n, svc, arms[..i]) + StubText(w, n, svc, arms[i])
  {
    assert arms[..i + 1][..i] == arms[..i];
  }

  lemma Three(s: string, a: string, b: string, c: string)
    ensures s + a + b + c == s + (a + b + c)
  {
  }

  method PrintBinding(p: Printer, w: Wording, svc: Service, rpc: Rpc)
    requires OneOf(svc, rpc) && Fits(w)
    modifies p
    ensures p.indent == old(p.indent) && p.output == old(p.output) + BindText(w, old(p.indent), svc, rpc)
  {
    ghost var n, start, vars := p.indent, p.output, MethodVars(svc, rpc);
    VarsNamed(svc, rpc);
    TemplateIsWritten(w.bind, vars);
    p.Indent();
    p.AddVars(MethodVars(svc, rpc), Render(w.bind));
    assert p.output == start + Printed(n + 1, Text(w.bind, vars));
    p.Outdent();
    p.Add("}");
    Regroup(start, Printed(n + 1, Text(w.bind, vars)), Printed(n, "}"));
  }

  method PrintArm(p: Printer, w: Wording, svc: Service, rpc: Rpc, first: bool)
    requires OneOf(svc, rpc) && Fits(w)
    modifies p
    ensures p.indent == old(p.indent)
    ensures p.output == old(p.output) + ArmText(w, old(p.indent), svc, Arm(Url(svc, rpc.name), rpc), first)
  {
    ghost var n, start := p.indent, p.output;
    if !first {
      p.Add("else ");
    }
    ghost var link, test := if first then "" else Printed(n, "else "), Printed(n, TestText(Url(svc, rpc.name)));
    TestIsWritten(svc, rpc);
    assert p.output == start + link;
    p.AddVars(MethodVars(svc, rpc), Render(Join(TestHead(), UrlThen(TestTail()))));
    PrintBinding(p, w, svc, rpc);
    Three(start, link, test, BindText(w, n, svc, rpc));
  }

  method PrintTail(p: Printer, w: Wording)
    requires p.indent > 0
    modifies p
    ensures p.indent == old(p.indent) - 1 && p.output == old(p.output) + TailText(w, old(p.indent) - 1)
  {
    ghost var n, start := p.indent, p.output;
    p.Add(Otherwise(w));
    p.AddLn(w.success);
    p.Outdent();
    p.AddLn("}");
    Three(start, Printed(n, Otherwise(w)), Printed(n, w.success), Printed(n - 1, "}"));
  }

  method PrintStub(p: Printer, w: Wording, svc: Service, rpc: Rpc)
    requires OneOf(svc, rpc) && Fits(w)
    modifies p`output
    ensures p.output == old(p.output) + StubText(w, p.indent, svc, Arm(Url(svc, rpc.name), rpc))
  {
    ghost var start := p.output;
    var vars := MethodVars(svc, rpc);
    StubIsWritten(w, p.indent, svc, rpc);
    p.AddLnVars(vars, Render(Join(CallHead(w), UrlThen(CallTail(w)))));
    p.AddLnVars(vars, Render(w.end));
    Regroup(start, Printed(p.indent, ReplaceVars(Render(Join(CallHead(w), UrlThen(CallTail(w)))) + "\n", vars)),
      Printed(p.indent, ReplaceVars(Render(w.end) + "\n", vars)));
  }

  /** The loop over the methods, on the server's side. */
  method PrintChain(p: Printer, w: Wording, svc: Service)
    requires Declared(svc) && Fits(w)
    modifies p
    ensures p.indent == old(p.indent) && p.output == old(p.output) + ChainText(w, old(p.indent), svc, Arms(svc))
  {
    ghost var n, start, arms := p.indent, p.output, Arms(svc);
    for i := 0 to |svc.methods|
      invariant p.indent == n && p.output == start + ChainText(w, n, svc, arms[..i])
    {
      ghost var arm := Arm(Url(svc, svc.methods[i].name), svc.methods[i]);
      PrintArm(p, w, svc, svc.methods[i], i == 0);
      ChainGrows(w, n, svc, arms, i);
      Regroup(start, ChainText(w, n, svc, arms[..i]), ArmText(w, n, svc, arm, i == 0));
    }
    assert arms[..|svc.methods|] == arms;
  }

  /** The loop over the methods, on the client's side. */
  method PrintStubs(p: Printer, w: Wording, svc: Service)
    requires Declared(svc) && Fits(w)
    modifies p`output
    ensures p.output == old(p.output) + StubsText(w, p.indent, svc, Arms(svc))
  {
    ghost var n, start, arms := p.indent, p.output, Arms(svc);
    for i := 0 to |svc.methods|
      invariant p.output == start + StubsText(w, n, svc, arms[..i])
    {
      ghost var arm := Arm(Url(svc, svc.methods[i].name), svc.methods[i]);
      PrintStub(p, w, svc, svc.methods[i]);
      assert p.output == start + StubsText(w, n, svc, arms[..i]) + StubText(w, n, svc, arm);
      ChainGrows(w, n, svc, arms, i);
      Regroup(start, StubsText(w, n, svc, arms[..i]), StubText(w, n, svc, arm));
    }
    assert arms[..|svc.methods|] == arms;
  }

  /** The opening line, after which the body is indented. */
  method PrintSignature(p: Printer, w: Wording, svc: Service)
    requires Declared(svc) && Fits(w)
    modifies p
    ensures p.indent == old(p.indent) + 1
    ensures p.output == old(p.output) + Printed(old(p.indent), Text(w.signature, ServiceVars(svc)))
  {
    VarsNamed(svc, svc.methods[0]);
    LineIsWritten(w.signature, ServiceVars(svc), p.indent);
    p.AddLnVars(ServiceVars(svc), Render(w.signature));
    p.Indent();
  }

  /** The server's side of one service: what is printed is the chain that the router runs. */
  method PrintCCService(p: Printer, w: Wording, svc: Service)
    requires Declared(svc) && Fits(w)
    modifies p
    ensures p.indent == old(p.indent) && p.output == old(p.output) + ServiceText(w, old(p.indent), svc)
  {
    ghost var n, start := p.indent, p.output;
    PrintSignature(p, w, svc);
    PrintChain(p, w, svc);
    PrintTail(p, w);
    Three(start, Printed(n, Text(w.signature, ServiceVars(svc))), ChainText(w, n + 1, svc, Arms(svc)), TailText(w, n));
  }

  /** The client's side: every begin stub carries its method's url. */
  method PrintCCClientService(p: Printer, w: Wording, svc: Service)
    requires Declared(svc) && Fits(w)
    modifies p`output
    ensures p.output == old(p.output) + ClientText(w, p.indent, svc)
  {
    ghost var start := p.output;
    VarsNamed(svc, svc.methods[0]);
    TemplateIsWritten(w.client, ServiceVars(svc));
    p.AddVars(ServiceVars(svc), Render(w.client));
    PrintStubs(p, w, svc);
    Regroup(start, Printed(p.indent, Text(w.client, ServiceVars(svc))), StubsText(w, p.indent, svc, Arms(svc)));
  }
}
