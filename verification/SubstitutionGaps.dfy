/** The first misread gap of an ambiguous template, and what the passes do to it: until the pass by its own
    text comes, and everything between is filled in, nothing changes left of its end but fillings. */
module SubstitutionGaps {
  import opened Texts
  import opened Substitution
  import opened SubstitutionPasses
  import opened SubstitutionOrder

  // ----- Joined templates -----

  /** A placeholder at the end of a template. */
  function Place(name: string): Template {
    Then("", name, End(""))
  }

  function Names(t: Template): set<string> {
    if t.End? then {} else {t.name} + Names(t.rest)
  }

  lemma JoinPrepend(s: string, t: Template, u: Template)
    ensures Join(Prepend(s, t), u) == Prepend(s, Join(t, u))
  {
    if t.End? {
      PrependTwice(s, t.lit, u);
    }
  }

  lemma {:induction false} JoinAssociates(t: Template, u: Template, w: Template)
    ensures Join(Join(t, u), w) == Join(t, Join(u, w))
  {
    match t
    case End(lit) => JoinPrepend(lit, u, w);
    case Then(_, _, rest) => JoinAssociates(rest, u, w);
  }

  lemma JoinEmpty(t: Template)
    ensures Join(End(""), t) == t
  {
    assert "" + t.lit == t.lit;
  }

  lemma {:induction false} RenderJoin(t: Template, u: Template)
    ensures Render(Join(t, u)) == Render(t) + Render(u)
  {
    match t
    case End(lit) => RenderPrepend(lit, u);
    case Then(lit, name, rest) =>
      RenderJoin(rest, u);
      Regroup(lit + Placeholder(name), Render(rest), Render(u));
  }

  lemma {:induction false} SimultaneousJoin(t: Template, u: Template, m: map<string, string>)
    ensures Simultaneous(Join(t, u), m) == Join(Simultaneous(t, m), Simultaneous(u, m))
  {
    match t
    case End(lit) => SimultaneousPrepend(lit, u, m);
    case Then(lit, name, rest) =>
      SimultaneousJoin(rest, u, m);
      if name in m {
        JoinPrepend(lit + m[name], Simultaneous(rest, m), Simultaneous(u, m));
      }
  }

  lemma {:induction false} SimultaneousWellFormed(t: Template, m: map<string, string>)
    requires WellFormed(t) && PlainMap(m)
    ensures WellFormed(Simultaneous(t, m))
  {
    match t
    case End(_) =>
    case Then(_, _, rest) => SimultaneousWellFormed(rest, m);
  }

  lemma FillPrepend(s: string, t: Template, name: string, value: string)
    ensures Fill(Prepend(s, t), name, value) == Prepend(s, Fill(t, name, value))
  {
    if t.Then? && t.name == name {
      assert s + t.lit + value == s + (t.lit + value);
      PrependTwice(s, t.lit + value, Fill(t.rest, name, value));
    }
  }

  lemma {:induction false} FillMore(t: Template, m: map<string, string>, keys: set<string>, k: string)
    requires k in m && k !in keys
    ensures Fill(Simultaneous(t, Restrict(m, keys)), k, m[k]) == Simultaneous(t, Restrict(m, keys + {k}))
  {
    match t
    case End(_) =>
    case Then(lit, name, rest) =>
      FillMore(rest, m, keys, k);
      if name in Restrict(m, keys) {
        FillPrepend(lit + m[name], Simultaneous(rest, Restrict(m, keys)), k, m[k]);
      }
  }

  lemma {:induction false} CarryPrepend(s: string, lit: string, n: string, rest: Template, name: string, value: string)
    ensures Carry(s + lit, n, rest, name, value) == Prepend(s, Carry(lit, n, rest, name, value))
    decreases rest
  {
    if rest.Then? && rest.lit == name {
      CarryPrepend(s, lit, n + value + rest.name, rest.rest, name, value);
    } else {
    }
  }

  lemma SweepPrepend(s: string, t: Template, name: string, value: string)
    ensures Sweep(Prepend(s, t), name, value) == Prepend(s, Sweep(t, name, value))
  {
    if t.Then? {
      if t.name == name {
        assert s + t.lit + value == s + (t.lit + value);
        PrependTwice(s, t.lit + value, Sweep(t.rest, name, value));
      } else {
        CarryPrepend(s, t.lit, t.name, t.rest, name, value);
      }
    }
  }

  /** Left of a placeholder that nothing clashes with, a sweep only fills. */
  lemma {:induction false} SweepJoin(u: Template, w: Template, name: string, value: string)
    requires w.Then? && w.lit == "" && w.name != name && !Clash(Join(u, Place(w.name)), name)
    ensures Sweep(Join(u, w), name, value) == Join(Fill(u, name, value), Sweep(w, name, value))
  {
    match u
    case End(lit) => SweepPrepend(lit, w, name, value);
    case Then(lit, n, rest) =>
      SweepJoin(rest, w, name, value);
      if n == name {
        JoinPrepend(lit + value, Fill(rest, name, value), Sweep(w, name, value));
      } else {
        assert Join(rest, Place(w.name)).lit == Join(rest, w).lit;
      }
  }

  lemma {:induction false} ClashSplit(p: Template, f: string, w: Template, name: string)
    ensures Clash(Join(p, Then("", f, w)), name) <==>
      Clash(Join(p, Place(f)), name) || (f != name && w.Then? && w.lit == name) || Clash(w, name)
  {
    match p
    case End(_) =>
    case Then(_, _, rest) => ClashSplit(rest, f, w, name);
  }

  lemma {:induction false} ClashLast(u: Template, r: string, l: string, name: string)
    ensures Clash(Join(u, Place(r)), name) <==> Clash(Join(u, Place(l)), name)
  {
    match u
    case End(_) =>
    case Then(_, _, rest) => ClashLast(rest, r, l, name);
  }

  // ----- Parts of unambiguous templates -----

  lemma {:induction false} SafePrefix(p: Template, w: Template, first: string, text: string, between: set<string>,
      m: map<string, string>)
    requires GapsSafe(Join(p, w), first, text, between, m)
    ensures GapsSafe(p, first, text, between, m)
    ensures w.Then? && w.lit == "" ==> GapsSafe(Join(p, Place(w.name)), first, text, between, m)
  {
    match p
    case End(_) =>
    case Then(lit, name, rest) => SafePrefix(rest, w, first, text + lit + Expansion(name, m), between + {name}, m);
  }

  lemma {:induction false} UnambiguousPrefix(p: Template, w: Template, m: map<string, string>)
    requires Unambiguous(Join(p, w), m)
    ensures Unambiguous(p, m) && Unambiguous(w, m)
    ensures w.Then? && w.lit == "" ==> Unambiguous(Join(p, Place(w.name)), m)
  {
    match p
    case End(_) =>
    case Then(_, name, rest) =>
      UnambiguousPrefix(rest, w, m);
      SafePrefix(rest, w, name, "", {}, m);
  }

  // ----- The first misread gap -----

  /** A template cut at a gap: before, the placeholder first, what lies between, the placeholder last,
      and after. text is what the gap finally reads. */
  datatype Gap = Gap(before: Template, first: string, between: Template, last: string, after: Template, text: string) {
    function Left(): Template {
      Join(before, Then("", first, between))
    }

    function Whole(): Template {
      Join(Left(), Then("", last, after))
    }
  }

  /** The gap is misread, no gap ends further left, and none that starts further right ends with it. */
  ghost predicate FirstMisread(g: Gap, m: map<string, string>) {
    && Unambiguous(g.Left(), m) && Unambiguous(Join(g.between, Place(g.last)), m)
    && Names(g.between) <= m.Keys && Simultaneous(g.between, m) == End(g.text)
    && Misread(g.first, g.text, g.last, Names(g.between), m)
  }

  /** The shortest ambiguous beginning. */
  lemma {:induction false} ShortestAmbiguous(p: Template, rest: Template, m: map<string, string>)
    returns (left: Template, last: string, after: Template)
    requires Unambiguous(p, m) && !Unambiguous(Join(p, rest), m)
    ensures Join(p, rest) == Join(left, Then("", last, after))
    ensures Unambiguous(left, m) && !Unambiguous(Join(left, Place(last)), m)
    decreases rest
  {
    match rest
    case End(lit) =>
      SameGaps(p, lit, m);
      assert false;
    case Then(lit, n, rest') =>
      left := Join(p, End(lit));
      SameGaps(p, lit, m);
      JoinAssociates(p, End(lit), Then("", n, rest'));
      assert lit + "" == lit;
      if Unambiguous(Join(left, Place(n)), m) {
        JoinAssociates(left, Place(n), rest');
        JoinEmpty(rest');
        left, last, after := ShortestAmbiguous(Join(left, Place(n)), rest', m);
      } else {
        last, after := n, rest';
      }
  }

  /** Text at the end opens no gap. */
  lemma {:induction false} SameGaps(p: Template, lit: string, m: map<string, string>)
    requires Unambiguous(p, m)
    ensures Unambiguous(Join(p, End(lit)), m)
  {
    match p
    case End(_) =>
    case Then(_, name, rest) =>
      SameGaps(rest, lit, m);
      SameGap(rest, lit, name, "", {}, m);
  }

  lemma {:induction false} SameGap(p: Template, lit: string, first: string, text: string, between: set<string>,
      m: map<string, string>)
    requires GapsSafe(p, first, text, between, m)
    ensures GapsSafe(Join(p, End(lit)), first, text, between, m)
  {
    match p
    case End(_) =>
    case Then(l, name, rest) => SameGap(rest, lit, first, text + l + Expansion(name, m), between + {name}, m);
  }

  /** The last placeholder from which a gap to the end is misread. */
  lemma {:induction false} LastStart(left: Template, last: string, m: map<string, string>)
    returns (before: Template, first: string, between: Template)
    requires Unambiguous(left, m) && !Unambiguous(Join(left, Place(last)), m)
    ensures left == Join(before, Then("", first, between)) && Unambiguous(Join(between, Place(last)), m)
    ensures !GapsSafe(Join(between, Place(last)), first, "", {}, m)
  {
    var Then(lit, n, rest) := left;
    if Unambiguous(Join(rest, Place(last)), m) {
      before, first, between := End(lit), n, rest;
      assert lit + "" == lit;
    } else {
      before, first, between := LastStart(rest, last, m);
      before := Then(lit, n, before);
    }
  }

  /** What the misread gap reads. */
  lemma {:induction false} GapAtEnd(t: Template, first: string, text: string, between: set<string>, last: string,
      m: map<string, string>)
    returns (inner: string)
    requires PlainMap(m) && GapsSafe(t, first, text, between, m)
    requires !GapsSafe(Join(t, Place(last)), first, text, between, m)
    ensures Names(t) <= m.Keys && Simultaneous(t, m) == End(inner)
    ensures Misread(first, text + inner, last, between + Names(t), m)
  {
    match t
    case End(lit) =>
      inner := lit;
      assert lit + "" == lit && between + {} == between;
    case Then(lit, n, rest) =>
      var text' := text + lit + Expansion(n, m);
      if n !in m {
        assert Expansion(n, m)[0] == '$' && text'[|text + lit|] == '$';
        DollarsAreSafe(Join(rest, Place(last)), first, text', between + {n}, m);
      }
      inner := GapAtEnd(rest, first, text', between + {n}, last, m);
      assert text + (lit + m[n] + inner) == text' + inner;
      assert between + {n} + Names(rest) == between + Names(t);
      inner := lit + m[n] + inner;
  }

  lemma FindGap(t: Template, m: map<string, string>) returns (g: Gap)
    requires PlainMap(m) && !Unambiguous(t, m)
    ensures t == g.Whole() && FirstMisread(g, m)
  {
    JoinEmpty(t);
    var left, last, after := ShortestAmbiguous(End(""), t, m);
    var before, first, between := LastStart(left, last, m);
    UnambiguousPrefix(before, Then("", first, between), m);
    FirstGapSafe(before, first, between, m);
    var text := GapAtEnd(between, first, "", {}, last, m);
    assert "" + text == text && {} + Names(between) == Names(between);
    g := Gap(before, first, between, last, after, text);
  }

  lemma {:induction false} FirstGapSafe(p: Template, first: string, between: Template, m: map<string, string>)
    requires Unambiguous(Join(p, Then("", first, between)), m)
    ensures GapsSafe(between, first, "", {}, m)
  {
    match p
    case End(_) =>
    case Then(_, _, rest) => FirstGapSafe(rest, first, between, m);
  }

  // ----- Until the gap is eaten, nothing happens left of it -----

  lemma {:induction false} OnlyNames(t: Template, m: map<string, string>, keys: set<string>, keys': set<string>)
    requires forall n :: n in Names(t) ==> (n in keys <==> n in keys')
    ensures Simultaneous(t, Restrict(m, keys)) == Simultaneous(t, Restrict(m, keys'))
  {
    match t
    case End(_) =>
    case Then(_, name, rest) => OnlyNames(rest, m, keys, keys');
  }

  lemma {:induction false} AllFilled(t: Template, m: map<string, string>, keys: set<string>)
    requires Simultaneous(t, Restrict(m, keys)).End?
    ensures Names(t) <= keys && Names(t) <= m.Keys && Simultaneous(t, m) == Simultaneous(t, Restrict(m, keys))
  {
    match t
    case End(_) =>
    case Then(_, name, rest) => AllFilled(rest, m, keys);
  }

  /** No remaining variable clashes with a gap that ends at the end, whatever is called there by now. */
  lemma NoClashAtEnd(t: Template, last: string, m: map<string, string>, keys: set<string>, r: string, k: string)
    requires Unambiguous(Join(t, Place(last)), m) && last !in Names(t)
    requires keys <= m.Keys && k in m && k !in keys
    ensures !Clash(Join(Simultaneous(t, Restrict(m, keys)), Place(r)), k)
  {
    var keys' := keys - {last};
    OnlyNames(t, m, keys, keys');
    SimultaneousJoin(t, Place(last), Restrict(m, keys'));
    ClashLast(Simultaneous(t, Restrict(m, keys)), r, last, k);
    if Clash(Simultaneous(Join(t, Place(last)), Restrict(m, keys')), k) {
      ClashIsAmbiguous(Join(t, Place(last)), m, keys', k);
    }
  }

  /** The same for a gap inside an unambiguous template. */
  lemma NoClashInside(t: Template, m: map<string, string>, keys: set<string>, k: string)
    requires Unambiguous(t, m) && keys <= m.Keys && k in m && k !in keys
    ensures !Clash(Simultaneous(t, Restrict(m, keys)), k)
  {
    if Clash(Simultaneous(t, Restrict(m, keys)), k) {
      ClashIsAmbiguous(t, m, keys, k);
    }
  }

  /** The part left of the gap's last placeholder, with the variables in keys filled in. */
  function Filled(g: Gap, m: map<string, string>, keys: set<string>): Template {
    Simultaneous(g.Left(), Restrict(m, keys))
  }

  lemma FilledParts(g: Gap, m: map<string, string>, keys: set<string>)
    requires g.first !in keys
    ensures Filled(g, m, keys) ==
      Join(Simultaneous(g.before, Restrict(m, keys)), Then("", g.first, Simultaneous(g.between, Restrict(m, keys))))
  {
    SimultaneousJoin(g.before, Then("", g.first, g.between), Restrict(m, keys));
  }

  /** Nothing clashes left of the gap. */
  lemma NoClashBefore(g: Gap, m: map<string, string>, keys: set<string>, k: string)
    requires FirstMisread(g, m) && keys <= m.Keys && g.first !in keys && k in m && k !in keys
    ensures !Clash(Join(Simultaneous(g.before, Restrict(m, keys)), Place(g.first)), k)
  {
    UnambiguousPrefix(g.before, Then("", g.first, g.between), m);
    SimultaneousJoin(g.before, Place(g.first), Restrict(m, keys));
    NoClashInside(Join(g.before, Place(g.first)), m, keys, k);
  }

  /** Nothing clashes up to the end of the gap, as long as its text and its first placeholder wait. */
  lemma NoClashLeft(g: Gap, m: map<string, string>, keys: set<string>, r: string, k: string)
    requires FirstMisread(g, m) && keys <= m.Keys && g.first !in keys && g.text !in keys
    requires k in m && k !in keys && k != g.text && k != g.first
    ensures !Clash(Join(Filled(g, m, keys), Place(r)), k)
  {
    var before, between := Simultaneous(g.before, Restrict(m, keys)), Simultaneous(g.between, Restrict(m, keys));
    FilledParts(g, m, keys);
    JoinAssociates(before, Then("", g.first, between), Place(r));
    ClashSplit(before, g.first, Join(between, Place(r)), k);
    NoClashBefore(g, m, keys, k);
    NoClashAtEnd(g.between, g.last, m, keys, r, k);
    if Join(between, Place(r)).lit == k {
      if between.End? {
        AllFilled(g.between, m, keys);
      } else {
        ClashSplit(before, g.first, between, k);
        NoClashInside(g.Left(), m, keys, k);
      }
    }
  }

  /** A sweep before the gap is eaten: left of its end variables are filled and nothing else. */
  lemma EarlySweep(g: Gap, m: map<string, string>, keys: set<string>, r: string, rest: Template, k: string)
    requires FirstMisread(g, m) && keys <= m.Keys && g.first !in keys && g.text !in keys
    requires k in m && k !in keys && k != g.text && k != g.first && k != r
    ensures Sweep(Join(Filled(g, m, keys), Then("", r, rest)), k, m[k]) ==
      Join(Filled(g, m, keys + {k}), Sweep(Then("", r, rest), k, m[k]))
  {
    NoClashLeft(g, m, keys, r, k);
    SweepJoin(Filled(g, m, keys), Then("", r, rest), k, m[k]);
    FillMore(g.Left(), m, keys, k);
  }

  /** The sweep by the gap's own text, when everything between is filled in. */
  lemma EatingSweep(g: Gap, m: map<string, string>, keys: set<string>, r: string, rest: Template)
    returns (x: string, rest': Template)
    requires FirstMisread(g, m) && keys <= m.Keys && g.first !in keys && g.text !in keys && Names(g.between) <= keys
    requires PlainName(g.first) && PlainName(r) && WellFormed(rest) && PlainMap(m)
    ensures Sweep(Join(Filled(g, m, keys), Then("", r, rest)), g.text, m[g.text]) ==
      Join(Simultaneous(g.before, Restrict(m, keys + {g.text})), Then("", x, rest'))
    ensures g.first + m[g.text] + r <= x && PlainName(x) && WellFormed(rest')
  {
    var before := Simultaneous(g.before, Restrict(m, keys));
    FilledParts(g, m, keys);
    OnlyNames(g.between, m, keys, m.Keys);
    assert Restrict(m, m.Keys) == m;
    var gap := Then("", g.first, Then(g.text, r, rest));
    JoinAssociates(before, Then("", g.first, End(g.text)), Then("", r, rest));
    assert g.text + "" == g.text;
    NoClashBefore(g, m, keys, g.text);
    SweepJoin(before, gap, g.text, m[g.text]);
    FillMore(g.before, m, keys, g.text);
    CarryGrows("", g.first + m[g.text] + r, rest, g.text, m[g.text]);
    x, rest' := Sweep(gap, g.text, m[g.text]).name, Sweep(gap, g.text, m[g.text]).rest;
  }
}
