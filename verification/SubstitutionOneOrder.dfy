/** One fixed order of the passes, for instance that of a std::map: without variables that are called like
    a grown placeholder the printed text is right exactly when no pass meets a clash. */
module SubstitutionOneOrder {
  import opened Substitution
  import opened SubstitutionPasses
  import opened SubstitutionOrder
  import opened SubstitutionGaps
  import opened SubstitutionRuns

  /** No variable's name is a placeholder's name with something behind it. */
  predicate Ungrown(t: Template, m: map<string, string>) {
    forall n, x :: n in Names(t) && x in m ==> !(n < x)
  }

  lemma {:induction false} NamesJoin(p: Template, w: Template)
    ensures Names(Join(p, w)) == Names(p) + Names(w)
  {
    match p
    case End(_) =>
    case Then(_, name, rest) =>
      NamesJoin(rest, w);
      assert {name} + Names(rest) + Names(w) == {name} + (Names(rest) + Names(w));
  }

  lemma {:induction false} JoinNothing(t: Template)
    ensures Join(t, End("")) == t
  {
    match t
    case End(lit) => assert lit + "" == lit;
    case Then(_, _, rest) => JoinNothing(rest);
  }

  /** No pass repairs a compound that no variable is called like. */
  lemma {:induction false} StaysSpoilt(t: Template, m: map<string, string>, done: Vars, todo: Vars, s: Template,
      p: Template, n: string, tail: Template, x: string, rest: Template)
    requires WellFormed(t) && PlainMap(m) && Ungrown(t, m) && Lists(done + todo, m)
    requires Progress(t, m, done, s) && Spoilt(t, m, MapOf(done).Keys, s, p, n, tail, x, rest)
    ensures Render(SweepAll(t, done + todo)) != Render(Simultaneous(t, m))
    decreases |todo|
  {
    if todo == [] {
      assert done + todo == done;
      SpoiltDiffers(t, m, s, p, n, tail, x, rest);
    } else {
      var (k, value) := todo[0];
      NextVariable(m, done, todo);
      NamesJoin(p, Then("", n, tail));
      var p', n', tail', x', rest' := SpoiltStep(t, m, MapOf(done).Keys, s, p, n, tail, x, rest, k);
      Advance(t, m, done, s, k);
      StaysSpoilt(t, m, done + [(k, value)], todo[1..], Sweep(s, k, value), p', n', tail', x', rest');
    }
  }

  lemma NextVariable(m: map<string, string>, done: Vars, todo: Vars)
    requires Lists(done + todo, m) && todo != []
    ensures todo[0].0 in m && m[todo[0].0] == todo[0].1 && todo[0].0 !in MapOf(done)
    ensures done + [todo[0]] + todo[1..] == done + todo
  {
    PrefixRestricts(done, todo, m);
    assert todo[0] in todo;
  }

  /** The first clash makes a compound. */
  lemma ClashSpoils(t: Template, m: map<string, string>, keys: set<string>, k: string)
    returns (p: Template, n: string, tail: Template, x: string, rest: Template)
    requires WellFormed(t) && PlainMap(m) && k in m && k !in keys && Clash(Simultaneous(t, Restrict(m, keys)), k)
    ensures Spoilt(t, m, keys + {k}, Sweep(Simultaneous(t, Restrict(m, keys)), k, m[k]), p, n, tail, x, rest)
  {
    JoinNothing(Simultaneous(t, Restrict(m, keys)));
    p, n, tail, x, rest := Eat(t, m, keys, End(""), k);
    FilledGrows(tail, m, keys);
  }

  lemma {:induction false} ClashShows(t: Template, m: map<string, string>, done: Vars, todo: Vars)
    requires WellFormed(t) && PlainMap(m) && Ungrown(t, m) && Lists(done + todo, m)
    requires Progress(t, m, done, Simultaneous(t, MapOf(done))) && !ClashFree(Simultaneous(t, MapOf(done)), todo)
    ensures Render(SweepAll(t, done + todo)) != Render(Simultaneous(t, m))
    decreases |todo|
  {
    if todo == [] {
      assert false;
    } else {
      var s := Simultaneous(t, MapOf(done));
      var (k, value) := todo[0];
      NextVariable(m, done, todo);
      PrefixRestricts(done, todo, m);
      Advance(t, m, done, s, k);
      if Clash(s, k) {
        var p, n, tail, x, rest := ClashSpoils(t, m, MapOf(done).Keys, k);
        StaysSpoilt(t, m, done + [(k, value)], todo[1..], Sweep(s, k, value), p, n, tail, x, rest);
      } else {
        FilledSoFar(t, m, done, k);
        ClashShows(t, m, done + [(k, value)], todo[1..]);
      }
    }
  }

  lemma FilledSoFar(t: Template, m: map<string, string>, done: Vars, k: string)
    requires WellFormed(t) && PlainMap(m) && Distinct(done) && MapOf(done) == Restrict(m, MapOf(done).Keys)
    requires k in m && k !in MapOf(done) && !Clash(Simultaneous(t, MapOf(done)), k)
    requires Lists(done + [(k, m[k])], Restrict(m, MapOf(done).Keys + {k}))
    ensures Sweep(Simultaneous(t, MapOf(done)), k, m[k]) == Fill(Simultaneous(t, MapOf(done)), k, m[k])
    ensures Sweep(Simultaneous(t, MapOf(done)), k, m[k]) == Simultaneous(t, MapOf(done + [(k, m[k])]))
  {
    FillMore(t, m, MapOf(done).Keys, k);
    SimultaneousWellFormed(t, MapOf(done));
    SweepFills(Simultaneous(t, MapOf(done)), k, m[k]);
  }

  /** In whatever one order the passes run: if no variable is called like a placeholder of the template with
      something behind it, the printed text is the simultaneous substitution if and only if no pass meets
      a clash. */
  lemma OneOrderExact(t: Template, m: map<string, string>, vars: Vars)
    requires WellFormed(t) && PlainMap(m) && Lists(vars, m) && Ungrown(t, m)
    ensures ReplaceVars(Render(t), vars) == Render(Simultaneous(t, m)) <==> ClashFree(t, vars)
  {
    Keys(vars);
    SweepAllIsPasses(t, vars);
    if ClashFree(t, vars) {
      SubstitutionIsSimultaneous(t, vars);
    } else {
      SimultaneousNone(t);
      assert [] + vars == vars && Restrict(m, {}) == map[];
      ClashShows(t, m, [], vars);
    }
  }

  // ----- The order of a std::map -----

  /** The lexicographic order of strings. */
  predicate Before(a: string, b: string) {
    b != "" && (a == "" || a[0] < b[0] || (a[0] == b[0] && Before(a[1..], b[1..])))
  }

  predicate Ascending(vars: Vars) {
    forall i :: 0 < i < |vars| ==> Before(vars[i - 1].0, vars[i].0)
  }

  lemma {:induction false} BeforeLonger(a: string, s: string)
    requires s != ""
    ensures Before(a, a + s)
  {
    if a == "" {
    } else {
      assert (a + s)[1..] == a[1..] + s;
      BeforeLonger(a[1..], s);
    }
  }

  lemma {:induction false} BeforeOther(a: string, s: string, b: string)
    requires Before(a, b) && !(a <= b)
    ensures Before(a + s, b)
  {
    if a[0] == b[0] {
      assert (a + s)[1..] == a[1..] + s;
      assert a == [a[0]] + a[1..] && b == [b[0]] + b[1..];
      BeforeOther(a[1..], s, b[1..]);
    } else {
    }
  }

  /** The placeholders p and q with the name of a variable between them. */
  function Gapped(p: string, name: string, q: string): Template {
    Then("", p, Then(name, q, End("")))
  }

  /** The variables of the example: one of them is called like what the first pass leaves. */
  function Chance(p: string, name: string, q: string, value: string, forP: string, forQ: string): Vars {
    [(name, value), (p, forP), (p + (value + q), forP + name + forQ), (q, forQ)]
  }

  lemma AscendingGrown(p: string, name: string, q: string, suffix: string)
    requires Before(name, p) && Before(p, q) && !(p <= q) && suffix != ""
    ensures forall a, b, c, d :: Ascending([(name, a), (p, b), (p + suffix, c), (q, d)])
  {
    BeforeLonger(p, suffix);
    BeforeOther(p, suffix, q);
  }

  lemma NextPass(s: string, name: string, value: string, vars: Vars)
    requires PlainName(name)
    ensures ReplaceVars(s, [(name, value)] + vars) == ReplaceVars(ReplaceAll(s, Placeholder(name), value), vars)
  {
    assert ([(name, value)] + vars)[1..] == vars;
  }

  lemma RenderGap(p: string, name: string, q: string)
    ensures Render(Gapped(p, name, q)) == "$" + p + ("$" + (name + ("$" + (q + "$"))))
  {
    var t := Gapped(p, name, q);
    assert Render(t.rest) == name + Placeholder(q) + Render(End(""));
    assert Render(t) == "" + Placeholder(p) + Render(t.rest);
  }

  /** The passes behind the one that ate the gap. */
  lemma Repaired(p: string, eaten: string, right: string, q: string, forP: string, forQ: string)
    requires PlainName(p) && PlainName(eaten) && p != eaten && Plain(right)
    ensures ReplaceVars(Placeholder(eaten), [(p, forP), (eaten, right), (q, forQ)]) == right
  {
    var last: Vars := [(q, forQ)];
    NextPass(Placeholder(eaten), p, forP, [(eaten, right)] + last);
    IdlePass(eaten, p, forP);
    NextPass(Placeholder(eaten), eaten, right, last);
    assert Placeholder(eaten) + "" == Placeholder(eaten);
    PassFound("", eaten, right);
    assert right + "" == right;
    PlainStays(right, last);
    assert [(p, forP)] + ([(eaten, right)] + last) == [(p, forP), (eaten, right), (q, forQ)];
  }

  lemma ChanceText(p: string, name: string, q: string, value: string, forP: string, forQ: string)
    requires PlainName(p) && PlainName(name) && PlainName(q) && p != name && Plain(value) && Plain(forP) && Plain(forQ)
    ensures ReplaceVars(Render(Gapped(p, name, q)), Chance(p, name, q, value, forP, forQ)) == forP + name + forQ
  {
    var eaten, right := p + (value + q), forP + name + forQ;
    var rest: Vars := [(p, forP), (eaten, right), (q, forQ)];
    RenderGap(p, name, q);
    MisreadPass(p, name, q, value);
    assert "$" + p + (value + (q + "$")) == Placeholder(eaten);
    NextPass(Render(Gapped(p, name, q)), name, value, rest);
    Repaired(p, eaten, right, q, forP, forQ);
    assert [(name, value)] + rest == Chance(p, name, q, value, forP, forQ);
  }

  /** Why the theorem excludes variables with grown names: one that is called like the eaten text can make the
      final text right by accident, in the order of a std::map too. */
  lemma AccidentallyRight(p: string, name: string, q: string, value: string, forP: string, forQ: string)
    requires PlainName(p) && PlainName(name) && PlainName(q) && p != name && q != name && Plain(value)
    requires Plain(forP) && Plain(forQ)
    ensures var t, vars := Gapped(p, name, q), Chance(p, name, q, value, forP, forQ);
      && !ClashFree(t, vars) && ReplaceVars(Render(t), vars) == forP + name + forQ
      && (Before(name, p) && Before(p, q) && !(p <= q) ==> Ascending(vars))
  {
    ChanceText(p, name, q, value, forP, forQ);
    if Before(name, p) && Before(p, q) && !(p <= q) { AscendingGrown(p, name, q, value + q); }
  }
}
