/** From an ambiguous template some order of the passes prints a wrong text: the passes can be arranged
    so that the first misread gap is eaten at a moment when the compound that results is longer than
    every variable still to come, and therefore stays in the text for good. */
module SubstitutionRuns {
  import opened Substitution
  import opened SubstitutionPasses
  import opened SubstitutionOrder
  import opened SubstitutionGaps

  // ----- Runs of sweeps -----

  function SweepAll(t: Template, vars: Vars): Template
    decreases |vars|
  {
    if vars == [] then t else SweepAll(Sweep(t, vars[0].0, vars[0].1), vars[1..])
  }

  lemma {:induction false} SweepAllIsPasses(t: Template, vars: Vars)
    requires WellFormed(t) && PlainVars(vars)
    ensures ReplaceVars(Render(t), vars) == Render(SweepAll(t, vars)) && WellFormed(SweepAll(t, vars))
    decreases |vars|
  {
    if vars == [] {
    } else {
      var (name, value) := vars[0];
      assert vars[0] in vars;
      SweepIsPass(t, name, value);
      SweepWellFormed(t, name, value);
      SweepAllIsPasses(Sweep(t, name, value), vars[1..]);
    }
  }

  lemma {:induction false} SweepAllAppend(t: Template, vars: Vars, name: string, value: string)
    ensures SweepAll(t, vars + [(name, value)]) == Sweep(SweepAll(t, vars), name, value)
    decreases |vars|
  {
    var all := vars + [(name, value)];
    if vars == [] {
      assert all == [(name, value)] && all[1..] == [];
    } else {
      assert all[0] == vars[0] && all[1..] == vars[1..] + [(name, value)];
      SweepAllAppend(Sweep(t, vars[0].0, vars[0].1), vars[1..], name, value);
    }
  }

  /** The variables in done have run, and s is the result. */
  ghost predicate Progress(t: Template, m: map<string, string>, done: Vars, s: Template) {
    MapOf(done).Keys <= m.Keys && Lists(done, Restrict(m, MapOf(done).Keys)) && SweepAll(t, done) == s
  }

  lemma Advance(t: Template, m: map<string, string>, done: Vars, s: Template, k: string)
    requires Progress(t, m, done, s) && k in m && k !in MapOf(done)
    ensures Progress(t, m, done + [(k, m[k])], Sweep(s, k, m[k]))
    ensures MapOf(done + [(k, m[k])]).Keys == MapOf(done).Keys + {k}
  {
    var keys := MapOf(done).Keys;
    ListsOne(k, m[k]);
    ListsAppend(done, Restrict(m, keys), [(k, m[k])], map[k := m[k]]);
    assert Restrict(m, keys + {k}) == Restrict(m, keys) + map[k := m[k]];
    SweepAllAppend(t, done, k, m[k]);
  }

  // ----- A compound is never repaired by filling -----

  /** The compound x stands where t has the placeholder n, and left of it only the variables in keys are
      filled in. */
  ghost predicate Spoilt(t: Template, m: map<string, string>, keys: set<string>, s: Template, p: Template, n: string,
      tail: Template, x: string, rest: Template) {
    && t == Join(p, Then("", n, tail))
    && s == Join(Simultaneous(p, Restrict(m, keys)), Then("", x, rest))
    && n < x && PlainName(x) && WellFormed(rest)
    && (n in m ==> Simultaneous(tail, m).lit != "")
  }

  /** In the end the compound is not what the substitution puts there. */
  lemma SpoiltDiffers(t: Template, m: map<string, string>, s: Template, p: Template, n: string, tail: Template,
      x: string, rest: Template)
    requires WellFormed(t) && PlainMap(m) && Spoilt(t, m, m.Keys, s, p, n, tail, x, rest)
    ensures Render(s) != Render(Simultaneous(t, m))
  {
    assert Restrict(m, m.Keys) == m;
    SimultaneousJoin(p, Then("", n, tail), m);
    var here := Simultaneous(Then("", n, tail), m);
    RenderJoin(Simultaneous(p, m), Then("", x, rest));
    RenderJoin(Simultaneous(p, m), here);
    if Render(s) == Render(Simultaneous(t, m)) {
      SamePrefix(Render(Simultaneous(p, m)), Render(Then("", x, rest)), Render(here));
      PartsWellFormed(p, Then("", n, tail));
      SimultaneousWellFormed(Then("", n, tail), m);
      RenderInjective(Then("", x, rest), here);
    }
  }

  lemma {:induction false} PartsWellFormed(p: Template, w: Template)
    requires WellFormed(Join(p, w)) && w.lit == ""
    ensures WellFormed(p) && WellFormed(w)
  {
    match p
    case End(lit) => assert lit + "" == lit;
    case Then(_, _, rest) => PartsWellFormed(rest, w);
  }

  lemma {:induction false} JoinWellFormed(p: Template, w: Template)
    requires WellFormed(p) && WellFormed(w)
    ensures WellFormed(Join(p, w))
  {
    match p
    case End(_) =>
    case Then(_, _, rest) => JoinWellFormed(rest, w);
  }

  /** What has been filled in by now is the beginning of what will be. */
  lemma {:induction false} FilledGrows(t: Template, m: map<string, string>, keys: set<string>)
    ensures Simultaneous(t, Restrict(m, keys)).lit <= Simultaneous(t, m).lit
  {
    match t
    case End(_) =>
    case Then(lit, name, rest) =>
      FilledGrows(rest, m, keys);
      if name in Restrict(m, keys) {
        var a, b := Simultaneous(rest, Restrict(m, keys)).lit, Simultaneous(rest, m).lit;
        assert lit + m[name] + b == lit + m[name] + a + b[|a|..];
      }
  }

  /** The first placeholder of w, if any. */
  function Head(w: Template): Template {
    if w.Then? then Place(w.name) else End("")
  }

  /** The first clash, left of w or with it. */
  lemma {:induction false} FirstClash(p: Template, m: map<string, string>, keys: set<string>, w: Template, k: string)
    returns (left: Template, g: string, mid: Template)
    requires Clash(Join(Simultaneous(p, Restrict(m, keys)), Head(w)), k)
    ensures p == Join(left, Then("", g, mid)) && g != k && g !in Restrict(m, keys)
    ensures !Clash(Join(Simultaneous(left, Restrict(m, keys)), Place(g)), k)
    ensures Simultaneous(mid, Restrict(m, keys)).lit == k
    ensures Simultaneous(mid, Restrict(m, keys)).Then? || w.Then?
  {
    var Then(lit, n, rest) := p;
    var filled := Simultaneous(rest, Restrict(m, keys));
    assert filled.lit + "" == filled.lit;
    if n !in Restrict(m, keys) && n != k && filled.lit == k && (filled.Then? || w.Then?) {
      left, g, mid := End(lit), n, rest;
      assert lit + "" == lit;
    } else {
      left, g, mid := FirstClash(rest, m, keys, w, k);
      SimultaneousJoin(left, Then("", g, mid), Restrict(m, keys));
      left := Then(lit, n, left);
    }
  }

  /** The sweep at a first clash: the placeholder g left of it grows over what follows. */
  lemma Eat(p: Template, m: map<string, string>, keys: set<string>, w: Template, k: string)
    returns (left: Template, g: string, mid: Template, x: string, rest: Template)
    requires PlainMap(m) && WellFormed(p) && WellFormed(w) && w.lit == "" && k in m && k !in keys
    requires Clash(Join(Simultaneous(p, Restrict(m, keys)), Head(w)), k)
    ensures p == Join(left, Then("", g, mid))
    ensures Sweep(Join(Simultaneous(p, Restrict(m, keys)), w), k, m[k]) ==
      Join(Simultaneous(left, Restrict(m, keys + {k})), Then("", x, rest))
    ensures g < x && PlainName(x) && WellFormed(rest) && Simultaneous(mid, Restrict(m, keys)).lit == k
    ensures w.Then? && !Clash(Simultaneous(p, Restrict(m, keys)), k) ==> |w.name| <= |x|
  {
    left, g, mid := FirstClash(p, m, keys, w, k);
    var before, behind := Simultaneous(left, Restrict(m, keys)), Simultaneous(mid, Restrict(m, keys));
    SimultaneousJoin(left, Then("", g, mid), Restrict(m, keys));
    ClashSplit(before, g, behind, k);
    JoinAssociates(before, Then("", g, behind), w);
    PartsWellFormed(left, Then("", g, mid));
    SimultaneousWellFormed(mid, Restrict(m, keys));
    JoinWellFormed(behind, w);
    x, rest := EatenHere(g, Join(behind, w), k, m[k]);
    if behind.End? && w.Then? {
      assert k + "" == k;
      EatenBehind(g, w, k, m[k]);
    }
    SweepJoin(before, Then("", g, Join(behind, w)), k, m[k]);
    FillMore(left, m, keys, k);
  }

  lemma EatenHere(g: string, u: Template, k: string, value: string) returns (x: string, rest: Template)
    requires PlainName(g) && WellFormed(u) && Plain(value) && g != k && u.Then? && u.lit == k
    ensures Sweep(Then("", g, u), k, value) == Then("", x, rest)
    ensures g < x && PlainName(x) && WellFormed(rest)
  {
    CarryGrows("", g, u, k, value);
    var t := Carry("", g, u, k, value);
    x, rest := t.name, t.rest;
  }

  lemma EatenBehind(g: string, w: Template, k: string, value: string)
    requires PlainName(g) && WellFormed(w) && Plain(value) && g != k && w.Then?
    ensures |w.name| <= |Sweep(Then("", g, Then(k, w.name, w.rest)), k, value).name|
  {
    CarryGrows("", g + value + w.name, w.rest, k, value);
  }

  /** One more sweep, by any variable but one called like the compound: it stays, or another one to its
      left takes its part. */
  lemma SpoiltStep(t: Template, m: map<string, string>, keys: set<string>, s: Template, p: Template, n: string,
      tail: Template, x: string, rest: Template, k: string)
    returns (p': Template, n': string, tail': Template, x': string, rest': Template)
    requires PlainMap(m) && WellFormed(t) && Spoilt(t, m, keys, s, p, n, tail, x, rest)
    requires k in m && k !in keys && k != x
    ensures Spoilt(t, m, keys + {k}, Sweep(s, k, m[k]), p', n', tail', x', rest')
    ensures Unambiguous(p, m) ==> Unambiguous(p', m)
    ensures !Clash(Simultaneous(p, Restrict(m, keys)), k) ==> |x| <= |x'|
  {
    var filled, w := Simultaneous(p, Restrict(m, keys)), Then("", x, rest);
    PartsWellFormed(p, Then("", n, tail));
    if Clash(Join(filled, Place(x)), k) {
      var mid;
      p', n', mid, x', rest' := Eat(p, m, keys, w, k);
      tail' := Join(mid, Then("", n, tail));
      JoinAssociates(p', Then("", n', mid), Then("", n, tail));
      GapNotEmpty(mid, Then("", n, tail), m, keys);
      if Unambiguous(p, m) { UnambiguousPrefix(p', Then("", n', mid), m); }
    } else {
      SweepJoin(filled, w, k, m[k]);
      FillMore(p, m, keys, k);
      CarryGrows("", x, rest, k, m[k]);
      p', n', tail', x', rest' := p, n, tail, Sweep(w, k, m[k]).name, Sweep(w, k, m[k]).rest;
    }
  }

  lemma GapNotEmpty(mid: Template, w: Template, m: map<string, string>, keys: set<string>)
    requires Simultaneous(mid, Restrict(m, keys)).lit != ""
    ensures Simultaneous(Join(mid, w), m).lit != ""
  {
    FilledGrows(mid, m, keys);
    SimultaneousJoin(mid, w, m);
  }

  /** The compound is too long for every variable to come, and nothing left of it is misread. */
  ghost predicate Stuck(t: Template, m: map<string, string>, keys: set<string>, s: Template, p: Template, n: string,
      tail: Template, x: string, rest: Template) {
    && Spoilt(t, m, keys, s, p, n, tail, x, rest) && Unambiguous(p, m)
    && (forall k :: k in m && k !in keys ==> |k| < |x|)
  }

  lemma StuckStep(t: Template, m: map<string, string>, keys: set<string>, s: Template, p: Template, n: string,
      tail: Template, x: string, rest: Template, k: string)
    returns (p': Template, n': string, tail': Template, x': string, rest': Template)
    requires PlainMap(m) && WellFormed(t) && keys <= m.Keys && Stuck(t, m, keys, s, p, n, tail, x, rest) && k in m
    requires k !in keys
    ensures Stuck(t, m, keys + {k}, Sweep(s, k, m[k]), p', n', tail', x', rest')
  {
    NoClashInside(p, m, keys, k);
    p', n', tail', x', rest' := SpoiltStep(t, m, keys, s, p, n, tail, x, rest, k);
  }

  // ----- The order -----

  lemma FinishStep(t: Template, m: map<string, string>, done: Vars, s: Template, p: Template, n: string,
      tail: Template, x: string, rest: Template, k: string)
    returns (s': Template, p': Template, n': string, tail': Template, x': string, rest': Template)
    requires WellFormed(t) && PlainMap(m) && Progress(t, m, done, s)
    requires Stuck(t, m, MapOf(done).Keys, s, p, n, tail, x, rest)
    requires k in m && k !in MapOf(done)
    ensures var done' := done + [(k, m[k])];
      && Progress(t, m, done', s') && Stuck(t, m, MapOf(done').Keys, s', p', n', tail', x', rest')
      && |m.Keys - MapOf(done').Keys| < |m.Keys - MapOf(done).Keys|
  {
    var keys := MapOf(done).Keys;
    s' := Sweep(s, k, m[k]);
    p', n', tail', x', rest' := StuckStep(t, m, keys, s, p, n, tail, x, rest, k);
    Advance(t, m, done, s, k);
    Smaller(m.Keys, keys, k);
  }

  lemma FinishDone(t: Template, m: map<string, string>, done: Vars, s: Template, p: Template, n: string,
      tail: Template, x: string, rest: Template)
    requires WellFormed(t) && PlainMap(m) && Progress(t, m, done, s) && MapOf(done).Keys == m.Keys
    requires Stuck(t, m, m.Keys, s, p, n, tail, x, rest)
    ensures Lists(done, m) && Render(SweepAll(t, done)) != Render(Simultaneous(t, m))
  {
    assert Restrict(m, m.Keys) == m;
    SpoiltDiffers(t, m, s, p, n, tail, x, rest);
  }

  lemma Finish(t: Template, m: map<string, string>, done: Vars, s: Template, p: Template, n: string, tail: Template,
      x: string, rest: Template)
    returns (vars: Vars)
    requires WellFormed(t) && PlainMap(m) && Progress(t, m, done, s)
    requires Stuck(t, m, MapOf(done).Keys, s, p, n, tail, x, rest)
    ensures Lists(vars, m) && Render(SweepAll(t, vars)) != Render(Simultaneous(t, m))
    decreases |m.Keys - MapOf(done).Keys|
  {
    if m.Keys == MapOf(done).Keys {
      FinishDone(t, m, done, s, p, n, tail, x, rest);
      vars := done;
    } else {
      assert m.Keys - MapOf(done).Keys != {};
      var k :| k in m.Keys - MapOf(done).Keys;
      var s', p', n', tail', x', rest' := FinishStep(t, m, done, s, p, n, tail, x, rest, k);
      vars := Finish(t, m, done + [(k, m[k])], s', p', n', tail', x', rest');
    }
  }

  lemma Smaller(all: set<string>, keys: set<string>, k: string)
    requires k in all - keys
    ensures |all - (keys + {k})| < |all - keys|
  {
    assert all - keys == (all - (keys + {k})) + {k};
  }

  /** r is what stands at the gap's end by now; while variables between are waiting it is none of them. */
  ghost predicate Waiting(t: Template, m: map<string, string>, g: Gap, done: Vars, r: string, rest: Template) {
    && WellFormed(t) && PlainMap(m) && t == g.Whole() && FirstMisread(g, m)
    && Progress(t, m, done, Join(Filled(g, m, MapOf(done).Keys), Then("", r, rest)))
    && g.first !in MapOf(done) && g.text !in MapOf(done)
    && PlainName(r) && WellFormed(rest) && r !in Names(g.between) - MapOf(done).Keys
  }

  lemma WaitingStep(t: Template, m: map<string, string>, g: Gap, done: Vars, r: string, rest: Template, k: string)
    returns (r': string, rest': Template)
    requires Waiting(t, m, g, done, r, rest) && k in m && k !in MapOf(done) && k != g.first && k != g.text && k != r
    requires Carry("", r, rest, k, m[k]).name !in Names(g.between) - MapOf(done).Keys - {k}
    ensures Waiting(t, m, g, done + [(k, m[k])], r', rest')
    ensures |m.Keys - MapOf(done + [(k, m[k])]).Keys| < |m.Keys - MapOf(done).Keys|
  {
    var keys := MapOf(done).Keys;
    EarlySweep(g, m, keys, r, rest, k);
    CarryGrows("", r, rest, k, m[k]);
    Advance(t, m, done, Join(Filled(g, m, keys), Then("", r, rest)), k);
    Smaller(m.Keys, keys, k);
    r', rest' := Carry("", r, rest, k, m[k]).name, Carry("", r, rest, k, m[k]).rest;
  }

  /** Which variable to run next. If it would turn the gap's end into the name of a variable that waits
      between, that one runs first: it leaves the gap's end alone. */
  lemma Choose(m: map<string, string>, g: Gap, todo: set<string>, r: string, rest: Template) returns (k: string)
    requires PlainMap(m) && PlainName(r) && WellFormed(rest) && todo != {} && todo <= m.Keys && r !in todo
    ensures k in todo && Carry("", r, rest, k, m[k]).name !in todo - {k}
  {
    k :| k in todo;
    var w := Carry("", r, rest, k, m[k]);
    CarryGrows("", r, rest, k, m[k]);
    if w.name in todo - {k} {
      k := w.name;
      CarryGrows("", r, rest, k, m[k]);
    }
  }

  lemma WrongOrder(t: Template, m: map<string, string>, g: Gap, done: Vars, r: string, rest: Template)
    returns (vars: Vars)
    requires Waiting(t, m, g, done, r, rest)
    ensures Lists(vars, m) && Render(SweepAll(t, vars)) != Render(Simultaneous(t, m))
    decreases |m.Keys - MapOf(done).Keys|
  {
    var keys := MapOf(done).Keys;
    var todo := Names(g.between) - keys;
    var free := m.Keys - keys - {g.text, g.first, r};
    if todo != {} || free != {} {
      var k;
      if todo != {} {
        k := Choose(m, g, todo, r, rest);
      } else {
        k :| k in free;
      }
      var r', rest' := WaitingStep(t, m, g, done, r, rest, k);
      vars := WrongOrder(t, m, g, done + [(k, m[k])], r', rest');
    } else {
      vars := EatAndFinish(t, m, g, done, r, rest);
    }
  }

  lemma EatAndFinish(t: Template, m: map<string, string>, g: Gap, done: Vars, r: string, rest: Template)
    returns (vars: Vars)
    requires Waiting(t, m, g, done, r, rest) && Names(g.between) <= MapOf(done).Keys
    requires m.Keys - MapOf(done).Keys <= {g.text, g.first, r}
    ensures Lists(vars, m) && Render(SweepAll(t, vars)) != Render(Simultaneous(t, m))
  {
    var keys, s := MapOf(done).Keys, Join(Filled(g, m, MapOf(done).Keys), Then("", r, rest));
    GapWellFormed(g);
    var x, rest' := EatingSweep(g, m, keys, r, rest);
    Advance(t, m, done, s, g.text);
    var tail := Join(g.between, Then("", g.last, g.after));
    SimultaneousJoin(g.between, Then("", g.last, g.after), m);
    JoinAssociates(g.before, Then("", g.first, g.between), Then("", g.last, g.after));
    UnambiguousPrefix(g.before, Then("", g.first, g.between), m);
    assert |x| >= |g.first| + |m[g.text]| + |r|;
    forall k | k in m && k !in keys + {g.text} ensures |k| < |x| {
      assert k in m.Keys - keys;
    }
    vars := Finish(t, m, done + [(g.text, m[g.text])], Sweep(s, g.text, m[g.text]), g.before, g.first, tail, x, rest');
  }

  lemma GapWellFormed(g: Gap)
    requires WellFormed(g.Whole())
    ensures PlainName(g.first) && PlainName(g.last) && WellFormed(g.after)
  {
    PartsWellFormed(g.Left(), Then("", g.last, g.after));
    JoinAssociates(g.before, Then("", g.first, g.between), Then("", g.last, g.after));
    PartsWellFormed(g.before, Then("", g.first, Join(g.between, Then("", g.last, g.after))));
  }

  /** An ambiguous template prints a wrong text in some order. */
  lemma AmbiguousGoesWrong(t: Template, m: map<string, string>) returns (vars: Vars)
    requires WellFormed(t) && PlainMap(m) && !Unambiguous(t, m)
    ensures Lists(vars, m) && ReplaceVars(Render(t), vars) != Render(Simultaneous(t, m))
  {
    var g := FindGap(t, m);
    GapWellFormed(g);
    assert Restrict(m, {}) == map[];
    SimultaneousNone(g.Left());
    vars := WrongOrder(t, m, g, [], g.last, g.after);
    Keys(vars);
    SweepAllIsPasses(t, vars);
  }

  /** The printed text is right in every order of the variables if and only if the template is
      unambiguous: no misread gap can be made good by other variables in every order. */
  lemma OrderNeverMatters(t: Template, m: map<string, string>)
    requires WellFormed(t) && PlainMap(m)
    ensures (forall vars :: Lists(vars, m) ==> ReplaceVars(Render(t), vars) == Render(Simultaneous(t, m))) <==>
      Unambiguous(t, m)
  {
    if Unambiguous(t, m) {
      forall vars | Lists(vars, m) ensures ReplaceVars(Render(t), vars) == Render(Simultaneous(t, m)) {
        AnyOrderSubstitutes(t, m, vars);
      }
    } else {
      var vars := AmbiguousGoesWrong(t, m);
    }
  }
}
