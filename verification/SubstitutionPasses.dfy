/** All passes together: repeated replace-all against one simultaneous substitution. */
module SubstitutionPasses {
  import opened Substitution

  /** Variables in the order in which the passes run; a std::map runs them by ascending key. */
  type Vars = seq<(string, string)>

  predicate PlainVars(vars: Vars) {
    forall v :: v in vars ==> PlainName(v.0) && Plain(v.1)
  }

  predicate Distinct(vars: Vars) {
    forall i, j :: 0 <= i < j < |vars| ==> vars[i].0 != vars[j].0
  }

  function MapOf(vars: Vars): map<string, string> {
    if vars == [] then map[] else map[vars[0].0 := vars[0].1] + MapOf(vars[1..])
  }

  /** The printer's loop over the variables. */
  function ReplaceVars(s: string, vars: Vars): string
    decreases |vars|
  {
    if vars == [] then s
    else ReplaceVars(ReplaceAll(s, Placeholder(vars[0].0), vars[0].1), vars[1..])
  }

  function FillAll(t: Template, vars: Vars): Template
    decreases |vars|
  {
    if vars == [] then t else FillAll(Fill(t, vars[0].0, vars[0].1), vars[1..])
  }

  /** Every placeholder that has a value gets it, at once; the others stay. */
  function Simultaneous(t: Template, m: map<string, string>): Template {
    match t
    case End(_) => t
    case Then(lit, name, rest) =>
      if name in m then Prepend(lit + m[name], Simultaneous(rest, m)) else Then(lit, name, Simultaneous(rest, m))
  }

  /** No pass meets a clash with its own name. */
  predicate ClashFree(t: Template, vars: Vars)
    decreases |vars|
  {
    vars == [] || (!Clash(t, vars[0].0) && ClashFree(Fill(t, vars[0].0, vars[0].1), vars[1..]))
  }

  /** After each pass the text is the template with exactly the variables so far filled in. */
  ghost predicate EveryPassExact(t: Template, vars: Vars) {
    forall i :: 0 <= i <= |vars| ==> ReplaceVars(Render(t), vars[..i]) == Render(FillAll(t, vars[..i]))
  }

  /** The passes are exact, one and all, if and only if none of them meets a clash. */
  lemma {:induction false} PassesAreExact(t: Template, vars: Vars)
    requires WellFormed(t) && PlainVars(vars)
    ensures EveryPassExact(t, vars) <==> ClashFree(t, vars)
    decreases |vars|
  {
    if vars == [] {
    } else {
      var (name, value) := vars[0];
      assert vars[0] in vars;
      var t' := Fill(t, name, value);
      PassIsExact(t, name, value);
      FillWellFormed(t, name, value);
      PassesAreExact(t', vars[1..]);
      FirstPass(t, vars);
    }
  }

  lemma FirstPass(t: Template, vars: Vars)
    requires vars != []
    ensures EveryPassExact(t, vars) <==>
      ReplaceAll(Render(t), Placeholder(vars[0].0), vars[0].1) == Render(Fill(t, vars[0].0, vars[0].1))
      && EveryPassExact(Fill(t, vars[0].0, vars[0].1), vars[1..])
  {
    var t' := Fill(t, vars[0].0, vars[0].1);
    var first := ReplaceAll(Render(t), Placeholder(vars[0].0), vars[0].1);
    forall i | 0 <= i <= |vars[1..]|
      ensures ReplaceVars(Render(t), vars[..i + 1]) == ReplaceVars(first, vars[1..][..i])
      ensures FillAll(t, vars[..i + 1]) == FillAll(t', vars[1..][..i])
    {
      assert vars[..i + 1][1..] == vars[1..][..i];
    }
    if EveryPassExact(t, vars) {
      assert ReplaceVars(Render(t), vars[..1]) == Render(FillAll(t, vars[..1]));
      assert vars[1..][..0] == [];
      assert first == ReplaceVars(first, vars[1..][..0]);
      assert Render(t') == Render(FillAll(t', vars[1..][..0]));
      forall i | 0 <= i <= |vars[1..]|
        ensures ReplaceVars(Render(t'), vars[1..][..i]) == Render(FillAll(t', vars[1..][..i])) {
        assert ReplaceVars(Render(t), vars[..i + 1]) == Render(FillAll(t, vars[..i + 1]));
      }
    }
    if first == Render(t') && EveryPassExact(t', vars[1..]) {
      forall i | 0 <= i <= |vars| ensures ReplaceVars(Render(t), vars[..i]) == Render(FillAll(t, vars[..i])) {
        if i > 0 {
          assert ReplaceVars(Render(t'), vars[1..][..i - 1]) == Render(FillAll(t', vars[1..][..i - 1]));
        }
      }
    }
  }

  lemma SimultaneousPrepend(s: string, t: Template, m: map<string, string>)
    ensures Simultaneous(Prepend(s, t), m) == Prepend(s, Simultaneous(t, m))
  {
    if t.Then? && t.name in m {
      assert s + t.lit + m[t.name] == s + (t.lit + m[t.name]);
      PrependTwice(s, t.lit + m[t.name], Simultaneous(t.rest, m));
    }
  }

  lemma PrependTwice(s: string, s': string, t: Template)
    ensures Prepend(s, Prepend(s', t)) == Prepend(s + s', t)
  {
    assert s + (s' + t.lit) == s + s' + t.lit;
  }

  /** Filling one variable first changes nothing about the simultaneous result. */
  lemma {:induction false} FillThenSimultaneous(t: Template, name: string, value: string, m: map<string, string>)
    requires name !in m
    ensures Simultaneous(Fill(t, name, value), m) == Simultaneous(t, map[name := value] + m)
  {
    if t.End? {
    } else {
      FillThenSimultaneous(t.rest, name, value, m);
      if t.name == name {
        SimultaneousPrepend(t.lit + value, Fill(t.rest, name, value), m);
      }
    }
  }

  lemma {:induction false} SimultaneousNone(t: Template)
    ensures Simultaneous(t, map[]) == t
  {
    if t.End? {
    } else {
      SimultaneousNone(t.rest);
    }
  }

  lemma {:induction false} KeysOf(vars: Vars, name: string)
    ensures name in MapOf(vars) <==> exists v :: v in vars && v.0 == name
    ensures Distinct(vars) ==> forall v :: v in vars ==> v.0 in MapOf(vars) && MapOf(vars)[v.0] == v.1
  {
    if vars == [] {
    } else {
      KeysOf(vars[1..], name);
      if Distinct(vars) {
        forall v | v in vars ensures v.0 in MapOf(vars) && MapOf(vars)[v.0] == v.1 {
          if v in vars[1..] {
            KeysOf(vars[1..], v.0);
          } else {
            KeysOf(vars[1..], vars[0].0);
          }
        }
      }
    }
  }

  /** Filling the variables one by one is filling them at once. */
  lemma {:induction false} FillAllIsSimultaneous(t: Template, vars: Vars)
    requires Distinct(vars)
    ensures FillAll(t, vars) == Simultaneous(t, MapOf(vars))
    decreases |vars|
  {
    if vars == [] {
      SimultaneousNone(t);
    } else {
      KeysOf(vars[1..], vars[0].0);
      FillAllIsSimultaneous(Fill(t, vars[0].0, vars[0].1), vars[1..]);
      FillThenSimultaneous(t, vars[0].0, vars[0].1, MapOf(vars[1..]));
    }
  }

  /** The printer's substitution is the simultaneous one whenever its passes meet no clash. */
  lemma SubstitutionIsSimultaneous(t: Template, vars: Vars)
    requires WellFormed(t) && PlainVars(vars) && Distinct(vars) && ClashFree(t, vars)
    ensures ReplaceVars(Render(t), vars) == Render(Simultaneous(t, MapOf(vars)))
  {
    PassesAreExact(t, vars);
    assert vars[..|vars|] == vars;
    FillAllIsSimultaneous(t, vars);
  }
}
