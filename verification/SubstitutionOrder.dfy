/** When the order of the passes does not matter: a condition on the template and the variables alone. */
module SubstitutionOrder {
  import opened Substitution
  import opened SubstitutionPasses

  predicate PlainMap(m: map<string, string>) {
    forall k :: k in m ==> PlainName(k) && Plain(m[k])
  }

  /** vars lists the map m in some order. */
  predicate Lists(vars: Vars, m: map<string, string>) {
    Distinct(vars) && MapOf(vars) == m
  }

  /** What a placeholder finally reads. */
  function Expansion(name: string, m: map<string, string>): string {
    if name in m then m[name] else Placeholder(name)
  }

  /** The simple sufficient condition: for every two placeholders, the fully expanded text strictly
      between them is no variable's name. */
  predicate GapsApart(t: Template, text: string, m: map<string, string>) {
    t.Then? ==> text + t.lit !in m && GapsApart(t.rest, text + t.lit + Expansion(t.name, m), m)
  }

  predicate Apart(t: Template, m: map<string, string>) {
    t.Then? ==> GapsApart(t.rest, "", m) && Apart(t.rest, m)
  }

  /** The exact condition. Such a text is harmless when the first of the two placeholders, or one in
      between, has that very name, or when one of the two has the name of one in between: then the pass
      that would misread it never sees both its dollars. */
  predicate Misread(first: string, text: string, last: string, between: set<string>, m: map<string, string>) {
    text in m && text != first && text !in between && first !in between && last !in between
  }

  predicate GapsSafe(t: Template, first: string, text: string, between: set<string>, m: map<string, string>) {
    t.Then? ==>
      && !Misread(first, text + t.lit, t.name, between, m)
      && GapsSafe(t.rest, first, text + t.lit + Expansion(t.name, m), between + {t.name}, m)
  }

  predicate Unambiguous(t: Template, m: map<string, string>) {
    t.Then? ==> GapsSafe(t.rest, t.name, "", {}, m) && Unambiguous(t.rest, m)
  }

  function Restrict(m: map<string, string>, keys: set<string>): map<string, string> {
    map k | k in m && k in keys :: m[k]
  }

  // ----- Unambiguous templates have no clash in any order -----

  /** If, with some variables filled in, a gap reads the name of a remaining one, the gap was misread. */
  lemma {:induction false} GapFound(t: Template, first: string, text: string, between: set<string>,
                                    m: map<string, string>, keys: set<string>, name: string)
    requires Simultaneous(t, Restrict(m, keys)).Then? && text + Simultaneous(t, Restrict(m, keys)).lit == name
    requires between <= keys <= m.Keys && name in m && name !in keys && first !in keys && first != name
    ensures !GapsSafe(t, first, text, between, m)
  {
    var Then(lit, n, rest) := t;
    if n !in Restrict(m, keys) {
    } else {
      var inner := Simultaneous(rest, Restrict(m, keys));
      assert text + (lit + m[n] + inner.lit) == text + lit + m[n] + inner.lit;
      GapFound(rest, first, text + lit + m[n], between + {n}, m, keys, name);
    }
  }

  lemma {:induction false} ClashIsAmbiguous(t: Template, m: map<string, string>, keys: set<string>, name: string)
    requires keys <= m.Keys && Clash(Simultaneous(t, Restrict(m, keys)), name) && name in m && name !in keys
    ensures !Unambiguous(t, m)
  {
    var Then(lit, n, rest) := t;
    var filled := Simultaneous(rest, Restrict(m, keys));
    if Clash(filled, name) {
      ClashIsAmbiguous(rest, m, keys, name);
    } else {
      assert "" + filled.lit == name;
      GapFound(rest, n, "", {}, m, keys, name);
    }
  }

  lemma Keys(vars: Vars)
    ensures forall k :: k in MapOf(vars) <==> exists v :: v in vars && v.0 == k
    ensures Distinct(vars) ==> forall v :: v in vars ==> v.0 in MapOf(vars) && MapOf(vars)[v.0] == v.1
  {
    forall k ensures k in MapOf(vars) <==> exists v :: v in vars && v.0 == k {
      KeysOf(vars, k);
    }
    KeysOf(vars, "");
  }

  /** The variables done so far are the map restricted to their names. */
  lemma DistinctSplit(a: Vars, b: Vars)
    requires Distinct(a + b)
    ensures Distinct(a) && Distinct(b) && MapOf(a).Keys !! MapOf(b).Keys
  {
    assert forall i :: 0 <= i < |a| ==> a[i] == (a + b)[i];
    assert forall i :: 0 <= i < |b| ==> b[i] == (a + b)[|a| + i];
    Keys(a);
    Keys(b);
  }

  lemma PrefixRestricts(done: Vars, rest: Vars, m: map<string, string>)
    requires Lists(done + rest, m)
    ensures Distinct(done) && MapOf(done) == Restrict(m, MapOf(done).Keys) && MapOf(done).Keys <= m.Keys
    ensures forall v :: v in rest ==> v.0 in m && m[v.0] == v.1 && v.0 !in MapOf(done)
  {
    DistinctSplit(done, rest);
    MapOfAppend(done, rest);
    Keys(rest);
  }

  lemma {:induction false} FillAllAppend(t: Template, a: Vars, b: Vars)
    ensures FillAll(t, a + b) == FillAll(FillAll(t, a), b)
    ensures ClashFree(t, a + b) <==> ClashFree(t, a) && ClashFree(FillAll(t, a), b)
    decreases |a|
  {
    if a == [] {
      assert a + b == b;
    } else {
      assert (a + b)[1..] == a[1..] + b;
      FillAllAppend(Fill(t, a[0].0, a[0].1), a[1..], b);
    }
  }

  lemma {:induction false} UnambiguousHasNoClash(t: Template, done: Vars, rest: Vars, m: map<string, string>)
    requires Unambiguous(t, m) && Lists(done + rest, m)
    ensures ClashFree(FillAll(t, done), rest)
    decreases |rest|
  {
    PrefixRestricts(done, rest, m);
    FillAllIsSimultaneous(t, done);
    if rest == [] {
    } else {
      var v := rest[0];
      assert v in rest;
      if Clash(FillAll(t, done), v.0) {
        ClashIsAmbiguous(t, m, MapOf(done).Keys, v.0);
      }
      assert done + [v] + rest[1..] == done + rest;
      FillAllAppend(t, done, [v]);
      assert [v][1..] == [];
      assert FillAll(t, done + [v]) == Fill(FillAll(t, done), v.0, v.1);
      UnambiguousHasNoClash(t, done + [v], rest[1..], m);
    }
  }

  // ----- Ambiguous templates have a clash in some order -----

  /** A text that already contains an unknown placeholder is no name. */
  lemma {:induction false} DollarsAreSafe(t: Template, first: string, text: string, between: set<string>,
      m: map<string, string>)
    requires PlainMap(m) && '$' in text
    ensures GapsSafe(t, first, text, between, m)
  {
    if t.End? {
    } else {
      assert '$' in text + t.lit;
      assert '$' in text + t.lit + Expansion(t.name, m);
      DollarsAreSafe(t.rest, first, text + t.lit + Expansion(t.name, m), between + {t.name}, m);
    }
  }

  /** A misread gap: with exactly the variables in between filled in, it reads the name. */
  lemma {:induction false} MisreadGap(t: Template, first: string, text: string, between: set<string>,
                                      m: map<string, string>)
    returns (keys: set<string>, name: string)
    requires PlainMap(m) && between <= m.Keys && !GapsSafe(t, first, text, between, m)
    ensures between <= keys <= m.Keys && name in m && name !in keys && first !in keys && first != name
    ensures Simultaneous(t, Restrict(m, keys)).Then? && text + Simultaneous(t, Restrict(m, keys)).lit == name
  {
    var Then(lit, n, rest) := t;
    if Misread(first, text + lit, n, between, m) {
      keys, name := between, text + lit;
    } else {
      var text' := text + lit + Expansion(n, m);
      if n !in m {
        assert Expansion(n, m)[0] == '$' && text'[|text + lit|] == '$';
        DollarsAreSafe(rest, first, text', between + {n}, m);
      }
      keys, name := MisreadGap(rest, first, text', between + {n}, m);
      var inner := Simultaneous(rest, Restrict(m, keys));
      assert text + (lit + m[n] + inner.lit) == text' + inner.lit;
    }
  }

  lemma {:induction false} AmbiguousClashes(t: Template, m: map<string, string>)
    returns (keys: set<string>, name: string)
    requires PlainMap(m) && !Unambiguous(t, m)
    ensures keys <= m.Keys && name in m && name !in keys && Clash(Simultaneous(t, Restrict(m, keys)), name)
  {
    var Then(lit, n, rest) := t;
    if Unambiguous(rest, m) {
      keys, name := MisreadGap(rest, n, "", {}, m);
      assert "" + Simultaneous(rest, Restrict(m, keys)).lit == Simultaneous(rest, Restrict(m, keys)).lit;
    } else {
      keys, name := AmbiguousClashes(rest, m);
    }
  }

  lemma DistinctAppend(a: Vars, b: Vars)
    requires Distinct(a) && Distinct(b) && MapOf(a).Keys !! MapOf(b).Keys
    ensures Distinct(a + b)
  {
    Keys(a);
    Keys(b);
    forall i, j | 0 <= i < j < |a + b| ensures (a + b)[i].0 != (a + b)[j].0 {
      if i < |a| <= j {
        assert a[i] in a && b[j - |a|] in b;
      }
    }
  }

  lemma {:induction false} MapOfAppend(a: Vars, b: Vars)
    ensures MapOf(a + b) == MapOf(a) + MapOf(b)
  {
    if a == [] {
      assert a + b == b;
    } else {
      assert (a + b)[1..] == a[1..] + b;
      MapOfAppend(a[1..], b);
      MergeAssociates(map[a[0].0 := a[0].1], MapOf(a[1..]), MapOf(b));
    }
  }

  lemma MergeAssociates(x: map<string, string>, y: map<string, string>, z: map<string, string>)
    ensures x + (y + z) == (x + y) + z
  {
  }

  lemma ListsAppend(a: Vars, m: map<string, string>, b: Vars, m': map<string, string>)
    requires Lists(a, m) && Lists(b, m') && m.Keys !! m'.Keys
    ensures Lists(a + b, m + m')
  {
    DistinctAppend(a, b);
    MapOfAppend(a, b);
  }

  lemma ListsOne(name: string, value: string)
    ensures Lists([(name, value)], map[name := value])
  {
    assert [(name, value)][1..] == [];
    assert MapOf([(name, value)]) == map[name := value] + MapOf([]);
  }

  /** Every map can be listed. */
  lemma {:induction false} Listing(m: map<string, string>) returns (vars: Vars)
    ensures Lists(vars, m)
    decreases |m|
  {
    if m == map[] {
      vars := [];
    } else {
      var k :| k in m;
      var rest := Listing(m - {k});
      ListsOne(k, m[k]);
      ListsAppend([(k, m[k])], map[k := m[k]], rest, m - {k});
      vars := [(k, m[k])] + rest;
      assert m == map[k := m[k]] + (m - {k});
    }
  }

  /** A listing that runs the given keys first and the given name next. */
  lemma ListingWithPrefix(m: map<string, string>, keys: set<string>, name: string) returns (done: Vars, rest: Vars)
    requires keys <= m.Keys && name in m && name !in keys
    ensures Lists(done + rest, m) && Lists(done, Restrict(m, keys)) && rest != [] && rest[0] == (name, m[name])
  {
    var here, mine := [(name, m[name])], map[name := m[name]];
    var first, others := Restrict(m, keys), m - keys - {name};
    done := Listing(first);
    rest := Listing(others);
    ListsOne(name, m[name]);
    ListsAppend(here, mine, rest, others);
    rest := here + rest;
    ListsAppend(done, first, rest, mine + others);
    assert m == first + (mine + others);
  }

  /** The passes meet no clash in any order if and only if the template is unambiguous. */
  lemma NeverClashes(t: Template, m: map<string, string>)
    requires PlainMap(m)
    ensures (forall vars :: Lists(vars, m) ==> ClashFree(t, vars)) <==> Unambiguous(t, m)
  {
    if Unambiguous(t, m) {
      forall vars | Lists(vars, m) ensures ClashFree(t, vars) {
        assert [] + vars == vars;
        UnambiguousHasNoClash(t, [], vars, m);
      }
    } else {
      var keys, name := AmbiguousClashes(t, m);
      var done, rest := ListingWithPrefix(m, keys, name);
      FillAllAppend(t, done, rest);
      FillAllIsSimultaneous(t, done);
      assert !ClashFree(t, done + rest);
    }
  }

  lemma {:induction false} GapsApartAreSafe(t: Template, first: string, text: string, between: set<string>,
      m: map<string, string>)
    requires GapsApart(t, text, m)
    ensures GapsSafe(t, first, text, between, m)
  {
    if t.End? {
    } else {
      GapsApartAreSafe(t.rest, first, text + t.lit + Expansion(t.name, m), between + {t.name}, m);
    }
  }

  lemma {:induction false} ApartIsUnambiguous(t: Template, m: map<string, string>)
    requires Apart(t, m)
    ensures Unambiguous(t, m)
  {
    if t.End? {
    } else {
      GapsApartAreSafe(t.rest, t.name, "", {}, m);
      ApartIsUnambiguous(t.rest, m);
    }
  }

  /** Repeated replacement of an unambiguous template, in whatever order the variables come, is one
      simultaneous substitution that leaves unknown placeholders as they are. */
  lemma AnyOrderSubstitutes(t: Template, m: map<string, string>, vars: Vars)
    requires WellFormed(t) && PlainMap(m) && Unambiguous(t, m) && Lists(vars, m)
    ensures ReplaceVars(Render(t), vars) == Render(Simultaneous(t, m))
  {
    NeverClashes(t, m);
    Keys(vars);
    SubstitutionIsSimultaneous(t, vars);
  }

  // ----- Why the condition is needed -----

  /** One pass over a misread gap, with nothing before it and nothing to find after it. */
  lemma MisreadPass(p: string, name: string, q: string, value: string)
    requires PlainName(p) && PlainName(name) && PlainName(q) && p != name
    ensures ReplaceAll("$" + p + ("$" + (name + ("$" + (q + "$")))), Placeholder(name), value) ==
      "$" + p + (value + (q + "$"))
  {
    var rest := name + ("$" + (q + "$"));
    PassDollar(p, rest, name, value);
    assert "$" + rest == Placeholder(name) + (q + "$");
    PassFound(q + "$", name, value);
    PassPlain(q, "$", name, value);
    PassEnd("", name, value);
  }

  /** A pass that finds nothing in a lone placeholder of another name. */
  lemma IdlePass(text: string, name: string, value: string)
    requires Plain(text) && PlainName(name) && text != name
    ensures ReplaceAll("$" + text + "$", Placeholder(name), value) == "$" + text + "$"
  {
    PassDollar(text, "", name, value);
    PassEnd("", name, value);
    assert "$" + "" == "$";
  }

  lemma TwoPasses(s: string, a: string, va: string, b: string, vb: string)
    ensures ReplaceVars(s, [(a, va), (b, vb)]) == ReplaceAll(ReplaceAll(s, Placeholder(a), va), Placeholder(b), vb)
  {
    var s' := ReplaceAll(s, Placeholder(a), va);
    assert [(a, va), (b, vb)][1..] == [(b, vb)];
    assert [(b, vb)][1..] == [];
    assert ReplaceVars(s', [(b, vb)]) == ReplaceVars(ReplaceAll(s', Placeholder(b), vb), []);
  }

  /** A literal between two placeholders that is a variable's name is replaced together with its
      neighbours' dollars: from "$p$name$q$" with name before p, p is never filled in. */
  lemma LiteralTakenForName(p: string, name: string, q: string, value: string, forP: string)
    requires PlainName(p) && PlainName(name) && PlainName(q) && p != name && Plain(value) && Plain(forP)
    ensures var t, vars := Then("", p, Then(name, q, End(""))), [(name, value), (p, forP)];
      ReplaceVars(Render(t), vars) ==
        "$" + (p + value + q) + "$" != Render(Simultaneous(t, map[name := value, p := forP]))
  {
    var t := Then("", p, Then(name, q, End("")));
    assert Render(End("")) == "";
    assert Render(t.rest) == name + Placeholder(q) + "";
    assert Render(t) == "" + Placeholder(p) + Render(t.rest);
    assert Render(t) == "$" + p + ("$" + (name + ("$" + (q + "$"))));
    MisreadPass(p, name, q, value);
    var eaten := p + value + q;
    assert "$" + p + (value + (q + "$")) == "$" + eaten + "$";
    IdlePass(eaten, p, forP);
    TwoPasses(Render(t), name, value, p, forP);
    var filled := Simultaneous(t, map[name := value, p := forP]);
    assert filled.lit == "" + forP + Simultaneous(t.rest, map[name := value, p := forP]).lit;
    assert Render(filled)[0] == (if forP == "" then name[0] else forP[0]) != '$';
  }

  lemma PlainStays(text: string, vars: Vars)
    requires Plain(text)
    ensures ReplaceVars(text, vars) == text
    decreases |vars|
  {
    if vars == [] {
    } else {
      var (name, value) := vars[0];
      PassPlain(text, "", name, value);
      assert text + "" == text;
      PlainStays(text, vars[1..]);
    }
  }
}
