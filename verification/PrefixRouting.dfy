/** The v2 routing rule: the first registered service whose name the url, after its slash, starts with. */
module PrefixRouting {
  import opened Options

  predicate SlashFree(s: string) {
    '/' !in s
  }

  function FirstPrefix(names: seq<string>, text: string, k: nat): Option<nat>
    decreases |names| - k
  {
    if k >= |names| then None
    else if names[k] <= text then Some(k)
    else FirstPrefix(names, text, k + 1)
  }

  /** The intended rule: the first service of exactly that name. */
  function Lookup(names: seq<string>, name: string, k: nat): Option<nat>
    decreases |names| - k
  {
    if k >= |names| then None
    else if names[k] == name then Some(k)
    else Lookup(names, name, k + 1)
  }

  lemma {:induction false} FirstPrefixIs(names: seq<string>, text: string, k: nat)
    requires k <= |names|
    ensures match FirstPrefix(names, text, k)
      case None => forall i :: k <= i < |names| ==> !(names[i] <= text)
      case Some(j) => k <= j < |names| && names[j] <= text && forall i :: k <= i < j ==> !(names[i] <= text)
    decreases |names| - k
  {
    if k == |names| {
    } else {
      FirstPrefixIs(names, text, k + 1);
    }
  }

  lemma {:induction false} LookupIs(names: seq<string>, name: string, k: nat)
    requires k <= |names|
    ensures match Lookup(names, name, k)
      case None => forall i :: k <= i < |names| ==> names[i] != name
      case Some(j) => k <= j < |names| && names[j] == name && forall i :: k <= i < j ==> names[i] != name
    decreases |names| - k
  {
    if k == |names| {
    } else {
      LookupIs(names, name, k + 1);
    }
  }

  /** A url after its leading slash. */
  function Path(name: string, method_: string): string {
    name + "/" + method_
  }

  /** A name without slash that starts the path starts its first part. */
  lemma PrefixOfPath(p: string, name: string, method_: string)
    requires SlashFree(p)
    ensures p <= Path(name, method_) <==> p <= name
  {
    var path := Path(name, method_);
    assert path == name + ("/" + method_);
    if p <= path {
      assert path[|name|] == '/';
      assert forall i :: 0 <= i < |p| ==> p[i] == path[i] && p[i] != '/';
      assert |p| <= |name|;
    }
  }

  lemma StartersOf(names: seq<string>, name: string, method_: string)
    requires forall n :: n in names ==> SlashFree(n)
    ensures forall i :: 0 <= i < |names| ==> (names[i] <= Path(name, method_) <==> names[i] <= name)
  {
    forall i | 0 <= i < |names| ensures names[i] <= Path(name, method_) <==> names[i] <= name {
      PrefixOfPath(names[i], name, method_);
    }
  }

  /** The dispatch of "/name/method" goes to the service registered as name at position k if and only if
      no earlier name is a prefix of it. */
  lemma DispatchedIffNoEarlierPrefix(names: seq<string>, k: nat, method_: string)
    requires forall n :: n in names ==> SlashFree(n)
    requires k < |names|
    ensures FirstPrefix(names, Path(names[k], method_), 0) == Some(k) <==> forall i ::
      0 <= i < k ==> !(names[i] <= names[k])
  {
    StartersOf(names, names[k], method_);
    FirstPrefixIs(names, Path(names[k], method_), 0);
  }

  /** For any first part, registered or not: the dispatch is the intended lookup if and only if no name
      before the intended service, or none at all if there is no such service, is a prefix. */
  lemma DispatchIsLookupIff(names: seq<string>, name: string, method_: string)
    requires forall n :: n in names ==> SlashFree(n)
    ensures var k := Lookup(names, name, 0);
      FirstPrefix(names, Path(name, method_), 0) == k <==>
      forall i :: 0 <= i < |names| && (k.Some? ==> i < k.value) ==> !(names[i] <= name)
  {
    LookupIs(names, name, 0);
    StartersOf(names, name, method_);
    FirstPrefixIs(names, Path(name, method_), 0);
  }

  /** No name is a prefix of another, nor registered twice. */
  predicate PrefixFree(names: seq<string>) {
    forall i, j :: 0 <= i < |names| && 0 <= j < |names| && i != j ==> !(names[i] <= names[j])
  }

  /** With prefix-free names every registered service is reached by its own urls. */
  lemma PrefixFreeIsExact(names: seq<string>, k: nat, method_: string)
    requires PrefixFree(names) && k < |names| && forall n :: n in names ==> SlashFree(n)
    ensures FirstPrefix(names, Path(names[k], method_), 0) == Some(k) == Lookup(names, names[k], 0)
  {
    DispatchedIffNoEarlierPrefix(names, k, method_);
    LookupIs(names, names[k], 0);
  }

  /** But no list keeps strangers out: a longer first part that is registered nowhere is still
      dispatched, whatever the names are. */
  lemma StrangersAreDispatched(names: seq<string>, k: nat, suffix: string, method_: string)
    requires k < |names| && names[k] + suffix !in names
    ensures FirstPrefix(names, Path(names[k] + suffix, method_), 0).Some? && Lookup(names, names[k] + suffix, 0).None?
  {
    FirstPrefixIs(names, Path(names[k] + suffix, method_), 0);
    LookupIs(names, names[k] + suffix, 0);
    assert Path(names[k] + suffix, method_) == names[k] + (suffix + "/" + method_);
  }

  // ----- When the order of registration matters -----

  /** The name that serves a text. */
  function Chosen(names: seq<string>, text: string): Option<string> {
    match FirstPrefix(names, text, 0)
    case None => None
    case Some(k) => if k < |names| then Some(names[k]) else None
  }

  predicate Distinct(names: seq<string>) {
    forall i, j :: 0 <= i < j < |names| ==> names[i] != names[j]
  }

  predicate Permutation(names: seq<string>, names': seq<string>) {
    multiset(names) == multiset(names')
  }

  /** The order is irrelevant: every text is served by the same name in every order. */
  ghost predicate OrderIrrelevant(names: seq<string>) {
    forall names', text :: Permutation(names, names') ==> Chosen(names', text) == Chosen(names, text)
  }

  function Reverse(names: seq<string>): (r: seq<string>) {
    if names == [] then [] else Reverse(names[1..]) + [names[0]]
  }

  lemma {:induction false} ReverseIsPermutation(names: seq<string>)
    ensures Permutation(names, Reverse(names)) && |Reverse(names)| == |names|
    ensures forall i :: 0 <= i < |names| ==> Reverse(names)[|names| - 1 - i] == names[i]
  {
    if names == [] {
    } else {
      ReverseIsPermutation(names[1..]);
      assert names == [names[0]] + names[1..];
      assert multiset(names) == multiset([names[0]]) + multiset(names[1..]);
      forall i | 0 <= i < |names| ensures Reverse(names)[|names| - 1 - i] == names[i] {
        if i > 0 {
          assert Reverse(names[1..])[|names| - 1 - i] == names[1..][i - 1];
        }
      }
    }
  }

  /** At most one name of a prefix-free list starts a given text. */
  lemma OneStarts(a: string, b: string, text: string)
    requires a <= text && b <= text
    ensures a <= b || b <= a
  {
    assert a == text[..|a|] && b == text[..|b|];
  }

  lemma PermutationHolds(names: seq<string>, names': seq<string>, n: string)
    requires Permutation(names, names')
    ensures n in names <==> n in names'
  {
    assert n in multiset(names) <==> n in multiset(names');
  }

  lemma SameChoice(names: seq<string>, names': seq<string>, text: string)
    requires PrefixFree(names) && Permutation(names, names')
    ensures Chosen(names', text) == Chosen(names, text)
  {
    FirstPrefixIs(names, text, 0);
    FirstPrefixIs(names', text, 0);
    var a, b := Chosen(names, text), Chosen(names', text);
    if b.Some? {
      PermutationHolds(names, names', b.value);
      var j :| 0 <= j < |names| && names[j] == b.value;
      if a.Some? && a != b {
        OneStarts(a.value, b.value, text);
      }
    } else if a.Some? {
      PermutationHolds(names, names', a.value);
    }
  }

  lemma FirstNotAfter(names: seq<string>, text: string, i: nat) returns (k: nat)
    requires i < |names| && names[i] <= text
    ensures k <= i && FirstPrefix(names, text, 0) == Some(k) && Chosen(names, text) == Some(names[k])
  {
    FirstPrefixIs(names, text, 0);
    k := FirstPrefix(names, text, 0).value;
  }

  lemma ReverseAt(names: seq<string>, i: nat)
    requires i < |names|
    ensures |Reverse(names)| == |names| && Reverse(names)[|names| - 1 - i] == names[i]
  {
    ReverseIsPermutation(names);
  }

  lemma ReverseNotBefore(names: seq<string>, text: string, i: nat) returns (k: nat)
    requires i < |names| && names[i] <= text
    ensures i <= k < |names| && Chosen(Reverse(names), text) == Some(names[k])
  {
    ReverseAt(names, i);
    k := FirstNotAfter(Reverse(names), text, |names| - 1 - i);
    k := |names| - 1 - k;
    ReverseAt(names, k);
  }

  /** Of two names that start a text, the list and its reverse choose different ones. */
  lemma ReverseChoosesOther(names: seq<string>, i: nat, j: nat)
    requires Distinct(names) && i < |names| && j < |names| && i != j && names[i] <= names[j]
    ensures Chosen(Reverse(names), names[j]) != Chosen(names, names[j])
  {
    var first := FirstNotAfter(names, names[j], if i < j then i else j);
    var last := ReverseNotBefore(names, names[j], if i < j then j else i);
    assert names[first] != names[last];
  }

  /** Distinct names are served alike in every order of registration if and only if none is a prefix of
      another. */
  lemma OrderIrrelevantIff(names: seq<string>)
    requires Distinct(names)
    ensures OrderIrrelevant(names) <==> PrefixFree(names)
  {
    if PrefixFree(names) {
      forall names', text | Permutation(names, names') ensures Chosen(names', text) == Chosen(names, text) {
        SameChoice(names, names', text);
      }
    } else {
      var i, j :| 0 <= i < |names| && 0 <= j < |names| && i != j && names[i] <= names[j];
      ReverseIsPermutation(names);
      ReverseChoosesOther(names, i, j);
      assert Permutation(names, Reverse(names));
    }
  }
}
