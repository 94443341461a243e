/** The key-to-spec table of a registry, as a value: what a sequence of
    `register` calls leaves in it, and which specs `registerAll` hands to
    `register` before it stops. */
module Tables {
  import opened Values

  /** The table after `methodSpecs[s.key] = s` for each `s` of `ss`, in
      order. */
  function Install(t: map<string, MethodSpec>, ss: seq<MethodSpec>): map<string, MethodSpec> {
    if ss == [] then t
    else Install(t, ss[..|ss| - 1])[ss[|ss| - 1].key := ss[|ss| - 1]]
  }

  /** Registering adds exactly the keys of the specs registered. */
  lemma {:induction false} InstallKeys(t: map<string, MethodSpec>, ss: seq<MethodSpec>)
    ensures Install(t, ss).Keys == t.Keys + set s | s in ss :: s.key
  {
    if ss != [] {
      var init := ss[..|ss| - 1];
      InstallKeys(t, init);
      assert ss == init + [ss[|ss| - 1]];
      assert (set s | s in ss :: s.key) == (set s | s in init :: s.key) + {ss[|ss| - 1].key};
    }
  }

  /** The last spec of `ss` whose key is `k`. */
  function LastWith(ss: seq<MethodSpec>, k: string): (r: Option<MethodSpec>)
    ensures r.Some? ==> r.value in ss && r.value.key == k
    ensures r.None? <==> forall s :: s in ss ==> s.key != k
  {
    if ss == [] then None
    else if ss[|ss| - 1].key == k then Some(ss[|ss| - 1])
    else LastWith(ss[..|ss| - 1], k)
  }

  /** Every entry is stored under its own key. */
  ghost predicate Keyed(t: map<string, MethodSpec>) {
    forall k :: k in t ==> t[k].key == k
  }

  /** Registering in order: for a key that several specs share, the last
      one wins; a key none of them has keeps its entry, or stays absent. */
  lemma {:induction false} InstallLastWins(t: map<string, MethodSpec>, ss: seq<MethodSpec>, k: string)
    ensures LastWith(ss, k).Some? ==> k in Install(t, ss) && Install(t, ss)[k] == LastWith(ss, k).value
    ensures LastWith(ss, k).None? ==> (k in Install(t, ss) <==> k in t)
    ensures LastWith(ss, k).None? && k in t ==> Install(t, ss)[k] == t[k]
  {
    if ss != [] {
      InstallLastWins(t, ss[..|ss| - 1], k);
      if ss[|ss| - 1].key != k && LastWith(ss, k).None? {
        assert forall s :: s in ss[..|ss| - 1] ==> s in ss;
      }
    }
  }

  /** Installing specs keeps every entry under its own key. */
  lemma {:induction false} InstallKeyed(t: map<string, MethodSpec>, ss: seq<MethodSpec>)
    requires Keyed(t)
    ensures Keyed(Install(t, ss))
  {
    if ss != [] {
      InstallKeyed(t, ss[..|ss| - 1]);
    }
  }

  /** The specs among the first `n` items of `vs`, in order. */
  function Specs(vs: seq<Value>, n: nat): (ss: seq<MethodSpec>)
    requires n <= |vs|
    ensures |ss| <= n
  {
    if n == 0 then []
    else Specs(vs, n - 1) + (if vs[n - 1].Spec? then [vs[n - 1].spec] else [])
  }

  /** When every one of the first `n` items is a spec, the specs among them
      are all of them. */
  lemma {:induction false} AllSpecs(vs: seq<Value>, n: nat)
    requires n <= |vs| && forall k :: 0 <= k < n ==> vs[k].Spec?
    ensures |Specs(vs, n)| == n && forall k :: 0 <= k < n ==> Specs(vs, n)[k] == vs[k].spec
  {
    if n > 0 {
      AllSpecs(vs, n - 1);
    }
  }

  /** The index of the first item of `vs[lo..]` that is not a spec, or
      `|vs|`. */
  function FirstNonSpec(vs: seq<Value>, lo: nat): (n: nat)
    requires lo <= |vs|
    ensures lo <= n <= |vs|
    ensures forall k :: lo <= k < n ==> vs[k].Spec?
    ensures n < |vs| ==> !vs[n].Spec?
    decreases |vs| - lo
  {
    if lo == |vs| || !vs[lo].Spec? then lo else FirstNonSpec(vs, lo + 1)
  }

  /** The specs `registerAll(vs)` registers: those before the first item
      that is not a spec, whose `register` throws and ends the `forEach`. */
  function Registered(vs: seq<Value>): seq<MethodSpec> {
    Specs(vs, FirstNonSpec(vs, 0))
  }

  /** Once every item before `j` is a spec and the one at `j` (if any) is
      not, `registerAll` has registered exactly the first `j`. */
  lemma RegisteredUpTo(vs: seq<Value>, j: nat)
    requires j <= |vs| && (forall k :: 0 <= k < j ==> vs[k].Spec?) && (j < |vs| ==> !vs[j].Spec?)
    ensures Registered(vs) == Specs(vs, j)
  {
    assert FirstNonSpec(vs, 0) == j;
  }

  /** One more item that is a spec: `register` stores it over the table
      built from the items before it. */
  lemma RegisterStep(t: map<string, MethodSpec>, vs: seq<Value>, j: nat)
    requires j < |vs| && vs[j].Spec?
    ensures Specs(vs, j + 1) == Specs(vs, j) + [vs[j].spec]
    ensures Install(t, Specs(vs, j + 1)) == Install(t, Specs(vs, j))[vs[j].spec.key := vs[j].spec]
  {
    InstallStep(t, Specs(vs, j), vs[j].spec);
  }

  lemma InstallStep(t: map<string, MethodSpec>, ss: seq<MethodSpec>, s: MethodSpec)
    ensures Install(t, ss + [s]) == Install(t, ss)[s.key := s]
  {
    assert (ss + [s])[..|ss|] == ss;
  }
}
