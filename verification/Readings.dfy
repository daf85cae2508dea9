/** Field maps as a diff reads them: an absent field is an empty one, and of an
    optional field it also matters whether it is stated. */
module Readings {
  import opened Fields
  import opened Groups
  import opened Overlay

  ghost predicate SameReading(opt: set<Field>, f: FieldMap, g: FieldMap) {
    forall k: Field :: Get(f, k) == Get(g, k) && (k in opt ==> (k in f <==> k in g))
  }

  /** Two maps of texts that agree once an absent text reads as an empty one. */
  ghost predicate ReadsAlike(a: map<string, string>, b: map<string, string>) {
    forall k: string :: Get(a, k) == Get(b, k)
  }

  /** Every empty field is an optional one. */
  ghost predicate Solid(opt: set<Field>, f: FieldMap) {
    forall k | k in f && f[k] == "" :: k in opt
  }

  /** Two sums read the same exactly when their groups do. */
  lemma SumReads(opt: set<Field>, gs: seq<FieldMap>, hs: seq<FieldMap>, home: Field -> int)
    requires |gs| == |hs| && Homed(gs, home) && Homed(hs, home)
    ensures SameReading(opt, Sum(gs), Sum(hs)) <==> forall i | 0 <= i < |gs| :: SameReading(opt, gs[i], hs[i])
  {
    hide Sum;
    forall k
      ensures k in Sum(gs) <==> 0 <= home(k) < |gs| && k in gs[home(k)]
      ensures k in Sum(hs) <==> 0 <= home(k) < |hs| && k in hs[home(k)]
      ensures 0 <= home(k) < |gs| ==> Get(Sum(gs), k) == Get(gs[home(k)], k) && Get(Sum(hs), k) == Get(hs[home(k)], k)
    {
      SumAt(gs, home, k);
      SumAt(hs, home, k);
    }
    if SameReading(opt, Sum(gs), Sum(hs)) {
      forall i, k: Field | 0 <= i < |gs|
        ensures Get(gs[i], k) == Get(hs[i], k) && (k in opt ==> (k in gs[i] <==> k in hs[i]))
      {
        assert Get(Sum(gs), k) == Get(Sum(hs), k);
      }
    }
    if forall i | 0 <= i < |gs| :: SameReading(opt, gs[i], hs[i]) {
      forall k: Field
        ensures Get(Sum(gs), k) == Get(Sum(hs), k) && (k in opt ==> (k in Sum(gs) <==> k in Sum(hs)))
      {
        if 0 <= home(k) < |gs| {
          assert SameReading(opt, gs[home(k)], hs[home(k)]);
        }
      }
    }
  }

  lemma SolidReads(opt: set<Field>, f: FieldMap, g: FieldMap)
    requires Solid(opt, f) && Solid(opt, g)
    ensures SameReading(opt, f, g) <==> f == g
  {
    if SameReading(opt, f, g) {
      forall k
        ensures k in f <==> k in g
        ensures k in f ==> f[k] == g[k]
      {
        assert Get(f, k) == Get(g, k);
      }
    }
  }

  /** Of two maps of the same fields a reading loses nothing. */
  lemma SameKeysRead(opt: set<Field>, f: FieldMap, g: FieldMap)
    requires f.Keys == g.Keys
    ensures SameReading(opt, f, g) <==> f == g
  {
    if SameReading(opt, f, g) {
      forall k | k in f
        ensures f[k] == g[k]
      {
        assert k in g && Get(f, k) == Get(g, k);
      }
    }
  }

  lemma KeyedReads(opt: set<Field>, section: Section, a: map<string, string>, b: map<string, string>)
    requires forall k | k in opt :: k.In? ==> k.section != section
    ensures SameReading(opt, Keyed(section, a), Keyed(section, b)) <==> ReadsAlike(a, b)
  {
    forall k: string
      ensures Get(Keyed(section, a), In(section, k)) == Get(a, k)
      ensures Get(Keyed(section, b), In(section, k)) == Get(b, k)
    {
      KeyedGet(section, a, k);
      KeyedGet(section, b, k);
    }
    if ReadsAlike(a, b) {
      forall k: Field
        ensures Get(Keyed(section, a), k) == Get(Keyed(section, b), k)
      {
        if k.In? && k.section == section {
          assert k == In(section, k.name) && Get(a, k.name) == Get(b, k.name);
        }
      }
    }
    if SameReading(opt, Keyed(section, a), Keyed(section, b)) {
      forall k: string
        ensures Get(a, k) == Get(b, k)
      {
        assert Get(Keyed(section, a), In(section, k)) == Get(Keyed(section, b), In(section, k));
      }
    }
  }

  lemma KeyedGet(section: Section, a: map<string, string>, k: string)
    ensures Get(Keyed(section, a), In(section, k)) == Get(a, k)
  {
    assert In(section, k) in Keyed(section, a) <==> k in a;
  }

  lemma {:induction false} StatedIsSolid(opt: set<Field>, entries: seq<Entry>)
    requires forall i | 0 <= i < |entries| ::
      entries[i].stated && entries[i].value == "" ==> entries[i].field in opt
    ensures Solid(opt, Stated(entries))
  {
    if entries != [] {
      StatedIsSolid(opt, entries[..|entries| - 1]);
    }
  }
}
