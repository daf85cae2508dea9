/** Executing a plan. Whichever of its changes are carried out, in whatever
    order, planning again asks for exactly the others; and when a whole run
    leaves nothing to do. */
module Convergence {
  import opened Diffs
  import opened Edits
  import opened Fields
  import opened Matching
  import opened Overlay
  import opened Plans
  import opened Resources
  import opened Schema
  import opened Settling
  import opened Sorting
  import opened Wrappers

  // ---- Executing a plan ---------------------------------------------------------

  ghost predicate Sound(desired: View, actual: View) {
    && Consistent(desired) && Consistent(actual)
    && UniqueUids(desired) && OneSecretPerName(desired)
    && OneOwner(desired, actual) && Uncontested(desired, actual)
    && (forall id | id in desired :: WellTyped(desired[id]))
  }

  /** What a plan of this live state holds. */
  ghost function Due(m: Models, desired: View, actual: View, opts: PlanOptions): set<Change>
    requires Consistent(actual)
  {
    Changes(m, desired, actual, IndexOf(actual), opts)
  }

  ghost function Effective(s: set<Change>): set<Change> {
    set c | c in s && c.action != ActionNoop
  }

  /** What a declared resource calls for. */
  ghost function Calls(m: Models, actual: View, d: Resource): Change {
    ChangeTo(m, MatchIn(actual, d), d)
  }

  /** What a declared resource is once created, or overlaid on its match. */
  ghost function Settled(m: Models, actual: View, d: Resource): Resource {
    match MatchIn(actual, d)
    case None => Created(m, d)
    case Some(x) => Updated(m, x, d)
  }

  /** One change of a plan for `actual`, as an edit: a create adds the resource
      as declared, an update overlays the resource the planner matched. */
  ghost function EditFor(m: Models, desired: View, actual: View, c: Change): Edit {
    match c.action
    case ActionNoop => Edit({}, None)
    case ActionDelete => Edit({c.Id()}, None)
    case ActionCreate => if c.Id() in desired then Edit({}, Some(Created(m, desired[c.Id()]))) else Edit({}, None)
    case ActionUpdate =>
      if c.Id() in desired && MatchIn(actual, desired[c.Id()]).Some? then
        var x := MatchIn(actual, desired[c.Id()]).value;
        Edit({x.Id()}, Some(Updated(m, x, desired[c.Id()])))
      else Edit({}, None)
  }

  ghost function EditsFor(m: Models, desired: View, actual: View, p: seq<Change>): (es: seq<Edit>)
    ensures |es| == |p| && forall i | 0 <= i < |p| :: es[i] == EditFor(m, desired, actual, p[i])
  {
    if p == [] then [] else [EditFor(m, desired, actual, p[0])] + EditsFor(m, desired, actual, p[1..])
  }

  /** The live state after the changes `p` of a plan for `actual`. */
  ghost function Run(m: Models, desired: View, actual: View, p: seq<Change>): View {
    ApplyAll(actual, EditsFor(m, desired, actual, p))
  }

  // ---- What a plan holds -----------------------------------------------------------

  lemma AnyListing(m: Models, desired: View, actual: View, byUid: View, opts: PlanOptions)
    requires Consistent(actual) && OneOwner(desired, actual) && Listing(byUid, actual)
    ensures Changes(m, desired, actual, byUid, opts) == Due(m, desired, actual, opts)
    ensures forall id | id in desired :: ChangeFor(m, actual, byUid, desired[id]) == Calls(m, actual, desired[id])
  {
    hide Changes, ChangeTo, MatchIn, Listing;
    ListingsAgree(m, desired, actual, byUid, IndexOf(actual), opts);
  }

  lemma CallIs(m: Models, actual: View, d: Resource)
    ensures Calls(m, actual, d).Id() == d.Id() && Calls(m, actual, d).action != ActionDelete
    ensures Calls(m, actual, d).action == ActionCreate <==> MatchIn(actual, d).None?
    ensures Calls(m, actual, d).action == ActionNoop <==>
      MatchIn(actual, d).Some? && Diff(m, MatchIn(actual, d).value, d) == []
  {
    hide Diff, MatchIn;
  }

  /** A change is a delete of a prunable resource, or what a declared one calls for. */
  lemma Origin(m: Models, desired: View, actual: View, opts: PlanOptions, c: Change)
    requires Consistent(desired) && Consistent(actual) && OneOwner(desired, actual)
    requires c in Due(m, desired, actual, opts)
    ensures c.action == ActionDelete ==>
      opts.prune && c.Id() in actual && Prunable(desired, opts, actual[c.Id()]) && c == DeleteOf(actual[c.Id()])
    ensures c.action != ActionDelete ==> c.Id() in desired && c == Calls(m, actual, desired[c.Id()])
  {
    hide Prunable, ChangeTo, Calls;
    AnyListing(m, desired, actual, IndexOf(actual), opts);
    forall id | id in desired
      ensures Calls(m, actual, desired[id]).Id() == id && Calls(m, actual, desired[id]).action != ActionDelete
    {
      CallIs(m, actual, desired[id]);
    }
  }

  // ---- Where a change shows ---------------------------------------------------------

  lemma SettledIs(m: Models, actual: View, d: Resource)
    requires Consistent(actual)
    ensures var r := Settled(m, actual, d);
      && r.kind == d.kind
      && (match MatchIn(actual, d)
          case None => r.meta == d.meta && d.Id() !in actual
          case Some(x) => r.meta == x.meta && (r.Id() == x.Id() || (r.Id() == d.Id() && d.Id() !in actual)))
  {
    hide Stamped, OverSpec;
    if MatchIn(actual, d).Some? {
      MatchIsLive(actual, d);
    }
  }

  lemma EditOfCall(m: Models, desired: View, actual: View, d: Resource)
    requires d.Id() in desired && desired[d.Id()] == d && Calls(m, actual, d).action != ActionNoop
    ensures var e := EditFor(m, desired, actual, Calls(m, actual, d));
      && e.put == Some(Settled(m, actual, d))
      && e.gone == match MatchIn(actual, d) case None => {} case Some(x) => {x.Id()}
  {
    hide Diff, MatchIn, Created, Updated;
  }

  /** A declared resource's change shows at the live one it stands for, and at
      its own identity if nothing is there. */
  ghost predicate ShowsAt(actual: View, d: Resource, t: Id) {
    if t in actual then MatchIn(actual, d) == Some(actual[t]) else t == d.Id()
  }

  lemma CallShowsAt(m: Models, desired: View, actual: View, d: Resource, t: Id)
    requires Consistent(actual) && d.Id() in desired && desired[d.Id()] == d
    requires t in EditFor(m, desired, actual, Calls(m, actual, d)).Touched()
    ensures Calls(m, actual, d).action != ActionNoop && ShowsAt(actual, d, t)
  {
    hide Settled, MatchIn, ChangeTo;
    CallIs(m, actual, d);
    EditOfCall(m, desired, actual, d);
    SettledIs(m, actual, d);
    if MatchIn(actual, d).Some? {
      MatchIsLive(actual, d);
    }
  }

  ghost predicate Touches(m: Models, desired: View, actual: View, c: Change, t: Id) {
    t in EditFor(m, desired, actual, c).Touched()
  }

  lemma MatchedIsKept(desired: View, actual: View, opts: PlanOptions, d: Resource, a: Resource)
    requires Consistent(desired) && Consistent(actual) && OwnedOnce(actual, d)
    requires d.Id() in desired && desired[d.Id()] == d && MatchIn(actual, d) == Some(a)
    ensures !Prunable(desired, opts, a)
  {
    hide Prunable, Match;
    MatchIsLive(actual, d);
    MatchIsMatchIn(actual, IndexOf(actual), d);
    if Prunable(desired, opts, a) {
      PrunableIsUnmatched(desired, actual, IndexOf(actual), opts, a, d);
    }
  }

  /** No two changes of a plan show at the same identity. */
  lemma ChangesKeepApart(m: Models, desired: View, actual: View, opts: PlanOptions, c: Change, e: Change, t: Id)
    requires Sound(desired, actual) && c in Due(m, desired, actual, opts) && e in Due(m, desired, actual, opts)
    requires Touches(m, desired, actual, c, t) && Touches(m, desired, actual, e, t)
    ensures c == e
  {
    hide Due, Prunable, Calls, MatchIn;
    Origin(m, desired, actual, opts, c);
    Origin(m, desired, actual, opts, e);
    if c.action != ActionDelete {
      CallShowsAt(m, desired, actual, desired[c.Id()], t);
    }
    if e.action != ActionDelete {
      CallShowsAt(m, desired, actual, desired[e.Id()], t);
    }
    if c.action != ActionDelete && e.action == ActionDelete {
      MatchedIsKept(desired, actual, opts, desired[c.Id()], actual[t]);
    }
    if e.action != ActionDelete && c.action == ActionDelete {
      MatchedIsKept(desired, actual, opts, desired[e.Id()], actual[t]);
    }
  }

  // ---- The live state after some changes ----------------------------------------------

  /** Some changes of a plan, each once, in any order. */
  ghost predicate SomeOf(m: Models, desired: View, actual: View, opts: PlanOptions, p: seq<Change>)
    requires Consistent(actual)
  {
    NoDuplicates(p) && forall c | c in p :: c in Due(m, desired, actual, opts)
  }

  lemma SomeKeepApart(m: Models, desired: View, actual: View, opts: PlanOptions, p: seq<Change>)
    requires Sound(desired, actual) && SomeOf(m, desired, actual, opts, p)
    ensures Apart(EditsFor(m, desired, actual, p))
  {
    hide Due, Sound, EditFor;
    var es := EditsFor(m, desired, actual, p);
    forall i, j | 0 <= i < j < |es|
      ensures es[i].Touched() !! es[j].Touched()
    {
      assert p[i] != p[j] && p[i] in p && p[j] in p;
      forall t
        ensures !(t in es[i].Touched() && t in es[j].Touched())
      {
        if t in es[i].Touched() && t in es[j].Touched() {
          ChangesKeepApart(m, desired, actual, opts, p[i], p[j], t);
        }
      }
    }
  }

  /** What the changes left alone is as it was. */
  lemma LeftAlone(m: Models, desired: View, actual: View, p: seq<Change>, t: Id)
    requires forall c | c in p :: !Touches(m, desired, actual, c, t)
    ensures Lookup(Run(m, desired, actual, p), t) == Lookup(actual, t)
  {
    hide EditFor;
    var es := EditsFor(m, desired, actual, p);
    forall e | e in es
      ensures t !in e.Touched()
    {
      var i :| 0 <= i < |es| && es[i] == e;
      assert p[i] in p;
    }
    UntouchedStays(actual, es, t);
  }

  /** What a change shows at is what it leaves there. */
  lemma Landed(m: Models, desired: View, actual: View, opts: PlanOptions, p: seq<Change>, c: Change, t: Id)
    requires Sound(desired, actual) && SomeOf(m, desired, actual, opts, p)
    requires c in p && Touches(m, desired, actual, c, t)
    ensures Lookup(Run(m, desired, actual, p), t) == EditFor(m, desired, actual, c).Leaves(t)
  {
    hide EditFor, Due, Sound;
    SomeKeepApart(m, desired, actual, opts, p);
    var i :| 0 <= i < |p| && p[i] == c;
    TouchedOnce(actual, EditsFor(m, desired, actual, p), i, t);
  }

  /** Something live afterwards was there before, or is what a change left. */
  lemma WhatIsLive(m: Models, desired: View, actual: View, opts: PlanOptions, p: seq<Change>, t: Id)
    requires Sound(desired, actual) && SomeOf(m, desired, actual, opts, p) && t in Run(m, desired, actual, p)
    ensures var r := Run(m, desired, actual, p)[t];
      || (t in actual && r == actual[t] && forall c | c in p :: !Touches(m, desired, actual, c, t))
      || exists id | id in desired :: IsDone(m, actual, desired[id], p) && r == Settled(m, actual, desired[id])
  {
    hide EditFor, Due, Sound, Run, Settled, IsDone;
    if c :| c in p && Touches(m, desired, actual, c, t) {
      Landed(m, desired, actual, opts, p, c, t);
      PutIsSettled(m, desired, actual, opts, p, c);
    } else {
      LeftAlone(m, desired, actual, p, t);
    }
  }

  /** The change that `d` calls for is among `p`. */
  ghost predicate IsDone(m: Models, actual: View, d: Resource, p: seq<Change>) {
    Calls(m, actual, d).action != ActionNoop && Calls(m, actual, d) in p
  }

  lemma PutIsSettled(m: Models, desired: View, actual: View, opts: PlanOptions, p: seq<Change>, c: Change)
    requires Sound(desired, actual) && SomeOf(m, desired, actual, opts, p) && c in p
    requires EditFor(m, desired, actual, c).put.Some?
    ensures c.Id() in desired && IsDone(m, actual, desired[c.Id()], p)
    ensures EditFor(m, desired, actual, c).put == Some(Settled(m, actual, desired[c.Id()]))
  {
    hide Due, Calls, Settled, MatchIn;
    Origin(m, desired, actual, opts, c);
    EditOfCall(m, desired, actual, desired[c.Id()]);
  }

  /** A done change has left its resource, and nothing where its match was. */
  lemma DoneIsLive(m: Models, desired: View, actual: View, opts: PlanOptions, p: seq<Change>, d: Resource)
    requires Sound(desired, actual) && SomeOf(m, desired, actual, opts, p)
    requires d.Id() in desired && desired[d.Id()] == d && IsDone(m, actual, d, p)
    ensures var r, after := Settled(m, actual, d), Run(m, desired, actual, p);
      && r.Id() in after && after[r.Id()] == r
      && (MatchIn(actual, d).Some? && MatchIn(actual, d).value.Id() != r.Id() ==>
        MatchIn(actual, d).value.Id() !in after)
  {
    hide Due, Sound, EditFor, Run, Settled, MatchIn, Calls;
    EditOfCall(m, desired, actual, d);
    var c := Calls(m, actual, d);
    Landed(m, desired, actual, opts, p, c, Settled(m, actual, d).Id());
    if MatchIn(actual, d).Some? {
      Landed(m, desired, actual, opts, p, c, MatchIn(actual, d).value.Id());
    }
  }

  /** Until its own change is done, what `d` stands for and its place are as they were. */
  lemma NotYetTouched(m: Models, desired: View, actual: View, opts: PlanOptions, p: seq<Change>, d: Resource, t: Id)
    requires Sound(desired, actual) && SomeOf(m, desired, actual, opts, p)
    requires d.Id() in desired && desired[d.Id()] == d && !IsDone(m, actual, d, p) && ShowsAt(actual, d, t)
    ensures Lookup(Run(m, desired, actual, p), t) == Lookup(actual, t)
  {
    hide Due, EditFor, Run, MatchIn, Calls, Prunable;
    forall c | c in p
      ensures !Touches(m, desired, actual, c, t)
    {
      if Touches(m, desired, actual, c, t) {
        Origin(m, desired, actual, opts, c);
        if c.action == ActionDelete {
          DeleteTouches(m, desired, actual, c, t);
          MatchedIsKept(desired, actual, opts, d, actual[t]);
        } else {
          CallShowsAt(m, desired, actual, desired[c.Id()], t);
        }
      }
    }
    LeftAlone(m, desired, actual, p, t);
  }

  lemma DeleteTouches(m: Models, desired: View, actual: View, c: Change, t: Id)
    requires c.action == ActionDelete && Touches(m, desired, actual, c, t)
    ensures t == c.Id()
  {}

  // ---- What is matched afterwards ---------------------------------------------------

  /** Sealing what `d` stands for: a live entry of the other secret kind, which
      keeps its UID. */
  ghost predicate Reseals(m: Models, actual: View, d: Resource) {
    && d.kind == KindSealedSecret && MatchIn(actual, d).Some?
    && (var x := MatchIn(actual, d).value; x.kind != d.kind && x.meta.uid != "" && Diff(m, x, d) != [])
  }

  /** Sealing what `s` stands for brings along the UID that `d` declares. */
  ghost predicate Intrudes(m: Models, actual: View, s: Resource, d: Resource) {
    && s.Id() != d.Id() && Reseals(m, actual, s)
    && UidKey(d) == ResourceId(s.kind, MatchIn(actual, s).value.meta.uid)
  }

  /** What stands for `d` after `p`, unless another resource took its UID. */
  ghost function Own(m: Models, actual: View, d: Resource, p: seq<Change>): Option<Resource> {
    if IsDone(m, actual, d, p) then Some(Settled(m, actual, d)) else MatchIn(actual, d)
  }

  ghost predicate Declared(desired: View, d: Resource) {
    d.Id() in desired && desired[d.Id()] == d
  }

  lemma OnlySealsTakeOver(m: Models, actual: View, s: Resource, x: Resource)
    requires Consistent(actual) && MatchIn(actual, s) == Some(x) && x.kind != s.kind && x.meta.uid != ""
    requires Calls(m, actual, s).action != ActionNoop
    ensures Reseals(m, actual, s)
  {
    hide MatchIn, Calls;
    MatchIsLive(actual, s);
    CallIs(m, actual, s);
    hide DiffSealedSecret;
  }

  /** A resource a change left has a declared UID only if it was made for it, or
      sealing brought the UID along. */
  lemma SettledOwner(m: Models, desired: View, actual: View, p: seq<Change>, s: Resource, d: Resource)
    requires Sound(desired, actual) && Declared(desired, s) && Declared(desired, d)
    requires IsDone(m, actual, s, p) && d.meta.uid != "" && UidKey(Settled(m, actual, s)) == UidKey(d)
    ensures s == d || Intrudes(m, actual, s, d)
  {
    hide Settled, MatchIn, Calls;
    SettledIs(m, actual, s);
    if s != d && MatchIn(actual, s).Some? {
      var x := MatchIn(actual, s).value;
      MatchIsLive(actual, s);
      if x.kind == s.kind {
        assert x.Id() in Owners(actual, d);
        OwnerIsMatch(actual, d, x.Id());
      } else {
        OnlySealsTakeOver(m, actual, s, x);
      }
    }
  }

  lemma OwnersAfter(m: Models, desired: View, actual: View, opts: PlanOptions, p: seq<Change>, d: Resource, i: Id)
    requires Sound(desired, actual) && SomeOf(m, desired, actual, opts, p) && Declared(desired, d)
    requires i in Owners(Run(m, desired, actual, p), d)
    ensures var r := Run(m, desired, actual, p)[i];
      || Own(m, actual, d, p) == Some(r)
      || exists id | id in desired ::
           && IsDone(m, actual, desired[id], p) && Intrudes(m, actual, desired[id], d)
           && r == Settled(m, actual, desired[id])
  {
    hide Due, Run, Settled, MatchIn, Calls, Intrudes;
    WhatIsLive(m, desired, actual, opts, p, i);
    var r := Run(m, desired, actual, p)[i];
    if id :| id in desired && IsDone(m, actual, desired[id], p) && r == Settled(m, actual, desired[id]) {
      SettledOwner(m, desired, actual, p, desired[id], d);
    } else {
      assert i in Owners(actual, d);
      OwnerIsMatch(actual, d, i);
      if IsDone(m, actual, d, p) {
        MatchIsTouched(m, desired, actual, d);
      }
    }
  }

  lemma MatchIsTouched(m: Models, desired: View, actual: View, d: Resource)
    requires Declared(desired, d) && Calls(m, actual, d).action != ActionNoop && MatchIn(actual, d).Some?
    ensures Touches(m, desired, actual, Calls(m, actual, d), MatchIn(actual, d).value.Id())
  {
    hide Settled, MatchIn, Calls, EditFor;
    EditOfCall(m, desired, actual, d);
  }

  /** Without an owner of its UID, what stands for `d` is found by name. */
  lemma NamedAfter(m: Models, desired: View, actual: View, opts: PlanOptions, p: seq<Change>, d: Resource)
    requires Sound(desired, actual) && SomeOf(m, desired, actual, opts, p) && Declared(desired, d)
    requires Owners(Run(m, desired, actual, p), d) == {}
    ensures NamedMatch(Run(m, desired, actual, p), d) == Own(m, actual, d, p)
  {
    hide Due, Run, Settled, Calls, SomeOf;
    if IsDone(m, actual, d, p) {
      NamedDone(m, desired, actual, opts, p, d);
    } else {
      NamedNotDone(m, desired, actual, opts, p, d);
    }
  }

  lemma NamedDone(m: Models, desired: View, actual: View, opts: PlanOptions, p: seq<Change>, d: Resource)
    requires Sound(desired, actual) && SomeOf(m, desired, actual, opts, p) && Declared(desired, d)
    requires Owners(Run(m, desired, actual, p), d) == {} && IsDone(m, actual, d, p)
    ensures NamedMatch(Run(m, desired, actual, p), d) == Some(Settled(m, actual, d))
  {
    hide Due, Run, Settled, Calls, SomeOf, IsDone;
    var r, after := Settled(m, actual, d), Run(m, desired, actual, p);
    SettledIs(m, actual, d);
    DoneIsLive(m, desired, actual, opts, p, d);
    OwnerStays(m, desired, actual, opts, p, d);
    assert r.Id() == d.Id();
  }

  /** A live owner of a declared UID is still there, as it was or overlaid. */
  lemma OwnerStays(m: Models, desired: View, actual: View, opts: PlanOptions, p: seq<Change>, d: Resource)
    requires Sound(desired, actual) && SomeOf(m, desired, actual, opts, p) && Declared(desired, d)
    ensures Owners(actual, d) != {} ==> Owners(Run(m, desired, actual, p), d) != {}
  {
    hide Due, Run, Settled, Calls, SomeOf, IsDone, MatchIn;
    if i :| i in Owners(actual, d) {
      OwnerIsMatch(actual, d, i);
      var r, after := Settled(m, actual, d), Run(m, desired, actual, p);
      if IsDone(m, actual, d, p) {
        DoneIsLive(m, desired, actual, opts, p, d);
        SettledIs(m, actual, d);
        assert r.Id() in Owners(after, d);
      } else {
        NotYetTouched(m, desired, actual, opts, p, d, i);
        assert i in Owners(after, d);
      }
    }
  }

  /** Nothing lands at the vault name of a declared entry but its own. */
  lemma AliasStaysFree(m: Models, desired: View, actual: View, opts: PlanOptions, p: seq<Change>, d: Resource, t: Id)
    requires Sound(desired, actual) && SomeOf(m, desired, actual, opts, p) && Declared(desired, d)
    requires VaultAlias(d.kind) == Some(t.kind) && t.name == d.meta.name && t !in actual
    ensures t !in Run(m, desired, actual, p)
  {
    hide Due, Run, Settled, Calls, SomeOf, IsDone, MatchIn;
    assert t !in desired by {
      assert !(ResourceId(KindSecret, t.name) in desired && ResourceId(KindSealedSecret, t.name) in desired);
    }
    if t in Run(m, desired, actual, p) {
      WhatIsLive(m, desired, actual, opts, p, t);
      var id :| id in desired && IsDone(m, actual, desired[id], p)
        && Run(m, desired, actual, p)[t] == Settled(m, actual, desired[id]);
      SettledIs(m, actual, desired[id]);
      if MatchIn(actual, desired[id]).Some? {
        MatchIsLive(actual, desired[id]);
      }
      StaysConsistent(actual, EditsFor(m, desired, actual, p));
      RunIs(m, desired, actual, p);
      assert false;
    }
  }

  lemma RunIs(m: Models, desired: View, actual: View, p: seq<Change>)
    ensures Run(m, desired, actual, p) == ApplyAll(actual, EditsFor(m, desired, actual, p))
  {}

  lemma NamedNotDone(m: Models, desired: View, actual: View, opts: PlanOptions, p: seq<Change>, d: Resource)
    requires Sound(desired, actual) && SomeOf(m, desired, actual, opts, p) && Declared(desired, d)
    requires Owners(Run(m, desired, actual, p), d) == {} && !IsDone(m, actual, d, p)
    ensures NamedMatch(Run(m, desired, actual, p), d) == MatchIn(actual, d)
  {
    hide Due, Run, Settled, Calls, SomeOf, IsDone;
    OwnerStays(m, desired, actual, opts, p, d);
    assert MatchIn(actual, d) == NamedMatch(actual, d);
    hide MatchIn;
    NotYetTouched(m, desired, actual, opts, p, d, d.Id());
    if d.Id() !in actual && VaultAlias(d.kind).Some? {
      var t := ResourceId(VaultAlias(d.kind).value, d.meta.name);
      if t in actual {
        NotYetTouched(m, desired, actual, opts, p, d, t);
      } else {
        AliasStaysFree(m, desired, actual, opts, p, d, t);
      }
    }
  }

  /** Afterwards `d` stands for its own, or for what brought its UID along. */
  lemma MeetsAfter(m: Models, desired: View, actual: View, opts: PlanOptions, p: seq<Change>, d: Resource, byUid: View)
    requires Sound(desired, actual) && SomeOf(m, desired, actual, opts, p) && Declared(desired, d)
    requires Listing(byUid, Run(m, desired, actual, p))
    ensures var x := Match(Run(m, desired, actual, p), byUid, d);
      || x == Own(m, actual, d, p)
      || exists id | id in desired :: IsDone(m, actual, desired[id], p) && Intrudes(m, actual, desired[id], d)
                                      && x == Some(Settled(m, actual, desired[id]))
  {
    hide Due, Run, Settled, SomeOf, IsDone, MatchIn, Own, Intrudes, Match, NamedMatch;
    var after := Run(m, desired, actual, p);
    RunStaysConsistent(m, desired, actual, p);
    MatchIsOwner(after, byUid, d);
    if Owners(after, d) == {} {
      NamedAfter(m, desired, actual, opts, p, d);
    } else {
      OwnersAfter(m, desired, actual, opts, p, d, byUid[UidKey(d)].Id());
    }
  }

  lemma RunStaysConsistent(m: Models, desired: View, actual: View, p: seq<Change>)
    requires Consistent(actual)
    ensures Consistent(Run(m, desired, actual, p))
  {
    StaysConsistent(actual, EditsFor(m, desired, actual, p));
  }

  // ---- What is called for afterwards ------------------------------------------------

  function SealedFP(d: Resource): string {
    if d.spec.SealedSecretOf? then d.spec.sealedSecret.sealedFP else ""
  }

  /** `d` states a sealed value, and not the one of `s`. */
  predicate Disputes(s: Resource, d: Resource) {
    SealedFP(d) != "" && SealedFP(d) != SealedFP(s)
  }

  lemma SettledIsInSync(m: Models, actual: View, d: Resource)
    requires WellTyped(d)
    ensures Diff(m, Settled(m, actual, d), d) == []
  {
    hide Diff, Created, Updated, MatchIn, WellTyped;
    CreateSettles(m, d);
    match MatchIn(actual, d) {
      case None =>
      case Some(x) => UpdateSettles(m, x, d);
    }
  }

  lemma IntruderDiff(m: Models, actual: View, s: Resource, d: Resource)
    requires Intrudes(m, actual, s, d) && WellTyped(s)
    ensures Diff(m, Settled(m, actual, s), d) == [] <==> !Disputes(s, d)
  {
    hide MatchIn;
    assert d.kind == KindSealedSecret;
    SealedOver(m, MatchIn(actual, s).value, s);
  }

  lemma SealedOver(m: Models, x: Resource, s: Resource)
    requires s.kind == KindSealedSecret && WellTyped(s) && Diff(m, x, s) != []
    ensures s.spec.SealedSecretOf? && Updated(m, x, s).spec == s.spec
  {}

  /** What `d` calls for afterwards. */
  lemma CallAfter(m: Models, desired: View, actual: View, opts: PlanOptions, p: seq<Change>, d: Resource, byUid: View)
    requires Sound(desired, actual) && SomeOf(m, desired, actual, opts, p) && Declared(desired, d)
    requires Listing(byUid, Run(m, desired, actual, p))
    ensures var c := ChangeFor(m, Run(m, desired, actual, p), byUid, d);
      || (if IsDone(m, actual, d, p) then c.action == ActionNoop else c == Calls(m, actual, d))
      || exists id | id in desired :: IsDone(m, actual, desired[id], p) && Intrudes(m, actual, desired[id], d)
                                      && (c.action == ActionNoop <==> !Disputes(desired[id], d))
  {
    hide Due, Run, Settled, SomeOf, IsDone, MatchIn, Intrudes, Match, Diff, Disputes, WellTyped;
    MeetsAfter(m, desired, actual, opts, p, d, byUid);
    var x := Match(Run(m, desired, actual, p), byUid, d);
    SettledIsInSync(m, actual, d);
    if x != Own(m, actual, d, p) {
      var id :| id in desired && IsDone(m, actual, desired[id], p) && Intrudes(m, actual, desired[id], d)
        && x == Some(Settled(m, actual, desired[id]));
      IntruderDiff(m, actual, desired[id], d);
    }
  }

  lemma SettledIsKept(m: Models, desired: View, actual: View, opts: PlanOptions, d: Resource)
    requires Sound(desired, actual) && Declared(desired, d)
    ensures !Prunable(desired, opts, Settled(m, actual, d))
  {
    hide Settled, MatchIn;
    SettledIs(m, actual, d);
    if MatchIn(actual, d).Some? {
      MatchedIsKept(desired, actual, opts, d, MatchIn(actual, d).value);
      MatchIsLive(actual, d);
    }
  }

  lemma DeletesAre(desired: View, actual: View, opts: PlanOptions, c: Change)
    requires Consistent(actual)
    ensures c in Deletes(desired, actual, opts) <==>
      && opts.prune && c.Id() in actual && Prunable(desired, opts, actual[c.Id()]) && c == DeleteOf(actual[c.Id()])
  {}

  /** Of the deletes exactly those carried out are no longer called for. */
  lemma DeletesAfter(m: Models, desired: View, actual: View, opts: PlanOptions, p: seq<Change>)
    requires Sound(desired, actual) && SomeOf(m, desired, actual, opts, p)
    ensures Deletes(desired, Run(m, desired, actual, p), opts) == Deletes(desired, actual, opts) - Elements(p)
  {
    hide Due, Run, Deletes, Prunable, SomeOf;
    RunStaysConsistent(m, desired, actual, p);
    forall c
      ensures c in Deletes(desired, Run(m, desired, actual, p), opts) <==>
        c in Deletes(desired, actual, opts) && c !in p
    {
      DeleteAfter(m, desired, actual, opts, p, c);
    }
    assert forall c :: c in p <==> c in Elements(p);
  }

  lemma DeleteAfter(m: Models, desired: View, actual: View, opts: PlanOptions, p: seq<Change>, c: Change)
    requires Sound(desired, actual) && SomeOf(m, desired, actual, opts, p)
    ensures c in Deletes(desired, Run(m, desired, actual, p), opts) <==> c in Deletes(desired, actual, opts) && c !in p
  {
    hide Run, Deletes, Prunable, Settled, EditFor, SomeOf;
    var after, t := Run(m, desired, actual, p), c.Id();
    RunStaysConsistent(m, desired, actual, p);
    DeletesAre(desired, actual, opts, c);
    DeletesAre(desired, after, opts, c);
    if c in Deletes(desired, after, opts) {
      PrunableWasThere(m, desired, actual, opts, p, t);
      DeleteShows(m, desired, actual, c);
    }
    if c in Deletes(desired, actual, opts) {
      DeleteStands(m, desired, actual, opts, p, c);
    }
  }

  lemma PrunableWasThere(m: Models, desired: View, actual: View, opts: PlanOptions, p: seq<Change>, t: Id)
    requires Sound(desired, actual) && SomeOf(m, desired, actual, opts, p)
    requires t in Run(m, desired, actual, p) && Prunable(desired, opts, Run(m, desired, actual, p)[t])
    ensures t in actual && actual[t] == Run(m, desired, actual, p)[t]
    ensures forall c | c in p :: !Touches(m, desired, actual, c, t)
  {
    hide Run, Prunable, Settled, EditFor, SomeOf, IsDone;
    WhatIsLive(m, desired, actual, opts, p, t);
    if id :| id in desired && Run(m, desired, actual, p)[t] == Settled(m, actual, desired[id]) {
      SettledIsKept(m, desired, actual, opts, desired[id]);
    }
  }

  lemma DeleteStands(m: Models, desired: View, actual: View, opts: PlanOptions, p: seq<Change>, c: Change)
    requires Sound(desired, actual) && SomeOf(m, desired, actual, opts, p) && c in Deletes(desired, actual, opts)
    ensures c.action == ActionDelete
    ensures Lookup(Run(m, desired, actual, p), c.Id()) == if c in p then None else Lookup(actual, c.Id())
  {
    hide Run, Prunable, Settled, EditFor;
    assert c.action == ActionDelete && c in Due(m, desired, actual, opts);
    hide Deletes;
    DeleteShows(m, desired, actual, c);
    if c in p {
      Landed(m, desired, actual, opts, p, c, c.Id());
    } else {
      forall e | e in p
        ensures !Touches(m, desired, actual, e, c.Id())
      {
        if Touches(m, desired, actual, e, c.Id()) {
          ChangesKeepApart(m, desired, actual, opts, c, e, c.Id());
        }
      }
      LeftAlone(m, desired, actual, p, c.Id());
    }
  }

  lemma DeleteShows(m: Models, desired: View, actual: View, c: Change)
    requires c.action == ActionDelete
    ensures Touches(m, desired, actual, c, c.Id()) && EditFor(m, desired, actual, c).Leaves(c.Id()) == None
  {}

  // ---- Any part of a plan -----------------------------------------------------------

  lemma WantedIs(m: Models, desired: View, actual: View, byUid: View, opts: PlanOptions, c: Change)
    requires Consistent(desired) && c.action != ActionNoop
    ensures c in Wanted(m, desired, actual, byUid, opts) <==>
      c.Id() in desired && Planned(c.kind) && c == ChangeFor(m, actual, byUid, desired[c.Id()])
  {
    if c.Id() in desired {
      assert desired[c.Id()].Id() == c.Id();
    }
  }

  /** A change other than a delete is due exactly when its resource calls for it. */
  lemma DueIs(m: Models, desired: View, actual: View, opts: PlanOptions, c: Change)
    requires Consistent(desired) && Consistent(actual) && OneOwner(desired, actual)
    requires c.action != ActionNoop && c.action != ActionDelete
    ensures c in Due(m, desired, actual, opts) <==>
      c.Id() in desired && Planned(c.kind) && c == Calls(m, actual, desired[c.Id()])
  {
    hide Wanted, ChangeFor, Calls;
    WantedIs(m, desired, actual, IndexOf(actual), opts, c);
    AnyListing(m, desired, actual, IndexOf(actual), opts);
  }

  /** No sealing brings along a UID that matters: the declared resource with it
      is in sync and states no other sealed value. */
  ghost predicate Harmless(m: Models, desired: View, actual: View) {
    forall i, j | i in desired && j in desired && Intrudes(m, actual, desired[i], desired[j]) ::
      Calls(m, actual, desired[j]).action == ActionNoop && !Disputes(desired[i], desired[j])
  }

  /** Whichever changes of the plan are carried out, and however what they leave
      is listed, planning again asks for exactly the others. */
  ghost predicate LeavesTheRest(m: Models, desired: View, actual: View, opts: PlanOptions)
    requires Consistent(actual)
  {
    forall p, byUid ::
      SomeOf(m, desired, actual, opts, p) && Listing(byUid, Run(m, desired, actual, p))
      ==> Effective(Changes(m, desired, Run(m, desired, actual, p), byUid, opts))
          == Effective(Due(m, desired, actual, opts)) - Elements(p)
  }

  lemma HarmlessCall(m: Models, desired: View, actual: View, opts: PlanOptions, p: seq<Change>, d: Resource,
                     byUid: View)
    requires Sound(desired, actual) && SomeOf(m, desired, actual, opts, p) && Declared(desired, d)
    requires Listing(byUid, Run(m, desired, actual, p)) && Harmless(m, desired, actual)
    ensures var c, e := ChangeFor(m, Run(m, desired, actual, p), byUid, d), Calls(m, actual, d);
      c.action == ActionNoop || (!IsDone(m, actual, d, p) && c == e)
    ensures var c, e := ChangeFor(m, Run(m, desired, actual, p), byUid, d), Calls(m, actual, d);
      e.action == ActionNoop || IsDone(m, actual, d, p) || c == e
  {
    hide Due, Run, SomeOf, Intrudes, ChangeFor, Disputes, Calls;
    CallAfter(m, desired, actual, opts, p, d, byUid);
  }

  lemma RestOfWanted(m: Models, desired: View, actual: View, opts: PlanOptions, p: seq<Change>, byUid: View, c: Change)
    requires Sound(desired, actual) && SomeOf(m, desired, actual, opts, p)
    requires Listing(byUid, Run(m, desired, actual, p)) && Harmless(m, desired, actual)
    requires c.action != ActionNoop && c.action != ActionDelete
    ensures c in Wanted(m, desired, Run(m, desired, actual, p), byUid, opts) <==>
      c in Due(m, desired, actual, opts) && c !in p
  {
    hide Due, Run, SomeOf, ChangeFor, Calls, Harmless, Wanted;
    WantedIs(m, desired, Run(m, desired, actual, p), byUid, opts, c);
    DueIs(m, desired, actual, opts, c);
    if c.Id() in desired {
      HarmlessCall(m, desired, actual, opts, p, desired[c.Id()], byUid);
      ChangeForIs(m, Run(m, desired, actual, p), byUid, desired[c.Id()]);
    }
  }

  lemma ChangeForIs(m: Models, actual: View, byUid: View, d: Resource)
    ensures ChangeFor(m, actual, byUid, d).Id() == d.Id() && ChangeFor(m, actual, byUid, d).action != ActionDelete
  {
    hide Match, Diff;
  }

  lemma HarmlessLeavesTheRest(m: Models, desired: View, actual: View, opts: PlanOptions, p: seq<Change>, byUid: View)
    requires Sound(desired, actual) && SomeOf(m, desired, actual, opts, p)
    requires Listing(byUid, Run(m, desired, actual, p)) && Harmless(m, desired, actual)
    ensures Effective(Changes(m, desired, Run(m, desired, actual, p), byUid, opts))
         == Effective(Due(m, desired, actual, opts)) - Elements(p)
  {
    hide Run, SomeOf, ChangeFor, Harmless, Deletes, Wanted;
    var after := Run(m, desired, actual, p);
    RunStaysConsistent(m, desired, actual, p);
    DeletesAfter(m, desired, actual, opts, p);
    assert forall c :: c in p <==> c in Elements(p);
    forall c: Change | c.action != ActionNoop
      ensures c in Changes(m, desired, after, byUid, opts) <==> c in Due(m, desired, actual, opts) && c !in p
    {
      DeletesAre(desired, after, opts, c);
      DeletesAre(desired, actual, opts, c);
      if c.action == ActionDelete {
        NoDeleteIsWanted(m, desired, after, byUid, opts, c);
        NoDeleteIsWanted(m, desired, actual, IndexOf(actual), opts, c);
      } else {
        RestOfWanted(m, desired, actual, opts, p, byUid, c);
      }
    }
  }

  lemma NoDeleteIsWanted(m: Models, desired: View, actual: View, byUid: View, opts: PlanOptions, c: Change)
    requires c.action == ActionDelete
    ensures c !in Wanted(m, desired, actual, byUid, opts)
  {
    WantedNeverDeletes(m, desired, actual, byUid, opts);
  }

  // ---- The exact conditions -----------------------------------------------------------

  /** Some listing matches what brought the UID along. */
  lemma IntruderIsListed(m: Models, desired: View, actual: View, opts: PlanOptions, p: seq<Change>, s: Resource,
                         d: Resource)
    returns (byUid: View)
    requires Sound(desired, actual) && SomeOf(m, desired, actual, opts, p)
    requires Declared(desired, s) && Declared(desired, d) && IsDone(m, actual, s, p) && Intrudes(m, actual, s, d)
    ensures Listing(byUid, Run(m, desired, actual, p))
    ensures ChangeFor(m, Run(m, desired, actual, p), byUid, d).action == ActionNoop <==> !Disputes(s, d)
  {
    hide Due, Run, SomeOf, Settled, MatchIn, Diff, Disputes, Match, WellTyped;
    var after, r := Run(m, desired, actual, p), Settled(m, actual, s);
    RunStaysConsistent(m, desired, actual, p);
    DoneIsLive(m, desired, actual, opts, p, s);
    SettledIs(m, actual, s);
    assert r.Id() in Owners(after, d);
    byUid := OwnerIsMatched(after, d, r.Id());
    IntruderDiff(m, actual, s, d);
  }

  lemma SealingIsDue(m: Models, desired: View, actual: View, opts: PlanOptions, s: Resource, d: Resource)
    requires Sound(desired, actual) && Declared(desired, s) && Intrudes(m, actual, s, d)
    ensures Calls(m, actual, s) in Due(m, desired, actual, opts) && Calls(m, actual, s).action != ActionNoop
    ensures Calls(m, actual, s).Id() == s.Id() && Planned(d.kind)
  {
    hide Due, MatchIn, Calls, Diff;
    CallIs(m, actual, s);
    assert s.kind == KindSealedSecret && d.kind == KindSealedSecret;
    assert Calls(m, actual, s).Id().kind == s.kind;
    DueIs(m, desired, actual, opts, Calls(m, actual, s));
  }

  /** The changes that show the harm of a sealing. */
  ghost function Harming(m: Models, actual: View, s: Resource, d: Resource): seq<Change> {
    if Disputes(s, d) && Calls(m, actual, d).action != ActionNoop then [Calls(m, actual, s), Calls(m, actual, d)]
    else [Calls(m, actual, s)]
  }

  lemma HarmingIsSome(m: Models, desired: View, actual: View, opts: PlanOptions, s: Resource, d: Resource)
    requires Sound(desired, actual) && Declared(desired, s) && Declared(desired, d) && Intrudes(m, actual, s, d)
    ensures SomeOf(m, desired, actual, opts, Harming(m, actual, s, d))
  {
    hide Due, MatchIn, Calls, Diff, Intrudes;
    SealingIsDue(m, desired, actual, opts, s, d);
    CallIs(m, actual, d);
    if Calls(m, actual, d).action != ActionNoop {
      DueIs(m, desired, actual, opts, Calls(m, actual, d));
    }
    IntruderDiffers(m, actual, s, d);
  }

  lemma IntruderDiffers(m: Models, actual: View, s: Resource, d: Resource)
    requires Intrudes(m, actual, s, d)
    ensures s.Id() != d.Id()
  {}

  lemma HarmShows(m: Models, desired: View, actual: View, opts: PlanOptions, s: Resource, d: Resource)
    requires Sound(desired, actual) && Declared(desired, s) && Declared(desired, d) && Intrudes(m, actual, s, d)
    requires Calls(m, actual, d).action != ActionNoop || Disputes(s, d)
    ensures !LeavesTheRest(m, desired, actual, opts)
  {
    hide Due, Run, Calls, Intrudes, SomeOf, ChangeFor, Wanted, Deletes;
    var p := Harming(m, actual, s, d);
    SealingIsDue(m, desired, actual, opts, s, d);
    CallIs(m, actual, d);
    IntruderDiffers(m, actual, s, d);
    HarmingIsSome(m, desired, actual, opts, s, d);
    var byUid := IntruderIsListed(m, desired, actual, opts, p, s, d);
    var after := Run(m, desired, actual, p);
    var c := if Disputes(s, d) then ChangeFor(m, after, byUid, d) else Calls(m, actual, d);
    ChangeForIs(m, after, byUid, d);
    DueIs(m, desired, actual, opts, c);
    WantedIs(m, desired, after, byUid, opts, c);
    NotADelete(desired, after, opts, c);
    assert c in p <==> c in Elements(p);
    assert c.Id() == d.Id() && c.action != ActionNoop;
    assert Disputes(s, d) ==>
      c in Changes(m, desired, after, byUid, opts) && (c in Due(m, desired, actual, opts) ==> c in p);
    assert !Disputes(s, d) ==>
      c in Due(m, desired, actual, opts) && c !in p && c !in Changes(m, desired, after, byUid, opts);
    RestDiffers(m, desired, actual, opts, p, byUid, c);
  }

  lemma RestDiffers(m: Models, desired: View, actual: View, opts: PlanOptions, p: seq<Change>, byUid: View, c: Change)
    requires Consistent(actual) && SomeOf(m, desired, actual, opts, p) && Listing(byUid, Run(m, desired, actual, p))
    requires c.action != ActionNoop
    requires c in Changes(m, desired, Run(m, desired, actual, p), byUid, opts)
        <==> !(c in Due(m, desired, actual, opts) && c !in Elements(p))
    ensures !LeavesTheRest(m, desired, actual, opts)
  {
    hide Due, Run, SomeOf, Wanted, Deletes;
    assert c in Effective(Changes(m, desired, Run(m, desired, actual, p), byUid, opts))
      <==> c !in Effective(Due(m, desired, actual, opts)) - Elements(p);
  }

  lemma NotADelete(desired: View, actual: View, opts: PlanOptions, c: Change)
    requires c.action != ActionDelete
    ensures c !in Deletes(desired, actual, opts)
  {}

  /** Any part of a plan can be carried out, in any order, and planning again asks
      for exactly the rest, if and only if no sealing brings harm. In particular
      an interrupted run, and a run in which some changes failed, can be resumed. */
  lemma RunLeavesTheRestIff(m: Models, desired: View, actual: View, opts: PlanOptions)
    requires Sound(desired, actual)
    ensures LeavesTheRest(m, desired, actual, opts) <==> Harmless(m, desired, actual)
  {
    hide Due, Run, Calls, Intrudes, SomeOf, Disputes;
    if Harmless(m, desired, actual) {
      forall p, byUid | SomeOf(m, desired, actual, opts, p) && Listing(byUid, Run(m, desired, actual, p))
        ensures Effective(Changes(m, desired, Run(m, desired, actual, p), byUid, opts))
             == Effective(Due(m, desired, actual, opts)) - Elements(p)
      {
        HarmlessLeavesTheRest(m, desired, actual, opts, p, byUid);
      }
    } else {
      var i, j :| i in desired && j in desired && Intrudes(m, actual, desired[i], desired[j])
        && !(Calls(m, actual, desired[j]).action == ActionNoop && !Disputes(desired[i], desired[j]));
      HarmShows(m, desired, actual, opts, desired[i], desired[j]);
    }
  }

  /** A sealing brings along the UID of another declared entry, which states
      another sealed value. */
  ghost predicate Clash(m: Models, desired: View, actual: View) {
    exists i, j | i in desired && j in desired ::
      Intrudes(m, actual, desired[i], desired[j]) && Disputes(desired[i], desired[j])
  }

  /** However what the changes `p` leave is listed, nothing is left to do. */
  ghost predicate Converges(m: Models, desired: View, actual: View, opts: PlanOptions, p: seq<Change>) {
    forall byUid :: Listing(byUid, Run(m, desired, actual, p))
      ==> Effective(Changes(m, desired, Run(m, desired, actual, p), byUid, opts)) == {}
  }

  lemma PlanIsSome(m: Models, desired: View, actual: View, opts: PlanOptions, plan: seq<Change>)
    requires Consistent(desired) && Consistent(actual) && IsPlan(plan, Due(m, desired, actual, opts))
    ensures SomeOf(m, desired, actual, opts, plan)
    ensures forall c :: c in plan <==> c in Due(m, desired, actual, opts)
  {
    var changes := Changes(m, desired, actual, IndexOf(actual), opts);
    ChangesOnePerId(m, desired, actual, IndexOf(actual), opts);
    ChangesAreOrdered(changes);
    SortedHasNoDuplicates(ChangeLess, plan, changes);
    assert forall c :: c in plan <==> c in Elements(plan);
  }

  lemma NothingIsWanted(m: Models, desired: View, actual: View, opts: PlanOptions, plan: seq<Change>, byUid: View,
                        c: Change)
    requires Sound(desired, actual) && IsPlan(plan, Due(m, desired, actual, opts)) && !Clash(m, desired, actual)
    requires Listing(byUid, Run(m, desired, actual, plan)) && c.action != ActionNoop && c.action != ActionDelete
    ensures c !in Wanted(m, desired, Run(m, desired, actual, plan), byUid, opts)
  {
    hide Due, Run, SomeOf, Wanted, ChangeFor, Calls, Intrudes, Disputes, IsPlan;
    var after := Run(m, desired, actual, plan);
    PlanIsSome(m, desired, actual, opts, plan);
    WantedIs(m, desired, after, byUid, opts, c);
    if c in Wanted(m, desired, after, byUid, opts) {
      var d := desired[c.Id()];
      CallAfter(m, desired, actual, opts, plan, d, byUid);
      DueIs(m, desired, actual, opts, c);
    }
  }

  lemma NoClashConverges(m: Models, desired: View, actual: View, opts: PlanOptions, plan: seq<Change>, byUid: View)
    requires Sound(desired, actual) && IsPlan(plan, Due(m, desired, actual, opts)) && !Clash(m, desired, actual)
    requires Listing(byUid, Run(m, desired, actual, plan))
    ensures Effective(Changes(m, desired, Run(m, desired, actual, plan), byUid, opts)) == {}
  {
    hide Run, SomeOf, Wanted, Deletes, IsPlan, Clash;
    var after := Run(m, desired, actual, plan);
    PlanIsSome(m, desired, actual, opts, plan);
    DeletesAfter(m, desired, actual, opts, plan);
    assert forall c :: c in plan <==> c in Elements(plan);
    forall c: Change | c.action != ActionNoop
      ensures c !in Changes(m, desired, after, byUid, opts)
    {
      if c.action == ActionDelete {
        NoDeleteIsWanted(m, desired, after, byUid, opts, c);
      } else {
        NothingIsWanted(m, desired, actual, opts, plan, byUid, c);
        NotADelete(desired, after, opts, c);
      }
    }
  }

  lemma ClashShows(m: Models, desired: View, actual: View, opts: PlanOptions, plan: seq<Change>, s: Resource,
                   d: Resource)
    requires Sound(desired, actual) && IsPlan(plan, Due(m, desired, actual, opts))
    requires Declared(desired, s) && Declared(desired, d) && Intrudes(m, actual, s, d) && Disputes(s, d)
    ensures !Converges(m, desired, actual, opts, plan)
  {
    hide Due, Run, SomeOf, Wanted, Deletes, ChangeFor, Calls, Intrudes, Disputes, IsPlan;
    var after := Run(m, desired, actual, plan);
    PlanIsSome(m, desired, actual, opts, plan);
    SealingIsDue(m, desired, actual, opts, s, d);
    var byUid := IntruderIsListed(m, desired, actual, opts, plan, s, d);
    var c := ChangeFor(m, after, byUid, d);
    ChangeForIs(m, after, byUid, d);
    WantedIs(m, desired, after, byUid, opts, c);
    assert c in Effective(Changes(m, desired, after, byUid, opts));
  }

  /** One-step convergence: executing the plan the planner built leaves nothing
      to do, with the same options and under every listing of what it leaves, if
      and only if there is no clash. */
  lemma PlanConvergesIff(m: Models, desired: View, actual: View, opts: PlanOptions, plan: seq<Change>)
    requires Sound(desired, actual) && IsPlan(plan, Due(m, desired, actual, opts))
    ensures Converges(m, desired, actual, opts, plan) <==> !Clash(m, desired, actual)
  {
    hide Due, Run, Intrudes, Disputes, IsPlan;
    if Clash(m, desired, actual) {
      var i, j :| i in desired && j in desired
        && Intrudes(m, actual, desired[i], desired[j]) && Disputes(desired[i], desired[j]);
      ClashShows(m, desired, actual, opts, plan, desired[i], desired[j]);
    } else {
      forall byUid | Listing(byUid, Run(m, desired, actual, plan))
        ensures Effective(Changes(m, desired, Run(m, desired, actual, plan), byUid, opts)) == {}
      {
        NoClashConverges(m, desired, actual, opts, plan, byUid);
      }
    }
  }

  /** However the resources of a live state are listed, the plan has no changes. */
  ghost predicate PlansNothing(m: Models, desired: View, after: View, opts: PlanOptions) {
    forall list, again |
      && DistinctIds(list) && ViewOf(list) == after
      && IsPlan(again, Changes(m, desired, after, UidIndex(list), opts)) ::
      !HasChanges(again)
  }

  /** Convergence in terms of lists and plans. */
  lemma ConvergesForLists(m: Models, desired: View, actual: View, opts: PlanOptions, p: seq<Change>)
    requires Consistent(desired) && Consistent(actual)
    ensures Converges(m, desired, actual, opts, p) <==> PlansNothing(m, desired, Run(m, desired, actual, p), opts)
  {
    hide Run, Changes, UidIndex, ViewOf, DistinctIds, Listing, IsPlan, HasChanges, Effective;
    var after := Run(m, desired, actual, p);
    RunStaysConsistent(m, desired, actual, p);
    if Converges(m, desired, actual, opts, p) {
      forall list, again | DistinctIds(list) && ViewOf(list) == after
        && IsPlan(again, Changes(m, desired, after, UidIndex(list), opts))
        ensures !HasChanges(again)
      {
        UidIndexIsListing(list);
        ChangesShow(again, Changes(m, desired, after, UidIndex(list), opts));
      }
    } else {
      var byUid :| Listing(byUid, after) && Effective(Changes(m, desired, after, byUid, opts)) != {};
      var list := ListingIsUidIndex(byUid, after);
      var again := SomePlan(m, desired, after, byUid, opts);
      ChangesShow(again, Changes(m, desired, after, byUid, opts));
    }
  }

  lemma ChangesShow(plan: seq<Change>, changes: set<Change>)
    requires IsPlan(plan, changes)
    ensures HasChanges(plan) <==> Effective(changes) != {}
  {
    assert forall c :: c in plan <==> c in changes by {
      assert forall c :: c in plan <==> c in Elements(plan);
    }
    if HasChanges(plan) {
      var c :| c in plan && c.action != ActionNoop;
      assert c in Effective(changes);
    }
    if Effective(changes) != {} {
      var c :| c in Effective(changes);
      assert c in plan;
    }
  }

  lemma SomePlan(m: Models, desired: View, actual: View, byUid: View, opts: PlanOptions) returns (plan: seq<Change>)
    requires Consistent(desired) && Consistent(actual)
    ensures IsPlan(plan, Changes(m, desired, actual, byUid, opts))
  {
    hide Changes, IsPlan;
    ChangesOnePerId(m, desired, actual, byUid, opts);
    var changes := ListOf(Changes(m, desired, actual, byUid, opts));
    SortIsPlan(changes, Changes(m, desired, actual, byUid, opts));
    plan := Sort(ChangeLess, changes);
  }

  // ---- Running again -------------------------------------------------------------------

  /** No sealing brings along a UID that is declared. */
  ghost predicate Clear(m: Models, desired: View, actual: View) {
    forall i, j | i in desired && j in desired :: !Intrudes(m, actual, desired[i], desired[j])
  }

  lemma ClearAfter(m: Models, desired: View, actual: View, opts: PlanOptions, p: seq<Change>, d: Resource)
    requires Sound(desired, actual) && Clear(m, desired, actual) && SomeOf(m, desired, actual, opts, p)
    requires Declared(desired, d)
    ensures OwnedOnce(Run(m, desired, actual, p), d)
    ensures MatchIn(Run(m, desired, actual, p), d) == Own(m, actual, d, p)
  {
    hide Due, Run, SomeOf, Own, Intrudes, Settled, IsDone, NamedMatch;
    var after := Run(m, desired, actual, p);
    RunStaysConsistent(m, desired, actual, p);
    forall i | i in Owners(after, d)
      ensures Own(m, actual, d, p) == Some(after[i]) && after[i].Id() == i
    {
      OwnersAfter(m, desired, actual, opts, p, d, i);
    }
    if Owners(after, d) == {} {
      NamedAfter(m, desired, actual, opts, p, d);
    }
  }

  lemma OwnShowsAt(m: Models, desired: View, actual: View, p: seq<Change>, d: Resource)
    requires Sound(desired, actual) && Declared(desired, d) && Own(m, actual, d, p).Some?
    ensures ShowsAt(actual, d, Own(m, actual, d, p).value.Id())
  {
    hide Settled, MatchIn, Calls;
    SettledIs(m, actual, d);
    if MatchIn(actual, d).Some? {
      MatchIsLive(actual, d);
    }
  }

  /** Where nothing declared is brought along, any part of a plan leaves a state
      that is as sound and clear, so that what the next plan asks for can be
      carried out in its turn. */
  lemma SoundStaysSound(m: Models, desired: View, actual: View, opts: PlanOptions, p: seq<Change>)
    requires Sound(desired, actual) && Clear(m, desired, actual) && SomeOf(m, desired, actual, opts, p)
    ensures Sound(desired, Run(m, desired, actual, p)) && Clear(m, desired, Run(m, desired, actual, p))
  {
    hide Due, Run, SomeOf, Own, Intrudes, MatchIn, OwnedOnce, ShowsAt;
    var after := Run(m, desired, actual, p);
    RunStaysConsistent(m, desired, actual, p);
    forall id | id in desired
      ensures OwnedOnce(after, desired[id]) && MatchIn(after, desired[id]) == Own(m, actual, desired[id], p)
    {
      ClearAfter(m, desired, actual, opts, p, desired[id]);
    }
    forall i, j | i in desired && j in desired && i != j
      ensures var x, y := MatchIn(after, desired[i]), MatchIn(after, desired[j]);
        x.Some? && y.Some? ==> x.value.Id() != y.value.Id()
      ensures !Intrudes(m, after, desired[i], desired[j])
    {
      OwnApart(m, desired, actual, p, desired[i], desired[j]);
      NoNewIntruder(m, desired, actual, after, p, desired[i], desired[j]);
    }
    forall i | i in desired
      ensures !Intrudes(m, after, desired[i], desired[i])
    {
      NotItself(m, after, desired[i]);
    }
  }

  lemma NotItself(m: Models, actual: View, d: Resource)
    ensures !Intrudes(m, actual, d, d)
  {}

  lemma OwnApart(m: Models, desired: View, actual: View, p: seq<Change>, d: Resource, e: Resource)
    requires Sound(desired, actual) && Declared(desired, d) && Declared(desired, e) && d.Id() != e.Id()
    ensures var x, y := Own(m, actual, d, p), Own(m, actual, e, p); x.Some? && y.Some? ==> x.value.Id() != y.value.Id()
  {
    hide Own, MatchIn;
    if Own(m, actual, d, p).Some? {
      OwnShowsAt(m, desired, actual, p, d);
    }
    if Own(m, actual, e, p).Some? {
      OwnShowsAt(m, desired, actual, p, e);
    }
  }

  lemma NoNewIntruder(m: Models, desired: View, actual: View, after: View, p: seq<Change>, s: Resource, d: Resource)
    requires Consistent(actual) && MatchIn(after, s) == Own(m, actual, s, p) && !Intrudes(m, actual, s, d)
    ensures !Intrudes(m, after, s, d)
  {
    hide MatchIn, Settled, IsDone, Diff;
    SettledIs(m, actual, s);
  }
}
