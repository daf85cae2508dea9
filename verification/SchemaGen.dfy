/** The JSON Schema generator: a memoised walk over the type graph of the
    manifests, which may be cyclic. */
module SchemaGen {
  import opened Sorting
  import opened StringSorting
  import opened Text
  import opened Wrappers

  // ---- Types --------------------------------------------------------------------

  datatype GoType =
    | GoString | GoBool | GoInt | GoFloat
    | GoSlice(elem: GoType) | GoMap(elem: GoType) | GoPointer(elem: GoType)
    | GoStruct(name: string)
    | GoOther

  /** A struct field and its yaml tag, cut at the commas. */
  datatype GoField = GoField(name: string, exported: bool, tagName: string, tagOptions: seq<string>, kind: GoType)

  /** The struct types by name. */
  type Universe = map<string, seq<GoField>>

  /** The name an author writes the field under, if the schema shows it. */
  function YamlName(f: GoField): Option<string> {
    if !f.exported || (f.tagName == "-" && f.tagOptions == []) then None
    else Some(if f.tagName == "" then ToLower(f.name) else f.tagName)
  }

  predicate OmitsEmpty(f: GoField) {
    "omitempty" in f.tagOptions
  }

  // ---- Schemas --------------------------------------------------------------------

  datatype Schema =
    | TypeIs(name: string)
    | ArrayOf(items: Schema)
    | MapOf(values: Schema)
    | RefTo(def: string)
    | RootRef
    | OneOf(first: Schema, second: Schema)
    | Anything
    | ObjectOf(props: map<string, Schema>, required: seq<string>)

  function Strip(t: GoType): GoType {
    if t.GoPointer? then t.elem else t
  }

  /** What typeOf writes for a type: a struct is a reference. */
  function SchemaOf(t: GoType): Schema {
    match Strip(t)
    case GoString => TypeIs("string")
    case GoBool => TypeIs("boolean")
    case GoInt => TypeIs("integer")
    case GoFloat => TypeIs("number")
    case GoSlice(e) => ArrayOf(SchemaOf(e))
    case GoMap(e) => MapOf(SchemaOf(e))
    case GoStruct(n) => RefTo(n)
    case _ => Anything
  }

  function FieldSchema(owner: string, f: GoField): Schema {
    if owner == "DatabaseSpec" && f.name == "Placement" then OneOf(SchemaOf(f.kind), TypeIs("string"))
    else SchemaOf(f.kind)
  }

  /** The properties of a struct; a name used twice keeps its last field. */
  function Props(owner: string, fields: seq<GoField>): map<string, Schema> {
    if fields == [] then map[]
    else
      var before, f := Props(owner, fields[..|fields| - 1]), fields[|fields| - 1];
      match YamlName(f)
      case None => before
      case Some(n) => before[n := FieldSchema(owner, f)]
  }

  function Required(fields: seq<GoField>): seq<string> {
    if fields == [] then []
    else
      var before, f := Required(fields[..|fields| - 1]), fields[|fields| - 1];
      if YamlName(f).Some? && !OmitsEmpty(f) then before + [YamlName(f).value] else before
  }

  function WithResources(owner: string, props: map<string, Schema>): map<string, Schema> {
    if owner == "ProjectSpec" then props["resources" := ArrayOf(RootRef)] else props
  }

  /** The one schema a struct type has. */
  function ObjectSchema(owner: string, fields: seq<GoField>): Schema {
    ObjectOf(WithResources(owner, Props(owner, fields)), Sort(Less, Required(fields)))
  }

  // ---- What the schema says --------------------------------------------------------------

  /** The schema describes the type: JSON's own names for the plain ones, arrays for
      lists, open objects for maps, a reference for a struct, and a pointer as what it
      points to. */
  predicate Describes(s: Schema, t: GoType)
    decreases s
  {
    var u := if t.GoPointer? then t.elem else t;
    match s
    case TypeIs(n) =>
      || (n == "string" && u == GoString) || (n == "boolean" && u == GoBool)
      || (n == "integer" && u == GoInt) || (n == "number" && u == GoFloat)
    case ArrayOf(x) => u.GoSlice? && Describes(x, u.elem)
    case MapOf(x) => u.GoMap? && Describes(x, u.elem)
    case RefTo(n) => u == GoStruct(n)
    case Anything => u.GoPointer? || u.GoOther?
    case _ => false
  }

  /** Every type has exactly one schema that describes it. */
  lemma {:induction false} SchemaDescribes(s: Schema, t: GoType)
    ensures s == SchemaOf(t) <==> Describes(s, t)
    decreases s, t
  {
    var u := Strip(t);
    match SchemaOf(t) {
      case ArrayOf(x) =>
        if s.ArrayOf? {
          SchemaDescribes(s.items, u.elem);
        }
      case MapOf(x) =>
        if s.MapOf? {
          SchemaDescribes(s.values, u.elem);
        }
      case _ =>
    }
  }

  /** The schema shows the field under `k`: its tag's name or else its own in lower
      case, unless it is private or tagged "-". */
  predicate ShownAs(f: GoField, k: string) {
    && f.exported && !(f.tagName == "-" && f.tagOptions == [])
    && k == if f.tagName != "" then f.tagName else ToLower(f.name)
  }

  /** What a property says of its field; a database's placement may also be the old
      single word. */
  predicate SaysOf(owner: string, f: GoField, s: Schema) {
    if owner == "DatabaseSpec" && f.name == "Placement"
    then s.OneOf? && Describes(s.first, f.kind) && s.second == TypeIs("string")
    else Describes(s, f.kind)
  }

  lemma FieldSays(owner: string, f: GoField, s: Schema)
    ensures s == FieldSchema(owner, f) <==> SaysOf(owner, f, s)
  {
    SchemaDescribes(s, f.kind);
    if s.OneOf? {
      SchemaDescribes(s.first, f.kind);
    }
  }

  lemma ShownIff(f: GoField, k: string)
    ensures ShownAs(f, k) <==> YamlName(f) == Some(k)
  {}

  lemma {:induction false} PropsAre(owner: string, fields: seq<GoField>, k: string)
    ensures k in Props(owner, fields) <==> exists f | f in fields :: ShownAs(f, k)
    ensures k in Props(owner, fields) ==> exists i ::
      && 0 <= i < |fields| && ShownAs(fields[i], k) && SaysOf(owner, fields[i], Props(owner, fields)[k])
      && forall j | i < j < |fields| :: !ShownAs(fields[j], k)
  {
    hide SaysOf, ShownAs, YamlName, FieldSchema;
    if fields != [] {
      var last := |fields| - 1;
      var f := fields[last];
      var before := fields[..last];
      PropsAre(owner, before, k);
      ShownIff(f, k);
      FieldSays(owner, f, FieldSchema(owner, f));
      assert fields == before + [f];
      if !ShownAs(f, k) && k in Props(owner, fields) {
        var i :| 0 <= i < |before| && ShownAs(before[i], k) && SaysOf(owner, before[i], Props(owner, before)[k])
          && forall j | i < j < |before| :: !ShownAs(before[j], k);
        assert fields[i] == before[i] && forall j | i < j < |before| :: fields[j] == before[j];
      }
    }
  }

  lemma {:induction false} RequiredAre(fields: seq<GoField>, k: string)
    ensures k in Required(fields) <==> exists f | f in fields :: ShownAs(f, k) && "omitempty" !in f.tagOptions
  {
    hide ShownAs, YamlName;
    if fields != [] {
      var last := |fields| - 1;
      RequiredAre(fields[..last], k);
      ShownIff(fields[last], k);
      assert fields == fields[..last] + [fields[last]];
    }
  }

  /** A struct's object: one property for every name a visible field has, described by
      the last field of that name; a project also has its resources; and the names
      without omitempty are required, in ascending order. */
  lemma ObjectIs(owner: string, fields: seq<GoField>, k: string)
    ensures ObjectSchema(owner, fields).ObjectOf?
    ensures var o := ObjectSchema(owner, fields);
      && (k in o.props <==> (exists f | f in fields :: ShownAs(f, k)) || (owner == "ProjectSpec" && k == "resources"))
      && (owner == "ProjectSpec" && k == "resources" ==> o.props[k] == ArrayOf(RootRef))
      && (k in o.required <==> exists f | f in fields :: ShownAs(f, k) && "omitempty" !in f.tagOptions)
      && Ascends(o.required)
    ensures k in ObjectSchema(owner, fields).props && !(owner == "ProjectSpec" && k == "resources") ==> exists i ::
      && 0 <= i < |fields| && ShownAs(fields[i], k)
      && SaysOf(owner, fields[i], ObjectSchema(owner, fields).props[k])
      && forall j | i < j < |fields| :: !ShownAs(fields[j], k)
  {
    hide SaysOf, ShownAs, Props, Required, Sort, Ascends;
    PropsAre(owner, fields, k);
    RequiredAre(fields, k);
    var required := Required(fields);
    StringSortAscends(required);
    assert k in Sort(Less, required) <==> k in multiset(Sort(Less, required));
    assert k in required <==> k in multiset(required);
  }

  // ---- References between types -------------------------------------------------------

  /** The struct a type mentions, if any. */
  function StructsIn(t: GoType): set<string> {
    match Strip(t)
    case GoSlice(e) => StructsIn(e)
    case GoMap(e) => StructsIn(e)
    case GoStruct(n) => {n}
    case _ => {}
  }

  function FieldStructs(fields: seq<GoField>): set<string> {
    if fields == [] then {}
    else
      var f := fields[|fields| - 1];
      FieldStructs(fields[..|fields| - 1]) + if YamlName(f).Some? then StructsIn(f.kind) else {}
  }

  /** The structs the visible fields of a struct mention. */
  function Succ(u: Universe, n: string): set<string> {
    if n in u then FieldStructs(u[n]) else {}
  }

  /** Every struct a struct mentions is a type of the program. */
  ghost predicate Closed(u: Universe) {
    forall n | n in u :: Succ(u, n) <= u.Keys
  }

  ghost function RefsOf(s: Schema): set<string>
    decreases s
  {
    match s
    case ArrayOf(x) => RefsOf(x)
    case MapOf(x) => RefsOf(x)
    case RefTo(n) => {n}
    case OneOf(x, y) => RefsOf(x) + RefsOf(y)
    case ObjectOf(props, _) => set k, n | k in props && n in RefsOf(props[k]) :: n
    case _ => {}
  }

  lemma {:induction false} RefsOfType(t: GoType)
    ensures RefsOf(SchemaOf(t)) == StructsIn(t)
  {
    match Strip(t)
    case GoSlice(e) => RefsOfType(e);
    case GoMap(e) => RefsOfType(e);
    case _ =>
  }

  lemma {:induction false} RefsOfProps(owner: string, fields: seq<GoField>, k: string)
    requires k in Props(owner, fields)
    ensures RefsOf(Props(owner, fields)[k]) <= FieldStructs(fields)
  {
    var f := fields[|fields| - 1];
    if YamlName(f) == Some(k) {
      RefsOfType(f.kind);
    } else {
      RefsOfProps(owner, fields[..|fields| - 1], k);
    }
  }

  /** A struct's schema refers to nothing but the structs its fields mention. */
  lemma RefsOfObject(owner: string, fields: seq<GoField>)
    ensures RefsOf(ObjectSchema(owner, fields)) <= FieldStructs(fields)
  {
    hide Props, FieldStructs, Required;
    var props := WithResources(owner, Props(owner, fields));
    forall k | k in props
      ensures RefsOf(props[k]) <= FieldStructs(fields)
    {
      if owner == "ProjectSpec" && k == "resources" {
        assert props[k] == ArrayOf(RootRef);
      } else {
        RefsOfProps(owner, fields, k);
      }
    }
    RefsWithin(props, Sort(Less, Required(fields)), FieldStructs(fields));
  }

  lemma RefsWithin(props: map<string, Schema>, required: seq<string>, s: set<string>)
    requires forall k | k in props :: RefsOf(props[k]) <= s
    ensures RefsOf(ObjectOf(props, required)) <= s
  {}

  ghost predicate IsPath(u: Universe, p: seq<string>) {
    p != [] && forall i | 0 < i < |p| :: p[i] in Succ(u, p[i - 1])
  }

  /** Some chain of mentions leads from a type in `start` to `n`. */
  ghost predicate Reaches(u: Universe, start: set<string>, n: string) {
    exists p :: IsPath(u, p) && p[0] in start && p[|p| - 1] == n
  }

  lemma ReachesItself(u: Universe, start: set<string>, n: string)
    requires n in start
    ensures Reaches(u, start, n)
  {
    assert IsPath(u, [n]);
  }

  lemma ReachesThrough(u: Universe, from: string, n: string)
    requires Reaches(u, Succ(u, from), n)
    ensures Reaches(u, {from}, n)
  {
    var p :| IsPath(u, p) && p[0] in Succ(u, from) && p[|p| - 1] == n;
    var q := [from] + p;
    assert forall i | 0 < i < |q| :: q[i] == p[i - 1];
    assert IsPath(u, q);
  }

  lemma ReachesMore(u: Universe, start: set<string>, more: set<string>, n: string)
    requires Reaches(u, start, n) && start <= more
    ensures Reaches(u, more, n)
  {}

  /** A set of types that mentions nothing outside itself holds all it reaches. */
  lemma {:induction false} ClosedHoldsReached(u: Universe, s: set<string>, p: seq<string>, i: nat)
    requires IsPath(u, p) && p[0] in s && i < |p|
    requires forall n | n in s :: Succ(u, n) <= s
    ensures p[i] in s
  {
    if i > 0 {
      ClosedHoldsReached(u, s, p, i - 1);
    }
  }

  function Shown(f: GoField): set<string> {
    if YamlName(f).Some? then StructsIn(f.kind) else {}
  }

  lemma FieldStructsGrow(fields: seq<GoField>, i: nat)
    requires i < |fields|
    ensures FieldStructs(fields[..i + 1]) == FieldStructs(fields[..i]) + Shown(fields[i])
  {
    assert fields[..i + 1][..i] == fields[..i];
  }

  /** What one more field adds to the properties and the required names. */
  lemma PropsGrow(owner: string, fields: seq<GoField>, i: nat)
    requires i < |fields|
    ensures var f, before := fields[i], Props(owner, fields[..i]);
      Props(owner, fields[..i + 1]) ==
      if YamlName(f).Some? then before[YamlName(f).value := FieldSchema(owner, f)] else before
    ensures var f, before := fields[i], Required(fields[..i]);
      Required(fields[..i + 1]) == if YamlName(f).Some? && !OmitsEmpty(f) then before + [YamlName(f).value] else before
  {
    assert fields[..i + 1][..i] == fields[..i];
  }

  lemma {:induction false} SomeFieldStructs(fields: seq<GoField>, i: nat)
    requires i <= |fields|
    ensures FieldStructs(fields[..i]) <= FieldStructs(fields)
    decreases |fields| - i
  {
    if i < |fields| {
      FieldStructsGrow(fields, i);
      SomeFieldStructs(fields, i + 1);
    } else {
      assert fields[..i] == fields;
    }
  }

  // ---- The generator ---------------------------------------------------------------------

  lemma SmallerSet(a: set<string>, b: set<string>)
    requires a <= b
    ensures |a| <= |b|
    ensures a != b ==> |a| < |b|
  {
    if a != b {
      assert |b - a| > 0 && b == a + (b - a);
    }
  }

  /** What every step of the walk keeps: what is defined is right, and mentions
      only what is defined or being defined; nothing is expanded twice. */
  ghost predicate Sound(u: Universe, defs: map<string, Schema>, building: set<string>, expanded: seq<string>) {
    && defs.Keys <= u.Keys && building <= u.Keys && defs.Keys !! building
    && (forall n | n in defs :: defs[n] == ObjectSchema(n, u[n]) && Succ(u, n) <= defs.Keys + building)
    && NoDuplicates(expanded) && Elements(expanded) == defs.Keys + building
  }

  /** `defs` has grown to `grown` by types reached from `start`. */
  ghost predicate GrownBy(u: Universe, defs: map<string, Schema>, grown: map<string, Schema>, start: set<string>) {
    && defs.Keys <= grown.Keys
    && (forall n | n in defs :: grown[n] == defs[n])
    && (forall n | n in grown && n !in defs :: Reaches(u, start, n))
  }

  lemma GrownTwice(u: Universe, a: map<string, Schema>, b: map<string, Schema>, c: map<string, Schema>,
                   s: set<string>, t: set<string>)
    requires GrownBy(u, a, b, s) && GrownBy(u, b, c, t)
    ensures GrownBy(u, a, c, s + t)
  {
    forall n | n in c && n !in a
      ensures Reaches(u, s + t, n)
    {
      if n in b {
        ReachesMore(u, s, s + t, n);
      } else {
        ReachesMore(u, t, s + t, n);
      }
    }
  }

  lemma NotGrown(u: Universe, defs: map<string, Schema>, s: set<string>)
    ensures GrownBy(u, defs, defs, s)
  {}

  lemma GrownKeeps(u: Universe, a: map<string, Schema>, b: map<string, Schema>, s: set<string>)
    requires GrownBy(u, a, b, s)
    ensures a.Keys <= b.Keys
  {}

  lemma NoFields(owner: string, fields: seq<GoField>)
    ensures Props(owner, fields[..0]) == map[] && Required(fields[..0]) == [] && FieldStructs(fields[..0]) == {}
  {}

  class Generator {
    const u: Universe
    var defs: map<string, Schema>
    var building: set<string>
    ghost var expanded: seq<string>

    constructor (u: Universe)
      ensures this.u == u && defs == map[] && building == {} && expanded == []
    {
      this.u := u;
      defs := map[];
      building := {};
      expanded := [];
    }

    ghost predicate Valid()
      reads this
    {
      Closed(u) && Sound(u, defs, building, expanded)
    }

    /** The types not yet entered. */
    ghost function Left(): nat
      reads this
    {
      |u.Keys - defs.Keys - building|
    }

    method Define(name: string) returns (s: Schema)
      requires Valid() && name in u
      modifies this
      ensures Valid() && s == RefTo(name) && building == old(building)
      ensures GrownBy(u, old(defs), defs, {name}) && name in defs.Keys + building
      decreases Left(), 0
    {
      hide Sound, GrownBy, Reaches, Succ, ObjectSchema, Closed;
      s := RefTo(name);
      NotGrown(u, defs, {name});
      if name in defs || name in building {
        return;
      }
      ghost var before := defs;
      EntersSound(u, defs, building, expanded, name);
      SmallerSet(u.Keys - defs.Keys - (building + {name}), u.Keys - defs.Keys - building);
      expanded := expanded + [name];
      building := building + {name};
      var schema := Object(name);
      DefinesSound(u, before, defs, building, expanded, name);
      defs := defs[name := schema];
      building := building - {name};
    }

    method Object(name: string) returns (s: Schema)
      requires Valid() && name in u
      modifies this
      ensures Valid() && s == ObjectSchema(name, u[name]) && building == old(building)
      ensures GrownBy(u, old(defs), defs, Succ(u, name)) && Succ(u, name) <= defs.Keys + building
      decreases Left(), 2
    {
      hide Sound, GrownBy, Reaches, Closed, Props, Required, FieldStructs, YamlName, OmitsEmpty, SchemaOf;
      var fields := u[name];
      var props: map<string, Schema> := map[];
      var required: seq<string> := [];
      ghost var before := defs;
      NoFields(name, fields);
      NotGrown(u, defs, {});
      for i := 0 to |fields|
        invariant Valid() && building == old(building)
        invariant props == Props(name, fields[..i]) && required == Required(fields[..i])
        invariant GrownBy(u, before, defs, FieldStructs(fields[..i]))
          && FieldStructs(fields[..i]) <= defs.Keys + building
      {
        FieldStructsGrow(fields, i);
        PropsGrow(name, fields, i);
        FieldIsKnown(u, name, i);
        var f := fields[i];
        var shown := YamlName(f);
        if shown.Some? {
          ghost var now := defs;
          GrownKeeps(u, before, now, FieldStructs(fields[..i]));
          SmallerSet(u.Keys - defs.Keys - building, u.Keys - before.Keys - building);
          var t := TypeOf(f.kind);
          GrownKeeps(u, now, defs, StructsIn(f.kind));
          GrownTwice(u, before, now, defs, FieldStructs(fields[..i]), StructsIn(f.kind));
          if name == "DatabaseSpec" && f.name == "Placement" {
            t := OneOf(t, TypeIs("string"));
          }
          props := props[shown.value := t];
          if !OmitsEmpty(f) {
            required := required + [shown.value];
          }
        } else {
          assert FieldStructs(fields[..i + 1]) == FieldStructs(fields[..i]);
        }
      }
      assert fields[..|fields|] == fields;
      if name == "ProjectSpec" {
        props := props["resources" := ArrayOf(RootRef)];
      }
      s := ObjectOf(props, Sort(Less, required));
    }

    method TypeOf(t: GoType) returns (s: Schema)
      requires Valid() && StructsIn(t) <= u.Keys
      modifies this
      ensures Valid() && s == SchemaOf(t) && building == old(building)
      ensures GrownBy(u, old(defs), defs, StructsIn(t)) && StructsIn(t) <= defs.Keys + building
      decreases Left(), 1, t
    {
      match Strip(t) {
        case GoString => s := TypeIs("string");
        case GoBool => s := TypeIs("boolean");
        case GoInt => s := TypeIs("integer");
        case GoFloat => s := TypeIs("number");
        case GoSlice(e) =>
          var x := TypeOf(e);
          s := ArrayOf(x);
        case GoMap(e) =>
          var x := TypeOf(e);
          s := MapOf(x);
        case GoStruct(n) => s := Define(n);
        case _ => s := Anything;
      }
    }

    /** Defines every root. The definitions are then exactly the types the
        roots reach, each expanded once and described by its own fields, and no
        reference in them dangles. */
    method Generate(roots: seq<string>)
      requires Closed(u) && Elements(roots) <= u.Keys
      requires defs == map[] && building == {} && expanded == []
      modifies this
      ensures forall n :: n in defs <==> Reaches(u, Elements(roots), n)
      ensures forall n | n in defs :: n in u && defs[n] == ObjectSchema(n, u[n])
      ensures forall n | n in defs :: RefsOf(defs[n]) <= defs.Keys
      ensures NoDuplicates(expanded) && Elements(expanded) == defs.Keys
    {
      hide GrownBy, Reaches, ObjectSchema, RefsOf, Succ, Closed;
      NotGrown(u, defs, {});
      assert Elements(roots[..0]) == {};
      for i := 0 to |roots|
        invariant Valid() && building == {}
        invariant GrownBy(u, map[], defs, Elements(roots[..i])) && Elements(roots[..i]) <= defs.Keys
      {
        assert roots[i] in Elements(roots);
        assert Elements(roots[..i + 1]) == Elements(roots[..i]) + {roots[i]};
        ghost var now := defs;
        var _ := Define(roots[i]);
        GrownKeeps(u, now, defs, {roots[i]});
        GrownTwice(u, map[], now, defs, Elements(roots[..i]), {roots[i]});
      }
      assert roots[..|roots|] == roots;
      DefinitionsAreReached(u, defs, expanded, Elements(roots));
    }
  }

  lemma EntersSound(u: Universe, defs: map<string, Schema>, building: set<string>, expanded: seq<string>, name: string)
    requires Sound(u, defs, building, expanded) && name in u && name !in defs && name !in building
    ensures Sound(u, defs, building + {name}, expanded + [name])
  {
    Append(expanded, name);
  }

  lemma DefinesSound(u: Universe, before: map<string, Schema>, defs: map<string, Schema>, building: set<string>,
                     expanded: seq<string>, name: string)
    requires Sound(u, defs, building, expanded) && name in building
    requires name !in before && GrownBy(u, before, defs, Succ(u, name)) && Succ(u, name) <= defs.Keys + building
    ensures Sound(u, defs[name := ObjectSchema(name, u[name])], building - {name}, expanded)
    ensures GrownBy(u, before, defs[name := ObjectSchema(name, u[name])], {name})
  {
    hide ObjectSchema, Succ, Reaches;
    var grown := defs[name := ObjectSchema(name, u[name])];
    assert grown.Keys + (building - {name}) == defs.Keys + building;
    forall n | n in grown && n !in before
      ensures Reaches(u, {name}, n)
    {
      if n == name {
        ReachesItself(u, {name}, name);
      } else {
        ReachesThrough(u, name, n);
      }
    }
  }

  lemma FieldIsKnown(u: Universe, name: string, i: nat)
    requires Closed(u) && name in u && i < |u[name]|
    ensures YamlName(u[name][i]).Some? ==> StructsIn(u[name][i].kind) <= u.Keys
  {
    FieldStructsGrow(u[name], i);
    SomeFieldStructs(u[name], i + 1);
  }

  lemma DefinitionsAreReached(u: Universe, defs: map<string, Schema>, expanded: seq<string>, roots: set<string>)
    requires Sound(u, defs, {}, expanded) && GrownBy(u, map[], defs, roots) && roots <= defs.Keys
    ensures forall n :: n in defs <==> Reaches(u, roots, n)
    ensures forall n | n in defs :: RefsOf(defs[n]) <= defs.Keys
  {
    hide ObjectSchema, RefsOf;
    forall n
      ensures n in defs <==> Reaches(u, roots, n)
    {
      if Reaches(u, roots, n) {
        var p :| IsPath(u, p) && p[0] in roots && p[|p| - 1] == n;
        ClosedHoldsReached(u, defs.Keys, p, |p| - 1);
      }
    }
    forall n | n in defs
      ensures RefsOf(defs[n]) <= defs.Keys
    {
      RefsOfObject(n, u[n]);
    }
  }

  /** The document does not depend on the order the roots are defined in. */
  lemma SchemaForgetsOrder(u: Universe, roots: set<string>, a: map<string, Schema>, b: map<string, Schema>)
    requires forall n :: n in a <==> Reaches(u, roots, n)
    requires forall n :: n in b <==> Reaches(u, roots, n)
    requires forall n | n in a :: n in u && a[n] == ObjectSchema(n, u[n])
    requires forall n | n in b :: n in u && b[n] == ObjectSchema(n, u[n])
    ensures a == b
  {
    hide Reaches, ObjectSchema;
    assert forall n :: n in a <==> n in b;
  }
}
