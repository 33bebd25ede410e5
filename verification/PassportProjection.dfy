/** What a projection lets through: exactly the fields its tier may see, and nothing of the rest. */
module PassportProjection {
  import opened Prelude
  import opened Catalogue
  import PV = PassportValues
  import opened PassportTables

  /** Field numbers ascend, as in every document `publish` writes. */
  predicate Ascending(values: seq<DocValue>) {
    forall i, j :: 0 <= i < j < |values| ==> values[i].content.field < values[j].content.field
  }

  /** The document shows this much of the value to the tier. */
  predicate Reveals(fields: seq<Field>, tier: Option<Tier>, values: seq<DocValue>, w: DocValue) {
    exists v :: v in values && Shown(fields, tier, v.content.field) && w == Bare(v)
  }

  /** Whatever tier the document itself names, the catalogue decides; order and single occurrence are kept. */
  lemma {:induction false} ProjectionShows(fields: seq<Field>, tier: Option<Tier>, values: seq<DocValue>)
    ensures forall w :: w in ShownValues(fields, tier, values) <==> Reveals(fields, tier, values, w)
    ensures Ascending(values) ==> Ascending(ShownValues(fields, tier, values))
    decreases |values|
  {
    if values != [] {
      var front, last := values[..|values| - 1], values[|values| - 1];
      ProjectionShows(fields, tier, front);
      assert forall v :: v in values <==> v in front || v == last;
      var shown := ShownValues(fields, tier, front);
      forall w ensures w in ShownValues(fields, tier, values) <==> Reveals(fields, tier, values, w) {
        assert Reveals(fields, tier, values, w) <==>
               Reveals(fields, tier, front, w) || (Shown(fields, tier, last.content.field) && w == Bare(last));
      }
      if Ascending(values) {
        forall i | 0 <= i < |shown| ensures shown[i].content.field < last.content.field {
          assert Reveals(fields, tier, front, shown[i]);
        }
      }
    }
  }

  lemma FrontHasRest(a: seq<DocValue>)
    requires a != [] && Ascending(a)
    ensures forall v :: v in a[..|a| - 1] <==> v in a && v != a[|a| - 1]
  {
  }

  /** Ascending lists with the same members are equal. */
  lemma {:induction false} AscendingEqual(a: seq<DocValue>, b: seq<DocValue>)
    requires Ascending(a) && Ascending(b) && forall v :: v in a <==> v in b
    ensures a == b
    decreases |a|
  {
    if a == [] {
      assert forall i :: 0 <= i < |b| ==> b[i] in a;
    } else {
      assert b != [] by {
        assert a[0] in b;
      }
      var x, y := a[|a| - 1], b[|b| - 1];
      assert x in b && y in a;
      assert x == y;
      FrontHasRest(a);
      FrontHasRest(b);
      var frontA, frontB := a[..|a| - 1], b[..|b| - 1];
      forall v ensures v in frontA <==> v in frontB {
        assert v in frontA <==> v in a && v != x;
      }
      AscendingEqual(frontA, frontB);
    }
  }

  /** The documents differ in nothing the tier may see. */
  predicate LookAlike(env: Env, tier: Option<Tier>, a: Document, b: Document) {
    var fields, x, y := env.rules.fields, a.battery, b.battery;
    && a.schema == b.schema && a.ruleSet == b.ruleSet && a.generatedAt == b.generatedAt
    && x.publicId == y.publicId && x.identifier == y.identifier && x.serial == y.serial && x.batch == y.batch
    && x.upi == y.upi && x.category == y.category && (Shown(fields, tier, 67) ==> x.lifecycle == y.lifecycle)
    && (forall v :: v in a.values && Shown(fields, tier, v.content.field) ==> Reveals(fields, tier, b.values, Bare(v)))
    && (forall v :: v in b.values && Shown(fields, tier, v.content.field) ==> Reveals(fields, tier, a.values, Bare(v)))
  }

  /**
   Two documents have the same projection exactly when they agree on what the tier
   may see: internal ids, evidence, status, source, stored tier labels, other
   fields and, unless field 67 is shown, the lifecycle status make no difference.
   */
  lemma ProjectionSaysOnly(env: Env, tier: Option<Tier>, a: Document, b: Document)
    requires Ascending(a.values) && Ascending(b.values)
    ensures ProjectFor(env, a, tier) == ProjectFor(env, b, tier) <==> LookAlike(env, tier, a, b)
  {
    var fields := env.rules.fields;
    var shownA, shownB := ShownValues(fields, tier, a.values), ShownValues(fields, tier, b.values);
    ProjectionShows(fields, tier, a.values);
    ProjectionShows(fields, tier, b.values);
    hide ShownValues;
    if LookAlike(env, tier, a, b) {
      forall w ensures w in shownA <==> w in shownB {
        assert w in shownA <==> Reveals(fields, tier, a.values, w);
        assert w in shownB <==> Reveals(fields, tier, b.values, w);
      }
      AscendingEqual(shownA, shownB);
    }
    if shownA == shownB {
      forall v | v in a.values && Shown(fields, tier, v.content.field)
        ensures Reveals(fields, tier, b.values, Bare(v)) {
        assert Reveals(fields, tier, a.values, Bare(v));
      }
      forall v | v in b.values && Shown(fields, tier, v.content.field)
        ensures Reveals(fields, tier, a.values, Bare(v)) {
        assert Reveals(fields, tier, b.values, Bare(v));
      }
    }
  }

  /** Projecting the stored projection again, as the resolver does, changes nothing. */
  lemma ProjectTwice(env: Env, doc: Document)
    ensures Project(env, Project(env, doc)) == Project(env, doc)
  {
    ShownTwice(env.rules.fields, doc.values);
  }

  lemma {:induction false} ShownTwice(fields: seq<Field>, values: seq<DocValue>)
    ensures ShownValues(fields, None, ShownValues(fields, None, values)) == ShownValues(fields, None, values)
    decreases |values|
  {
    if values != [] {
      var front, last := values[..|values| - 1], values[|values| - 1];
      ShownTwice(fields, front);
      var shown := ShownValues(fields, None, front);
      if Shown(fields, None, last.content.field) {
        assert ShownValues(fields, None, values) == shown + [Bare(last)];
        assert (shown + [Bare(last)])[..|shown|] == shown;
        assert Bare(Bare(last)) == Bare(last);
      } else {
        assert ShownValues(fields, None, values) == shown;
      }
    }
  }

  // ---- what is published, column by column ----

  /** The catalogue, not the document, makes the field public or opens it to the tier. */
  ghost predicate MaySee(fields: seq<Field>, tier: Option<Tier>, id: int) {
    exists k :: 0 <= k < |fields| && fields[k].id == id
        && (fields[k].tier == PublicTier || tier == Some(fields[k].tier))
  }

  /** Number, name, content and unit of the value, and nothing about its tier, status, source or evidence. */
  ghost predicate Strips(v: DocValue, w: DocValue) {
    && w.content.field == v.content.field && w.content.name == v.content.name && w.content.json == v.content.json
    && w.content.unit == v.content.unit
    && w.content.tier == None && w.content.status == PV.Unvalidated && w.content.source == PV.System
    && w.evidenceIds == []
  }

  /** A projection keeps the open columns and the values the tier may see, and no internal id. */
  lemma ProjectionMeans(env: Env, doc: Document, tier: Option<Tier>)
    ensures var p, b := ProjectFor(env, doc, tier), doc.battery;
            && p.schema == doc.schema && p.ruleSet == doc.ruleSet && p.generatedAt == doc.generatedAt
            && p.battery == b.(id := 0, model := 0, lifecycle := p.battery.lifecycle)
            && p.battery.lifecycle == (if MaySee(env.rules.fields, tier, 67) then b.lifecycle else None)
            && (forall w :: w in p.values <==>
                  exists v :: v in doc.values && MaySee(env.rules.fields, tier, v.content.field) && Strips(v, w))
  {
    var fields := env.rules.fields;
    forall id ensures Shown(fields, tier, id) <==> MaySee(fields, tier, id) {
      SeesShown(fields, tier, id);
    }
    forall v, w ensures w == Bare(v) <==> Strips(v, w) {
    }
    ProjectionShows(fields, tier, doc.values);
    var p := ProjectFor(env, doc, tier);
    forall w ensures w in p.values <==>
        exists v :: v in doc.values && MaySee(fields, tier, v.content.field) && Strips(v, w)
    {
      assert w in p.values <==> Reveals(fields, tier, doc.values, w);
    }
  }

  lemma SeesShown(fields: seq<Field>, tier: Option<Tier>, id: int)
    ensures Shown(fields, tier, id) <==> MaySee(fields, tier, id)
  {
  }
}
