/** The two abstract model mixins: `RestrictedPBSProvidedMixin`, which adds the
    `pbs_provided` flag, and `RestrictedFieldsMixin`, which extends it with the
    `read_only` flag; each says which fields stay read-only for staff
    ("stuff") users. A record is an instance of a concrete model class
    inheriting from one of them. */
module Models {
  import opened Wrappers
  import opened Host

  type FieldName = string
  type RecordId = nat

  /** The mixin a concrete model class inherits from. */
  datatype Mixin = PbsProvidedMixin | FieldsMixin

  /** Both boolean fields are declared with `default=False`. */
  const FlagDefault: bool := false

  /** A concrete model class. Its own `get_readonly_fields_for_stuff_users`
      may wrap the mixin's list as `before + super() + after` (both empty when
      it does not override it); `fieldNames` is what the model's metadata
      reports as all of its field names. */
  datatype ModelClass = ModelClass(
    mixin: Mixin,
    before: seq<FieldName>,
    after: seq<FieldName>,
    fieldNames: seq<FieldName>)

  /** One stored record. `readOnly` is `None` when the record's class only has
      the PBS mixin, so that the attribute does not exist at all. */
  datatype Record = Record(
    id: RecordId,
    pbsProvided: bool,
    readOnly: Option<bool>,
    sites: set<SiteId>)

  /** The record has the attributes its class declares. */
  predicate ConformsTo(r: Record, c: ModelClass)
  {
    r.readOnly.Some? <==> c.mixin == FieldsMixin
  }

  /** `get_readonly_fields_for_stuff_users` of the mixins: the PBS mixin locks
      `pbs_provided`; the fuller mixin appends `read_only` to its parent's
      list. */
  function MixinStuffUserFields(m: Mixin): (r: seq<FieldName>)
    ensures |r| > 0 && r[0] == "pbs_provided"
    ensures "read_only" in r <==> m == FieldsMixin
    ensures m == FieldsMixin ==> r == MixinStuffUserFields(PbsProvidedMixin) + ["read_only"]
    decreases m.FieldsMixin?
  {
    match m
    case PbsProvidedMixin => ["pbs_provided"]
    case FieldsMixin => MixinStuffUserFields(PbsProvidedMixin) + ["read_only"]
  }

  /** The list a concrete class hands to the admin for staff users. */
  function StuffUserReadonlyFields(c: ModelClass): (r: seq<FieldName>)
    ensures |r| == |c.before| + |MixinStuffUserFields(c.mixin)| + |c.after|
    ensures r[..|c.before|] == c.before && r[|c.before|] == "pbs_provided"
    ensures r[|c.before|..|c.before| + |MixinStuffUserFields(c.mixin)|] == MixinStuffUserFields(c.mixin)
    ensures r[|c.before| + |MixinStuffUserFields(c.mixin)|..] == c.after
    ensures c.before == [] && c.after == [] ==> r == MixinStuffUserFields(c.mixin)
  {
    c.before + MixinStuffUserFields(c.mixin) + c.after
  }

  /** A record as created with every flag left at its default. */
  function NewRecord(id: RecordId, c: ModelClass, sites: set<SiteId>): (r: Record)
    ensures ConformsTo(r, c)
    ensures r.id == id && r.sites == sites
    ensures !r.pbsProvided && r.readOnly != Some(true)
  {
    Record(id, FlagDefault, if c.mixin == FieldsMixin then Some(FlagDefault) else None, sites)
  }

  /** The two mixin lists, literally. */
  lemma MixinListsExact()
    ensures MixinStuffUserFields(PbsProvidedMixin) == ["pbs_provided"]
    ensures MixinStuffUserFields(FieldsMixin) == ["pbs_provided", "read_only"]
  {
  }

  /** A subclass that wraps its parent's list keeps that list as a contiguous
      block, so `pbs_provided` is always locked for staff users. */
  lemma SubclassListContainsParent(c: ModelClass)
    ensures var parent := MixinStuffUserFields(c.mixin);
            var i := |c.before|;
            i + |parent| <= |StuffUserReadonlyFields(c)| &&
            StuffUserReadonlyFields(c)[i..i + |parent|] == parent
    ensures "pbs_provided" in StuffUserReadonlyFields(c)
  {
  }
}
