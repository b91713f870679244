/** Concrete expectations of the package's test-suite, stated over the model:
    three sites, a staff user with id 1, and records of the test model class,
    which has both flags and puts `publish_date` in front of the mixin's
    staff list. */
module Scenarios {
  import opened Wrappers
  import opened Host
  import opened Models
  import opened Decorators

  /** The test model class: both flags, `publish_date` locked for staff in
      front of the mixin's list, and its declared field names. */
  const TestModel := ModelClass(
    FieldsMixin, ["publish_date"], [],
    ["id", "pbs_provided", "publish_date", "read_only", "sites", "test_field1", "test_field2"])

  const AllSites: set<SiteId> := {1, 2, 3}
  const MainUser := User(1, false, {})

  /** A record of the test model. */
  function Rec(id: RecordId, pbsProvided: bool, readOnly: bool, sites: set<SiteId>): (r: Record)
    ensures ConformsTo(r, TestModel)
  {
    Record(id, pbsProvided, Some(readOnly), sites)
  }

  lemma TestModelStuffList()
    ensures StuffUserReadonlyFields(TestModel) == ["publish_date", "pbs_provided", "read_only"]
  {
  }

  /** Without `restrict_user` every site is offered; with it, only the sites
      the user holds a permission on, directly or through a group. */
  lemma FormfieldExamples()
    ensures OfferedSites(Config(false, true, []), MainUser,
                         [PagePermission(ToUser(1), {1, 2})], AllSites) == {1, 2, 3}
    ensures OfferedSites(Config(true, true, []), MainUser,
                         [PagePermission(ToUser(1), {1}), PagePermission(ToUser(2), {2})], AllSites) == {1}
    ensures OfferedSites(Config(true, true, []), User(3, false, {10}),
                         [PagePermission(ToGroup(10), {1}), PagePermission(ToGroup(11), {2})], AllSites) == {1}
  {
  }

  /** The main user's one page permission, on site 1. */
  const SiteOnePerms := [PagePermission(ToUser(1), {1})]

  lemma SiteOneManaged(sites: set<SiteId>)
    ensures ManagesSomeSite(MainUser, SiteOnePerms, sites) <==> 1 in sites
  {
    if 1 in sites {
      assert SiteOnePerms[0] in SiteOnePerms;
      assert HoldsPermission(MainUser, SiteOnePerms, 1);
    }
  }

  /** test_queryset1: without `restrict_user` a staff user sees none of the
      plain records, even on a site the user manages. */
  lemma QuerysetUnrestrictedExample()
    ensures var m1, m2 := Rec(1, false, false, {1, 2, 3}), Rec(2, false, false, {1, 2, 3});
            VisibleRecords(Config(false, false, []), MainUser, SiteOnePerms, [m1, m2]) == []
  {
    var m1, m2 := Rec(1, false, false, {1, 2, 3}), Rec(2, false, false, {1, 2, 3});
    var cfg := Config(false, false, []);
    VisibleSnoc(cfg, MainUser, SiteOnePerms, [], m1);
    assert [] + [m1] == [m1];
    VisibleSnoc(cfg, MainUser, SiteOnePerms, [m1], m2);
    assert [m1] + [m2] == [m1, m2];
  }

  /** test_queryset2 and test_queryset3: with `restrict_user` the records on
      site 1 are listed and the one only on sites 2 and 3 is not. */
  lemma QuerysetRestrictedExample()
    ensures var m1, m2, m4 := Rec(1, false, false, {1, 2, 3}), Rec(2, false, false, {1, 2, 3}), Rec(4, false, false, {2, 3});
            VisibleRecords(Config(true, false, []), MainUser, SiteOnePerms, [m1, m2, m4]) == [m1, m2]
  {
    var m1, m2, m4 := Rec(1, false, false, {1, 2, 3}), Rec(2, false, false, {1, 2, 3}), Rec(4, false, false, {2, 3});
    var cfg := Config(true, false, []);
    SiteOneManaged({1, 2, 3});
    SiteOneManaged({2, 3});
    assert Admits(cfg, MainUser, SiteOnePerms, m1) && Admits(cfg, MainUser, SiteOnePerms, m2);
    assert !Admits(cfg, MainUser, SiteOnePerms, m4);
    VisibleSnoc(cfg, MainUser, SiteOnePerms, [], m1);
    assert [] + [m1] == [m1];
    VisibleSnoc(cfg, MainUser, SiteOnePerms, [m1], m2);
    assert [m1] + [m2] == [m1, m2];
    VisibleSnoc(cfg, MainUser, SiteOnePerms, [m1, m2], m4);
    assert [m1, m2] + [m4] == [m1, m2, m4];
  }

  /** test_queryset9: on sites the user does not manage only the PBS provided
      record is listed; the orphan is not, `include_orphan` being off. */
  lemma QuerysetPbsExample()
    ensures var m1, m4, m5 := Rec(1, false, false, {2, 3}), Rec(4, true, false, {2, 3}), Rec(5, false, false, {});
            VisibleRecords(Config(true, false, []), MainUser, SiteOnePerms, [m1, m4, m5]) == [m4]
  {
    var m1, m4, m5 := Rec(1, false, false, {2, 3}), Rec(4, true, false, {2, 3}), Rec(5, false, false, {});
    var cfg := Config(true, false, []);
    SiteOneManaged({2, 3});
    SiteOneManaged({});
    VisibleSnoc(cfg, MainUser, SiteOnePerms, [], m1);
    assert [] + [m1] == [m1];
    VisibleSnoc(cfg, MainUser, SiteOnePerms, [m1], m4);
    assert [m1] + [m4] == [m1, m4];
    VisibleSnoc(cfg, MainUser, SiteOnePerms, [m1, m4], m5);
    assert [m1, m4] + [m5] == [m1, m4, m5];
  }

  /** test_queryset6: on sites the user does not manage, `include_orphan`
      lists the orphan and nothing else. */
  lemma QuerysetOrphanExample()
    ensures var m1, m5 := Rec(1, false, false, {2, 3}), Rec(5, false, false, {});
            VisibleRecords(Config(true, true, []), MainUser, SiteOnePerms, [m1, m5]) == [m5]
  {
    var m1, m5 := Rec(1, false, false, {2, 3}), Rec(5, false, false, {});
    var cfg := Config(true, true, []);
    SiteOneManaged({2, 3});
    assert !Admits(cfg, MainUser, SiteOnePerms, m1);
    VisibleSnoc(cfg, MainUser, SiteOnePerms, [], m1);
    assert [] + [m1] == [m1];
    VisibleSnoc(cfg, MainUser, SiteOnePerms, [m1], m5);
    assert [m1] + [m5] == [m1, m5];
  }

  /** test_queryset10: a superuser sees the whole base queryset. */
  lemma QuerysetSuperuserExample()
    ensures var m1, m4, m5 := Rec(1, false, false, {2, 3}), Rec(4, true, false, {2, 3}), Rec(5, false, false, {});
            VisibleRecords(Config(true, false, []), User(9, true, {}), SiteOnePerms, [m1, m4, m5]) == [m1, m4, m5]
  {
    var m1, m4, m5 := Rec(1, false, false, {2, 3}), Rec(4, true, false, {2, 3}), Rec(5, false, false, {});
    SuperuserSeesBase(Config(true, false, []), User(9, true, {}), SiteOnePerms, [m1, m4, m5]);
  }

  /** The read-only field tests with `allways_ro = ['publish_date']`. */
  lemma ReadonlyFieldsExamples()
    ensures var ro := ["publish_date"];
            var m := Rec(1, false, false, {1, 2, 3});
            var pbs := Rec(1, true, false, {1, 2, 3});
            && GetReadonlyFields(Config(false, true, ro), MainUser, TestModel, None) == Ok(ro)
            && GetReadonlyFields(Config(false, true, ro), MainUser, TestModel, Some(m)) ==
                 Ok(["publish_date", "pbs_provided", "read_only"])
            && GetReadonlyFields(Config(true, true, ro), MainUser, TestModel, Some(m)) ==
                 Ok(["publish_date", "pbs_provided", "read_only"])
            && GetReadonlyFields(Config(true, true, ro), MainUser, TestModel, Some(pbs)) == Ok(TestModel.fieldNames)
            && GetReadonlyFields(Config(true, true, ro), User(1, true, {}), TestModel, Some(pbs)) == Ok(ro)
  {
    TestModelStuffList();
  }

  /** A plain record and a read-only one, both on site 1. */
  const Plain := Rec(2, false, false, {1})
  const ReadOnly := Rec(3, false, true, {1})

  /** test_has_delete_permission1 and 8: without `restrict_user`, or for a
      superuser, even a selection holding a read-only record may go. */
  lemma BulkDeleteUnrestrictedExamples()
    ensures HasDeletePermission(Config(false, true, []), MainUser, None, [Plain, ReadOnly], [2, 3]) == Ok(true)
    ensures HasDeletePermission(Config(true, true, []), User(1, true, {}), None, [Plain, ReadOnly], [2, 3]) == Ok(true)
  {
  }

  /** test_has_delete_permission4: a read-only record in the selection blocks
      it for a staff user under `restrict_user`. */
  lemma BulkDeleteReadOnlyExample()
    ensures HasDeletePermission(Config(true, true, []), MainUser, None, [Plain, ReadOnly], [2, 3]) == Ok(false)
  {
  }

  /** test_has_delete_permission5: selecting only the plain record is
      allowed. */
  lemma BulkDeletePlainOnlyExample()
    ensures HasDeletePermission(Config(true, true, []), MainUser, None, [Plain, ReadOnly], [2]) == Ok(true)
  {
  }

  /** test_has_delete_permission2: two plain records may go together. */
  lemma BulkDeletePlainExample()
    ensures HasDeletePermission(Config(true, true, []), MainUser, None, [Plain, Rec(3, false, false, {1})], [2, 3]) == Ok(true)
  {
  }

  /** test_has_delete_permission3: a PBS provided record blocks the
      selection. */
  lemma BulkDeletePbsExample()
    ensures HasDeletePermission(Config(true, true, []), MainUser, None, [Plain, Rec(3, true, false, {1})], [2, 3]) == Ok(false)
  {
  }

  /** test_has_delete_permission6 and 7: a single plain record may be
      deleted, a read-only one may not. */
  lemma SingleDeleteExamples()
    ensures HasDeletePermission(Config(true, true, []), MainUser, Some(Plain), [Plain, ReadOnly], []) == Ok(true)
    ensures HasDeletePermission(Config(true, true, []), MainUser, Some(ReadOnly), [Plain, ReadOnly], []) == Ok(false)
  {
  }
}
