/** The access policy the class decorators install on an admin class. Each
    hook is a pure decision over the requesting user, the decorator's
    arguments and plain data standing for what the ORM would return: the base
    queryset, the model's table, the sites and the page permissions. */
module Decorators {
  import opened Wrappers
  import opened Host
  import opened Models

  /** Exceptions a hook can raise on its own. */
  datatype AdminError =
    | MissingReadOnlyAttribute  // `read_only` read on a record whose class has only the PBS mixin
    | RecordDoesNotExist        // the change view's lookup by primary key found nothing

  /** The decorator arguments: `restrict_user`, `include_orphan`, `allways_ro`. */
  datatype Config = Config(restrictUser: bool, includeOrphan: bool, allwaysRo: seq<FieldName>)

  /** The defaults of `restricted_overrides`. */
  const DefaultConfig := Config(false, true, [])

  predicate NoDuplicates<T(==)>(s: seq<T>)
  {
    forall i, j :: 0 <= i < j < |s| ==> s[i] != s[j]
  }

  /** `r` is `q` with some elements left out, the rest kept in order. */
  predicate IsSubsequence<T(==)>(r: seq<T>, q: seq<T>)
    decreases |q|
  {
    if r == [] then true
    else if q == [] then false
    else (r[|r| - 1] == q[|q| - 1] && IsSubsequence(r[..|r| - 1], q[..|q| - 1]))
         || IsSubsequence(r, q[..|q| - 1])
  }

  /** Primary keys are unique in a table. */
  predicate UniqueIds(table: seq<Record>)
  {
    forall i, j :: 0 <= i < |table| && 0 <= j < |table| && table[i].id == table[j].id ==> i == j
  }

  // ---------------------------------------------------------------------------
  // add_pbs_fields

  /** One entry of an admin's `fieldsets`: a title and its options (the lines
      of field names and the CSS classes). */
  datatype FieldsetEntry = FieldsetEntry(title: string, fields: seq<seq<FieldName>>, classes: seq<string>)

  /** The collapsed 'PBS' entry showing both flags on one line. */
  const PbsFieldset := FieldsetEntry("PBS", [["pbs_provided", "read_only"]], ["collapse"])

  /** `fieldsets` after `add_pbs_fields`; `None` is an unset attribute. A
      non-empty value gains the PBS entry at its end; an empty or unset one is
      left alone. */
  function AddPbsFields(fieldsets: Option<seq<FieldsetEntry>>): (r: Option<seq<FieldsetEntry>>)
    ensures fieldsets.None? || fieldsets == Some([]) ==> r == fieldsets
    ensures fieldsets.Some? && fieldsets.value != [] ==>
              && r.Some?
              && |r.value| == |fieldsets.value| + 1
              && r.value[..|fieldsets.value|] == fieldsets.value
              && r.value[|fieldsets.value|] == PbsFieldset
  {
    if fieldsets.Some? && fieldsets.value != [] then Some(fieldsets.value + [PbsFieldset]) else fieldsets
  }

  // ---------------------------------------------------------------------------
  // formfield_for_manytomany

  /** A keyword argument handed on to the wrapped `formfield_for_manytomany`:
      the site choices this hook computes, or any value the caller passed. */
  datatype KwArg = SiteChoices(sites: set<SiteId>) | Given(token: string)

  /** The sites offered in the `sites` form field. */
  function OfferedSites(cfg: Config, user: User, perms: seq<PagePermission>, allSites: set<SiteId>): (r: set<SiteId>)
    ensures !cfg.restrictUser || user.isSuperuser ==> r == allSites
    ensures cfg.restrictUser && !user.isSuperuser ==>
              forall s :: s in r <==>
                s in allSites &&
                exists p :: p in perms && s in p.sites &&
                  (p.grantee == ToUser(user.id) || (p.grantee.ToGroup? && p.grantee.group in user.groups))
    ensures cfg.restrictUser && !user.isSuperuser ==> r == allSites * GrantedSites(user, perms)
  {
    if cfg.restrictUser && !user.isSuperuser then
      set s | s in allSites && HoldsPermission(user, perms, s)
    else
      allSites
  }

  /** The keyword arguments passed on to the wrapped hook: for the `sites`
      field the `queryset` argument is set to the offered sites, for any other
      field they pass through unchanged. */
  function FormfieldKwargs(cfg: Config, fieldName: string, user: User, perms: seq<PagePermission>,
                           allSites: set<SiteId>, kwargs: map<string, KwArg>): (r: map<string, KwArg>)
    ensures fieldName != "sites" ==> r == kwargs
    ensures fieldName == "sites" ==>
              && r.Keys == kwargs.Keys + {"queryset"}
              && r["queryset"] == SiteChoices(OfferedSites(cfg, user, perms, allSites))
              && forall k :: k in kwargs && k != "queryset" ==> r[k] == kwargs[k]
  {
    if fieldName == "sites" then kwargs["queryset" := SiteChoices(OfferedSites(cfg, user, perms, allSites))]
    else kwargs
  }

  // ---------------------------------------------------------------------------
  // queryset

  /** The filter `f` of the queryset hook: empty (all records) for a
      superuser, otherwise the OR of the permission, `pbs_provided` and orphan
      conditions that the flags switch on. */
  predicate Admits(cfg: Config, user: User, perms: seq<PagePermission>, x: Record)
    ensures x.pbsProvided ==> Admits(cfg, user, perms, x)
    ensures Admits(cfg, user, perms, x) && !user.isSuperuser && !x.pbsProvided ==>
              cfg.restrictUser || (cfg.includeOrphan && x.sites == {})
  {
    || user.isSuperuser
    || (cfg.restrictUser && ManagesSomeSite(user, perms, x.sites))
    || x.pbsProvided
    || (cfg.includeOrphan && x.sites == {})
  }

  /** `q.filter(f).distinct()`: the records of the base queryset `q` that the
      filter admits, each once, in the order of their first occurrence. */
  function VisibleRecords(cfg: Config, user: User, perms: seq<PagePermission>, q: seq<Record>): (r: seq<Record>)
    ensures NoDuplicates(r)
    ensures forall x :: x in r <==>
              && x in q
              && (|| user.isSuperuser
                  || x.pbsProvided
                  || (cfg.restrictUser && exists s :: s in x.sites && HoldsPermission(user, perms, s))
                  || (cfg.includeOrphan && x.sites == {}))
    decreases |q|
  {
    if q == [] then []
    else
      var kept := VisibleRecords(cfg, user, perms, q[..|q| - 1]);
      var last := q[|q| - 1];
      assert q == q[..|q| - 1] + [last];
      if Admits(cfg, user, perms, last) && last !in kept then kept + [last] else kept
  }

  /** Extending the base queryset by one record appends it to the visible
      list exactly when the filter admits it and it is not listed already. */
  lemma VisibleSnoc(cfg: Config, user: User, perms: seq<PagePermission>, q: seq<Record>, x: Record)
    ensures VisibleRecords(cfg, user, perms, q + [x]) ==
            if Admits(cfg, user, perms, x) && x !in VisibleRecords(cfg, user, perms, q)
            then VisibleRecords(cfg, user, perms, q) + [x]
            else VisibleRecords(cfg, user, perms, q)
  {
    assert (q + [x])[..|q + [x]| - 1] == q;
  }

  /** Appending the same element to both sides, or to the longer one only,
      keeps a subsequence a subsequence. */
  lemma SubsequenceSnoc<T>(r: seq<T>, q: seq<T>, x: T)
    requires IsSubsequence(r, q)
    ensures IsSubsequence(r, q + [x])
    ensures IsSubsequence(r + [x], q + [x])
  {
    assert (q + [x])[..|q + [x]| - 1] == q;
    assert (r + [x])[..|r + [x]| - 1] == r;
  }

  /** The visible list keeps the base queryset's order: it is the base
      queryset with the records the filter rejects, and the repeats, left
      out. */
  lemma {:induction false} VisibleIsSubsequence(cfg: Config, user: User, perms: seq<PagePermission>, q: seq<Record>)
    ensures IsSubsequence(VisibleRecords(cfg, user, perms, q), q)
    decreases |q|
  {
    if q != [] {
      var init, last := q[..|q| - 1], q[|q| - 1];
      assert init + [last] == q;
      VisibleIsSubsequence(cfg, user, perms, init);
      VisibleSnoc(cfg, user, perms, init, last);
      SubsequenceSnoc(VisibleRecords(cfg, user, perms, init), init, last);
    }
  }

  /** A superuser's filter is empty, so a duplicate-free base queryset comes
      back whole and in order. */
  lemma {:induction false} SuperuserSeesBase(cfg: Config, user: User, perms: seq<PagePermission>, q: seq<Record>)
    requires user.isSuperuser
    requires NoDuplicates(q)
    ensures VisibleRecords(cfg, user, perms, q) == q
    decreases |q|
  {
    if q != [] {
      var init := q[..|q| - 1];
      assert NoDuplicates(init);
      SuperuserSeesBase(cfg, user, perms, init);
      assert q == init + [q[|q| - 1]];
      assert q[|q| - 1] !in init;
    }
  }

  /** Switching `restrict_user` or `include_orphan` on never hides a record. */
  lemma VisibilityMonotone(cfg: Config, cfg': Config, user: User, perms: seq<PagePermission>, q: seq<Record>)
    requires cfg.restrictUser ==> cfg'.restrictUser
    requires cfg.includeOrphan ==> cfg'.includeOrphan
    ensures forall x :: x in VisibleRecords(cfg, user, perms, q) ==> x in VisibleRecords(cfg', user, perms, q)
  {
  }

  /** For a staff user under `restrict_user`, a record that is neither PBS
      provided nor an orphan is listed exactly when one of its sites is among
      the sites the form offers. */
  lemma VisibleIffSiteOffered(cfg: Config, user: User, perms: seq<PagePermission>, allSites: set<SiteId>,
                              q: seq<Record>, x: Record)
    requires cfg.restrictUser && !user.isSuperuser
    requires x in q && !x.pbsProvided && x.sites != {} && x.sites <= allSites
    ensures x in VisibleRecords(cfg, user, perms, q) <==> x.sites * OfferedSites(cfg, user, perms, allSites) != {}
  {
    var offered := OfferedSites(cfg, user, perms, allSites);
    if x in VisibleRecords(cfg, user, perms, q) {
      var s :| s in x.sites && HoldsPermission(user, perms, s);
      assert s in x.sites * offered;
    }
    if x.sites * offered != {} {
      var s :| s in x.sites * offered;
      assert HoldsPermission(user, perms, s);
    }
  }

  // ---------------------------------------------------------------------------
  // the lock predicate `obj.pbs_provided or obj.read_only`

  /** Evaluates the lock predicate; `read_only` is only read when
      `pbs_provided` is false, and reading it fails when the record's class
      does not declare it. */
  function IsLocked(x: Record): (r: Result<bool, AdminError>)
    ensures r == Ok(true) <==> x.pbsProvided || x.readOnly == Some(true)
    ensures r == Ok(false) <==> !x.pbsProvided && x.readOnly == Some(false)
    ensures r.Err? <==> !x.pbsProvided && x.readOnly.None?
    ensures r.Err? ==> r.error == MissingReadOnlyAttribute
  {
    if x.pbsProvided then Ok(true)
    else match x.readOnly
      case Some(b) => Ok(b)
      case None => Err(MissingReadOnlyAttribute)
  }

  // ---------------------------------------------------------------------------
  // get_readonly_fields

  /** The read-only fields of the change form for `obj` (`None` on the add
      form). */
  function GetReadonlyFields(cfg: Config, user: User, model: ModelClass, obj: Option<Record>)
    : (r: Result<seq<FieldName>, AdminError>)
    ensures obj.None? || user.isSuperuser ==> r == Ok(cfg.allwaysRo)
    ensures obj.Some? && !user.isSuperuser ==>
              && (!cfg.restrictUser ==> r == Ok(StuffUserReadonlyFields(model)))
              && (cfg.restrictUser && (obj.value.pbsProvided || obj.value.readOnly == Some(true)) ==>
                    r == Ok(model.fieldNames))
              && (cfg.restrictUser && !obj.value.pbsProvided && obj.value.readOnly == Some(false) ==>
                    r == Ok(StuffUserReadonlyFields(model)))
              && (cfg.restrictUser && !obj.value.pbsProvided && obj.value.readOnly.None? ==>
                    r == Err(MissingReadOnlyAttribute))
  {
    if obj.None? || user.isSuperuser then Ok(cfg.allwaysRo)
    else if !cfg.restrictUser then Ok(StuffUserReadonlyFields(model))
    else match IsLocked(obj.value)
      case Err(e) => Err(e)
      case Ok(locked) => Ok(if locked then model.fieldNames else StuffUserReadonlyFields(model))
  }

  // ---------------------------------------------------------------------------
  // has_delete_permission

  /** `model.objects.filter(id__in=ids)`: the records of the table whose id is
      among the selected ones; unknown ids select nothing. */
  function SelectByIds(table: seq<Record>, ids: seq<RecordId>): (r: seq<Record>)
    ensures forall x :: x in r <==> x in table && x.id in ids
    decreases |table|
  {
    if table == [] then []
    else (if table[0].id in ids then [table[0]] else []) + SelectByIds(table[1..], ids)
  }

  /** The list comprehension of the lock predicate over the selected records:
      it fails as soon as one record fails, otherwise it holds each record's
      lock flag. */
  function LockFlags(rs: seq<Record>): (r: Result<seq<bool>, AdminError>)
    ensures r.Ok? <==> forall x :: x in rs ==> x.pbsProvided || x.readOnly.Some?
    ensures r.Err? ==> r.error == MissingReadOnlyAttribute
    ensures r.Ok? ==>
              && |r.value| == |rs|
              && forall i :: 0 <= i < |rs| ==> (r.value[i] <==> rs[i].pbsProvided || rs[i].readOnly == Some(true))
    decreases |rs|
  {
    if rs == [] then Ok([])
    else match IsLocked(rs[0])
      case Err(e) => Err(e)
      case Ok(b) =>
        match LockFlags(rs[1..])
        case Err(e) => Err(e)
        case Ok(bs) => Ok([b] + bs)
  }

  /** `not any([...])` over the selected records: fails if a lock flag
      fails, otherwise true exactly when no selected record is locked. */
  function NoneLocked(rs: seq<Record>): (r: Result<bool, AdminError>)
    ensures r == Ok(true) <==> forall x :: x in rs ==> !x.pbsProvided && x.readOnly == Some(false)
    ensures r.Err? <==> exists x :: x in rs && !x.pbsProvided && x.readOnly.None?
    ensures r.Err? ==> r.error == MissingReadOnlyAttribute
  {
    match LockFlags(rs)
    case Err(e) => Err(e)
    case Ok(flags) =>
      assert (true in flags) <==> exists x :: x in rs && (x.pbsProvided || x.readOnly == Some(true)) by {
        if true in flags {
          var i :| 0 <= i < |flags| && flags[i];
          assert rs[i] in rs;
        }
        if exists x :: x in rs && (x.pbsProvided || x.readOnly == Some(true)) {
          var x :| x in rs && (x.pbsProvided || x.readOnly == Some(true));
          var i :| 0 <= i < |rs| && rs[i] == x;
          assert flags[i];
        }
      }
      forall x | x in rs && x.readOnly.Some? && x.readOnly != Some(true) ensures x.readOnly == Some(false) {
        assert !x.readOnly.value;
      }
      Ok(!(true in flags))
  }

  /** Whether the user may delete `obj`, or with `obj` absent, the bulk
      selection `selected` of the model's `table`. */
  function HasDeletePermission(cfg: Config, user: User, obj: Option<Record>,
                               table: seq<Record>, selected: seq<RecordId>): (r: Result<bool, AdminError>)
    ensures user.isSuperuser || !cfg.restrictUser ==> r == Ok(true)
    ensures !user.isSuperuser && cfg.restrictUser && obj.Some? ==>
              && ((obj.value.pbsProvided || obj.value.readOnly == Some(true)) ==> r == Ok(false))
              && (!obj.value.pbsProvided && obj.value.readOnly == Some(false) ==> r == Ok(true))
              && (!obj.value.pbsProvided && obj.value.readOnly.None? ==> r == Err(MissingReadOnlyAttribute))
    ensures !user.isSuperuser && cfg.restrictUser && obj.None? ==>
              && (r == Ok(true) <==>
                    forall x :: x in table && x.id in selected ==> !x.pbsProvided && x.readOnly == Some(false))
              && (r.Err? <==>
                    exists x :: x in table && x.id in selected && !x.pbsProvided && x.readOnly.None?)
              && (r.Err? ==> r.error == MissingReadOnlyAttribute)
  {
    if user.isSuperuser then Ok(true)
    else if cfg.restrictUser then
      if obj.None? then NoneLocked(SelectByIds(table, selected))
      else match IsLocked(obj.value)
        case Err(e) => Err(e)
        case Ok(locked) => Ok(!locked)
    else Ok(true)
  }

  // ---------------------------------------------------------------------------
  // change_view

  /** `model.objects.get(pk=id)`: the record with that primary key. */
  function FindById(table: seq<Record>, id: RecordId): (r: Option<Record>)
    ensures r.Some? ==> r.value in table && r.value.id == id
    ensures r.None? <==> forall x :: x in table ==> x.id != id
    decreases |table|
  {
    if table == [] then None
    else if table[0].id == id then Some(table[0])
    else FindById(table[1..], id)
  }

  /** With unique primary keys the lookup finds the very record. */
  lemma FindByIdFindsMember(table: seq<Record>, x: Record)
    requires UniqueIds(table)
    requires x in table
    ensures FindById(table, x.id) == Some(x)
  {
  }

  /** The context handed to the wrapped change view. Whatever context the
      caller passed is discarded: the result is empty or holds only
      `read_only: True`, and the latter only for a staff user under
      `restrict_user`. */
  function ChangeViewContext(cfg: Config, user: User, objectId: RecordId, table: seq<Record>,
                             extraContext: map<string, bool>): (r: Result<map<string, bool>, AdminError>)
    ensures user.isSuperuser ==> r == Ok(map[])
    ensures r.Ok? ==> r.value == map[] || r.value == map["read_only" := true]
    ensures r.Ok? && "read_only" in r.value ==> cfg.restrictUser && !user.isSuperuser
    ensures !user.isSuperuser && (forall x :: x in table ==> x.id != objectId) ==> r == Err(RecordDoesNotExist)
    ensures !user.isSuperuser && !cfg.restrictUser && (exists x :: x in table && x.id == objectId) ==>
              r == Ok(map[])
    ensures !user.isSuperuser && cfg.restrictUser && FindById(table, objectId).Some? ==>
              var x := FindById(table, objectId).value;
              && (x.pbsProvided || x.readOnly == Some(true) ==> r == Ok(map["read_only" := true]))
              && (!x.pbsProvided && x.readOnly == Some(false) ==> r == Ok(map[]))
              && (!x.pbsProvided && x.readOnly.None? ==> r == Err(MissingReadOnlyAttribute))
  {
    if user.isSuperuser then Ok(map[])
    else match FindById(table, objectId)
      case None => Err(RecordDoesNotExist)
      case Some(x) =>
        if !cfg.restrictUser then Ok(map[])
        else match IsLocked(x)
          case Err(e) => Err(e)
          case Ok(locked) => Ok(if locked then map["read_only" := true] else map[])
  }

  /** The caller's `extra_context` has no influence on the hook. */
  lemma ChangeViewIgnoresExtraContext(cfg: Config, user: User, objectId: RecordId, table: seq<Record>,
                                      c1: map<string, bool>, c2: map<string, bool>)
    ensures ChangeViewContext(cfg, user, objectId, table, c1) == ChangeViewContext(cfg, user, objectId, table, c2)
  {
  }

  // ---------------------------------------------------------------------------
  // how the hooks agree

  /** For a staff user under `restrict_user`, the one predicate
      `pbs_provided or read_only` sets the change view's `read_only` flag,
      refuses deletion and locks every field at once; where it fails, all
      three hooks fail. */
  lemma LockDrivesAllHooks(cfg: Config, user: User, model: ModelClass, table: seq<Record>,
                                              x: Record, ctx: map<string, bool>, selected: seq<RecordId>)
    requires cfg.restrictUser && !user.isSuperuser
    requires UniqueIds(table) && x in table
    ensures var locked := x.pbsProvided || x.readOnly == Some(true);
            (x.pbsProvided || x.readOnly.Some?) ==>
              && ChangeViewContext(cfg, user, x.id, table, ctx) ==
                   Ok(if locked then map["read_only" := true] else map[])
              && HasDeletePermission(cfg, user, Some(x), table, selected) == Ok(!locked)
              && GetReadonlyFields(cfg, user, model, Some(x)) ==
                   Ok(if locked then model.fieldNames else StuffUserReadonlyFields(model))
    ensures !x.pbsProvided && x.readOnly.None? ==>
              && ChangeViewContext(cfg, user, x.id, table, ctx) == Err(MissingReadOnlyAttribute)
              && HasDeletePermission(cfg, user, Some(x), table, selected) == Err(MissingReadOnlyAttribute)
              && GetReadonlyFields(cfg, user, model, Some(x)) == Err(MissingReadOnlyAttribute)
  {
  }

  /** With the defaults of `restricted_overrides` (`restrict_user` off,
      `include_orphan` on, no `allways_ro`), a staff user lists exactly the
      PBS provided records and the orphans, may delete anything, and sees the
      class's staff list locked on every record. */
  lemma DefaultConfigPolicy(user: User, perms: seq<PagePermission>, model: ModelClass, q: seq<Record>,
                            table: seq<Record>, obj: Option<Record>, selected: seq<RecordId>)
    requires !user.isSuperuser
    ensures forall x :: x in VisibleRecords(DefaultConfig, user, perms, q) <==>
              x in q && (x.pbsProvided || x.sites == {})
    ensures HasDeletePermission(DefaultConfig, user, obj, table, selected) == Ok(true)
    ensures obj.Some? ==> GetReadonlyFields(DefaultConfig, user, model, obj) == Ok(StuffUserReadonlyFields(model))
  {
  }

  /** Selecting one record for bulk deletion is decided as deleting that
      record on its own. */
  lemma SingleSelectionMatchesObject(cfg: Config, user: User, table: seq<Record>, x: Record)
    requires UniqueIds(table) && x in table
    ensures HasDeletePermission(cfg, user, None, table, [x.id]) ==
            HasDeletePermission(cfg, user, Some(x), table, [])
  {
  }

  /** An empty bulk selection may always be deleted. */
  lemma EmptySelectionDeletable(cfg: Config, user: User, table: seq<Record>)
    ensures HasDeletePermission(cfg, user, None, table, []) == Ok(true)
  {
  }

  /** A record created with the default flags, of a class with both flags,
      can be deleted, and staff users edit it with only the class's staff
      list locked. */
  lemma FreshRecordIsEditable(cfg: Config, user: User, model: ModelClass, table: seq<Record>,
                              id: RecordId, sites: set<SiteId>)
    requires model.mixin == FieldsMixin
    ensures var x := NewRecord(id, model, sites);
            && HasDeletePermission(cfg, user, Some(x), table, []) == Ok(true)
            && GetReadonlyFields(cfg, user, model, Some(x)) ==
                 Ok(if user.isSuperuser then cfg.allwaysRo else StuffUserReadonlyFields(model))
  {
  }

  /** As written, a staff user under `restrict_user` cannot open the read-only
      fields or the delete check of a fresh record whose class only has the
      PBS mixin: the hooks read the missing `read_only` attribute. */
  lemma FreshPbsOnlyRecordFaults(cfg: Config, user: User, model: ModelClass, table: seq<Record>,
                                 id: RecordId, sites: set<SiteId>)
    requires model.mixin == PbsProvidedMixin
    requires cfg.restrictUser && !user.isSuperuser
    ensures var x := NewRecord(id, model, sites);
            && HasDeletePermission(cfg, user, Some(x), table, []) == Err(MissingReadOnlyAttribute)
            && GetReadonlyFields(cfg, user, model, Some(x)) == Err(MissingReadOnlyAttribute)
  {
  }
}
