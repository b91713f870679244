# restricted-model-admin access policy, in Dafny

This project models the access policy that `restricted_model_admin` adds to an
admin class. Records of a model class can be flagged `pbs_provided` (supplied
centrally) or `read_only`. The class decorators install five hooks. Together
they decide:

- which records a user may list;
- which sites the user may pick in the `sites` form field;
- which fields of a record are locked;
- whether a record, or a bulk selection of records, may be deleted;
- whether the change view is rendered read-only.

Once the ORM is taken away, each hook is a small decision over plain data:

- the requesting user (superuser flag and groups);
- the CMS's global page permissions, each tying a set of sites to one user or to one group;
- the decorator arguments `restrict_user`, `include_orphan` and `allways_ro`;
- the records the ORM would return.

Modules:

- `Wrappers` (wrappers.dfy): `Option` for Python's `None`, and `Result` for the exceptions a hook raises.
- `Host` (host.dfy): sites, users, groups and page permissions. These come from the host framework. The module also defines what it means for a permission to name a user, directly or through a group.
- `Models` (models.dfy, modelling models.py): the two mixins, the staff-user read-only lists and the flag defaults. A record's `read_only` is `None` when its class has only the PBS mixin.
- `Decorators` (decorators.dfy, modelling decorators.py): `add_pbs_fields` and the five policy hooks.
  - The lock predicate `pbs_provided or read_only` is evaluated as Python does. `read_only` is read only when `pbs_provided` is false.
  - Reading `read_only` on a PBS-only record raises `AttributeError`. The model returns this as `Err(MissingReadOnlyAttribute)`.
  - The change view's lookup by primary key can raise `DoesNotExist`. The model returns this as `Err(RecordDoesNotExist)`.
- `Scenarios` (scenarios.dfy): concrete expectations of the package's test suite, stated over the model.

Querysets are sequences of records. `filter(f).distinct()` keeps the admitted
records of the base queryset once each, as a subsequence of it. The contracts
fix the result exactly only for a duplicate-free base queryset, which is what
the database returns; for a base with repeats they do not say which copy is
kept.

What the code does, and the model with it:

- For a staff user, the filter is applied whatever `restrict_user` is. Without `restrict_user`, it still admits only PBS-provided records and, when `include_orphan` is on, orphans.
- The lock is exactly `pbs_provided or read_only`.
- An unlocked record gets only its class's staff list.

## Model

| member | source | states |
|---|---|---|
| `Models.MixinStuffUserFields` | restricted_model_admin/models.py:30-32 | the list starts with `pbs_provided`; it contains `read_only` exactly for the fuller mixin, whose list is its parent's list followed by `read_only` |
| `Models.MixinListsExact` | restricted_model_admin/models.py:11-12 | the PBS mixin locks exactly `['pbs_provided']` and the fuller mixin exactly `['pbs_provided','read_only']` |
| `Models.SubclassListContainsParent` | restricted_model_admin/test_model.py:16-18 | a class wrapping its parent's list keeps that list as a contiguous block, so `pbs_provided` is always locked for staff users |
| `Models.StuffUserReadonlyFields` | restricted_model_admin/test_model.py:16-18 | the list a concrete class returns is its own leading fields, then its mixin's list starting with `pbs_provided`, then its trailing fields; a class that does not override the method returns the mixin's list |
| `Models.NewRecord` | restricted_model_admin/models.py:4-26 | a fresh record has both flags false, and has the `read_only` attribute exactly when its class has the fuller mixin |
| `Decorators.AddPbsFields` | restricted_model_admin/decorators.py:21-29 | a non-empty `fieldsets` keeps its entries in order and gains one trailing PBS entry; an empty or unset one is unchanged |
| `Decorators.OfferedSites` | restricted_model_admin/decorators.py:48-53 | a staff user under `restrict_user` is offered exactly the sites covered by a permission that names the user directly or through one of the user's groups; everyone else is offered all sites; under `restrict_user` that is all sites intersected with `GrantedSites` |
| `Decorators.FormfieldKwargs` | restricted_model_admin/decorators.py:47-55 | for the `sites` field, `queryset` is set to the offered sites and the other kwargs are kept; for any other field the kwargs pass through unchanged |
| `Host.Grants` | restricted_model_admin/decorators.py:51-52 | a permission reaches a user by naming the user or one of the user's groups; a user in no group is reached only by a permission that names them |
| `Host.HoldsPermission` | restricted_model_admin/decorators.py:51-52 | defines the joined lookup: some permission covers the site and reaches the user. It carries no contract of its own; `Host.GrantedSites` is proved equal to it |
| `Host.GrantedSites` | restricted_model_admin/decorators.py:49-53 | the union, permission by permission, of the site sets of the permissions that reach the user; a site is in it iff the user holds it through the joined lookup |
| `Host.ManagesSomeSite` | restricted_model_admin/decorators.py:73-74 | the `sites__globalpagepermission` lookups of a record; a record with no sites, or an empty permission list, never matches |
| `Decorators.Admits` | restricted_model_admin/decorators.py:70-79 | the filter `f`: a PBS-provided record always passes; a plain record passes a staff user only under `restrict_user`, or as an orphan under `include_orphan` |
| `Decorators.VisibleRecords` | restricted_model_admin/decorators.py:68-80 | the result has no duplicates; a record is listed iff it is in the base queryset and one holds: the user is a superuser; it is PBS provided; `restrict_user` is on and one of its sites is managed by the user; or `include_orphan` is on and it has no sites |
| `Decorators.VisibleIsSubsequence` | restricted_model_admin/decorators.py:80 | the visible list is a subsequence of the base queryset: rejected records and repeats are left out, and the rest keep their order |
| `Decorators.SuperuserSeesBase` | restricted_model_admin/decorators.py:69-80 | a superuser's empty filter returns a duplicate-free base queryset whole and in order |
| `Decorators.VisibilityMonotone` | restricted_model_admin/decorators.py:71-79 | switching `restrict_user` or `include_orphan` on never hides a record |
| `Decorators.VisibleIffSiteOffered` | restricted_model_admin/decorators.py:47-80 | for a staff user under `restrict_user`, a record that is neither PBS provided nor orphaned is listed iff one of its sites is offered in the form |
| `Decorators.IsLocked` | restricted_model_admin/decorators.py:97 | locked iff `pbs_provided` or `read_only` is true; fails with the missing-attribute error iff `pbs_provided` is false and the class has no `read_only` |
| `Decorators.GetReadonlyFields` | restricted_model_admin/decorators.py:94-100 | no object, or a superuser: `allways_ro`. Without `restrict_user`: the class's staff list. With it: every field name for a locked object, the staff list otherwise, and the missing-attribute error for a PBS-only object that is not PBS provided |
| `Decorators.SelectByIds` | restricted_model_admin/decorators.py:119 | selects exactly the table's records whose id is among the selected ids |
| `Decorators.LockFlags` | restricted_model_admin/decorators.py:120 | succeeds iff every record has a defined lock value; when it does, it holds each record's lock, position by position |
| `Decorators.NoneLocked` | restricted_model_admin/decorators.py:120 | true iff every record is explicitly unlocked; fails iff some record lacks a defined lock value |
| `Decorators.HasDeletePermission` | restricted_model_admin/decorators.py:114-123 | a superuser, or `restrict_user` off: always true. A single object may be deleted iff it is neither PBS provided nor read-only. A bulk selection may be deleted iff no selected record has either flag. It fails iff some object that is not PBS provided lacks the `read_only` attribute, and then always with the missing-attribute error |
| `Decorators.FindById` | restricted_model_admin/decorators.py:139 | a found record belongs to the table and has the id; nothing is found iff no record has that id |
| `Decorators.FindByIdFindsMember` | restricted_model_admin/decorators.py:139 | with unique primary keys, the lookup returns the very record |
| `Decorators.ChangeViewContext` | restricted_model_admin/decorators.py:136-143 | the context is empty or exactly `read_only: True`, whatever the caller passed; a superuser gets an empty context; the flag is only set for a staff user under `restrict_user`; a missing record raises `DoesNotExist` for staff users. For a staff user whose record exists: without `restrict_user` the context is empty and `read_only` is never read; under `restrict_user` the flag is set iff the record is locked, and a PBS-only record that is not PBS provided raises the missing-attribute error |
| `Decorators.ChangeViewIgnoresExtraContext` | restricted_model_admin/decorators.py:136-137 | the caller's `extra_context` has no influence |
| `Decorators.LockDrivesAllHooks` | restricted_model_admin/decorators.py:94-143 | for a staff user under `restrict_user`, the single lock predicate does three things: it sets the change view's `read_only` flag, refuses deletion and locks every field. Where it fails, all three hooks fail |
| `Decorators.DefaultConfigPolicy` | restricted_model_admin/decorators.py:7-18 | with the defaults of `restricted_overrides`, a staff user lists exactly the PBS-provided records and the orphans, may delete anything, and has the class's staff list locked on every record |
| `Decorators.SingleSelectionMatchesObject` | restricted_model_admin/decorators.py:114-123 | a bulk selection of one record is decided exactly as deleting that record alone |
| `Decorators.EmptySelectionDeletable` | restricted_model_admin/decorators.py:118-120 | an empty bulk selection may always be deleted |
| `Decorators.FreshRecordIsEditable` | restricted_model_admin/models.py:25 | a fresh record of a class with both flags may be deleted; staff users see only the class's staff list locked on it |
| `Decorators.FreshPbsOnlyRecordFaults` | restricted_model_admin/models.py:4-12 | for a staff user under `restrict_user`, the delete check and the read-only fields of a fresh PBS-only record raise the missing-attribute error |
| `Scenarios.TestModelStuffList` | restricted_model_admin/tests.py:443-444 | the test model's staff list is `['publish_date','pbs_provided','read_only']` |
| `Scenarios.FormfieldExamples` | restricted_model_admin/tests.py:138-195 | all sites without `restrict_user`; only site 1 with it, whether the permission names the user or the user's group |
| `Scenarios.QuerysetUnrestrictedExample` | restricted_model_admin/tests.py:197-212 | without `restrict_user`, plain records are hidden from a staff user |
| `Scenarios.QuerysetRestrictedExample` | restricted_model_admin/tests.py:231-246 | with `restrict_user`, the records on the managed site are listed and the others are not |
| `Scenarios.QuerysetPbsExample` | restricted_model_admin/tests.py:367-385 | only the PBS-provided record is listed when `include_orphan` is off |
| `Scenarios.QuerysetOrphanExample` | restricted_model_admin/tests.py:287-305 | on sites the user does not manage, `include_orphan` lists the orphan and nothing else |
| `Scenarios.QuerysetSuperuserExample` | restricted_model_admin/tests.py:387-406 | a superuser sees the whole base queryset |
| `Scenarios.ReadonlyFieldsExamples` | restricted_model_admin/tests.py:424-484 | the five read-only field expectations of the tests |
| `Scenarios.BulkDeleteUnrestrictedExamples` | restricted_model_admin/tests.py:486-595 | without `restrict_user`, or for a superuser, a selection holding a read-only record may be deleted |
| `Scenarios.BulkDeleteReadOnlyExample` | restricted_model_admin/tests.py:525-539 | a selected read-only record blocks bulk deletion |
| `Scenarios.BulkDeletePlainOnlyExample` | restricted_model_admin/tests.py:541-554 | selecting only the plain record is allowed |
| `Scenarios.BulkDeletePlainExample` | restricted_model_admin/tests.py:494-507 | two plain records may be deleted together |
| `Scenarios.BulkDeletePbsExample` | restricted_model_admin/tests.py:509-523 | a selected PBS-provided record blocks bulk deletion |
| `Scenarios.SingleDeleteExamples` | restricted_model_admin/tests.py:556-578 | a single plain record may be deleted, a read-only one may not |

## Left out

- The ORM is not modelled: `Q` objects, joins, `filter`, `distinct` and `objects.get`. Querysets are sequences of records, the filter is a predicate, and `distinct` removes repeated records.
- A base queryset has no specified order in the ORM. The model keeps the order of the base sequence.
- The delegation to the wrapped `ModelAdmin` methods is not modelled: building the form field, rendering the change view and fetching the base queryset. The form hook is modelled up to the kwargs it hands on, and the change view up to the context it hands on.
- The model's field-name metadata (`get_all_field_names`) is not modelled. It is the abstract input `ModelClass.fieldNames`.
- The class-level machinery is not modelled: assigning methods onto the class, composing the decorators in `restricted_overrides`, and the `ModelAdmin` subclass check with its `TypeError`. These are class reflection, not policy. `DefaultConfig` records the defaults of the decorator arguments, and `Decorators.DefaultConfigPolicy` states what they imply.
- Parsing `_selected_action` from the POST data is not modelled. The bulk selection is given as a list of record ids.
- Translation of the 'PBS' title is not modelled; the title is the plain string. The migration, the packaging and the test scaffolding are left out too.
- `Models.StuffUserReadonlyFields` covers only subclasses that wrap their parent's list as `before + parent + after`. A subclass that replaces the list outright is not modelled.
- `Decorators.ChangeViewContext` types the context values as booleans. The framework accepts any value, but only `True` is ever produced.
- The model's `PagePermission` names exactly one grantee. A permission naming both a user and a group is modelled as two permissions.
- `Decorators.ChangeViewContext` receives an already parsed primary key. The framework passes the URL's string, and a non-numeric one makes the lookup raise `ValueError`; that path is not modelled.
- `Decorators.ChangeViewContext` does not model `MultipleObjectsReturned`, because a primary-key lookup cannot return more than one record. `UniqueIds` states this table invariant where a lemma needs it.
