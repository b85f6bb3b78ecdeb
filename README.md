# SolrNet mapping validation: the field-existence rule

This project models, in Dafny, how SolrNet checks a document type's
property-to-field mapping against a Solr schema. The check is the rule
`MappedPropertiesIsInSolrSchemaRule` and the `MappingValidator` that runs
the registered rules. It also models the `MappingManager` that tests build
one `Add` at a time, and the `SolrSchema` object whose lists they fill.
The rule and validator sources are not part of this model. Their behaviour
is modelled from the five scenarios in
`SolrNet.Tests/MappedPropertiesIsInSolrSchemaRuleTests.cs` and from Solr's
single-wildcard naming of dynamic fields:

- A property mapped to `score`, the computed relevance field, is never reported.
- A property mapped to a field name that contains `*` (a dictionary
  mapping such as `ma_*`) is never reported, whatever the schema declares.
- Any other mapped field name must be declared in the schema. It can be a
  static field of that exact name. It can also match a dynamic field
  pattern: `X*` matches names starting with `X` and `*Y` names ending with
  `Y`, case-sensitively. A pattern with no wildcard at either end matches
  nothing.
- Each mapping that fails this check produces one `ValidationError`. The
  error names the property and the field. Errors come in the order the
  mappings were registered.
- The validator runs every rule and concatenates their results in
  registration order. It never stops at the first problem.

Files and modules:

- `wrappers.dfy` (`Wrappers`): `Option`.
- `schema.dfy` (`SchemaModel`): the `Schema` value, the pattern matching,
  and the `SolrSchema` class with `AddSolrField`.
- `mapping.dfy` (`MappingModel`): property identifiers, the mapping table,
  and the `MappingManager` class with `Add` and `SetUniqueKey`.
- `validator.dfy` (`MappingValidator`): `ValidationResult`, the rule
  interface (a function type) and `EnumerateValidationResults`.
- `rule.dfy` (`MappedPropertiesIsInSolrSchemaRule`): the rule's `Validate`
  and its properties.
- `rule_tests.dfy` (`MappedPropertiesIsInSolrSchemaRuleTests`): the five
  scenarios, each stated as a method whose postcondition is the scenario's
  assertion.

Schema fixture: `Resources.solrSchemaBasic.xml` is not part of this model.
`SolrSchemaBasic` stands in for it, with static fields `id` and `name`, the
dynamic pattern `*_s` and unique key `id`. The first three scenarios do not
depend on that choice. Each one is stated for every schema that has the
facts the scenario needs: `id` and `name` declared; `producer_s` matched by
some dynamic pattern (a `producer_*` pattern serves as well as `*_s`); and
`FieldNotSolrSchema` declared nowhere. `SolrSchemaBasic`'s postcondition
shows that the fixture has these facts.

## Model

| member | source | states |
|---|---|---|
| `MappingModel.MappingManager.constructor` | SolrNet.Tests/MappedPropertiesIsInSolrSchemaRuleTests.cs:33 | a new manager has no mappings and no unique keys |
| `MappingModel.MappingManager.Add` | SolrNet.Tests/MappedPropertiesIsInSolrSchemaRuleTests.cs:50-54 | appends the mapping after all earlier ones and leaves the unique keys alone. The mapping becomes the last of its type's mappings |
| `MappingModel.MappingManager.SetUniqueKey` | SolrNet.Tests/MappedPropertiesIsInSolrSchemaRuleTests.cs:35 | records the property as its type's unique key and leaves the mapping table unchanged, so the rule's result cannot change |
| `MappingModel.FieldsOf` | SolrNet.Tests/MappedPropertiesIsInSolrSchemaRuleTests.cs:44 | the mappings selected for a type are exactly the table's mappings of that type |
| `MappingModel.FieldsOfAppend` | SolrNet.Tests/MappedPropertiesIsInSolrSchemaRuleTests.cs:50-54 | selecting a type's mappings commutes with appending to the table, which keeps registration order |
| `MappingModel.FieldsOfAddOwn` | SolrNet.Tests/MappedPropertiesIsInSolrSchemaRuleTests.cs:54 | registering a mapping adds it last to its own type's mappings |
| `MappingModel.FieldsOfAddOther` | SolrNet.Tests/MappedPropertiesIsInSolrSchemaRuleTests.cs:44 | registering a mapping for another type does not change a type's mappings |
| `MappingModel.FieldsOfSingleType` | SolrNet.Tests/MappedPropertiesIsInSolrSchemaRuleTests.cs:34-36 | a table with mappings of one type only is entirely that type's mappings |
| `SchemaModel.SolrSchema.constructor` | SolrNet.Tests/MappedPropertiesIsInSolrSchemaRuleTests.cs:99 | a new schema declares no field, no dynamic field and no unique key |
| `SchemaModel.SolrSchema.AddSolrField` | SolrNet.Tests/MappedPropertiesIsInSolrSchemaRuleTests.cs:101 | appends a static field, after which the schema declares that name. Nothing else changes |
| `SchemaModel.PrefixPatternMatches` | SolrNet.Tests/MappedPropertiesIsInSolrSchemaRuleTests.cs:49-64 | a pattern `X*` matches every name `X` + anything |
| `SchemaModel.PrefixPatternMatchesOnlyPrefixed` | SolrNet.Tests/MappedPropertiesIsInSolrSchemaRuleTests.cs:49-64 | a name matched by `X*` starts with `X` |
| `SchemaModel.SuffixPatternMatches` | SolrNet.Tests/MappedPropertiesIsInSolrSchemaRuleTests.cs:49-64 | a pattern `*Y` matches every name anything + `Y` |
| `SchemaModel.SuffixPatternMatchesOnlySuffixed` | SolrNet.Tests/MappedPropertiesIsInSolrSchemaRuleTests.cs:49-64 | a name matched by `*Y` ends with `Y` |
| `SchemaModel.PatternWithoutWildcardMatchesNothing` | SolrNet.Tests/MappedPropertiesIsInSolrSchemaRuleTests.cs:67-82 | a pattern without `*` matches no name |
| `MappingValidator.EnumerateValidationResults` | SolrNet.Tests/MappedPropertiesIsInSolrSchemaRuleTests.cs:38-45 | a result is reported if and only if some registered rule reports it, and each rule's result count is at most the total. That every rule's list appears whole and in registration order is `SingleRule` with `RegistrationOrder` |
| `MappingValidator.SingleRule` | SolrNet.Tests/MappedPropertiesIsInSolrSchemaRuleTests.cs:44-45 | with one registered rule the validator reports exactly that rule's results, hence the same count |
| `MappingValidator.RegistrationOrder` | SolrNet.Tests/MappedPropertiesIsInSolrSchemaRuleTests.cs:38 | results of later-registered rules follow those of earlier ones |
| `MappingValidator.NothingReportedIffEveryRuleClean` | SolrNet.Tests/MappedPropertiesIsInSolrSchemaRuleTests.cs:44-45 | the validator reports nothing if and only if every rule reports nothing |
| `MappedPropertiesIsInSolrSchemaRule.CheckFields` | SolrNet.Tests/MappedPropertiesIsInSolrSchemaRuleTests.cs:67-82 | an error is reported if and only if it is the error of a checked mapping whose field the schema lacks. There are at most as many errors as mappings |
| `MappedPropertiesIsInSolrSchemaRule.Validate` | SolrNet.Tests/MappedPropertiesIsInSolrSchemaRuleTests.cs:89 | reports exactly the errors for the validated type's mappings that are neither `score` nor wildcard and whose field is declared neither statically nor dynamically |
| `MappedPropertiesIsInSolrSchemaRule.CheckFieldsAppend` | SolrNet.Tests/MappedPropertiesIsInSolrSchemaRuleTests.cs:50-54 | checking mappings one list after another gives the errors of the first list followed by those of the second, in mapping order |
| `MappedPropertiesIsInSolrSchemaRule.CheckFieldsSnoc` | SolrNet.Tests/MappedPropertiesIsInSolrSchemaRuleTests.cs:72 | one more mapping adds its one error exactly when it violates, and nothing otherwise |
| `MappedPropertiesIsInSolrSchemaRule.StaticFieldAddsNoError` | SolrNet.Tests/MappedPropertiesIsInSolrSchemaRuleTests.cs:32-46 | a mapping to a statically declared field adds no error |
| `MappedPropertiesIsInSolrSchemaRule.DynamicFieldAddsNoError` | SolrNet.Tests/MappedPropertiesIsInSolrSchemaRuleTests.cs:49-64 | a mapping to a field matched by a dynamic pattern adds no error |
| `MappedPropertiesIsInSolrSchemaRule.SatisfiedMappingKeepsNoErrors` | SolrNet.Tests/MappedPropertiesIsInSolrSchemaRuleTests.cs:50-63 | adding a schema-satisfied mapping to an error-free list keeps it error-free |
| `MappedPropertiesIsInSolrSchemaRule.UndeclaredFieldAddsOneError` | SolrNet.Tests/MappedPropertiesIsInSolrSchemaRuleTests.cs:67-82 | a checked mapping whose field is neither declared nor matched adds exactly one error, naming its property and field |
| `MappedPropertiesIsInSolrSchemaRule.ScoreIsIgnored` | SolrNet.Tests/MappedPropertiesIsInSolrSchemaRuleTests.cs:85-92 | a mapping to `score` adds no error under any schema |
| `MappedPropertiesIsInSolrSchemaRule.MultiMappedIsIgnored` | SolrNet.Tests/MappedPropertiesIsInSolrSchemaRuleTests.cs:95-104 | a mapping to a name containing `*` adds no error under any schema, whatever its dynamic fields |
| `MappedPropertiesIsInSolrSchemaRule.ErrorCount` | SolrNet.Tests/MappedPropertiesIsInSolrSchemaRuleTests.cs:81 | the error count equals the number of positions holding a violating mapping |
| `MappedPropertiesIsInSolrSchemaRule.OtherTypesAreNotChecked` | SolrNet.Tests/MappedPropertiesIsInSolrSchemaRuleTests.cs:44 | mappings of other document types do not change the rule's result for a type |
| `MappedPropertiesIsInSolrSchemaRule.UniqueKeyIsIrrelevant` | SolrNet.Tests/MappedPropertiesIsInSolrSchemaRuleTests.cs:70-81 | the schema's unique key does not affect the rule's result |
| `MappedPropertiesIsInSolrSchemaRuleTests.SolrSchemaBasic` | SolrNet.Tests/MappedPropertiesIsInSolrSchemaRuleTests.cs:40-42 | the fixture schema declares `id` and `name` statically and matches `producer_s` dynamically. It declares `FieldNotSolrSchema` nowhere |
| `MappedPropertiesIsInSolrSchemaRuleTests.NewIdNameMapping` | SolrNet.Tests/MappedPropertiesIsInSolrSchemaRuleTests.cs:33-36 | the shared setup: `ID`→`id` (the unique key), then `Name`→`name` |
| `MappedPropertiesIsInSolrSchemaRuleTests.MappedPropertyForWhichSolrFieldExistsInSchemaShouldNotReturnError` | SolrNet.Tests/MappedPropertiesIsInSolrSchemaRuleTests.cs:32-46 | for every schema declaring `id` and `name`, the validator reports nothing |
| `MappedPropertiesIsInSolrSchemaRuleTests.MappedPropertyForWhichDynamicFieldExistsInSchemaShouldNotReturnError` | SolrNet.Tests/MappedPropertiesIsInSolrSchemaRuleTests.cs:49-64 | if a dynamic pattern also matches `producer_s`, adding `Producer`→`producer_s` still gives no result |
| `MappedPropertiesIsInSolrSchemaRuleTests.MappedPropertyForWhichNoSolrFieldOrDynamicFieldExistsShouldReturnError` | SolrNet.Tests/MappedPropertiesIsInSolrSchemaRuleTests.cs:67-82 | if `FieldNotSolrSchema` is declared nowhere, the validator reports exactly one error, for that property and field |
| `MappedPropertiesIsInSolrSchemaRuleTests.UndeclaredFieldIsTheOnlyError` | SolrNet.Tests/MappedPropertiesIsInSolrSchemaRuleTests.cs:72-81 | of the three mappings, only the undeclared one is reported |
| `MappedPropertiesIsInSolrSchemaRuleTests.IdNameMappingIsClean` | SolrNet.Tests/MappedPropertiesIsInSolrSchemaRuleTests.cs:34-36 | the `ID` and `Name` mappings raise no error when `id` and `name` are declared |
| `MappedPropertiesIsInSolrSchemaRuleTests.MappedPropertiesIsInSolrSchemaRuleIgnoresScore` | SolrNet.Tests/MappedPropertiesIsInSolrSchemaRuleTests.cs:85-92 | the rule alone, against an empty schema, reports nothing for `Score`→`score`. The result is a value, never null |
| `MappedPropertiesIsInSolrSchemaRuleTests.DictionaryFieldsAreIgnored` | SolrNet.Tests/MappedPropertiesIsInSolrSchemaRuleTests.cs:95-104 | `DynamicMapped`→`ma_*` is not reported against a fresh empty schema. The schema given `ma_uaua` is a different object and plays no part |

## Left out

- Parsing schema XML and loading the embedded resource. The rule receives a parsed `Schema` value, and `SolrSchemaBasic` is an assumed fixture.
- Reflection. Properties are `PropertyId(type name, property name)` values, and a mapping belongs to the type it was looked up on.
- Error message text. An error carries only the property and the field name.
- Lazy enumeration and `ToList()`. Results are finite sequences, computed eagerly.
- Null inputs. A null schema or mapping manager, and the loud failure for it, cannot arise with Dafny values.
- `MappingManager.Add` replacing an earlier mapping of the same property. The table is append-only, because the manager's source is not part of this model and the scenarios never re-register a property.
- `MappingManager.SetUniqueKey` rejecting a property that has no mapping. For the same reason, the model records the key unconditionally.
- The validator keeps a reference to the manager. The model passes the manager's table at the moment of the call, which is the same thing in every scenario, since none of them changes the manager after building the validator.
- Other validation rules, such as the unique-key checks, and field-type details such as `solr.StrField`. A field keeps only its type's name.
- Dynamic field patterns with a wildcard in the middle, or with none, match nothing here. Solr schemas do not declare such patterns.
- Setters for the schema's dynamic fields and unique key. Only the parser uses them, and the model builds those parts of a `Schema` value directly.
