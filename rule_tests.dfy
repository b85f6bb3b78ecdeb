/**
 * The five scenarios that pin down the rule and the validator, replayed on
 * the model: the mapping manager is built step by step, then validated
 * through the validator (one registered rule) or through the rule directly.
 */
module MappedPropertiesIsInSolrSchemaRuleTests {
  import opened Wrappers
  import opened SchemaModel
  import opened MappingModel
  import opened MappingValidator
  import FieldRule = MappedPropertiesIsInSolrSchemaRule

  /** The document type every scenario maps. */
  const DocType: TypeName := "SchemaMappingTestDocument"

  /** A property of the test document type. */
  function Property(name: string): PropertyId {
    PropertyId(DocType, name)
  }

  /**
   * The basic test schema: static fields `id` and `name`, the dynamic
   * field pattern `*_s`, and `id` as unique key.
   */
  function SolrSchemaBasic(): (s: Schema)
    ensures HasStaticField(s, "id") && HasStaticField(s, "name")
    ensures HasMatchingDynamicField(s, "producer_s")
    ensures !HasStaticField(s, "FieldNotSolrSchema") && !HasMatchingDynamicField(s, "FieldNotSolrSchema")
  {
    var s := Schema([SolrField("id", "string"), SolrField("name", "text")], ["*_s"], Some("id"));
    assert s.solrFields[0].name == "id" && s.solrFields[1].name == "name";
    SuffixPatternMatches("producer", "_s");
    assert "*" + "_s" == "*_s" && "producer" + "_s" == "producer_s";
    assert GlobMatches(s.dynamicFields[0], "producer_s");
    assert !EndsWith("FieldNotSolrSchema", "_s");
    s
  }

  /** Maps `ID` to `id`, designates it the unique key, and maps `Name` to `name`. */
  method NewIdNameMapping() returns (mgr: MappingManager)
    ensures mgr.fields == [FieldMapping(Property("ID"), "id"), FieldMapping(Property("Name"), "name")]
    ensures mgr.uniqueKeys == map[DocType := Property("ID")]
    ensures fresh(mgr)
  {
    mgr := new MappingManager();
    mgr.Add(Property("ID"), "id");
    mgr.SetUniqueKey(Property("ID"));
    mgr.Add(Property("Name"), "name");
  }

  /** Both mapped fields are declared statically: the validator reports nothing. */
  method MappedPropertyForWhichSolrFieldExistsInSchemaShouldNotReturnError(schema: Schema) returns (results: seq<ValidationResult>)
    requires HasStaticField(schema, "id") && HasStaticField(schema, "name")
    ensures results == []
  {
    var mgr := NewIdNameMapping();
    results := EnumerateValidationResults([FieldRule.Validate], DocType, schema, mgr.fields);
    SingleRule(FieldRule.Validate, DocType, schema, mgr.fields);
    FieldsOfSingleType(mgr.fields, DocType);
    IdNameMappingIsClean(schema);
  }

  /** `producer_s` is declared only through a dynamic field: still nothing is reported. */
  method MappedPropertyForWhichDynamicFieldExistsInSchemaShouldNotReturnError(schema: Schema) returns (results: seq<ValidationResult>)
    requires HasStaticField(schema, "id") && HasStaticField(schema, "name")
    requires HasMatchingDynamicField(schema, "producer_s")
    ensures results == []
  {
    var mgr := NewIdNameMapping();
    var idName := mgr.fields;
    var producer := FieldMapping(Property("Producer"), "producer_s");
    mgr.Add(producer.property, producer.fieldName);
    results := EnumerateValidationResults([FieldRule.Validate], DocType, schema, mgr.fields);
    SingleRule(FieldRule.Validate, DocType, schema, mgr.fields);
    FieldsOfSingleType(mgr.fields, DocType);
    IdNameMappingIsClean(schema);
    FieldRule.SatisfiedMappingKeepsNoErrors(schema, idName, producer);
  }

  /** `FieldNotSolrSchema` is declared nowhere: exactly one error, for that property. */
  method MappedPropertyForWhichNoSolrFieldOrDynamicFieldExistsShouldReturnError(schema: Schema) returns (results: seq<ValidationResult>)
    requires HasStaticField(schema, "id") && HasStaticField(schema, "name")
    requires !HasStaticField(schema, "FieldNotSolrSchema") && !HasMatchingDynamicField(schema, "FieldNotSolrSchema")
    ensures |results| == 1
    ensures results == [ValidationError(Property("FieldNotSolrSchema"), "FieldNotSolrSchema")]
  {
    var mgr := NewIdNameMapping();
    mgr.Add(Property("FieldNotSolrSchema"), "FieldNotSolrSchema");
    results := EnumerateValidationResults([FieldRule.Validate], DocType, schema, mgr.fields);
    SingleRule(FieldRule.Validate, DocType, schema, mgr.fields);
    UndeclaredFieldIsTheOnlyError(schema);
  }

  /** Against such a schema, only the `FieldNotSolrSchema` mapping is reported. */
  lemma UndeclaredFieldIsTheOnlyError(schema: Schema)
    requires HasStaticField(schema, "id") && HasStaticField(schema, "name")
    requires !HasStaticField(schema, "FieldNotSolrSchema") && !HasMatchingDynamicField(schema, "FieldNotSolrSchema")
    ensures FieldRule.Validate(DocType, schema, [FieldMapping(Property("ID"), "id"), FieldMapping(Property("Name"), "name"),
                                            FieldMapping(Property("FieldNotSolrSchema"), "FieldNotSolrSchema")])
         == [ValidationError(Property("FieldNotSolrSchema"), "FieldNotSolrSchema")]
  {
    var idName := [FieldMapping(Property("ID"), "id"), FieldMapping(Property("Name"), "name")];
    var missing := FieldMapping(Property("FieldNotSolrSchema"), "FieldNotSolrSchema");
    var table := idName + [missing];
    FieldsOfSingleType(table, DocType);
    IdNameMappingIsClean(schema);
    FieldNotSolrSchemaIsChecked();
    FieldRule.UndeclaredFieldAddsOneError(schema, idName, missing);
  }

  /** `FieldNotSolrSchema` is neither the score field nor a wildcard name, so the rule checks it. */
  lemma FieldNotSolrSchemaIsChecked()
    ensures !FieldRule.IsIgnoredField("FieldNotSolrSchema") && !FieldRule.IsMultiMapped("FieldNotSolrSchema")
  {
  }

  /** The `ID` and `Name` mappings raise no error against a schema declaring `id` and `name`. */
  lemma IdNameMappingIsClean(schema: Schema)
    requires HasStaticField(schema, "id") && HasStaticField(schema, "name")
    ensures FieldRule.CheckFields(schema, [FieldMapping(Property("ID"), "id"), FieldMapping(Property("Name"), "name")]) == []
  {
  }

  /** `score` is exempt even against a schema that declares nothing. */
  method MappedPropertiesIsInSolrSchemaRuleIgnoresScore() returns (results: seq<ValidationResult>)
    ensures results == []
  {
    var mapper := new MappingManager();
    mapper.Add(Property("Score"), "score");
    var schema := new SolrSchema();
    results := FieldRule.Validate(DocType, schema.Snapshot(), mapper.fields);
  }

  /**
   * A property mapped to `ma_*` is exempt. The schema that gains the field
   * `ma_uaua` is not the one validated against: a fresh, empty one is.
   */
  method DictionaryFieldsAreIgnored() returns (results: seq<ValidationResult>)
    ensures results == []
  {
    var mapper := new MappingManager();
    mapper.Add(Property("DynamicMapped"), "ma_*");
    var schema := new SolrSchema();
    schema.AddSolrField(SolrField("ma_uaua", "string"));
    var emptySchema := new SolrSchema();
    results := FieldRule.Validate(DocType, emptySchema.Snapshot(), mapper.fields);
    assert '*' in "ma_*";
  }
}
