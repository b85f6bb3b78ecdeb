/**
 * The field-existence rule: every property mapped on a document type must
 * name a Solr field that the schema declares, statically or through a
 * dynamic field pattern. The relevance pseudo-field `score` and mappings
 * to a wildcard field name are exempt.
 */
module MappedPropertiesIsInSolrSchemaRule {
  import opened Wrappers
  import opened SchemaModel
  import opened MappingModel
  import opened MappingValidator

  /** The computed relevance field, never declared in a schema. */
  const ScoreFieldName: string := "score"

  /** The field name is one the rule never checks: the relevance score. */
  predicate IsIgnoredField(fieldName: string) {
    fieldName == ScoreFieldName
  }

  /** The property is mapped to a whole family of fields (`ma_*`): a dictionary mapping. */
  predicate IsMultiMapped(fieldName: string) {
    '*' in fieldName
  }

  /** The schema declares the field, statically or through a dynamic field pattern. */
  predicate IsDeclared(schema: Schema, fieldName: string) {
    HasStaticField(schema, fieldName) || HasMatchingDynamicField(schema, fieldName)
  }

  /** The mapping is checked and its field is not found in the schema. */
  predicate Violates(schema: Schema, m: FieldMapping) {
    !IsIgnoredField(m.fieldName) && !IsMultiMapped(m.fieldName) && !IsDeclared(schema, m.fieldName)
  }

  /** The error reported for a mapping whose field is not in the schema. */
  function ErrorFor(m: FieldMapping): ValidationResult {
    ValidationError(m.property, m.fieldName)
  }

  /**
   * The errors for a list of mappings, one per violating mapping, in the
   * order of the mappings.
   */
  function CheckFields(schema: Schema, fields: seq<FieldMapping>): (r: seq<ValidationResult>)
    ensures |r| <= |fields|
    ensures forall e :: e in r <==> exists i :: 0 <= i < |fields| && Violates(schema, fields[i]) && e == ErrorFor(fields[i])
  {
    if fields == [] then []
    else (if Violates(schema, fields[0]) then [ErrorFor(fields[0])] else []) + CheckFields(schema, fields[1..])
  }

  /** The rule's `Validate`: the errors for the mappings of `docType`. */
  function Validate(docType: TypeName, schema: Schema, table: seq<FieldMapping>): (r: seq<ValidationResult>)
    ensures forall e :: e in r <==> exists m :: m in table && m.property.declaringType == docType && Violates(schema, m) && e == ErrorFor(m)
  {
    var fields := FieldsOf(table, docType);
    assert forall m :: m in fields <==> exists i :: 0 <= i < |fields| && fields[i] == m;
    CheckFields(schema, fields)
  }

  /** Checking a list of mappings is checking its parts one after the other. */
  lemma {:induction false} CheckFieldsAppend(schema: Schema, a: seq<FieldMapping>, b: seq<FieldMapping>)
    ensures CheckFields(schema, a + b) == CheckFields(schema, a) + CheckFields(schema, b)
  {
    if a == [] {
      assert a + b == b;
    } else {
      assert (a + b)[1..] == a[1..] + b;
      CheckFieldsAppend(schema, a[1..], b);
    }
  }

  /** One more mapping adds one error if it violates, and nothing otherwise. */
  lemma CheckFieldsSnoc(schema: Schema, fields: seq<FieldMapping>, m: FieldMapping)
    ensures CheckFields(schema, fields + [m])
         == CheckFields(schema, fields) + (if Violates(schema, m) then [ErrorFor(m)] else [])
  {
    CheckFieldsAppend(schema, fields, [m]);
    assert [m][1..] == [];
  }

  /** A mapping to a statically declared field adds no error. */
  lemma StaticFieldAddsNoError(schema: Schema, fields: seq<FieldMapping>, m: FieldMapping, i: nat)
    requires i < |schema.solrFields| && schema.solrFields[i].name == m.fieldName
    ensures CheckFields(schema, fields + [m]) == CheckFields(schema, fields)
  {
    CheckFieldsSnoc(schema, fields, m);
  }

  /** A mapping to a field matched by a dynamic field pattern adds no error. */
  lemma DynamicFieldAddsNoError(schema: Schema, fields: seq<FieldMapping>, m: FieldMapping, i: nat)
    requires i < |schema.dynamicFields| && GlobMatches(schema.dynamicFields[i], m.fieldName)
    ensures CheckFields(schema, fields + [m]) == CheckFields(schema, fields)
  {
    CheckFieldsSnoc(schema, fields, m);
  }

  /** Adding a mapping the schema satisfies to an error-free list keeps it error-free. */
  lemma SatisfiedMappingKeepsNoErrors(schema: Schema, fields: seq<FieldMapping>, m: FieldMapping)
    requires CheckFields(schema, fields) == []
    requires IsDeclared(schema, m.fieldName)
    ensures CheckFields(schema, fields + [m]) == []
  {
    CheckFieldsSnoc(schema, fields, m);
  }

  /** A mapping to a field the schema lacks adds exactly one error, naming that property and field. */
  lemma UndeclaredFieldAddsOneError(schema: Schema, fields: seq<FieldMapping>, m: FieldMapping)
    requires !IsIgnoredField(m.fieldName) && !IsMultiMapped(m.fieldName)
    requires !HasStaticField(schema, m.fieldName) && !HasMatchingDynamicField(schema, m.fieldName)
    ensures CheckFields(schema, fields + [m]) == CheckFields(schema, fields) + [ValidationError(m.property, m.fieldName)]
  {
    CheckFieldsSnoc(schema, fields, m);
  }

  /** A property mapped to `score` is never reported, whatever the schema. */
  lemma ScoreIsIgnored(schema: Schema, fields: seq<FieldMapping>, property: PropertyId)
    ensures CheckFields(schema, fields + [FieldMapping(property, "score")]) == CheckFields(schema, fields)
  {
    CheckFieldsSnoc(schema, fields, FieldMapping(property, "score"));
  }

  /**
   * A property mapped to a wildcard field name is never reported, whatever
   * the schema declares, matching fields included.
   */
  lemma MultiMappedIsIgnored(schema: Schema, fields: seq<FieldMapping>, property: PropertyId, fieldName: string)
    requires '*' in fieldName
    ensures CheckFields(schema, fields + [FieldMapping(property, fieldName)]) == CheckFields(schema, fields)
  {
    CheckFieldsSnoc(schema, fields, FieldMapping(property, fieldName));
  }

  /** The positions of the mappings that violate the schema. */
  function ViolatingPositions(schema: Schema, fields: seq<FieldMapping>): set<nat> {
    set i: nat | i < |fields| && Violates(schema, fields[i])
  }

  /** There is one error per violating mapping: the error count is the number of violating positions. */
  lemma {:induction false} ErrorCount(schema: Schema, fields: seq<FieldMapping>)
    ensures |CheckFields(schema, fields)| == |ViolatingPositions(schema, fields)|
  {
    if fields == [] {
      assert ViolatingPositions(schema, fields) == {};
    } else {
      var init := fields[..|fields| - 1];
      var last := fields[|fields| - 1];
      assert fields == init + [last];
      ErrorCount(schema, init);
      CheckFieldsSnoc(schema, init, last);
      var before := ViolatingPositions(schema, init);
      var after := ViolatingPositions(schema, fields);
      assert |init| !in before;
      if Violates(schema, last) {
        assert after == before + {|init|};
      } else {
        assert after == before;
      }
    }
  }

  /** The rule only looks at the mappings of the validated type. */
  lemma OtherTypesAreNotChecked(docType: TypeName, schema: Schema, table: seq<FieldMapping>, m: FieldMapping)
    requires m.property.declaringType != docType
    ensures Validate(docType, schema, table + [m]) == Validate(docType, schema, table)
  {
    FieldsOfAddOther(table, m, docType);
  }

  /** The schema's unique key plays no part in this rule. */
  lemma {:induction false} UniqueKeyIsIrrelevant(schema: Schema, fields: seq<FieldMapping>, key: Option<string>)
    ensures CheckFields(schema.(uniqueKey := key), fields) == CheckFields(schema, fields)
  {
    if fields != [] {
      UniqueKeyIsIrrelevant(schema, fields[1..], key);
    }
  }
}
