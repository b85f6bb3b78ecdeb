/**
 * The mapping validator: runs every registered rule for a document type
 * against a schema and reports all their results together.
 */
module MappingValidator {
  import opened SchemaModel
  import opened MappingModel

  /** A reported mapping problem: the property and the Solr field name it is mapped to. */
  datatype ValidationResult = ValidationError(property: PropertyId, fieldName: string)

  /**
   * A validation rule: given a document type, a schema and the mapping
   * table, the results it reports, in the order it reports them.
   */
  type Rule = (TypeName, Schema, seq<FieldMapping>) -> seq<ValidationResult>

  /**
   * The results of all `rules`, in registration order and, within one rule,
   * in that rule's order. Every rule runs; nothing stops at the first problem.
   */
  function EnumerateValidationResults(rules: seq<Rule>, docType: TypeName, schema: Schema, table: seq<FieldMapping>): (r: seq<ValidationResult>)
    ensures forall e :: e in r <==> exists i :: 0 <= i < |rules| && e in rules[i](docType, schema, table)
    ensures forall i :: 0 <= i < |rules| ==> |rules[i](docType, schema, table)| <= |r|
  {
    if rules == [] then []
    else rules[0](docType, schema, table) + EnumerateValidationResults(rules[1..], docType, schema, table)
  }

  /** With a single registered rule the validator reports exactly that rule's results. */
  lemma SingleRule(rule: Rule, docType: TypeName, schema: Schema, table: seq<FieldMapping>)
    ensures EnumerateValidationResults([rule], docType, schema, table) == rule(docType, schema, table)
  {
  }

  /** Registering more rules appends their results after those of the earlier ones. */
  lemma {:induction false} RegistrationOrder(first: seq<Rule>, second: seq<Rule>, docType: TypeName, schema: Schema, table: seq<FieldMapping>)
    ensures EnumerateValidationResults(first + second, docType, schema, table)
         == EnumerateValidationResults(first, docType, schema, table) + EnumerateValidationResults(second, docType, schema, table)
  {
    if first == [] {
      assert first + second == second;
    } else {
      assert (first + second)[1..] == first[1..] + second;
      RegistrationOrder(first[1..], second, docType, schema, table);
    }
  }

  /** The validator reports nothing exactly when no registered rule reports anything. */
  lemma NothingReportedIffEveryRuleClean(rules: seq<Rule>, docType: TypeName, schema: Schema, table: seq<FieldMapping>)
    ensures EnumerateValidationResults(rules, docType, schema, table) == []
        <==> forall i :: 0 <= i < |rules| ==> rules[i](docType, schema, table) == []
  {
  }
}
