/**
 * The in-memory Solr schema: statically declared fields, dynamic field
 * patterns and the optional unique key, as a schema parser produces them.
 */
module SchemaModel {
  import opened Wrappers

  /** One statically declared field: its exact name and the name of its field type. */
  datatype SolrField = SolrField(name: string, fieldType: string)

  /**
   * A schema snapshot. `dynamicFields` holds the name patterns of the
   * dynamic fields, each with one wildcard `*` at its start or its end.
   */
  datatype Schema = Schema(solrFields: seq<SolrField>, dynamicFields: seq<string>, uniqueKey: Option<string>)

  /** The schema `new SolrSchema()` starts out as. */
  const EmptySchema: Schema := Schema([], [], None)

  /** `s` is a suffix of `t`. */
  predicate EndsWith(t: string, s: string) {
    |s| <= |t| && t[|t| - |s|..] == s
  }

  /**
   * Solr's single-wildcard dynamic field matching: `*Y` matches names that
   * end with `Y`, `X*` names that start with `X`; the comparison is exact
   * (case-sensitive). A pattern with no wildcard at either end matches nothing.
   */
  predicate GlobMatches(pattern: string, name: string) {
    if |pattern| > 0 && pattern[0] == '*' then EndsWith(name, pattern[1..])
    else if |pattern| > 0 && pattern[|pattern| - 1] == '*' then pattern[..|pattern| - 1] <= name
    else false
  }

  /** Some statically declared field of `schema` is called `name`. */
  predicate HasStaticField(schema: Schema, name: string) {
    exists i :: 0 <= i < |schema.solrFields| && schema.solrFields[i].name == name
  }

  /** Some dynamic field pattern of `schema` matches `name`. */
  predicate HasMatchingDynamicField(schema: Schema, name: string) {
    exists i :: 0 <= i < |schema.dynamicFields| && GlobMatches(schema.dynamicFields[i], name)
  }

  /** A prefix pattern `X*` matches every name that starts with `X`. */
  lemma PrefixPatternMatches(x: string, rest: string)
    requires '*' !in x
    ensures GlobMatches(x + "*", x + rest)
  {
  }

  /** A prefix pattern `X*` matches only names that start with `X`. */
  lemma PrefixPatternMatchesOnlyPrefixed(x: string, name: string)
    requires '*' !in x
    requires GlobMatches(x + "*", name)
    ensures |x| <= |name| && name == x + name[|x|..]
  {
  }

  /** A suffix pattern `*Y` matches every name that ends with `Y`. */
  lemma SuffixPatternMatches(pre: string, y: string)
    ensures GlobMatches("*" + y, pre + y)
  {
  }

  /** A suffix pattern `*Y` matches only names that end with `Y`. */
  lemma SuffixPatternMatchesOnlySuffixed(y: string, name: string)
    requires GlobMatches("*" + y, name)
    ensures |y| <= |name| && name == name[..|name| - |y|] + y
  {
  }

  /** A pattern without a wildcard at either end matches no name at all. */
  lemma PatternWithoutWildcardMatchesNothing(pattern: string, name: string)
    requires '*' !in pattern
    ensures !GlobMatches(pattern, name)
  {
  }

  /**
   * The mutable schema object. Tests and the schema parser fill its lists
   * step by step; the validation rule reads a `Snapshot()` of it.
   */
  class SolrSchema {
    var solrFields: seq<SolrField>
    var dynamicFields: seq<string>
    var uniqueKey: Option<string>

    /** The current contents as a schema value. */
    function Snapshot(): Schema
      reads this
    {
      Schema(solrFields, dynamicFields, uniqueKey)
    }

    /** A new schema declares no field, no dynamic field and no unique key. */
    constructor ()
      ensures Snapshot() == EmptySchema
    {
      solrFields := [];
      dynamicFields := [];
      uniqueKey := None;
    }

    /** Appends a statically declared field (`SolrFields.Add`). */
    method AddSolrField(field: SolrField)
      modifies this
      ensures solrFields == old(solrFields) + [field]
      ensures dynamicFields == old(dynamicFields) && uniqueKey == old(uniqueKey)
      ensures HasStaticField(Snapshot(), field.name)
    {
      solrFields := solrFields + [field];
      assert solrFields[|solrFields| - 1] == field;
    }
  }
}
