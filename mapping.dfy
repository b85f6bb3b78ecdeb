/**
 * The mapping table: which property of which document type is stored in
 * which Solr field, built up one `Add` at a time.
 */
module MappingModel {
  /** The name of a document type. */
  type TypeName = string

  /** A property, identified by the type it was looked up on and its name. */
  datatype PropertyId = PropertyId(declaringType: TypeName, name: string)

  /** One registered mapping of a property to a Solr field name. */
  datatype FieldMapping = FieldMapping(property: PropertyId, fieldName: string)

  /** The mappings registered for document type `t`, in registration order. */
  function FieldsOf(table: seq<FieldMapping>, t: TypeName): (r: seq<FieldMapping>)
    ensures |r| <= |table|
    ensures forall m :: m in r <==> m in table && m.property.declaringType == t
  {
    if table == [] then []
    else (if table[0].property.declaringType == t then [table[0]] else []) + FieldsOf(table[1..], t)
  }

  /** Selecting a type's mappings commutes with appending to the table. */
  lemma {:induction false} FieldsOfAppend(a: seq<FieldMapping>, b: seq<FieldMapping>, t: TypeName)
    ensures FieldsOf(a + b, t) == FieldsOf(a, t) + FieldsOf(b, t)
  {
    if a == [] {
      assert a + b == b;
    } else {
      assert (a + b)[1..] == a[1..] + b;
      FieldsOfAppend(a[1..], b, t);
    }
  }

  /** A table holding only mappings of type `t` is all of `t`'s mappings. */
  lemma {:induction false} FieldsOfSingleType(table: seq<FieldMapping>, t: TypeName)
    requires forall i :: 0 <= i < |table| ==> table[i].property.declaringType == t
    ensures FieldsOf(table, t) == table
  {
    if table != [] {
      FieldsOfSingleType(table[1..], t);
    }
  }

  /** Registering a mapping for type `t` appends exactly it to `t`'s mappings. */
  lemma FieldsOfAddOwn(table: seq<FieldMapping>, m: FieldMapping)
    ensures FieldsOf(table + [m], m.property.declaringType) == FieldsOf(table, m.property.declaringType) + [m]
  {
    FieldsOfAppend(table, [m], m.property.declaringType);
  }

  /** Registering a mapping for another type leaves `t`'s mappings as they were. */
  lemma FieldsOfAddOther(table: seq<FieldMapping>, m: FieldMapping, t: TypeName)
    requires m.property.declaringType != t
    ensures FieldsOf(table + [m], t) == FieldsOf(table, t)
  {
    FieldsOfAppend(table, [m], t);
  }

  /**
   * The mapping manager: an append-only table of mappings in registration
   * order, and the unique-key property designated per document type.
   */
  class MappingManager {
    var fields: seq<FieldMapping>
    var uniqueKeys: map<TypeName, PropertyId>

    constructor ()
      ensures fields == [] && uniqueKeys == map[]
    {
      fields := [];
      uniqueKeys := map[];
    }

    /** Maps `property` to the Solr field `fieldName`, after every earlier mapping. */
    method Add(property: PropertyId, fieldName: string)
      modifies this
      ensures fields == old(fields) + [FieldMapping(property, fieldName)]
      ensures uniqueKeys == old(uniqueKeys)
      ensures FieldsOf(fields, property.declaringType) == FieldsOf(old(fields), property.declaringType) + [FieldMapping(property, fieldName)]
    {
      fields := fields + [FieldMapping(property, fieldName)];
      FieldsOfAddOwn(old(fields), FieldMapping(property, fieldName));
    }

    /** Designates `property` as the unique key of its type; the mappings do not change. */
    method SetUniqueKey(property: PropertyId)
      modifies this
      ensures uniqueKeys == old(uniqueKeys)[property.declaringType := property]
      ensures fields == old(fields)
    {
      uniqueKeys := uniqueKeys[property.declaringType := property];
    }
  }
}
