/**
  BaseModel: the Objection model every table extends. It names the id
  column, publishes a JSON schema, and stamps `createdAt` and `updatedAt`
  in its insert and update hooks. A clock reading is passed in as the ISO
  text `new Date().toISOString()` would give.
 */
module BaseModels {
  import opened Js

  /** One property of a JSON schema: its type and, for strings, an optional format. */
  datatype Property = Property(kind: string, format: Option<string>)

  /** An object JSON schema: the required keys and the typed properties. */
  datatype Schema = Schema(kind: string, required: seq<string>, properties: map<string, Property>)

  /** A value has the schema type: 'integer' a whole number, 'string' a string. */
  predicate HasType(p: Property, v: JsValue)
  {
    (p.kind == "integer" ==> v.Num? && v.n.Int?) && (p.kind == "string" ==> v.Str?)
  }

  /** A record satisfies a schema: every required key is present and every typed key has its type. */
  predicate Conforms(schema: Schema, record: map<string, JsValue>)
  {
    && (forall i :: 0 <= i < |schema.required| ==> schema.required[i] in record)
    && (forall k :: k in record && k in schema.properties ==> HasType(schema.properties[k], record[k]))
  }

  class BaseModel {
    // The `!` declarations in the source are TypeScript assertions only: an
    // instance built for `insert` has no id until the database assigns one,
    // and no timestamps until `$beforeInsert` runs.
    var id: Option<int>
    var createdAt: Option<string>
    var updatedAt: Option<string>

    /** An instance with the given columns, each possibly absent. */
    constructor(id: Option<int>, createdAt: Option<string>, updatedAt: Option<string>)
      ensures this.id == id && this.createdAt == createdAt && this.updatedAt == updatedAt
    {
      this.id := id;
      this.createdAt := createdAt;
      this.updatedAt := updatedAt;
    }

    /** `idColumn`: 'id', a required integer of the schema. */
    static function IdColumn(): (column: string)
      ensures column in JsonSchema().required
      ensures column in JsonSchema().properties && JsonSchema().properties[column].kind == "integer"
    {
      "id"
    }

    /**
      `jsonSchema`: an object that requires `id`, typed integer, with the
      two timestamps as date-time strings.
     */
    static function JsonSchema(): (s: Schema)
      ensures s.kind == "object" && s.required == ["id"]
      ensures s.properties.Keys == {"id", "createdAt", "updatedAt"}
      ensures forall k :: k in s.properties && k != "id" ==> s.properties[k] == Property("string", Some("date-time"))
    {
      Schema("object", ["id"], map[
        "id" := Property("integer", None),
        "createdAt" := Property("string", Some("date-time")),
        "updatedAt" := Property("string", Some("date-time"))])
    }

    /** The instance's JSON: one key per column that is set. */
    function ToRecord(): (r: map<string, JsValue>)
      reads this
      ensures r.Keys <= JsonSchema().properties.Keys
      ensures IdColumn() in r <==> id.Some?
      ensures id.Some? ==> r[IdColumn()] == Num(Int(id.value))
      ensures "createdAt" in r <==> createdAt.Some?
      ensures createdAt.Some? ==> r["createdAt"] == Str(createdAt.value)
      ensures "updatedAt" in r <==> updatedAt.Some?
      ensures updatedAt.Some? ==> r["updatedAt"] == Str(updatedAt.value)
    {
      var withId: map<string, JsValue> := if id.Some? then map["id" := Num(Int(id.value))] else map[];
      var withCreated := if createdAt.Some? then withId["createdAt" := Str(createdAt.value)] else withId;
      if updatedAt.Some? then withCreated["updatedAt" := Str(updatedAt.value)] else withCreated
    }

    /**
      `$beforeInsert`: both timestamps set, each from its own clock reading
      (the two readings may differ); the id is untouched.
     */
    method BeforeInsert(createdClock: string, updatedClock: string)
      modifies this
      ensures createdAt == Some(createdClock) && updatedAt == Some(updatedClock)
      ensures id == old(id)
    {
      createdAt := Some(createdClock);
      updatedAt := Some(updatedClock);
    }

    /** `$beforeUpdate`: only `updatedAt` changes. */
    method BeforeUpdate(clock: string)
      modifies this
      ensures updatedAt == Some(clock)
      ensures createdAt == old(createdAt) && id == old(id)
    {
      updatedAt := Some(clock);
    }
  }

  /**
    As written, an instance satisfies the model's schema exactly when it has
    an id: every column that is set has its type, but `required: ['id']`
    rejects an instance whose id the database has yet to assign.
   */
  lemma RecordConforms(m: BaseModel)
    ensures Conforms(BaseModel.JsonSchema(), m.ToRecord()) <==> m.id.Some?
  {
    var s, r := BaseModel.JsonSchema(), m.ToRecord();
    TypedColumns(m);
    assert s.required[0] == "id";
  }

  /** Every column of an instance that is set has the type its schema property names. */
  lemma TypedColumns(m: BaseModel)
    ensures var s, r := BaseModel.JsonSchema(), m.ToRecord();
      forall k :: k in r && k in s.properties ==> HasType(s.properties[k], r[k])
  {
    var s, r := BaseModel.JsonSchema(), m.ToRecord();
    forall k | k in r && k in s.properties
      ensures HasType(s.properties[k], r[k])
    {
      assert k == "id" || k == "createdAt" || k == "updatedAt";
    }
  }

  /** The schema an insert can satisfy: the model's, with no required key. */
  function InsertSchema(): (s: Schema)
    ensures s.required == []
    ensures s.kind == BaseModel.JsonSchema().kind && s.properties == BaseModel.JsonSchema().properties
  {
    BaseModel.JsonSchema().(required := [])
  }

  /** Corrected: every instance, with or without an id, satisfies the insert schema. */
  lemma InsertSchemaAcceptsEveryInstance(m: BaseModel)
    ensures Conforms(InsertSchema(), m.ToRecord())
  {
    TypedColumns(m);
  }
}
