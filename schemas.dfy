/**
  The argument schemas declared with zod: each is an object schema whose
  properties are required or optional and carry a type, numeric bounds or an
  enumeration. `Accepts` is the parse-succeeds predicate of such a schema
  over a JSON value.
*/
module Schemas {
  import opened Wrappers
  import opened Json

  /** A refinement on `z.number()`: `.min(m)`, `.max(m)` (both inclusive) and `.positive()`. */
  datatype NumberCheck = AtLeast(min: real) | AtMost(max: real) | Positive

  /** The zod type of one property. */
  datatype Kind =
    | KString
    | KNumber(checks: seq<NumberCheck>)
    | KBoolean
    | KEnum(options: seq<string>)
    | KArray(element: Kind)

  datatype Property = Property(name: string, kind: Kind, optional: bool)

  /** `z.object({...})`: unknown keys are allowed (and stripped from the parsed value). */
  datatype ObjectSchema = ObjectSchema(properties: seq<Property>)

  predicate CheckHolds(c: NumberCheck, n: real) {
    match c
    case AtLeast(m) => n >= m
    case AtMost(m) => n <= m
    case Positive => n > 0.0
  }

  predicate KindAccepts(k: Kind, v: Json)
    decreases k
  {
    match k
    case KString => v.JStr?
    case KNumber(cs) => v.JNum? && forall i :: 0 <= i < |cs| ==> CheckHolds(cs[i], v.n)
    case KBoolean => v.JBool?
    case KEnum(os) => v.JStr? && v.s in os
    case KArray(e) => v.JArr? && forall i :: 0 <= i < |v.items| ==> KindAccepts(e, v.items[i])
  }

  /** An absent property satisfies only an optional one; a present one must have the declared kind. */
  predicate PropertyAccepts(p: Property, fields: seq<Field>) {
    match Get(fields, p.name)
    case None => p.optional
    case Some(x) => KindAccepts(p.kind, x)
  }

  predicate Accepts(schema: ObjectSchema, v: Json) {
    v.JObj? && forall i :: 0 <= i < |schema.properties| ==> PropertyAccepts(schema.properties[i], v.fields)
  }

  // ---------------------------------------------------------------------------
  // the five schemas

  const LinearTicketSchema := ObjectSchema([
    Property("title", KString, false),
    Property("description", KString, true),
    Property("teamId", KString, true),
    Property("priority", KNumber([AtLeast(0.0), AtMost(4.0)]), true),
    Property("labels", KArray(KString), true),
    Property("assigneeId", KString, true)])

  const SupabaseQuerySchema := ObjectSchema([
    Property("tableName", KString, false),
    Property("query", KString, true),
    Property("limit", KNumber([Positive]), true),
    Property("offset", KNumber([AtLeast(0.0)]), true)])

  const VercelProjectSchema := ObjectSchema([
    Property("projectId", KString, true),
    Property("teamId", KString, true),
    Property("limit", KNumber([Positive]), true)])

  const ScaffoldingSchema := ObjectSchema([
    Property("projectName", KString, false),
    Property("projectType", KEnum(["nextjs", "vite"]), false),
    Property("template", KString, true),
    Property("typescript", KBoolean, true),
    Property("directory", KString, true)])

  const GeneratorSchema := ObjectSchema([
    Property("type", KEnum(["prd", "cursor-rules"]), false),
    Property("context", KString, false),
    Property("prompt", KString, false),
    Property("format", KString, true)])

  // ---------------------------------------------------------------------------
  // what each schema demands, written out field by field

  predicate Required(fields: seq<Field>, k: string, ok: Json -> bool) {
    Get(fields, k).Some? && ok(Get(fields, k).value)
  }

  predicate Optional(fields: seq<Field>, k: string, ok: Json -> bool) {
    Get(fields, k).None? || ok(Get(fields, k).value)
  }

  predicate IsString(v: Json) { v.JStr? }

  predicate IsStringList(v: Json) {
    v.JArr? && forall i :: 0 <= i < |v.items| ==> v.items[i].JStr?
  }

  predicate LinearTicketShape(v: Json) {
    && v.JObj?
    && Required(v.fields, "title", IsString)
    && Optional(v.fields, "description", IsString)
    && Optional(v.fields, "teamId", IsString)
    && Optional(v.fields, "priority", (x: Json) => x.JNum? && 0.0 <= x.n <= 4.0)
    && Optional(v.fields, "labels", IsStringList)
    && Optional(v.fields, "assigneeId", IsString)
  }

  predicate SupabaseQueryShape(v: Json) {
    && v.JObj?
    && Required(v.fields, "tableName", IsString)
    && Optional(v.fields, "query", IsString)
    && Optional(v.fields, "limit", (x: Json) => x.JNum? && x.n > 0.0)
    && Optional(v.fields, "offset", (x: Json) => x.JNum? && x.n >= 0.0)
  }

  predicate VercelProjectShape(v: Json) {
    && v.JObj?
    && Optional(v.fields, "projectId", IsString)
    && Optional(v.fields, "teamId", IsString)
    && Optional(v.fields, "limit", (x: Json) => x.JNum? && x.n > 0.0)
  }

  predicate ScaffoldingShape(v: Json) {
    && v.JObj?
    && Required(v.fields, "projectName", IsString)
    && Required(v.fields, "projectType", (x: Json) => x == JStr("nextjs") || x == JStr("vite"))
    && Optional(v.fields, "template", IsString)
    && Optional(v.fields, "typescript", (x: Json) => x.JBool?)
    && Optional(v.fields, "directory", IsString)
  }

  predicate GeneratorShape(v: Json) {
    && v.JObj?
    && Required(v.fields, "type", (x: Json) => x == JStr("prd") || x == JStr("cursor-rules"))
    && Required(v.fields, "context", IsString)
    && Required(v.fields, "prompt", IsString)
    && Optional(v.fields, "format", IsString)
  }

  // ---------------------------------------------------------------------------
  // properties

  lemma OneCheck(c: NumberCheck, x: Json)
    ensures KindAccepts(KNumber([c]), x) <==> x.JNum? && CheckHolds(c, x.n)
  {
    if x.JNum? && CheckHolds(c, x.n) {
      assert forall i :: 0 <= i < 1 ==> CheckHolds([c][i], x.n);
    }
    if KindAccepts(KNumber([c]), x) {
      assert CheckHolds([c][0], x.n);
    }
  }

  lemma TwoChecks(c: NumberCheck, d: NumberCheck, x: Json)
    ensures KindAccepts(KNumber([c, d]), x) <==> x.JNum? && CheckHolds(c, x.n) && CheckHolds(d, x.n)
  {
    if KindAccepts(KNumber([c, d]), x) {
      assert CheckHolds([c, d][0], x.n) && CheckHolds([c, d][1], x.n);
    }
  }

  /** The second of two distinct keys is found past the first. */
  lemma GetSecond(a: Field, b: Field)
    requires a.key != b.key
    ensures Get([a, b], b.key) == Some(b.value)
  {
    assert [a, b][1..] == [b];
  }

  /** What a declared property demands of the field of its name. */
  predicate Demands(p: Property, fields: seq<Field>, ok: Json -> bool) {
    if p.optional then Optional(fields, p.name, ok) else Required(fields, p.name, ok)
  }

  lemma StringProperty(p: Property, fields: seq<Field>)
    requires p.kind == KString
    ensures PropertyAccepts(p, fields) <==> Demands(p, fields, IsString)
  {
  }

  lemma BooleanProperty(p: Property, fields: seq<Field>)
    requires p.kind == KBoolean
    ensures PropertyAccepts(p, fields) <==> Demands(p, fields, (x: Json) => x.JBool?)
  {
  }

  lemma StringListProperty(p: Property, fields: seq<Field>)
    requires p.kind == KArray(KString)
    ensures PropertyAccepts(p, fields) <==> Demands(p, fields, IsStringList)
  {
  }

  lemma OneCheckProperty(p: Property, c: NumberCheck, fields: seq<Field>)
    requires p.kind == KNumber([c])
    ensures PropertyAccepts(p, fields) <==> Demands(p, fields, (x: Json) => x.JNum? && CheckHolds(c, x.n))
  {
    if Get(fields, p.name).Some? {
      OneCheck(c, Get(fields, p.name).value);
    }
  }

  lemma BoundsProperty(p: Property, lo: real, hi: real, fields: seq<Field>)
    requires p.kind == KNumber([AtLeast(lo), AtMost(hi)])
    ensures PropertyAccepts(p, fields) <==> Demands(p, fields, (x: Json) => x.JNum? && lo <= x.n <= hi)
  {
    if Get(fields, p.name).Some? {
      TwoChecks(AtLeast(lo), AtMost(hi), Get(fields, p.name).value);
    }
  }

  lemma PairEnumProperty(p: Property, a: string, b: string, fields: seq<Field>)
    requires p.kind == KEnum([a, b])
    ensures PropertyAccepts(p, fields) <==> Demands(p, fields, (x: Json) => x == JStr(a) || x == JStr(b))
  {
  }

  /** `LinearTicketSchema` accepts exactly the values of the intended shape. */
  lemma LinearTicketAccepts(v: Json)
    ensures Accepts(LinearTicketSchema, v) <==> LinearTicketShape(v)
  {
    var ps := LinearTicketSchema.properties;
    if v.JObj? {
      StringProperty(ps[0], v.fields);
      StringProperty(ps[1], v.fields);
      StringProperty(ps[2], v.fields);
      BoundsProperty(ps[3], 0.0, 4.0, v.fields);
      StringListProperty(ps[4], v.fields);
      StringProperty(ps[5], v.fields);
    }
  }

  lemma SupabaseQueryAccepts(v: Json)
    ensures Accepts(SupabaseQuerySchema, v) <==> SupabaseQueryShape(v)
  {
    var ps := SupabaseQuerySchema.properties;
    if v.JObj? {
      StringProperty(ps[0], v.fields);
      StringProperty(ps[1], v.fields);
      OneCheckProperty(ps[2], Positive, v.fields);
      OneCheckProperty(ps[3], AtLeast(0.0), v.fields);
    }
  }

  lemma VercelProjectAccepts(v: Json)
    ensures Accepts(VercelProjectSchema, v) <==> VercelProjectShape(v)
  {
    var ps := VercelProjectSchema.properties;
    if v.JObj? {
      StringProperty(ps[0], v.fields);
      StringProperty(ps[1], v.fields);
      OneCheckProperty(ps[2], Positive, v.fields);
    }
  }

  lemma ScaffoldingAccepts(v: Json)
    ensures Accepts(ScaffoldingSchema, v) <==> ScaffoldingShape(v)
  {
    var ps := ScaffoldingSchema.properties;
    if v.JObj? {
      StringProperty(ps[0], v.fields);
      PairEnumProperty(ps[1], "nextjs", "vite", v.fields);
      StringProperty(ps[2], v.fields);
      BooleanProperty(ps[3], v.fields);
      StringProperty(ps[4], v.fields);
    }
  }

  lemma GeneratorAccepts(v: Json)
    ensures Accepts(GeneratorSchema, v) <==> GeneratorShape(v)
  {
    var ps := GeneratorSchema.properties;
    if v.JObj? {
      PairEnumProperty(ps[0], "prd", "cursor-rules", v.fields);
      StringProperty(ps[1], v.fields);
      StringProperty(ps[2], v.fields);
      StringProperty(ps[3], v.fields);
    }
  }

  /** The priority bounds 0 and 4 are both inclusive. */
  lemma PriorityBounds(title: string, p: real)
    ensures Accepts(LinearTicketSchema, JObj([Field("title", JStr(title)), Field("priority", JNum(p))]))
      <==> 0.0 <= p <= 4.0
  {
    LinearTicketAccepts(JObj([Field("title", JStr(title)), Field("priority", JNum(p))]));
    GetSecond(Field("title", JStr(title)), Field("priority", JNum(p)));
  }

  /** A Supabase `limit` must be strictly positive, an `offset` may be zero. */
  lemma SupabasePaging(table: string, limit: real, offset: real)
    ensures Accepts(SupabaseQuerySchema, JObj([Field("tableName", JStr(table)), Field("limit", JNum(limit))]))
      <==> limit > 0.0
    ensures Accepts(SupabaseQuerySchema, JObj([Field("tableName", JStr(table)), Field("offset", JNum(offset))]))
      <==> offset >= 0.0
  {
    var ls := [Field("tableName", JStr(table)), Field("limit", JNum(limit))];
    var os := [Field("tableName", JStr(table)), Field("offset", JNum(offset))];
    SupabaseQueryAccepts(JObj(ls));
    SupabaseQueryAccepts(JObj(os));
    GetSecond(ls[0], ls[1]);
    GetSecond(os[0], os[1]);
  }

  /** Every Vercel field is optional, and a given `limit` must be positive. */
  lemma VercelOptional(limit: real)
    ensures Accepts(VercelProjectSchema, JObj([]))
    ensures Accepts(VercelProjectSchema, JObj([Field("limit", JNum(limit))])) <==> limit > 0.0
  {
    VercelProjectAccepts(JObj([]));
    VercelProjectAccepts(JObj([Field("limit", JNum(limit))]));
  }

  /** `projectType` is one of the two enumerated strings. */
  lemma ProjectTypeEnum(name: string, t: string)
    ensures Accepts(ScaffoldingSchema, JObj([Field("projectName", JStr(name)), Field("projectType", JStr(t))]))
      <==> t == "nextjs" || t == "vite"
  {
    ScaffoldingAccepts(JObj([Field("projectName", JStr(name)), Field("projectType", JStr(t))]));
    GetSecond(Field("projectName", JStr(name)), Field("projectType", JStr(t)));
  }

  lemma {:induction false} GetAppendOther(fields: seq<Field>, f: Field, k: string)
    requires f.key != k
    ensures Get(fields + [f], k) == Get(fields, k)
    decreases |fields|
  {
    if |fields| == 0 {
      assert Get([f], k) == Get([f][1..], k);
    } else {
      assert (fields + [f])[1..] == fields[1..] + [f];
      GetAppendOther(fields[1..], f, k);
    }
  }

  /** Keys the schema does not declare are never a reason to reject. */
  lemma ExtraFieldAllowed(schema: ObjectSchema, fields: seq<Field>, extra: Field)
    requires forall i :: 0 <= i < |schema.properties| ==> schema.properties[i].name != extra.key
    requires Accepts(schema, JObj(fields))
    ensures Accepts(schema, JObj(fields + [extra]))
  {
    forall i | 0 <= i < |schema.properties|
      ensures PropertyAccepts(schema.properties[i], fields + [extra])
    {
      GetAppendOther(fields, extra, schema.properties[i].name);
    }
  }
}
