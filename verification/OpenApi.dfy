/** The OpenAPI document that the function validator builds out of nested, aliased maps. */
module OpenApi {
  import opened Options

  datatype Json = Null | Text(text: string) | Other(literal: string) | Array(items: seq<Json>)
                | Object(fields: map<string, Json>)

  /** A raw extension: bytes that are JSON or are not. */
  datatype Raw = Unreadable | Readable(json: Json)

  datatype PathItem = PathItem(description: string, summary: string,
                               connect: Option<Raw>, delete: Option<Raw>, get: Option<Raw>, head: Option<Raw>,
                               options: Option<Raw>, patch: Option<Raw>, post: Option<Raw>, put: Option<Raw>,
                               trace: Option<Raw>)

  datatype Api = Api(paths: map<string, PathItem>, schemas: map<string, Raw>)

  const METHODS := ["connect", "delete", "get", "head", "options", "patch", "post", "put", "trace"]

  const BEARER := Object(map["type" := Text("http"), "scheme" := Text("bearer")])

  function Operations(item: PathItem): (r: seq<Option<Raw>>)
    ensures |r| == |METHODS|
  {
    [item.connect, item.delete, item.get, item.head, item.options, item.patch, item.post, item.put, item.trace]
  }

  /** Decoding into a map of fields succeeds on an object and on null, which leaves the map nil. */
  function Decode(raw: Option<Raw>): Option<Json> {
    match raw
    case Some(Readable(Object(fields))) => Some(Object(fields))
    case Some(Readable(Null)) => Some(Null)
    case _ => None
  }

  /** The security requirements of an operation, if it states any. */
  function Security(op: Json): Option<Json> {
    if op.Object? && "security" in op.fields then Some(op.fields["security"]) else None
  }

  /** The type assertions on the requirements of the operation succeed. */
  predicate Sound(op: Json) {
    var s := Security(op);
    s.Some? ==> s.value.Array? && forall i :: 0 <= i < |s.value.items| ==> s.value.items[i].Object?
  }

  /** The operation requires the scheme (section 4.7.30 of OpenAPI 3.0.3). */
  predicate Uses(op: Json, scheme: string) {
    var s := Security(op);
    s.Some? && s.value.Array?
    && exists i :: 0 <= i < |s.value.items| && s.value.items[i].Object? && scheme in s.value.items[i].fields
  }

  predicate SoundItem(item: PathItem, n: nat)
    requires n <= |METHODS|
  {
    forall i :: 0 <= i < n ==> SoundAt(item, i)
  }

  predicate SoundAt(item: PathItem, i: nat)
    requires i < |METHODS|
  {
    var op := Decode(Operations(item)[i]);
    op.Some? ==> Sound(op.value)
  }

  predicate UsesAt(item: PathItem, i: nat, scheme: string)
    requires i < |METHODS|
  {
    var op := Decode(Operations(item)[i]);
    op.Some? && Uses(op.value, scheme)
  }

  predicate ItemUses(item: PathItem, n: nat, scheme: string)
    requires n <= |METHODS|
  {
    exists i :: 0 <= i < n && UsesAt(item, i, scheme)
  }

  // ---------- maps on the heap ----------

  type Fields = map<string, Json>

  /** A map that is updated after a reference to it is stored. All others are plain values. */
  class Node {
    var fields: map<string, Value>

    constructor (fields: map<string, Value>)
      ensures this.fields == fields
    {
      this.fields := fields;
    }
  }

  datatype Value = Plain(json: Json) | Ref(node: Node)

  function Child(n: Node, key: string): Option<Node>
    reads n
  {
    if key in n.fields && n.fields[key].Ref? then Some(n.fields[key].node) else None
  }

  /** What the map of a path holds after its first `n` methods. */
  predicate PathShape(fields: Fields, item: PathItem, n: nat)
    requires n <= |METHODS|
  {
    && fields.Keys <= {"description", "summary"} + (set i | 0 <= i < n :: METHODS[i])
    && ("description" in fields <==> item.description != "")
    && ("description" in fields ==> fields["description"] == Text(item.description))
    && ("summary" in fields <==> item.summary != "")
    && ("summary" in fields ==> fields["summary"] == Text(item.summary))
    && forall i :: 0 <= i < n ==> HoldsMethod(fields, item, i)
  }

  predicate HoldsMethod(fields: Fields, item: PathItem, i: nat)
    requires i < |METHODS|
  {
    var op := Decode(Operations(item)[i]);
    && (METHODS[i] in fields <==> op.Some?)
    && (op.Some? ==> fields[METHODS[i]] == op.value)
  }

  /** The map holds, under `name`, what the raw operation decodes to: an object, or null. */
  predicate HoldsRaw(fields: Fields, name: string, raw: Option<Raw>) {
    && (name in fields <==>
          raw.Some? && raw.value.Readable? && (raw.value.json.Object? || raw.value.json.Null?))
    && (name in fields ==> fields[name] == raw.value.json)
  }

  /** Each operation of the path is under its own method, the texts are there unless empty, and
      nothing else is. */
  predicate PathHolds(fields: Fields, item: PathItem) {
    && HoldsRaw(fields, "connect", item.connect)
    && HoldsRaw(fields, "delete", item.delete)
    && HoldsRaw(fields, "get", item.get)
    && HoldsRaw(fields, "head", item.head)
    && HoldsRaw(fields, "options", item.options)
    && HoldsRaw(fields, "patch", item.patch)
    && HoldsRaw(fields, "post", item.post)
    && HoldsRaw(fields, "put", item.put)
    && HoldsRaw(fields, "trace", item.trace)
    && ("description" in fields <==> item.description != "")
    && ("description" in fields ==> fields["description"] == Text(item.description))
    && ("summary" in fields <==> item.summary != "")
    && ("summary" in fields ==> fields["summary"] == Text(item.summary))
    && fields.Keys <= {"description", "summary", "connect", "delete", "get", "head", "options", "patch", "post",
                       "put", "trace"}
  }

  lemma ShapeHolds(fields: Fields, item: PathItem)
    requires PathShape(fields, item, |METHODS|)
    ensures PathHolds(fields, item)
  {
    HoldsNamed(fields, item);
    KeysNamed(fields, item);
    hide HoldsRaw, HoldsMethod;
  }

  lemma HoldsNamed(fields: Fields, item: PathItem)
    requires forall i :: 0 <= i < |METHODS| ==> HoldsMethod(fields, item, i)
    ensures HoldsRaw(fields, "connect", item.connect) && HoldsRaw(fields, "delete", item.delete)
    ensures HoldsRaw(fields, "get", item.get) && HoldsRaw(fields, "head", item.head)
    ensures HoldsRaw(fields, "options", item.options) && HoldsRaw(fields, "patch", item.patch)
    ensures HoldsRaw(fields, "post", item.post) && HoldsRaw(fields, "put", item.put)
    ensures HoldsRaw(fields, "trace", item.trace)
  {
    hide HoldsMethod, HoldsRaw;
    forall i | 0 <= i < |METHODS| ensures HoldsRaw(fields, METHODS[i], Operations(item)[i]) {
      HoldsAsRaw(fields, item, i);
    }
    var ops := Operations(item);
    assert HoldsRaw(fields, METHODS[0], ops[0]) && HoldsRaw(fields, METHODS[1], ops[1]);
    assert HoldsRaw(fields, METHODS[2], ops[2]) && HoldsRaw(fields, METHODS[3], ops[3]);
    assert HoldsRaw(fields, METHODS[4], ops[4]) && HoldsRaw(fields, METHODS[5], ops[5]);
    assert HoldsRaw(fields, METHODS[6], ops[6]) && HoldsRaw(fields, METHODS[7], ops[7]);
    assert HoldsRaw(fields, METHODS[8], ops[8]);
  }

  lemma HoldsAsRaw(fields: Fields, item: PathItem, i: nat)
    requires i < |METHODS| && HoldsMethod(fields, item, i)
    ensures HoldsRaw(fields, METHODS[i], Operations(item)[i])
  {
  }

  lemma KeysNamed(fields: Fields, item: PathItem)
    requires fields.Keys <= {"description", "summary"} + (set i | 0 <= i < |METHODS| :: METHODS[i])
    ensures fields.Keys <= {"description", "summary", "connect", "delete", "get", "head", "options", "patch", "post",
                            "put", "trace"}
  {
    forall key | key in fields
      ensures key in {"description", "summary", "connect", "delete", "get", "head", "options", "patch", "post", "put",
                      "trace"}
    {
      if key !in {"description", "summary"} {
        var i :| 0 <= i < |METHODS| && METHODS[i] == key;
      }
    }
  }

  lemma MethodsDiffer(i: nat, j: nat)
    requires i < j < |METHODS|
    ensures METHODS[i] != METHODS[j]
  {
    assert "patch"[1] != "trace"[1];
    assert "post"[0] != "head"[0];
    assert "get"[0] != "put"[0];
    assert "connect"[0] != "options"[0];
    assert "delete"[0] != "options"[0];
  }

  lemma MethodsAreNotTexts(i: nat)
    requires i < |METHODS|
    ensures METHODS[i] !in {"description", "summary"}
  {
    assert "connect"[0] != "summary"[0] && "options"[0] != "summary"[0];
  }

  predicate Bearers(schemes: map<string, Value>) {
    forall k :: k in schemes ==> schemes[k] == Plain(BEARER)
  }

  /** The closure over the map of schemes, run on each decoded operation. It stops the whole pass
      when a type assertion fails. */
  method Collect(op: Json, schemes: Node) returns (ok: bool)
    requires Bearers(schemes.fields)
    modifies schemes
    ensures ok <==> Sound(op)
    ensures Bearers(schemes.fields)
    ensures ok ==> forall k :: k in schemes.fields <==> k in old(schemes.fields) || Uses(op, k)
    ensures ok <==> (op.Object? && "security" in op.fields ==>
      op.fields["security"].Array? && forall r :: r in op.fields["security"].items ==> r.Object?)
    ensures ok && op.Object? && "security" in op.fields ==> forall k :: k in schemes.fields <==>
      k in old(schemes.fields) || exists r :: r in op.fields["security"].items && r.Object? && k in r.fields
    ensures !(op.Object? && "security" in op.fields) ==> schemes.fields == old(schemes.fields)
  {
    var s := Security(op);
    if s.None? {
      return true;
    }
    if !s.value.Array? {
      return false;
    }
    var arr := s.value.items;
    for i := 0 to |arr|
      invariant Bearers(schemes.fields)
      invariant forall j :: 0 <= j < i ==> arr[j].Object?
      invariant forall k :: k in schemes.fields <==>
        k in old(schemes.fields) || exists j :: 0 <= j < i && k in arr[j].fields
    {
      if !arr[i].Object? {
        return false;
      }
      AddSchemes(arr[i].fields, schemes);
    }
    return true;
  }

  method AddSchemes(requirement: map<string, Json>, schemes: Node)
    requires Bearers(schemes.fields)
    modifies schemes
    ensures Bearers(schemes.fields)
    ensures schemes.fields.Keys == old(schemes.fields.Keys) + requirement.Keys
  {
    var left := requirement.Keys;
    while left != {}
      invariant left <= requirement.Keys && Bearers(schemes.fields)
      invariant schemes.fields.Keys == old(schemes.fields.Keys) + (requirement.Keys - left)
    {
      var k :| k in left;
      left := left - {k};
      schemes.fields := schemes.fields[k := Plain(BEARER)];
    }
  }

  /** The map of one path, with the schemes of its operations collected on the way. */
  method BuildPath(item: PathItem, schemes: Node) returns (ok: bool, path: Fields)
    requires Bearers(schemes.fields)
    modifies schemes
    ensures Bearers(schemes.fields)
    ensures ok <==> SoundItem(item, |METHODS|)
    ensures ok ==> PathShape(path, item, |METHODS|) && PathHolds(path, item)
    ensures ok ==> forall k :: k in schemes.fields <==> k in old(schemes.fields) || ItemUses(item, |METHODS|, k)
  {
    path := map[];
    if item.description != "" {
      path := path["description" := Text(item.description)];
    }
    if item.summary != "" {
      path := path["summary" := Text(item.summary)];
    }
    ok := true;
    for i := 0 to |METHODS|
      invariant Bearers(schemes.fields)
      invariant SoundItem(item, i) && PathShape(path, item, i)
      invariant forall k :: k in schemes.fields <==> k in old(schemes.fields) || ItemUses(item, i, k)
    {
      var op := Decode(Operations(item)[i]);
      OneMethodMore(path, item, i);
      MoreUses(item, i);
      if op.Some? {
        path := path[METHODS[i] := op.value];
        var sound := Collect(op.value, schemes);
        if !sound {
          assert !SoundAt(item, i);
          return false, path;
        }
      }
    }
    ShapeHolds(path, item);
  }

  lemma OneMethodMore(fields: Fields, item: PathItem, i: nat)
    requires i < |METHODS| && PathShape(fields, item, i)
    ensures var op := Decode(Operations(item)[i]);
      PathShape(if op.Some? then fields[METHODS[i] := op.value] else fields, item, i + 1)
  {
    hide Operations, Decode, METHODS;
    MethodsAreNotTexts(i);
    forall j | 0 <= j < i ensures METHODS[j] != METHODS[i] { MethodsDiffer(j, i); }
    assert METHODS[i] !in fields;
    var op := Decode(Operations(item)[i]);
    var fields' := if op.Some? then fields[METHODS[i] := op.value] else fields;
    forall j | 0 <= j < i + 1 ensures HoldsMethod(fields', item, j) {
      assert j < i ==> HoldsMethod(fields, item, j);
    }
  }

  lemma MoreUses(item: PathItem, i: nat)
    requires i < |METHODS|
    ensures forall k :: ItemUses(item, i + 1, k) <==> ItemUses(item, i, k) || UsesAt(item, i, k)
  {
    hide UsesAt;
  }

  // ---------- the document ----------

  predicate SoundApi(api: Api) {
    forall k :: k in api.paths ==> SoundItem(api.paths[k], |METHODS|)
  }

  predicate ApiUses(api: Api, among: set<string>, scheme: string) {
    exists k :: k in api.paths && k in among && ItemUses(api.paths[k], |METHODS|, scheme)
  }

  predicate PathsShape(paths: Fields, api: Api, among: set<string>) {
    paths.Keys == among
    && forall k :: k in among ==> k in api.paths && paths[k].Object?
                                  && PathShape(paths[k].fields, api.paths[k], |METHODS|)
  }

  method BuildPaths(api: Api, schemes: Node) returns (ok: bool, paths: Fields)
    requires schemes.fields == map[]
    modifies schemes
    ensures Bearers(schemes.fields)
    ensures ok <==> SoundApi(api)
    ensures ok ==> PathsShape(paths, api, api.paths.Keys)
    ensures ok ==> forall s :: s in schemes.fields <==> ApiUses(api, api.paths.Keys, s)
  {
    hide PathShape, ItemUses, SoundItem;
    paths := map[];
    ok := true;
    var left := api.paths.Keys;
    while left != {}
      invariant left <= api.paths.Keys && Bearers(schemes.fields)
      invariant forall k :: k in api.paths && k !in left ==> SoundItem(api.paths[k], |METHODS|)
      invariant PathsShape(paths, api, api.paths.Keys - left)
      invariant forall s :: s in schemes.fields <==> ApiUses(api, api.paths.Keys - left, s)
    {
      var k :| k in left;
      var sound, path := BuildPath(api.paths[k], schemes);
      if !sound {
        return false, paths;
      }
      OnePathMore(api, api.paths.Keys - left, k);
      assert api.paths.Keys - (left - {k}) == (api.paths.Keys - left) + {k};
      left := left - {k};
      paths := paths[k := Object(path)];
    }
    assert api.paths.Keys - left == api.paths.Keys;
  }

  lemma OnePathMore(api: Api, among: set<string>, k: string)
    requires k in api.paths
    ensures forall s :: ApiUses(api, among + {k}, s) <==> ApiUses(api, among, s) || ItemUses(api.paths[k], |METHODS|, s)
  {
    hide ItemUses;
  }

  predicate Decodes(raw: Raw) {
    Decode(Some(raw)).Some?
  }

  function Description(text: string): Json {
    Object(map["description" := Text(text)])
  }

  function Responses(): Json {
    Object(map["BadRequest" := Description("Bad Request"), "Found" := Description("Found"),
               "InternalServerError" := Description("Internal Server Error"),
               "NotFound" := Description("Not Found"), "SeeOther" := Description("See Other"),
               "Unauthorized" := Description("Unauthorized")])
  }

  function Info(): Json {
    Object(map["title" := Text("Function API"), "version" := Text("1.0.0"),
               "description" := Text("Auto-generated OpenAPI specification for KDexFunction")])
  }

  // ---------- closure ----------

  /** The operation under a method of a path, as the document holds it. */
  ghost predicate HoldsOperation(paths: Fields, op: Json) {
    exists k, i :: k in paths && paths[k].Object? && 0 <= i < |METHODS| && OperationAt(paths[k].fields, i, op)
  }

  predicate OperationAt(fields: Fields, i: nat, op: Json)
    requires i < |METHODS|
  {
    METHODS[i] in fields && fields[METHODS[i]] == op
  }

  /** Section 4.7.30 of OpenAPI 3.0.3, both ways: a scheme name is declared if and only if an
      operation that the paths hold requires it. */
  ghost predicate Closed(paths: Fields, schemes: set<string>) {
    forall s :: s in schemes <==> exists op :: HoldsOperation(paths, op) && Uses(op, s)
  }

  lemma SchemesAreClosed(api: Api, paths: Fields, schemes: set<string>)
    requires PathsShape(paths, api, api.paths.Keys)
    requires forall s :: s in schemes <==> ApiUses(api, api.paths.Keys, s)
    ensures Closed(paths, schemes)
  {
    hide Uses, Decode, Operations, METHODS;
    forall s ensures s in schemes <==> exists op :: HoldsOperation(paths, op) && Uses(op, s) {
      if s in schemes {
        var k :| k in api.paths && ItemUses(api.paths[k], |METHODS|, s);
        var i :| 0 <= i < |METHODS| && UsesAt(api.paths[k], i, s);
        assert HoldsMethod(paths[k].fields, api.paths[k], i);
        var op := Decode(Operations(api.paths[k])[i]).value;
        assert OperationAt(paths[k].fields, i, op);
      }
      if op :| HoldsOperation(paths, op) && Uses(op, s) {
        var k, i :| k in paths && 0 <= i < |METHODS| && OperationAt(paths[k].fields, i, op);
        assert HoldsMethod(paths[k].fields, api.paths[k], i);
        assert UsesAt(api.paths[k], i, s);
        assert ItemUses(api.paths[k], |METHODS|, s);
      }
    }
  }

  // ---------- the whole document ----------

  ghost predicate SchemasShape(schemas: Fields, api: Api) {
    && (forall k :: k in schemas <==> k in api.schemas && Decodes(api.schemas[k]))
    && (forall k :: k in schemas ==> Some(schemas[k]) == Decode(Some(api.schemas[k])))
  }

  method BuildSchemas(api: Api) returns (r: Fields)
    ensures SchemasShape(r, api)
  {
    r := map[];
    var left := api.schemas.Keys;
    while left != {}
      invariant left <= api.schemas.Keys
      invariant forall k :: k in r <==> k in api.schemas && k !in left && Decodes(api.schemas[k])
      invariant forall k :: k in r ==> Some(r[k]) == Decode(Some(api.schemas[k]))
    {
      var k :| k in left;
      left := left - {k};
      var schema := Decode(Some(api.schemas[k]));
      if schema.Some? {
        r := r[k := schema.value];
      }
    }
  }

  /** The fields of the components that are there whether or not there are schemas. */
  predicate ComponentsShape(components: map<string, Value>) {
    && {"responses", "securitySchemes"} <= components.Keys <= {"responses", "securitySchemes", "schemas"}
    && components["responses"] == Plain(Responses())
    && components["securitySchemes"].Ref?
  }

  /** The fields of the document: its components are the map `components`. */
  predicate DocumentShape(fields: map<string, Value>, components: Node) {
    && fields.Keys == {"openapi", "info", "paths", "components"}
    && fields["openapi"] == Plain(Text("3.0.3")) && fields["info"] == Plain(Info())
    && fields["paths"].Plain? && fields["paths"].json.Object?
    && fields["components"] == Ref(components)
  }

  method NewDocument() returns (doc: Node, components: Node, schemes: Node)
    ensures fresh(doc) && fresh(components) && fresh(schemes)
    ensures doc != components && doc != schemes && components != schemes
    ensures DocumentShape(doc.fields, components) && ComponentsShape(components.fields)
    ensures "schemas" !in components.fields && components.fields["securitySchemes"] == Ref(schemes)
    ensures schemes.fields == map[]
  {
    hide Info, Responses;
    schemes := new Node(map[]);
    components := new Node(map["responses" := Plain(Responses()), "securitySchemes" := Ref(schemes)]);
    doc := new Node(map["openapi" := Plain(Text("3.0.3")), "info" := Plain(Info()),
                        "paths" := Plain(Object(map[])), "components" := Ref(components)]);
  }

  /** The schemas go into the components through the document's own reference to them. */
  method AddSchemas(doc: Node, ghost components: Node, api: Api)
    requires DocumentShape(doc.fields, components) && ComponentsShape(components.fields) && doc != components
    modifies components
    ensures ComponentsShape(components.fields)
    ensures components.fields["securitySchemes"] == old(components.fields["securitySchemes"])
    ensures "schemas" in components.fields && components.fields["schemas"].Plain?
    ensures components.fields["schemas"].json.Object? && SchemasShape(components.fields["schemas"].json.fields, api)
  {
    hide Info, Responses, SchemasShape;
    var schemas := BuildSchemas(api);
    if doc.fields["components"].Ref? {
      var c := doc.fields["components"].node;
      c.fields := c.fields["schemas" := Plain(Object(schemas))];
    }
  }

  lemma AllPathsHold(api: Api, paths: Fields)
    requires PathsShape(paths, api, api.paths.Keys)
    ensures paths.Keys == api.paths.Keys
    ensures forall k :: k in api.paths ==> paths[k].Object? && PathHolds(paths[k].fields, api.paths[k])
  {
    hide PathShape, PathHolds;
    forall k | k in api.paths ensures paths[k].Object? && PathHolds(paths[k].fields, api.paths[k]) {
      ShapeHolds(paths[k].fields, api.paths[k]);
    }
  }

  lemma BearersSpelled(schemes: map<string, Value>)
    requires Bearers(schemes)
    ensures forall k :: k in schemes ==>
              schemes[k] == Plain(Object(map["type" := Text("http"), "scheme" := Text("bearer")]))
  {
  }

  /** Building fails exactly when a type assertion on some decoded operation fails. Otherwise the
      document, read through its own references, holds every path and declares exactly the schemes
      that decoded operations use, also after the schemas are added to the components. */
  method BuildDocument(api: Api) returns (ok: bool, doc: Node)
    ensures ok <==> SoundApi(api)
    ensures ok ==>
      && Child(doc, "components").Some?
      && var components := Child(doc, "components").value;
      && DocumentShape(doc.fields, components)
      && PathsShape(doc.fields["paths"].json.fields, api, api.paths.Keys)
      && doc.fields["paths"].json.fields.Keys == api.paths.Keys
      && (forall k :: k in api.paths ==> doc.fields["paths"].json.fields[k].Object?)
      && ComponentsShape(components.fields)
      && ("schemas" in components.fields <==> |api.schemas| > 0)
      && ("schemas" in components.fields ==>
            && components.fields["schemas"].Plain? && components.fields["schemas"].json.Object?
            && SchemasShape(components.fields["schemas"].json.fields, api))
      && var schemes := components.fields["securitySchemes"].node;
      && (forall k :: k in api.paths ==>
            PathHolds(doc.fields["paths"].json.fields[k].fields, api.paths[k]))
      && (forall k :: k in schemes.fields ==>
            schemes.fields[k] == Plain(Object(map["type" := Text("http"), "scheme" := Text("bearer")])))
      && (forall s :: s in schemes.fields <==> ApiUses(api, api.paths.Keys, s))
      && Closed(doc.fields["paths"].json.fields, schemes.fields.Keys)
  {
    hide Info, Responses, SchemasShape, PathsShape, SoundApi, ApiUses, Bearers, Closed, PathHolds;
    var components, schemes, paths;
    doc, components, schemes := NewDocument();
    ok, paths := BuildPaths(api, schemes);
    if !ok {
      return;
    }
    SchemesAreClosed(api, paths, schemes.fields.Keys);
    AllPathsHold(api, paths);
    BearersSpelled(schemes.fields);
    doc.fields := doc.fields["paths" := Plain(Object(paths))];
    if |api.schemas| > 0 {
      AddSchemas(doc, components, api);
    }
  }
}
