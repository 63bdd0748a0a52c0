// Contract validation: the report of differences between a contract and a candidate
// implementation, and when it is empty.
module ContractValidation {
  import opened Records
  import opened Domain
  import opened Text

  datatype Finding =
    | MissingEndpoint(key: string)
    | IncompleteEndpoint(key: string)
    | UnexpectedEndpoint(key: string)
    | MissingSchema(name: string)
    | MissingField(schema: string, name: string)
    | FieldTypeMismatch(schema: string, name: string, expected: string, actual: string)
    | FieldRequiredMismatch(schema: string, name: string, wanted: bool, got: bool)
    | UnexpectedField(schema: string, name: string)
    | UnexpectedSchema(name: string)

  function Key(e: Endpoint): string {
    Upper(TrimSpace(e.verb)) + " " + TrimSpace(e.path)
  }

  function SchemaName(s: Schema): string {
    s.name
  }

  function FieldName(f: Field): string {
    f.name
  }

  // ----- Indexes: the last entry under a key wins ---------------------------------------

  function Index<K(==), T>(s: seq<T>, key: T -> K): map<K, T> {
    if s == [] then map[] else Index(s[..|s|-1], key)[key(s[|s|-1]) := s[|s|-1]]
  }

  predicate Has<K(==), T>(s: seq<T>, key: T -> K, k: K) {
    exists i :: 0 <= i < |s| && key(s[i]) == k
  }

  ghost predicate Unique<K, T>(s: seq<T>, key: T -> K) {
    forall i, j | 0 <= i < j < |s| :: key(s[i]) != key(s[j])
  }

  lemma {:induction false} IndexKeys<K, T>(s: seq<T>, key: T -> K, k: K)
    ensures k in Index(s, key) <==> Has(s, key, k)
    ensures k in Index(s, key) ==> key(Index(s, key)[k]) == k && Index(s, key)[k] in s
  {
    if s == [] {
    } else {
      var t, last := s[..|s|-1], s[|s|-1];
      IndexKeys(t, key, k);
      if Has(t, key, k) {
        var i :| 0 <= i < |t| && key(t[i]) == k;
        assert key(s[i]) == k;
      }
      if Has(s, key, k) && key(last) != k {
        var i :| 0 <= i < |s| && key(s[i]) == k;
        assert key(t[i]) == k;
      }
    }
  }

  lemma {:induction false} IndexFinds<K, T>(s: seq<T>, key: T -> K, i: nat)
    requires Unique(s, key) && i < |s|
    ensures key(s[i]) in Index(s, key) && Index(s, key)[key(s[i])] == s[i]
  {
    if i == |s| - 1 {
    } else {
      IndexFinds(s[..|s|-1], key, i);
      assert s[..|s|-1][i] == s[i];
    }
  }

  // With unique keys the index does not depend on the order of the list.
  lemma IndexReordered<K, T>(s: seq<T>, t: seq<T>, key: T -> K, k: K)
    requires Unique(t, key) && multiset(s) == multiset(t) && k in Index(s, key)
    ensures k in Index(t, key) && Index(t, key)[k] == Index(s, key)[k]
  {
    IndexKeys(s, key, k);
    var e := Index(s, key)[k];
    assert e in multiset(t);
    var i :| 0 <= i < |t| && t[i] == e;
    IndexFinds(t, key, i);
  }

  // ----- The report ---------------------------------------------------------------------

  function EndpointFindings(e: Endpoint, index: map<string, Endpoint>): seq<Finding> {
    if Key(e) !in index then [MissingEndpoint(Key(e))]
    else if TrimSpace(index[Key(e)].name) == "" then [IncompleteEndpoint(Key(e))]
    else []
  }

  function FieldFindings(schema: string, f: Field, index: map<string, Field>): seq<Finding> {
    if f.name !in index then [MissingField(schema, f.name)]
    else
      (if index[f.name].kind != f.kind then [FieldTypeMismatch(schema, f.name, f.kind, index[f.name].kind)] else [])
      + (if index[f.name].required != f.required
         then [FieldRequiredMismatch(schema, f.name, f.required, index[f.name].required)] else [])
  }

  function AllEndpointFindings(s: seq<Endpoint>, index: map<string, Endpoint>): seq<Finding> {
    if s == [] then [] else AllEndpointFindings(s[..|s|-1], index) + EndpointFindings(s[|s|-1], index)
  }

  function ExtraEndpoints(s: seq<Endpoint>, contract: seq<Endpoint>): seq<Finding> {
    if s == [] then []
    else ExtraEndpoints(s[..|s|-1], contract) + if Has(contract, Key, Key(s[|s|-1])) then []
      else [UnexpectedEndpoint(Key(s[|s|-1]))]
  }

  function AllFieldFindings(schema: string, s: seq<Field>, index: map<string, Field>): seq<Finding> {
    if s == [] then [] else AllFieldFindings(schema, s[..|s|-1], index) + FieldFindings(schema, s[|s|-1], index)
  }

  function ExtraFields(schema: string, s: seq<Field>, contract: seq<Field>): seq<Finding> {
    if s == [] then []
    else ExtraFields(schema, s[..|s|-1], contract) + if Has(contract, FieldName, s[|s|-1].name) then []
      else [UnexpectedField(schema, s[|s|-1].name)]
  }

  function SchemaFindings(s: Schema, index: map<string, Schema>): seq<Finding> {
    if s.name !in index then [MissingSchema(s.name)]
    else
      AllFieldFindings(s.name, s.fields, Index(index[s.name].fields, FieldName))
      + ExtraFields(index[s.name].name, index[s.name].fields, s.fields)
  }

  function AllSchemaFindings(s: seq<Schema>, index: map<string, Schema>): seq<Finding> {
    if s == [] then [] else AllSchemaFindings(s[..|s|-1], index) + SchemaFindings(s[|s|-1], index)
  }

  function ExtraSchemas(s: seq<Schema>, contract: seq<Schema>): seq<Finding> {
    if s == [] then []
    else ExtraSchemas(s[..|s|-1], contract) + if Has(contract, SchemaName, s[|s|-1].name) then []
      else [UnexpectedSchema(s[|s|-1].name)]
  }

  function Report(c: ContractBody, endpoints: seq<Endpoint>, schemas: seq<Schema>): seq<Finding> {
    AllEndpointFindings(c.endpoints, Index(endpoints, Key)) + ExtraEndpoints(endpoints, c.endpoints)
    + (AllSchemaFindings(c.schemas, Index(schemas, SchemaName)) + ExtraSchemas(schemas, c.schemas))
  }

  // validateContractDefinition.
  method Validate(c: ContractBody, endpoints: seq<Endpoint>, schemas: seq<Schema>) returns (findings: seq<Finding>)
    ensures findings == Report(c, endpoints, schemas)
  {
    findings := ValidateEndpoints(c.endpoints, endpoints);
    var more := ValidateSchemas(c.schemas, schemas);
    findings := findings + more;
  }

  method ValidateEndpoints(contract: seq<Endpoint>, endpoints: seq<Endpoint>) returns (findings: seq<Finding>)
    ensures findings == AllEndpointFindings(contract, Index(endpoints, Key)) + ExtraEndpoints(endpoints, contract)
  {
    hide Key, TrimSpace;
    var endpointIndex: map<string, Endpoint> := map[];
    for i := 0 to |endpoints|
      invariant endpointIndex == Index(endpoints[..i], Key)
    {
      assert endpoints[..i+1][..i] == endpoints[..i];
      endpointIndex := endpointIndex[Key(endpoints[i]) := endpoints[i]];
    }
    assert endpoints[..|endpoints|] == endpoints;
    findings := [];
    for i := 0 to |contract|
      invariant findings == AllEndpointFindings(contract[..i], endpointIndex)
    {
      assert contract[..i+1][..i] == contract[..i];
      var key := Key(contract[i]);
      if key !in endpointIndex {
        findings := findings + [MissingEndpoint(key)];
      } else if TrimSpace(endpointIndex[key].name) == "" {
        findings := findings + [IncompleteEndpoint(key)];
      }
    }
    assert contract[..|contract|] == contract;
    ghost var done := findings;
    for i := 0 to |endpoints|
      invariant findings == done + ExtraEndpoints(endpoints[..i], contract)
    {
      assert endpoints[..i+1][..i] == endpoints[..i];
      if !Has(contract, Key, Key(endpoints[i])) {
        findings := findings + [UnexpectedEndpoint(Key(endpoints[i]))];
      }
    }
  }

  method ValidateSchemas(contract: seq<Schema>, schemas: seq<Schema>) returns (findings: seq<Finding>)
    ensures findings == AllSchemaFindings(contract, Index(schemas, SchemaName)) + ExtraSchemas(schemas, contract)
  {
    var schemaIndex: map<string, Schema> := map[];
    for i := 0 to |schemas|
      invariant schemaIndex == Index(schemas[..i], SchemaName)
    {
      assert schemas[..i+1][..i] == schemas[..i];
      schemaIndex := schemaIndex[schemas[i].name := schemas[i]];
    }
    assert schemas[..|schemas|] == schemas;
    findings := [];
    for i := 0 to |contract|
      invariant findings == AllSchemaFindings(contract[..i], schemaIndex)
    {
      assert contract[..i+1][..i] == contract[..i];
      var found := ValidateSchema(contract[i], schemaIndex);
      findings := findings + found;
    }
    assert contract[..|contract|] == contract;
    ghost var done := findings;
    for i := 0 to |schemas|
      invariant findings == done + ExtraSchemas(schemas[..i], contract)
    {
      assert schemas[..i+1][..i] == schemas[..i];
      if !Has(contract, SchemaName, schemas[i].name) {
        findings := findings + [UnexpectedSchema(schemas[i].name)];
      }
    }
  }

  method ValidateSchema(expected: Schema, index: map<string, Schema>) returns (findings: seq<Finding>)
    ensures findings == SchemaFindings(expected, index)
  {
    if expected.name !in index {
      return [MissingSchema(expected.name)];
    }
    var actual := index[expected.name];
    var fieldIndex: map<string, Field> := map[];
    for i := 0 to |actual.fields|
      invariant fieldIndex == Index(actual.fields[..i], FieldName)
    {
      assert actual.fields[..i+1][..i] == actual.fields[..i];
      fieldIndex := fieldIndex[actual.fields[i].name := actual.fields[i]];
    }
    assert actual.fields[..|actual.fields|] == actual.fields;
    findings := [];
    for i := 0 to |expected.fields|
      invariant findings == AllFieldFindings(expected.name, expected.fields[..i], fieldIndex)
    {
      assert expected.fields[..i+1][..i] == expected.fields[..i];
      var f := expected.fields[i];
      if f.name !in fieldIndex {
        findings := findings + [MissingField(expected.name, f.name)];
        continue;
      }
      if fieldIndex[f.name].kind != f.kind {
        findings := findings + [FieldTypeMismatch(expected.name, f.name, f.kind, fieldIndex[f.name].kind)];
      }
      if fieldIndex[f.name].required != f.required {
        findings := findings + [FieldRequiredMismatch(expected.name, f.name, f.required, fieldIndex[f.name].required)];
      }
    }
    assert expected.fields[..|expected.fields|] == expected.fields;
    ghost var done := findings;
    for i := 0 to |actual.fields|
      invariant findings == done + ExtraFields(actual.name, actual.fields[..i], expected.fields)
    {
      assert actual.fields[..i+1][..i] == actual.fields[..i];
      if !Has(expected.fields, FieldName, actual.fields[i].name) {
        findings := findings + [UnexpectedField(actual.name, actual.fields[i].name)];
      }
    }
  }

  // ----- When nothing is reported -------------------------------------------------------

  predicate EndpointsConform(contract: seq<Endpoint>, candidate: seq<Endpoint>) {
    && (forall i | 0 <= i < |contract| ::
          Key(contract[i]) in Index(candidate, Key) && TrimSpace(Index(candidate, Key)[Key(contract[i])].name) != "")
    && (forall i | 0 <= i < |candidate| :: Has(contract, Key, Key(candidate[i])))
  }

  predicate FieldsConform(contract: seq<Field>, candidate: seq<Field>) {
    && (forall i | 0 <= i < |contract| ::
          && contract[i].name in Index(candidate, FieldName)
          && Index(candidate, FieldName)[contract[i].name] == contract[i])
    && (forall i | 0 <= i < |candidate| :: Has(contract, FieldName, candidate[i].name))
  }

  predicate SchemasConform(contract: seq<Schema>, candidate: seq<Schema>) {
    && (forall i | 0 <= i < |contract| :: contract[i].name in Index(candidate, SchemaName)
          && FieldsConform(contract[i].fields, Index(candidate, SchemaName)[contract[i].name].fields))
    && (forall i | 0 <= i < |candidate| :: Has(contract, SchemaName, candidate[i].name))
  }

  lemma {:induction false} EndpointFindingsEmpty(s: seq<Endpoint>, index: map<string, Endpoint>)
    ensures AllEndpointFindings(s, index) == [] <==>
      forall i | 0 <= i < |s| :: Key(s[i]) in index && TrimSpace(index[Key(s[i])].name) != ""
  {
    if s == [] {
    } else {
      EndpointFindingsEmpty(s[..|s|-1], index);
      assert forall i | 0 <= i < |s|-1 :: s[..|s|-1][i] == s[i];
    }
  }

  lemma {:induction false} ExtraEndpointsEmpty(s: seq<Endpoint>, contract: seq<Endpoint>)
    ensures ExtraEndpoints(s, contract) == [] <==> forall i | 0 <= i < |s| :: Has(contract, Key, Key(s[i]))
  {
    if s == [] {
    } else {
      ExtraEndpointsEmpty(s[..|s|-1], contract);
      assert forall i | 0 <= i < |s|-1 :: s[..|s|-1][i] == s[i];
    }
  }

  lemma {:induction false} FieldFindingsEmpty(schema: string, s: seq<Field>, index: map<string, Field>)
    requires forall n | n in index :: index[n].name == n
    ensures AllFieldFindings(schema, s, index) == [] <==>
      forall i | 0 <= i < |s| :: s[i].name in index && index[s[i].name] == s[i]
  {
    if s == [] {
    } else {
      FieldFindingsEmpty(schema, s[..|s|-1], index);
      assert forall i | 0 <= i < |s|-1 :: s[..|s|-1][i] == s[i];
    }
  }

  lemma {:induction false} ExtraFieldsEmpty(schema: string, s: seq<Field>, contract: seq<Field>)
    ensures ExtraFields(schema, s, contract) == [] <==> forall i | 0 <= i < |s| :: Has(contract, FieldName, s[i].name)
  {
    if s == [] {
    } else {
      ExtraFieldsEmpty(schema, s[..|s|-1], contract);
      assert forall i | 0 <= i < |s|-1 :: s[..|s|-1][i] == s[i];
    }
  }

  lemma SchemaFindingsEmpty(s: Schema, index: map<string, Schema>)
    ensures SchemaFindings(s, index) == [] <==> s.name in index && FieldsConform(s.fields, index[s.name].fields)
  {
    if s.name in index {
      var fields := index[s.name].fields;
      forall n | n in Index(fields, FieldName) ensures Index(fields, FieldName)[n].name == n {
        IndexKeys(fields, FieldName, n);
      }
      FieldFindingsEmpty(s.name, s.fields, Index(fields, FieldName));
      ExtraFieldsEmpty(index[s.name].name, fields, s.fields);
    }
  }

  lemma {:induction false} AllSchemaFindingsEmpty(s: seq<Schema>, index: map<string, Schema>)
    ensures AllSchemaFindings(s, index) == [] <==>
      forall i | 0 <= i < |s| :: s[i].name in index && FieldsConform(s[i].fields, index[s[i].name].fields)
  {
    if s == [] {
    } else {
      AllSchemaFindingsEmpty(s[..|s|-1], index);
      SchemaFindingsEmpty(s[|s|-1], index);
      assert forall i | 0 <= i < |s|-1 :: s[..|s|-1][i] == s[i];
    }
  }

  lemma {:induction false} ExtraSchemasEmpty(s: seq<Schema>, contract: seq<Schema>)
    ensures ExtraSchemas(s, contract) == [] <==> forall i | 0 <= i < |s| :: Has(contract, SchemaName, s[i].name)
  {
    if s == [] {
    } else {
      ExtraSchemasEmpty(s[..|s|-1], contract);
      assert forall i | 0 <= i < |s|-1 :: s[..|s|-1][i] == s[i];
    }
  }

  lemma EndpointsEmpty(contract: seq<Endpoint>, candidate: seq<Endpoint>)
    ensures AllEndpointFindings(contract, Index(candidate, Key)) == [] && ExtraEndpoints(candidate, contract) == []
      <==> EndpointsConform(contract, candidate)
  {
    hide Index, Key, Has, TrimSpace, AllEndpointFindings, ExtraEndpoints;
    EndpointFindingsEmpty(contract, Index(candidate, Key));
    ExtraEndpointsEmpty(candidate, contract);
  }

  lemma SchemasEmpty(contract: seq<Schema>, candidate: seq<Schema>)
    ensures AllSchemaFindings(contract, Index(candidate, SchemaName)) == [] && ExtraSchemas(candidate, contract) == []
      <==> SchemasConform(contract, candidate)
  {
    hide Index, FieldsConform, Has, AllSchemaFindings, ExtraSchemas;
    AllSchemaFindingsEmpty(contract, Index(candidate, SchemaName));
    ExtraSchemasEmpty(candidate, contract);
  }

  lemma ReportEmpty(c: ContractBody, endpoints: seq<Endpoint>, schemas: seq<Schema>)
    ensures Report(c, endpoints, schemas) == [] <==>
      EndpointsConform(c.endpoints, endpoints) && SchemasConform(c.schemas, schemas)
  {
    hide Index, Has, EndpointsConform, SchemasConform, AllEndpointFindings, ExtraEndpoints, AllSchemaFindings,
      ExtraSchemas;
    EndpointsEmpty(c.endpoints, endpoints);
    SchemasEmpty(c.schemas, schemas);
  }

  // ----- Soundness and completeness -----------------------------------------------------

  ghost predicate UniqueSchemas(s: seq<Schema>) {
    && Unique(s, SchemaName)
    && (forall i | 0 <= i < |s| :: Unique(s[i].fields, FieldName))
  }

  // What a list of schemas says, whatever its order: the fields by name, by schema name.
  function Shapes(s: seq<Schema>): map<string, map<string, Field>> {
    map n | n in Index(s, SchemaName) :: Index(Index(s, SchemaName)[n].fields, FieldName)
  }

  predicate Named(s: seq<Endpoint>) {
    forall k | k in Index(s, Key) :: !Blank(Index(s, Key)[k].name)
  }

  // Both lists have the same keys exactly when each one's keys occur in the other.
  lemma SameKeys<T>(s: seq<T>, t: seq<T>, key: T -> string)
    ensures Index(s, key).Keys == Index(t, key).Keys <==>
      (forall i | 0 <= i < |s| :: key(s[i]) in Index(t, key)) && (forall i | 0 <= i < |t| :: Has(s, key, key(t[i])))
  {
    forall k ensures k in Index(s, key) <==> Has(s, key, k) {
      IndexKeys(s, key, k);
    }
    forall k ensures k in Index(t, key) <==> Has(t, key, k) {
      IndexKeys(t, key, k);
    }
    forall i | 0 <= i < |s| ensures key(s[i]) in Index(s, key) {
      assert Has(s, key, key(s[i]));
    }
    forall i | 0 <= i < |t| ensures key(t[i]) in Index(t, key) {
      assert Has(t, key, key(t[i]));
    }
  }

  // With unique field names in the contract, fields conform exactly when both sides say the same.
  lemma FieldsConformMeans(contract: seq<Field>, candidate: seq<Field>)
    requires Unique(contract, FieldName)
    ensures FieldsConform(contract, candidate) <==> Index(contract, FieldName) == Index(candidate, FieldName)
  {
    SameKeys(contract, candidate, FieldName);
    forall i | 0 <= i < |contract|
      ensures contract[i].name in Index(contract, FieldName)
      ensures Index(contract, FieldName)[contract[i].name] == contract[i]
    {
      IndexFinds(contract, FieldName, i);
    }
    forall n | n in Index(contract, FieldName) ensures exists i :: 0 <= i < |contract| && contract[i].name == n {
      IndexKeys(contract, FieldName, n);
    }
  }

  lemma SchemasConformMeans(contract: seq<Schema>, candidate: seq<Schema>)
    requires UniqueSchemas(contract)
    ensures SchemasConform(contract, candidate) <==> Shapes(contract) == Shapes(candidate)
  {
    var ours, theirs := Index(contract, SchemaName), Index(candidate, SchemaName);
    SameKeys(contract, candidate, SchemaName);
    hide FieldsConform, Has;
    assert Shapes(contract).Keys == ours.Keys && Shapes(candidate).Keys == theirs.Keys;
    forall i | 0 <= i < |contract| && contract[i].name in theirs
      ensures contract[i].name in ours
      ensures FieldsConform(contract[i].fields, theirs[contract[i].name].fields)
        <==> Shapes(contract)[contract[i].name] == Shapes(candidate)[contract[i].name]
    {
      IndexFinds(contract, SchemaName, i);
      FieldsConformMeans(contract[i].fields, theirs[contract[i].name].fields);
    }
    forall n | n in ours ensures exists i :: 0 <= i < |contract| && contract[i].name == n {
      IndexKeys(contract, SchemaName, n);
    }
  }

  lemma EndpointsConformMeans(contract: seq<Endpoint>, candidate: seq<Endpoint>)
    ensures EndpointsConform(contract, candidate) <==>
      Index(contract, Key).Keys == Index(candidate, Key).Keys && Named(candidate)
  {
    SameKeys(contract, candidate, Key);
    forall k | k in Index(candidate, Key)
      ensures TrimSpace(Index(candidate, Key)[k].name) != "" <==> !Blank(Index(candidate, Key)[k].name)
    {
      TrimSpaceBlank(Index(candidate, Key)[k].name);
    }
    if Index(contract, Key).Keys == Index(candidate, Key).Keys {
      forall k | k in Index(candidate, Key) ensures exists i :: 0 <= i < |contract| && Key(contract[i]) == k {
        IndexKeys(contract, Key, k);
      }
    }
  }

  // No conflict is reported exactly when the endpoint keys agree, every candidate endpoint has a
  // name, and the schemas agree in schema names, field names, types and required flags.
  lemma NoFindingsMeans(c: ContractBody, endpoints: seq<Endpoint>, schemas: seq<Schema>)
    requires UniqueSchemas(c.schemas)
    ensures Report(c, endpoints, schemas) == [] <==>
      && Index(c.endpoints, Key).Keys == Index(endpoints, Key).Keys && Named(endpoints)
      && Shapes(c.schemas) == Shapes(schemas)
  {
    ReportEmpty(c, endpoints, schemas);
    EndpointsConformMeans(c.endpoints, endpoints);
    SchemasConformMeans(c.schemas, schemas);
  }

  lemma SameIndex<T>(s: seq<T>, t: seq<T>, key: T -> string)
    requires Unique(s, key) && Unique(t, key) && multiset(s) == multiset(t)
    ensures Index(s, key) == Index(t, key)
  {
    forall k | k in Index(s, key) ensures k in Index(t, key) && Index(t, key)[k] == Index(s, key)[k] {
      IndexReordered(s, t, key, k);
    }
    forall k | k in Index(t, key) ensures k in Index(s, key) {
      IndexReordered(t, s, key, k);
    }
  }

  // Reordering a candidate with unique keys does not change the verdict.
  lemma OrderIrrelevant(c: ContractBody, endpoints: seq<Endpoint>, schemas: seq<Schema>, endpoints': seq<Endpoint>,
                        schemas': seq<Schema>)
    requires UniqueSchemas(c.schemas)
    requires Unique(endpoints, Key) && Unique(endpoints', Key) && multiset(endpoints) == multiset(endpoints')
    requires Unique(schemas, SchemaName) && Unique(schemas', SchemaName) && multiset(schemas) == multiset(schemas')
    ensures Report(c, endpoints, schemas) == [] <==> Report(c, endpoints', schemas') == []
  {
    SameIndex(endpoints, endpoints', Key);
    SameIndex(schemas, schemas', SchemaName);
    NoFindingsMeans(c, endpoints, schemas);
    NoFindingsMeans(c, endpoints', schemas');
  }

  // ----- What is reported ---------------------------------------------------------------

  // The entry that counts under a key is the last one.
  ghost predicate Latest<K, T>(s: seq<T>, key: T -> K, k: K, e: T) {
    exists i :: 0 <= i < |s| && s[i] == e && key(e) == k && forall j | i < j < |s| :: key(s[j]) != k
  }

  lemma LatestOne<K, T>(s: seq<T>, key: T -> K, k: K, e: T, f: T)
    requires Latest(s, key, k, e) && Latest(s, key, k, f)
    ensures e == f
  {
    var i :| 0 <= i < |s| && s[i] == e && key(e) == k && forall j | i < j < |s| :: key(s[j]) != k;
    var j :| 0 <= j < |s| && s[j] == f && key(f) == k && forall l | j < l < |s| :: key(s[l]) != k;
    assert i <= j && j <= i;
  }

  lemma {:induction false} IndexLatest<K, T>(s: seq<T>, key: T -> K, k: K)
    ensures k in Index(s, key) ==> Latest(s, key, k, Index(s, key)[k])
  {
    if k in Index(s, key) && key(s[|s|-1]) != k {
      var t := s[..|s|-1];
      IndexLatest(t, key, k);
      var i :| 0 <= i < |t| && t[i] == Index(t, key)[k] && key(t[i]) == k && forall j | i < j < |t| :: key(t[j]) != k;
      assert s[i] == t[i] && forall j | i < j < |t| :: s[j] == t[j];
    }
  }

  // The index holds, under each key that occurs, the entry that counts.
  lemma IndexIs<K, T>(s: seq<T>, key: T -> K, k: K)
    ensures k in Index(s, key) <==> Has(s, key, k)
    ensures forall e :: Latest(s, key, k, e) <==> k in Index(s, key) && e == Index(s, key)[k]
  {
    IndexKeys(s, key, k);
    IndexLatest(s, key, k);
    hide Index;
    forall e | Latest(s, key, k, e) ensures k in Index(s, key) && e == Index(s, key)[k] {
      assert Has(s, key, k);
      LatestOne(s, key, k, e, Index(s, key)[k]);
    }
  }

  ghost predicate EndpointDue(contract: seq<Endpoint>, candidate: seq<Endpoint>, f: Finding) {
    match f
    case MissingEndpoint(k) => Has(contract, Key, k) && !Has(candidate, Key, k)
    case IncompleteEndpoint(k) => Has(contract, Key, k) && exists e :: Latest(candidate, Key, k, e) && Blank(e.name)
    case UnexpectedEndpoint(k) => Has(candidate, Key, k) && !Has(contract, Key, k)
    case _ => false
  }

  ghost predicate FieldDue(schema: string, contract: seq<Field>, candidate: seq<Field>, f: Finding) {
    match f
    case MissingField(s, n) => s == schema && Has(contract, FieldName, n) && !Has(candidate, FieldName, n)
    case FieldTypeMismatch(s, n, expected, actual) =>
      s == schema && expected != actual
      && exists x, y :: x in contract && x.name == n && Latest(candidate, FieldName, n, y)
                        && x.kind == expected && y.kind == actual
    case FieldRequiredMismatch(s, n, wanted, got) =>
      s == schema && wanted != got
      && exists x, y :: x in contract && x.name == n && Latest(candidate, FieldName, n, y)
                        && x.required == wanted && y.required == got
    case UnexpectedField(s, n) => s == schema && Has(candidate, FieldName, n) && !Has(contract, FieldName, n)
    case _ => false
  }

  ghost predicate SchemaDue(contract: seq<Schema>, candidate: seq<Schema>, f: Finding) {
    || (f.MissingSchema? && Has(contract, SchemaName, f.name) && !Has(candidate, SchemaName, f.name))
    || (f.UnexpectedSchema? && Has(candidate, SchemaName, f.name) && !Has(contract, SchemaName, f.name))
    || (exists x, y :: x in contract && Latest(candidate, SchemaName, x.name, y)
                       && FieldDue(x.name, x.fields, y.fields, f))
  }

  lemma {:induction false} InEndpointFindings(s: seq<Endpoint>, index: map<string, Endpoint>, f: Finding)
    ensures f in AllEndpointFindings(s, index) <==> exists e :: e in s && f in EndpointFindings(e, index)
  {
    hide EndpointFindings;
    if s != [] {
      InEndpointFindings(s[..|s|-1], index, f);
      assert s == s[..|s|-1] + [s[|s|-1]];
    }
  }

  lemma {:induction false} InExtraEndpoints(s: seq<Endpoint>, contract: seq<Endpoint>, f: Finding)
    ensures f in ExtraEndpoints(s, contract) <==>
      f.UnexpectedEndpoint? && Has(s, Key, f.key) && !Has(contract, Key, f.key)
  {
    hide Key;
    if s != [] {
      var t := s[..|s|-1];
      InExtraEndpoints(t, contract, f);
      if f.UnexpectedEndpoint? {
        HasMore(t, s[|s|-1], Key, f.key);
        assert s == t + [s[|s|-1]];
      }
    }
  }

  lemma HasMore<K, T>(s: seq<T>, e: T, key: T -> K, k: K)
    ensures Has(s + [e], key, k) <==> Has(s, key, k) || key(e) == k
  {
    var t := s + [e];
    assert t[|s|] == e;
    if Has(s, key, k) {
      var i :| 0 <= i < |s| && key(s[i]) == k;
      assert t[i] == s[i];
    }
  }

  lemma {:induction false} InFieldFindings(schema: string, s: seq<Field>, index: map<string, Field>, f: Finding)
    ensures f in AllFieldFindings(schema, s, index) <==> exists e :: e in s && f in FieldFindings(schema, e, index)
  {
    hide FieldFindings;
    if s != [] {
      InFieldFindings(schema, s[..|s|-1], index, f);
      assert s == s[..|s|-1] + [s[|s|-1]];
    }
  }

  lemma {:induction false} InExtraFields(schema: string, s: seq<Field>, contract: seq<Field>, f: Finding)
    ensures f in ExtraFields(schema, s, contract) <==>
      f.UnexpectedField? && f.schema == schema && Has(s, FieldName, f.name) && !Has(contract, FieldName, f.name)
  {
    if s != [] {
      var t := s[..|s|-1];
      InExtraFields(schema, t, contract, f);
      if f.UnexpectedField? {
        HasMore(t, s[|s|-1], FieldName, f.name);
        assert s == t + [s[|s|-1]];
      }
    }
  }

  lemma {:induction false} InSchemaFindings(s: seq<Schema>, index: map<string, Schema>, f: Finding)
    ensures f in AllSchemaFindings(s, index) <==> exists e :: e in s && f in SchemaFindings(e, index)
  {
    hide SchemaFindings;
    if s != [] {
      InSchemaFindings(s[..|s|-1], index, f);
      assert s == s[..|s|-1] + [s[|s|-1]];
    }
  }

  lemma {:induction false} InExtraSchemas(s: seq<Schema>, contract: seq<Schema>, f: Finding)
    ensures f in ExtraSchemas(s, contract) <==>
      f.UnexpectedSchema? && Has(s, SchemaName, f.name) && !Has(contract, SchemaName, f.name)
  {
    if s != [] {
      var t := s[..|s|-1];
      InExtraSchemas(t, contract, f);
      if f.UnexpectedSchema? {
        HasMore(t, s[|s|-1], SchemaName, f.name);
        assert s == t + [s[|s|-1]];
      }
    }
  }

  lemma HasEntry<K, T>(s: seq<T>, key: T -> K, k: K)
    ensures Has(s, key, k) <==> exists e :: e in s && key(e) == k
  {
    if e :| e in s && key(e) == k {
      var i :| 0 <= i < |s| && s[i] == e;
    }
  }

  lemma EndpointsReported(contract: seq<Endpoint>, candidate: seq<Endpoint>, f: Finding)
    ensures f in AllEndpointFindings(contract, Index(candidate, Key)) + ExtraEndpoints(candidate, contract)
      <==> EndpointDue(contract, candidate, f)
  {
    hide Key, Index, Has, Latest, AllEndpointFindings, ExtraEndpoints, TrimSpace, Blank;
    var index := Index(candidate, Key);
    InEndpointFindings(contract, index, f);
    InExtraEndpoints(candidate, contract, f);
    if f.MissingEndpoint? || f.IncompleteEndpoint? {
      HasEntry(contract, Key, f.key);
      IndexIs(candidate, Key, f.key);
      if f.key in index {
        TrimSpaceBlank(index[f.key].name);
      }
    }
  }

  lemma FieldsReported(schema: string, contract: seq<Field>, candidate: seq<Field>, f: Finding)
    ensures f in AllFieldFindings(schema, contract, Index(candidate, FieldName))
                 + ExtraFields(schema, candidate, contract)
      <==> FieldDue(schema, contract, candidate, f)
  {
    hide Index, Has, Latest, AllFieldFindings, ExtraFields;
    InFieldFindings(schema, contract, Index(candidate, FieldName), f);
    InExtraFields(schema, candidate, contract, f);
    if f.MissingField? || f.FieldTypeMismatch? || f.FieldRequiredMismatch? {
      HasEntry(contract, FieldName, f.name);
      IndexIs(candidate, FieldName, f.name);
    }
  }

  lemma SchemaReported(x: Schema, candidate: seq<Schema>, f: Finding)
    ensures f in SchemaFindings(x, Index(candidate, SchemaName)) <==>
      || (f == MissingSchema(x.name) && !Has(candidate, SchemaName, x.name))
      || exists y :: Latest(candidate, SchemaName, x.name, y) && FieldDue(x.name, x.fields, y.fields, f)
  {
    hide Index, Has, Latest, FieldDue, AllFieldFindings, ExtraFields;
    IndexIs(candidate, SchemaName, x.name);
    var index := Index(candidate, SchemaName);
    if x.name in index {
      IndexKeys(candidate, SchemaName, x.name);
      FieldsReported(x.name, x.fields, index[x.name].fields, f);
    }
  }

  lemma SchemasReported(contract: seq<Schema>, candidate: seq<Schema>, f: Finding)
    ensures f in AllSchemaFindings(contract, Index(candidate, SchemaName)) + ExtraSchemas(candidate, contract)
      <==> SchemaDue(contract, candidate, f)
  {
    hide Index, Has, Latest, FieldDue, AllSchemaFindings, ExtraSchemas, SchemaFindings;
    InSchemaFindings(contract, Index(candidate, SchemaName), f);
    InExtraSchemas(candidate, contract, f);
    forall x | x in contract
      ensures f in SchemaFindings(x, Index(candidate, SchemaName)) <==>
        || (f == MissingSchema(x.name) && !Has(candidate, SchemaName, x.name))
        || exists y :: Latest(candidate, SchemaName, x.name, y) && FieldDue(x.name, x.fields, y.fields, f)
    {
      SchemaReported(x, candidate, f);
    }
    if f.MissingSchema? {
      HasEntry(contract, SchemaName, f.name);
    }
  }

  // A finding is reported exactly when it is due: an endpoint, schema or field that only one side
  // has, an endpoint without a name, a field whose type or required flag differs.
  lemma ReportExact(c: ContractBody, endpoints: seq<Endpoint>, schemas: seq<Schema>, f: Finding)
    ensures f in Report(c, endpoints, schemas) <==>
      EndpointDue(c.endpoints, endpoints, f) || SchemaDue(c.schemas, schemas, f)
  {
    hide AllEndpointFindings, ExtraEndpoints, AllSchemaFindings, ExtraSchemas, EndpointDue, SchemaDue, Index;
    EndpointsReported(c.endpoints, endpoints, f);
    SchemasReported(c.schemas, schemas, f);
  }

  // Endpoints with a verb of one word share a key exactly when their paths agree, and their verbs up
  // to case, both without the white space around them.
  lemma SameKey(e: Endpoint, f: Endpoint)
    requires ' ' !in TrimSpace(e.verb) && ' ' !in TrimSpace(f.verb)
    ensures Key(e) == Key(f) <==>
      TrimSpace(e.path) == TrimSpace(f.path) && Upper(TrimSpace(e.verb)) == Upper(TrimSpace(f.verb))
  {
    hide TrimSpace;
    var a, b := Upper(TrimSpace(e.verb)), Upper(TrimSpace(f.verb));
    UpperOneWord(TrimSpace(e.verb));
    UpperOneWord(TrimSpace(f.verb));
    if Key(e) == Key(f) {
      assert Key(e)[|a|] == ' ' && Key(f)[|b|] == ' ';
      assert forall i | 0 <= i < |a| :: Key(e)[i] == a[i];
      assert forall i | 0 <= i < |b| :: Key(f)[i] == b[i];
      assert |a| == |b|;
      assert a == Key(e)[..|a|] == b;
      assert TrimSpace(e.path) == Key(e)[|a| + 1..];
      assert TrimSpace(f.path) == Key(f)[|b| + 1..];
    }
  }

  lemma UpperOneWord(s: string)
    requires ' ' !in s
    ensures ' ' !in Upper(s)
  {
    forall i | 0 <= i < |s| ensures Upper(s)[i] != ' ' {
      assert s[i] in s;
    }
  }

  // ----- Generated contracts ------------------------------------------------------------

  function ResourceOf(r: RequirementBody, p: PlanBody): (string, string) {
    var text := Lower(r.title + " " + r.content + " " + p.title + " " + Goal(p.title));
    if Contains(text, "todo") then ("Todo", "todos")
    else if Contains(text, "用户") || Contains(text, "user") then ("User", "users")
    else if Contains(text, "任务") || Contains(text, "task") then ("Task", "tasks")
    else ("Item", "items")
  }

  function Goal(title: string): string {
    "将需求“" + title + "”收敛为可执行的 Sprint 1 交付闭环。"
  }

  function StandardEndpoints(name: string, path: string): seq<Endpoint> {
    [Endpoint("List" + name, "GET", "/api/" + path),
     Endpoint("Get" + name, "GET", "/api/" + path + "/{id}"),
     Endpoint("Create" + name, "POST", "/api/" + path),
     Endpoint("Update" + name, "PUT", "/api/" + path + "/{id}"),
     Endpoint("Delete" + name, "DELETE", "/api/" + path + "/{id}")]
  }

  function StandardSchemas(name: string): seq<Schema> {
    [Schema(name,
            [Field("id", "string", true), Field("title", "string", true), Field("completed", "boolean", true),
             Field("createdAt", "string(date-time)", true)]),
     Schema(name + "Input", [Field("title", "string", true), Field("completed", "boolean", false)])]
  }

  function BuildContract(id: Id, p: Id, req: Requirement, plan: Plan, version: nat, now: Time): Contract {
    var (name, path) := ResourceOf(req.body, plan.body);
    var trimmed := TrimSpace(plan.body.title);
    var title := if trimmed == "" then name else trimmed;
    Record(id, p,
           ContractBody(req.id, plan.id, version, title + " Contract", StandardEndpoints(name, path),
                        StandardSchemas(name), now))
  }

  lemma StandardSchemasUnique(name: string)
    ensures UniqueSchemas(StandardSchemas(name))
  {
    var s := StandardSchemas(name);
    assert |s[0].name| != |s[1].name|;
    var f, g := s[0].fields, s[1].fields;
    assert |f[0].name| == 2 && |f[1].name| == 5 && f[2].name[1] == 'o' && f[3].name[1] == 'r';
    assert |g[0].name| == 5 && |g[1].name| == 9;
  }

  lemma NamedIfEachIs(s: seq<Endpoint>)
    requires forall i | 0 <= i < |s| :: s[i].name != "" && !IsSpace(s[i].name[0])
    ensures Named(s)
  {
    forall k | k in Index(s, Key) ensures !Blank(Index(s, Key)[k].name) {
      IndexKeys(s, Key, k);
      var i :| 0 <= i < |s| && s[i] == Index(s, Key)[k];
    }
  }

  lemma StandardEndpointsNamed(name: string, path: string)
    ensures Named(StandardEndpoints(name, path))
  {
    var s := StandardEndpoints(name, path);
    assert s[0].name[0] == 'L' && s[1].name[0] == 'G' && s[2].name[0] == 'C' && s[3].name[0] == 'U';
    assert s[4].name[0] == 'D';
    NamedIfEachIs(s);
  }

  // Every generated contract validates against itself.
  lemma BuiltContractConforms(id: Id, p: Id, req: Requirement, plan: Plan, version: nat, now: Time)
    ensures var c := BuildContract(id, p, req, plan, version, now).body;
      UniqueSchemas(c.schemas) && Report(c, c.endpoints, c.schemas) == []
  {
    var (name, path) := ResourceOf(req.body, plan.body);
    var c := BuildContract(id, p, req, plan, version, now).body;
    StandardSchemasUnique(name);
    StandardEndpointsNamed(name, path);
    NoFindingsMeans(c, c.endpoints, c.schemas);
  }
}
