/** The per-root-module cache of provider schemas: at most one snapshot of the
    document that `terraform providers schema -json` returns, guarded by a
    one-unit semaphore that writers wait for and readers only try. */
module SchemaStorage {
  import opened Wrappers
  import opened Errors
  import opened ProviderNames
  import opened Exec
  import opened Strings

  /** A parsed semantic version. Pre-release and metadata parts are not
      modelled; parsing itself is a collaborator (`parseVersion`). */
  datatype Version = Version(major: nat, minor: nat, patch: nat)

  /** go-version's GreaterThanOrEqual on release versions. */
  predicate AtLeast(v: Version, w: Version)
  {
    v.major > w.major ||
    (v.major == w.major && (v.minor > w.minor || (v.minor == w.minor && v.patch >= w.patch)))
  }

  const V0_13: Version := Version(0, 13, 0)
  const V0_12: Version := Version(0, 12, 0)

  /** The decision of NewStorageForVersion: which converter a storage for
      version `vs` gets, or why there is none. */
  function ConverterForVersion(vs: string, parsed: Option<Version>): (r: Result<Converter, Error>)
    ensures parsed.None? ==> r == Failure(MalformedVersion(vs))
    ensures r == Success(V013) <==> parsed.Some? && (parsed.value.major > 0 || parsed.value.minor >= 13)
    ensures r == Success(V012) <==> parsed.Some? && parsed.value.major == 0 && parsed.value.minor == 12
    ensures parsed.Some? && r.Failure? ==> r.error == NoStorageForVersion(vs)
  {
    match parsed
    case None => Failure(MalformedVersion(vs))
    case Some(v) =>
      if AtLeast(v, V0_13) then Success(V013)
      else if AtLeast(v, V0_12) then Success(V012)
      else Failure(NoStorageForVersion(vs))
  }

  /** Terraform 0.11.14 predates every supported naming scheme. */
  lemma Version0_11_14Unsupported()
    ensures ConverterForVersion("0.11.14", Some(Version(0, 11, 14)))
         == Failure(NoStorageForVersion("0.11.14"))
  {
  }

  /** tfjson.SchemaBlock: only the description is used; attributes and
      nested blocks stay opaque. */
  datatype Block = Block(description: string, descriptionKind: string)

  /** tfjson.Schema */
  datatype Schema = Schema(version: nat, block: Block)

  /** tfjson.ProviderSchema: the config schema may be missing (nil). */
  datatype ProviderSchema = ProviderSchema(
    configSchema: Option<Schema>,
    resourceSchemas: map<string, Schema>,
    dataSourceSchemas: map<string, Schema>)

  /** tfjson.ProviderSchemas.Schemas: qualified provider name to its schemas. */
  type ProviderSchemas = map<string, ProviderSchema>

  /** Resources and data sources are looked up and listed the same way;
      the kind picks the map and the label of SchemaUnavailableErr. */
  datatype BlockKind = ResourceKind | DataSourceKind {

    function Label(): string
    {
      match this
      case ResourceKind => "resource"
      case DataSourceKind => "data"
    }

    function SchemasIn(p: ProviderSchema): map<string, Schema>
    {
      match this
      case ResourceKind => p.resourceSchemas
      case DataSourceKind => p.dataSourceSchemas
    }
  }

  /** Resource and DataSource share this shape. DescriptionKind is never
      filled in by the listing code, so it stays the empty string. */
  datatype TypeEntry = TypeEntry(
    name: string,
    provider: ProviderIdentity,
    description: string,
    descriptionKind: string)

  type Resource = TypeEntry
  type DataSource = TypeEntry

  /** The lookup of ProviderConfigSchema once a snapshot is in hand. */
  function LookupProviderConfig(doc: ProviderSchemas, c: Converter, rawIdentity: string): (r: Result<Schema, Error>)
    ensures var q := c.RawToQualifiedName(rawIdentity);
      && (r.Success? <==> q in doc && doc[q].configSchema.Some?)
      && (r.Success? ==> r.value == doc[q].configSchema.value)
      && (r.Failure? ==> r.error == SchemaUnavailable("provider", q))
  {
    var name := ProviderIdentity(c.RawToQualifiedName(rawIdentity), c);
    if name.QualifiedName() !in doc then
      Failure(SchemaUnavailable("provider", name.QualifiedName()))
    else if doc[name.QualifiedName()].configSchema.None? then
      Failure(SchemaUnavailable("provider", name.QualifiedName()))
    else
      Success(doc[name.QualifiedName()].configSchema.value)
  }

  /** What ResourceSchema and DataSourceSchema promise: some provider that
      has the type supplies the result, and the lookup fails only when no
      provider has it. Which provider wins is not specified (Go map order;
      provider aliases are not resolved). */
  ghost predicate IsTypeLookup(doc: ProviderSchemas, k: BlockKind, name: string, r: Result<Schema, Error>)
  {
    && (r.Success? ==>
          exists p :: p in doc && name in k.SchemasIn(doc[p]) && k.SchemasIn(doc[p])[name] == r.value)
    && (r.Failure? ==>
          r.error == SchemaUnavailable(k.Label(), name) &&
          forall p :: p in doc ==> name !in k.SchemasIn(doc[p]))
  }

  /** The `range ps.Schemas` search of ResourceSchema / DataSourceSchema. */
  method FindSchemaOfType(doc: ProviderSchemas, k: BlockKind, name: string) returns (r: Result<Schema, Error>)
    ensures IsTypeLookup(doc, k, name, r)
  {
    var remaining := doc.Keys;
    while remaining != {}
      invariant remaining <= doc.Keys
      invariant forall p :: p in doc && p !in remaining ==> name !in k.SchemasIn(doc[p])
      decreases remaining
    {
      var p :| p in remaining;
      if name in k.SchemasIn(doc[p]) {
        return Success(k.SchemasIn(doc[p])[name]);
      }
      remaining := remaining - {p};
    }
    return Failure(SchemaUnavailable(k.Label(), name));
  }

  predicate NoDuplicates<T(==)>(s: seq<T>)
  {
    forall i, j :: 0 <= i < j < |s| ==> s[i] != s[j]
  }

  /** What Providers returns for a snapshot: one entry per provider key, in
      some order, each holding QualifiedNameToRaw(key) as its identity. */
  ghost predicate ListsProviders(doc: ProviderSchemas, c: Converter, ids: seq<ProviderIdentity>, order: seq<string>)
  {
    && |ids| == |order|
    && NoDuplicates(order)
    && (forall key :: key in order <==> key in doc)
    && (forall i :: 0 <= i < |order| ==> ids[i] == ProviderIdentity(c.QualifiedNameToRaw(order[i]), c))
  }

  /** The loop of Providers. `order` is the (unspecified) order in which the
      keys were visited. */
  method EnumerateProviders(doc: ProviderSchemas, c: Converter) returns (ids: seq<ProviderIdentity>, ghost order: seq<string>)
    ensures ListsProviders(doc, c, ids, order)
  {
    ids, order := [], [];
    var remaining := doc.Keys;
    while remaining != {}
      invariant remaining <= doc.Keys
      invariant |ids| == |order| && NoDuplicates(order)
      invariant forall key :: key in order <==> key in doc && key !in remaining
      invariant forall i :: 0 <= i < |order| ==> ids[i] == ProviderIdentity(c.QualifiedNameToRaw(order[i]), c)
      decreases remaining
    {
      var key :| key in remaining;
      ids := ids + [ProviderIdentity(c.QualifiedNameToRaw(key), c)];
      order := order + [key];
      remaining := remaining - {key};
    }
  }

  /** The entry Resources / DataSources emit for one (provider, type) pair:
      the provider key goes into the identity unconverted. */
  function EntryFor(doc: ProviderSchemas, c: Converter, k: BlockKind, provider: string, name: string): TypeEntry
    requires provider in doc && name in k.SchemasIn(doc[provider])
  {
    TypeEntry(name, ProviderIdentity(provider, c), k.SchemasIn(doc[provider])[name].block.description, "")
  }

  /** What Resources / DataSources return: one entry per (provider, type)
      pair of the snapshot, in some order. */
  ghost predicate ListsTypes(doc: ProviderSchemas, c: Converter, k: BlockKind, entries: seq<TypeEntry>, order: seq<(string, string)>)
  {
    && |entries| == |order|
    && NoDuplicates(order)
    && (forall pair :: pair in order <==> pair.0 in doc && pair.1 in k.SchemasIn(doc[pair.0]))
    && (forall i :: 0 <= i < |order| ==>
          && order[i].0 in doc && order[i].1 in k.SchemasIn(doc[order[i].0])
          && entries[i] == EntryFor(doc, c, k, order[i].0, order[i].1))
  }

  /** The nested loops of Resources and DataSources. */
  method EnumerateTypes(doc: ProviderSchemas, c: Converter, k: BlockKind) returns (entries: seq<TypeEntry>, ghost order: seq<(string, string)>)
    ensures ListsTypes(doc, c, k, entries, order)
  {
    entries, order := [], [];
    var providers := doc.Keys;
    while providers != {}
      invariant providers <= doc.Keys
      invariant |entries| == |order| && NoDuplicates(order)
      invariant forall pair :: pair in order <==>
        pair.0 in doc && pair.1 in k.SchemasIn(doc[pair.0]) && pair.0 !in providers
      invariant forall i :: 0 <= i < |order| ==>
        && order[i].0 in doc && order[i].1 in k.SchemasIn(doc[order[i].0])
        && entries[i] == EntryFor(doc, c, k, order[i].0, order[i].1)
      decreases providers
    {
      var provider :| provider in providers;
      var types := k.SchemasIn(doc[provider]);
      var names := types.Keys;
      while names != {}
        invariant names <= types.Keys
        invariant |entries| == |order| && NoDuplicates(order)
        invariant forall pair :: pair in order <==>
          pair.0 in doc && pair.1 in k.SchemasIn(doc[pair.0]) &&
          (pair.0 !in providers || (pair.0 == provider && pair.1 !in names))
        invariant forall i :: 0 <= i < |order| ==>
          && order[i].0 in doc && order[i].1 in k.SchemasIn(doc[order[i].0])
          && entries[i] == EntryFor(doc, c, k, order[i].0, order[i].1)
        decreases names
      {
        var name :| name in names;
        entries := entries + [EntryFor(doc, c, k, provider, name)];
        order := order + [(provider, name)];
        names := names - {name};
      }
      providers := providers - {provider};
    }
  }

  /** The common failure behaviour of every read: a held slot fails fast,
      and a free slot without a snapshot reports that none is available. */
  predicate ReadFailsFast<T>(wasHeld: bool, ps: Option<ProviderSchemas>, r: Result<T, Error>)
  {
    && (wasHeld ==> r == Failure(SchemaTemporarilyUnavailable))
    && (!wasHeld && ps.None? ==> r == Failure(NoSchemaAvailable))
  }

  class Storage {
    const converter: Converter
    /** The snapshot; None until a retrieval has succeeded. */
    var ps: Option<ProviderSchemas>
    /** The one-unit semaphore: true while a refresh or a read holds it. */
    var held: bool

    /** newStorage, with the converter NewStorageForVersion assigns. */
    constructor (converter: Converter)
      ensures this.converter == converter
      ensures ps.None? && !held
    {
      this.converter := converter;
      ps := None;
      held := false;
    }

    /** Refresh the snapshot from the executor. The blocking Acquire has
        returned once this runs, so the slot is free on entry; it is
        released on every path. `fetched` is what tf.ProviderSchemas gave. */
    method ObtainSchemasForModule(tf: Executor, dir: string, fetched: Result<ProviderSchemas, Error>)
      returns (err: Option<Error>)
      requires !held
      modifies this`ps, this`held, tf`workdir
      ensures !held
      ensures tf.workdir == dir
      ensures fetched.Success? ==> err.None? && ps == Some(fetched.value)
      ensures fetched.Failure? ==> err == Some(SchemaRetrievalFailed(dir, fetched.error)) && ps == old(ps)
    {
      held := true;
      tf.SetWorkdir(dir);
      match fetched
      case Failure(e) =>
        held := false;
        return Some(SchemaRetrievalFailed(dir, e));
      case Success(doc) =>
        ps := Some(doc);
        held := false;
        return None;
    }

    /** schema(): try the slot once, never wait. */
    method ReadSnapshot() returns (r: Result<ProviderSchemas, Error>)
      modifies this`held
      ensures held == old(held)
      ensures ReadFailsFast(old(held), ps, r)
      ensures !old(held) && ps.Some? ==> r == Success(ps.value)
    {
      if held {
        return Failure(SchemaTemporarilyUnavailable);
      }
      held := true;
      if ps.None? {
        r := Failure(NoSchemaAvailable);
      } else {
        r := Success(ps.value);
      }
      held := false;
    }

    method ProviderConfigSchema(rawIdentity: string) returns (r: Result<Schema, Error>)
      modifies this`held
      ensures held == old(held)
      ensures ReadFailsFast(old(held), ps, r)
      ensures !old(held) && ps.Some? ==> r == LookupProviderConfig(ps.value, converter, rawIdentity)
    {
      var snapshot := ReadSnapshot();
      match snapshot
      case Failure(e) => return Failure(e);
      case Success(doc) => return LookupProviderConfig(doc, converter, rawIdentity);
    }

    method Providers() returns (r: Result<seq<ProviderIdentity>, Error>, ghost order: seq<string>)
      modifies this`held
      ensures held == old(held)
      ensures ReadFailsFast(old(held), ps, r)
      ensures !old(held) && ps.Some? ==> r.Success? && ListsProviders(ps.value, converter, r.value, order)
    {
      var snapshot := ReadSnapshot();
      match snapshot
      case Failure(e) =>
        return Failure(e), [];
      case Success(doc) =>
        var ids;
        ids, order := EnumerateProviders(doc, converter);
        return Success(ids), order;
    }

    method ResourceSchema(rType: string) returns (r: Result<Schema, Error>)
      modifies this`held
      ensures held == old(held)
      ensures ReadFailsFast(old(held), ps, r)
      ensures !old(held) && ps.Some? ==> IsTypeLookup(ps.value, ResourceKind, rType, r)
    {
      var snapshot := ReadSnapshot();
      match snapshot
      case Failure(e) => return Failure(e);
      case Success(doc) => r := FindSchemaOfType(doc, ResourceKind, rType);
    }

    method Resources() returns (r: Result<seq<Resource>, Error>, ghost order: seq<(string, string)>)
      modifies this`held
      ensures held == old(held)
      ensures ReadFailsFast(old(held), ps, r)
      ensures !old(held) && ps.Some? ==> r.Success? && ListsTypes(ps.value, converter, ResourceKind, r.value, order)
    {
      var snapshot := ReadSnapshot();
      match snapshot
      case Failure(e) =>
        return Failure(e), [];
      case Success(doc) =>
        var entries;
        entries, order := EnumerateTypes(doc, converter, ResourceKind);
        return Success(entries), order;
    }

    method DataSourceSchema(dsType: string) returns (r: Result<Schema, Error>)
      modifies this`held
      ensures held == old(held)
      ensures ReadFailsFast(old(held), ps, r)
      ensures !old(held) && ps.Some? ==> IsTypeLookup(ps.value, DataSourceKind, dsType, r)
    {
      var snapshot := ReadSnapshot();
      match snapshot
      case Failure(e) => return Failure(e);
      case Success(doc) => r := FindSchemaOfType(doc, DataSourceKind, dsType);
    }

    method DataSources() returns (r: Result<seq<DataSource>, Error>, ghost order: seq<(string, string)>)
      modifies this`held
      ensures held == old(held)
      ensures ReadFailsFast(old(held), ps, r)
      ensures !old(held) && ps.Some? ==> r.Success? && ListsTypes(ps.value, converter, DataSourceKind, r.value, order)
    {
      var snapshot := ReadSnapshot();
      match snapshot
      case Failure(e) =>
        return Failure(e), [];
      case Success(doc) =>
        var entries;
        entries, order := EnumerateTypes(doc, converter, DataSourceKind);
        return Success(entries), order;
    }
  }

  /** A sequence without duplicates has as many distinct elements as entries. */
  lemma {:induction false} DistinctElementCount<T>(s: seq<T>)
    requires NoDuplicates(s)
    ensures |set x | x in s| == |s|
  {
    if s != [] {
      DistinctElementCount(s[1..]);
      assert (set x | x in s) == {s[0]} + (set x | x in s[1..]);
      assert s[0] !in (set x | x in s[1..]) by {
        forall j | 0 <= j < |s[1..]| ensures s[1..][j] != s[0] {
          assert s[1..][j] == s[j + 1];
        }
      }
    }
  }

  /** Providers returns exactly one entry per provider of the snapshot. */
  lemma ProvidersListedOnce(doc: ProviderSchemas, c: Converter, ids: seq<ProviderIdentity>, order: seq<string>)
    requires ListsProviders(doc, c, ids, order)
    ensures |ids| == |doc|
  {
    DistinctElementCount(order);
    assert (set x | x in order) == doc.Keys;
  }

  /** Providers and ProviderConfigSchema agree: the name Providers lists for
      a canonical key (see ProviderNames.Canonical) looks that very key up.
      Because the listed identity holds the raw name, its QualifiedName() is
      what has to be passed back. */
  lemma ListedProviderConfigFound(doc: ProviderSchemas, c: Converter, ids: seq<ProviderIdentity>, order: seq<string>, i: int)
    requires ListsProviders(doc, c, ids, order)
    requires 0 <= i < |ids| && Canonical(c, order[i])
    ensures order[i] in doc
    ensures var key := order[i];
      LookupProviderConfig(doc, c, ids[i].QualifiedName()) ==
        if doc[key].configSchema.Some? then Success(doc[key].configSchema.value)
        else Failure(SchemaUnavailable("provider", key))
  {
    assert order[i] in order;
    QualifiedRoundTrip(c, order[i]);
  }

  /** Providers stores the raw name where ProviderIdentity expects the
      qualified one: from 0.13, the entry for a key in the default namespace
      reports the bare name from QualifiedName() and String(), not the key. */
  lemma ProvidersIdentityIsRaw(doc: ProviderSchemas, ids: seq<ProviderIdentity>, order: seq<string>, i: int, name: string)
    requires ListsProviders(doc, V013, ids, order)
    requires 0 <= i < |ids| && order[i] == DefaultBaseIdentity + name && '/' !in name
    ensures ids[i].QualifiedName() == ids[i].String() == ids[i].RawName() == name
    ensures ids[i].QualifiedName() != order[i]
  {
    TrimPrefixOfConcat(DefaultBaseIdentity, name);
    DefaultBaseNamesHaveSeparator(name);
  }

  /** The listing for a snapshot holding the two providers
      registry.terraform.io/hashicorp/aws and .../null reports the raw names
      aws and null, once each, in either order. */
  lemma ProvidersOfAwsAndNull(doc: ProviderSchemas, ids: seq<ProviderIdentity>, order: seq<string>)
    requires doc.Keys == {DefaultBaseIdentity + "aws", DefaultBaseIdentity + "null"}
    requires ListsProviders(doc, V013, ids, order)
    ensures |ids| == 2
    ensures {ids[0].RawName(), ids[1].RawName()} == {"aws", "null"}
  {
    var aws, nul := DefaultBaseIdentity + "aws", DefaultBaseIdentity + "null";
    assert aws != nul by {
      assert aws[|DefaultBaseIdentity|] != nul[|DefaultBaseIdentity|];
    }
    assert aws in order && nul in order;
    ProvidersListedOnce(doc, V013, ids, order);
    assert |doc| == |doc.Keys| == 2;
    assert {order[0], order[1]} == {aws, nul} by {
      assert order[0] in doc && order[1] in doc && order[0] != order[1];
    }
    TrimPrefixOfConcat(DefaultBaseIdentity, "aws");
    TrimPrefixOfConcat(DefaultBaseIdentity, "null");
  }

  /** Every type that Resources / DataSources lists is found by
      ResourceSchema / DataSourceSchema. */
  lemma ListedTypeIsFound(doc: ProviderSchemas, c: Converter, k: BlockKind, entries: seq<TypeEntry>, order: seq<(string, string)>,
                          i: int, r: Result<Schema, Error>)
    requires ListsTypes(doc, c, k, entries, order) && 0 <= i < |entries|
    requires IsTypeLookup(doc, k, entries[i].name, r)
    ensures r.Success?
  {
    var p := order[i].0;
    assert p in doc && entries[i].name in k.SchemasIn(doc[p]);
  }

  /** When exactly one provider has a type, the lookup is determined: it
      returns that provider's schema. */
  lemma TypeLookupOfSoleProvider(doc: ProviderSchemas, k: BlockKind, name: string, p: string, r: Result<Schema, Error>)
    requires p in doc && name in k.SchemasIn(doc[p])
    requires forall q :: q in doc && q != p ==> name !in k.SchemasIn(doc[q])
    requires IsTypeLookup(doc, k, name, r)
    ensures r == Success(k.SchemasIn(doc[p])[name])
  {
  }

  /** A storage for version `vs`, or the reason there is none. */
  method NewStorageForVersion(vs: string, parseVersion: string -> Option<Version>) returns (r: Result<Storage, Error>)
    ensures ConverterForVersion(vs, parseVersion(vs)).Failure? ==>
      r == Failure(ConverterForVersion(vs, parseVersion(vs)).error)
    ensures ConverterForVersion(vs, parseVersion(vs)).Success? ==>
      && r.Success? && fresh(r.value)
      && r.value.converter == ConverterForVersion(vs, parseVersion(vs)).value
      && r.value.ps.None? && !r.value.held
  {
    match ConverterForVersion(vs, parseVersion(vs))
    case Failure(e) =>
      return Failure(e);
    case Success(c) =>
      var s := new Storage(c);
      return Success(s);
  }
}
