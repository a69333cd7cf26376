# terraform-ls root-module bookkeeping, modelled in Dafny

This project models four connected pieces of the Terraform language server:

- **Provider identities.** Two naming converters translate between a provider's short ("raw") name and its registry-qualified name.
  - The converter for Terraform 0.12 is the identity.
  - The converter for 0.13 and later adds or strips the namespace `registry.terraform.io/hashicorp/`.
- **Schema storage.** Each root module has a cache of provider schemas.
  - The cache holds at most one snapshot of `terraform providers schema -json`.
  - A one-unit semaphore guards it: a refresh waits for it, a read tries it once.
  - The snapshot can be queried for provider configuration, resource and data-source schemas, and enumerated.
- **Root-module lifecycle.** A root module is loaded by a pipeline of six stages:
  1. module manifest
  2. Terraform executor
  3. Terraform version
  4. schema storage
  5. language parser
  6. schema cache

  No stage stops the later ones. Stages 2, 5 and 6 have a "loaded" flag. Stages 2 and 5 set it even when they fail. Stage 6 sets it whenever stage 2 has run. The queries distinguish "not loaded yet" from "not available".
- **Opening a document.** The server warns when no root module, or more than one, claims the document's directory. Candidate paths are shown relative to the workspace root.

Modules and files:

| file | module | contents |
|---|---|---|
| wrappers.dfy | `Wrappers` | `Option`, `Result`, `Outcome` |
| errors.dfy | `Errors` | one `Error` datatype with a constructor per error the core reports |
| strings.dfy | `Strings` | `strings.TrimPrefix` and `strings.Join`, with their lemmas |
| provider_names.dfy | `ProviderNames` | `Converter` (`V012` / `V013`), `ProviderIdentity` |
| exec.dfy | `Exec` | the `Executor` settings the core writes (path, workdir, log path, timeout) |
| schema_storage.dfy | `SchemaStorage` | version rule, snapshot lookups and enumerations, class `Storage` |
| lang.dfy | `Lang` | the language parser with its schema reader |
| root_module.dfy | `RootModules` | class `RootModule` and its stages and queries |
| did_open.dfy | `DidOpen` | candidate path rendering and the open-document warning |

Collaborators the core calls but that are not part of this model are passed in as values:

- `Host` carries the functions:
  - path comparison (`pathEquals`) and `filepath.Join`;
  - `IsRoot` and `IsExternal` on manifest records;
  - the directory of a lock file (`rootModuleDirFromFilePath`);
  - manifest parsing (`ParseModuleManifestFromFile`);
  - version parsing (go-version);
  - `lang.FindCompatibleParser`.
- `ToolOutcomes` carries what running Terraform gave during one load:
  - discovery (`LookPath`);
  - `Version`;
  - `ProviderSchemas`.

The storage's retrieval takes the `ProviderSchemas` outcome as a parameter.

Go's map iteration order is unspecified. The lookups that scan the snapshot choose a key with `:|`, and the enumerations return a ghost `order` that records the visiting order. Their contracts hold for every order.

Two places in the code need a word:

- **Stage 4.** `schema.StorageFactory` takes a version string (internal/terraform/schema/schema_storage.go:43). Yet `findCompatibleStateStorage` calls `rm.newSchemaStorage()` with no argument, after `schema.SchemaSupportsTerraform` (internal/terraform/rootmodule/root_module.go:242-254). `SchemaSupportsTerraform` lives elsewhere in the schema package and is not modelled.
  - Here the model follows the evident intent: stage 4 is the rule of `NewStorageForVersion` followed by the construction of a storage with the chosen converter.
- **The `Providers` identity.** `Providers` puts the raw name into `ProviderIdentity.identity`, the field that `QualifiedName()` returns verbatim. The behaviour is kept as written and shown by `SchemaStorage.ProvidersIdentityIsRaw`.

## Model

| member | source | states |
|---|---|---|
| ProviderNames.Converter.QualifiedNameToRaw | internal/terraform/schema/provider_identity.go:29-43 | the raw name is never longer than the input; V012 returns the input; V013 returns it unchanged or with exactly the default namespace prefix removed |
| ProviderNames.Converter.RawToQualifiedName | internal/terraform/schema/provider_identity.go:35-50 | the result is the input, or (V013 only) the input placed in the default namespace |
| ProviderNames.V012IsIdentity | internal/terraform/schema/provider_identity.go:29-37 | the 0.12 converter returns its input unchanged in both directions |
| ProviderNames.V013Qualifies | internal/terraform/schema/provider_identity.go:45-50 | from 0.13 a name without `/` gets the default namespace, and a name with `/` is returned unchanged |
| ProviderNames.V013Strips | internal/terraform/schema/provider_identity.go:41-43 | from 0.13 the default namespace is stripped when it is a prefix, otherwise the name is unchanged |
| ProviderNames.DefaultBaseHasSeparator | internal/terraform/schema/provider_identity.go:45-50 | every name the default namespace qualifies contains `/` |
| ProviderNames.DefaultBaseNamesHaveSeparator | internal/terraform/schema/provider_identity.go:41-50 | a name starting with the default namespace contains `/` |
| ProviderNames.RawRoundTrip | internal/terraform/schema/provider_identity.go:41-50 | for a name without `/`, qualifying and converting back gives the name again, under either converter |
| ProviderNames.QualifyIdempotent | internal/terraform/schema/provider_identity.go:45-50 | qualifying an already qualified name changes nothing |
| ProviderNames.QualifiedRoundTrip | internal/terraform/schema/provider_identity.go:41-50 | a canonical qualified name is recovered from its raw form |
| ProviderNames.RoundTripOnlyCanonical | internal/terraform/schema/provider_identity.go:41-50 | a qualified name is recovered from its raw form exactly when it is canonical: under V013 a default-namespace name whose remainder holds `/`, or a name outside the default namespace without `/`, is not |
| ProviderNames.ProviderIdentity.String | internal/terraform/schema/provider_identity.go:12-14 | prints as the stored identity |
| ProviderNames.ProviderIdentity.RawName | internal/terraform/schema/provider_identity.go:16-18 | never longer than the stored identity; the identity itself, or (V013 only) the identity with the default namespace removed |
| ProviderNames.ProviderIdentity.QualifiedName | internal/terraform/schema/provider_identity.go:20-22 | the stored identity, unconverted |
| ProviderNames.IdentityOfRawName | internal/terraform/schema/provider_identity.go:12-22 | an identity built from a qualified raw name reports that raw name as `RawName()`; `String()` and `QualifiedName()` are the stored qualified name |
| SchemaStorage.ConverterForVersion | internal/terraform/schema/schema_storage.go:64-85 | V013 exactly for versions at or above 0.13.0, V012 exactly for [0.12.0, 0.13.0); an unparseable version fails as malformed, an older one with "no schema storage available" |
| SchemaStorage.Version0_11_14Unsupported | internal/terraform/schema/schema_storage.go:77-84 | 0.11.14 gets no storage |
| SchemaStorage.NewStorageForVersion | internal/terraform/schema/schema_storage.go:57-85 | a fresh storage with the chosen converter, no snapshot and a free slot, or the version rule's error |
| SchemaStorage.Storage.constructor | internal/terraform/schema/schema_storage.go:57-62 | a new storage has no snapshot and a free slot |
| SchemaStorage.Storage.ObtainSchemasForModule | internal/terraform/schema/schema_storage.go:93-116 | sets the executor's workdir to `dir`; on success the snapshot becomes the executor's document, on failure the old snapshot is kept and the error names `dir`; the slot is free on every exit |
| SchemaStorage.Storage.ReadSnapshot | internal/terraform/schema/schema_storage.go:118-130 | a held slot fails at once with "temporarily unavailable"; a free slot without snapshot fails with "no schema available"; otherwise the snapshot; the slot ends as it started |
| SchemaStorage.LookupProviderConfig | internal/terraform/schema/schema_storage.go:132-153 | succeeds exactly when the qualified name is a key with a config schema, and returns that schema; otherwise it returns SchemaUnavailable("provider", qualified name) |
| SchemaStorage.Storage.ProviderConfigSchema | internal/terraform/schema/schema_storage.go:132-153 | the read failures of `schema()`, otherwise the lookup of the converted name |
| SchemaStorage.EnumerateProviders | internal/terraform/schema/schema_storage.go:155-169 | one entry per provider key, no key twice, each entry with identity `QualifiedNameToRaw(key)` |
| SchemaStorage.Storage.Providers | internal/terraform/schema/schema_storage.go:155-169 | the read failures of `schema()`, otherwise the enumeration of the snapshot's providers |
| SchemaStorage.ProvidersListedOnce | internal/terraform/schema/schema_storage.go:155-169 | the listing has exactly as many entries as the snapshot has providers |
| SchemaStorage.ProvidersIdentityIsRaw | internal/terraform/schema/schema_storage.go:155-169 | from 0.13 a listed provider in the default namespace reports its bare name from `QualifiedName()` and `String()`, which differs from its key |
| SchemaStorage.ListedProviderConfigFound | internal/terraform/schema/schema_storage.go:132-169 | for a canonical key, passing the listed provider's `QualifiedName()` to the config lookup finds that key |
| SchemaStorage.ProvidersOfAwsAndNull | internal/terraform/schema/schema_storage.go:155-169 | a snapshot with the aws and null providers lists the raw names aws and null, once each |
| SchemaStorage.FindSchemaOfType | internal/terraform/schema/schema_storage.go:171-189 | returns the schema that some provider holds for the type; fails with SchemaUnavailable(kind, type) only when no provider has it |
| SchemaStorage.TypeLookupOfSoleProvider | internal/terraform/schema/schema_storage.go:171-189 | when one provider alone has the type, the lookup returns that provider's schema |
| SchemaStorage.Storage.ResourceSchema | internal/terraform/schema/schema_storage.go:171-189 | the read failures of `schema()`, otherwise the resource lookup over all providers |
| SchemaStorage.Storage.DataSourceSchema | internal/terraform/schema/schema_storage.go:214-232 | the read failures of `schema()`, otherwise the data-source lookup over all providers |
| SchemaStorage.EnumerateTypes | internal/terraform/schema/schema_storage.go:191-212 | one entry per (provider, type) pair of the snapshot, none twice, each with the unconverted provider key, the block description and an empty description kind |
| SchemaStorage.Storage.Resources | internal/terraform/schema/schema_storage.go:191-212 | the read failures of `schema()`, otherwise every (provider, resource type) pair |
| SchemaStorage.Storage.DataSources | internal/terraform/schema/schema_storage.go:234-255 | the read failures of `schema()`, otherwise every (provider, data source type) pair |
| SchemaStorage.ListedTypeIsFound | internal/terraform/schema/schema_storage.go:171-212 | every type a listing reports is found by the lookup of that kind |
| RootModules.Collect | internal/terraform/rootmodule/root_module.go:158-189 | the aggregated errors are never more than the stages |
| RootModules.CollectedErrors | internal/terraform/rootmodule/root_module.go:158-189 | an error is in the aggregate exactly when some stage returned it |
| RootModules.CollectNone | internal/terraform/rootmodule/root_module.go:158-189 | the aggregate is empty (nil) exactly when every stage succeeded |
| RootModules.CollectConcat | internal/terraform/rootmodule/root_module.go:158-189 | aggregating two runs of stages gives the first run's errors followed by the second's, so stage order is kept |
| RootModules.RootModule.constructor | internal/terraform/rootmodule/root_module.go:60-69 | a new root module has nothing discovered and nothing loaded |
| RootModules.RootModule.StartLoading | internal/terraform/rootmodule/root_module.go:142-149 | records the cancel function and runs the loading to completion: `LoadError()` is the aggregate of the six stage errors, empty exactly when every stage passed; each stage leaves the state its predicate describes; the three stage flags end set, the cancel function has fired, only the fields the stages write change, a new executor, storage or parser is freshly allocated, and a storage or executor that was replaced is left untouched; a failed discovery with no executor leaves "no terraform executor available" and the error in `LoadError()` |
| RootModules.RootModule.RunLoading | internal/terraform/rootmodule/root_module.go:146-148 | the goroutine: `LoadError()` becomes the aggregate of the six stage errors, with the same stage states and the same allocation and frame guarantees as `Load` |
| RootModules.RootModule.CancelLoading | internal/terraform/rootmodule/root_module.go:151-156 | clears the loading flag; fires the cancel function exactly when loading with one recorded |
| RootModules.RootModule.Load | internal/terraform/rootmodule/root_module.go:158-189 | runs the six stages in order whatever fails; the result is their errors in order; each stage leaves the state its predicate describes (a failed schema retrieval keeps the snapshot there was); loading is done afterwards; a new executor, storage or parser is freshly allocated, and a storage or executor that was replaced is left untouched, so a kept parser still reads its old snapshot |
| RootModules.RootModule.DiscoverTerraformExecutor | internal/terraform/rootmodule/root_module.go:195-225 | the flag is set on every path; a configured path bypasses discovery; a failed discovery keeps the old executor; a new executor works in the module path, with a log path only if non-empty and a timeout only if non-zero |
| RootModules.RootModule.DiscoverTerraformVersion | internal/terraform/rootmodule/root_module.go:227-240 | does nothing without an executor; an error keeps the old version; otherwise records the version |
| RootModules.RootModule.FindCompatibleStateStorage | internal/terraform/rootmodule/root_module.go:242-254 | does nothing without a version; otherwise a fresh storage with the converter for that version, or the version rule's error |
| RootModules.RootModule.FindCompatibleLangParser | internal/terraform/rootmodule/root_module.go:256-278 | the flag is set on every path; does nothing without a version; a found parser reads from the storage, or from nothing when there is none; a failure keeps the old parser |
| RootModules.RootModule.UpdateModuleManifest | internal/terraform/rootmodule/root_module.go:288-308 | no file changes nothing; otherwise the file is recorded, a parse error is returned with the old manifest kept, and success replaces the manifest |
| RootModules.RootModule.Parser | internal/terraform/rootmodule/root_module.go:310-323 | "not loaded yet" exactly when the flag is unset, "no parser available" exactly when set without a parser, otherwise the parser |
| RootModules.RootModule.TerraformExecutor | internal/terraform/rootmodule/root_module.go:357-367 | "not loaded yet" exactly when the flag is unset, "no executor available" exactly when set without an executor, otherwise the executor |
| RootModules.RootModule.ReferencesModulePath | internal/terraform/rootmodule/root_module.go:333-355 | true exactly when there is a manifest and one of its records, neither root nor external, joined to the manifest's root, equals the path |
| RootModules.RootModule.UpdateSchemaCache | internal/terraform/rootmodule/root_module.go:373-406 | without an executor stage it fails and leaves the flag; otherwise the flag is set; no file is a no-op; no storage is an error; otherwise the file is recorded and the retrieval runs in the lock file's module directory, its failure swallowed |
| RootModules.RootModule.PathsToWatch | internal/terraform/rootmodule/root_module.go:408-423 | exactly the known plugin lock file and module manifest, one entry each, the lock file first, unset ones omitted |
| RootModules.RootModule.IsKnownModuleManifestFile | internal/terraform/rootmodule/root_module.go:425-434 | true exactly when a watched path is the module manifest and the host's `pathEquals` relates it to `p` |
| RootModules.RootModule.IsKnownPluginLockFile | internal/terraform/rootmodule/root_module.go:436-445 | true exactly when a watched path is the plugin lock file and the host's `pathEquals` relates it to `p` |
| RootModules.RootModule.Path | internal/terraform/rootmodule/root_module.go:284-286 | the directory the module was created for; it is a constant, so no operation changes it |
| RootModules.RootModule.IsLoadingDone | internal/terraform/rootmodule/root_module.go:191-193 | true exactly when no load is in progress |
| RootModules.RootModule.LoadError | internal/terraform/rootmodule/root_module.go:280-282 | the errors the last load recorded |
| RootModules.RootModule.IsTerraformLoaded | internal/terraform/rootmodule/root_module.go:369-371 | true exactly when `TerraformExecutor()` no longer answers "not loaded yet" |
| RootModules.RootModule.IsParserLoaded | internal/terraform/rootmodule/root_module.go:325-327 | true exactly when `Parser()` no longer answers "not loaded yet" |
| RootModules.RootModule.IsSchemaLoaded | internal/terraform/rootmodule/root_module.go:329-331 | the schema stage's flag; in a valid root module it implies the executor stage has run |
| RootModules.RootModule.KnownFilesAreWatched | internal/terraform/rootmodule/root_module.go:408-445 | `p` is a known lock or manifest file exactly when the host's `pathEquals` relates one of the watched paths to it |
| Strings.TrimPrefix | langserver/handlers/did_open.go:81-82 | never longer than the input; shorter by exactly the prefix's length when the prefix is present; otherwise the input |
| Strings.TrimPrefixRejoins | langserver/handlers/did_open.go:81-82 | putting a present prefix back in front of the result gives the input; the result is always a suffix of the input |
| Strings.TrimPrefixOfConcat | langserver/handlers/did_open.go:81-82 | trimming a prefix undoes prepending it |
| Strings.Join | langserver/handlers/did_open.go:77 | the joined string is never shorter than its elements together |
| Strings.JoinLength | langserver/handlers/did_open.go:77 | a joined list is its elements plus one separator per neighbouring pair |
| Strings.JoinConcat | langserver/handlers/did_open.go:71-78 | joining two lists puts one separator between their joins |
| Strings.JoinHoldsElement | langserver/handlers/did_open.go:71-78 | every element appears in the joined string, at the returned offset |
| DidOpen.RenderCandidatePath | langserver/handlers/did_open.go:80-87 | never empty |
| DidOpen.RenderedIsSuffix | langserver/handlers/did_open.go:80-87 | the rendered path is "." or a suffix of the candidate's path |
| DidOpen.RenderRootDirectory | langserver/handlers/did_open.go:80-87 | the root itself, with or without a trailing separator, renders as "." |
| DidOpen.RenderChildOfRoot | langserver/handlers/did_open.go:80-87 | a module below the root renders as its relative path |
| DidOpen.RenderOutsideRoot | langserver/handlers/did_open.go:80-87 | a relative path not under the root renders unchanged |
| DidOpen.RenderAbsoluteOutsideRoot | langserver/handlers/did_open.go:80-87 | an absolute path not under the root loses only its leading separator (`/srv/mod` under `/work/app` is shown as `srv/mod`) |
| DidOpen.RenderExtensionOfRoot | langserver/handlers/did_open.go:80-87 | a path that is the root followed by text not starting with a separator renders as that text, for any root, the empty one included |
| DidOpen.RenderEmptyPath | langserver/handlers/did_open.go:80-87 | an empty path renders as "." |
| DidOpen.RenderSiblingOfRoot | langserver/handlers/did_open.go:80-87 | `/work/app-old` renders as `-old` under the root `/work/app`, since no separator is required after the root |
| DidOpen.RenderedPaths | langserver/handlers/did_open.go:71-78 | one rendered path per candidate, in candidate order |
| DidOpen.CandidatePaths | langserver/handlers/did_open.go:71-78 | the rendered paths of the candidates, in order, separated by ", " |
| DidOpen.CandidatePathsNameEachCandidate | langserver/handlers/did_open.go:71-78 | each candidate's rendered path (the i-th entry of `RenderedPaths`) can be found in the joined list, at the returned offset |
| DidOpen.CandidatePathsLength | langserver/handlers/did_open.go:71-78 | the joined list is the rendered paths plus one ", " per neighbouring pair |
| DidOpen.Notice.Message | langserver/handlers/did_open.go:46-61 | the "no root module" text begins with the fixed head and the file name; the "alternative root modules" text begins with the file name and the parenthesised alternatives and ends with the picked path |
| DidOpen.NoRootMessageNamesFile | langserver/handlers/did_open.go:46-50 | two "no root module" texts are equal only for the same file name |
| DidOpen.DidOpenNotice | langserver/handlers/did_open.go:40-68 | "no root module" exactly when the walker has finished and there is no candidate; "alternative root modules" exactly when there is more than one candidate, whatever the walker state, naming the first as picked and the rest as alternatives; nothing otherwise |

## Left out

- Concurrency is not modelled.
  - The goroutine of `StartLoading` does not run concurrently: `RootModules.RootModule.StartLoading` runs its body, `RunLoading`, to completion before returning.
  - The two `sync.RWMutex` locks and the semaphore's blocking wait are not modelled.
- SchemaStorage.Storage.ObtainSchemasForModule: the blocking `sem.Acquire` is the precondition that the slot is free. Its error path cannot occur with `context.Background()` and is not modelled.
- The context's cancel function is two booleans: one says it is recorded, the other that it has fired. Cancellation does not interrupt a stage.
- `NewRootModule`, `discoverCaches`, `discoverPluginCache`, `discoverModuleCache`, `findFile` and `newFile` are filesystem discovery and are not modelled. Lock and manifest files are represented by their paths.
- Running Terraform is not modelled: discovery, `Version` and `ProviderSchemas` are outcomes passed in.
- The implementations of the `Host` functions are not modelled: `ParseModuleManifestFromFile`, `pathEquals`, `filepath.Join`, `IsRoot`, `IsExternal`, `rootModuleDirFromFilePath`, `lang.FindCompatibleParser` and `schema.SchemaSupportsTerraform`.
- Versions are parsed (major, minor, patch) triples. Pre-release and metadata ordering of go-version are not modelled; a failed parse is the `MalformedVersion` error.
- Loggers, `SetLogger`, `Printf`, `time.Now` and `time.Since` are dropped.
- Schema blocks are opaque apart from their description. Resource and data-source entries never receive a description kind, as in the source.
- The executor's timeout is an integer. Go's `time.Duration` unit is not modelled.
- The path separator is `/` (POSIX).
- `LoadError()` is the list of stage errors; the empty list stands for the nil error.
- DidOpen.DidOpenNotice returns the warning instead of pushing `window/showMessage`, and does not model the log line written while the walker is still walking. Opening the file, the context lookups and the file name computation (`f.Filename()`) are not modelled: the file name is a parameter.
- `langserver/handlers/list_root_modules.go` is not part of this model.
- RootModules.RootModule.Load states each executor's log path, timeout and workdir only through the contracts of `DiscoverTerraformExecutor` and `UpdateSchemaCache`, not again in its own postcondition.
