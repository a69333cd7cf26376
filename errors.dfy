/** The error values the language server's root-module and schema code can
    return. Errors produced by collaborators outside the model (discovery,
    the version query, the manifest parser, the parser lookup, the schema
    retrieval of the executor) are carried as `Collaborator` values. */
module Errors {

  datatype Error =
      // "schema temporarily unavailable": a read found the slot held by a refresh
    | SchemaTemporarilyUnavailable
      // NoSchemaAvailableErr: no snapshot has ever been stored
    | NoSchemaAvailable
      // SchemaUnavailableErr{kind, name}: kind is "provider", "resource" or "data"
    | SchemaUnavailable(kind: string, name: string)
      // the version string could not be parsed as a semantic version
    | MalformedVersion(version: string)
      // "no schema storage available for terraform <version>"
    | NoStorageForVersion(version: string)
      // "Unable to retrieve schemas for <dir>: <cause>"
    | SchemaRetrievalFailed(dir: string, cause: Error)
      // "parser is not loaded yet"
    | ParserNotLoaded
      // "no parser available"
    | NoParserAvailable
      // "terraform executor is not loaded yet"
    | ExecutorNotLoaded
      // "no terraform executor available"
    | NoExecutorAvailable
      // "cannot update schema as terraform executor is not available yet"
    | SchemaExecutorNotAvailable
      // "cannot update schema as schema cache is not available"
    | SchemaCacheNotAvailable
      // an error returned by a collaborator that is not part of this model
    | Collaborator(description: string)
}
