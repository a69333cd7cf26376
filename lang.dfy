/** The language parser as the root module sees it: chosen for one Terraform
    version and optionally wired to a schema storage it reads from. How a
    compatible parser is found (lang.FindCompatibleParser) is a collaborator. */
module Lang {
  import opened SchemaStorage

  class LanguageParser {
    /** The Terraform version the parser was selected for. */
    const version: string
    var schemaReader: Storage?

    constructor (version: string)
      ensures this.version == version && schemaReader == null
    {
      this.version := version;
      schemaReader := null;
    }

    method SetSchemaReader(reader: Storage)
      modifies this`schemaReader
      ensures schemaReader == reader
    {
      schemaReader := reader;
    }
  }
}
