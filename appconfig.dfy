/**
 * Process-wide configuration of the app. The values read from config.toml
 * are opaque strings carried in a record that callers pass in explicitly;
 * the values written in the source itself are constants.
 */
module AppConfig {

  /** The values the app loads from config.toml at start-up. */
  datatype Settings = Settings(
    pineconeApiKey: string,
    pineconeEnv: string,
    kendraIndex: string,
    bedrockRegion: string,
    kendraRegion: string)

  /** The shared maximum output length handed to every Bedrock model. */
  const MaxTokens: int := 1024

  /** The Pinecone index holding the high-school democracy material. */
  const IndexPineconeHsDemocracy: string := "unidosus-edai-hsdemocracy"

  /** The Pinecone index meant for the University of Arizona material. */
  const IndexPineconeAsu: string := "unidosus-edai-asu"
}
