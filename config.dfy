/** Process configuration read from the environment, with per-setting defaults. */
module Config {
  import opened Base

  datatype Settings = Settings(
    port: string,
    dbHost: string,
    dbPort: string,
    dbUser: string,
    dbPassword: string,
    dbName: string,
    chatModel: string,
    embeddingModel: string)

  const DefaultPort := "4000"
  const DefaultDbHost := "localhost"
  const DefaultDbPort := "5432"
  const DefaultChatModel := "deepseek-r1:14b"
  const DefaultEmbeddingModel := "deekseek-r1:7b"

  /** The value unless it is empty, in which case the fallback. */
  function DefaultString(value: string, fallback: string): (r: string)
    ensures r == fallback <==> (value == "" || value == fallback)
    ensures value != "" ==> r == value
    ensures r == "" ==> value == "" && fallback == ""
  {
    if value == "" then fallback else value
  }

  lemma DefaultStringIdempotent(value: string, fallback: string)
    ensures DefaultString(DefaultString(value, fallback), fallback) == DefaultString(value, fallback)
  {
  }

  /** LoadConfig: five settings fall back to defaults, the three database
      credentials are passed through as they are. It has no error path. */
  function LoadConfig(env: Env): (c: Settings)
    ensures c.port != "" && c.dbHost != "" && c.dbPort != ""
    ensures c.chatModel != "" && c.embeddingModel != ""
    ensures c.dbUser == Getenv(env, "DB_USER")
    ensures c.dbPassword == Getenv(env, "DB_PASSWORD")
    ensures c.dbName == Getenv(env, "DB_NAME")
    ensures Getenv(env, "PORT") == "" ==> c.port == DefaultPort
    ensures Getenv(env, "PORT") != "" ==> c.port == Getenv(env, "PORT")
    ensures Getenv(env, "DB_HOST") == "" ==> c.dbHost == DefaultDbHost
    ensures Getenv(env, "DB_HOST") != "" ==> c.dbHost == Getenv(env, "DB_HOST")
    ensures Getenv(env, "DB_PORT") == "" ==> c.dbPort == DefaultDbPort
    ensures Getenv(env, "DB_PORT") != "" ==> c.dbPort == Getenv(env, "DB_PORT")
    ensures Getenv(env, "CHAT_MODEL") == "" ==> c.chatModel == DefaultChatModel
    ensures Getenv(env, "CHAT_MODEL") != "" ==> c.chatModel == Getenv(env, "CHAT_MODEL")
    ensures Getenv(env, "EMBEDDING_MODEL") == "" ==> c.embeddingModel == DefaultEmbeddingModel
    ensures Getenv(env, "EMBEDDING_MODEL") != "" ==> c.embeddingModel == Getenv(env, "EMBEDDING_MODEL")
  {
    Settings(
      port := DefaultString(Getenv(env, "PORT"), DefaultPort),
      dbHost := DefaultString(Getenv(env, "DB_HOST"), DefaultDbHost),
      dbPort := DefaultString(Getenv(env, "DB_PORT"), DefaultDbPort),
      dbUser := Getenv(env, "DB_USER"),
      dbPassword := Getenv(env, "DB_PASSWORD"),
      dbName := Getenv(env, "DB_NAME"),
      chatModel := DefaultString(Getenv(env, "CHAT_MODEL"), DefaultChatModel),
      embeddingModel := DefaultString(Getenv(env, "EMBEDDING_MODEL"), DefaultEmbeddingModel))
  }

  /** With an empty environment every defaulted setting takes its default. */
  lemma LoadConfigDefaults()
    ensures LoadConfig(map[]) == Settings("4000", "localhost", "5432", "", "", "", "deepseek-r1:14b", "deekseek-r1:7b")
  {
  }
}
