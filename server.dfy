/** The listening port chosen in main. */
module Server {

  const DefaultPort: string := "8080"

  /** The port from the PORT environment variable (os.Getenv gives "" when unset), defaulting to 8080. */
  function ListenPort(env: string): (port: string)
    ensures port != ""
    ensures env != "" ==> port == env
    ensures env == "" ==> port == DefaultPort
  {
    if env == "" then DefaultPort else env
  }
}
