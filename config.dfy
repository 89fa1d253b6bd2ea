/** The agent's static configuration: the provider registry, the default model and the metadata. */
module Config {

  /** Provider alias to model identifier. */
  const ModelRegistry: map<string, string> := map[
    "anthropic" := "claude-sonnet-4-5-20250929",
    "claude" := "claude-sonnet-4-5-20250929",
    "gemini" := "gemini/gemini-1.5-pro-latest",
    "google" := "gemini/gemini-1.5-pro-latest"
  ]

  /** The alias an unknown or missing provider falls back to. */
  const DefaultProvider: string := "anthropic"

  /** The model of the default configuration. */
  const DefaultModel: string := "claude-sonnet-4-5-20250929"

  const MaxTokens: nat := 4096

  const AgentName: string := "Meeting Notes & Action Item Agent"
  const AgentVersion: string := "1.0.0"
  const AgentDescription: string :=
    "Parses meeting transcripts to extract structured summaries, decisions, "
    + "action items with owners and due dates, blockers, and follow-ups. "
    + "Optionally delivers results to Slack."

  /** The fallback provider is itself registered, and resolves to the default model. */
  lemma DefaultProviderRegistered()
    ensures DefaultProvider in ModelRegistry
    ensures ModelRegistry[DefaultProvider] == DefaultModel
  {
  }
}
