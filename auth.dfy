/** The API-key policy table, loaded once from configuration and never changed. */
module Auth {
  import opened Records

  /** What a key may do: every guild when `global`, otherwise only the listed guilds. */
  datatype Policy = Policy(global: bool, guilds: seq<string>)

  /** Key string to policy; a key absent from the map has no policy. */
  type Tokens = map<string, Policy>

  /** The `Api-Key` header is present and names a configured key. */
  predicate KnownKey(tokens: Tokens, apiKey: Option<string>) {
    apiKey.Some? && apiKey.value in tokens
  }

  function PolicyOf(tokens: Tokens, apiKey: Option<string>): Policy
    requires KnownKey(tokens, apiKey)
  {
    tokens[apiKey.value]
  }

  /** The guild-scope check: a global key reaches every guild, any other key only its own list. */
  function MayAccess(p: Policy, guild: string): (ok: bool)
    ensures p.global ==> ok
    ensures !p.global ==> (ok <==> guild in p.guilds)
  {
    p.global || guild in p.guilds
  }
}
