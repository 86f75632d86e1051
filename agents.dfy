/** The two configured agent profiles (the fields the store reads) and the
    `currentAgentConfig` getter. */
module Agents {
  import opened Wrappers

  datatype AgentProfile = AgentProfile(
    id: string,
    name: string,
    apiType: string)

  const AdvancedApi := "advanced-agent"
  const ChatApi := "chat"

  /** The store's `agentTypes`, which no action changes. */
  const AgentTypes: seq<AgentProfile> := [
    AgentProfile("super-agent", "Super Agent", AdvancedApi),
    AgentProfile("travel-agent", "Travel Assistant", ChatApi)
  ]

  const DefaultAgent := "super-agent"

  function FindAgent(agents: seq<AgentProfile>, id: string): (r: Option<nat>)
    ensures r.Some? ==> r.value < |agents| && agents[r.value].id == id
    ensures r.Some? ==> forall k :: 0 <= k < r.value ==> agents[k].id != id
    ensures r.None? <==> forall k :: 0 <= k < |agents| ==> agents[k].id != id
    decreases |agents|
  {
    if |agents| == 0 then None
    else if agents[0].id == id then Some(0)
    else
      match FindAgent(agents[1..], id)
      case Some(k) => Some(k + 1)
      case None => None
  }

  /** `agentTypes.find(agent => agent.id === selectedAgent) || agentTypes[0]`. */
  function CurrentAgentConfig(selectedAgent: string): (p: AgentProfile)
    ensures p in AgentTypes
    ensures p.apiType == AdvancedApi || p.apiType == ChatApi
    ensures (exists k :: 0 <= k < |AgentTypes| && AgentTypes[k].id == selectedAgent) <==> p.id == selectedAgent
    ensures p.id != selectedAgent ==> p == AgentTypes[0]
  {
    match FindAgent(AgentTypes, selectedAgent)
    case Some(k) => AgentTypes[k]
    case None => AgentTypes[0]
  }
}
