/** The read-only method registry entry resolved for a method reference. */
module Methods {

  /** Agent variants a method may support. */
  datatype Agent = CfengineCommunity | Dsc

  /** Metadata for one method of the standard library: its human name,
      the name of its primary-key ("class") parameter, its formal
      parameter names in signature order, the agent bundle implementing it
      and the set of agents that support it. */
  datatype MethodInfo = MethodInfo(
    name: string,
    classParameter: string,
    parameter: seq<string>,
    bundleName: string,
    agentSupport: set<Agent>)

  /** Whether the classic (community) agent can run the method. */
  predicate IsSupported(info: MethodInfo)
  {
    CfengineCommunity in info.agentSupport
  }
}
