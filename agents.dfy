/**
 The fixed catalog of agent types known to the analytics service, and the membership check that
 Validate runs over a configured list of labels.
 */
module Agents {
  import opened Wrappers

  /** An agent type is a plain label, such as "AI Assistant". */
  type AgentType = string

  /** Every documented agent type, in catalog order; `agent_types *` expands to exactly this list. */
  const Catalog: seq<AgentType> := [
    "AI Assistant",
    "AI Data Scraper",
    "AI Search Crawler",
    "Archiver",
    "Developer Helper",
    "Fetcher",
    "Headless Browser",
    "Intelligence Gatherer",
    "Scraper",
    "Search Engine Crawler",
    "SEO Crawler",
    "Uncategorized",
    "Undocumented AI Agent"
  ]

  /** Validate's error, "unrecognized agent type '<label>'". */
  datatype ValidationError = UnrecognizedAgentType(agentType: AgentType)

  predicate Known(a: AgentType) {
    a in Catalog
  }

  /**
   The position of the first label that is not in the catalog, or None when every label is known.
   Validate reports the label at this position.
   */
  function FirstUnrecognized(labels: seq<AgentType>): (r: Option<nat>)
    ensures r.None? <==> forall i :: 0 <= i < |labels| ==> Known(labels[i])
    ensures r.Some? ==> r.value < |labels| && !Known(labels[r.value])
    ensures r.Some? ==> forall j :: 0 <= j < r.value ==> Known(labels[j])
  {
    if |labels| == 0 then None
    else if !Known(labels[0]) then Some(0)
    else
      match FirstUnrecognized(labels[1..])
      case None => None
      case Some(k) => Some(k + 1)
  }

  /** The catalog has thirteen labels and no label twice, so it is an ordered set. */
  lemma CatalogIsOrderedSet()
    ensures |Catalog| == 13
    ensures forall i, j :: 0 <= i < j < |Catalog| ==> Catalog[i] != Catalog[j]
  {
  }
}
