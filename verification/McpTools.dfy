/** The tools of an MCP catalog and the order in which they are listed. */
module McpTools {
  import opened Sorting
  import opened ToolNames

  /** `detail` is everything that only passes through: title, description, schema. */
  datatype CatalogTool = CatalogTool(safeServerName: Str, toolName: Str, serverName: Str, appOnly: bool, detail: string)

  /** How the locale orders strings: `a` collates before `b` when its position is smaller. */
  type Collation = Str -> real

  /** By safe server name, then tool name, then server name. */
  function ToolOrder(collate: Collation): (CatalogTool, CatalogTool) -> bool {
    (a: CatalogTool, b: CatalogTool) =>
      collate(a.safeServerName) < collate(b.safeServerName)
      || (collate(a.safeServerName) == collate(b.safeServerName)
          && (collate(a.toolName) < collate(b.toolName)
              || (collate(a.toolName) == collate(b.toolName) && collate(a.serverName) <= collate(b.serverName))))
  }

  lemma ToolOrderIsTotal(collate: Collation)
    ensures TotalPreorder(ToolOrder(collate))
  {
  }

  /** Listed by safe server name, then tool name, then server name. */
  ghost predicate Collated(tools: seq<CatalogTool>, collate: Collation) {
    forall i, j :: 0 <= i < j < |tools| ==>
      var a, b := tools[i], tools[j];
      && collate(a.safeServerName) <= collate(b.safeServerName)
      && (collate(a.safeServerName) == collate(b.safeServerName) ==> collate(a.toolName) <= collate(b.toolName))
      && (collate(a.safeServerName) == collate(b.safeServerName) && collate(a.toolName) == collate(b.toolName) ==>
            collate(a.serverName) <= collate(b.serverName))
  }

  lemma SortedIsCollated(tools: seq<CatalogTool>, collate: Collation)
    ensures Collated(Sort(tools, ToolOrder(collate)), collate)
  {
    ToolOrderIsTotal(collate);
    SortSorted(tools, ToolOrder(collate));
    var sorted := Sort(tools, ToolOrder(collate));
    assert forall i, j :: 0 <= i < j < |sorted| ==> ToolOrder(collate)(sorted[i], sorted[j]);
  }
}
