/**
 * The visibility predicate of the "Link And Manage Innvia Connector"
 * button, an application registered with the context-menu service.
 */
module LinkAndManageConnector {

  import opened AppLists

  /** A graph node of the viewer, with the accessors the predicate reads. */
  datatype Node = Node(id: string, nodeType: string)

  /** The `option` argument of isShown: the selected node and the context node. */
  datatype MenuOption = MenuOption(selectedNode: Node, context: Node)

  /** Shown (true) on a selected context node of type Network; otherwise the sentinel -1. */
  function IsShown(option: MenuOption): (r: Shown)
    ensures Keeps(r) <==> option.selectedNode == option.context && option.selectedNode.nodeType == "Network"
    ensures !Keeps(r) ==> r == NotApplicable
  {
    if option.selectedNode == option.context && option.selectedNode.nodeType == "Network" then
      Returned(Boolean(true))
    else
      NotApplicable
  }

  /**
   * Filtering a hook's list with this button's `isShown` for one menu
   * option: every descriptor of the list is the button, so the list comes
   * back whole on a selected Network context node and empty otherwise.
   */
  lemma {:induction false} ConnectorButtonFiltered<A>(apps: seq<A>, option: MenuOption)
    ensures var shown: A -> Shown := _ => IsShown(option);
            Kept(apps, shown) ==
              if option.selectedNode == option.context && option.selectedNode.nodeType == "Network" then apps else []
  {
    var shown: A -> Shown := _ => IsShown(option);
    if option.selectedNode == option.context && option.selectedNode.nodeType == "Network" {
      AllKeptIsIdentity(apps, shown);
    } else {
      NoneKeptIsEmpty(apps, shown);
    }
  }
}
