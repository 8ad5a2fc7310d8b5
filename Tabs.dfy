/** The five top-level views, in the order the tab bar cycles through them.
    Each tab reports a label; the router and the renderer dispatch on it. */
module Tabs {
  import SqlTab

  datatype Tab = Metadata | Schema | RowGroups | Visualize | Sql {
    /** The tab's `to_string`. */
    function Label(): string {
      match this
      case Metadata => "Metadata"
      case Schema => "Schema"
      case RowGroups => "Row Groups"
      case Visualize => "Visualize"
      case Sql => SqlTab.ToString()
    }

    /** The tab to the right, wrapping around. */
    function Next(): Tab {
      match this
      case Metadata => Schema
      case Schema => RowGroups
      case RowGroups => Visualize
      case Visualize => Sql
      case Sql => Metadata
    }

    /** The tab to the left, wrapping around. */
    function Prev(): Tab {
      match this
      case Metadata => Sql
      case Schema => Metadata
      case RowGroups => Schema
      case Visualize => RowGroups
      case Sql => Visualize
    }
  }

  /** Labels tell tabs apart, so comparing the active tab's label with "SQL"
      selects exactly the SQL tab. */
  lemma LabelsIdentifyTabs(t: Tab, u: Tab)
    ensures t.Label() == u.Label() <==> t == u
    ensures t.Label() == "SQL" <==> t == Sql
  {
  }

  /** BackTab undoes Tab and vice versa. */
  lemma NextPrevInverse(t: Tab)
    ensures t.Next().Prev() == t && t.Prev().Next() == t
  {
  }
}
