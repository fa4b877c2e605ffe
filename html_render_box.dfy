/** The raw HTML block: a text area while editing, the HTML rendered as markup otherwise. */
module HtmlRenderBox {
  import opened Text

  /** What the node view renders: the text area, or the markup with an "Edit HTML" button. */
  datatype HtmlView = HtmlInput(text: string) | Rendered(markup: string)

  /** `s.trim()` is non-empty only for a non-empty `s`. */
  lemma TrimNonEmpty(s: string)
    requires Trim(s) != []
    ensures s != []
  {
    TrimEmptyIffBlank(s);
  }

  class HtmlBox {
    /** The text of the text area. */
    var html: string
    /** Whether the text area is shown. */
    var isEditing: bool
    /** The node's `html` attribute. */
    var attrHtml: string

    /** Every change of the text is copied to the node, and the rendered markup is never
        empty. */
    ghost predicate Valid()
      reads this
    {
      attrHtml == html && (!isEditing ==> html != [])
    }

    /** Mounted on a node: a node without HTML opens in the text area. */
    constructor (nodeHtml: string)
      ensures html == nodeHtml && attrHtml == nodeHtml
      ensures isEditing <==> nodeHtml == []
      ensures Valid()
    {
      html := nodeHtml;
      isEditing := nodeHtml == [];
      attrHtml := nodeHtml;
    }

    function View(): (r: HtmlView)
      reads this
      ensures r.HtmlInput? <==> isEditing
      ensures r.HtmlInput? ==> r.text == html
      ensures r.Rendered? ==> r.markup == html
    {
      if isEditing then HtmlInput(html) else Rendered(html)
    }

    /** Typing replaces the text and the node's attribute with it. */
    method Type(text: string)
      requires isEditing && Valid()
      modifies this
      ensures html == text && attrHtml == text && isEditing
      ensures Valid()
    {
      html := text;
      attrHtml := text;
    }

    /** Enter on non-blank text leaves the text area; the node is not touched. */
    method KeyDown(key: string)
      requires isEditing && Valid()
      modifies this`isEditing
      ensures isEditing <==> key != "Enter" || Trim(html) == []
      ensures Valid()
    {
      if key == "Enter" && Trim(html) != [] {
        TrimNonEmpty(html);
        isEditing := false;
      }
    }

    /** "Edit HTML": back to the text area. */
    method EditHtml()
      requires !isEditing && Valid()
      modifies this`isEditing
      ensures isEditing && Valid()
    {
      isEditing := true;
    }
  }

  /** Outside editing, what is rendered is the non-empty HTML stored in the node. */
  lemma RenderedIsStored(b: HtmlBox)
    requires b.Valid() && !b.isEditing
    ensures b.View() == Rendered(b.attrHtml) && b.attrHtml != []
  {
  }
}
