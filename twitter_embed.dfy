/** The tweet block: a URL input while editing, a tweet quote linking to that URL otherwise. */
module TwitterEmbed {
  import opened Text

  /** The attributes the editor stores on a tweet node. */
  datatype TwitterAttrs = TwitterAttrs(url: string, editing: bool)

  /** What the node view renders: the input, or a quote whose link is the typed URL. */
  datatype TwitterView = UrlInput(text: string) | Tweet(href: string)

  class TwitterBlock {
    /** The text of the URL input. */
    var url: string
    /** Whether the input is shown instead of the tweet. */
    var editing: bool
    /** The node's attributes in the document. */
    var attrs: TwitterAttrs

    /** The effect that copies `editing` into the node has run, and outside editing the
        linked tweet is the one stored in the document. */
    ghost predicate Valid()
      reads this
    {
      attrs.editing == editing && (!editing ==> url == attrs.url)
    }

    constructor (node: TwitterAttrs)
      ensures url == node.url && editing == node.editing && attrs == node
      ensures Valid()
    {
      url := node.url;
      editing := node.editing;
      attrs := node;
    }

    function View(): (r: TwitterView)
      reads this
      ensures r.UrlInput? <==> editing
      ensures r.UrlInput? ==> r.text == url
      ensures r.Tweet? ==> r.href == url
    {
      if editing then UrlInput(url) else Tweet(url)
    }

    /** Typing into the input replaces its text and nothing else. */
    method Type(text: string)
      requires editing && Valid()
      modifies this`url
      ensures url == text && Valid()
    {
      url := text;
    }

    /** Enter on a non-blank URL stores it with `editing: false` and shows the tweet; any
        other key, or a blank URL, changes nothing. No URL check is made. */
    method KeyDown(key: string)
      requires editing && Valid()
      modifies this
      ensures url == old(url) && Valid()
      ensures key == "Enter" && Trim(url) != [] ==> !editing && attrs == TwitterAttrs(url, false)
      ensures key != "Enter" || Trim(url) == [] ==> editing && attrs == old(attrs)
    {
      if key == "Enter" && Trim(url) != [] {
        attrs := TwitterAttrs(url, false);
        editing := false;
      }
    }

    /** "Change Tweet": back to the input, holding the current URL. */
    method ChangeTweet()
      requires !editing && Valid()
      modifies this
      ensures editing && url == old(url) && attrs == old(attrs).(editing := true)
      ensures Valid()
    {
      editing := true;
      attrs := attrs.(editing := true);
    }
  }

  /** A tweet shown after a submit links to exactly what the document stores. */
  lemma ShownTweetIsStored(b: TwitterBlock)
    requires b.Valid() && !b.editing
    ensures b.View() == Tweet(b.attrs.url)
  {
  }
}
