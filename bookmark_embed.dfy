/** The bookmark block: a URL input while editing, a link card with the page's metadata
    otherwise. Fetching the metadata is asynchronous: pressing Enter starts it and its
    outcome arrives later, so the fetch is split into a start and a finish. */
module BookmarkEmbed {
  import opened Wrappers
  import opened Text

  datatype Meta = Meta(title: string, description: string, image: string)

  /** The attributes the editor stores on a bookmark node. */
  datatype BookmarkAttrs = BookmarkAttrs(url: string, title: string, description: string,
                                         image: string, editing: bool)

  /** The metadata the fetch yields: a fixed sample page, whatever the URL. */
  const MockMeta: Meta := Meta(
    "Build your site with YouTube and cool web apps!",
    "Build your site with CodeDesign and cool web apps! Dive into the world of innovative web applications and discover how you can enhance your online presence.",
    "https://picsum.photos/400/240")

  const EmptyMeta: Meta := Meta("", "", "")

  /** The attributes after a successful fetch of `target`. */
  function Fetched(target: string, m: Meta): (r: BookmarkAttrs)
    ensures r.url == target && !r.editing
    ensures Meta(r.title, r.description, r.image) == m
  {
    BookmarkAttrs(target, m.title, m.description, m.image, false)
  }

  /** What the node view renders: the input (disabled while loading, with a loading line),
      or the card, whose picture is shown only for a non-empty image address. */
  datatype BookmarkView =
    | UrlInput(text: string, loading: bool)
    | Card(title: string, description: string, picture: Option<string>, url: string)

  class BookmarkBlock {
    /** The text of the URL input. */
    var url: string
    var meta: Meta
    var loading: bool
    var editing: bool
    /** The URL of the fetch in progress, if any. */
    var inFlight: Option<string>
    /** The node's attributes in the document. */
    var attrs: BookmarkAttrs

    /** The effect that copies `editing` into the node has run; a fetch is in progress
        exactly while loading, only in the input, and for the URL in the (disabled) input;
        outside editing the card shows what the document stores. */
    ghost predicate Valid()
      reads this
    {
      && attrs.editing == editing
      && (loading <==> inFlight.Some?)
      && (loading ==> editing && inFlight.value == url)
      && (!editing ==> attrs == Fetched(url, meta))
    }

    /** Mounted on a node: the input and metadata start from the stored ones. */
    constructor (node: BookmarkAttrs)
      ensures url == node.url && meta == Meta(node.title, node.description, node.image)
      ensures editing == node.editing && !loading && inFlight == None && attrs == node
      ensures Valid()
    {
      url := node.url;
      meta := Meta(node.title, node.description, node.image);
      loading := false;
      editing := node.editing;
      inFlight := None;
      attrs := node;
    }

    function View(): (r: BookmarkView)
      reads this
      ensures r.UrlInput? <==> editing
      ensures r.UrlInput? ==> r.text == url && r.loading == loading
      ensures r.Card? ==> r.url == url && r.title == meta.title && r.description == meta.description
      ensures r.Card? ==> (r.picture.Some? <==> meta.image != []) && (r.picture.Some? ==> r.picture.value == meta.image)
    {
      if editing then UrlInput(url, loading)
      else Card(meta.title, meta.description, if meta.image == [] then None else Some(meta.image), url)
    }

    /** Typing into the enabled input replaces its text and nothing else. */
    method Type(text: string)
      requires editing && !loading && Valid()
      modifies this`url
      ensures url == text && Valid()
    {
      url := text;
    }

    /** A key press in the enabled input: Enter on a non-blank URL starts fetching it;
        anything else changes nothing. */
    method KeyDown(key: string)
      requires editing && !loading && Valid()
      modifies this`loading, this`inFlight
      ensures Valid()
      ensures key == "Enter" && Trim(url) != [] ==> loading && inFlight == Some(url)
      ensures key != "Enter" || Trim(url) == [] ==> !loading && inFlight == None
    {
      if key == "Enter" && Trim(url) != [] {
        loading := true;
        inFlight := Some(url);
      }
    }

    /** The fetch finishes. On success the metadata and the node become the fetched page and
        editing ends; on failure an alert is raised and nothing else changes. Either way
        loading ends. */
    method FinishFetch(succeeded: bool) returns (alerted: bool)
      requires loading && Valid()
      modifies this
      ensures !loading && inFlight == None && url == old(url) && Valid()
      ensures succeeded ==> !alerted && !editing && meta == MockMeta && attrs == Fetched(url, MockMeta)
      ensures !succeeded ==> alerted && editing && meta == old(meta) && attrs == old(attrs)
    {
      var target := inFlight.value;
      alerted := false;
      if succeeded {
        meta := MockMeta;
        attrs := Fetched(target, MockMeta);
        editing := false;
      } else {
        alerted := true;
      }
      loading := false;
      inFlight := None;
    }

    /** The card's remove button: the URL, the metadata and the node are cleared and the
        input comes back. */
    method Remove()
      requires !editing && Valid()
      modifies this
      ensures editing && !loading && url == [] && meta == EmptyMeta
      ensures attrs == BookmarkAttrs("", "", "", "", true)
      ensures Valid()
    {
      editing := true;
      url := "";
      meta := EmptyMeta;
      attrs := BookmarkAttrs("", "", "", "", true);
    }
  }
}
