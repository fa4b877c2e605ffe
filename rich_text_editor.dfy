/** The rich text editor: the custom block types it adds to the document schema, the block
    menu that inserts them, the "+" button beside an empty line, and the autosave that waits
    for a pause in editing. The editing engine itself is not modelled: its document is
    opaque, and a block insertion is described by the node it creates. */
module RichTextEditor {
  import opened Wrappers
  import opened Text

  // ---------------------------------------------------------------------------------------
  // Block schema.
  // ---------------------------------------------------------------------------------------

  datatype BlockType = HtmlBlock | Bookmark | Youtube | Unsplash | ImageBlock | Divider | Twitter

  const AllTypes: seq<BlockType> := [HtmlBlock, Bookmark, Youtube, Unsplash, ImageBlock, Divider, Twitter]

  /** The node type's name in the schema. */
  function NodeName(t: BlockType): string {
    match t
    case HtmlBlock => "htmlBlock"
    case Bookmark => "bookmark"
    case Youtube => "youtube"
    case Unsplash => "unsplash"
    case ImageBlock => "imageBlock"
    case Divider => "dividerBlock"
    case Twitter => "twitter"
  }

  /** An attribute value: text, or the `editing` flag. */
  datatype AttrValue = Str(s: string) | Flag(b: bool)

  type Attrs = map<string, AttrValue>

  /** The attributes each type declares, with their defaults. */
  function Defaults(t: BlockType): (r: Attrs)
    ensures t == Divider ==> r == map[]
    ensures t != Divider ==> "editing" in r && r["editing"] == Flag(true)
    ensures forall k | k in r && k != "editing" :: r[k] == Str("")
  {
    match t
    case HtmlBlock => map["html" := Str(""), "editing" := Flag(true)]
    case Bookmark => map["url" := Str(""), "title" := Str(""), "description" := Str(""),
                         "image" := Str(""), "editing" := Flag(true)]
    case Youtube => map["src" := Str(""), "url" := Str(""), "editing" := Flag(true)]
    case Unsplash => map["src" := Str(""), "author" := Str(""), "editing" := Flag(true)]
    case ImageBlock => map["src" := Str(""), "caption" := Str(""), "editing" := Flag(true)]
    case Divider => map[]
    case Twitter => map["url" := Str(""), "editing" := Flag(true)]
  }

  /** What an `insert*` command hands to the engine: the type, and the attributes given
      with `editing` forced to true (the divider's command takes none). */
  datatype Insertion = Insertion(t: BlockType, attrs: Attrs)

  function Insert(t: BlockType, given: Attrs): (r: Insertion)
    ensures r.t == t
    ensures t == Divider ==> r.attrs == map[]
    ensures t != Divider ==> "editing" in r.attrs && r.attrs["editing"] == Flag(true)
    ensures t != Divider ==> forall k | k in given && k != "editing" :: k in r.attrs && r.attrs[k] == given[k]
    ensures t != Divider ==> r.attrs.Keys == given.Keys + {"editing"}
  {
    if t == Divider then Insertion(t, map[]) else Insertion(t, given["editing" := Flag(true)])
  }

  /** The attributes of the node the engine creates: each declared attribute takes the given
      value when there is one and its default otherwise; undeclared ones are dropped. */
  function Resolved(ins: Insertion): (r: Attrs)
    ensures r.Keys == Defaults(ins.t).Keys
    ensures forall k | k in r :: r[k] == if k in ins.attrs then ins.attrs[k] else Defaults(ins.t)[k]
  {
    map k | k in Defaults(ins.t) :: if k in ins.attrs then ins.attrs[k] else Defaults(ins.t)[k]
  }

  /** Whatever attributes are passed, an inserted block starts in editing mode. */
  lemma InsertedBlockEdits(t: BlockType, given: Attrs)
    requires t != Divider
    ensures "editing" in Resolved(Insert(t, given))
    ensures Resolved(Insert(t, given))["editing"] == Flag(true)
  {
  }

  // ---------------------------------------------------------------------------------------
  // Serialisation: each type is written as an element its own parse rule reads back.
  // ---------------------------------------------------------------------------------------

  datatype Tag = Div | Hr

  /** An element as far as the parse rules look at it: its tag and `data-type`. */
  datatype Element = Element(tag: Tag, dataType: string)

  function DataType(t: BlockType): string {
    match t
    case HtmlBlock => "html-block"
    case Bookmark => "bookmark"
    case Youtube => "youtube"
    case Unsplash => "unsplash"
    case ImageBlock => "image-block"
    case Divider => "divider"
    case Twitter => "twitter"
  }

  /** `renderHTML`: a `div` (an `hr` for the divider) whose `data-type` names the type; the
      type's own `data-type` overrides any attribute of that name. */
  function Render(t: BlockType): (r: Element)
    ensures r.tag == Hr <==> t == Divider
    ensures r.dataType == DataType(t)
  {
    Element(if t == Divider then Hr else Div, DataType(t))
  }

  /** `parseHTML`: the selector `div[data-type='…']` (`hr[…]` for the divider). */
  predicate Selects(t: BlockType, el: Element) {
    el.tag == (if t == Divider then Hr else Div) && el.dataType == DataType(t)
  }

  /** The node an element is read as: one of the seven blocks, or the horizontal rule of
      the editor's standard extensions, whose parse rule is the bare tag `hr`. */
  datatype ParsedNode = Block(t: BlockType) | HorizontalRule

  /** The node whose parse rule reads `el`, if any. All rules share the default priority,
      so they are tried in schema order: the standard extensions come first in the
      extension list, so their `hr` rule is tried before any of the seven block rules. */
  function ParseElement(el: Element): (r: Option<ParsedNode>)
    ensures el.tag == Hr <==> r == Some(HorizontalRule)
    ensures r.Some? && r.value.Block? ==> Selects(r.value.t, el)
    ensures r.None? ==> forall t :: !Selects(t, el)
  {
    match el.tag
    case Hr => Some(HorizontalRule)
    case Div =>
      if el.dataType == "html-block" then Some(Block(HtmlBlock))
      else if el.dataType == "bookmark" then Some(Block(Bookmark))
      else if el.dataType == "youtube" then Some(Block(Youtube))
      else if el.dataType == "unsplash" then Some(Block(Unsplash))
      else if el.dataType == "image-block" then Some(Block(ImageBlock))
      else if el.dataType == "twitter" then Some(Block(Twitter))
      else None
  }

  /** No element is read by two of the seven block rules. */
  lemma SelectorsDisjoint(t: BlockType, u: BlockType, el: Element)
    requires Selects(t, el) && Selects(u, el)
    ensures t == u
  {
  }

  /** Every element the divider's rule reads is read first by the horizontal rule's. */
  lemma DividerRuleShadowed(el: Element)
    requires Selects(Divider, el)
    ensures ParseElement(el) == Some(HorizontalRule)
  {
  }

  /** Every block type except the divider reads back as itself from the element it is
      written as; the divider reads back as a horizontal rule. */
  lemma RenderParseRoundTrip(t: BlockType)
    ensures t != Divider ==> ParseElement(Render(t)) == Some(Block(t))
    ensures t == Divider ==> ParseElement(Render(t)) == Some(HorizontalRule)
  {
  }

  // ---------------------------------------------------------------------------------------
  // The block menu's keys.
  // ---------------------------------------------------------------------------------------

  const MenuKeys: seq<string> := ["image", "html", "divider", "bookmark", "youtube", "unsplash", "twitter"]

  /** The insertion a menu key asks for, with the attributes the menu passes; an unknown key
      asks for none. */
  function MenuInsertion(key: string): (r: Option<Insertion>)
    ensures r.Some? <==> key in MenuKeys
  {
    if key == "image" then Some(Insert(ImageBlock, map["src" := Str(""), "caption" := Str("")]))
    else if key == "html" then Some(Insert(HtmlBlock, map["html" := Str("")]))
    else if key == "divider" then Some(Insert(Divider, map[]))
    else if key == "bookmark" then Some(Insert(Bookmark, map["url" := Str("")]))
    else if key == "youtube" then Some(Insert(Youtube, map["url" := Str("")]))
    else if key == "unsplash" then Some(Insert(Unsplash, map["src" := Str(""), "author" := Str("")]))
    else if key == "twitter" then Some(Insert(Twitter, map["url" := Str("")]))
    else None
  }

  /** The seven keys insert seven different block types, and together every type. */
  lemma MenuCoversEveryType(t: BlockType)
    ensures exists i :: 0 <= i < |MenuKeys| && MenuInsertion(MenuKeys[i]).value.t == t
    ensures forall i, j :: 0 <= i < j < |MenuKeys| ==> MenuInsertion(MenuKeys[i]).value.t != MenuInsertion(MenuKeys[j]).value.t
  {
    var i := match t
      case ImageBlock => 0 case HtmlBlock => 1 case Divider => 2 case Bookmark => 3
      case Youtube => 4 case Unsplash => 5 case Twitter => 6;
    assert MenuInsertion(MenuKeys[i]).value.t == t;
  }

  /** Every block inserted from the menu starts with its declared defaults: in editing mode,
      with every other attribute empty. */
  lemma MenuBlocksStartFresh(key: string)
    requires key in MenuKeys
    ensures Resolved(MenuInsertion(key).value) == Defaults(MenuInsertion(key).value.t)
  {
    var ins := MenuInsertion(key).value;
    var r := Resolved(ins);
    forall k | k in r
      ensures r[k] == Defaults(ins.t)[k]
    {
      if k == "editing" {
      } else {
        assert k in ins.attrs ==> ins.attrs[k] == Str("");
      }
    }
  }

  // ---------------------------------------------------------------------------------------
  // Autosave: every change is reported at once; the save waits until no change has come for
  // a while, so a burst of changes gives one save, of the last content.
  // ---------------------------------------------------------------------------------------

  /** An editor update carrying the document's HTML, or the save timer going off. */
  datatype Event = Update(html: string) | Fire

  /** The HTML waiting to be saved after `events`, starting from `pending`. */
  function PendingAfter(pending: Option<string>, events: seq<Event>): Option<string>
    decreases |events|
  {
    if events == [] then pending
    else match events[0]
      case Update(h) => PendingAfter(Some(h), events[1..])
      case Fire => PendingAfter(None, events[1..])
  }

  /** The HTML each save reports, in order, during `events`, starting from `pending`. A timer
      only goes off while a save is pending. */
  function Saves(pending: Option<string>, events: seq<Event>): seq<string>
    decreases |events|
  {
    if events == [] then []
    else match events[0]
      case Update(h) => Saves(Some(h), events[1..])
      case Fire => (if pending.Some? then [pending.value] else []) + Saves(None, events[1..])
  }

  /** The number of timer firings among the events. */
  function Fires(events: seq<Event>): (n: nat)
    ensures n == multiset(events)[Fire]
  {
    if events == [] then 0
    else
      assert events == [events[0]] + events[1..];
      (if events[0] == Fire then 1 else 0) + Fires(events[1..])
  }

  /** What one more event adds. */
  lemma {:induction false} SavesSnoc(pending: Option<string>, events: seq<Event>, e: Event)
    ensures PendingAfter(pending, events + [e]) ==
      (if e.Update? then Some(e.html) else None)
    ensures Saves(pending, events + [e]) ==
      Saves(pending, events) + (if e == Fire && PendingAfter(pending, events).Some? then [PendingAfter(pending, events).value] else [])
    decreases |events|
  {
    if events != [] {
      assert (events + [e])[1..] == events[1..] + [e];
      match events[0]
      case Update(h) => SavesSnoc(Some(h), events[1..], e);
      case Fire => SavesSnoc(None, events[1..], e);
    }
  }

  /** There are never more saves than timer firings. */
  lemma {:induction false} SavesAtMostFires(pending: Option<string>, events: seq<Event>)
    ensures |Saves(pending, events)| <= Fires(events)
    decreases |events|
  {
    if events != [] {
      match events[0]
      case Update(h) => SavesAtMostFires(Some(h), events[1..]);
      case Fire => SavesAtMostFires(None, events[1..]);
    }
  }

  function Updates(hs: seq<string>): (r: seq<Event>)
    ensures |r| == |hs| && forall i :: 0 <= i < |hs| ==> r[i] == Update(hs[i])
  {
    seq(|hs|, i requires 0 <= i < |hs| => Update(hs[i]))
  }

  /** A burst of updates saves nothing until the timer goes off, and then once, the HTML of
      the last update; nothing is pending afterwards. */
  lemma {:induction false} BurstSavesLast(pending: Option<string>, hs: seq<string>)
    requires hs != []
    ensures Saves(pending, Updates(hs)) == []
    ensures PendingAfter(pending, Updates(hs)) == Some(hs[|hs| - 1])
    ensures Saves(pending, Updates(hs) + [Fire]) == [hs[|hs| - 1]]
    decreases |hs|
  {
    assert Updates(hs)[1..] == Updates(hs[1..]);
    if |hs| > 1 {
      BurstSavesLast(Some(hs[0]), hs[1..]);
    }
    SavesSnoc(pending, Updates(hs), Fire);
  }

  // ---------------------------------------------------------------------------------------
  // The editor's own state.
  // ---------------------------------------------------------------------------------------

  /** What `domAtPos` gives for the cursor, as far as the "+" rule looks at it: a node
      that is not attached to the document, a text node, or an element, with the text of
      the paragraph `closest("p")` finds from it, if any. */
  datatype CursorDom = Detached | TextNode | ElementNode(paragraph: Option<string>)

  predicate BlankParagraph(cursor: CursorDom) {
    cursor.ElementNode? && cursor.paragraph.Some? && Trim(cursor.paragraph.value) == []
  }

  class EditorChrome {
    var showPlus: bool
    var showBlockMenu: bool
    var hasHoveredEditor: bool
    var isSaving: bool
    /** The HTML of the save that waits for the timer, if any. */
    var pending: Option<string>
    /** Every update and timer firing so far. */
    ghost var events: seq<Event>

    /** At most one save waits, for the latest update, and `isSaving` says whether one does. */
    ghost predicate Valid()
      reads this
    {
      pending == PendingAfter(None, events) && (isSaving <==> pending.Some?)
    }

    constructor ()
      ensures !showPlus && !showBlockMenu && !hasHoveredEditor && !isSaving && pending == None
      ensures events == [] && Valid()
    {
      showPlus := false;
      showBlockMenu := false;
      hasHoveredEditor := false;
      isSaving := false;
      pending := None;
      events := [];
    }

    /** The "+" button is drawn only while the block menu is closed. */
    predicate PlusRendered()
      reads this
    {
      showPlus && !showBlockMenu
    }

    /** The "+" rule, run on every key-up, click, input and scroll in the editor. It looks
        at the DOM node at the cursor: a node outside the document hides "+"; an element
        shows "+" when its nearest paragraph (`cursor.paragraph` is its text) is blank and
        the mouse has entered the editor, and hides it otherwise. A text node has no
        `closest`, so the rule throws before it decides and "+" stays as it was. */
    method RecomputePlus(cursor: CursorDom)
      modifies this`showPlus
      ensures cursor.TextNode? ==> showPlus == old(showPlus)
      ensures !cursor.TextNode? ==> (showPlus <==> BlankParagraph(cursor) && hasHoveredEditor)
    {
      match cursor
      case Detached => showPlus := false;
      case TextNode =>
      case ElementNode(_) => showPlus := BlankParagraph(cursor) && hasHoveredEditor;
    }

    /** The mouse enters the editor. The hover flag is an effect dependency of the "+" rule,
        so the rule runs again only on the first entry, when the flag turns true; a later
        entry sets the flag to the value it already has and re-runs nothing. */
    method MouseEnter(cursor: CursorDom)
      modifies this`hasHoveredEditor, this`showPlus
      ensures hasHoveredEditor
      ensures !old(hasHoveredEditor) && !cursor.TextNode? ==> (showPlus <==> BlankParagraph(cursor))
      ensures old(hasHoveredEditor) || cursor.TextNode? ==> showPlus == old(showPlus)
    {
      if !hasHoveredEditor {
        hasHoveredEditor := true;
        RecomputePlus(cursor);
      }
    }

    /** A click on the "+" button opens the block menu. */
    method ClickPlus()
      requires PlusRendered()
      modifies this`showBlockMenu
      ensures showBlockMenu && !PlusRendered()
    {
      showBlockMenu := true;
    }

    /** A mouse press anywhere: outside both the menu and the "+" button it closes the menu. */
    method MouseDown(inMenu: bool, onPlus: bool)
      modifies this`showBlockMenu
      ensures showBlockMenu <==> old(showBlockMenu) && (inMenu || onPlus)
    {
      if showBlockMenu && !inMenu && !onPlus {
        showBlockMenu := false;
      }
    }

    /** A menu key is chosen: the menu closes, and with an editor present the key's block is
        inserted. */
    method SelectBlock(key: string, hasEditor: bool) returns (inserted: Option<Insertion>)
      modifies this`showBlockMenu
      ensures !showBlockMenu
      ensures inserted == if hasEditor then MenuInsertion(key) else None
    {
      showBlockMenu := false;
      if !hasEditor {
        return None;
      }
      inserted := MenuInsertion(key);
    }

    /** The document changed: its HTML is reported at once, and a save of it replaces any
        waiting one. */
    method OnUpdate(html: string) returns (reported: string)
      requires Valid()
      modifies this`isSaving, this`pending, this`events
      ensures reported == html && pending == Some(html) && isSaving
      ensures events == old(events) + [Update(html)] && Valid()
      ensures Saves(None, events) == Saves(None, old(events))
    {
      SavesSnoc(None, events, Update(html));
      reported := html;
      isSaving := true;
      pending := Some(html);
      events := events + [Update(html)];
    }

    /** The save timer goes off: the waiting HTML is saved. */
    method TimerFires() returns (saved: string)
      requires pending.Some? && Valid()
      modifies this`isSaving, this`pending, this`events
      ensures saved == old(pending).value && pending == None && !isSaving
      ensures events == old(events) + [Fire] && Valid()
      ensures Saves(None, events) == Saves(None, old(events)) + [saved]
    {
      SavesSnoc(None, events, Fire);
      saved := pending.value;
      isSaving := false;
      pending := None;
      events := events + [Fire];
    }
  }

  /** "+" is shown beside a blank line after the mouse has entered the editor; the user
      then clicks into the text of another paragraph. The rule throws on the text node, so
      "+" stays on screen beside a line the cursor has left. */
  method PlusOutlivesClickIntoText() returns (shown: bool)
    ensures shown
  {
    var chrome := new EditorChrome();
    chrome.MouseEnter(ElementNode(Some("")));
    chrome.RecomputePlus(TextNode);
    shown := chrome.PlusRendered();
  }
}
