/** The photo picker block: a searchable grid of photos while choosing, the chosen photo
    with its photographer's credit otherwise. The photo list is fetched once when the block
    is mounted; the fetch's outcome is an input. */
module UnsplashPicker {
  import opened Wrappers
  import opened Text
  import Seqs

  /** One entry of the photo list. The `id` only keys the grid's cells, so it is kept as
      text: the fetched list carries strings, while the fallback entries carry the number
      `i + 1`, written here as its decimal rendering. */
  datatype Image = Image(id: string, downloadUrl: string, author: string)

  // ---------------------------------------------------------------------------------------
  // The fallback list used when the fetch fails.
  // ---------------------------------------------------------------------------------------

  const PicsumIdPrefix: string := "https://picsum.photos/id/"

  function FallbackUrl(n: nat): (r: string)
    ensures |r| == |PicsumIdPrefix| + |NatToString(n)| + 8
  {
    PicsumIdPrefix + NatToString(n) + "/600/400"
  }

  function FallbackImage(n: nat): Image {
    Image(NatToString(n), FallbackUrl(n), "Photographer " + NatToString(n))
  }

  /** Twenty entries numbered 1 to 20. */
  function FallbackImages(): (r: seq<Image>)
    ensures |r| == 20
    ensures forall i :: 0 <= i < 20 ==> r[i] == FallbackImage(i + 1)
  {
    seq(20, i requires 0 <= i < 20 => FallbackImage(i + 1))
  }

  /** Distinct numbers give distinct download addresses. */
  lemma FallbackUrlInjective(m: nat, n: nat)
    requires FallbackUrl(m) == FallbackUrl(n)
    ensures m == n
  {
    var a, b := NatToString(m), NatToString(n);
    assert |a| == |b|;
    assert a == FallbackUrl(m)[|PicsumIdPrefix|..|PicsumIdPrefix| + |a|];
    assert b == FallbackUrl(n)[|PicsumIdPrefix|..|PicsumIdPrefix| + |b|];
    NatToStringInjective(m, n);
  }

  /** The fallback entries have pairwise distinct ids and download addresses. */
  lemma FallbackDistinct(i: nat, j: nat)
    requires i < j < 20
    ensures FallbackImages()[i].id != FallbackImages()[j].id
    ensures FallbackImages()[i].downloadUrl != FallbackImages()[j].downloadUrl
  {
    if FallbackImages()[i].id == FallbackImages()[j].id {
      NatToStringInjective(i + 1, j + 1);
    }
    if FallbackImages()[i].downloadUrl == FallbackImages()[j].downloadUrl {
      FallbackUrlInjective(i + 1, j + 1);
    }
  }

  // ---------------------------------------------------------------------------------------
  // Search, credit and thumbnails.
  // ---------------------------------------------------------------------------------------

  /** The search test: the lower-cased author contains the lower-cased query. */
  predicate AuthorMatches(img: Image, query: string) {
    Includes(ToLower(img.author), ToLower(query))
  }

  /** The photos whose lower-cased author contains the lower-cased query. */
  function Filtered(images: seq<Image>, query: string): (r: seq<Image>)
    ensures forall img :: img in r ==> img in images && Includes(ToLower(img.author), ToLower(query))
    ensures forall img | img in images ::
      multiset(r)[img] == if Includes(ToLower(img.author), ToLower(query)) then multiset(images)[img] else 0
  {
    Seqs.Filter(images, (img: Image) => AuthorMatches(img, query))
  }

  /** The empty query keeps every photo, in order. */
  lemma EmptyQueryKeepsAll(images: seq<Image>)
    ensures Filtered(images, "") == images
  {
    forall i | 0 <= i < |images|
      ensures AuthorMatches(images[i], "")
    {
      IncludesEmpty(ToLower(images[i].author));
    }
    Seqs.FilterKeepsAll(images, (img: Image) => AuthorMatches(img, ""));
  }

  /** The search ignores the case of the query. */
  lemma QueryCaseIgnored(images: seq<Image>, query: string)
    ensures Filtered(images, ToLower(query)) == Filtered(images, query)
  {
    ToLowerIdempotent(query);
    Seqs.FilterCongruent(images, (img: Image) => AuthorMatches(img, ToLower(query)),
                         (img: Image) => AuthorMatches(img, query));
  }

  /** Filtering the concatenation of two lists filters each in turn: the order of the
      photos is kept. */
  lemma FilteredKeepsOrder(a: seq<Image>, b: seq<Image>, query: string)
    ensures Filtered(a + b, query) == Filtered(a, query) + Filtered(b, query)
  {
    Seqs.FilterConcat(a, b, (img: Image) => AuthorMatches(img, query));
  }

  /** The credit for `url`: the author of the first photo with that download address,
      "Unknown" when there is none or its author is empty. */
  function FindAuthor(images: seq<Image>, url: string): (r: string)
    ensures r != []
    ensures (forall i :: 0 <= i < |images| ==> images[i].downloadUrl != url) ==> r == "Unknown"
    ensures forall i :: (0 <= i < |images| && images[i].downloadUrl == url &&
                         forall j :: 0 <= j < i ==> images[j].downloadUrl != url) ==>
      r == if images[i].author == [] then "Unknown" else images[i].author
    ensures r == "Unknown" || exists i :: 0 <= i < |images| && images[i].downloadUrl == url && r == images[i].author
  {
    match Seqs.FindIndex(images, (img: Image) => img.downloadUrl == url)
    case Some(i) => if images[i].author == [] then "Unknown" else images[i].author
    case None => "Unknown"
  }

  /** The credit is decided by the first photo with the address alone: an empty author there
      gives "Unknown" even when a later photo with the same address names one. */
  lemma FirstMatchDecidesCredit()
    ensures FindAuthor([Image("1", "u", ""), Image("2", "u", "X")], "u") == "Unknown"
  {
  }

  /** The fallback photo numbered `n` is credited to "Photographer n". */
  lemma FallbackCredit(n: nat)
    requires 1 <= n <= 20
    ensures FindAuthor(FallbackImages(), FallbackUrl(n)) == "Photographer " + NatToString(n)
  {
    var images := FallbackImages();
    forall j | 0 <= j < n - 1
      ensures images[j].downloadUrl != FallbackUrl(n)
    {
      if images[j].downloadUrl == FallbackUrl(n) {
        FallbackUrlInjective(j + 1, n);
      }
    }
    assert images[n - 1].downloadUrl == FallbackUrl(n);
  }

  /** The length of the run of decimal digits at the end of `s`. */
  function TrailingDigits(s: string): (n: nat)
    ensures n <= |s|
    ensures forall i :: |s| - n <= i < |s| ==> IsDigit(s[i])
    ensures n < |s| ==> !IsDigit(s[|s| - n - 1])
  {
    if |s| > 0 && IsDigit(s[|s| - 1]) then 1 + TrailingDigits(s[..|s| - 1]) else 0
  }

  lemma TrailingDigitsIs(s: string, n: nat)
    requires n <= |s|
    requires forall i :: |s| - n <= i < |s| ==> IsDigit(s[i])
    requires n < |s| ==> !IsDigit(s[|s| - n - 1])
    ensures TrailingDigits(s) == n
  {
  }

  /** `s` ends with `/<digits>/<digits>`, the first slash at `j` and the second at `k`. */
  predicate SizeSuffix(s: string, j: nat, k: nat) {
    && j + 1 < k < |s| - 1
    && s[j] == '/' && s[k] == '/'
    && (forall i :: j < i < k ==> IsDigit(s[i]))
    && (forall i :: k < i < |s| ==> IsDigit(s[i]))
  }

  /** Where the match of `/\d+\/\d+$/` starts in `s`, if there is one. */
  function SizeSuffixStart(s: string): (r: Option<nat>)
    ensures r.Some? ==> TrailingDigits(s) < |s| && SizeSuffix(s, r.value, |s| - TrailingDigits(s) - 1)
  {
    var n2 := TrailingDigits(s);
    if n2 == 0 || n2 == |s| || s[|s| - n2 - 1] != '/' then None
    else
      var k := |s| - n2 - 1;
      var n1 := TrailingDigits(s[..k]);
      if n1 == 0 || n1 == k || s[k - n1 - 1] != '/' then None
      else Some(k - n1 - 1)
  }

  /** Every ending `/<digits>/<digits>` is found, at its own start. */
  lemma SizeSuffixFound(s: string, j: nat, k: nat)
    requires SizeSuffix(s, j, k)
    ensures SizeSuffixStart(s) == Some(j)
  {
    TrailingDigitsIs(s, |s| - k - 1);
    TrailingDigitsIs(s[..k], k - j - 1);
  }

  /** The thumbnail address: a trailing `/<width>/<height>` becomes `/300/200`; any other
      address is kept. */
  function Thumbnail(url: string): (r: string)
    ensures SizeSuffixStart(url).None? ==> r == url
    ensures SizeSuffixStart(url).Some? ==> r == url[..SizeSuffixStart(url).value] + "/300/200"
  {
    match SizeSuffixStart(url)
    case Some(j) => url[..j] + "/300/200"
    case None => url
  }

  /** An address ending in a size gets the thumbnail size in its place. */
  lemma ThumbnailRewrites(base: string, width: string, height: string)
    requires width != [] && AllDigits(width) && height != [] && AllDigits(height)
    ensures Thumbnail(base + "/" + width + "/" + height) == base + "/300/200"
  {
    var s := base + "/" + width + "/" + height;
    var j, k := |base|, |base| + 1 + |width|;
    forall i | j < i < k
      ensures IsDigit(s[i])
    {
      assert s[i] == width[i - j - 1];
    }
    forall i | k < i < |s|
      ensures IsDigit(s[i])
    {
      assert s[i] == height[i - k - 1];
    }
    SizeSuffixFound(s, j, k);
    assert s[..j] == base;
  }

  /** An address without a trailing size is kept as it is. */
  lemma ThumbnailKeepsOthers(url: string)
    requires forall j: nat, k: nat :: !SizeSuffix(url, j, k)
    ensures Thumbnail(url) == url
  {
  }

  /** The thumbnail of the fallback photo numbered `n`. */
  lemma FallbackThumbnail(n: nat)
    ensures Thumbnail(FallbackUrl(n)) == PicsumIdPrefix + NatToString(n) + "/300/200"
  {
    var base := PicsumIdPrefix + NatToString(n);
    assert FallbackUrl(n) == base + "/" + "600" + "/" + "400";
    ThumbnailRewrites(base, "600", "400");
  }

  // ---------------------------------------------------------------------------------------
  // The block's node view.
  // ---------------------------------------------------------------------------------------

  /** The attributes the editor stores on a picker node. */
  datatype PickerAttrs = PickerAttrs(src: string, author: string, editing: bool)

  /** The fetch of the photo list: a response, whose body may be missing, or a failure. */
  datatype FetchOutcome = Response(data: Option<seq<Image>>) | Failure

  /** The photo list a fetch outcome leaves: the body, an empty list for a missing body,
      the fallback list on failure. */
  function Received(outcome: FetchOutcome): (r: seq<Image>)
    ensures outcome.Failure? ==> r == FallbackImages()
    ensures outcome == Response(None) ==> r == []
    ensures outcome.Response? && outcome.data.Some? ==> r == outcome.data.value
  {
    match outcome
    case Response(data) => data.GetOr([])
    case Failure => FallbackImages()
  }

  /** A grid cell: the thumbnail and the author's name. */
  datatype Cell = Cell(thumbnail: string, author: string)

  function Cells(images: seq<Image>): (r: seq<Cell>)
    ensures |r| == |images|
    ensures forall i :: 0 <= i < |r| ==> r[i] == Cell(Thumbnail(images[i].downloadUrl), images[i].author)
  {
    seq(|images|, i requires 0 <= i < |images| => Cell(Thumbnail(images[i].downloadUrl), images[i].author))
  }

  /** What the node view renders: the chosen photo with its credit, or the picker with the
      query and either a loading line (`None`) or the grid of matching photos. */
  datatype PickerView = Preview(src: string, credit: string) | Picker(query: string, grid: Option<seq<Cell>>)

  class UnsplashBlock {
    var images: seq<Image>
    var query: string
    var selected: string
    var editing: bool
    var loading: bool
    /** The node's attributes in the document. */
    var attrs: PickerAttrs

    /** A chosen photo is always the one stored in the document. */
    ghost predicate Valid()
      reads this
    {
      selected != [] ==> attrs.src == selected
    }

    predicate ShowsPreview()
      reads this
    {
      !editing && selected != []
    }

    /** Mounted on a node, with the list fetch started. The selection effect runs at once
        with the still empty list: a stored photo is kept, but its credit becomes
        "Unknown" and editing ends. */
    constructor (node: PickerAttrs)
      ensures images == [] && query == [] && selected == node.src && loading
      ensures node.src != [] ==> !editing && attrs == PickerAttrs(node.src, "Unknown", false)
      ensures node.src == [] ==> editing == node.editing && attrs == node
      ensures Valid()
    {
      images := [];
      query := "";
      selected := node.src;
      loading := true;
      if node.src != [] {
        editing := false;
        attrs := PickerAttrs(node.src, FindAuthor([], node.src), false);
      } else {
        editing := node.editing;
        attrs := node;
      }
    }

    function View(): (r: PickerView)
      reads this
      ensures r.Preview? <==> ShowsPreview()
      ensures r.Preview? ==> r.src == selected && r.credit == (if attrs.author == [] then "Unknown" else attrs.author)
      ensures r.Picker? ==> r.query == query && (r.grid.None? <==> loading)
      ensures r.Picker? && !loading ==> r.grid == Some(Cells(Filtered(images, query)))
    {
      if ShowsPreview() then Preview(selected, if attrs.author == [] then "Unknown" else attrs.author)
      else Picker(query, if loading then None else Some(Cells(Filtered(images, query))))
    }

    /** The selection effect: a non-empty choice is stored with its credit and ends
        editing; an empty one changes nothing. */
    method SelectionEffect()
      modifies this`attrs, this`editing
      ensures selected != [] ==> !editing && attrs == PickerAttrs(selected, FindAuthor(images, selected), false)
      ensures selected == [] ==> editing == old(editing) && attrs == old(attrs)
      ensures Valid()
    {
      if selected != [] {
        attrs := PickerAttrs(selected, FindAuthor(images, selected), false);
        editing := false;
      }
    }

    /** The list fetch finishes: the list is replaced, loading ends, and the selection
        effect runs again with the new list. */
    method FinishLoad(outcome: FetchOutcome)
      requires loading && Valid()
      modifies this
      ensures images == Received(outcome) && !loading && query == old(query) && selected == old(selected)
      ensures selected != [] ==> !editing && attrs == PickerAttrs(selected, FindAuthor(images, selected), false)
      ensures selected == [] ==> editing == old(editing) && attrs == old(attrs)
      ensures Valid()
    {
      images := Received(outcome);
      loading := false;
      SelectionEffect();
    }

    /** Typing into the search box. */
    method TypeQuery(text: string)
      requires !ShowsPreview()
      modifies this`query
      ensures query == text
    {
      query := text;
    }

    /** The download address behind grid cell `i`. */
    function CellUrl(i: nat): string
      reads this
      requires i < |Filtered(images, query)|
    {
      Filtered(images, query)[i].downloadUrl
    }

    /** A click on grid cell `i`: a different photo becomes the choice and the selection
        effect stores it; clicking the current choice again changes nothing. */
    method Select(i: nat)
      requires !ShowsPreview() && !loading && i < |Filtered(images, query)| && Valid()
      modifies this`selected, this`attrs, this`editing
      ensures selected == old(CellUrl(i)) && Valid()
      ensures selected != old(selected) && selected != [] ==>
        !editing && attrs == PickerAttrs(selected, FindAuthor(images, selected), false)
      ensures selected == old(selected) || selected == [] ==> editing == old(editing) && attrs == old(attrs)
    {
      var url := CellUrl(i);
      if url != selected {
        selected := url;
        SelectionEffect();
      }
    }

    /** "Change Image": back to the picker. */
    method ChangeImage()
      requires ShowsPreview() && Valid()
      modifies this`editing, this`attrs
      ensures editing && attrs == old(attrs).(editing := true) && Valid()
    {
      editing := true;
      attrs := attrs.(editing := true);
    }

    /** The close button writes `editing: false` to the node only: the picker stays on
        screen. */
    method Close()
      requires !ShowsPreview() && Valid()
      modifies this`attrs
      ensures attrs == old(attrs).(editing := false) && Valid()
      ensures View() == old(View())
    {
      attrs := attrs.(editing := false);
    }
  }
}
