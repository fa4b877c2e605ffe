/** The home page: the list of posts, narrowed by a title search, each with the time since
    its last change. */
module HomePage {
  import opened Wrappers
  import opened Text
  import Seqs
  import opened PostStore

  /** The search test: the lower-cased title contains the lower-cased query. */
  predicate TitleMatches(p: Post, query: string) {
    Includes(ToLower(p.title), ToLower(query))
  }

  /** The posts the list shows for `query`. */
  function FilteredPosts(posts: seq<Post>, query: string): (r: seq<Post>)
    ensures forall p :: p in r ==> p in posts && TitleMatches(p, query)
    ensures forall p | p in posts :: multiset(r)[p] == if TitleMatches(p, query) then multiset(posts)[p] else 0
  {
    Seqs.Filter(posts, (p: Post) => TitleMatches(p, query))
  }

  /** The empty query shows every post, in order. */
  lemma EmptyQueryShowsAll(posts: seq<Post>)
    ensures FilteredPosts(posts, "") == posts
  {
    forall i | 0 <= i < |posts|
      ensures TitleMatches(posts[i], "")
    {
      IncludesEmpty(ToLower(posts[i].title));
    }
    Seqs.FilterKeepsAll(posts, (p: Post) => TitleMatches(p, ""));
  }

  /** The search ignores the case of the query. */
  lemma SearchIgnoresQueryCase(posts: seq<Post>, query: string)
    ensures FilteredPosts(posts, ToLower(query)) == FilteredPosts(posts, query)
  {
    ToLowerIdempotent(query);
    Seqs.FilterCongruent(posts, (p: Post) => TitleMatches(p, ToLower(query)), (p: Post) => TitleMatches(p, query));
  }

  /** The shown posts keep their order in the list. */
  lemma FilteredKeepsOrder(a: seq<Post>, b: seq<Post>, query: string)
    ensures FilteredPosts(a + b, query) == FilteredPosts(a, query) + FilteredPosts(b, query)
  {
    Seqs.FilterConcat(a, b, (p: Post) => TitleMatches(p, query));
  }

  /** The time a card shows: the last update, or the creation when there is none. */
  function DisplayStamp(p: Post): (r: Stamp)
    ensures p.updatedAt.Some? ==> r == p.updatedAt.value
    ensures p.updatedAt.None? ==> r == p.createdAt
  {
    p.updatedAt.GetOr(p.createdAt)
  }

  /** Whole minutes from `at` to `now`, rounded down. */
  function DiffMinutes(now: Stamp, at: Stamp): (d: int)
    ensures d * MinuteMs <= now - at < (d + 1) * MinuteMs
  {
    (now - at) / MinuteMs
  }

  /** A card's time line: relative text for the last day, otherwise the publication date
      (whose calendar formatting is not modelled). */
  datatype TimeLabel = Relative(text: string) | Published(at: Stamp)

  function HoursText(h: nat): string {
    NatToString(h) + " hour" + (if h > 1 then "s" else "") + " ago"
  }

  function FormatTime(now: Stamp, at: Stamp): (r: TimeLabel)
    ensures DiffMinutes(now, at) < 60 ==> r == Relative(IntToString(DiffMinutes(now, at)) + " minutes ago")
    ensures 60 <= DiffMinutes(now, at) < 1440 ==> r == Relative(HoursText(DiffMinutes(now, at) / 60))
    ensures 1440 <= DiffMinutes(now, at) <==> r.Published?
  {
    var d := DiffMinutes(now, at);
    if d < 60 then Relative(IntToString(d) + " minutes ago")
    else if d < 1440 then Relative(HoursText(d / 60))
    else Published(at)
  }

  /** Within the last day but an hour or more ago, the hour count lies in 1..23 and is
      exactly the number of whole hours; the word is plural from two hours on. */
  lemma HourBuckets(now: Stamp, at: Stamp)
    requires 60 <= DiffMinutes(now, at) < 1440
    ensures var h := DiffMinutes(now, at) / 60;
      1 <= h <= 23 &&
      h * 60 * MinuteMs <= now - at < (h + 1) * 60 * MinuteMs &&
      FormatTime(now, at) == Relative(NatToString(h) + (if h > 1 then " hours ago" else " hour ago"))
  {
    var d := DiffMinutes(now, at);
    var h := d / 60;
    assert h * 60 <= d < (h + 1) * 60;
    assert NatToString(h) + " hour" + "s" + " ago" == NatToString(h) + " hours ago";
    assert NatToString(h) + " hour" + "" + " ago" == NatToString(h) + " hour ago";
  }

  /** Under an hour the plural "minutes" is used even for one minute. */
  lemma OneMinuteIsPlural(now: Stamp, at: Stamp)
    requires now - at == MinuteMs
    ensures FormatTime(now, at) == Relative("1 minutes ago")
  {
    assert DiffMinutes(now, at) == 1;
  }

  /** A card: the post's id (for the edit and delete buttons), title and time line. */
  datatype Card = Card(id: string, title: string, time: TimeLabel)

  /** What the list area shows: the empty state, or one card per shown post. */
  datatype ListView = EmptyState | Cards(cards: seq<Card>)

  function ListFor(posts: seq<Post>, query: string, now: Stamp): (r: ListView)
    ensures r == EmptyState <==> FilteredPosts(posts, query) == []
    ensures r.Cards? ==> |r.cards| == |FilteredPosts(posts, query)|
    ensures r.Cards? ==> forall i :: 0 <= i < |r.cards| ==>
      var p := FilteredPosts(posts, query)[i];
      r.cards[i] == Card(p.id, p.title, FormatTime(now, DisplayStamp(p)))
  {
    var shown := FilteredPosts(posts, query);
    if shown == [] then EmptyState
    else Cards(seq(|shown|, i requires 0 <= i < |shown| => Card(shown[i].id, shown[i].title, FormatTime(now, DisplayStamp(shown[i])))))
  }
}
