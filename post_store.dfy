/** The post store: an in-memory list of posts, each change of which is written back, whole,
    to one browser-storage slot; at start-up the list is read from that slot, or a fixed demo
    list is used when the slot holds nothing usable. */
module PostStore {
  import opened Wrappers
  import Seqs

  /** A point in time, in milliseconds since the epoch (the stored ISO strings denote these). */
  type Stamp = int

  /** A post record. `featuredImage` is `None` for JavaScript's `null`; `updatedAt` is `None`
      when a stored record lacks the field. */
  datatype Post = Post(
    id: string,
    title: string,
    content: string,
    featuredImage: Option<string>,
    createdAt: Stamp,
    updatedAt: Option<Stamp>)

  /** One entry of a partial update object: the field is absent (`Keep`) or present (`Set`). */
  datatype Field<T> = Keep | Set(value: T)

  /** The object passed to `updatePost`: any subset of a post's fields. */
  datatype PostPatch = PostPatch(
    id: Field<string>,
    title: Field<string>,
    content: Field<string>,
    featuredImage: Field<Option<string>>,
    createdAt: Field<Stamp>,
    updatedAt: Field<Stamp>)

  function Pick<T>(f: Field<T>, current: T): T {
    match f
    case Keep => current
    case Set(v) => v
  }

  /** `{ ...p, ...u }`: the fields present in `u` override those of `p`. */
  function Merge(p: Post, u: PostPatch): Post {
    Post(
      Pick(u.id, p.id),
      Pick(u.title, p.title),
      Pick(u.content, p.content),
      Pick(u.featuredImage, p.featuredImage),
      Pick(u.createdAt, p.createdAt),
      match u.updatedAt case Keep => p.updatedAt case Set(t) => Some(t))
  }

  /** Applying the same patch twice is applying it once. */
  lemma MergeIdempotent(p: Post, u: PostPatch)
    ensures Merge(Merge(p, u), u) == Merge(p, u)
  {
  }

  /** The list after `addPost(post)`: `[...posts, post]`. */
  function Appended(ps: seq<Post>, post: Post): (r: seq<Post>)
    ensures |r| == |ps| + 1 && r[|ps|] == post
    ensures forall i :: 0 <= i < |ps| ==> r[i] == ps[i]
  {
    ps + [post]
  }

  /** The list after `updatePost(id, u)`: `posts.map(p => p.id === id ? {...p, ...u} : p)`. */
  function Updated(ps: seq<Post>, id: string, u: PostPatch): (r: seq<Post>)
    ensures |r| == |ps|
    ensures forall i :: 0 <= i < |ps| && ps[i].id == id ==> r[i] == Merge(ps[i], u)
    ensures forall i :: 0 <= i < |ps| && ps[i].id != id ==> r[i] == ps[i]
  {
    if ps == [] then []
    else [if ps[0].id == id then Merge(ps[0], u) else ps[0]] + Updated(ps[1..], id, u)
  }

  /** An update whose id matches no post leaves the list as it was. */
  lemma UpdateUnknownIdIsIdentity(ps: seq<Post>, id: string, u: PostPatch)
    requires forall i :: 0 <= i < |ps| ==> ps[i].id != id
    ensures Updated(ps, id, u) == ps
  {
  }

  /** A patch that leaves `id` and `createdAt` out changes neither, in any post, and fields
      it leaves out keep their values in the matching posts too. */
  lemma UpdateKeepsUnpatchedFields(ps: seq<Post>, id: string, u: PostPatch, i: nat)
    requires i < |ps|
    requires u.id == Keep && u.createdAt == Keep
    ensures Updated(ps, id, u)[i].id == ps[i].id
    ensures Updated(ps, id, u)[i].createdAt == ps[i].createdAt
    ensures u.title == Keep ==> Updated(ps, id, u)[i].title == ps[i].title
    ensures u.content == Keep ==> Updated(ps, id, u)[i].content == ps[i].content
    ensures u.featuredImage == Keep ==> Updated(ps, id, u)[i].featuredImage == ps[i].featuredImage
  {
  }

  predicate KeepsOtherIds(id: string, p: Post) {
    p.id != id
  }

  /** The list after `deletePost(id)`: `posts.filter(p => p.id !== id)`. */
  function Removed(ps: seq<Post>, id: string): (r: seq<Post>)
    ensures forall p :: p in r <==> p in ps && p.id != id
    ensures forall p | p in ps :: multiset(r)[p] == if p.id == id then 0 else multiset(ps)[p]
  {
    Seqs.Filter(ps, p => KeepsOtherIds(id, p))
  }

  /** Deleting distributes over concatenation, so the kept posts stay in their order. */
  lemma RemovedKeepsOrder(a: seq<Post>, b: seq<Post>, id: string)
    ensures Removed(a + b, id) == Removed(a, id) + Removed(b, id)
  {
    Seqs.FilterConcat(a, b, p => KeepsOtherIds(id, p));
  }

  /** Deleting an id no post carries leaves the list as it was. */
  lemma RemoveUnknownIdIsIdentity(ps: seq<Post>, id: string)
    requires forall i :: 0 <= i < |ps| ==> ps[i].id != id
    ensures Removed(ps, id) == ps
  {
    Seqs.FilterKeepsAll(ps, p => KeepsOtherIds(id, p));
  }

  const Lorem: string :=
    "<p>Lorem ipsum dolor sit amet, consectetur adipiscing elit, sed do eiusmod tempor "
    + "incididunt ut labore et dolore magna aliqua. Ut enim ad minim veniam, quis nostrud "
    + "exercitation ullamco laboris nisi ut aliquip ex ea commodo consequat.</p>"

  const MinuteMs: int := 60 * 1000

  /** `new Date('2025-02-06')` and `new Date('2025-03-15')`: UTC midnight of those days. */
  const Feb6th2025: Stamp := 1738800000000
  const Mar15th2025: Stamp := 1741996800000

  function DemoPost(id: string, title: string, created: Stamp, updated: Stamp): Post {
    Post(id, title, Lorem, Some(""), created, Some(updated))
  }

  /** The six `Date.now()` readings taken while the demo list is built, in evaluation order:
      the creation and the update time of post "1", then of post "2", then of post "3". */
  datatype DemoClock = DemoClock(c1: Stamp, u1: Stamp, c2: Stamp, u2: Stamp, c3: Stamp, u3: Stamp)

  /** The clock did not run backwards while the list was built. */
  predicate Monotonic(k: DemoClock) {
    k.c1 <= k.u1 <= k.c2 <= k.u2 <= k.c3 <= k.u3
  }

  /** The clock did not tick while the list was built: one reading stands for all six. */
  predicate Frozen(k: DemoClock) {
    k.u1 == k.c1 && k.c2 == k.c1 && k.u2 == k.c1 && k.c3 == k.c1 && k.u3 == k.c1
  }

  /** The five demo posts. The first three are dated 5, 10 and 20 minutes before the clock
      readings taken for them; the last two carry fixed dates. */
  function DemoPosts(k: DemoClock): (r: seq<Post>)
    ensures |r| == 5
    ensures forall i :: 0 <= i < |r| ==> r[i].id == ["12345"[i]]
    ensures forall i, j :: 0 <= i < j < |r| ==> r[i].id != r[j].id
    ensures forall i :: 0 <= i < |r| ==> r[i].updatedAt.Some?
    ensures r[3].createdAt == Feb6th2025 && r[3].updatedAt == Some(Feb6th2025)
    ensures r[4].createdAt == Mar15th2025 && r[4].updatedAt == Some(Mar15th2025)
  {
    [ DemoPost("1", "Future Projections", k.c1 - 5 * MinuteMs, k.u1 - 5 * MinuteMs),
      DemoPost("2", "User Feedback Collection", k.c2 - 10 * MinuteMs, k.u2 - 10 * MinuteMs),
      DemoPost("3", "Trends & Cost Reduction", k.c3 - 20 * MinuteMs, k.u3 - 20 * MinuteMs),
      DemoPost("4", "Market Expansion Strategies", Feb6th2025, Feb6th2025),
      DemoPost("5", "Innovative Product Development", Mar15th2025, Mar15th2025) ]
  }

  /** With a clock that does not run backwards no demo post is updated before it is
      created, and the first three are dated 5, 10 and 20 minutes before the first reading
      or later; with a clock that does not tick every demo post has `updatedAt == createdAt`. */
  lemma DemoPostsDated(k: DemoClock)
    ensures Monotonic(k) ==> forall i :: 0 <= i < 5 ==>
      DemoPosts(k)[i].createdAt <= DemoPosts(k)[i].updatedAt.value
    ensures Monotonic(k) ==>
      DemoPosts(k)[0].createdAt >= k.c1 - 5 * MinuteMs &&
      DemoPosts(k)[1].createdAt >= k.c1 - 10 * MinuteMs &&
      DemoPosts(k)[2].createdAt >= k.c1 - 20 * MinuteMs
    ensures Frozen(k) ==> forall i :: 0 <= i < 5 ==>
      DemoPosts(k)[i].updatedAt == Some(DemoPosts(k)[i].createdAt)
  {
  }

  /** The storage slot of the posts, as `localStorage.getItem` and `JSON.parse` see it. */
  datatype Slot =
    | Absent                  // no entry under the key
    | Unusable(text: string)  // the empty string, or text that JSON.parse rejects
    | Holds(posts: seq<Post>) // the (non-empty) JSON text of a post list

  /** `load()`: the stored list when the slot holds one, the demo list otherwise. */
  function Load(slot: Slot, k: DemoClock): (r: seq<Post>)
    ensures slot.Holds? ==> r == slot.posts
    ensures !slot.Holds? ==> |r| == 5 && r == DemoPosts(k)
  {
    match slot
    case Holds(ps) => ps
    case _ => DemoPosts(k)
  }

  /** The store: the `posts` state of the application, and the storage slot it writes. */
  class Store {
    var posts: seq<Post>
    var storage: Slot

    /** `posts: load()`: the store is created from what the slot holds at start-up. */
    constructor (stored: Slot, k: DemoClock)
      ensures storage == stored
      ensures posts == Load(stored, k)
    {
      storage := stored;
      posts := Load(stored, k);
    }

    /** The slot holds exactly the in-memory list, so a reload yields the same list. */
    ghost predicate Persisted()
      reads this
    {
      storage == Holds(posts)
    }

    /** `save(next)`: the whole list is written to the slot. */
    method Save(next: seq<Post>)
      modifies this`storage
      ensures storage == Holds(next)
    {
      storage := Holds(next);
    }

    /** `addPost(post)`. */
    method AddPost(post: Post)
      modifies this
      ensures posts == Appended(old(posts), post)
      ensures Persisted()
    {
      var next := Appended(posts, post);
      Save(next);
      posts := next;
    }

    /** `updatePost(id, u)`. */
    method UpdatePost(id: string, u: PostPatch)
      modifies this
      ensures posts == Updated(old(posts), id, u)
      ensures Persisted()
    {
      var next := Updated(posts, id, u);
      Save(next);
      posts := next;
    }

    /** `deletePost(id)`. */
    method DeletePost(id: string)
      modifies this
      ensures posts == Removed(old(posts), id)
      ensures Persisted()
    {
      var next := Removed(posts, id);
      Save(next);
      posts := next;
    }
  }

  /** A reload after any store operation yields the in-memory list of that moment. */
  lemma ReloadAfterSave(s: Store, k: DemoClock)
    requires s.Persisted()
    ensures Load(s.storage, k) == s.posts
  {
  }
}
