/** The editor page: edits one post, new or existing, and writes it to the post store. The
    page's route carries the id of an existing post; without one the page edits a new post,
    which gets an id on its first save. */
module EditorPage {
  import opened Wrappers
  import opened Text
  import Seqs
  import opened PostStore

  /** The status line beside the title: "New", "Saving..." or "Saved". */
  datatype DraftStatus = New | Saving | Saved

  /** The update a save of an existing post sends: title, content, cover and the time of
      the save; nothing else. */
  function SavePatch(title: string, content: string, featuredImage: Option<string>, now: Stamp): (u: PostPatch)
    ensures u.id == Keep && u.createdAt == Keep
    ensures u == PostPatch(Keep, Set(title), Set(content), Set(featuredImage), Keep, Set(now))
  {
    PostPatch(Keep, Set(title), Set(content), Set(featuredImage), Keep, Set(now))
  }

  /** A save of an existing post keeps its id and creation time and takes the page's
      title, content and cover, with the save time as its last update. */
  lemma SaveKeepsIdentity(p: Post, title: string, content: string, featuredImage: Option<string>, now: Stamp)
    ensures Merge(p, SavePatch(title, content, featuredImage, now)) ==
      Post(p.id, title, content, featuredImage, p.createdAt, Some(now))
  {
  }

  /** The post a first save creates: created and updated at the same moment. */
  function NewPost(id: string, title: string, content: string, featuredImage: Option<string>, now: Stamp): (p: Post)
    ensures p.id == id && p.createdAt == now && p.updatedAt == Some(p.createdAt)
    ensures p.title == title && p.content == content && p.featuredImage == featuredImage
  {
    Post(id, title, content, featuredImage, now, Some(now))
  }

  /** `featuredImage || null`: a missing or empty cover is no cover. */
  function CoverOf(p: Post): (r: Option<string>)
    ensures r.Some? <==> p.featuredImage.Some? && p.featuredImage.value != []
    ensures r.Some? ==> r == p.featuredImage
  {
    match p.featuredImage
    case Some(url) => if url == [] then None else Some(url)
    case None => None
  }

  predicate HasId(id: string, p: Post) {
    p.id == id
  }

  /** The post the route names, the first with that id. */
  function Lookup(posts: seq<Post>, id: string): (r: Option<Post>)
    ensures r.None? <==> forall i :: 0 <= i < |posts| ==> posts[i].id != id
    ensures r.Some? ==> exists i :: 0 <= i < |posts| && posts[i] == r.value && r.value.id == id
  {
    Seqs.Find(posts, (p: Post) => HasId(id, p))
  }

  /** The page shows a loading notice when the route names a post the store lacks. */
  datatype PageView = LoadingNotice | EditorForm(title: string, cover: Option<string>, status: DraftStatus)

  /** The address of a post's editor. */
  function EditorPath(id: string): (r: string)
    ensures |r| == |"/editor/"| + |id| && r[..8] == "/editor/" && r[8..] == id
  {
    "/editor/" + id
  }

  class Editor {
    /** The id in the route, if any. */
    var route: Option<string>
    var title: string
    var cover: Option<string>
    var status: DraftStatus
    var content: string
    const store: Store

    constructor (route: Option<string>, store: Store)
      ensures this.route == route && this.store == store
      ensures title == [] && cover == None && status == New && content == []
    {
      this.route := route;
      this.store := store;
      title := "";
      cover := None;
      status := New;
      content := "";
    }

    function View(): (r: PageView)
      reads this, store
      ensures r == LoadingNotice <==> route.Some? && Lookup(store.posts, route.value).None?
      ensures r.EditorForm? ==> r == EditorForm(title, cover, status)
    {
      if route.Some? && Lookup(store.posts, route.value).None? then LoadingNotice
      else EditorForm(title, cover, status)
    }

    /** The effect that fills the form from the post the route names, whenever that post
        changes in the store. */
    method LoadPost()
      requires route.Some? && Lookup(store.posts, route.value).Some?
      modifies this`title, this`content, this`cover, this`status
      ensures var p := Lookup(store.posts, route.value).value;
        title == p.title && content == p.content && cover == CoverOf(p) && status == Saved
    {
      var p := Lookup(store.posts, route.value).value;
      title := p.title;
      content := p.content;
      cover := CoverOf(p);
      status := Saved;
    }

    /** A save. With an id in the route the post with that id is updated; otherwise a new
        post with id `newId` is added and the page moves to its address. Either way the
        status becomes "Saved". */
    method HandleSave(contentToSave: string, featuredImage: Option<string>, now: Stamp, newId: string)
      returns (navigatedTo: Option<string>)
      requires View().EditorForm?
      modifies this`route, this`status, store
      ensures status == Saved && store.Persisted()
      ensures old(route).Some? ==>
        route == old(route) && navigatedTo == None &&
        store.posts == Updated(old(store.posts), route.value, SavePatch(title, contentToSave, featuredImage, now))
      ensures old(route).None? ==>
        route == Some(newId) && navigatedTo == Some(EditorPath(newId)) &&
        store.posts == Appended(old(store.posts), NewPost(newId, title, contentToSave, featuredImage, now))
    {
      if route.Some? {
        store.UpdatePost(route.value, SavePatch(title, contentToSave, featuredImage, now));
        navigatedTo := None;
      } else {
        store.AddPost(NewPost(newId, title, contentToSave, featuredImage, now));
        route := Some(newId);
        navigatedTo := Some(EditorPath(newId));
      }
      status := Saved;
    }

    /** Publish: a save of the current content and cover. */
    method Publish(now: Stamp, newId: string) returns (navigatedTo: Option<string>)
      requires View().EditorForm?
      modifies this`route, this`status, store
      ensures status == Saved && store.Persisted()
      ensures old(route).Some? ==>
        route == old(route) && navigatedTo == None &&
        store.posts == Updated(old(store.posts), route.value, SavePatch(title, content, cover, now))
      ensures old(route).None? ==>
        route == Some(newId) && navigatedTo == Some(EditorPath(newId)) &&
        store.posts == Appended(old(store.posts), NewPost(newId, title, content, cover, now))
    {
      navigatedTo := HandleSave(content, cover, now, newId);
    }

    /** A cover file is chosen: the cover becomes its address and the post is saved with it
        at once. No file changes nothing. */
    method CoverUpload(file: Option<string>, now: Stamp, newId: string) returns (navigatedTo: Option<string>)
      requires View().EditorForm?
      modifies this`route, this`status, this`cover, store
      ensures file.None? ==>
        (navigatedTo == None && cover == old(cover) && status == old(status) &&
         route == old(route) && store.posts == old(store.posts) && store.storage == old(store.storage))
      ensures file.Some? ==> store.Persisted()
      ensures file.Some? ==> cover == Some(ObjectUrl(file.value)) && status == Saved
      ensures file.Some? && old(route).Some? ==>
        (route == old(route) && navigatedTo == None &&
         store.posts == Updated(old(store.posts), old(route).value, SavePatch(title, content, cover, now)))
      ensures file.Some? && old(route).None? ==>
        (route == Some(newId) && navigatedTo == Some(EditorPath(newId)) &&
         store.posts == Appended(old(store.posts), NewPost(newId, title, content, cover, now)))
    {
      navigatedTo := None;
      if file.Some? {
        var url := ObjectUrl(file.value);
        cover := Some(url);
        status := Saving;
        navigatedTo := HandleSave(content, Some(url), now, newId);
      }
    }

    /** Typing a title marks the draft as being saved. */
    method TitleChanged(text: string)
      modifies this`title, this`status
      ensures title == text && status == Saving
    {
      title := text;
      status := Saving;
    }

    /** The editor reports new content: the draft is being saved. */
    method ContentChanged(html: string)
      modifies this`content, this`status
      ensures content == html && status == Saving
    {
      content := html;
      status := Saving;
    }

    /** The editor's delayed save went off. Only the status changes: the store is not
        written. */
    method AutosaveFired()
      modifies this`status
      ensures status == Saved
    {
      status := Saved;
    }
  }

  /** The lookup finds the first post carrying the id. */
  lemma LookupFirst(ps: seq<Post>, id: string, i: nat)
    requires i < |ps| && ps[i].id == id
    requires forall j :: 0 <= j < i ==> ps[j].id != id
    ensures Lookup(ps, id) == Some(ps[i])
  {
    var k := Seqs.FindIndex(ps, (p: Post) => HasId(id, p));
    assert HasId(id, ps[i]);
    assert k == Some(i);
  }

  /** After a save of an existing post, looking it up again yields the saved title and
      content, its creation time and the save time. */
  lemma SavedPostReloads(ps: seq<Post>, id: string, i: nat, title: string, content: string,
                         featuredImage: Option<string>, now: Stamp)
    requires i < |ps| && ps[i].id == id
    requires forall j :: 0 <= j < i ==> ps[j].id != id
    ensures Lookup(Updated(ps, id, SavePatch(title, content, featuredImage, now)), id) ==
      Some(Post(id, title, content, featuredImage, ps[i].createdAt, Some(now)))
  {
    var qs := Updated(ps, id, SavePatch(title, content, featuredImage, now));
    LookupFirst(qs, id, i);
  }

  /** The first session on a browser without saved posts: the store starts from the demo
      list, which is not yet written to the slot. Opening demo post "1" and publishing it
      writes the whole list, with that post updated, to the slot. */
  method PublishDemoPostOnFirstRun(k: DemoClock, now: Stamp) returns (before: Slot, after: Slot)
    ensures before == Absent
    ensures after == Holds(Updated(DemoPosts(k), "1",
      SavePatch(DemoPosts(k)[0].title, DemoPosts(k)[0].content, None, now)))
  {
    var store := new Store(Absent, k);
    before := store.storage;
    var page := new Editor(Some("1"), store);
    LookupFirst(store.posts, "1", 0);
    page.LoadPost();
    var navigatedTo := page.Publish(now, "");
    after := store.storage;
  }
}
