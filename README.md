# Blog editor: a verified model

This project models, in Dafny, the core of a small blog editor written in JavaScript with
React and the Tiptap rich-text engine. It covers:

- the **post store**: an in-memory list of posts whose every change (add, update by id, delete
  by id) is written back, whole, to one browser-storage slot, with a five-post demo list when
  the slot holds nothing usable;
- the **custom block schema** of the rich-text editor (HTML box, bookmark, YouTube video,
  photo picker, image, divider, tweet): declared attributes and defaults, the `insert*`
  commands, the element each block is written as and read back from, and the block menu that
  dispatches a menu key to one insertion;
- the editor's own state: the "+" button beside an empty line, the block menu's
  click-outside rule, and the **autosave debounce** (each change is reported at once, the save
  waits for a pause and saves the latest content);
- the **YouTube video-id extraction**, a single regular expression, modelled with the
  backtracking matcher's semantics and proved sound and complete against a declarative
  description of the URL shapes it accepts;
- the **editing/display state machine of every embed block** (bookmark, tweet, HTML box,
  image, photo picker, YouTube), each as a class holding the view's local state and the node's
  attributes, with the effects that copy state into the node;
- the **selection toolbar**: visibility, position, hide-on-click and the link prompt decision;
- the **editor page**: new-versus-existing save, post lookup, loading a post into the form,
  the draft-status line and the cover upload;
- the **home page**: the case-insensitive title search and the "minutes ago" / "hours ago"
  labels.

Modules follow the source files: `PostStore`, `RichTextEditor`, `YoutubeEmbed`,
`BookmarkEmbed`, `TwitterEmbed`, `HtmlRenderBox`, `ImageBlock`, `UnsplashPicker`,
`BubbleMenu`, `EditorPage`, `HomePage`. Three helper modules state the JavaScript primitives
the program leans on: `Text` (`trim` and the `\s` class, ASCII `toLowerCase`, `includes`,
decimal rendering in template strings, object URLs), `Seqs` (`filter`, `findIndex`, `find`)
and `Wrappers` (`Option`, for `null`).

Conventions. Timestamps are integer milliseconds; a post's `updatedAt` is optional so that the
home page's `updatedAt || createdAt` fallback is meaningful. A partial update object
`{ ...p, ...u }` is a record of `Keep | Set(value)` fields. A React effect that copies state
into the node's attributes is modelled inside the handler that changes the state, since it
runs after every such change. Asynchronous work (the bookmark fetch, the photo list fetch,
the autosave timer) is split into a start and a finish whose outcome is an input. Event
handlers that exist only in one view (an input shown only while editing, a button shown only
in the preview) require that view.

Where the code and its written description differ, the model follows the code:

- The autosave callback only sets the draft status to "Saved"; it does not write the store
  (`src/pages/Editor.jsx:144`). The store is written by Publish and by a cover upload.
- The selection toolbar's visibility depends only on `from != to`; there is no plain-text
  test, no Escape key and no separate link-editing state (`src/components/BubbleMenu.jsx:24-43`).
- `handleUrlSubmit` of the image block is never attached to an element, and nothing resets a
  chosen image's `src`.
- The photo picker's close button writes `editing: false` to the node only: the local
  `editing` flag stays set, so the picker stays on screen (`UnsplashBlock.Close` proves this).
- When the photo picker is mounted on a node with a photo, the selection effect runs with the
  still empty photo list and overwrites the stored credit with "Unknown"; the credit comes back
  only when the loaded list holds that photo's address (`UnsplashBlock.constructor`,
  `UnsplashBlock.FinishLoad`).
- A divider is written as `<hr data-type="divider">`, but the horizontal rule of the
  editor's standard extensions reads every `hr` and its rule is tried first, so a divider
  saved with a post comes back as a plain horizontal rule (`RichTextEditor.RenderParseRoundTrip`).
- The "+" rule throws when the cursor's DOM node is a text node (`closest` is an element
  method), so clicking into the text of a paragraph leaves "+" where it was
  (`RichTextEditor.PlusOutlivesClickIntoText`).
- Under an hour, the home page prints "1 minutes ago": there is no singular for minutes,
  unlike hours (`HomePage.OneMinuteIsPlural`).

## Model

| member | source | states |
|---|---|---|
| PostStore.MergeIdempotent | src/store/postStore.js:80 | applying the same patch twice equals applying it once |
| PostStore.Appended | src/store/postStore.js:72 | the new list is one longer, ends with the added post, and keeps every earlier post at its index |
| PostStore.Updated | src/store/postStore.js:80 | same length; every post with the id becomes the merged post, every other post is unchanged |
| PostStore.UpdateUnknownIdIsIdentity | src/store/postStore.js:80 | updating an id no post carries leaves the list identical |
| PostStore.UpdateKeepsUnpatchedFields | src/store/postStore.js:78-84 | a patch without `id`/`createdAt` changes neither in any post; fields the patch omits keep their values |
| PostStore.Removed | src/store/postStore.js:88 | a post is kept iff its id differs; kept posts keep their multiplicity and none with the id remains |
| PostStore.RemovedKeepsOrder | src/store/postStore.js:88 | deletion distributes over concatenation, so the remaining posts keep their relative order |
| PostStore.RemoveUnknownIdIsIdentity | src/store/postStore.js:88 | deleting an id no post carries leaves the list identical |
| PostStore.DemoPosts | src/store/postStore.js:6-47 | five posts with ids "1".."5", pairwise distinct, each with an update time; posts "4" and "5" carry their fixed dates; posts "1"-"3" are dated from their own clock readings |
| PostStore.DemoPostsDated | src/store/postStore.js:6-47 | with a clock that does not run backwards, no demo post is updated before it is created and posts "1"-"3" are at most 5, 10 and 20 minutes old at the first reading; with a clock that does not tick, `updatedAt == createdAt` for all five |
| PostStore.Load | src/store/postStore.js:49-57 | a slot holding a list yields that list; an absent, empty or unparsable slot yields the demo list built from the start-up clock readings |
| PostStore.Store.constructor | src/store/postStore.js:68 | the store starts with `load()` of the slot |
| PostStore.Store.Save | src/store/postStore.js:59-65 | the slot afterwards holds exactly the given list |
| PostStore.Store.AddPost | src/store/postStore.js:70-76 | the list becomes `Appended(old, post)` and the slot holds the new list |
| PostStore.Store.UpdatePost | src/store/postStore.js:78-84 | the list becomes `Updated(old, id, u)` and the slot holds the new list |
| PostStore.Store.DeletePost | src/store/postStore.js:86-92 | the list becomes `Removed(old, id)` and the slot holds the new list |
| PostStore.ReloadAfterSave | src/store/postStore.js:49-57 | after any store operation, loading the slot again yields the in-memory list |
| Seqs.Filter | src/pages/Home.jsx:15-17 | result elements come from the input and pass the test; each passing element keeps its multiplicity, failing ones vanish |
| Seqs.FilterConcat | src/pages/Home.jsx:15-17 | filtering distributes over concatenation (order is kept) |
| Seqs.FilterKeepsAll | src/pages/Home.jsx:15-17 | when every element passes, filtering returns the input |
| Seqs.FilterCongruent | src/components/Embed/UnsplashPicker.jsx:73-75 | two tests that agree on every element select the same subsequence |
| Seqs.FindIndex | src/components/Embed/UnsplashPicker.jsx:43 | the first index whose element passes, or none exactly when no element passes |
| Seqs.Find | src/pages/Editor.jsx:23 | the first element that passes, present exactly when some element passes |
| Text.TrimStart | src/components/Embed/YoutubeEmbed.jsx:19 | a suffix of the input whose removed prefix is white space and which starts with a non-space |
| Text.TrimEnd | src/components/Embed/YoutubeEmbed.jsx:19 | a prefix of the input whose removed suffix is white space and which ends with a non-space |
| Text.TrimEmptyIffBlank | src/components/Embed/YoutubeEmbed.jsx:19 | `s.trim()` is empty iff every character of `s` is white space |
| Text.NonBlankSurvivesTrim | src/components/Embed/TwitterEmbed.jsx:19 | a non-space character of `s` appears in `s.trim()` |
| Text.ToLower | src/pages/Home.jsx:16 | same length; each character lower-cased |
| Text.ToLowerIdempotent | src/pages/Home.jsx:16 | lower-casing twice is lower-casing once |
| Text.IncludesEmpty | src/pages/Home.jsx:16 | every string includes the empty string |
| Text.NatToString | src/components/Embed/UnsplashPicker.jsx:24-26 | the decimal rendering is non-empty, all digits, without a leading zero |
| Text.ParseNatToString | src/components/Embed/UnsplashPicker.jsx:24-26 | reading the decimal rendering back yields the number |
| Text.NatToStringInjective | src/components/Embed/UnsplashPicker.jsx:24-26 | distinct numbers render differently |
| Text.IntToString | src/pages/Home.jsx:26 | non-empty, starting with '-' exactly for negative numbers, followed by digits that read back as the absolute value |
| Text.ObjectUrl | src/components/Embed/ImageBlock.jsx:17 | an object URL is a non-empty `blob:` address |
| YoutubeEmbed.IdAt | src/components/Embed/YoutubeEmbed.jsx:14 | `([^"&?\/\s]{11})` at an index: present iff eleven id characters are there, and then it is those eleven |
| YoutubeEmbed.LineEnd | src/components/Embed/YoutubeEmbed.jsx:14 | the first line terminator at or after `j`: how far `.` can reach |
| YoutubeEmbed.FirstSlash | src/components/Embed/YoutubeEmbed.jsx:14 | the first slash at or after `j`: how far `[^\/]+` can reach |
| YoutubeEmbed.LastSlashId | src/components/Embed/YoutubeEmbed.jsx:14 | greedy `.+\/` backtracking: the id after the last usable slash, none iff there is no usable slash |
| YoutubeEmbed.LastQueryId | src/components/Embed/YoutubeEmbed.jsx:14 | greedy `.*[?&]v=` backtracking: the id after the last usable `?v=`/`&v=`, none iff there is none |
| YoutubeEmbed.LastQueryIdIs | src/components/Embed/YoutubeEmbed.jsx:14 | when `m` is the last usable query position, the search yields the id after `m` |
| YoutubeEmbed.LastSlashIdIs | src/components/Embed/YoutubeEmbed.jsx:14 | when `k` is the last usable slash, the search yields the id after `k` |
| YoutubeEmbed.LineEndIs | src/components/Embed/YoutubeEmbed.jsx:14 | a line-free stretch ending at a terminator or the end is exactly what `.` covers |
| YoutubeEmbed.FirstSlashIs | src/components/Embed/YoutubeEmbed.jsx:14 | a slash-free stretch ending at a slash or the end is exactly what `[^\/]` covers |
| YoutubeEmbed.Attempts | src/components/Embed/YoutubeEmbed.jsx:14 | one match attempt per start index, left to right |
| YoutubeEmbed.FirstSome | src/components/Embed/YoutubeEmbed.jsx:14-15 | the leftmost successful attempt wins; none iff every attempt fails |
| YoutubeEmbed.HostsExclusive | src/components/Embed/YoutubeEmbed.jsx:14 | `youtu.be/` and `youtube.com/` never start at the same index |
| YoutubeEmbed.MatchAtSound | src/components/Embed/YoutubeEmbed.jsx:14 | an attempt's result is an 11-character id carried by an accepted URL shape starting there |
| YoutubeEmbed.NestedPathSound | src/components/Embed/YoutubeEmbed.jsx:14 | the `[^\/]+\/.+\/` alternative only accepts `youtube.com/x/…/ID` shapes |
| YoutubeEmbed.QuerySound | src/components/Embed/YoutubeEmbed.jsx:14 | the `.*[?&]v=` alternative only accepts `youtube.com/…?v=ID` shapes on one line |
| YoutubeEmbed.MatchAtComplete | src/components/Embed/YoutubeEmbed.jsx:14 | an attempt at an index where an accepted shape starts succeeds |
| YoutubeEmbed.EmbedPathMatches | src/components/Embed/YoutubeEmbed.jsx:14 | `youtube.com/v/ID`, `/e/ID` and `/embed/ID` are accepted by the second alternative |
| YoutubeEmbed.QueryMatches | src/components/Embed/YoutubeEmbed.jsx:14 | `youtube.com/…?v=ID` on one line is accepted by the third alternative |
| YoutubeEmbed.NestedPathMatches | src/components/Embed/YoutubeEmbed.jsx:14 | `youtube.com/x/…/ID` on one line is accepted by the first alternative |
| YoutubeEmbed.NoShapeBeforeFailedAttempts | src/components/Embed/YoutubeEmbed.jsx:14 | where all earlier attempts fail, no accepted shape starts earlier |
| YoutubeEmbed.GetVideoIdSound | src/components/Embed/YoutubeEmbed.jsx:13-16 | a returned id is a video id carried by an accepted shape, and no accepted shape starts further left |
| YoutubeEmbed.GetVideoIdComplete | src/components/Embed/YoutubeEmbed.jsx:13-16 | a URL containing an accepted shape yields an id |
| YoutubeEmbed.NoHostNoId | src/components/Embed/YoutubeEmbed.jsx:13-16 | a URL with neither host prefix yields no id |
| YoutubeEmbed.IdAtSlice | src/components/Embed/YoutubeEmbed.jsx:14 | eleven id characters at an index are read as the id |
| YoutubeEmbed.NoHostBefore | src/components/Embed/YoutubeEmbed.jsx:14 | no attempt succeeds before the first `y` |
| YoutubeEmbed.ResultAt | src/components/Embed/YoutubeEmbed.jsx:15 | the first successful attempt is the function's result |
| YoutubeEmbed.WatchUrlYieldsId | src/components/Embed/YoutubeEmbed.jsx:13-16 | `https://www.youtube.com/watch?v=dQw4w9WgXcQ` yields `dQw4w9WgXcQ` |
| YoutubeEmbed.ShortUrlYieldsId | src/components/Embed/YoutubeEmbed.jsx:13-16 | `https://youtu.be/dQw4w9WgXcQ` yields `dQw4w9WgXcQ` |
| YoutubeEmbed.EmbedUrlYieldsId | src/components/Embed/YoutubeEmbed.jsx:13-16 | `https://www.youtube.com/embed/dQw4w9WgXcQ` yields `dQw4w9WgXcQ` |
| YoutubeEmbed.PreviewSrc | src/components/Embed/YoutubeEmbed.jsx:54-63 | the player address is the embed prefix followed by the id of the stored url, or by `null` when it has none |
| YoutubeEmbed.PreviewSrcPlaysId | src/components/Embed/YoutubeEmbed.jsx:54-63 | for a stored url with an id, the player address ends in an 11-character video id |
| YoutubeEmbed.YoutubeBlock.constructor | src/components/Embed/YoutubeEmbed.jsx:6-7 | input text and mode start from the node's url and `editing` |
| YoutubeEmbed.YoutubeBlock.View | src/components/Embed/YoutubeEmbed.jsx:34-81 | the input iff editing, otherwise the player at `PreviewSrc` of the stored attributes |
| YoutubeEmbed.YoutubeBlock.Type | src/components/Embed/YoutubeEmbed.jsx:43 | typing replaces the input text only |
| YoutubeEmbed.YoutubeBlock.KeyDown | src/components/Embed/YoutubeEmbed.jsx:18-32 | Enter on a non-blank url with an id stores the embed address, url and `editing: false`; without an id it alerts and changes nothing; otherwise nothing; the stored `src` always matches the player |
| YoutubeEmbed.YoutubeBlock.ChangeVideo | src/components/Embed/YoutubeEmbed.jsx:9-73 | back to the input; the node's `editing` follows |
| TwitterEmbed.TwitterBlock.constructor | src/components/Embed/TwitterEmbed.jsx:6-7 | input text and mode start from the node |
| TwitterEmbed.TwitterBlock.View | src/components/Embed/TwitterEmbed.jsx:28-64 | the input iff editing, otherwise a tweet quote linking the typed url |
| TwitterEmbed.TwitterBlock.Type | src/components/Embed/TwitterEmbed.jsx:38 | typing replaces the input text only |
| TwitterEmbed.TwitterBlock.KeyDown | src/components/Embed/TwitterEmbed.jsx:18-26 | Enter on a non-blank url stores it with `editing: false`; otherwise nothing changes |
| TwitterEmbed.TwitterBlock.ChangeTweet | src/components/Embed/TwitterEmbed.jsx:9-56 | back to the input; the node's `editing` follows |
| TwitterEmbed.ShownTweetIsStored | src/components/Embed/TwitterEmbed.jsx:48-52 | outside editing the linked tweet is the one the node stores |
| HtmlRenderBox.TrimNonEmpty | src/components/Embed/HTMLRenderBox.jsx:14 | a non-blank text is non-empty |
| HtmlRenderBox.HtmlBox.constructor | src/components/Embed/HTMLRenderBox.jsx:6-7 | the text starts from the node; the text area opens iff the node has no HTML |
| HtmlRenderBox.HtmlBox.View | src/components/Embed/HTMLRenderBox.jsx:19-48 | the text area iff editing, otherwise the HTML rendered |
| HtmlRenderBox.HtmlBox.Type | src/components/Embed/HTMLRenderBox.jsx:9-25 | typing replaces the text and the node's `html` with it |
| HtmlRenderBox.HtmlBox.KeyDown | src/components/Embed/HTMLRenderBox.jsx:13-17 | editing ends iff Enter is pressed on non-blank text; the rendered HTML is then non-empty |
| HtmlRenderBox.HtmlBox.EditHtml | src/components/Embed/HTMLRenderBox.jsx:41 | back to the text area |
| HtmlRenderBox.RenderedIsStored | src/components/Embed/HTMLRenderBox.jsx:36-39 | outside editing, what is rendered is the non-empty HTML the node stores |
| ImageBlock.ImageBlockView.constructor | src/components/Embed/ImageBlock.jsx:6-7 | `src` and `caption` start from the node |
| ImageBlock.ImageBlockView.View | src/components/Embed/ImageBlock.jsx:28-61 | the upload area iff `src` is empty, otherwise the image at `src` |
| ImageBlock.ImageBlockView.HandleFileUpload | src/components/Embed/ImageBlock.jsx:10-20 | a chosen file's object URL becomes `src` and is written to the node (image shown); no file changes nothing |
| ImageBlock.ImageBlockView.HandleUrlSubmit | src/components/Embed/ImageBlock.jsx:22-26 | Enter with non-blank `src` writes `src`, which the node already holds: the node is unchanged |
| BookmarkEmbed.Fetched | src/components/Embed/BookmarkEmbed.jsx:30-35 | the attributes after a fetch: the target url, the fetched metadata and `editing: false` |
| BookmarkEmbed.BookmarkBlock.constructor | src/components/Embed/BookmarkEmbed.jsx:6-13 | url, metadata and mode start from the node; not loading |
| BookmarkEmbed.BookmarkBlock.View | src/components/Embed/BookmarkEmbed.jsx:48-133 | the input (with the loading state) iff editing; otherwise the card, with a picture iff the image address is non-empty |
| BookmarkEmbed.BookmarkBlock.Type | src/components/Embed/BookmarkEmbed.jsx:58-63 | typing into the enabled input replaces its text only |
| BookmarkEmbed.BookmarkBlock.KeyDown | src/components/Embed/BookmarkEmbed.jsx:15-61 | Enter on a non-blank url starts loading that url; anything else changes nothing |
| BookmarkEmbed.BookmarkBlock.FinishFetch | src/components/Embed/BookmarkEmbed.jsx:20-41 | success stores `Fetched(url, metadata)` and ends editing; failure alerts and changes nothing; loading ends either way |
| BookmarkEmbed.BookmarkBlock.Remove | src/components/Embed/BookmarkEmbed.jsx:110-121 | url and metadata cleared, locally and in the node, and editing resumes |
| UnsplashPicker.FallbackUrl | src/components/Embed/UnsplashPicker.jsx:25 | the fallback download address for photo `n` |
| UnsplashPicker.FallbackImages | src/components/Embed/UnsplashPicker.jsx:23-27 | twenty entries; entry `i` is photo `i + 1` with its id, address and "Photographer" credit |
| UnsplashPicker.FallbackUrlInjective | src/components/Embed/UnsplashPicker.jsx:25 | distinct photo numbers give distinct addresses |
| UnsplashPicker.FallbackDistinct | src/components/Embed/UnsplashPicker.jsx:23-27 | fallback ids and addresses are pairwise distinct |
| UnsplashPicker.Filtered | src/components/Embed/UnsplashPicker.jsx:73-75 | exactly the photos whose lower-cased author includes the lower-cased query, with their multiplicity |
| UnsplashPicker.EmptyQueryKeepsAll | src/components/Embed/UnsplashPicker.jsx:73-75 | the empty query keeps every photo, in order |
| UnsplashPicker.QueryCaseIgnored | src/components/Embed/UnsplashPicker.jsx:74 | the case of the query does not matter |
| UnsplashPicker.FilteredKeepsOrder | src/components/Embed/UnsplashPicker.jsx:73-75 | the matching photos keep their order |
| UnsplashPicker.FindAuthor | src/components/Embed/UnsplashPicker.jsx:43 | the first photo with the address decides: its author when non-empty, "Unknown" when empty or when no photo has the address |
| UnsplashPicker.FirstMatchDecidesCredit | src/components/Embed/UnsplashPicker.jsx:43 | a first match with an empty author gives "Unknown" even when a later photo with the address names one |
| UnsplashPicker.FallbackCredit | src/components/Embed/UnsplashPicker.jsx:23-43 | fallback photo `n` is credited to "Photographer n" |
| UnsplashPicker.TrailingDigits | src/components/Embed/UnsplashPicker.jsx:115 | the maximal run of digits at the end of a string |
| UnsplashPicker.TrailingDigitsIs | src/components/Embed/UnsplashPicker.jsx:115 | a digit run preceded by a non-digit or the start is the trailing run |
| UnsplashPicker.SizeSuffixStart | src/components/Embed/UnsplashPicker.jsx:115 | where `/\d+\/\d+$/` matches, if it does, with digits on both sides of the second slash |
| UnsplashPicker.SizeSuffixFound | src/components/Embed/UnsplashPicker.jsx:115 | every ending `/digits/digits` is found at its own start |
| UnsplashPicker.Thumbnail | src/components/Embed/UnsplashPicker.jsx:115 | a trailing `/w/h` is replaced by `/300/200`; other addresses are kept |
| UnsplashPicker.ThumbnailRewrites | src/components/Embed/UnsplashPicker.jsx:115 | `base/w/h` with digit `w`, `h` becomes `base/300/200` |
| UnsplashPicker.ThumbnailKeepsOthers | src/components/Embed/UnsplashPicker.jsx:115 | an address without a trailing size is unchanged |
| UnsplashPicker.FallbackThumbnail | src/components/Embed/UnsplashPicker.jsx:115 | the thumbnail of fallback photo `n` is `…/id/n/300/200` |
| UnsplashPicker.Received | src/components/Embed/UnsplashPicker.jsx:19-27 | a response gives its body (an empty list without one); a failure gives the fallback list |
| UnsplashPicker.Cells | src/components/Embed/UnsplashPicker.jsx:108-123 | one grid cell per photo: its thumbnail and author |
| UnsplashPicker.UnsplashBlock.constructor | src/components/Embed/UnsplashPicker.jsx:7-48 | mounted: loading, empty list and query; a stored photo is kept, its credit becomes "Unknown" and editing ends |
| UnsplashPicker.UnsplashBlock.View | src/components/Embed/UnsplashPicker.jsx:50-135 | the preview iff not editing with a choice; otherwise the picker with a loading line or the grid of matching photos |
| UnsplashPicker.UnsplashBlock.SelectionEffect | src/components/Embed/UnsplashPicker.jsx:39-48 | a non-empty choice is stored with its credit and `editing: false`, and editing ends; an empty one changes nothing |
| UnsplashPicker.UnsplashBlock.FinishLoad | src/components/Embed/UnsplashPicker.jsx:13-48 | the list becomes the received one, loading ends, the selection effect runs with the new list |
| UnsplashPicker.UnsplashBlock.TypeQuery | src/components/Embed/UnsplashPicker.jsx:85 | typing replaces the query |
| UnsplashPicker.UnsplashBlock.Select | src/components/Embed/UnsplashPicker.jsx:112 | the clicked photo becomes the choice; a different non-empty one is stored and ends editing, the same one changes nothing |
| UnsplashPicker.UnsplashBlock.ChangeImage | src/components/Embed/UnsplashPicker.jsx:35-62 | back to the picker; the node's `editing` follows |
| UnsplashPicker.UnsplashBlock.Close | src/components/Embed/UnsplashPicker.jsx:97 | only the node's `editing` becomes false; the view does not change |
| BubbleMenu.MenuPosition | src/components/BubbleMenu.jsx:35-38 | centred between the selection's ends, 50 pixels above its start |
| BubbleMenu.LinkDecision | src/components/BubbleMenu.jsx:177-188 | a cancelled prompt issues nothing; the empty answer unsets the link; any other answer sets it to exactly that text |
| BubbleMenu.Toolbar.constructor | src/components/BubbleMenu.jsx:18-19 | hidden, at the origin |
| BubbleMenu.Toolbar.Rendered | src/components/BubbleMenu.jsx:58 | drawn, at its position, iff visible and an editor exists |
| BubbleMenu.Toolbar.OnSelectionUpdate | src/components/BubbleMenu.jsx:21-43 | with an editor, visible iff `from != to`, positioned for a non-empty selection |
| BubbleMenu.Toolbar.OnClick | src/components/BubbleMenu.jsx:45-70 | a click outside the toolbar hides it; one inside changes nothing |
| RichTextEditor.Defaults | src/components/RichTextEditor.jsx:22-191 | every attributed block declares `editing` defaulting to true and its other attributes defaulting to ""; the divider declares none |
| RichTextEditor.Insert | src/components/RichTextEditor.jsx:22-191 | the insertion has its own type and the given attributes with `editing` forced to true; the divider's has none |
| RichTextEditor.Resolved | src/components/RichTextEditor.jsx:26-30 | the created node has exactly the declared attributes, given values overriding defaults |
| RichTextEditor.InsertedBlockEdits | src/components/RichTextEditor.jsx:40 | whatever attributes are given, an inserted block starts in editing mode |
| RichTextEditor.Render | src/components/RichTextEditor.jsx:22-191 | an `hr` exactly for the divider, `div` otherwise, with the type's `data-type` |
| RichTextEditor.ParseElement | src/components/RichTextEditor.jsx:22-219 | an `hr` element is read as the standard horizontal rule, whose rule comes first; a `div` is read as the block whose selector matches it, and as nothing when none does |
| RichTextEditor.SelectorsDisjoint | src/components/RichTextEditor.jsx:22-191 | no element is read by two of the seven block selectors |
| RichTextEditor.DividerRuleShadowed | src/components/RichTextEditor.jsx:148-219 | every element the divider's selector reads is read first as a horizontal rule |
| RichTextEditor.RenderParseRoundTrip | src/components/RichTextEditor.jsx:22-191 | every block type but the divider reads back as itself from the element it is written as; the divider reads back as a horizontal rule |
| RichTextEditor.MenuInsertion | src/components/RichTextEditor.jsx:276-300 | a key gives an insertion iff it is one of the seven menu keys (what each inserts is stated by the next two lemmas) |
| RichTextEditor.MenuCoversEveryType | src/components/RichTextEditor.jsx:276-300 | the seven keys insert seven distinct types, covering every type |
| RichTextEditor.MenuBlocksStartFresh | src/components/RichTextEditor.jsx:276-300 | a block inserted from the menu has exactly its declared defaults |
| RichTextEditor.Fires | src/components/RichTextEditor.jsx:226-229 | the number of timer firings among the events |
| RichTextEditor.SavesSnoc | src/components/RichTextEditor.jsx:221-230 | one more update makes its html the pending save; one more firing saves the pending html, if any |
| RichTextEditor.SavesAtMostFires | src/components/RichTextEditor.jsx:225-229 | there are never more saves than timer firings |
| RichTextEditor.Updates | src/components/RichTextEditor.jsx:221 | a burst of updates, one per html |
| RichTextEditor.BurstSavesLast | src/components/RichTextEditor.jsx:221-230 | a burst of updates saves nothing until the timer fires, then saves once, the last html |
| RichTextEditor.EditorChrome.constructor | src/components/RichTextEditor.jsx:195-202 | everything hidden, no save pending |
| RichTextEditor.EditorChrome.RecomputePlus | src/components/RichTextEditor.jsx:236-252 | at an element, "+" shown iff its paragraph is blank and the mouse has entered the editor; outside the document hidden; at a text node the rule throws and "+" stays as it was |
| RichTextEditor.EditorChrome.MouseEnter | src/components/RichTextEditor.jsx:236-321 | the hover flag is set; on the first entry only the "+" rule re-runs with it (keeping "+" when it throws at a text node), later entries leave the "+" button as it was |
| RichTextEditor.EditorChrome.ClickPlus | src/components/RichTextEditor.jsx:325-339 | the block menu opens and the "+" button is no longer drawn |
| RichTextEditor.EditorChrome.MouseDown | src/components/RichTextEditor.jsx:304-315 | the menu stays open iff it was open and the press is in the menu or on "+" |
| RichTextEditor.EditorChrome.SelectBlock | src/components/RichTextEditor.jsx:270-301 | the menu closes; with an editor the key's insertion is made, without one nothing is |
| RichTextEditor.EditorChrome.OnUpdate | src/components/RichTextEditor.jsx:221-225 | the html is reported at once and replaces any pending save; nothing is saved |
| RichTextEditor.EditorChrome.TimerFires | src/components/RichTextEditor.jsx:226-229 | the pending html is saved, as the next entry of the save trace, and nothing is pending |
| RichTextEditor.PlusOutlivesClickIntoText | src/components/RichTextEditor.jsx:236-252 | after "+" is shown beside a blank line, a click into another paragraph's text leaves "+" on screen |
| EditorPage.SavePatch | src/pages/Editor.jsx:37-42 | the update names title, content, cover and update time only |
| EditorPage.SaveKeepsIdentity | src/pages/Editor.jsx:37-43 | saving an existing post keeps its id and creation time and takes the form's fields and the save time |
| EditorPage.NewPost | src/pages/Editor.jsx:45-52 | a new post with the given id, created and updated at the save time |
| EditorPage.CoverOf | src/pages/Editor.jsx:67 | `featuredImage || null`: no cover for a missing or empty image |
| EditorPage.Lookup | src/pages/Editor.jsx:23 | the post with the route's id, none iff no post has it |
| EditorPage.EditorPath | src/pages/Editor.jsx:54 | `/editor/` followed by the id |
| EditorPage.LookupFirst | src/pages/Editor.jsx:23 | the lookup returns the first post carrying the id |
| EditorPage.SavedPostReloads | src/pages/Editor.jsx:37-69 | after saving an existing post, looking it up yields the saved fields with its creation time |
| EditorPage.Editor.constructor | src/pages/Editor.jsx:17-20 | empty title and content, no cover, status "New" |
| EditorPage.Editor.View | src/pages/Editor.jsx:23-31 | the loading notice iff the route names a post the store lacks |
| EditorPage.Editor.LoadPost | src/pages/Editor.jsx:62-69 | the form takes the post's title, content and normalised cover; status "Saved" |
| EditorPage.Editor.HandleSave | src/pages/Editor.jsx:34-59 | with an id, the post is updated by `SavePatch`; without, a new post is appended and the page navigates to it; status "Saved"; the slot then holds the new list |
| EditorPage.Editor.Publish | src/pages/Editor.jsx:94 | a save of the current content and cover |
| EditorPage.Editor.CoverUpload | src/pages/Editor.jsx:72-80 | a file's object URL becomes the cover and the post is saved with it, after which the slot holds the new list; an existing post keeps its route and the page stays, a new one gets `newId` and the page navigates to it; no file changes nothing |
| EditorPage.Editor.TitleChanged | src/pages/Editor.jsx:131-134 | the title changes and the status becomes "Saving..." |
| EditorPage.Editor.ContentChanged | src/pages/Editor.jsx:140-143 | the content changes and the status becomes "Saving..." |
| EditorPage.Editor.AutosaveFired | src/pages/Editor.jsx:144 | only the status changes, to "Saved" |
| EditorPage.PublishDemoPostOnFirstRun | src/pages/Editor.jsx:34-59 | on a first run the slot is empty while the store shows the demo list; publishing demo post "1" writes the demo list with that post updated |
| HomePage.FilteredPosts | src/pages/Home.jsx:15-17 | exactly the posts whose lower-cased title includes the lower-cased query, with their multiplicity |
| HomePage.EmptyQueryShowsAll | src/pages/Home.jsx:15-17 | the empty query shows every post, in order |
| HomePage.SearchIgnoresQueryCase | src/pages/Home.jsx:16 | the case of the query does not matter |
| HomePage.FilteredKeepsOrder | src/pages/Home.jsx:15-17 | the shown posts keep their list order |
| HomePage.DisplayStamp | src/pages/Home.jsx:98 | the last update when there is one, else the creation time |
| HomePage.DiffMinutes | src/pages/Home.jsx:23 | whole minutes elapsed, rounded down |
| HomePage.FormatTime | src/pages/Home.jsx:20-35 | under an hour "N minutes ago"; under a day the hour text; otherwise the date label |
| HomePage.HourBuckets | src/pages/Home.jsx:27-29 | between one hour and a day, the hour count is 1..23, the whole hours elapsed, plural from two on |
| HomePage.OneMinuteIsPlural | src/pages/Home.jsx:25-26 | one minute reads "1 minutes ago" |
| HomePage.ListFor | src/pages/Home.jsx:83-99 | the empty state iff no post matches; otherwise one card per matching post with its time label |

## Left out

- The Tiptap engine: formatting commands (bold, headings, lists, quotes, code, rule), `insertContent` placement in the document, `extendMarkRange`, `isActive`, `getHTML`, undo and schema enforcement beyond the attribute defaults. The document is opaque; an insertion is described by the node it creates.
- Network access: the photo-list request and the bookmark's mock one-second delay; their outcomes are inputs (`FetchOutcome`, `succeeded`). The photo service helper module is not part of this model.
- Timers: the one-second autosave delay is an explicit "timer fires" event, not time.
- Browser storage and JSON: the slot's content is a `Slot` value (absent, unusable text, or a list); a failing write is not modelled.
- PostStore.Load: stored JSON that parses to something other than a list (`null`, a number, an object) is returned as it is and would break the pages; `Slot` cannot hold such a value, so the model only knows lists, absent slots and unparsable text.
- Browser APIs: `window.prompt` (its answer is an input), `alert` (an output flag), `URL.createObjectURL` (the address is `blob:` followed by the file's name), `new URL(url).hostname` on the bookmark card, the tweet widget loader, and `dangerouslySetInnerHTML`.
- Screen geometry: `coordsAtPos` results are inputs to `MenuPosition`; the "+" button's line offset (`getBoundingClientRect`, `scrollTop`) and the block menu's placement are not modelled.
- Dates: timestamps are integer milliseconds, not ISO strings; the "Published dd Mon yyyy" label is `Published(at)` without calendar formatting; post ids from `Date.now()` are the `newId` input.
- Routing, the divider's static markup and the block menu's rendering; the menu's seven keys are the input domain of `SelectBlock`.
- Text encoding: strings are sequences of Unicode scalar values, while JavaScript counts UTF-16 code units, so an id containing characters outside the Basic Multilingual Plane is counted differently.
- Text.ToLower: lower-cases ASCII letters only; JavaScript's `toLowerCase` also maps other scripts.
- EditorPage.Editor.View: the page returns the loading notice before it calls its remaining hooks (`src/pages/Editor.jsx:24-31` against `:34` and `:62`), so a mounted page that moves from the notice to the form changes its hook order and React throws; the model switches views without that failure.
- RichTextEditor.EditorChrome.MouseEnter: when the first entry's re-run of the "+" rule throws inside the effect, React reports an uncaught error and may unmount the page; the model only keeps "+" as it was.
- RichTextEditor.ParseElement: other parse rules of the standard extensions (paragraphs, headings, lists) are not modelled; elements are only `div` and `hr` with a `data-type`, and the order of the standard rules before the seven block rules follows the extension list, as the editor engine orders them.
- React's render scheduling: effects are assumed to run right after the state change they depend on, and batched state updates are applied in handler order.
- The bookmark card's host name display throws for a text that is not a URL; that failure is not modelled.
- Missing fields in fetched photo records (an undefined `author` would throw in the search) are not modelled: every record has all three fields.
