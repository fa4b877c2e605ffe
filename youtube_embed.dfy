/** The YouTube block: the video-id extraction done by one regular expression, and the
    block's input form / preview state machine. */
module YoutubeEmbed {
  import opened Wrappers
  import opened Text

  // ---------------------------------------------------------------------------------------
  // Video-id extraction. The regular expression
  //   (?:youtube\.com\/(?:[^\/]+\/.+\/|(?:v|e(?:mbed)?)\/|.*[?&]v=)|youtu\.be\/)([^"&?\/\s]{11})
  // is evaluated as a backtracking matcher does: the leftmost start index wins; at a start
  // index the three `youtube.com/` alternatives are tried in order; the greedy `.+` and `.*`
  // try their longest extent first, so the LAST usable position is taken.
  // ---------------------------------------------------------------------------------------

  /** The id class `[^"&?\/\s]`. */
  predicate IsIdChar(c: char) {
    c != '"' && c != '&' && c != '?' && c != '/' && !IsJsSpace(c)
  }

  /** `([^"&?\/\s]{11})` at index `j`: the eleven characters there, when all are id characters. */
  function IdAt(s: string, j: int): (r: Option<string>)
    ensures r.Some? <==> 0 <= j && j + 11 <= |s| && forall k :: j <= k < j + 11 ==> IsIdChar(s[k])
    ensures r.Some? ==> r.value == s[j..j + 11]
  {
    if 0 <= j && j + 11 <= |s| && forall k :: j <= k < j + 11 ==> IsIdChar(s[k])
    then Some(s[j..j + 11])
    else None
  }

  /** No line terminator in `s[a..b]`: the range `.` can cover. */
  predicate LineFree(s: string, a: int, b: int)
    requires 0 <= a && b <= |s|
  {
    forall k :: a <= k < b ==> !IsLineTerminator(s[k])
  }

  /** No slash in `s[a..b]`: the range `[^\/]` can cover. */
  predicate SlashFree(s: string, a: int, b: int)
    requires 0 <= a && b <= |s|
  {
    forall k :: a <= k < b ==> s[k] != '/'
  }

  /** The first line terminator at or after `j` (or `|s|`): how far `.*` or `.+` can reach. */
  function LineEnd(s: string, j: nat): (r: nat)
    requires j <= |s|
    ensures j <= r <= |s| && LineFree(s, j, r)
    ensures r < |s| ==> IsLineTerminator(s[r])
    decreases |s| - j
  {
    if j == |s| || IsLineTerminator(s[j]) then j else LineEnd(s, j + 1)
  }

  /** The first slash at or after `j` (or `|s|`): how far `[^\/]+` can reach. */
  function FirstSlash(s: string, j: nat): (r: nat)
    requires j <= |s|
    ensures j <= r <= |s| && SlashFree(s, j, r)
    ensures r < |s| ==> s[r] == '/'
    decreases |s| - j
  {
    if j == |s| || s[j] == '/' then j else FirstSlash(s, j + 1)
  }

  /** A slash at `k` followed by an id. */
  predicate SlashIdAt(s: string, k: int) {
    0 <= k < |s| && s[k] == '/' && IdAt(s, k + 1).Some?
  }

  /** The backtracking of `.+\/` before the id: the largest `k` in `[lo, hi)` with a slash at
      `k` followed by an id, and that id. */
  function LastSlashId(s: string, lo: nat, hi: nat): (r: Option<string>)
    requires hi <= |s|
    ensures r.None? <==> forall k :: lo <= k < hi ==> !SlashIdAt(s, k)
    ensures r.Some? ==> exists k :: lo <= k < hi && SlashIdAt(s, k) && r == IdAt(s, k + 1)
                                    && forall k' :: k < k' < hi ==> !SlashIdAt(s, k')
    decreases hi
  {
    if hi <= lo then None
    else if SlashIdAt(s, hi - 1) then IdAt(s, hi)
    else LastSlashId(s, lo, hi - 1)
  }

  /** `?v=` or `&v=` at `m` followed by an id. */
  predicate QueryIdAt(s: string, m: int) {
    0 <= m < |s| && (s[m] == '?' || s[m] == '&') && HasAt(s, m + 1, "v=") && IdAt(s, m + 3).Some?
  }

  /** The backtracking of `.*[?&]v=` before the id: the largest `m` in `[lo, hi)` at which a
      query parameter `v` with an id starts, and that id. */
  function LastQueryId(s: string, lo: nat, hi: nat): (r: Option<string>)
    requires hi <= |s|
    ensures r.None? <==> forall m :: lo <= m < hi ==> !QueryIdAt(s, m)
    ensures r.Some? ==> exists m :: lo <= m < hi && QueryIdAt(s, m) && r == IdAt(s, m + 3)
                                    && forall m' :: m < m' < hi ==> !QueryIdAt(s, m')
    decreases hi
  {
    if hi <= lo then None
    else if QueryIdAt(s, hi - 1) then IdAt(s, hi + 2)
    else LastQueryId(s, lo, hi - 1)
  }

  /** The greedy choice pinned down: when `m` is the last query-parameter position in
      `[lo, hi)`, the search returns the id after `m`. */
  lemma {:induction false} LastQueryIdIs(s: string, lo: nat, hi: nat, m: nat)
    requires hi <= |s| && lo <= m < hi && QueryIdAt(s, m)
    requires forall m' :: m < m' < hi ==> !QueryIdAt(s, m')
    ensures LastQueryId(s, lo, hi) == IdAt(s, m + 3)
    decreases hi
  {
    if m < hi - 1 {
      assert !QueryIdAt(s, hi - 1);
      LastQueryIdIs(s, lo, hi - 1, m);
    }
  }

  /** The greedy choice pinned down: when `k` is the last slash-before-id position in
      `[lo, hi)`, the search returns the id after `k`. */
  lemma {:induction false} LastSlashIdIs(s: string, lo: nat, hi: nat, k: nat)
    requires hi <= |s| && lo <= k < hi && SlashIdAt(s, k)
    requires forall k' :: k < k' < hi ==> !SlashIdAt(s, k')
    ensures LastSlashId(s, lo, hi) == IdAt(s, k + 1)
    decreases hi
  {
    if k < hi - 1 {
      assert !SlashIdAt(s, hi - 1);
      LastSlashIdIs(s, lo, hi - 1, k);
    }
  }

  /** `LineEnd` is pinned down by a line-free stretch that stops at a terminator or the end. */
  lemma {:induction false} LineEndIs(s: string, j: nat, r: nat)
    requires j <= r <= |s| && LineFree(s, j, r) && (r < |s| ==> IsLineTerminator(s[r]))
    ensures LineEnd(s, j) == r
    decreases r - j
  {
    if j < r {
      LineEndIs(s, j + 1, r);
    }
  }

  /** `FirstSlash` is pinned down by a slash-free stretch that stops at a slash or the end. */
  lemma {:induction false} FirstSlashIs(s: string, j: nat, r: nat)
    requires j <= r <= |s| && SlashFree(s, j, r) && (r < |s| ==> s[r] == '/')
    ensures FirstSlash(s, j) == r
    decreases r - j
  {
    if j < r {
      FirstSlashIs(s, j + 1, r);
    }
  }

  /** First alternative after `youtube.com/`: `[^\/]+\/.+\/` then the id. */
  function NestedPathId(s: string, j: nat): Option<string>
    requires j <= |s|
  {
    var e := FirstSlash(s, j);
    if e == j || e == |s| then None
    else LastSlashId(s, e + 2, LineEnd(s, e + 1))
  }

  /** Second alternative after `youtube.com/`: `v/`, `embed/` or `e/`, then the id. */
  function ShortPathId(s: string, j: nat): Option<string> {
    if HasAt(s, j, "v/") then IdAt(s, j + 2)
    else if HasAt(s, j, "embed/") then IdAt(s, j + 6)
    else if HasAt(s, j, "e/") then IdAt(s, j + 2)
    else None
  }

  /** Third alternative after `youtube.com/`: `.*[?&]v=` then the id. */
  function QueryId(s: string, j: nat): Option<string>
    requires j <= |s|
  {
    LastQueryId(s, j, LineEnd(s, j))
  }

  /** The match attempt at start index `i`, with the alternatives in the regex's order. */
  function MatchAt(s: string, i: nat): Option<string> {
    if HasAt(s, i, "youtube.com/") then
      match NestedPathId(s, i + 12)
      case Some(id) => Some(id)
      case None =>
        match ShortPathId(s, i + 12)
        case Some(id) => Some(id)
        case None => QueryId(s, i + 12)
    else if HasAt(s, i, "youtu.be/") then IdAt(s, i + 9)
    else None
  }

  /** The match attempt at every start index of `s`, from left to right. */
  function Attempts(s: string): (r: seq<Option<string>>)
    ensures |r| == |s| + 1
    ensures forall i :: 0 <= i <= |s| ==> r[i] == MatchAt(s, i)
  {
    seq(|s| + 1, i requires 0 <= i <= |s| => MatchAt(s, i))
  }

  /** The first successful attempt in `xs`: the leftmost match wins. */
  function FirstSome<T>(xs: seq<Option<T>>): (r: Option<T>)
    ensures r.None? <==> forall i :: 0 <= i < |xs| ==> xs[i].None?
    ensures r.Some? ==> exists i :: 0 <= i < |xs| && xs[i] == r
                                    && forall i' :: 0 <= i' < i ==> xs[i'].None?
  {
    if xs == [] then None
    else if xs[0].Some? then xs[0]
    else
      var r := FirstSome(xs[1..]);
      assert r.Some? ==> exists i :: 1 <= i < |xs| && xs[i] == r
                                     && forall i' :: 0 <= i' < i ==> xs[i'].None? by {
        if r.Some? {
          var i :| 0 <= i < |xs[1..]| && xs[1..][i] == r && forall i' :: 0 <= i' < i ==> xs[1..][i'].None?;
          assert forall i' :: 1 <= i' < i + 1 ==> xs[i'] == xs[1..][i' - 1];
        }
      }
      r
  }

  /** `getVideoId(url)`: the first capture group of the leftmost match, or `null`. */
  function GetVideoId(url: string): Option<string> {
    FirstSome(Attempts(url))
  }

  // ---------------------------------------------------------------------------------------
  // The accepted URL shapes, stated declaratively.
  // ---------------------------------------------------------------------------------------

  /** `youtu.be/ID`. */
  ghost predicate ShortLinkShape(s: string, i: int, id: string) {
    HasAt(s, i, "youtu.be/") && IdAt(s, i + 9) == Some(id)
  }

  /** `youtube.com/v/ID`, `youtube.com/e/ID` or `youtube.com/embed/ID`. */
  ghost predicate EmbedPathShape(s: string, i: int, id: string) {
    && HasAt(s, i, "youtube.com/")
    && (|| (HasAt(s, i + 12, "v/") && IdAt(s, i + 14) == Some(id))
        || (HasAt(s, i + 12, "e/") && IdAt(s, i + 14) == Some(id))
        || (HasAt(s, i + 12, "embed/") && IdAt(s, i + 18) == Some(id)))
  }

  /** `youtube.com/...?v=ID` or `youtube.com/...&v=ID`, with no line break before the `?`/`&`. */
  ghost predicate QueryShape(s: string, i: int, id: string) {
    && HasAt(s, i, "youtube.com/")
    && exists m :: i + 12 <= m && QueryIdAt(s, m) && LineFree(s, i + 12, m) && IdAt(s, m + 3) == Some(id)
  }

  /** `youtube.com/x/y/ID`: a non-empty slash-free segment, a slash, a non-empty stretch
      without line breaks, a slash and the id. */
  ghost predicate NestedPathShape(s: string, i: int, id: string) {
    && HasAt(s, i, "youtube.com/")
    && exists e, k :: && i + 12 < e && e + 1 < k && SlashIdAt(s, k)
                      && SlashFree(s, i + 12, e) && s[e] == '/'
                      && LineFree(s, e + 1, k) && IdAt(s, k + 1) == Some(id)
  }

  /** Some accepted shape starts at index `i` and carries the id `id`. */
  ghost predicate AcceptedAt(s: string, i: int, id: string) {
    ShortLinkShape(s, i, id) || EmbedPathShape(s, i, id) || QueryShape(s, i, id) || NestedPathShape(s, i, id)
  }

  /** A video id is eleven id characters. */
  predicate IsVideoId(id: string) {
    |id| == 11 && forall k :: 0 <= k < 11 ==> IsIdChar(id[k])
  }

  /** One mismatching character rules an occurrence out. */
  lemma NotHasAtAt(s: string, i: int, p: string, k: nat)
    requires k < |p| && 0 <= i + k < |s| && s[i + k] != p[k]
    ensures !HasAt(s, i, p)
  {
  }

  /** The two host prefixes cannot start at the same index. */
  lemma HostsExclusive(s: string, i: nat)
    requires HasAt(s, i, "youtu.be/")
    ensures !HasAt(s, i, "youtube.com/")
  {
    assert s[i + 5] == "youtu.be/"[5] == '.';
    NotHasAtAt(s, i, "youtube.com/", 5);
  }

  /** Whatever a match attempt returns is the id of an accepted shape starting there. */
  lemma MatchAtSound(s: string, i: nat, id: string)
    requires MatchAt(s, i) == Some(id)
    ensures AcceptedAt(s, i, id)
    ensures IsVideoId(id)
  {
    if HasAt(s, i, "youtube.com/") {
      if NestedPathId(s, i + 12).Some? {
        NestedPathSound(s, i, id);
      } else if ShortPathId(s, i + 12).Some? {
        assert EmbedPathShape(s, i, id);
      } else {
        QuerySound(s, i, id);
      }
    } else {
      assert ShortLinkShape(s, i, id);
    }
  }

  lemma NestedPathSound(s: string, i: nat, id: string)
    requires HasAt(s, i, "youtube.com/") && NestedPathId(s, i + 12) == Some(id)
    ensures NestedPathShape(s, i, id)
  {
    var e := FirstSlash(s, i + 12);
    var L := LineEnd(s, e + 1);
    var k :| e + 2 <= k < L && SlashIdAt(s, k) && Some(id) == IdAt(s, k + 1);
    assert LineFree(s, e + 1, k);
  }

  lemma QuerySound(s: string, i: nat, id: string)
    requires HasAt(s, i, "youtube.com/") && QueryId(s, i + 12) == Some(id)
    ensures QueryShape(s, i, id)
  {
    var j := i + 12;
    var m :| j <= m < LineEnd(s, j) && QueryIdAt(s, m) && Some(id) == IdAt(s, m + 3);
    assert LineFree(s, j, m);
  }

  /** A stretch without line breaks that ends at a non-terminator lies before `LineEnd`. */
  lemma WithinLine(s: string, j: nat, m: nat)
    requires j <= m < |s| && LineFree(s, j, m) && !IsLineTerminator(s[m])
    ensures m < LineEnd(s, j)
  {
  }

  /** At a start index where an accepted shape begins, the match attempt succeeds. */
  lemma MatchAtComplete(s: string, i: nat, id: string)
    requires AcceptedAt(s, i, id)
    ensures MatchAt(s, i).Some?
  {
    if ShortLinkShape(s, i, id) {
      HostsExclusive(s, i);
    } else if EmbedPathShape(s, i, id) {
      EmbedPathMatches(s, i, id);
    } else if QueryShape(s, i, id) {
      QueryMatches(s, i, id);
    } else {
      NestedPathMatches(s, i, id);
    }
  }

  lemma EmbedPathMatches(s: string, i: nat, id: string)
    requires EmbedPathShape(s, i, id)
    ensures ShortPathId(s, i + 12).Some?
  {
    var j := i + 12;
    if HasAt(s, j, "e/") {
      assert s[j] == "e/"[0] && s[j + 1] == "e/"[1];
      NotHasAtAt(s, j, "v/", 0);
      NotHasAtAt(s, j, "embed/", 1);
    } else if HasAt(s, j, "embed/") {
      assert s[j] == "embed/"[0];
      NotHasAtAt(s, j, "v/", 0);
    }
  }

  lemma QueryMatches(s: string, i: nat, id: string)
    requires QueryShape(s, i, id)
    ensures QueryId(s, i + 12).Some?
  {
    var j := i + 12;
    var m :| j <= m && QueryIdAt(s, m) && LineFree(s, j, m) && IdAt(s, m + 3) == Some(id);
    WithinLine(s, j, m);
  }

  lemma NestedPathMatches(s: string, i: nat, id: string)
    requires NestedPathShape(s, i, id)
    ensures NestedPathId(s, i + 12).Some?
  {
    var j := i + 12;
    var e, k :| && j < e && e + 1 < k && SlashIdAt(s, k)
                && SlashFree(s, j, e) && s[e] == '/'
                && LineFree(s, e + 1, k) && IdAt(s, k + 1) == Some(id);
    WithinLine(s, e + 1, k);
  }

  /** No accepted shape starts before index `i`. */
  ghost predicate NoShapeBefore(s: string, i: int) {
    forall i', id' :: 0 <= i' < i ==> !AcceptedAt(s, i', id')
  }

  /** Where every earlier attempt fails, no accepted shape starts earlier. */
  lemma NoShapeBeforeFailedAttempts(s: string, i: nat)
    requires forall i' :: 0 <= i' < i ==> MatchAt(s, i').None?
    ensures NoShapeBefore(s, i)
  {
    forall i', id' | 0 <= i' < i
      ensures !AcceptedAt(s, i', id')
    {
      if AcceptedAt(s, i', id') {
        MatchAtComplete(s, i', id');
      }
    }
  }

  /** Soundness of `getVideoId`: a returned id is a video id carried by an accepted shape,
      and no accepted shape starts further left. */
  lemma GetVideoIdSound(s: string, id: string)
    requires GetVideoId(s) == Some(id)
    ensures IsVideoId(id)
    ensures exists i :: 0 <= i <= |s| && AcceptedAt(s, i, id) && NoShapeBefore(s, i)
  {
    var xs := Attempts(s);
    var i :| 0 <= i < |xs| && xs[i] == Some(id) && forall i' :: 0 <= i' < i ==> xs[i'].None?;
    assert forall i' :: 0 <= i' < i ==> MatchAt(s, i').None? by {
      forall i' | 0 <= i' < i
        ensures MatchAt(s, i').None?
      {
        assert xs[i'] == MatchAt(s, i');
      }
    }
    MatchAtSound(s, i, id);
    NoShapeBeforeFailedAttempts(s, i);
  }

  /** Completeness of `getVideoId`: a URL in which an accepted shape occurs yields an id. */
  lemma GetVideoIdComplete(s: string, i: nat, id: string)
    requires AcceptedAt(s, i, id)
    ensures GetVideoId(s).Some?
  {
    MatchAtComplete(s, i, id);
    assert Attempts(s)[i].Some?;
  }

  /** A URL that contains neither `youtube.com/` nor `youtu.be/` yields no id. */
  lemma NoHostNoId(s: string)
    requires !Includes(s, "youtube.com/") && !Includes(s, "youtu.be/")
    ensures GetVideoId(s) == None
  {
  }

  /** Eleven id characters in place are read as the id. */
  lemma IdAtSlice(s: string, j: nat, id: string)
    requires IsVideoId(id) && HasAt(s, j, id)
    ensures IdAt(s, j) == Some(id)
  {
    forall k | j <= k < j + 11
      ensures IsIdChar(s[k])
    {
      assert s[j + (k - j)] == id[k - j];
    }
    assert s[j..j + 11] == id;
  }

  // ---------------------------------------------------------------------------------------
  // The three URL forms a user typically pastes.
  // ---------------------------------------------------------------------------------------

  const SampleId: string := "dQw4w9WgXcQ"
  const WatchUrl: string := "https://www.youtube.com/watch?v=dQw4w9WgXcQ"
  const ShortUrl: string := "https://youtu.be/dQw4w9WgXcQ"
  const EmbedUrl: string := "https://www.youtube.com/embed/dQw4w9WgXcQ"

  lemma SampleIdIsVideoId()
    ensures IsVideoId(SampleId)
  {
    forall k | 0 <= k < 11
      ensures IsIdChar(SampleId[k])
    {
      var c := SampleId[k];
      assert 'a' <= c <= 'z' || 'A' <= c <= 'Z' || '0' <= c <= '9';
    }
  }

  /** No attempt before index `n` succeeds when none of those characters is a `y`. */
  lemma NoHostBefore(s: string, n: nat)
    requires n <= |s| && forall i :: 0 <= i < n ==> s[i] != 'y'
    ensures forall i :: 0 <= i < n ==> MatchAt(s, i).None?
  {
    forall i | 0 <= i < n
      ensures MatchAt(s, i).None?
    {
      NotHasAtAt(s, i, "youtube.com/", 0);
      NotHasAtAt(s, i, "youtu.be/", 0);
    }
  }

  /** The leftmost successful attempt at index `i` is the result. */
  lemma ResultAt(s: string, i: nat, id: string)
    requires i <= |s| && MatchAt(s, i) == Some(id)
    requires forall i' :: 0 <= i' < i ==> MatchAt(s, i').None?
    ensures GetVideoId(s) == Some(id)
  {
    var xs := Attempts(s);
    assert xs[i] == Some(id);
    assert forall i' :: 0 <= i' < i ==> xs[i'].None?;
  }

  lemma WatchLineEnd()
    ensures LineEnd(WatchUrl, 24) == |WatchUrl|
  {
    var s := WatchUrl;
    forall k | 24 <= k < |s|
      ensures !IsLineTerminator(s[k])
    {
    }
    LineEndIs(s, 24, |s|);
  }

  lemma WatchLastQuery()
    ensures QueryIdAt(WatchUrl, 29)
    ensures forall m :: 29 < m < |WatchUrl| ==> !QueryIdAt(WatchUrl, m)
  {
    var s := WatchUrl;
    forall m | 29 < m < |s|
      ensures !QueryIdAt(s, m)
    {
      assert s[m] != '?' && s[m] != '&';
    }
  }

  lemma WatchIdAt()
    ensures IdAt(WatchUrl, 32) == Some(SampleId)
  {
    SampleIdIsVideoId();
    assert HasAt(WatchUrl, 32, SampleId);
    IdAtSlice(WatchUrl, 32, SampleId);
  }

  lemma WatchQuery()
    ensures QueryId(WatchUrl, 24) == Some(SampleId)
  {
    WatchLineEnd();
    WatchLastQuery();
    LastQueryIdIs(WatchUrl, 24, |WatchUrl|, 29);
    WatchIdAt();
  }

  lemma WatchNoPath()
    ensures NestedPathId(WatchUrl, 24) == None
    ensures ShortPathId(WatchUrl, 24) == None
  {
    var s := WatchUrl;
    forall k | 24 <= k < |s|
      ensures s[k] != '/'
    {
    }
    FirstSlashIs(s, 24, |s|);
    NotHasAtAt(s, 24, "v/", 0);
    NotHasAtAt(s, 24, "embed/", 0);
    NotHasAtAt(s, 24, "e/", 0);
  }

  lemma WatchMatch()
    ensures MatchAt(WatchUrl, 12) == Some(SampleId)
  {
    assert HasAt(WatchUrl, 12, "youtube.com/");
    WatchNoPath();
    WatchQuery();
  }

  lemma WatchNoEarlyMatch()
    ensures forall i :: 0 <= i < 12 ==> MatchAt(WatchUrl, i).None?
  {
    NoHostBefore(WatchUrl, 12);
  }

  /** `https://www.youtube.com/watch?v=dQw4w9WgXcQ` yields `dQw4w9WgXcQ`. */
  lemma WatchUrlYieldsId()
    ensures GetVideoId(WatchUrl) == Some(SampleId)
  {
    WatchNoEarlyMatch();
    WatchMatch();
    ResultAt(WatchUrl, 12, SampleId);
  }

  lemma ShortMatch()
    ensures MatchAt(ShortUrl, 8) == Some(SampleId)
  {
    assert HasAt(ShortUrl, 8, "youtu.be/");
    HostsExclusive(ShortUrl, 8);
    SampleIdIsVideoId();
    assert HasAt(ShortUrl, 17, SampleId);
    IdAtSlice(ShortUrl, 17, SampleId);
  }

  lemma ShortNoEarlyMatch()
    ensures forall i :: 0 <= i < 8 ==> MatchAt(ShortUrl, i).None?
  {
    NoHostBefore(ShortUrl, 8);
  }

  /** `https://youtu.be/dQw4w9WgXcQ` yields `dQw4w9WgXcQ`. */
  lemma ShortUrlYieldsId()
    ensures GetVideoId(ShortUrl) == Some(SampleId)
  {
    ShortNoEarlyMatch();
    ShortMatch();
    ResultAt(ShortUrl, 8, SampleId);
  }

  lemma EmbedNoNestedPath()
    ensures NestedPathId(EmbedUrl, 24) == None
  {
    var s := EmbedUrl;
    forall k | 24 <= k < 29
      ensures s[k] != '/'
    {
    }
    FirstSlashIs(s, 24, 29);
    forall k | 30 <= k < |s|
      ensures !IsLineTerminator(s[k])
    {
    }
    LineEndIs(s, 30, |s|);
    forall k | 31 <= k < |s|
      ensures !SlashIdAt(s, k)
    {
      assert s[k] != '/';
    }
  }

  lemma EmbedShortPath()
    ensures ShortPathId(EmbedUrl, 24) == Some(SampleId)
  {
    NotHasAtAt(EmbedUrl, 24, "v/", 0);
    assert HasAt(EmbedUrl, 24, "embed/");
    SampleIdIsVideoId();
    assert HasAt(EmbedUrl, 30, SampleId);
    IdAtSlice(EmbedUrl, 30, SampleId);
  }

  lemma EmbedMatch()
    ensures MatchAt(EmbedUrl, 12) == Some(SampleId)
  {
    assert HasAt(EmbedUrl, 12, "youtube.com/");
    EmbedNoNestedPath();
    EmbedShortPath();
  }

  lemma EmbedNoEarlyMatch()
    ensures forall i :: 0 <= i < 12 ==> MatchAt(EmbedUrl, i).None?
  {
    NoHostBefore(EmbedUrl, 12);
  }

  /** `https://www.youtube.com/embed/dQw4w9WgXcQ` yields `dQw4w9WgXcQ`. */
  lemma EmbedUrlYieldsId()
    ensures GetVideoId(EmbedUrl) == Some(SampleId)
  {
    EmbedNoEarlyMatch();
    EmbedMatch();
    ResultAt(EmbedUrl, 12, SampleId);
  }

  // ---------------------------------------------------------------------------------------
  // The block's node view: a URL input while editing, an embedded player otherwise.
  // ---------------------------------------------------------------------------------------

  /** The attributes the editor stores on a YouTube node. */
  datatype YoutubeAttrs = YoutubeAttrs(src: string, url: string, editing: bool)

  const EmbedPrefix: string := "https://www.youtube.com/embed/"

  /** The player address the preview shows. The id is recomputed from the stored url, and a
      url without an id is rendered as the text `null`. */
  function PreviewSrc(stored: YoutubeAttrs): (r: string)
    ensures |EmbedPrefix| <= |r| && r[..|EmbedPrefix|] == EmbedPrefix
    ensures match GetVideoId(stored.url)
      case Some(id) => r[|EmbedPrefix|..] == id
      case None => r[|EmbedPrefix|..] == "null"
  {
    match GetVideoId(stored.url)
    case Some(id) => EmbedPrefix + id
    case None => EmbedPrefix + "null"
  }

  /** A stored `src` always plays an eleven-character id taken from the stored url. */
  lemma PreviewSrcPlaysId(stored: YoutubeAttrs)
    requires GetVideoId(stored.url).Some?
    ensures |PreviewSrc(stored)| == |EmbedPrefix| + 11
    ensures IsVideoId(PreviewSrc(stored)[|EmbedPrefix|..])
  {
    GetVideoIdSound(stored.url, GetVideoId(stored.url).value);
    assert PreviewSrc(stored)[|EmbedPrefix|..] == GetVideoId(stored.url).value;
  }

  /** What the node view renders. */
  datatype YoutubeView = UrlInput(text: string) | Player(src: string)

  class YoutubeBlock {
    /** The text of the URL input. */
    var url: string
    /** Whether the input is shown instead of the player. */
    var editing: bool
    /** The node's attributes in the document. */
    var attrs: YoutubeAttrs

    /** The effect that copies `editing` into the node has run. */
    ghost predicate Valid()
      reads this
    {
      attrs.editing == editing
    }

    /** Outside editing, the stored `src` is the address the player shows. */
    ghost predicate SrcMatchesPlayer()
      reads this
    {
      !editing ==> attrs.src == PreviewSrc(attrs)
    }

    /** The view is mounted on a node: the input starts from the stored url and the mode from
        the stored flag. */
    constructor (node: YoutubeAttrs)
      ensures url == node.url && editing == node.editing && attrs == node
      ensures Valid()
    {
      url := node.url;
      editing := node.editing;
      attrs := node;
    }

    /** The rendered view: the input while editing, otherwise the player. */
    function View(): (r: YoutubeView)
      reads this
      ensures r.UrlInput? <==> editing
      ensures r.UrlInput? ==> r.text == url
      ensures r.Player? ==> r.src == PreviewSrc(attrs)
    {
      if editing then UrlInput(url) else Player(PreviewSrc(attrs))
    }

    /** Typing into the input replaces its text and nothing else. */
    method Type(text: string)
      requires editing
      modifies this`url
      ensures url == text
    {
      url := text;
    }

    /** A key press in the input. Enter on a non-blank url with an id stores the embed
        address, the url and `editing: false` and leaves editing; Enter on a non-blank url
        without an id raises an alert and changes nothing; any other key, or a blank url,
        does nothing. */
    method KeyDown(key: string) returns (alerted: bool)
      requires editing && Valid()
      modifies this
      ensures url == old(url) && Valid() && SrcMatchesPlayer()
      ensures key != "Enter" || Trim(url) == [] ==> !alerted && editing && attrs == old(attrs)
      ensures key == "Enter" && Trim(url) != [] && GetVideoId(url).None? ==>
        alerted && editing && attrs == old(attrs)
      ensures key == "Enter" && Trim(url) != [] && GetVideoId(url).Some? ==>
        !alerted && !editing && attrs == YoutubeAttrs(EmbedPrefix + GetVideoId(url).value, url, false)
    {
      alerted := false;
      if key == "Enter" && Trim(url) != [] {
        var videoId := GetVideoId(url);
        if videoId.Some? {
          attrs := YoutubeAttrs(EmbedPrefix + videoId.value, url, false);
          editing := false;
        } else {
          alerted := true;
        }
      }
    }

    /** "Change Video": back to the input, which still holds the last text typed. */
    method ChangeVideo()
      requires !editing && Valid()
      modifies this
      ensures editing && url == old(url) && attrs == old(attrs).(editing := true)
      ensures Valid() && SrcMatchesPlayer()
    {
      editing := true;
      attrs := attrs.(editing := true);
    }
  }
}
