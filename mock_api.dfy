/** The in-memory stand-in for the backend: module-level arrays of videos and
    comments, searched and filtered without change, and updated in place by the
    comment and subscription calls. */
module MockApi {
  import opened Base
  import opened JsText
  import opened Seqs

  datatype Video = Video(
    id: string, title: string, description: string, thumbnail: string, duration: string,
    views: nat, publishedAt: string, channelId: string,
    isLiked: bool, isSaved: bool, isSubscribed: bool, categoryID: string)

  datatype Comment = Comment(
    id: string, videoId: string, author: string, authorAvatar: string, text: string, date: string,
    likes: int, dislikes: int, isLiked: bool, isDisliked: bool)

  const Thumbnail := "/placeholder.svg?height=180&width=320"

  function MockVideo(id: string, title: string, description: string, duration: string, views: nat,
                     publishedAt: string, channelId: string): Video {
    Video(id, title, description, Thumbnail, duration, views, publishedAt, channelId, false, false, false, "")
  }

  /** The ids of the six mock channels. */
  const MockChannelIds: seq<string> :=
    ["nature-explorer", "code-academy", "gaming-central", "chefs-kitchen", "space-news", "fit-life"]

  /** The six mock videos, one per channel. */
  const MockVideos: seq<Video> := [
    MockVideo("1", "Amazing Nature Documentary - Wildlife in 4K", "Explore the beauty of nature in stunning 4K resolution",
              "15:42", 1250000, "2024-01-15T10:00:00Z", "nature-explorer"),
    MockVideo("2", "Learn React in 30 Minutes - Complete Tutorial", "Master React fundamentals in this comprehensive tutorial",
              "30:15", 890000, "2024-01-14T14:30:00Z", "code-academy"),
    MockVideo("3", "Epic Gaming Moments - Best Highlights 2024", "The most incredible gaming moments from this year",
              "12:33", 2100000, "2024-01-13T20:15:00Z", "gaming-central"),
    MockVideo("4", "Cooking Masterclass - Italian Pasta Secrets", "Learn authentic Italian pasta techniques from a master chef",
              "25:18", 650000, "2024-01-12T16:45:00Z", "chefs-kitchen"),
    MockVideo("5", "Space Exploration - Mars Mission Updates", "Latest updates from the Mars exploration mission",
              "18:27", 1800000, "2024-01-11T12:00:00Z", "space-news"),
    MockVideo("6", "Fitness Transformation - 90 Day Journey", "Follow an incredible 90-day fitness transformation",
              "22:45", 950000, "2024-01-10T08:30:00Z", "fit-life")
  ]

  const MockComments: seq<Comment> := [
    Comment("1", "1", "User One", "", "Great video!", "2 days ago", 12, 0, false, false),
    Comment("2", "1", "User Two", "", "Thanks for sharing.", "1 day ago", 5, 1, false, false)
  ]

  // ---------------------------------------------------------------------------
  // Searching and filtering

  /** Whether a video matches a query: its title or its description contains the
      query, all three lower-cased. */
  predicate Matches(v: Video, query: string) {
    Contains(Lower(v.title), Lower(query)) || Contains(Lower(v.description), Lower(query))
  }

  /** `searchVideos(query)`'s result. */
  function SearchResults(videos: seq<Video>, query: string): seq<Video> {
    Filter(videos, (v: Video) => Matches(v, query))
  }

  /** The search returns exactly the matching videos, each as often as it occurs, in
      their original order. */
  lemma SearchSpec(videos: seq<Video>, query: string, v: Video, rest: seq<Video>)
    ensures v in SearchResults(videos, query) <==> v in videos && Matches(v, query)
    ensures multiset(SearchResults(videos, query))[v] == if Matches(v, query) then multiset(videos)[v] else 0
    ensures SearchResults(videos + rest, query) == SearchResults(videos, query) + SearchResults(rest, query)
  {
    FilterMembership(videos, (v: Video) => Matches(v, query), v);
    FilterCount(videos, (v: Video) => Matches(v, query), v);
    FilterConcat(videos, rest, (v: Video) => Matches(v, query));
  }

  /** The empty query matches every video. */
  lemma SearchEmptyQuery(videos: seq<Video>)
    ensures SearchResults(videos, "") == videos
  {
    forall i | 0 <= i < |videos| ensures Matches(videos[i], "") {
      ContainsEmpty(Lower(videos[i].title));
    }
    FilterKeepsAll(videos, (v: Video) => Matches(v, ""));
  }

  /** `fetchComments(videoId)`'s result. */
  function CommentsOf(comments: seq<Comment>, videoId: string): seq<Comment> {
    Filter(comments, (c: Comment) => c.videoId == videoId)
  }

  /** Exactly the comments on that video, in their original order; a comment added
      later for the same video comes last. */
  lemma CommentsOfSpec(comments: seq<Comment>, videoId: string, c: Comment)
    ensures c in CommentsOf(comments, videoId) <==> c in comments && c.videoId == videoId
    ensures multiset(CommentsOf(comments, videoId))[c] == if c.videoId == videoId then multiset(comments)[c] else 0
    ensures CommentsOf(comments + [c], videoId) ==
      CommentsOf(comments, videoId) + (if c.videoId == videoId then [c] else [])
  {
    FilterMembership(comments, (c: Comment) => c.videoId == videoId, c);
    FilterCount(comments, (c: Comment) => c.videoId == videoId, c);
    FilterConcat(comments, [c], (c: Comment) => c.videoId == videoId);
  }

  // ---------------------------------------------------------------------------
  // Liking and disliking

  /** The counters and flags of a comment agree: no negative count, a set flag has a
      count of at least one behind it, and a comment is never both liked and disliked. */
  predicate Consistent(c: Comment) {
    c.likes >= 0 && c.dislikes >= 0
    && (c.isLiked ==> c.likes >= 1) && (c.isDisliked ==> c.dislikes >= 1)
    && !(c.isLiked && c.isDisliked)
  }

  /** What `likeComment` does to the comment: a liked comment is unliked; otherwise it
      is liked, and a dislike is withdrawn. */
  function Like(c: Comment): (r: Comment)
    ensures r.id == c.id && r.videoId == c.videoId && r.text == c.text
    ensures c.isLiked ==> !r.isLiked && r.likes == c.likes - 1 && r.isDisliked == c.isDisliked && r.dislikes == c.dislikes
    ensures !c.isLiked ==> r.isLiked && !r.isDisliked && r.likes == c.likes + 1
                           && r.dislikes == (if c.isDisliked then c.dislikes - 1 else c.dislikes)
  {
    if c.isLiked then c.(likes := c.likes - 1, isLiked := false)
    else
      var liked := c.(likes := c.likes + 1, isLiked := true);
      if c.isDisliked then liked.(dislikes := c.dislikes - 1, isDisliked := false) else liked
  }

  /** What `dislikeComment` does: the mirror image of `Like`. */
  function Dislike(c: Comment): (r: Comment)
    ensures r.id == c.id && r.videoId == c.videoId && r.text == c.text
    ensures c.isDisliked ==> !r.isDisliked && r.dislikes == c.dislikes - 1 && r.isLiked == c.isLiked && r.likes == c.likes
    ensures !c.isDisliked ==> r.isDisliked && !r.isLiked && r.dislikes == c.dislikes + 1
                              && r.likes == (if c.isLiked then c.likes - 1 else c.likes)
  {
    if c.isDisliked then c.(dislikes := c.dislikes - 1, isDisliked := false)
    else
      var disliked := c.(dislikes := c.dislikes + 1, isDisliked := true);
      if c.isLiked then disliked.(likes := c.likes - 1, isLiked := false) else disliked
  }

  /** Both reactions keep a comment consistent. */
  lemma ReactionsKeepConsistent(c: Comment)
    requires Consistent(c)
    ensures Consistent(Like(c)) && Consistent(Dislike(c))
  {
  }

  /** The two reactions are mirror images of each other under swapping the like and
      dislike sides. */
  function Swap(c: Comment): Comment {
    c.(likes := c.dislikes, dislikes := c.likes, isLiked := c.isDisliked, isDisliked := c.isLiked)
  }

  lemma DislikeMirrorsLike(c: Comment)
    ensures Dislike(c) == Swap(Like(Swap(c)))
  {
  }

  /** Liking twice gives the comment back exactly when it was not disliked: from a
      dislike the first like withdraws it, and the second like does not restore it. */
  lemma LikeTwice(c: Comment)
    requires Consistent(c)
    ensures Like(Like(c)) == c <==> !c.isDisliked
  {
    if c.isDisliked {
      assert Like(Like(c)).isDisliked != c.isDisliked;
    }
  }

  /** A reaction never moves the comment's score (likes minus dislikes) by more than
      two. */
  lemma ReactionScore(c: Comment)
    ensures var d := (Like(c).likes - Like(c).dislikes) - (c.likes - c.dislikes); d == -1 || d == 1 || d == 2
    ensures var d := (Dislike(c).likes - Dislike(c).dislikes) - (c.likes - c.dislikes); d == 1 || d == -1 || d == -2
  {
  }

  /** The first index whose id is `id`, as `Array.prototype.find` picks it. */
  function FindComment(comments: seq<Comment>, id: string): (r: Option<nat>)
    ensures r.None? <==> forall i :: 0 <= i < |comments| ==> comments[i].id != id
    ensures r.Some? ==> r.value < |comments| && comments[r.value].id == id
                        && forall j :: 0 <= j < r.value ==> comments[j].id != id
  {
    if comments == [] then None
    else if comments[0].id == id then Some(0)
    else match FindComment(comments[1..], id)
      case None => None
      case Some(i) => Some(i + 1)
  }

  /** The first video of a channel. */
  function FindChannelVideo(videos: seq<Video>, channelId: string): (r: Option<nat>)
    ensures r.None? <==> forall i :: 0 <= i < |videos| ==> videos[i].channelId != channelId
    ensures r.Some? ==> r.value < |videos| && videos[r.value].channelId == channelId
                        && forall j :: 0 <= j < r.value ==> videos[j].channelId != channelId
  {
    if videos == [] then None
    else if videos[0].channelId == channelId then Some(0)
    else match FindChannelVideo(videos[1..], channelId)
      case None => None
      case Some(i) => Some(i + 1)
  }

  /** In the mock data the i-th video belongs to the i-th channel, so subscribing to
      a channel flips that channel's own video. */
  lemma SubscribeTargets()
    ensures |MockVideos| == |MockChannelIds|
    ensures forall i :: 0 <= i < |MockChannelIds| ==> FindChannelVideo(MockVideos, MockChannelIds[i]) == Some(i)
  {
    assert forall i :: 0 <= i < |MockVideos| ==> MockVideos[i].channelId == MockChannelIds[i];
    assert forall i, j :: 0 <= i < j < |MockChannelIds| ==> MockChannelIds[i] != MockChannelIds[j];
  }

  /** A value `===` can compare: `subscribeToChannel` declares its argument a
      number, while every stored channel id is a string. */
  datatype Key = NumKey(n: int) | StrKey(s: string)

  /** JavaScript's strict equality on the two kinds: values of different types are
      never equal. */
  predicate StrictEquals(a: Key, b: Key) {
    match (a, b)
      case (NumKey(x), NumKey(y)) => x == y
      case (StrKey(x), StrKey(y)) => x == y
      case _ => false
  }

  /** The lookup of `subscribeToChannel` with the argument as declared. */
  function FindChannelVideoByKey(videos: seq<Video>, key: Key): (r: Option<nat>)
    ensures r.Some? ==> r.value < |videos| && StrictEquals(StrKey(videos[r.value].channelId), key)
    ensures r.None? <==> forall i :: 0 <= i < |videos| ==> !StrictEquals(StrKey(videos[i].channelId), key)
  {
    if videos == [] then None
    else if StrictEquals(StrKey(videos[0].channelId), key) then Some(0)
    else match FindChannelVideoByKey(videos[1..], key)
      case None => None
      case Some(i) => Some(i + 1)
  }

  /** With a number, as the parameter's type asks for, no video is ever found, so
      every call throws "Channel not found". */
  lemma SubscribeByNumberNeverFinds(videos: seq<Video>, n: int)
    ensures FindChannelVideoByKey(videos, NumKey(n)) == None
  {
  }

  /** With the channel's string id, the lookup is `FindChannelVideo`'s. */
  lemma {:induction false} SubscribeByStringFinds(videos: seq<Video>, channelId: string)
    ensures FindChannelVideoByKey(videos, StrKey(channelId)) == FindChannelVideo(videos, channelId)
  {
    if videos != [] && videos[0].channelId != channelId {
      SubscribeByStringFinds(videos[1..], channelId);
    }
  }

  /** The comment every `addComment` call creates. */
  function NewComment(videoId: string, text: string, now: int): (c: Comment)
    ensures c.videoId == videoId && c.text == text && Consistent(c)
    ensures c.likes == 0 && c.dislikes == 0 && !c.isLiked && !c.isDisliked
  {
    Comment("comment_" + IntToString(now), videoId, "Current User", "", text, "Just now", 0, 0, false, false)
  }

  /** The module-level arrays. `delay` only postpones the calls and is left out. */
  class MockStore {
    var videos: seq<Video>
    var comments: seq<Comment>

    /** Every comment is consistent. */
    predicate Valid()
      reads this`comments
    {
      forall i :: 0 <= i < |comments| ==> Consistent(comments[i])
    }

    /** The store as the module is loaded. */
    constructor ()
      ensures Valid()
      ensures videos == MockVideos && comments == MockComments
    {
      videos := MockVideos;
      comments := MockComments;
    }

    /** `searchVideos(query)`. */
    method SearchVideos(query: string) returns (r: seq<Video>)
      ensures r == SearchResults(videos, query)
    {
      r := Filter(videos, (v: Video) => Matches(v, query));
    }

    /** `fetchComments(videoId)`. */
    method FetchComments(videoId: string) returns (r: seq<Comment>)
      ensures r == CommentsOf(comments, videoId)
    {
      r := Filter(comments, (c: Comment) => c.videoId == videoId);
    }

    /** `addComment(videoId, text)` at time `now`: exactly one new comment at the end,
        the others untouched. */
    method AddComment(videoId: string, text: string, now: int) returns (c: Comment)
      requires Valid()
      modifies this`comments
      ensures Valid()
      ensures c == NewComment(videoId, text, now)
      ensures comments == old(comments) + [c]
    {
      c := NewComment(videoId, text, now);
      comments := comments + [c];
    }

    /** `likeComment(commentId)`: an unknown id throws and changes nothing; otherwise
        the first comment with that id, and only it, takes the reaction, and a copy of
        it is returned. */
    method LikeComment(commentId: string) returns (r: Result<Comment>)
      requires Valid()
      modifies this`comments
      ensures Valid()
      ensures FindComment(old(comments), commentId).None? ==> r == Err("Comment not found") && comments == old(comments)
      ensures FindComment(old(comments), commentId).Some? ==>
        var i := FindComment(old(comments), commentId).value;
        comments == old(comments)[i := Like(old(comments)[i])] && r == Ok(comments[i])
    {
      var found := FindComment(comments, commentId);
      if found.None? {
        return Err("Comment not found");
      }
      var i := found.value;
      ReactionsKeepConsistent(comments[i]);
      comments := comments[i := Like(comments[i])];
      r := Ok(comments[i]);
    }

    /** `dislikeComment(commentId)`, symmetric to `LikeComment`. */
    method DislikeComment(commentId: string) returns (r: Result<Comment>)
      requires Valid()
      modifies this`comments
      ensures Valid()
      ensures FindComment(old(comments), commentId).None? ==> r == Err("Comment not found") && comments == old(comments)
      ensures FindComment(old(comments), commentId).Some? ==>
        var i := FindComment(old(comments), commentId).value;
        comments == old(comments)[i := Dislike(old(comments)[i])] && r == Ok(comments[i])
    {
      var found := FindComment(comments, commentId);
      if found.None? {
        return Err("Comment not found");
      }
      var i := found.value;
      ReactionsKeepConsistent(comments[i]);
      comments := comments[i := Dislike(comments[i])];
      r := Ok(comments[i]);
    }

    /** `subscribeToChannel(channelId)`: throws when no video has that channel;
        otherwise the first such video, and only it, flips its subscription flag. */
    method SubscribeToChannel(channelId: string) returns (r: Result<Video>)
      modifies this`videos
      ensures FindChannelVideo(old(videos), channelId).None? ==> r == Err("Channel not found") && videos == old(videos)
      ensures FindChannelVideo(old(videos), channelId).Some? ==>
        var i := FindChannelVideo(old(videos), channelId).value;
        videos == old(videos)[i := old(videos)[i].(isSubscribed := !old(videos)[i].isSubscribed)] && r == Ok(videos[i])
    {
      var found := FindChannelVideo(videos, channelId);
      if found.None? {
        return Err("Channel not found");
      }
      var i := found.value;
      videos := videos[i := videos[i].(isSubscribed := !videos[i].isSubscribed)];
      r := Ok(videos[i]);
    }
  }
}
