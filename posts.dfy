/**
 * PostService: creating, reading, updating and deleting posts, with every
 * title and body passed through the moderation policy on the way in.
 *
 * The clock (`now`, `today`), the replies of the moderation proxy and the
 * verdict of the unseen UserService.checkUserLimit are parameters; the
 * number of comments on a post, counted by the comment repository, is too.
 */
module Posts {
  import opened Types
  import opened Moderation
  import opened Repositories

  /** A post creation or update request: the new title and body, either possibly null. */
  datatype PostRequest = PostRequest(title: Text, content: Text)

  /** mapToDto's output: the post's fields and its author's login id and nickname. */
  datatype PostView = PostView(
    postId: int,
    userId: string,
    username: string,
    title: Text,
    content: Text,
    createdAt: Time,
    updatedAt: Time,
    count: Int32)

  /** The response of createPost and updatePost: the view plus what the client needs to show restrictions. */
  datatype PostResponse = PostResponse(
    view: PostView,
    commentCount: nat,
    endDate: Option<Time>,
    penaltyCount: nat)

  /** mapToDto: the view of a post, with the author's nickname taken from the author's row. */
  function MapToDto(post: Post, author: User): (v: PostView)
    requires author.id == post.owner
    ensures v.postId == post.postId && v.userId == author.id && v.username == author.username
    ensures v.title == post.title && v.content == post.content && v.count == post.count
    ensures v.createdAt == post.createdAt && v.updatedAt == post.updatedAt
  {
    PostView(post.postId, author.id, author.username, post.title, post.content,
             post.createdAt, post.updatedAt, post.count)
  }

  /** The penalty records after one getFilteredText call: charged once when the call penalised. */
  function AfterFilter(penalties: map<string, PenaltyRecord>, user: string, f: Filtering, today: Date): map<string, PenaltyRecord> {
    if f.penalised then Charge(penalties, user, today) else penalties
  }

  /** How many of the two texts of a request the moderation flagged (0, 1 or 2). */
  function FlaggedCount(request: PostRequest, titleCall: ModerationCall, contentCall: ModerationCall): (n: nat)
    ensures n <= 2
    ensures n == 0 <==> !Filter(request.title, titleCall).logged && !Filter(request.content, contentCall).logged
  {
    (if Filter(request.title, titleCall).logged then 1 else 0)
    + (if Filter(request.content, contentCall).logged then 1 else 0)
  }

  class PostService {
    const db: Database

    constructor (db: Database)
      ensures this.db == db
    {
      this.db := db;
    }

    /**
     * getFilteredText: moderate `text`, written by `user` in post `post`.
     * A flagged text appends exactly one log row (original and replacement)
     * and charges the user once; the replacement is returned unless the
     * charge throws. Any failure lets the text through with no side effect.
     */
    method FilteredText(text: Text, user: string, post: int, call: ModerationCall, now: Time, today: Date)
      returns (r: Text)
      requires db.Valid()
      requires post in db.posts && Has(db.users, ById, user)  // the log row refers to a saved post and its author
      modifies db`badwordLogs, db`penalties
      ensures db.Valid()
      ensures r == Filter(text, call).text
      ensures db.badwordLogs == old(db.badwordLogs) + LogEntries(text, user, post, call, now)
      ensures db.penalties == AfterFilter(old(db.penalties), user, Filter(text, call), today)
    {
      r := text;
      var verdict := Judge(text, call.reply);
      if verdict.Flag? {
        var entry := BadwordLog(user, post, text, verdict.rewritten, now);
        LogKeepsBacked(db.penalties, db.badwordLogs, [entry]);
        ChargeKeepsBacked(db.penalties, db.badwordLogs, entry, today);
        db.badwordLogs := db.badwordLogs + [entry];
        if !call.penaltyFails {
          db.penalties := Charge(db.penalties, user, today);
          r := verdict.rewritten;
        }
      }
    }

    /**
     * The two getFilteredText calls of createPost and updatePost: the title is
     * moderated first, then the body, both against the same saved post.
     */
    method ModerateRequest(request: PostRequest, user: string, post: int,
                           titleCall: ModerationCall, contentCall: ModerationCall, now: Time, today: Date)
      returns (title: Text, content: Text)
      requires db.Valid()
      requires post in db.posts && Has(db.users, ById, user)
      modifies db`badwordLogs, db`penalties
      ensures db.Valid()
      ensures title == Filter(request.title, titleCall).text
      ensures content == Filter(request.content, contentCall).text
      ensures db.badwordLogs == old(db.badwordLogs)
                                + LogEntries(request.title, user, post, titleCall, now)
                                + LogEntries(request.content, user, post, contentCall, now)
      ensures |db.badwordLogs| == |old(db.badwordLogs)| + FlaggedCount(request, titleCall, contentCall)
      ensures db.penalties == AfterFilter(AfterFilter(old(db.penalties), user, Filter(request.title, titleCall), today),
                                          user, Filter(request.content, contentCall), today)
    {
      title := FilteredText(request.title, user, post, titleCall, now, today);
      content := FilteredText(request.content, user, post, contentCall, now, today);
    }

    /**
     * createPost: an unknown user or a rejected limit check fails with nothing
     * saved. Otherwise the raw post is saved with a fresh id and view count 0,
     * the title and then the body are moderated, and the post is saved again
     * with the moderated texts.
     */
    method CreatePost(userId: string, request: PostRequest, limitAllows: bool,
                      titleCall: ModerationCall, contentCall: ModerationCall,
                      commentCount: nat, now: Time, today: Date)
      returns (r: Result<PostResponse>)
      requires db.Valid()
      modifies db`posts, db`nextPostId, db`badwordLogs, db`penalties
      ensures db.Valid()
      ensures !Has(old(db.users), ById, userId) ==> r == Err(UserNotFound) && unchanged(db)
      ensures Has(old(db.users), ById, userId) && !limitAllows ==> r == Err(LimitExceeded) && unchanged(db)
      ensures r.Ok? <==> Has(old(db.users), ById, userId) && limitAllows
      ensures r.Ok? ==>
        var id := old(db.nextPostId);
        var title := Filter(request.title, titleCall);
        var content := Filter(request.content, contentCall);
        var post := Post(id, userId, title.text, content.text, 0, now, now);
        && id !in old(db.posts)
        && db.nextPostId == id + 1
        && db.posts == old(db.posts)[id := post]
        && db.badwordLogs == old(db.badwordLogs)
                             + LogEntries(request.title, userId, id, titleCall, now)
                             + LogEntries(request.content, userId, id, contentCall, now)
        && |db.badwordLogs| == |old(db.badwordLogs)| + FlaggedCount(request, titleCall, contentCall)
        && db.penalties == AfterFilter(AfterFilter(old(db.penalties), userId, title, today),
                                       userId, content, today)
        && r.value == PostResponse(MapToDto(post, UserRow(db.users, userId)), commentCount,
                                   EndDateShown(db.limits, userId), PenaltyShown(db.penalties, userId))
    {
      var found := Find(db.users, ById, userId);
      if found.None? {
        return Err(UserNotFound);
      }
      var user := db.users[found.value];
      if !limitAllows {
        return Err(LimitExceeded);
      }
      var id := db.nextPostId;
      assert id !in db.posts;
      var provisional := Post(id, userId, request.title, request.content, 0, now, now);
      SaveKeepsWellFormed(db.posts, db.users, id + 1, provisional);
      db.posts := db.posts[id := provisional];
      db.nextPostId := id + 1;
      var title, content := ModerateRequest(request, userId, id, titleCall, contentCall, now, today);
      var updated := provisional.(title := title, content := content);
      SaveKeepsWellFormed(db.posts, db.users, db.nextPostId, updated);
      db.posts := db.posts[id := updated];
      r := Ok(PostResponse(MapToDto(updated, user), commentCount,
                           EndDateShown(db.limits, userId), PenaltyShown(db.penalties, userId)));
    }

    /**
     * getPostById: a missing post fails. With `increaseView` the view counter
     * goes up by one (Java `int` arithmetic) and nothing else changes;
     * without it nothing changes at all.
     */
    method GetPostById(postId: int, increaseView: bool) returns (r: Result<PostView>)
      requires db.Valid()
      modifies db`posts
      ensures db.Valid()
      ensures postId !in old(db.posts) ==> r == Err(PostNotFound) && unchanged(db)
      ensures !increaseView ==> unchanged(db)
      ensures postId in old(db.posts) ==>
        var before := old(db.posts)[postId];
        var after := if increaseView then before.(count := Increment(before.count)) else before;
        && db.posts == old(db.posts)[postId := after]
        && r == Ok(MapToDto(after, UserRow(db.users, after.owner)))
    {
      if postId !in db.posts {
        return Err(PostNotFound);
      }
      var post := db.posts[postId];
      if increaseView {
        post := post.(count := Increment(post.count));
        db.posts := db.posts[postId := post];
      }
      r := Ok(MapToDto(post, UserRow(db.users, post.owner)));
    }

    /**
     * updatePost: a missing post fails, then the author's limit check, then a
     * requester who is not the author; each failure leaves everything as it
     * was. Otherwise the title and then the body are moderated and stored,
     * `updatedAt` is set, and the id, author, view count and `createdAt` stay.
     */
    method UpdatePost(userId: string, postId: int, request: PostRequest, limitAllows: bool,
                      titleCall: ModerationCall, contentCall: ModerationCall,
                      commentCount: nat, now: Time, today: Date)
      returns (r: Result<PostResponse>)
      requires db.Valid()
      modifies db`posts, db`badwordLogs, db`penalties
      ensures db.Valid()
      ensures postId !in old(db.posts) ==> r == Err(PostNotFound) && unchanged(db)
      ensures postId in old(db.posts) && !limitAllows ==> r == Err(LimitExceeded) && unchanged(db)
      ensures postId in old(db.posts) && limitAllows && old(db.posts)[postId].owner != userId ==>
                r == Err(NotOwner) && unchanged(db)
      ensures r.Ok? <==> postId in old(db.posts) && limitAllows && old(db.posts)[postId].owner == userId
      ensures r.Ok? ==>
        var before := old(db.posts)[postId];
        var title := Filter(request.title, titleCall);
        var content := Filter(request.content, contentCall);
        var after := before.(title := title.text, content := content.text, updatedAt := now);
        && db.posts == old(db.posts)[postId := after]
        && after.count == before.count && after.createdAt == before.createdAt
        && db.badwordLogs == old(db.badwordLogs)
                             + LogEntries(request.title, userId, postId, titleCall, now)
                             + LogEntries(request.content, userId, postId, contentCall, now)
        && |db.badwordLogs| == |old(db.badwordLogs)| + FlaggedCount(request, titleCall, contentCall)
        && db.penalties == AfterFilter(AfterFilter(old(db.penalties), userId, title, today),
                                       userId, content, today)
        && r.value == PostResponse(MapToDto(after, UserRow(db.users, userId)), commentCount,
                                   EndDateShown(db.limits, userId), PenaltyShown(db.penalties, userId))
    {
      if postId !in db.posts {
        return Err(PostNotFound);
      }
      var post := db.posts[postId];
      var author := UserRow(db.users, post.owner);
      if !limitAllows {
        return Err(LimitExceeded);
      }
      if post.owner != userId {
        return Err(NotOwner);
      }
      var title, content := ModerateRequest(request, author.id, postId, titleCall, contentCall, now, today);
      post := post.(title := title, content := content, updatedAt := now);
      db.posts := db.posts[postId := post];
      r := Ok(PostResponse(MapToDto(post, author), commentCount,
                           EndDateShown(db.limits, author.id), PenaltyShown(db.penalties, author.id)));
    }

    /**
     * getPostsByUserId: an unknown user fails; otherwise the views of exactly
     * that user's posts (the order is the repository's and is not modelled).
     */
    function PostsByUser(userId: string): (r: Result<set<PostView>>)
      requires db.Valid()
      reads db
      ensures r.Err? <==> !Has(db.users, ById, userId)
      ensures r.Err? ==> r.error == UserNotFound
      ensures r.Ok? ==> forall v :: v in r.value ==>
                exists k :: k in db.posts && db.posts[k].owner == userId
                            && v == MapToDto(db.posts[k], UserRow(db.users, userId))
      ensures r.Ok? ==> forall k :: k in db.posts && db.posts[k].owner == userId ==>
                MapToDto(db.posts[k], UserRow(db.users, userId)) in r.value
    {
      if Find(db.users, ById, userId).None? then Err(UserNotFound)
      else
        var author := UserRow(db.users, userId);
        Ok(set k | k in db.posts && db.posts[k].owner == userId :: MapToDto(db.posts[k], author))
    }

    /** deletePost: a missing post or a requester who is not the author fails and deletes nothing. */
    method DeletePost(userId: string, postId: int) returns (r: Result<()>)
      requires db.Valid()
      modifies db`posts
      ensures db.Valid()
      ensures postId !in old(db.posts) ==> r == Err(PostNotFound) && unchanged(db)
      ensures postId in old(db.posts) && old(db.posts)[postId].owner != userId ==>
                r == Err(NotOwner) && unchanged(db)
      ensures r.Ok? <==> postId in old(db.posts) && old(db.posts)[postId].owner == userId
      ensures r.Ok? ==> db.posts == old(db.posts) - {postId}
    {
      if postId !in db.posts {
        return Err(PostNotFound);
      }
      if db.posts[postId].owner != userId {
        return Err(NotOwner);
      }
      db.posts := db.posts - {postId};
      r := Ok(());
    }
  }
}
