/**
 * Client code that uses only the services' contracts to follow three stories
 * end to end: a flagged body, an unreachable proxy, and an edit by someone who
 * is not the author.
 */
module Scenarios {
  import opened Types
  import opened Moderation
  import opened Repositories
  import opened Posts
  import opened Auth

  /** A proxy reply that flags a text and offers `replacement` for it. */
  function FlaggingCall(replacement: string): ModerationCall {
    ModerationCall(Some(Reply(200, Some(map["final_decision" := JString("1"),
                                            "result" := JObject(map["rewritten_text" := JString(replacement)])]))), false)
  }

  /** A proxy reply that lets a text pass. */
  function CleanCall(): ModerationCall {
    ModerationCall(Some(Reply(200, Some(map["final_decision" := JString("0")]))), false)
  }

  /** A fresh database with one signed-up user "alice". */
  method SetUp(encode: string -> string) returns (db: Database, posts: PostService)
    ensures fresh(db) && db.Valid() && posts.db == db
    ensures db.users == [User("alice", "Alice", "alice@example.com", encode("secret"), None, 0, 0)]
    ensures db.posts == map[] && db.nextPostId == 1 && db.badwordLogs == []
    ensures db.penalties == map["alice" := PenaltyRecord(0, 0)]
  {
    db := new Database();
    var auth := new AuthService(db, encode);
    var signedUp := auth.Signup(SignupRequest("alice", "Alice", "alice@example.com", "secret", None), false, 0, 0);
    posts := new PostService(db);
  }

  /** A body the proxy flags is stored rewritten, logged once against the new post, and charged once. */
  method FlaggedBodyIsRewritten(encode: string -> string) {
    var db, posts := SetUp(encode);
    assert db.users[0].id == "alice";
    FlaggedReplySubstitutes(Some("badword1"), "***", "alice", 1, 5);
    var r := posts.CreatePost("alice", PostRequest(Some("hello"), Some("badword1")), true,
                              CleanCall(), FlaggingCall("***"), 0, 5, 5);
    assert r.Ok?;
    assert db.posts[1].title == Some("hello");
    assert db.posts[1].content == Some("***");
    assert db.badwordLogs == [BadwordLog("alice", 1, Some("badword1"), Some("***"), 5)];
    assert db.penalties["alice"].count == 1;
    assert r.value.penaltyCount == 1;
  }

  /** When the proxy cannot be reached, the body is stored as written and nobody is charged. */
  method UnreachableProxyFailsOpen(encode: string -> string) {
    var db, posts := SetUp(encode);
    assert db.users[0].id == "alice";
    var down := ModerationCall(None, false);
    var r := posts.CreatePost("alice", PostRequest(Some("hello"), Some("badword1")), true,
                              down, down, 0, 5, 5);
    assert r.Ok?;
    assert db.posts[1].content == Some("badword1");
    assert db.badwordLogs == [];
    assert db.penalties["alice"].count == 0;
  }

  /** Someone who is not the author cannot edit a post, and the edit changes nothing. */
  method ForeignEditIsRejected(encode: string -> string) {
    var db, posts := SetUp(encode);
    assert db.users[0].id == "alice";
    var r := posts.CreatePost("alice", PostRequest(Some("hello"), Some("world")), true,
                              CleanCall(), CleanCall(), 0, 5, 5);
    assert r.Ok?;
    var before := db.posts;
    var u := posts.UpdatePost("mallory", 1, PostRequest(Some("x"), Some("y")), true,
                              FlaggingCall("*"), FlaggingCall("*"), 0, 6, 6);
    assert u == Err(NotOwner);
    assert db.posts == before;
  }
}
