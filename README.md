# Bulletin-board backend: post moderation and account rules, in Dafny

This project models the core of a community bulletin-board backend (Spring,
Java). It covers two services.

- **PostService** creates, reads, updates and deletes posts. Every new or
  edited title and body goes to an external moderation proxy. A text that the
  proxy flags (`final_decision` reads as `"1"`) is replaced by the proxy's
  rewritten text. It also gets one row in the bad-word log, and the author is
  charged one penalty. Any failure of the call lets the text through
  unchanged (fail-open).
- **AuthService** handles signup, password reset, logout, access-token
  refresh and the lookups by id, nickname and email.

Modules:

- `Types` (types.dfy): the table rows (`User`, `Post`, `PenaltyRecord`, `Limits`,
  `BadwordLog`), Java's nullable `String` as `Text = Option<string>`, Java
  `int` as `Int32`, and the errors.
- `Moderation` (moderation.dfy): the decision made by `getFilteredText`, as
  pure functions. The proxy reply is an input, `Option<Reply>`: `None` means
  the call threw. `Judge` classifies a reply, `Filter` gives the text returned
  and the side effects, and `LogEntries` gives the log rows appended.
- `Repositories` (repositories.dfy): the `Database` class holds every table.
  The user table is a sequence of rows searched by column (`Find`). Penalty
  and limits records are maps keyed by login id. Posts are a map keyed by a
  generated id, and the moderation log is a sequence that only grows. The
  invariant `Valid` says:
  - login ids are unique, and so are emails;
  - every post is keyed by its id and has an existing author;
  - every user's penalty count is backed by that many of their log rows.
    This holds because the model's log never shrinks. If log rows were
    deleted together with their post (see "Cascade deletes" below),
    `deletePost` could break it.
- `Posts` (posts.dfy): class `PostService`. Its methods change the database in
  place.
- `Auth` (auth.dfy): class `AuthService`. It holds the password encoder as an
  uninterpreted function.
- `Scenarios` (scenarios.dfy): client methods that follow three stories,
  using only the services' contracts:
  - a flagged body is stored rewritten, logged once and charged once;
  - with the proxy unreachable, the body is stored as written and nobody is
    charged;
  - an edit by someone who is not the author is rejected and changes nothing.

Behaviours of the code that are easy to misread:

- A flagged reply whose `result` object has no `rewritten_text` stores
  `null`, not the original text.
- `final_decision` counts as flagged when it is the string `"1"` or the JSON
  integer `1`, because both print as `"1"`.
- A `result` or `rewritten_text` of the wrong JSON type makes a cast throw.
  The exception is swallowed, so the text passes unchanged.
- The log row and the penalty are not atomic. If `applyPenalty` throws, the
  log row stays and the original text is returned. This assumes that
  `applyPenalty`, which is not part of this model, does not join the calling
  transaction and mark it rollback-only. If it did, the whole `createPost` or
  `updatePost` would fail and roll back instead.
- `updatePost` runs the author's limit check before it checks ownership.

## Model

| member | source | states |
|---|---|---|
| `Moderation.Judge` | src/main/java/com/example/final_backend/service/PostService.java:75-91 | Fail-open: a call that threw, a status other than 200 or a null body gives `Pass`. Otherwise a text is flagged exactly when `final_decision` is non-null and prints as "1" (both directions), unless a cast fails. A flagged verdict carries the chosen replacement. |
| `Moderation.Rewritten` | src/main/java/com/example/final_backend/service/PostService.java:85-86 | With no (or null) `result`, the replacement is the original text. With a `result` object, it is its `rewritten_text`, or null when that key is missing. A cast failure happens exactly when `result` is not an object, or `rewritten_text` is not a string. |
| `Moderation.Filter` | src/main/java/com/example/final_backend/service/PostService.java:75-108 | A text is logged iff it is flagged, and charged iff it is logged and `applyPenalty` does not throw. The replacement is returned only when the user was charged; in every other case the original text is returned. An unanswered call has no side effect. |
| `Moderation.LogEntries` | src/main/java/com/example/final_backend/service/PostService.java:91-98 | One moderation call appends exactly one row for a flagged text and none otherwise. The row holds the user, the post, `originalWord = text` and `filteredWord = rewritten`. |
| `Moderation.FlaggedReplySubstitutes` | src/main/java/com/example/final_backend/service/PostService.java:81-102 | For the reply `{"final_decision":"1","result":{"rewritten_text":R}}`, the text becomes R, one log row is written and the user is charged. |
| `Posts.PostService.FilteredText` | src/main/java/com/example/final_backend/service/PostService.java:48-109 | The method returns `Filter`'s text. It appends exactly `LogEntries` to the log, and charges the author once exactly when `Filter` says so. The post must already be saved. The database invariant is kept. |
| `Posts.PostService.ModerateRequest` | src/main/java/com/example/final_backend/service/PostService.java:131-132 | The title is moderated first, then the body. The texts returned are `Filter`'s. The log grows by the title's `LogEntries` followed by the body's, which is 0 to 2 rows. The author is charged once for each charged field. |
| `Posts.PostService.CreatePost` | src/main/java/com/example/final_backend/service/PostService.java:115-173 | An unknown user fails, then a rejected limit check; neither saves anything. On success the post gets the next id, view count 0 and the moderated title and body. The title is moderated before the body. The log grows by the number of flagged fields (0 to 2). The response shows penalty 0 and end date null when those records are missing. |
| `Posts.PostService.GetPostById` | src/main/java/com/example/final_backend/service/PostService.java:187-199 | A missing post fails. With `increaseView` only the view counter changes, by +1 in Java `int` arithmetic. Without it nothing changes. The result is the post's view. |
| `Posts.PostService.PostsByUser` | src/main/java/com/example/final_backend/service/PostService.java:202-210 | An unknown user fails. Otherwise the result holds the view of every post by that user, and only such views. |
| `Posts.PostService.UpdatePost` | src/main/java/com/example/final_backend/service/PostService.java:214-262 | A missing post fails, then a rejected limit check, then a non-author; each leaves everything unchanged. On success only the title, the body (the moderated texts) and `updatedAt` change. The view count and `createdAt` are kept. The log and penalties change as in `CreatePost`. |
| `Posts.PostService.DeletePost` | src/main/java/com/example/final_backend/service/PostService.java:266-276 | A missing post fails, then a non-author; neither deletes anything. Otherwise exactly that post is removed. |
| `Posts.MapToDto` | src/main/java/com/example/final_backend/service/PostService.java:279-290 | The view shows the post's id, texts, timestamps and view count, with the author's login id and nickname. |
| `Posts.FlaggedCount` | src/main/java/com/example/final_backend/service/PostService.java:134-135 | Of the two fields of a request, at most 2 are flagged, and the count is 0 exactly when neither is flagged. |
| `Repositories.PenaltyShown` | src/main/java/com/example/final_backend/service/PostService.java:149-153 | The penalty count shown is the record's count, or 0 when the user has no penalty record. |
| `Repositories.EndDateShown` | src/main/java/com/example/final_backend/service/PostService.java:143-147 | The restriction end shown is the limits record's end date, or null when the user has no limits record. |
| `Repositories.Charge` | src/main/java/com/example/final_backend/service/PostService.java:100 | `applyPenalty` raises the user's count by exactly one (a missing record counts as 0) and leaves every other user's record as it was. |
| `Repositories.ChargeKeepsBacked` | src/main/java/com/example/final_backend/service/PostService.java:91-102 | Charging a user together with one log row for them keeps every user's penalty count at most their number of log rows. |
| `Repositories.LogKeepsBacked` | src/main/java/com/example/final_backend/service/PostService.java:91-98 | Appending log rows without a charge keeps every penalty count backed by the log. |
| `Repositories.LogCountAppend` | src/main/java/com/example/final_backend/service/PostService.java:98 | Per user, the number of log rows in a log extended by appending is the sum of the rows in the two parts. |
| `Types.Increment` | src/main/java/com/example/final_backend/service/PostService.java:194 | `count + 1` on a Java `int`: exactly one more below the maximum, and the maximum wraps to the minimum. |
| `Repositories.Find` | src/main/java/com/example/final_backend/service/AuthService.java:52-57 | The lookup by login id or email returns the first row holding the key, and nothing exactly when no row holds it. These columns are unique under `Valid`, so the first row is the only one. |
| `Repositories.FindOne` | src/main/java/com/example/final_backend/service/AuthService.java:195 | The single-result finder throws exactly when two rows hold the key. Otherwise it returns nothing exactly when no row holds the key, or else the one row that holds it. |
| `Repositories.UniqueFindOne` | src/main/java/com/example/final_backend/service/AuthService.java:199-202 | In a column without duplicates, the single-result finder never throws and agrees with `Find`. |
| `Repositories.SaveKeepsWellFormed` | src/main/java/com/example/final_backend/service/PostService.java:128-133 | Saving a post under its own id, below the next id and with an existing author, keeps the post table well formed. |
| `Repositories.AppendKeepsUnique` | src/main/java/com/example/final_backend/service/AuthService.java:52-71 | Adding a row whose key is not yet in a column keeps that column free of duplicates. |
| `Auth.AuthService.Signup` | src/main/java/com/example/final_backend/service/AuthService.java:50-93 | A taken id is rejected first, then a taken email; a rejection leaves every table unchanged. A welcome mail that fails to send rolls the whole signup back and fails. Otherwise exactly one user is added with the given id, nickname, email and `encode(pw)`. The user gets a penalty record at 0 and an active limits record with no dates. Ids and emails stay unique. |
| `Auth.AuthService.ResetPassword` | src/main/java/com/example/final_backend/service/AuthService.java:207-218 | An unknown id fails, then an email mismatch; both leave the password unchanged. On success only that user's password (`encode(newPw)`) and `updatedAt` change. The id and email are untouched. |
| `Auth.StripBearer` | src/main/java/com/example/final_backend/service/AuthService.java:169-171 | A token that starts with "Bearer " loses exactly that prefix (prefix + result = token). Any other token, and null, is kept as it is. |
| `Auth.StripBearerInverse` | src/main/java/com/example/final_backend/service/AuthService.java:170 | Stripping undoes prefixing, and only one prefix is removed, even from "Bearer Bearer t". |
| `Auth.AuthService.Logout` | src/main/java/com/example/final_backend/service/AuthService.java:167-177 | The stripped token is passed to the JWT service, together with its subject, exactly when a subject is found. A token with no subject revokes nothing. |
| `Auth.AuthService.RefreshToken` | src/main/java/com/example/final_backend/service/AuthService.java:138-164 | A token with no subject fails, then a token that is not the stored one, then an unknown user. It succeeds exactly when none of these applies. On success the same refresh token comes back, typed "Bearer", with the user's id, nickname and a reissued access token. |
| `Auth.AuthService.IsIdDuplicate` | src/main/java/com/example/final_backend/service/AuthService.java:189-191 | True exactly when some user has this login id. |
| `Auth.AuthService.IsNameDuplicate` | src/main/java/com/example/final_backend/service/AuthService.java:194-196 | Throws exactly when two users share this nickname, which signup does not prevent. Otherwise it is true exactly when some user has this nickname. |
| `Auth.AuthService.FindIdByEmail` | src/main/java/com/example/final_backend/service/AuthService.java:199-203 | Fails with "not registered" exactly when nobody has this email. Fails with a non-unique result exactly when two users share it, which cannot happen when emails are unique. Otherwise it returns the login id of the one user with this email. |

## Left out

- Building the request (canonical JSON, SHA-256 digest, HS256-signed service token), the headers and the HTTP call itself. These are library and network code. Only the reply is modelled, and a failure anywhere in them is the `None` reply.
- The reply body is a JSON object decoded by Jackson. A body that is not an object makes the call throw, which is the `None` reply. A fractional number prints with a fraction and so never reads as "1".
- `UserService.applyPenalty` is not part of this model. It is read as "the count goes up by one (a missing record counts as 0) and the record is dated today", and it may throw (`penaltyFails`).
- `UserService.checkUserLimit` is not part of this model. Its verdict is the `limitAllows` input; the limit-window rules are not modelled.
- The clock: `now` and `today` are inputs. `createdAt` and `updatedAt` of a new post or user share one `now`.
- `PasswordEncoder` internals: `encode` is an uninterpreted function.
- `JwtService` (subject extraction, the stored refresh-token check, token issuing, the blacklist) enters as function parameters. `Logout` returns what it passes on.
- The comment repository: the comment count is an input.
- `login`: it is delegated entirely to the authentication manager.
- The content and delivery of the welcome mail sent by `signup`. Only whether sending throws is modelled (`mailFails`). The console logging is left out too.
- Auth.AuthService.IsNameDuplicate: the user entity's schema is not part of this model. If it declares nicknames unique, a second `signup` with a taken nickname would fail when saved, and `Signup` does not model that failure.
- `getAllPosts`, paging, search and `getMyPosts`: these are ordered or paged repository queries.
- `Posts.PostService.PostsByUser`: returns a set of views, so the repository's order is not modelled.
- Transactions: every operation runs to completion or fails before changing anything. The two exceptions are the non-atomic log/penalty pair above and a failed welcome mail, which rolls back the rows `signup` saved. Concurrent requests are not modelled.
- Cascade deletes: deleting a post leaves its log rows; the log only grows.
- Penalty counts are unbounded naturals, not Java `int`.
- Null ids, emails and passwords in requests are not modelled; only titles, bodies, the profile image and the logout token may be null.
- Keys: the penalty and limits records are keyed by the user's login id. The source reaches them through the user entity and its own key (`getUserId`), which names the same user.
